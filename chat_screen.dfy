/**
 * The conversation screen: the chat sessions and their messages, the send / stream / stop /
 * retry / edit life cycle of a reply, the title guard, and the drawer's pin, rename, delete and
 * ordering. The screen's state is mutated in place by the `MainView` class below; the functions
 * on `State` are what its methods are proved against.
 *
 * Fresh UUIDs, the current date and the network are inputs: a method that would create a UUID
 * or read the clock takes the value as a parameter, and the callbacks of the chat client are
 * methods called with the values the closure captured.
 */
module ChatScreen {
  import opened Wrappers
  import opened Text
  import opened Lists
  import opened ChatMessages
  import opened Sorting
  import opened SparkChat

  const NewChatTitle := "新建聊天"
  const FailurePrefix := "请求失败："

  /** A conversation. Dates are timestamps; only their order matters. */
  datatype ChatSession = ChatSession(
    id: Uuid,
    title: string,
    messages: seq<ChatMessage>,
    isPinned: bool,
    createdAt: int,
    lastMessageAt: Option<int>)

  // ---------------------------------------------------------------------------------------------
  // Lookups

  function MessageKey(m: ChatMessage): Uuid {
    m.id
  }

  function ChatKey(c: ChatSession): Uuid {
    c.id
  }

  /** `messages.firstIndex(where: { $0.id == id })`. */
  function MessageIndex(ms: seq<ChatMessage>, id: Uuid): Option<nat> {
    IndexOfKey(ms, MessageKey, id)
  }

  /** `chats.firstIndex(where: { $0.id == id })`. */
  function ChatIndex(chats: seq<ChatSession>, id: Uuid): Option<nat> {
    IndexOfKey(chats, ChatKey, id)
  }

  /** The lookup sees only the ids, so sessions edited in place are found where they were. */
  lemma ChatIndexIds(a: seq<ChatSession>, b: seq<ChatSession>, id: Uuid)
    requires |a| == |b| && forall k :: 0 <= k < |a| ==> a[k].id == b[k].id
    ensures ChatIndex(a, id) == ChatIndex(b, id)
  {
    IndexOfSameKeys(a, b, ChatKey, id);
  }

  /** The first message at or after `from` that is not the user's. */
  function FirstReplyFrom(ms: seq<ChatMessage>, from: nat): (r: Option<nat>)
    ensures r.Some? ==> from <= r.value < |ms| && !ms[r.value].isUser
    ensures r.Some? ==> forall k :: from <= k < r.value ==> ms[k].isUser
    ensures r.None? ==> forall k :: from <= k < |ms| ==> ms[k].isUser
    decreases |ms| - from
  {
    if from >= |ms| then None
    else if !ms[from].isUser then Some(from)
    else FirstReplyFrom(ms, from + 1)
  }

  // ---------------------------------------------------------------------------------------------
  // Message lists

  /** The messages whose text is not empty, in order: the history a request carries. */
  function Spoken(ms: seq<ChatMessage>): (r: seq<ChatMessage>)
    ensures |r| <= |ms|
    ensures forall k :: 0 <= k < |r| ==> r[k].text != []
  {
    if ms == [] then [] else (if ms[0].text != [] then [ms[0]] else []) + Spoken(ms[1..])
  }

  /** The history holds the messages with text and nothing else. */
  lemma {:induction false} SpokenMembers(ms: seq<ChatMessage>)
    ensures forall m :: m in Spoken(ms) ==> m in ms && m.text != []
    ensures forall m :: m in ms && m.text != [] ==> m in Spoken(ms)
  {
    if ms != [] {
      SpokenMembers(ms[1..]);
      assert ms == [ms[0]] + ms[1..];
    }
  }

  /** The history of a longer list is the history of its parts, in order. */
  lemma {:induction false} SpokenAppend(a: seq<ChatMessage>, b: seq<ChatMessage>)
    ensures Spoken(a + b) == Spoken(a) + Spoken(b)
  {
    if a != [] {
      assert (a + b)[1..] == a[1..] + b;
      SpokenAppend(a[1..], b);
    } else {
      assert a + b == b;
    }
  }

  /** `removeAll { $0.id == id }`. */
  function RemoveId(ms: seq<ChatMessage>, id: Uuid): seq<ChatMessage> {
    WithoutKey(ms, MessageKey, id)
  }

  /** The number of the user's messages. */
  function UserCount(ms: seq<ChatMessage>): (n: nat)
    ensures n <= |ms|
    ensures n == 0 <==> forall k :: 0 <= k < |ms| ==> !ms[k].isUser
  {
    if ms == [] then 0 else (if ms[0].isUser then 1 else 0) + UserCount(ms[1..])
  }

  /** One in-place change to a message. */
  datatype Edit =
    | Restart              // a regenerated reply: emptied, streaming, complete
    | AddText(delta: string)
    | Freeze(text: string)   // a stopped reply: this text, not streaming, incomplete
    | EndStream
    | Retryable(flag: bool)
    | Blank

  function Apply(m: ChatMessage, e: Edit): (r: ChatMessage)
    ensures r.id == m.id && r.isUser == m.isUser && r.apiContent == m.apiContent
  {
    match e
    case Restart => m.(text := "", isStreaming := true, isIncomplete := false)
    case AddText(d) => m.(text := m.text + d, isIncomplete := false)
    case Freeze(t) => m.(text := t, isStreaming := false, isIncomplete := true)
    case EndStream => m.(isStreaming := false)
    case Retryable(f) => m.(canRetry := f)
    case Blank => m.(text := "")
  }

  // ---------------------------------------------------------------------------------------------
  // The screen's state

  datatype State = State(
    chats: seq<ChatSession>,
    currentChatId: Uuid,
    isSending: bool,
    hasTask: bool,
    currentAssistantId: Option<Uuid>,
    currentUserId: Option<Uuid>,
    currentTargetAssistantId: Option<Uuid>,
    currentAssistantText: string,
    inputText: string,
    isInputFocused: bool,
    pendingPrompt: string,
    lastChatId: Option<Uuid>)

  /** A fresh screen holds the default session and shows it. */
  function Initial(session: ChatSession): State {
    State([session], session.id, false, false, None, None, None, "", "", false, "", None)
  }

  /** `currentChatIndex`. */
  function Current(s: State): Option<nat> {
    ChatIndex(s.chats, s.currentChatId)
  }

  /** `currentMessages`: the shown chat's messages, or none when no chat has the current id. */
  function Messages(s: State): seq<ChatMessage> {
    match Current(s)
    case None => []
    case Some(i) => s.chats[i].messages
  }

  /**
   * The shown chat's messages replaced; nothing at all when no chat is shown. Every session stays
   * where it was and every other field as it was.
   */
  function WithMessages(s: State, ms: seq<ChatMessage>): (t: State)
    ensures t.(chats := s.chats) == s
    ensures |t.chats| == |s.chats| && Current(t) == Current(s)
    ensures Current(s).Some? ==> Messages(t) == ms
    ensures Current(s).None? ==> t == s
    ensures forall k :: 0 <= k < |s.chats| && Some(k) != Current(s) ==> t.chats[k] == s.chats[k]
  {
    match Current(s)
    case None => s
    case Some(i) =>
      var t := s.(chats := s.chats[i := s.chats[i].(messages := ms)]);
      ChatIndexIds(s.chats, t.chats, s.currentChatId);
      t
  }

  /** `appendMessage`. */
  function Append(s: State, m: ChatMessage): (t: State)
    ensures t.(chats := s.chats) == s && Current(t) == Current(s)
    ensures Current(s).Some? ==> Messages(t) == Messages(s) + [m]
    ensures Current(s).None? ==> t == s
  {
    WithMessages(s, Messages(s) + [m])
  }

  /** `removeMessage(id:)`. */
  function Remove(s: State, id: Uuid): (t: State)
    ensures t.(chats := s.chats) == s && Current(t) == Current(s)
    ensures Current(s).Some? ==> Messages(t) == RemoveId(Messages(s), id)
    ensures Current(s).None? ==> t == s
  {
    WithMessages(s, RemoveId(Messages(s), id))
  }

  /**
   * The edit applied to the first message with that id in the shown chat, if there is one; that
   * one message changes and nothing else, so every lookup by id finds what it found before.
   */
  function EditById(s: State, id: Uuid, e: Edit): (t: State)
    ensures t.(chats := s.chats) == s && Current(t) == Current(s)
    ensures |Messages(t)| == |Messages(s)|
    ensures MessageIndex(Messages(s), id).None? ==> t == s
    ensures MessageIndex(Messages(s), id).Some? ==>
      var j := MessageIndex(Messages(s), id).value;
      Messages(t) == Messages(s)[j := Apply(Messages(s)[j], e)]
  {
    var ms := Messages(s);
    match MessageIndex(ms, id)
    case None => s
    case Some(j) => WithMessages(s, ms[j := Apply(ms[j], e)])
  }

  /** Every lookup by id in the shown chat finds, after an edit, what it found before. */
  lemma EditByIdFinds(s: State, id: Uuid, e: Edit, other: Uuid)
    ensures MessageIndex(Messages(EditById(s, id, e)), other) == MessageIndex(Messages(s), other)
  {
    var ms := Messages(s);
    if MessageIndex(ms, id).Some? {
      IndexOfSameKeys(ms, Messages(EditById(s, id, e)), MessageKey, other);
    }
  }

  // ---------------------------------------------------------------------------------------------
  // Sending

  /** `sendUserMessage` goes ahead only for content that is not blank, and never while sending. */
  predicate Proceeds(s: State, content: string) {
    TrimWhite(content) != [] && !s.isSending
  }

  /** The bubble's text: the trimmed display text when one is given, else the trimmed content. */
  function ShowText(content: string, displayText: Option<string>): string {
    if displayText.Some? then TrimWhite(displayText.value) else TrimWhite(content)
  }

  /** The user's message: `apiContent` holds the trimmed content only when a display text was given. */
  function UserMessage(id: Uuid, content: string, displayText: Option<string>): ChatMessage {
    ChatMessage(id, ShowText(content, displayText),
                if displayText.Some? then Some(TrimWhite(content)) else None, true, false, false, false)
  }

  /** The shown chat's `lastMessageAt` set to `now`. */
  function Stamp(s: State, now: int): State {
    match Current(s)
    case None => s
    case Some(i) => s.(chats := s.chats[i := s.chats[i].(lastMessageAt := Some(now))])
  }

  /** The new streaming reply `sendChat` appends. */
  function Placeholder(id: Uuid): ChatMessage {
    ChatMessage(id, "", None, false, true, false, false)
  }

  /**
   * `sendChat`: the targeted reply, when it is in the shown chat, restarted in place, else a new
   * streaming reply appended; then the screen is sending and tracks that reply and the user's
   * message.
   */
  function SendChatState(s: State, userId: Uuid, replace: Option<Uuid>, freshId: Uuid): State {
    var aid := replace.GetOr(freshId);
    var s1 := if replace.Some? && MessageIndex(Messages(s), replace.value).Some?
      then EditById(s, replace.value, Restart)
      else Append(s, Placeholder(aid));
    s1.(isSending := true, hasTask := true, currentAssistantId := Some(aid), currentUserId := Some(userId),
        currentAssistantText := "")
  }

  /** What a request carries: the shown chat's messages with text, in order, on the wire. */
  function History(s: State): seq<BackendMessage> {
    AsBackendMessages(Spoken(Messages(s)))
  }

  /** `sendUserMessage`'s effect on the screen. */
  function SendUserMessageState(s: State, content: string, displayText: Option<string>, replace: Option<Uuid>,
                                userId: Uuid, freshId: Uuid, now: int): State {
    if !Proceeds(s, content) then s else QuestionSent(s, UserMessage(userId, content, displayText), replace, userId, freshId, now)
  }

  /** The question appended, the chat stamped and remembered, and the reply requested. */
  function QuestionSent(s: State, question: ChatMessage, replace: Option<Uuid>, userId: Uuid, freshId: Uuid,
                        now: int): State {
    var s1 := Stamp(Append(s, question), now).(lastChatId := Some(s.currentChatId));
    SendChatState(s1, userId, replace, freshId)
  }

  /** `updateTitleIfNeeded`'s guard: the chat exists, is still untitled and holds one user message. */
  predicate NeedsTitle(chats: seq<ChatSession>, chatId: Uuid) {
    match ChatIndex(chats, chatId)
    case None => false
    case Some(i) => chats[i].title == NewChatTitle && UserCount(chats[i].messages) == 1
  }

  /** The title callback: a non-empty fetched title, or the default title for anything else. */
  function ApplyTitle(chats: seq<ChatSession>, chatId: Uuid, fetched: Option<string>): seq<ChatSession> {
    match ChatIndex(chats, chatId)
    case None => chats
    case Some(i) =>
      chats[i := chats[i].(title := if fetched.Some? && fetched.value != [] then fetched.value else NewChatTitle)]
  }

  /** A blank content, or a send while sending, changes nothing. */
  lemma SendUserMessageGuard(s: State, content: string, displayText: Option<string>, replace: Option<Uuid>,
                             userId: Uuid, freshId: Uuid, now: int)
    requires TrimWhite(content) == [] || s.isSending
    ensures SendUserMessageState(s, content, displayText, replace, userId, freshId, now) == s
  {
  }

  /**
   * A new question in the shown chat appends the user's message and then a streaming reply with
   * the fresh id, and the screen is sending and tracking both.
   */
  lemma SendUserMessageAppends(s: State, content: string, displayText: Option<string>,
                               userId: Uuid, freshId: Uuid, now: int)
    requires Proceeds(s, content) && Current(s).Some?
    ensures var t := SendUserMessageState(s, content, displayText, None, userId, freshId, now);
      && Current(t) == Current(s)
      && Messages(t) == Messages(s) + [UserMessage(userId, content, displayText), Placeholder(freshId)]
      && t.chats[Current(s).value].lastMessageAt == Some(now)
      && t.isSending && t.currentAssistantId == Some(freshId) && t.currentUserId == Some(userId)
      && t.currentAssistantText == "" && t.lastChatId == Some(s.currentChatId)
  {
    QuestionAppends(s, UserMessage(userId, content, displayText), userId, freshId, now);
  }

  lemma QuestionAppends(s: State, question: ChatMessage, userId: Uuid, freshId: Uuid, now: int)
    requires Current(s).Some?
    ensures var t := QuestionSent(s, question, None, userId, freshId, now);
      && Current(t) == Current(s)
      && Messages(t) == Messages(s) + [question, Placeholder(freshId)]
      && t.chats[Current(s).value].lastMessageAt == Some(now)
      && t.isSending && t.currentAssistantId == Some(freshId) && t.currentUserId == Some(userId)
      && t.currentAssistantText == "" && t.lastChatId == Some(s.currentChatId)
  {
    var s0 := Append(s, question);
    var s1 := Stamp(s0, now);
    ChatIndexIds(s0.chats, s1.chats, s.currentChatId);
  }

  /** The user's message shows the trimmed display text, and carries the content only beside one. */
  lemma UserMessageFields(id: Uuid, content: string, displayText: Option<string>)
    ensures var m := UserMessage(id, content, displayText);
      && m.isUser && !m.canRetry && !m.isStreaming
      && (displayText.None? ==> m.text == TrimWhite(content) && m.apiContent == None)
      && (displayText.Some? ==> m.text == TrimWhite(displayText.value) && m.apiContent == Some(TrimWhite(content)))
  {
  }

  /**
   * Regenerating a reply that is in the shown chat restarts it where it is: the list keeps its
   * length, and that reply is empty, streaming and complete.
   */
  lemma SendChatRestarts(s: State, userId: Uuid, target: Uuid, freshId: Uuid, j: nat)
    requires MessageIndex(Messages(s), target) == Some(j)
    ensures var t := SendChatState(s, userId, Some(target), freshId);
      && |Messages(t)| == |Messages(s)|
      && Messages(t)[j].id == target && Messages(t)[j].text == [] && Messages(t)[j].isStreaming && !Messages(t)[j].isIncomplete
      && (forall k :: 0 <= k < |Messages(s)| && k != j ==> Messages(t)[k] == Messages(s)[k])
      && t.isSending && t.currentAssistantId == Some(target)
  {
  }

  /** Every request carries only messages with text, in the order they are shown, on the wire. */
  lemma HistoryMeaning(s: State)
    ensures |History(s)| <= |Messages(s)|
    ensures forall k :: 0 <= k < |History(s)| ==> History(s)[k].content != []
    ensures forall m :: m in Messages(s) && m.text != [] ==> AsBackendMessage(m) in History(s)
  {
    var sp := Spoken(Messages(s));
    SpokenMembers(Messages(s));
    forall m | m in Messages(s) && m.text != [] ensures AsBackendMessage(m) in History(s) {
      var k :| 0 <= k < |sp| && sp[k] == m;
      assert History(s)[k] == AsBackendMessage(m);
    }
  }

  // ---------------------------------------------------------------------------------------------
  // The reply's callbacks

  /**
   * `onDelta`: the delta appended to the reply, which is then complete, and the tracked text set
   * to the reply's text; nothing when the reply is no longer shown.
   */
  function OnDeltaState(s: State, aid: Uuid, delta: string): State {
    var ms := Messages(s);
    match MessageIndex(ms, aid)
    case None => s
    case Some(j) => EditById(s, aid, AddText(delta)).(currentAssistantText := ms[j].text + delta)
  }

  /** The deltas delivered in order. */
  function Deliver(s: State, aid: Uuid, deltas: seq<string>): State
    decreases |deltas|
  {
    if deltas == [] then s else Deliver(OnDeltaState(s, aid, deltas[0]), aid, deltas[1..])
  }

  /**
   * The reply accumulates the deltas in order: its text is what it was followed by all of them,
   * and it stays where it is in the shown chat.
   */
  lemma {:induction false} DeliverAccumulates(s: State, aid: Uuid, deltas: seq<string>, j: nat)
    requires MessageIndex(Messages(s), aid) == Some(j)
    ensures var t := Deliver(s, aid, deltas);
      && Current(t) == Current(s)
      && |Messages(t)| == |Messages(s)|
      && MessageIndex(Messages(t), aid) == Some(j)
      && Messages(t)[j].text == Messages(s)[j].text + Concat(deltas)
    decreases |deltas|
  {
    if deltas != [] {
      var s1 := OnDeltaState(s, aid, deltas[0]);
      OnDeltaStep(s, aid, deltas[0], j);
      DeliverAccumulates(s1, aid, deltas[1..], j);
      ConcatStep(Messages(s)[j].text, deltas);
    }
  }

  /** Text followed by the first delta and then the rest is text followed by all deltas. */
  lemma ConcatStep(before: string, deltas: seq<string>)
    requires deltas != []
    ensures before + deltas[0] + Concat(deltas[1..]) == before + Concat(deltas)
  {
    var rest := Concat(deltas[1..]);
    assert Concat(deltas) == deltas[0] + rest;
    assert before + deltas[0] + rest == before + (deltas[0] + rest);
  }

  /** After at least one delta the tracked text is the reply's text and the reply is complete. */
  lemma {:induction false} DeliverTracks(s: State, aid: Uuid, deltas: seq<string>, j: nat)
    requires MessageIndex(Messages(s), aid) == Some(j) && deltas != []
    ensures var t := Deliver(s, aid, deltas);
      && j < |Messages(t)| && t.currentAssistantText == Messages(t)[j].text && !Messages(t)[j].isIncomplete
    decreases |deltas|
  {
    var s1 := OnDeltaState(s, aid, deltas[0]);
    OnDeltaStep(s, aid, deltas[0], j);
    if |deltas| > 1 {
      DeliverTracks(s1, aid, deltas[1..], j);
    } else {
      assert Deliver(s1, aid, deltas[1..]) == s1;
    }
  }

  /** One delta: appended to the reply, which stays where it is, and copied to the tracked text. */
  lemma OnDeltaStep(s: State, aid: Uuid, delta: string, j: nat)
    requires MessageIndex(Messages(s), aid) == Some(j)
    ensures var t := OnDeltaState(s, aid, delta);
      && Current(t) == Current(s)
      && |Messages(t)| == |Messages(s)|
      && MessageIndex(Messages(t), aid) == Some(j)
      && Messages(t)[j].text == Messages(s)[j].text + delta
      && t.currentAssistantText == Messages(t)[j].text && !Messages(t)[j].isIncomplete
  {
    EditByIdFinds(s, aid, AddText(delta), aid);
    assert Messages(OnDeltaState(s, aid, delta)) == Messages(EditById(s, aid, AddText(delta)));
  }

  /** What `onComplete` is called with: success, the request's cancellation, or another failure. */
  function FailureText(e: StreamError): string
    requires !e.Cancellation?
  {
    FailurePrefix + Describe(e)
  }

  /** Some message with one of the two ids may be retried. */
  predicate RetryableAmong(ms: seq<ChatMessage>, a: Uuid, b: Uuid) {
    exists k :: 0 <= k < |ms| && ms[k].canRetry && (ms[k].id == a || ms[k].id == b)
  }

  /** The copy of the question re-appended when it is gone: retryable. */
  function QuestionCopy(id: Uuid, content: string, displayText: Option<string>): ChatMessage {
    ChatMessage(id, displayText.GetOr(content), if displayText.Some? then Some(content) else None, true, false, true, false)
  }

  /**
   * The question after a failure: retryable where it is, or re-appended as a retryable copy. Every
   * message that was there keeps its place and id.
   */
  function KeepQuestion(s: State, userId: Uuid, copy: ChatMessage): (t: State)
    requires copy.canRetry
    ensures t.(chats := s.chats) == s && Current(t) == Current(s)
    ensures Current(s).Some? ==> RetryableAmong(Messages(t), userId, copy.id)
    ensures |Messages(s)| <= |Messages(t)| <= |Messages(s)| + 1
    ensures forall k :: 0 <= k < |Messages(t)| ==>
      if k < |Messages(s)| then Messages(t)[k].id == Messages(s)[k].id else Messages(t)[k] == copy
  {
    var ms := Messages(s);
    match MessageIndex(ms, userId)
    case Some(j) =>
      var t := EditById(s, userId, Retryable(true));
      assert Messages(t) == ms[j := Apply(ms[j], Retryable(true))];
      assert Messages(t)[j].canRetry && Messages(t)[j].id == userId;
      t
    case None =>
      var t := Append(s, copy);
      assert Current(s).Some? ==> Messages(t) == ms + [copy] && Messages(t)[|ms|] == copy;
      assert Current(s).None? ==> Messages(t) == ms;
      t
  }

  /**
   * The failure shown at the end, unless the last message already shows it: what was there stays,
   * and at most the one failure message is added.
   */
  function ShowFailure(s: State, text: string, errorId: Uuid): (t: State)
    ensures t.(chats := s.chats) == s && Current(t) == Current(s)
    ensures Current(s).Some? ==> Messages(t) != [] && Messages(t)[|Messages(t)| - 1].text == text
    ensures Messages(s) <= Messages(t) && |Messages(t)| <= |Messages(s)| + 1
    ensures |Messages(t)| > |Messages(s)| ==> Messages(t)[|Messages(s)|].id == errorId
    ensures var ms := Messages(s); ms != [] && ms[|ms| - 1].text == text ==> t == s
  {
    var ms := Messages(s);
    if ms != [] && ms[|ms| - 1].text == text then s
    else Append(s, ChatMessage(errorId, text, None, false, false, false, false))
  }

  /** The failure path: the reply removed, the question kept retryable, the failure shown once. */
  function FailState(s: State, aid: Uuid, userId: Uuid, content: string, displayText: Option<string>,
                     text: string, freshUserId: Uuid, freshErrorId: Uuid): State {
    ShowFailure(KeepQuestion(Remove(s, aid), userId, QuestionCopy(freshUserId, content, displayText)), text, freshErrorId)
  }

  /**
   * `onComplete`: sending ends; the tracking is cleared when it still tracks this reply; the
   * reply stops streaming; then success clears the question's retry flag, cancellation leaves
   * everything as `stopSending` left it, and any other failure takes the failure path.
   */
  function OnCompleteState(s: State, aid: Uuid, userId: Uuid, content: string, displayText: Option<string>,
                           outcome: Outcome, freshUserId: Uuid, freshErrorId: Uuid): State {
    var s3 := EndReply(s, aid);
    match outcome
    case Success(_) => EditById(s3, userId, Retryable(false))
    case Failure(e) =>
      if e.Cancellation? then s3
      else FailState(s3, aid, userId, content, displayText, FailureText(e), freshUserId, freshErrorId)
  }

  /** The common start of `onComplete`. */
  function EndReply(s: State, aid: Uuid): State {
    var s1 := s.(isSending := false);
    var s2 := if s1.currentAssistantId == Some(aid)
      then s1.(currentAssistantId := None, currentUserId := None, hasTask := false, currentAssistantText := "")
      else s1;
    EditById(s2, aid, EndStream)
  }

  /** After any completion the screen is no longer sending. */
  lemma CompleteEndsSending(s: State, aid: Uuid, userId: Uuid, content: string, displayText: Option<string>,
                            outcome: Outcome, freshUserId: Uuid, freshErrorId: Uuid)
    ensures !OnCompleteState(s, aid, userId, content, displayText, outcome, freshUserId, freshErrorId).isSending
  {
  }

  /** In the shown chat the failure path ends with the failure text. */
  lemma FailShowsText(s: State, aid: Uuid, userId: Uuid, content: string, displayText: Option<string>,
                      text: string, freshUserId: Uuid, freshErrorId: Uuid)
    requires Current(s).Some?
    ensures var ms := Messages(FailState(s, aid, userId, content, displayText, text, freshUserId, freshErrorId));
      ms != [] && ms[|ms| - 1].text == text
  {
    var s2 := KeepQuestion(Remove(s, aid), userId, QuestionCopy(freshUserId, content, displayText));
    assert Current(s2).Some?;
  }

  /** In the shown chat the failure path leaves no message with the reply's id. */
  lemma FailDropsReply(s: State, aid: Uuid, userId: Uuid, content: string, displayText: Option<string>,
                       text: string, freshUserId: Uuid, freshErrorId: Uuid)
    requires Current(s).Some? && freshUserId != aid && freshErrorId != aid
    ensures var ms := Messages(FailState(s, aid, userId, content, displayText, text, freshUserId, freshErrorId));
      forall k :: 0 <= k < |ms| ==> ms[k].id != aid
  {
    var s1 := Remove(s, aid);
    var s2 := KeepQuestion(s1, userId, QuestionCopy(freshUserId, content, displayText));
    var b := Messages(s2);
    assert forall k :: 0 <= k < |b| ==> b[k].id != aid;
    ExtendAvoids(b, Messages(ShowFailure(s2, text, freshErrorId)), aid, freshErrorId);
  }

  /** In the shown chat the failure path keeps a retryable message with the question's id or the copy's. */
  lemma FailKeepsQuestion(s: State, aid: Uuid, userId: Uuid, content: string, displayText: Option<string>,
                          text: string, freshUserId: Uuid, freshErrorId: Uuid)
    requires Current(s).Some?
    ensures RetryableAmong(Messages(FailState(s, aid, userId, content, displayText, text, freshUserId, freshErrorId)),
                           userId, freshUserId)
  {
    var s2 := KeepQuestion(Remove(s, aid), userId, QuestionCopy(freshUserId, content, displayText));
    ExtendRetryable(Messages(s2), Messages(ShowFailure(s2, text, freshErrorId)), userId, freshUserId);
  }

  /** A list extended by at most one message with another id still has none with `id`. */
  lemma ExtendAvoids(b: seq<ChatMessage>, c: seq<ChatMessage>, id: Uuid, other: Uuid)
    requires b <= c && |c| <= |b| + 1 && (|c| > |b| ==> c[|b|].id == other) && other != id
    requires forall k :: 0 <= k < |b| ==> b[k].id != id
    ensures forall k :: 0 <= k < |c| ==> c[k].id != id
  {
    forall k | 0 <= k < |c| ensures c[k].id != id {
      if k < |b| {
        assert c[k] == b[k];
      }
    }
  }

  /** Extending a list keeps a retryable message it had. */
  lemma ExtendRetryable(b: seq<ChatMessage>, c: seq<ChatMessage>, x: Uuid, y: Uuid)
    requires b <= c && RetryableAmong(b, x, y)
    ensures RetryableAmong(c, x, y)
  {
    var w :| 0 <= w < |b| && b[w].canRetry && (b[w].id == x || b[w].id == y);
    assert c[w] == b[w];
  }

  /** Success ends sending and clears the question's retry flag. */
  lemma SuccessClearsRetry(s: State, aid: Uuid, userId: Uuid, content: string, displayText: Option<string>,
                           text: string, freshUserId: Uuid, freshErrorId: Uuid, j: nat)
    requires MessageIndex(Messages(s), userId) == Some(j)
    ensures var t := OnCompleteState(s, aid, userId, content, displayText, Success(text), freshUserId, freshErrorId);
      && |Messages(t)| == |Messages(s)| && Messages(t)[j].id == userId && !Messages(t)[j].canRetry
  {
    var s1 := s.(isSending := false);
    var s2 := if s1.currentAssistantId == Some(aid)
      then s1.(currentAssistantId := None, currentUserId := None, hasTask := false, currentAssistantText := "")
      else s1;
    assert Messages(s2) == Messages(s);
    EditByIdFinds(s2, aid, EndStream, userId);
  }

  // ---------------------------------------------------------------------------------------------
  // Stopping, retrying and editing

  /**
   * `stopSending`: nothing unless sending; else sending ends, the tracked reply keeps the text
   * streamed so far and becomes incomplete, the question becomes retryable, and all tracking is
   * cleared.
   */
  function StopSendingState(s: State): State {
    if !s.isSending then s
    else
      var s1 := s.(isSending := false);
      var s2 := if s.currentAssistantId.Some? then EditById(s1, s.currentAssistantId.value, Freeze(s.currentAssistantText)) else s1;
      var s3 := if s.currentUserId.Some? then EditById(s2, s.currentUserId.value, Retryable(true)) else s2;
      s3.(hasTask := false, currentAssistantId := None, currentUserId := None, currentAssistantText := "",
          currentTargetAssistantId := None)
  }

  /** Stopping when idle changes nothing. */
  lemma StopIdle(s: State)
    requires !s.isSending
    ensures StopSendingState(s) == s
  {
  }

  /**
   * Stopping a stream keeps the tracked reply where it is with the streamed text, no longer
   * streaming and incomplete, and clears every tracking field.
   */
  lemma StopFreezes(s: State, aid: Uuid, j: nat)
    requires s.isSending && s.currentAssistantId == Some(aid) && MessageIndex(Messages(s), aid) == Some(j)
    requires s.currentUserId != Some(aid)
    ensures var t := StopSendingState(s);
      && !t.isSending && !t.hasTask
      && t.currentAssistantId == None && t.currentUserId == None && t.currentTargetAssistantId == None
      && t.currentAssistantText == []
      && |Messages(t)| == |Messages(s)|
      && Messages(t)[j].id == aid && Messages(t)[j].text == s.currentAssistantText
      && !Messages(t)[j].isStreaming && Messages(t)[j].isIncomplete
  {
    var s1 := s.(isSending := false);
    assert Messages(s1) == Messages(s);

  }

  /** After a stop the reply is where it was and not streaming, and nothing is tracked. */
  lemma StopStills(s: State, aid: Uuid)
    requires s.isSending && s.currentAssistantId == Some(aid)
    ensures var t := StopSendingState(s);
      && !t.isSending && t.currentAssistantId == None
      && MessageIndex(Messages(t), aid) == MessageIndex(Messages(s), aid)
      && (MessageIndex(Messages(s), aid).Some? ==> !Messages(t)[MessageIndex(Messages(s), aid).value].isStreaming)
  {
    var s1 := s.(isSending := false);
    assert Messages(s1) == Messages(s);
    var s2 := EditById(s1, aid, Freeze(s.currentAssistantText));
    EditByIdFinds(s1, aid, Freeze(s.currentAssistantText), aid);
    var s3 := if s.currentUserId.Some? then EditById(s2, s.currentUserId.value, Retryable(true)) else s2;
    if s.currentUserId.Some? {
      EditByIdFinds(s2, s.currentUserId.value, Retryable(true), aid);
    }
    var t := StopSendingState(s);
    assert t.chats == s3.chats && t.currentChatId == s3.currentChatId;
    assert Messages(t) == Messages(s3);
  }

  /** Ending the stream of a reply that is not streaming changes nothing. */
  lemma EndStreamIdle(t: State, aid: Uuid)
    requires MessageIndex(Messages(t), aid).Some? ==> !Messages(t)[MessageIndex(Messages(t), aid).value].isStreaming
    ensures EditById(t, aid, EndStream) == t
  {
    var ms := Messages(t);
    match MessageIndex(ms, aid)
    case None =>
    case Some(j) =>
      assert ms[j := Apply(ms[j], EndStream)] == ms;
      WithMessagesSame(t);
  }

  /** Putting back the shown chat's own messages changes nothing. */
  lemma WithMessagesSame(s: State)
    ensures WithMessages(s, Messages(s)) == s
  {
    match Current(s)
    case None =>
    case Some(i) =>
      assert s.chats[i := s.chats[i].(messages := s.chats[i].messages)] == s.chats;
  }

  /**
   * The cancellation that follows a stop leaves the stopped screen as it is: the half reply is
   * kept.
   */
  lemma StopThenCancel(s: State, aid: Uuid, userId: Uuid, content: string, displayText: Option<string>,
                       freshUserId: Uuid, freshErrorId: Uuid)
    requires s.isSending && s.currentAssistantId == Some(aid)
    ensures var t := StopSendingState(s);
      OnCompleteState(t, aid, userId, content, displayText, Failure(Cancellation), freshUserId, freshErrorId) == t
  {
    var t := StopSendingState(s);
    StopStills(s, aid);
    assert t.(isSending := false) == t;
    EndStreamIdle(t, aid);
  }

  /** `retryMessage`: only for a user's message and not while sending; then that question is sent again. */
  function RetryState(s: State, message: ChatMessage, freshId: Uuid): State {
    if !message.isUser || s.isSending then s
    else SendChatState(EditById(s, message.id, Retryable(false)), message.id, None, freshId)
  }

  /** What a retry sends: the stored content when the bubble shows a label, else the shown text. */
  function RetryContent(message: ChatMessage): string {
    message.apiContent.GetOr(message.text)
  }

  /**
   * `editMessage`: only for a user's message and not while sending, and only when it is shown:
   * its bubble is emptied, its text goes to the input, its former text becomes the pending prompt,
   * and the first reply after it becomes the target to regenerate.
   */
  function EditMessageState(s: State, message: ChatMessage): State {
    if !message.isUser || s.isSending then s
    else
      var ms := Messages(s);
      match MessageIndex(ms, message.id)
      case None => s
      case Some(j) => LoadedForEdit(EditById(s, message.id, Blank), ms, j, message.text)
  }

  /**
   * The question at j of the list as it was is put back into the input, and the first reply after
   * it, if any, becomes the one to regenerate.
   */
  function LoadedForEdit(s: State, ms: seq<ChatMessage>, j: nat, text: string): State
    requires j < |ms|
  {
    var s1 := s.(inputText := text, isInputFocused := true);
    var s2 := match FirstReplyFrom(ms, j + 1)
      case None => s1
      case Some(k) => s1.(currentTargetAssistantId := Some(ms[k].id));
    s2.(pendingPrompt := ms[j].text)
  }

  /** Retrying or editing does nothing for a reply or while sending. */
  lemma RetryEditGuards(s: State, message: ChatMessage, freshId: Uuid)
    requires !message.isUser || s.isSending
    ensures RetryState(s, message, freshId) == s && EditMessageState(s, message) == s
  {
  }

  /**
   * An edit empties the question's bubble and changes no other message and no other chat; the
   * question's text goes to the input and to the pending prompt; the first reply after the
   * question becomes the target, and without one the target stays. No other field changes.
   */
  lemma EditMessageEffect(s: State, message: ChatMessage, j: nat)
    requires message.isUser && !s.isSending && MessageIndex(Messages(s), message.id) == Some(j)
    ensures var t := EditMessageState(s, message); var ms := Messages(s);
      && Current(s).Some? && Current(t) == Current(s) && |t.chats| == |s.chats|
      && (forall c :: 0 <= c < |s.chats| && Some(c) != Current(s) ==> t.chats[c] == s.chats[c])
      && Messages(t) == ms[j := ms[j].(text := "")]
      && t.inputText == message.text && t.pendingPrompt == ms[j].text && t.isInputFocused
      && (forall k :: j < k < |ms| && !ms[k].isUser && (forall m :: j < m < k ==> ms[m].isUser) ==>
            t.currentTargetAssistantId == Some(ms[k].id))
      && ((forall k :: j < k < |ms| ==> ms[k].isUser) ==> t.currentTargetAssistantId == s.currentTargetAssistantId)
      && t.(chats := s.chats, inputText := s.inputText, isInputFocused := s.isInputFocused,
            pendingPrompt := s.pendingPrompt, currentTargetAssistantId := s.currentTargetAssistantId) == s
  {
    var ms := Messages(s);
    var t := EditMessageState(s, message);
    assert Current(s).Some?;
    var e := EditById(s, message.id, Blank);
    assert e == WithMessages(s, ms[j := Apply(ms[j], Blank)]);
    match FirstReplyFrom(ms, j + 1)
    case None =>
    case Some(k) =>
      forall k' | j < k' < |ms| && !ms[k'].isUser && (forall m :: j < m < k' ==> ms[m].isUser)
        ensures k' == k
      {
      }
  }

  // ---------------------------------------------------------------------------------------------
  // The drawer

  /** The date a chat sorts by: its last message, else its creation. */
  function LastActive(c: ChatSession): int {
    c.lastMessageAt.GetOr(c.createdAt)
  }

  /** `sortedChats`' comparator: pinned first, then the most recent first. */
  function ChatBefore(a: ChatSession, b: ChatSession): bool {
    if a.isPinned != b.isPinned then a.isPinned && !b.isPinned else LastActive(a) > LastActive(b)
  }

  lemma ChatBeforeStrict()
    ensures StrictOrder(ChatBefore)
  {
  }

  /** `sortedChats`. */
  function SortedChats(chats: seq<ChatSession>): seq<ChatSession> {
    Sort(chats, ChatBefore)
  }

  /**
   * The drawer lists every chat once, the pinned ones before the others, and within each group the
   * most recently active first.
   */
  lemma SortedChatsOrder(chats: seq<ChatSession>)
    ensures var r := SortedChats(chats);
      && multiset(r) == multiset(chats)
      && (forall i, j :: 0 <= i < j < |r| && r[j].isPinned ==> r[i].isPinned)
      && (forall i, j :: 0 <= i < j < |r| && r[i].isPinned == r[j].isPinned ==> LastActive(r[j]) <= LastActive(r[i]))
  {
    var r := SortedChats(chats);
    ChatBeforeStrict();
    SortSorted(chats, ChatBefore);
    forall i, j | 0 <= i < j < |r| ensures (r[j].isPinned ==> r[i].isPinned)
      && (r[i].isPinned == r[j].isPinned ==> LastActive(r[j]) <= LastActive(r[i])) {
      assert !ChatBefore(r[j], r[i]);
    }
  }

  /** `togglePin`: the first chat with that id flips its pin. */
  function TogglePinned(chats: seq<ChatSession>, id: Uuid): (r: seq<ChatSession>)
    ensures |r| == |chats|
  {
    match ChatIndex(chats, id)
    case None => chats
    case Some(i) => chats[i := chats[i].(isPinned := !chats[i].isPinned)]
  }

  /**
   * A toggle flips the pin of the first chat with the id and changes nothing else; an id no chat
   * has changes nothing.
   */
  lemma ToggleEffect(chats: seq<ChatSession>, id: Uuid)
    ensures (forall k :: 0 <= k < |chats| ==> chats[k].id != id) ==> TogglePinned(chats, id) == chats
    ensures forall i :: 0 <= i < |chats| && chats[i].id == id && (forall k :: 0 <= k < i ==> chats[k].id != id) ==>
      TogglePinned(chats, id) == chats[i := chats[i].(isPinned := !chats[i].isPinned)]
  {
    match ChatIndex(chats, id)
    case None =>
    case Some(j) =>
      forall i | 0 <= i < |chats| && chats[i].id == id && (forall k :: 0 <= k < i ==> chats[k].id != id)
        ensures i == j
      {
      }
  }

  /** Toggling twice leaves the chats as they were. */
  lemma ToggleTwice(chats: seq<ChatSession>, id: Uuid)
    ensures TogglePinned(TogglePinned(chats, id), id) == chats
  {
    var once := TogglePinned(chats, id);
    ChatIndexIds(chats, once, id);
    match ChatIndex(chats, id)
    case None =>
    case Some(i) =>
      assert once[i := once[i].(isPinned := !once[i].isPinned)] == chats;
  }

  /** `renameChat`: a blank name changes nothing; else the first chat with that id takes the trimmed name. */
  function Renamed(chats: seq<ChatSession>, id: Uuid, name: string): (r: seq<ChatSession>)
    ensures |r| == |chats|
  {
    var trimmed := TrimWhite(name);
    if trimmed == [] then chats else Retitled(chats, id, trimmed)
  }

  /** The first chat with that id takes the title. */
  function Retitled(chats: seq<ChatSession>, id: Uuid, title: string): (r: seq<ChatSession>)
    ensures |r| == |chats|
  {
    match ChatIndex(chats, id)
    case None => chats
    case Some(i) => chats[i := chats[i].(title := title)]
  }

  /** A rename changes only the title of the chat it names, to the trimmed name. */
  lemma RenameEffect(chats: seq<ChatSession>, id: Uuid, name: string)
    ensures TrimWhite(name) == [] ==> Renamed(chats, id, name) == chats
    ensures TrimWhite(name) != [] && ChatIndex(chats, id).Some? ==>
      var i := ChatIndex(chats, id).value;
      Renamed(chats, id, name) == chats[i := chats[i].(title := TrimWhite(name))]
    ensures ChatIndex(Renamed(chats, id, name), id) == ChatIndex(chats, id)
  {
    ChatIndexIds(chats, Renamed(chats, id, name), id);
  }

  /** `chats.removeAll { $0.id == id }`. */
  function WithoutChat(chats: seq<ChatSession>, id: Uuid): seq<ChatSession> {
    WithoutKey(chats, ChatKey, id)
  }

  /** `deleteChat`: every chat with the id removed, and the default session when that leaves none. */
  function Deleted(chats: seq<ChatSession>, id: Uuid, fallback: ChatSession): seq<ChatSession> {
    var rest := WithoutChat(chats, id);
    if rest == [] then [fallback] else rest
  }

  /** Deleting never leaves the list empty, removes the chat, and keeps all the others. */
  lemma DeleteEffect(chats: seq<ChatSession>, id: Uuid, fallback: ChatSession)
    ensures var r := Deleted(chats, id, fallback);
      && r != []
      && (fallback.id != id ==> forall k :: 0 <= k < |r| ==> r[k].id != id)
      && (forall c :: c in chats && c.id != id ==> c in r)
      && (r == [fallback] || forall k :: 0 <= k < |r| ==> r[k] in chats)
  {
    WithoutKeyMembers(chats, ChatKey, id);
  }

  // ---------------------------------------------------------------------------------------------
  // The screen

  /**
   * The screen's state, changed in place by its actions and by the chat client's callbacks. The
   * drawer edits the same list of chats through its binding, and keeps which chat is being
   * renamed and the text typed for it.
   */
  class MainView {
    var chats: seq<ChatSession>
    var currentChatId: Uuid
    var isSending: bool
    var hasTask: bool
    var currentAssistantId: Option<Uuid>
    var currentUserId: Option<Uuid>
    var currentTargetAssistantId: Option<Uuid>
    var currentAssistantText: string
    var inputText: string
    var isInputFocused: bool
    var pendingPrompt: string
    var lastChatId: Option<Uuid>
    var renamingChatId: Option<Uuid>
    var renameText: string
    /** `ChatSession.default`, the session a fresh screen shows and a deletion falls back to. */
    const defaultSession: ChatSession

    /** Everything but the drawer's rename dialog. */
    function Snapshot(): State
      reads this
    {
      State(chats, currentChatId, isSending, hasTask, currentAssistantId, currentUserId, currentTargetAssistantId,
            currentAssistantText, inputText, isInputFocused, pendingPrompt, lastChatId)
    }

    /** The reply and question no longer tracked and the running request dropped. */
    method ForgetReply()
      modifies this
      ensures Snapshot() == old(Snapshot()).(currentAssistantId := None, currentUserId := None, hasTask := false,
                                             currentAssistantText := "")
      ensures renamingChatId == old(renamingChatId) && renameText == old(renameText)
    {
      currentAssistantId, currentUserId, hasTask, currentAssistantText := None, None, false, "";
    }

    constructor(session: ChatSession)
      ensures Snapshot() == Initial(session) && defaultSession == session
      ensures renamingChatId == None && renameText == ""
    {
      chats, currentChatId := [session], session.id;
      isSending, hasTask := false, false;
      currentAssistantId, currentUserId, currentTargetAssistantId := None, None, None;
      currentAssistantText, inputText, isInputFocused, pendingPrompt := "", "", false, "";
      lastChatId := None;
      renamingChatId, renameText := None, "";
      defaultSession := session;
    }

    /** `appendMessage`. */
    method AppendMessage(m: ChatMessage)
      modifies this
      ensures Snapshot() == Append(old(Snapshot()), m)
      ensures renamingChatId == old(renamingChatId) && renameText == old(renameText)
    {
      var i := ChatIndex(chats, currentChatId);
      if i.Some? {
        chats := chats[i.value := chats[i.value].(messages := chats[i.value].messages + [m])];
      }
    }

    /** `removeMessage(id:)`. */
    method RemoveMessage(id: Uuid)
      modifies this
      ensures Snapshot() == Remove(old(Snapshot()), id)
      ensures renamingChatId == old(renamingChatId) && renameText == old(renameText)
    {
      var i := ChatIndex(chats, currentChatId);
      if i.Some? {
        chats := chats[i.value := chats[i.value].(messages := RemoveId(chats[i.value].messages, id))];
      }
    }

    /** The fields of the shown chat's first message with that id set, when there is one. */
    method EditMessageById(id: Uuid, e: Edit)
      modifies this
      ensures Snapshot() == EditById(old(Snapshot()), id, e)
      ensures renamingChatId == old(renamingChatId) && renameText == old(renameText)
    {
      var i := ChatIndex(chats, currentChatId);
      if i.Some? {
        var ms := chats[i.value].messages;
        var j := MessageIndex(ms, id);
        if j.Some? {
          chats := chats[i.value := chats[i.value].(messages := ms[j.value := Apply(ms[j.value], e)])];
        }
      }
    }

    /**
     * `sendChat`: restarts or appends the reply, starts sending, and returns what the request
     * carries.
     */
    method SendChat(userId: Uuid, replace: Option<Uuid>, freshId: Uuid) returns (history: seq<BackendMessage>)
      modifies this
      ensures Snapshot() == SendChatState(old(Snapshot()), userId, replace, freshId)
      ensures history == History(Snapshot())
      ensures renamingChatId == old(renamingChatId) && renameText == old(renameText)
    {
      ghost var s0 := Snapshot();
      var aid := replace.GetOr(freshId);
      if replace.Some? && MessageIndex(Messages(Snapshot()), replace.value).Some? {
        EditMessageById(replace.value, Restart);
      } else {
        AppendMessage(Placeholder(aid));
      }
      assert Snapshot() == if replace.Some? && MessageIndex(Messages(s0), replace.value).Some?
        then EditById(s0, replace.value, Restart) else Append(s0, Placeholder(aid));
      StartSending(aid, userId);
      history := AsBackendMessages(Spoken(Messages(Snapshot())));
    }

    /** Sending, with a task, tracking the reply and the question from an empty text. */
    method StartSending(aid: Uuid, userId: Uuid)
      modifies this
      ensures Snapshot() == old(Snapshot()).(isSending := true, hasTask := true, currentAssistantId := Some(aid),
                                             currentUserId := Some(userId), currentAssistantText := "")
      ensures renamingChatId == old(renamingChatId) && renameText == old(renameText)
    {
      isSending, hasTask := true, true;
      currentAssistantId, currentUserId := Some(aid), Some(userId);
      currentAssistantText := "";
    }

    /**
     * `sendUserMessage`: for content that is not blank and when not sending, appends the
     * question, stamps the chat and sends; returns the request, if one is made, and the text a
     * title is asked for, if the chat still needs one.
     */
    method SendUserMessage(content: string, displayText: Option<string>, replace: Option<Uuid>,
                           userId: Uuid, freshId: Uuid, now: int)
      returns (request: Option<seq<BackendMessage>>, titleRequest: Option<string>)
      modifies this
      ensures Snapshot() == SendUserMessageState(old(Snapshot()), content, displayText, replace, userId, freshId, now)
      ensures request.Some? <==> Proceeds(old(Snapshot()), content)
      ensures request.Some? ==> request.value == History(Snapshot())
      ensures titleRequest.Some? <==> request.Some? && NeedsTitle(chats, currentChatId)
      ensures titleRequest.Some? ==> titleRequest.value == ShowText(content, displayText)
      ensures renamingChatId == old(renamingChatId) && renameText == old(renameText)
    {
      if TrimWhite(content) == [] || isSending {
        return None, None;
      }
      var history, title := SendQuestion(UserMessage(userId, content, displayText), ShowText(content, displayText),
                                         replace, userId, freshId, now);
      request, titleRequest := Some(history), title;
    }

    /** The part of `sendUserMessage` past its guard; `firstMessage` is the text a title is asked for. */
    method SendQuestion(question: ChatMessage, firstMessage: string, replace: Option<Uuid>, userId: Uuid,
                        freshId: Uuid, now: int)
      returns (history: seq<BackendMessage>, titleRequest: Option<string>)
      modifies this
      ensures Snapshot() == QuestionSent(old(Snapshot()), question, replace, userId, freshId, now)
      ensures history == History(Snapshot())
      ensures titleRequest.Some? <==> NeedsTitle(chats, currentChatId)
      ensures titleRequest.Some? ==> titleRequest.value == firstMessage
      ensures renamingChatId == old(renamingChatId) && renameText == old(renameText)
    {
      ghost var s0 := Snapshot();
      AppendMessage(question);
      StampChat(now);
      lastChatId := Some(currentChatId);
      assert Snapshot() == Stamp(Append(s0, question), now).(lastChatId := Some(s0.currentChatId));
      history := SendChat(userId, replace, freshId);
      titleRequest := UpdateTitleIfNeeded(firstMessage, currentChatId);
    }

    /** The shown chat's last message date set. */
    method StampChat(now: int)
      modifies this
      ensures Snapshot() == Stamp(old(Snapshot()), now)
      ensures renamingChatId == old(renamingChatId) && renameText == old(renameText)
    {
      var i := ChatIndex(chats, currentChatId);
      if i.Some? {
        chats := chats[i.value := chats[i.value].(lastMessageAt := Some(now))];
      }
    }

    /** `updateTitleIfNeeded`: the text to ask a title for, when the chat still needs one. */
    method UpdateTitleIfNeeded(firstMessage: string, chatId: Uuid) returns (request: Option<string>)
      ensures request.Some? <==> NeedsTitle(chats, chatId)
      ensures request.Some? ==> request.value == firstMessage
    {
      var i := ChatIndex(chats, chatId);
      if i.None? || chats[i.value].title != NewChatTitle || UserCount(chats[i.value].messages) != 1 {
        return None;
      }
      return Some(firstMessage);
    }

    /** The title callback, run on the chats as they are when it arrives. */
    method ApplyFetchedTitle(chatId: Uuid, fetched: Option<string>)
      modifies this
      ensures Snapshot() == old(Snapshot()).(chats := ApplyTitle(old(chats), chatId, fetched))
      ensures renamingChatId == old(renamingChatId) && renameText == old(renameText)
    {
      var i := ChatIndex(chats, chatId);
      if i.Some? {
        var title := if fetched.Some? && fetched.value != [] then fetched.value else NewChatTitle;
        chats := chats[i.value := chats[i.value].(title := title)];
      }
    }

    /** `onDelta` for the reply `aid`. */
    method OnDelta(aid: Uuid, delta: string)
      modifies this
      ensures Snapshot() == OnDeltaState(old(Snapshot()), aid, delta)
      ensures renamingChatId == old(renamingChatId) && renameText == old(renameText)
    {
      var j := MessageIndex(Messages(Snapshot()), aid);
      if j.Some? {
        var text := Messages(Snapshot())[j.value].text + delta;
        EditMessageById(aid, AddText(delta));
        currentAssistantText := text;
      }
    }

    /**
     * `onComplete` for the reply `aid` to the question `userId`, with what the request was sent
     * with; a failure copy and a failure message take the fresh ids.
     */
    method OnComplete(aid: Uuid, userId: Uuid, content: string, displayText: Option<string>, outcome: Outcome,
                      freshUserId: Uuid, freshErrorId: Uuid)
      modifies this
      ensures Snapshot() == OnCompleteState(old(Snapshot()), aid, userId, content, displayText, outcome,
                                            freshUserId, freshErrorId)
      ensures renamingChatId == old(renamingChatId) && renameText == old(renameText)
    {
      EndReplyOf(aid);
      match outcome
      case Success(_) =>
        EditMessageById(userId, Retryable(false));
      case Failure(e) =>
        if !e.Cancellation? {
          FailurePath(aid, userId, QuestionCopy(freshUserId, content, displayText), FailureText(e), freshErrorId);
        }
    }

    /** Sending ends, the reply is forgotten when it is the tracked one, and it stops streaming. */
    method EndReplyOf(aid: Uuid)
      modifies this
      ensures Snapshot() == EndReply(old(Snapshot()), aid)
      ensures renamingChatId == old(renamingChatId) && renameText == old(renameText)
    {
      isSending := false;
      ghost var s1 := Snapshot();
      if currentAssistantId == Some(aid) {
        ForgetReply();
      }
      assert Snapshot() == if s1.currentAssistantId == Some(aid)
        then s1.(currentAssistantId := None, currentUserId := None, hasTask := false, currentAssistantText := "")
        else s1;
      EditMessageById(aid, EndStream);
    }

    /** The failure path of `onComplete`. */
    method FailurePath(aid: Uuid, userId: Uuid, copy: ChatMessage, text: string, errorId: Uuid)
      requires copy.canRetry
      modifies this
      ensures Snapshot() == ShowFailure(KeepQuestion(Remove(old(Snapshot()), aid), userId, copy), text, errorId)
      ensures renamingChatId == old(renamingChatId) && renameText == old(renameText)
    {
      RemoveMessage(aid);
      KeepQuestionOf(userId, copy);
      ShowFailureOnce(text, errorId);
    }

    /** The question made retryable where it is, or the copy appended. */
    method KeepQuestionOf(userId: Uuid, copy: ChatMessage)
      requires copy.canRetry
      modifies this
      ensures Snapshot() == KeepQuestion(old(Snapshot()), userId, copy)
      ensures renamingChatId == old(renamingChatId) && renameText == old(renameText)
    {
      if MessageIndex(Messages(Snapshot()), userId).Some? {
        EditMessageById(userId, Retryable(true));
      } else {
        AppendMessage(copy);
      }
    }

    /** The failure message appended unless the last message already shows it. */
    method ShowFailureOnce(text: string, errorId: Uuid)
      modifies this
      ensures Snapshot() == ShowFailure(old(Snapshot()), text, errorId)
      ensures renamingChatId == old(renamingChatId) && renameText == old(renameText)
    {
      var ms := Messages(Snapshot());
      if !(ms != [] && ms[|ms| - 1].text == text) {
        AppendMessage(ChatMessage(errorId, text, None, false, false, false, false));
      }
    }

    /** `stopSending`. */
    method StopSending()
      modifies this
      ensures Snapshot() == StopSendingState(old(Snapshot()))
      ensures renamingChatId == old(renamingChatId) && renameText == old(renameText)
    {
      if !isSending {
        return;
      }
      ghost var s0 := Snapshot();
      isSending := false;
      ghost var s1 := Snapshot();
      if currentAssistantId.Some? {
        EditMessageById(currentAssistantId.value, Freeze(currentAssistantText));
      }
      ghost var s2 := Snapshot();
      assert s2 == if s0.currentAssistantId.Some? then EditById(s1, s0.currentAssistantId.value, Freeze(s0.currentAssistantText)) else s1;
      if currentUserId.Some? {
        EditMessageById(currentUserId.value, Retryable(true));
      }
      ghost var s3 := Snapshot();
      assert s3 == if s0.currentUserId.Some? then EditById(s2, s0.currentUserId.value, Retryable(true)) else s2;
      StopTracking();
    }

    /** Nothing tracked any more. */
    method StopTracking()
      modifies this
      ensures Snapshot() == old(Snapshot()).(hasTask := false, currentAssistantId := None, currentUserId := None,
                                             currentAssistantText := "", currentTargetAssistantId := None)
      ensures renamingChatId == old(renamingChatId) && renameText == old(renameText)
    {
      hasTask, currentAssistantId, currentUserId := false, None, None;
      currentAssistantText, currentTargetAssistantId := "", None;
    }

    /** `retryMessage`: returns the request when the question is sent again. */
    method RetryMessage(message: ChatMessage, freshId: Uuid) returns (request: Option<seq<BackendMessage>>)
      modifies this
      ensures Snapshot() == RetryState(old(Snapshot()), message, freshId)
      ensures request.Some? <==> message.isUser && !old(isSending)
      ensures request.Some? ==> request.value == History(Snapshot())
      ensures renamingChatId == old(renamingChatId) && renameText == old(renameText)
    {
      if !message.isUser || isSending {
        return None;
      }
      EditMessageById(message.id, Retryable(false));
      var history := SendChat(message.id, None, freshId);
      return Some(history);
    }

    /** `editMessage`. */
    method EditMessage(message: ChatMessage)
      modifies this
      ensures Snapshot() == EditMessageState(old(Snapshot()), message)
      ensures renamingChatId == old(renamingChatId) && renameText == old(renameText)
    {
      if !message.isUser || isSending {
        return;
      }
      var ms := Messages(Snapshot());
      var start := MessageIndex(ms, message.id);
      if start.Some? {
        EditMessageById(message.id, Blank);
        LoadForEdit(ms, start.value, message.text);
      }
    }

    /** The input and the regeneration target an edit sets up. */
    method LoadForEdit(ms: seq<ChatMessage>, j: nat, text: string)
      requires j < |ms|
      modifies this
      ensures Snapshot() == LoadedForEdit(old(Snapshot()), ms, j, text)
      ensures renamingChatId == old(renamingChatId) && renameText == old(renameText)
    {
      inputText, isInputFocused := text, true;
      var reply := FirstReplyFrom(ms, j + 1);
      if reply.Some? {
        currentTargetAssistantId := Some(ms[reply.value].id);
      }
      pendingPrompt := ms[j].text;
    }

    /** `togglePin`. */
    method TogglePin(id: Uuid)
      modifies this
      ensures Snapshot() == old(Snapshot()).(chats := TogglePinned(old(chats), id))
      ensures renamingChatId == old(renamingChatId) && renameText == old(renameText)
    {
      var i := ChatIndex(chats, id);
      if i.Some? {
        chats := chats[i.value := chats[i.value].(isPinned := !chats[i.value].isPinned)];
      }
    }

    /** The drawer's rename item: opens the dialog for that chat with its title. */
    method BeginRename(id: Uuid, title: string)
      modifies this
      ensures Snapshot() == old(Snapshot()) && renamingChatId == Some(id) && renameText == title
    {
      renamingChatId, renameText := Some(id), title;
    }

    /** `renameChat`: a blank name leaves the dialog's chat as it was. */
    method RenameChat(id: Uuid, name: string)
      modifies this
      ensures Snapshot() == old(Snapshot()).(chats := Renamed(old(chats), id, name))
      ensures renamingChatId == if TrimWhite(name) == [] then old(renamingChatId) else None
      ensures renameText == old(renameText)
    {
      var trimmed := TrimWhite(name);
      if trimmed == [] {
        return;
      }
      Retitle(id, trimmed);
      renamingChatId := None;
    }

    method Retitle(id: Uuid, title: string)
      modifies this
      ensures Snapshot() == old(Snapshot()).(chats := Retitled(old(chats), id, title))
      ensures renamingChatId == old(renamingChatId) && renameText == old(renameText)
    {
      var i := ChatIndex(chats, id);
      if i.Some? {
        chats := chats[i.value := chats[i.value].(title := title)];
      }
    }

    /** `deleteChat`: the shown chat's id is left as it is, even when that chat is gone. */
    method DeleteChat(id: Uuid)
      modifies this
      ensures Snapshot() == old(Snapshot()).(chats := Deleted(old(chats), id, defaultSession))
      ensures chats != []
      ensures renamingChatId == old(renamingChatId) && renameText == old(renameText)
    {
      chats := WithoutChat(chats, id);
      if chats == [] {
        chats := [defaultSession];
      }
      DeleteEffect(old(chats), id, defaultSession);
    }
  }
}
