/**
 * The Flask backend (`backend/spark_server.py`): the text clean-up every handler applies, the
 * timezone guess and the place text built from an address, the conversation sent to the model,
 * the result-count clamps, the chart helpers that split a pillar and tag hidden stems, and the
 * event-stream framing of the chat reply.
 */
module SparkServer {
  import opened Wrappers
  import opened Text

  // ---------------------------------------------------------------------------------------------
  // Text clean-up, timezone, place text

  /** `_clean_text`: a missing value is empty, a present one is stripped. */
  function CleanText(value: Option<string>): (r: string)
    ensures |r| <= |value.GetOr("")| && Stripped(r)
  {
    PyStripStripped(value.GetOr(""));
    PyStrip(value.GetOr(""))
  }

  /** Cleaning gives the empty string exactly for a missing or all-blank value. */
  lemma CleanTextBlank(value: Option<string>)
    ensures CleanText(value) == [] <==> forall i :: 0 <= i < |value.GetOr("")| ==> IsPyWhite(value.GetOr("")[i])
  {
  }

  const HongKong: string := "Asia/Hong_Kong"
  const Macau: string := "Asia/Macau"
  const Taipei: string := "Asia/Taipei"
  const Shanghai: string := "Asia/Shanghai"

  /** The four address fields, each cleaned, run together. */
  function PlaceText(province: Option<string>, city: Option<string>, district: Option<string>,
                     fullText: Option<string>): string
  {
    CleanText(province) + CleanText(city) + CleanText(district) + CleanText(fullText)
  }

  /** `resolve_timezone_id`: the first region named anywhere in the address decides. */
  function ResolveTimezoneId(province: Option<string>, city: Option<string>, district: Option<string>,
                             fullText: Option<string>): (r: string)
    ensures var t := PlaceText(province, city, district, fullText);
      && (r == HongKong <==> Contains(t, "香港"))
      && (r == Macau <==> !Contains(t, "香港") && Contains(t, "澳门"))
      && (r == Taipei <==> !Contains(t, "香港") && !Contains(t, "澳门")
                           && (Contains(t, "台湾") || Contains(t, "台北") || Contains(t, "高雄")))
      && (r == Shanghai <==> !Contains(t, "香港") && !Contains(t, "澳门")
                             && !Contains(t, "台湾") && !Contains(t, "台北") && !Contains(t, "高雄"))
  {
    var text := PlaceText(province, city, district, fullText);
    if Contains(text, "香港") then HongKong
    else if Contains(text, "澳门") then Macau
    else if Contains(text, "台湾") || Contains(text, "台北") || Contains(text, "高雄") then Taipei
    else Shanghai
  }

  /** Hong Kong named in any one field wins, whatever the other fields say. */
  lemma HongKongInAnyField(province: Option<string>, city: Option<string>, district: Option<string>,
                           fullText: Option<string>)
    requires Contains(CleanText(province), "香港") || Contains(CleanText(city), "香港")
          || Contains(CleanText(district), "香港") || Contains(CleanText(fullText), "香港")
    ensures ResolveTimezoneId(province, city, district, fullText) == HongKong
  {
    var p, c, d, f := CleanText(province), CleanText(city), CleanText(district), CleanText(fullText);
    var h := "香港";
    if Contains(p, h) {
      ContainsLeft(p, c, h);
      ContainsLeft(p + c, d, h);
      ContainsLeft(p + c + d, f, h);
    } else if Contains(c, h) {
      ContainsRight(p, c, h);
      ContainsLeft(p + c, d, h);
      ContainsLeft(p + c + d, f, h);
    } else if Contains(d, h) {
      ContainsRight(p + c, d, h);
      ContainsLeft(p + c + d, f, h);
    } else {
      ContainsRight(p + c + d, f, h);
    }
  }

  /** `build_location_text`: the non-empty regions run together, then the detail after one space. */
  function BuildLocationText(province: Option<string>, city: Option<string>, district: Option<string>,
                             detail: Option<string>): (r: string)
    ensures var compact := CleanText(province) + CleanText(city) + CleanText(district);
            var extra := CleanText(detail);
      && (compact != [] && extra != [] ==> r == compact + " " + extra)
      && (compact == [] ==> r == extra)
      && (extra == [] ==> r == compact)
    ensures Stripped(r)
  {
    var parts := [CleanText(province), CleanText(city), CleanText(district)];
    var compact := Concat(NonEmpty(parts));
    var extra := CleanText(detail);
    ConcatNonEmpty(parts);
    Concat3(parts[0], parts[1], parts[2]);
    StrippedAppend(parts[0], parts[1]);
    StrippedAppend(parts[0] + parts[1], parts[2]);
    if compact != [] && extra != [] then StrippedAround(compact, " ", extra); compact + " " + extra
    else if compact != [] then compact else extra
  }

  lemma StrippedAppend(a: string, b: string)
    requires Stripped(a) && Stripped(b)
    ensures Stripped(a + b)
  {
    if a != [] && b != [] {
      assert (a + b)[|a + b| - 1] == b[|b| - 1];
    }
  }

  lemma StrippedAround(a: string, mid: string, b: string)
    requires a != [] && b != [] && Stripped(a) && Stripped(b)
    ensures Stripped(a + mid + b)
  {
    assert (a + mid + b)[|a + mid + b| - 1] == b[|b| - 1];
  }

  /** The place text needs no further stripping: stripping it again changes nothing. */
  lemma LocationTextStripped(province: Option<string>, city: Option<string>, district: Option<string>,
                             detail: Option<string>)
    ensures PyStrip(BuildLocationText(province, city, district, detail))
         == BuildLocationText(province, city, district, detail)
  {
    PyStripFixed(BuildLocationText(province, city, district, detail));
  }

  // ---------------------------------------------------------------------------------------------
  // Result-count clamps

  /** `max(1, min(limit, 20))`. */
  function ClampLimit(limit: int): (r: int)
    ensures 1 <= r <= 20
    ensures 1 <= limit <= 20 ==> r == limit
    ensures limit < 1 ==> r == 1
    ensures limit > 20 ==> r == 20
  {
    if limit < 1 then 1 else if limit > 20 then 20 else limit
  }

  /**
   * `/geo/search`'s `limit` argument: `parsed` is what `int()` made of the text (None when it
   * raised `ValueError`, the argument defaulting to "20" when absent).
   */
  function GeoLimit(parsed: Option<int>): (r: int)
    ensures 1 <= r <= 20
    ensures parsed.None? ==> r == 20
    ensures parsed.Some? && 1 <= parsed.value <= 20 ==> r == parsed.value
  {
    ClampLimit(parsed.GetOr(20))
  }

  // ---------------------------------------------------------------------------------------------
  // Chart helpers

  /** `_split_gan_zhi`: a pillar such as 辛巳 into its stem and branch. */
  function SplitGanZhi(gz: Option<string>): (r: (string, string))
    ensures |gz.GetOr("")| < 2 ==> r == ("", "")
    ensures |gz.GetOr("")| >= 2 ==> |r.0| == 1 && |r.1| == 1 && r.0 + r.1 == gz.value[..2]
  {
    match gz
    case None => ("", "")
    case Some(s) => if |s| < 2 then ("", "") else ([s[0]], [s[1]])
  }

  /** `_GAN_WU_XING`: the element of each heavenly stem. */
  const GanWuXing: map<string, string> := map[
    "甲" := "木", "乙" := "木", "丙" := "火", "丁" := "火", "戊" := "土", "己" := "土",
    "庚" := "金", "辛" := "金", "壬" := "水", "癸" := "水"]

  /** One hidden stem shown with its element, such as 丙·火 (nothing after the dot when unknown). */
  function StemTag(g: string): string {
    g + "·" + (if g in GanWuXing then GanWuXing[g] else "")
  }

  /** `_zang_gan_list`: the hidden stems, empty ones dropped, each tagged with its element. */
  function ZangGanList(hidden: Option<seq<string>>): (r: seq<string>)
    ensures var stems := NonEmpty(hidden.GetOr([]));
      |r| == |stems| && forall k :: 0 <= k < |r| ==> r[k] == StemTag(stems[k])
  {
    TagAll(hidden.GetOr([]))
  }

  function TagAll(gs: seq<string>): (r: seq<string>)
    ensures |r| == |NonEmpty(gs)| && forall k :: 0 <= k < |r| ==> r[k] == StemTag(NonEmpty(gs)[k])
  {
    if gs == [] then []
    else if gs[0] == [] then TagAll(gs[1..])
    else [StemTag(gs[0])] + TagAll(gs[1..])
  }

  /** A tagged known stem is the stem, the dot and the stem's element, three characters in all. */
  lemma StemTagKnown(g: string)
    requires g in GanWuXing
    ensures |StemTag(g)| == 3 && StemTag(g)[..1] == g && StemTag(g)[1] == '·'
    ensures StemTag(g)[2..] in {"木", "火", "土", "金", "水"}
  {
  }

  // ---------------------------------------------------------------------------------------------
  // The conversation sent to the model

  /** One entry of the posted `messages` list; a missing `content` is None. */
  datatype WireMessage = WireMessage(role: string, content: Option<string>)

  /** `(content or "").strip()`. */
  function StrippedContent(m: WireMessage): string {
    PyStrip(m.content.GetOr(""))
  }

  const ErrorPrefix: string := "请求失败："

  /** `is_error_message`: an assistant bubble that only reported a failed request. */
  predicate IsErrorMessage(m: WireMessage) {
    m.role == "assistant" && StartsWith(StrippedContent(m), ErrorPrefix)
  }

  predicate Kept(m: WireMessage) {
    m.role != "system" && !IsErrorMessage(m)
  }

  /** The filtering comprehension: system messages and error replies go, the rest keeps its order. */
  function Filter(ms: seq<WireMessage>): (r: seq<WireMessage>)
    ensures forall m :: m in r <==> m in ms && Kept(m)
    ensures |r| <= |ms|
  {
    if ms == [] then []
    else if Kept(ms[0]) then [ms[0]] + Filter(ms[1..])
    else Filter(ms[1..])
  }

  /** What is left after popping every leading message that is not from the user. */
  function DropLeading(ms: seq<WireMessage>): (r: seq<WireMessage>)
    ensures |r| <= |ms| && r == ms[|ms| - |r|..]
    ensures r == [] || r[0].role == "user"
    ensures forall i :: 0 <= i < |ms| - |r| ==> ms[i].role != "user"
  {
    if ms == [] || ms[0].role == "user" then ms else DropLeading(ms[1..])
  }

  /** Two user messages whose stripped contents are equal. */
  predicate SameUserTurn(a: WireMessage, b: WireMessage) {
    a.role == "user" && b.role == "user" && StrippedContent(a) == StrippedContent(b)
  }

  /** One turn of the compaction loop: a repeat of the last user message replaces it. */
  function CompactStep(acc: seq<WireMessage>, m: WireMessage): (r: seq<WireMessage>)
    ensures r != [] && r[|r| - 1] == m
    ensures forall x :: x in r ==> x in acc || x == m
  {
    if acc != [] && SameUserTurn(m, acc[|acc| - 1]) then acc[|acc| - 1 := m] else acc + [m]
  }

  /** The compaction loop run over `rest`, starting from `acc`. */
  function CompactInto(acc: seq<WireMessage>, rest: seq<WireMessage>): seq<WireMessage>
    decreases |rest|
  {
    if rest == [] then acc else CompactInto(CompactStep(acc, rest[0]), rest[1..])
  }

  function Compact(ms: seq<WireMessage>): seq<WireMessage> {
    CompactInto([], ms)
  }

  /** No two neighbouring user messages repeat each other. */
  ghost predicate NoRepeatedTurn(s: seq<WireMessage>) {
    forall i :: 0 <= i < |s| - 1 ==> !SameUserTurn(s[i], s[i + 1])
  }

  lemma CompactStepKeeps(acc: seq<WireMessage>, m: WireMessage)
    requires NoRepeatedTurn(acc)
    ensures NoRepeatedTurn(CompactStep(acc, m))
  {
    var r := CompactStep(acc, m);
    var n := |acc|;
    if acc != [] && SameUserTurn(m, acc[n - 1]) {
      assert |r| == n;
      forall i | 0 <= i < n - 1 ensures !SameUserTurn(r[i], r[i + 1]) {
        assert r[i] == acc[i];
        if i + 1 < n - 1 {
          assert r[i + 1] == acc[i + 1];
        } else {
          assert !SameUserTurn(acc[i], acc[n - 1]);
        }
      }
    } else {
      assert r == acc + [m];
      forall i | 0 <= i < n ensures !SameUserTurn(r[i], r[i + 1]) {
        assert r[i] == acc[i];
        if i + 1 < n {
          assert r[i + 1] == acc[i + 1];
        }
      }
    }
  }

  /** Compaction leaves no repeated user turn behind. */
  lemma {:induction false} CompactIntoKeeps(acc: seq<WireMessage>, rest: seq<WireMessage>)
    requires NoRepeatedTurn(acc)
    ensures NoRepeatedTurn(CompactInto(acc, rest))
    decreases |rest|
  {
    if rest != [] {
      CompactStepKeeps(acc, rest[0]);
      CompactIntoKeeps(CompactStep(acc, rest[0]), rest[1..]);
    }
  }

  /** Compaction only keeps messages it was given. */
  lemma {:induction false} CompactIntoFrom(acc: seq<WireMessage>, rest: seq<WireMessage>)
    ensures forall m :: m in CompactInto(acc, rest) ==> m in acc || m in rest
    decreases |rest|
  {
    if rest != [] {
      CompactIntoFrom(CompactStep(acc, rest[0]), rest[1..]);
      assert forall m :: m in rest[1..] ==> m in rest;
    }
  }

  /** Compaction always keeps the latest message, last. */
  lemma {:induction false} CompactIntoLast(acc: seq<WireMessage>, rest: seq<WireMessage>)
    requires rest != []
    ensures var r := CompactInto(acc, rest); r != [] && r[|r| - 1] == rest[|rest| - 1]
    decreases |rest|
  {
    var next := CompactStep(acc, rest[0]);
    var tail := rest[1..];
    assert CompactInto(acc, rest) == CompactInto(next, tail);
    if tail == [] {
      assert CompactInto(next, tail) == next;
      assert rest[|rest| - 1] == rest[0];
    } else {
      CompactIntoLast(next, tail);
      assert tail[|tail| - 1] == rest[|rest| - 1];
    }
  }

  /** Compaction never changes which role opens the conversation. */
  lemma {:induction false} CompactIntoHead(acc: seq<WireMessage>, rest: seq<WireMessage>)
    requires acc != [] ==> acc[0].role == "user"
    requires acc == [] && rest != [] ==> rest[0].role == "user"
    ensures var r := CompactInto(acc, rest); r != [] ==> r[0].role == "user"
    decreases |rest|
  {
    if rest != [] {
      var next := CompactStep(acc, rest[0]);
      assert next[0].role == "user";
      CompactIntoHead(next, rest[1..]);
    }
  }

  /** The messages the model sees after the system part: filtered, trimmed at the front, compacted. */
  function Conversation(ms: seq<WireMessage>): seq<WireMessage> {
    Compact(DropLeading(Filter(ms)))
  }

  /**
   * The system texts: the configured prompt (with the time filled in as `formatted`) when the
   * template is not blank, then the profile prompt when there is one, each stripped.
   */
  function SystemParts(template: string, formatted: string, profilePrompt: string): (r: seq<string>)
    ensures |r| <= 2
    ensures r == [] <==> PyStrip(template) == [] && profilePrompt == []
  {
    (if PyStrip(template) != [] then [PyStrip(formatted)] else [])
    + (if profilePrompt != [] then [PyStrip(profilePrompt)] else [])
  }

  /** `build_chat_messages` as a value: the system message, if any, then the conversation. */
  function ChatMessages(ms: seq<WireMessage>, template: string, formatted: string,
                        profilePrompt: string): seq<WireMessage>
  {
    var parts := SystemParts(template, formatted, profilePrompt);
    if parts != [] then [WireMessage("system", Some(Join(parts, "\n\n")))] + Conversation(ms)
    else Conversation(ms)
  }

  /** Every conversation message is one the client posted, neither a system message nor an error reply. */
  lemma ConversationFrom(ms: seq<WireMessage>)
    ensures forall m :: m in Conversation(ms) ==> m in ms && Kept(m)
  {
    var kept := DropLeading(Filter(ms));
    CompactIntoFrom([], kept);
    assert forall m :: m in kept ==> m in Filter(ms);
  }

  lemma ConversationNoSystem(ms: seq<WireMessage>)
    ensures forall m :: m in Conversation(ms) ==> m.role != "system"
  {
    ConversationFrom(ms);
  }

  /** The conversation opens with the user, and never repeats a user turn. */
  lemma ConversationTurns(ms: seq<WireMessage>)
    ensures Conversation(ms) != [] ==> Conversation(ms)[0].role == "user"
    ensures NoRepeatedTurn(Conversation(ms))
  {
    CompactIntoKeeps([], DropLeading(Filter(ms)));
    CompactIntoHead([], DropLeading(Filter(ms)));
  }

  /** A non-empty suffix ends where the whole sequence does. */
  lemma SuffixLast<T>(s: seq<T>, r: seq<T>)
    requires r != [] && |r| <= |s| && r == s[|s| - |r|..]
    ensures r[|r| - 1] == s[|s| - 1]
  {
  }

  /** Dropping the leading turns and compacting keeps the last message, when anything is left. */
  lemma CompactKeepsLatest(f: seq<WireMessage>)
    ensures var conv := Compact(DropLeading(f));
      DropLeading(f) != [] ==> conv != [] && conv[|conv| - 1] == f[|f| - 1]
  {
    var kept := DropLeading(f);
    if kept != [] {
      CompactIntoLast([], kept);
      SuffixLast(f, kept);
    }
  }

  /** Once the conversation has a user message, the latest kept message always reaches the model. */
  lemma ConversationKeepsLatest(ms: seq<WireMessage>)
    ensures var conv := Conversation(ms); var f := Filter(ms);
      DropLeading(f) != [] ==> conv != [] && conv[|conv| - 1] == f[|f| - 1]
  {
    CompactKeepsLatest(Filter(ms));
  }

  /** At most one system message reaches the model, at the front, exactly when there is system text. */
  lemma SystemMessageFirst(ms: seq<WireMessage>, template: string, formatted: string, profilePrompt: string)
    ensures var r := ChatMessages(ms, template, formatted, profilePrompt);
      && (forall i :: 0 < i < |r| ==> r[i].role != "system")
      && (r != [] && r[0].role == "system" <==> SystemParts(template, formatted, profilePrompt) != [])
  {
    var conv := Conversation(ms);
    var r := ChatMessages(ms, template, formatted, profilePrompt);
    var parts := SystemParts(template, formatted, profilePrompt);
    ConversationNoSystem(ms);
    if parts != [] {
      var system := WireMessage("system", Some(Join(parts, "\n\n")));
      assert r == [system] + conv;
      forall i | 0 < i < |r| ensures r[i].role != "system" {
        assert r[i] == conv[i - 1];
        assert conv[i - 1] in conv;
      }
    } else {
      assert r == conv;
      forall i | 0 <= i < |r| ensures r[i].role != "system" {
        assert r[i] in conv;
      }
    }
  }

  /** The loop that collapses repeated user turns, keeping the later message of each pair. */
  method CompactTurns(chat: seq<WireMessage>) returns (compacted: seq<WireMessage>)
    ensures compacted == Compact(chat)
  {
    compacted := [];
    for i := 0 to |chat|
      invariant CompactInto(compacted, chat[i..]) == Compact(chat)
    {
      assert chat[i..][1..] == chat[i + 1..];
      var message := chat[i];
      ghost var next := CompactStep(compacted, message);
      if compacted != [] && message.role == "user" && compacted[|compacted| - 1].role == "user" {
        if StrippedContent(message) == StrippedContent(compacted[|compacted| - 1]) {
          compacted := compacted[|compacted| - 1 := message];
          assert compacted == next;
          continue;
        }
      }
      compacted := compacted + [message];
      assert compacted == next;
    }
    assert chat[|chat|..] == [];
  }

  /** The statements that gather the system texts. */
  method CollectSystemParts(template: string, formatted: string, profilePrompt: string)
    returns (systemParts: seq<string>)
    ensures systemParts == SystemParts(template, formatted, profilePrompt)
  {
    systemParts := [];
    ghost var instructions: seq<string> := [];
    if PyStrip(template) != [] {
      systemParts := systemParts + [PyStrip(formatted)];
      instructions := [PyStrip(formatted)];
    }
    assert systemParts == instructions;
    if profilePrompt != [] {
      systemParts := systemParts + [PyStrip(profilePrompt)];
      assert systemParts == instructions + [PyStrip(profilePrompt)];
    } else {
      assert systemParts == instructions + [];
    }
  }

  /** `build_chat_messages`, step by step as the handler runs it. */
  method BuildChatMessages(messages: seq<WireMessage>, template: string, formatted: string,
                           profilePrompt: string) returns (result: seq<WireMessage>)
    ensures result == ChatMessages(messages, template, formatted, profilePrompt)
  {
    var chat := Filter(messages);
    ghost var target := DropLeading(chat);
    while chat != [] && chat[0].role != "user"
      invariant DropLeading(chat) == target
      decreases |chat|
    {
      chat := chat[1..];
    }
    assert chat == target;
    var compacted := CompactTurns(chat);
    var systemParts := CollectSystemParts(template, formatted, profilePrompt);
    if systemParts != [] {
      result := [WireMessage("system", Some(Join(systemParts, "\n\n")))] + compacted;
    } else {
      result := compacted;
    }
  }

  // ---------------------------------------------------------------------------------------------
  // Event-stream framing of the chat reply

  /** The escaping of every payload: carriage returns dropped, then line feeds written as `\n`. */
  function Escape(s: string): (r: string)
    ensures '\n' !in r && '\r' !in r
  {
    var noCR := RemoveAll(s, "\r");
    ReplaceAvoids(s, '\r', "");
    ReplaceKeepsOut(noCR, "\n", "\\n", '\r');
    ReplaceAvoids(noCR, '\n', "\\n");
    ReplaceAll(noCR, "\n", "\\n")
  }

  /** How `generate` ends: normally, or with the exception whose text it reports. */
  datatype Ending = Finished | Raised(message: string)

  /** The lines of one chunk's event: its data line and the blank line after it. */
  function ChunkLines(c: string): seq<string> {
    ["data: " + Escape(c), ""]
  }

  /** The lines of the closing event. */
  function EndLines(e: Ending): seq<string> {
    match e
    case Finished => ["event: done", "data: [DONE]", ""]
    case Raised(message) => ["event: error", "data: " + Escape(message), ""]
  }

  /** Every line `generate` emits for the given chunks and ending, in order. */
  function Lines(chunks: seq<string>, e: Ending): seq<string> {
    if chunks == [] then EndLines(e) else ChunkLines(chunks[0]) + Lines(chunks[1..], e)
  }

  /** The text `generate` yields: each chunk's frame, then the closing frame. */
  function Body(chunks: seq<string>, e: Ending): string {
    if chunks == [] then
      match e
      case Finished => "event: done\ndata: [DONE]\n\n"
      case Raised(message) => "event: error\ndata: " + Escape(message) + "\n\n"
    else "data: " + Escape(chunks[0]) + "\n\n" + Body(chunks[1..], e)
  }

  /** Each line followed by a line feed. */
  function Terminated(lines: seq<string>): string {
    if lines == [] then "" else lines[0] + "\n" + Terminated(lines[1..])
  }

  lemma {:induction false} TerminatedJoin(lines: seq<string>)
    ensures Terminated(lines) == Join(lines + [""], "\n")
  {
    if lines != [] {
      TerminatedJoin(lines[1..]);
      assert (lines + [""])[1..] == lines[1..] + [""];
    }
  }

  lemma {:induction false} TerminatedAppend(a: seq<string>, b: seq<string>)
    ensures Terminated(a + b) == Terminated(a) + Terminated(b)
  {
    if a == [] {
      assert a + b == b;
    } else {
      assert (a + b)[1..] == a[1..] + b;
      TerminatedAppend(a[1..], b);
    }
  }

  lemma Terminated3(a: string, b: string, c: string)
    ensures Terminated([a, b, c]) == a + "\n" + b + "\n" + c + "\n"
  {
    assert [a, b, c][1..] == [b, c] && [b, c][1..] == [c] && [c][1..] == [];
    assert Terminated([c]) == c + "\n" + Terminated([]);
    assert Terminated([b, c]) == b + "\n" + Terminated([c]);
  }

  lemma EndBody(e: Ending)
    ensures Body([], e) == Terminated(EndLines(e))
  {
    match e
    case Finished =>
      Terminated3("event: done", "data: [DONE]", "");
      assert "event: done" + "\n" + "data: [DONE]" + "\n" + "" + "\n" == "event: done\ndata: [DONE]\n\n";
    case Raised(message) =>
      var data := "data: " + Escape(message);
      Terminated3("event: error", data, "");
      assert "event: error" + "\n" + data + "\n" + "" + "\n" == "event: error\ndata: " + Escape(message) + "\n\n";
  }

  lemma ChunkBody(c: string)
    ensures Terminated(ChunkLines(c)) == "data: " + Escape(c) + "\n\n"
  {
    var data := "data: " + Escape(c);
    assert [data, ""][1..] == [""] && [""][1..] == [];
    assert Terminated([""]) == "" + "\n" + Terminated([]);
    assert Terminated(ChunkLines(c)) == data + "\n" + "" + "\n" + "";
  }

  /** The body is exactly the lines, each terminated by a line feed. */
  lemma {:induction false} BodyLines(chunks: seq<string>, e: Ending)
    ensures Body(chunks, e) == Terminated(Lines(chunks, e))
  {
    if chunks == [] {
      EndBody(e);
    } else {
      BodyLines(chunks[1..], e);
      TerminatedAppend(ChunkLines(chunks[0]), Lines(chunks[1..], e));
      ChunkBody(chunks[0]);
    }
  }

  /** No line of the stream holds a line feed: payloads never break a line. */
  lemma {:induction false} LinesFree(chunks: seq<string>, e: Ending)
    ensures Free(Lines(chunks, e), '\n')
  {
    var done := ["event: done", "data: [DONE]", ""];
    assert "event: done"[5] != '\n';
    if chunks == [] {
      match e
      case Finished =>
        forall k, i | 0 <= k < 3 && 0 <= i < |done[k]| ensures done[k][i] != '\n' {
          assert '\n' !in "event: done" && '\n' !in "data: [DONE]";
          assert done[k][i] in done[k];
        }
      case Raised(message) =>
        var ls := EndLines(e);
        forall k, i | 0 <= k < 3 && 0 <= i < |ls[k]| ensures ls[k][i] != '\n' {
          assert '\n' !in "event: error" && '\n' !in "data: ";
          assert ls[k][i] in ls[k];
        }
    } else {
      LinesFree(chunks[1..], e);
      var ls := Lines(chunks, e);
      var first := ChunkLines(chunks[0]);
      forall k, i | 0 <= k < |ls| && 0 <= i < |ls[k]| ensures ls[k][i] != '\n' {
        if k < 2 {
          assert '\n' !in "data: ";
          assert ls[k] == first[k];
          assert ls[k][i] in ls[k];
        } else {
          assert ls[k] == Lines(chunks[1..], e)[k - 2];
        }
      }
    }
  }

  /** Splitting the body at line feeds gives back the lines, plus the empty rest after the last one. */
  lemma SplitBody(chunks: seq<string>, e: Ending)
    ensures Split(Body(chunks, e), IsLineFeed) == Lines(chunks, e) + [""]
  {
    var ls := Lines(chunks, e);
    BodyLines(chunks, e);
    TerminatedJoin(ls);
    LinesFree(chunks, e);
    assert Avoids(ls + [""], IsLineFeed) by {
      forall k, i | 0 <= k < |ls + [""]| && 0 <= i < |(ls + [""])[k]| ensures !IsLineFeed((ls + [""])[k][i]) {
        assert (ls + [""])[k] == ls[k];
      }
    }
    SplitJoin(ls + [""], '\n', IsLineFeed);
  }
}
