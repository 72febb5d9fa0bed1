/**
 * The streaming chat client: the backend address, the request guards, the mapping of chat
 * messages onto the wire, and the loop that turns the response's lines into `onDelta` and
 * `onComplete` callbacks.
 *
 * The callbacks are modelled as a log of events in call order. The response is a sequence of
 * `StreamItem`s: a line delivered while the request is live, a line delivered after the request was
 * cancelled (the loop then throws `CancellationError`), or a transport failure thrown by the byte
 * stream.
 */
module SparkChat {
  import opened Wrappers
  import opened Text
  import opened ChatMessages

  // -------------------------------------------------------------------------------------------
  // Backend configuration

  const DefaultURL: string := "http://10.10.13.2:8000"
  const StreamPath: string := "/spark/chat/stream"
  const TitlePath: string := "/spark/title"

  /**
   * `SparkBackendConfig.baseURL`: the stored override (absent reads as "") with surrounding
   * whitespace and newlines trimmed, or the default address when that leaves nothing.
   */
  function BaseURL(stored: Option<string>): (r: string)
    ensures r != [] && !IsWhite(r[0]) && !IsWhite(r[|r| - 1])
    ensures (forall i :: 0 <= i < |stored.GetOr("")| ==> IsWhite(stored.GetOr("")[i])) ==> r == DefaultURL
  {
    var trimmed := TrimWhite(stored.GetOr(""));
    if trimmed == [] then DefaultURL else trimmed
  }

  /** An override that is already trimmed and non-empty is used verbatim. */
  lemma BaseURLVerbatim(u: string)
    requires u != [] && !IsWhite(u[0]) && !IsWhite(u[|u| - 1])
    ensures BaseURL(Some(u)) == u
  {
    TrimByFixed(u, IsWhite);
  }

  /** Leading whitespace in the override is ignored. */
  lemma BaseURLIgnoresLeadingWhite(w: string, u: string)
    requires forall i :: 0 <= i < |w| ==> IsWhite(w[i])
    ensures BaseURL(Some(w + u)) == BaseURL(Some(u))
  {
    TrimByPrefix(w, u, IsWhite);
  }

  /** `SparkBackendConfig.isValid`: never false, because `baseURL` falls back to the default. */
  function IsValid(stored: Option<string>): (r: bool)
    ensures r
  {
    BaseURL(stored) != []
  }

  // -------------------------------------------------------------------------------------------
  // Errors, outcomes and callbacks

  datatype SparkAPIError =
    | MissingBackendConfig
    | InvalidURL
    | ServerError(code: int, message: Option<string>)
    | InvalidResponse

  /** What `onComplete` can carry in its failure case. */
  datatype StreamError =
    | Api(api: SparkAPIError)
    | Cancellation
    | Transport(description: string)

  datatype Outcome = Success(text: string) | Failure(error: StreamError)

  datatype Callback = Delta(chunk: string) | Complete(outcome: Outcome)

  /** `errorDescription` of the API errors; a transport error carries its own description. */
  function Describe(e: StreamError): (r: string)
    requires !e.Cancellation?
    ensures e.Transport? ==> r == e.description
    ensures e.Api? && e.api.ServerError? ==>
      StartsWith(r, "服务端错误(") && r == "服务端错误(" + IntToString(e.api.code) + ")：" + e.api.message.GetOr("未知错误")
  {
    match e
    case Transport(d) => d
    case Api(MissingBackendConfig) => "请先配置服务端地址，用于获取 Spark 的签名连接信息。"
    case Api(InvalidURL) => "无法生成有效的 WebSocket URL。"
    case Api(ServerError(code, message)) => "服务端错误(" + IntToString(code) + ")：" + message.GetOr("未知错误")
    case Api(InvalidResponse) => "服务响应格式异常。"
  }

  // -------------------------------------------------------------------------------------------
  // Messages on the wire

  datatype BackendMessage = BackendMessage(role: string, content: string)

  /** `ChatMessage.asBackendMessage`: the role follows `isUser`; the content is the shown `text`. */
  function AsBackendMessage(m: ChatMessage): (r: BackendMessage)
    ensures r.role == "user" <==> m.isUser
    ensures r.role == "assistant" <==> !m.isUser
    ensures r.content == m.text
  {
    BackendMessage(if m.isUser then "user" else "assistant", m.text)
  }

  function AsBackendMessages(history: seq<ChatMessage>): (r: seq<BackendMessage>)
    ensures |r| == |history|
    ensures forall k :: 0 <= k < |r| ==> r[k] == AsBackendMessage(history[k])
  {
    if history == [] then [] else [AsBackendMessage(history[0])] + AsBackendMessages(history[1..])
  }

  // -------------------------------------------------------------------------------------------
  // The response stream

  datatype StreamItem =
    | Line(text: string)
    | CancelledLine
    | Broken(description: string)

  /** The `\n` escape the server writes for a line break, turned back into one. */
  function Unescape(raw: string): string {
    ReplaceAll(raw, "\\n", "\n")
  }

  /** The event name an `event:` line announces. */
  function EventName(line: string): string {
    Trim(RemoveAll(line, "event:"))
  }

  /** The payload of a `data:` line: every "data:" removed, then trimmed of spaces and tabs. */
  function Payload(line: string): string {
    Trim(RemoveAll(line, "data:"))
  }

  /** Concatenation of the chunks of the `Delta` callbacks in a log. */
  function DeltaText(log: seq<Callback>): string {
    if log == [] then "" else (if log[0].Delta? then log[0].chunk else "") + DeltaText(log[1..])
  }

  lemma {:induction false} DeltaTextAppend(log: seq<Callback>, c: Callback)
    ensures DeltaText(log + [c]) == DeltaText(log) + (if c.Delta? then c.chunk else "")
  {
    if log != [] {
      assert (log + [c])[1..] == log[1..] + [c];
      DeltaTextAppend(log[1..], c);
    }
  }

  lemma {:induction false} DeltaTextConcat(a: seq<Callback>, b: seq<Callback>)
    ensures DeltaText(a + b) == DeltaText(a) + DeltaText(b)
  {
    if a != [] {
      assert (a + b)[0] == a[0] && (a + b)[1..] == a[1..] + b;
      DeltaTextConcat(a[1..], b);
    } else {
      assert a + b == b;
    }
  }

  /** A log holds exactly one completion, and it is the last call. */
  ghost predicate CompletesOnce(log: seq<Callback>) {
    |log| >= 1 && log[|log| - 1].Complete? && forall k :: 0 <= k < |log| - 1 ==> log[k].Delta?
  }

  /** The loop's variables that outlive one line: `currentEvent` and `accumulated`. */
  datatype Decoder = Decoder(event: Option<string>, acc: string)

  /** What one item does: carry on (after at most one `onDelta`) or stop with `onComplete`. */
  datatype Effect = Continue(next: Decoder, delta: Option<string>) | Stop(last: Outcome)

  /** One line of the response, as the body of the `for try await` loop treats it. */
  function StepLine(d: Decoder, line: string): Effect {
    if StartsWith(line, "event:") then Continue(Decoder(Some(EventName(line)), d.acc), None)
    else if StartsWith(line, "data:") then
      var raw := Payload(line);
      if d.event == Some("error") then Stop(Failure(Api(ServerError(500, Some(Unescape(raw))))))
      else if raw == "[DONE]" then Stop(Success(d.acc))
      else
        var chunk := Unescape(raw);
        Continue(Decoder(d.event, d.acc + chunk), Some(chunk))
    else if line == [] then Continue(Decoder(None, d.acc), None)
    else Continue(d, None)
  }

  /**
   * What one line does. An `event:` line names the current event; an empty line clears it; any
   * other line keeps it. A line stops the stream exactly when it is a data line that follows an
   * `error` event (a server failure carrying the unescaped payload) or carries `[DONE]` (a
   * success carrying the accumulated text). Every other data line yields its unescaped payload as
   * one delta, and the accumulator grows by exactly that delta.
   */
  lemma StepLineEffect(d: Decoder, line: string)
    ensures StartsWith(line, "event:") ==> StepLine(d, line) == Continue(Decoder(Some(EventName(line)), d.acc), None)
    ensures !StartsWith(line, "event:") && line == [] ==> StepLine(d, line) == Continue(Decoder(None, d.acc), None)
    ensures !StartsWith(line, "event:") && !StartsWith(line, "data:") && line != [] ==> StepLine(d, line) == Continue(d, None)
    ensures StepLine(d, line).Continue? ==> StepLine(d, line).next.acc == d.acc + StepLine(d, line).delta.GetOr("")
    ensures StepLine(d, line).Continue? && !StartsWith(line, "event:") && StartsWith(line, "data:") ==>
      StepLine(d, line).next.event == d.event && StepLine(d, line).delta == Some(Unescape(Payload(line)))
    ensures StepLine(d, line).Stop? <==> !StartsWith(line, "event:") && StartsWith(line, "data:")
                                         && (d.event == Some("error") || Payload(line) == "[DONE]")
    ensures StepLine(d, line).Stop? && d.event == Some("error") ==>
      StepLine(d, line).last == Failure(Api(ServerError(500, Some(Unescape(Payload(line))))))
    ensures StepLine(d, line).Stop? && d.event != Some("error") ==> StepLine(d, line).last == Success(d.acc)
  {
  }

  function StepItem(d: Decoder, item: StreamItem): Effect {
    match item
    case Line(line) => StepLine(d, line)
    case CancelledLine => Stop(Failure(Cancellation))
    case Broken(desc) => Stop(Failure(Transport(desc)))
  }

  /**
   * The loop of `send(messages:…)`: the whole callback log, given the items still to come, the
   * decoder, and the calls made so far. Running out of lines reports the accumulated text.
   */
  function Run(items: seq<StreamItem>, d: Decoder, log: seq<Callback>): (r: seq<Callback>)
    ensures |r| >= 1 && r[|r| - 1].Complete?
    decreases |items|
  {
    if items == [] then log + [Complete(Success(d.acc))]
    else
      match StepItem(d, items[0])
      case Stop(outcome) => log + [Complete(outcome)]
      case Continue(next, None) => Run(items[1..], next, log)
      case Continue(next, Some(chunk)) => Run(items[1..], next, log + [Delta(chunk)])
  }

  /** The callbacks one response produces, from a fresh decoder. */
  function Decode(items: seq<StreamItem>): (r: seq<Callback>)
    ensures |r| >= 1 && r[|r| - 1].Complete?
  {
    Run(items, Start, [])
  }

  /** The decoder the loop starts from: no event, nothing accumulated. */
  const Start: Decoder := Decoder(None, "")

  /** The outcome `onComplete` receives at the end of a log. */
  function Final(log: seq<Callback>): Outcome
    requires |log| >= 1 && log[|log| - 1].Complete?
  {
    log[|log| - 1].outcome
  }

  /** From a log of deltas, `onComplete` is called exactly once, after every `onDelta`. */
  lemma {:induction false} RunCompletesOnce(items: seq<StreamItem>, d: Decoder, log: seq<Callback>)
    requires forall k :: 0 <= k < |log| ==> log[k].Delta?
    ensures CompletesOnce(Run(items, d, log))
    decreases |items|
  {
    if items != [] {
      var e := StepItem(d, items[0]);
      if e.Continue? {
        var log' := if e.delta.Some? then log + [Delta(e.delta.value)] else log;
        assert forall k :: 0 <= k < |log'| ==> log'[k].Delta?;
        RunCompletesOnce(items[1..], e.next, log');
      }
    }
  }

  /**
   * When the accumulator holds the deltas so far, a success carries exactly the concatenation of
   * every delta of the log.
   */
  lemma {:induction false} RunSuccessText(items: seq<StreamItem>, d: Decoder, log: seq<Callback>)
    requires d.acc == DeltaText(log)
    ensures Final(Run(items, d, log)).Success? ==> Final(Run(items, d, log)).text == DeltaText(Run(items, d, log))
    decreases |items|
  {
    if items == [] {
      DeltaTextAppend(log, Complete(Success(d.acc)));
    } else {
      var e := StepItem(d, items[0]);
      if e.Stop? {
        DeltaTextAppend(log, Complete(e.last));
        if items[0].Line? {
          StepLineEffect(d, items[0].text);
        }
      } else if e.delta.Some? {
        if items[0].Line? {
          StepLineEffect(d, items[0].text);
        }
        DeltaTextAppend(log, Delta(e.delta.value));
        RunSuccessText(items[1..], e.next, log + [Delta(e.delta.value)]);
      } else {
        if items[0].Line? {
          StepLineEffect(d, items[0].text);
        }
        RunSuccessText(items[1..], e.next, log);
      }
    }
  }

  /** Once the request is open, the outcome is never a missing configuration. */
  lemma {:induction false} RunNeverMissingConfig(items: seq<StreamItem>, d: Decoder, log: seq<Callback>)
    ensures Final(Run(items, d, log)) != Failure(Api(MissingBackendConfig))
    decreases |items|
  {
    if items != [] {
      var e := StepItem(d, items[0]);
      if e.Continue? {
        RunNeverMissingConfig(items[1..], e.next, if e.delta.Some? then log + [Delta(e.delta.value)] else log);
      } else if items[0].Line? {
        StepLineEffect(d, items[0].text);
      }
    }
  }

  /** After an `error` event the next data line ends the stream, whatever follows it. */
  lemma ErrorEventEndsStream(line: string, rest: seq<StreamItem>, acc: string, log: seq<Callback>)
    requires StartsWith(line, "data:") && !StartsWith(line, "event:")
    ensures Run([Line(line)] + rest, Decoder(Some("error"), acc), log)
         == log + [Complete(Failure(Api(ServerError(500, Some(Unescape(Payload(line)))))))]
  {
    assert ([Line(line)] + rest)[0] == Line(line);
    StepLineEffect(Decoder(Some("error"), acc), line);
  }

  /** A `[DONE]` payload outside an error event reports the accumulated text, whatever follows. */
  lemma DoneEndsStream(line: string, rest: seq<StreamItem>, d: Decoder, log: seq<Callback>)
    requires StartsWith(line, "data:") && !StartsWith(line, "event:") && Payload(line) == "[DONE]"
    requires d.event != Some("error")
    ensures Run([Line(line)] + rest, d, log) == log + [Complete(Success(d.acc))]
  {
    assert ([Line(line)] + rest)[0] == Line(line);
    StepLineEffect(d, line);
  }

  /**
   * The decoding loop. `currentEvent`, `accumulated` and `completed` are the loop's variables;
   * `thrown` stands for control reaching the `catch`. The log is the callbacks in call order.
   */
  method DecodeStream(items: seq<StreamItem>) returns (log: seq<Callback>)
    ensures log == Decode(items)
    ensures CompletesOnce(log)
    ensures Final(log).Success? ==> Final(log).text == DeltaText(log)
    ensures Final(log) != Failure(Api(MissingBackendConfig))
  {
    var currentEvent: Option<string> := None;
    var accumulated := "";
    var completed := false;
    var thrown: Option<StreamError> := None;
    log := [];
    var i := 0;
    while i < |items|
      invariant 0 <= i <= |items|
      invariant Run(items[i..], Decoder(currentEvent, accumulated), log) == Decode(items)
      invariant accumulated == DeltaText(log)
    {
      ghost var rest := items[i..];
      assert rest[0] == items[i] && rest[1..] == items[i + 1..];
      match items[i] {
        case CancelledLine =>
          thrown := Some(Cancellation);
          break;
        case Broken(desc) =>
          thrown := Some(Transport(desc));
          break;
        case Line(line) =>
          if StartsWith(line, "event:") {
            currentEvent := Some(EventName(line));
            i := i + 1;
            continue;
          }
          if StartsWith(line, "data:") {
            var raw := Payload(line);
            if currentEvent == Some("error") {
              completed := true;
              var message := Unescape(raw);
              log := log + [Complete(Failure(Api(ServerError(500, Some(message)))))];
              break;
            }
            if raw == "[DONE]" {
              completed := true;
              log := log + [Complete(Success(accumulated))];
              break;
            }
            var chunk := Unescape(raw);
            DeltaTextAppend(log, Delta(chunk));
            accumulated := accumulated + chunk;
            log := log + [Delta(chunk)];
            i := i + 1;
            continue;
          }
          if line == [] {
            currentEvent := None;
          }
          i := i + 1;
      }
    }
    if thrown.Some? {
      log := log + [Complete(Failure(thrown.value))];
    } else if !completed {
      assert items[i..] == [];
      log := log + [Complete(Success(accumulated))];
    }
    RunCompletesOnce(items, Start, []);
    RunSuccessText(items, Start, []);
    RunNeverMissingConfig(items, Start, []);
  }

  // -------------------------------------------------------------------------------------------
  // Sending

  datatype Request = Request(url: string, messages: seq<BackendMessage>, profileId: Option<string>)

  /**
   * `send(history:profileId:…)`. `urlParses` stands for `URL(string:)` accepting the address and
   * `encodes` for the JSON encoder succeeding; `items` is what the connection then delivers.
   * The returned request is the one put on the wire, absent when a guard failed.
   */
  method Send(stored: Option<string>, urlParses: string -> bool, encodes: bool,
              history: seq<ChatMessage>, profileId: Option<string>, items: seq<StreamItem>)
    returns (request: Option<Request>, log: seq<Callback>)
    ensures CompletesOnce(log)
    ensures !urlParses(BaseURL(stored) + StreamPath) ==>
      request == None && log == [Complete(Failure(Api(InvalidURL)))]
    ensures urlParses(BaseURL(stored) + StreamPath) && !encodes ==>
      request == None && log == [Complete(Failure(Api(InvalidResponse)))]
    ensures urlParses(BaseURL(stored) + StreamPath) && encodes ==>
      request == Some(Request(BaseURL(stored) + StreamPath, AsBackendMessages(history), profileId))
      && log == Decode(items)
    ensures log != [Complete(Failure(Api(MissingBackendConfig)))]
  {
    if !IsValid(stored) {
      request := None;
      log := [Complete(Failure(Api(MissingBackendConfig)))];
      return;
    }
    var url := BaseURL(stored) + StreamPath;
    if !urlParses(url) {
      request := None;
      log := [Complete(Failure(Api(InvalidURL)))];
      return;
    }
    if !encodes {
      request := None;
      log := [Complete(Failure(Api(InvalidResponse)))];
      return;
    }
    request := Some(Request(url, AsBackendMessages(history), profileId));
    log := DecodeStream(items);
  }
}
