/**
 * The chat reply end to end: the event stream the backend frames (`SparkServer`) read back by
 * the client's decoding loop (`SparkChat`). For chunks the framing carries unchanged, the client
 * reports exactly the chunks as deltas and then the ending the backend sent; the lemmas at the
 * end show that each condition on the chunks is needed.
 */
module StreamRoundTrip {
  import opened Wrappers
  import opened Text
  import C = SparkChat
  import S = SparkServer

  // ---------------------------------------------------------------------------------------------
  // The escaping, character by character

  /** The line-feed half of the backend's escaping. */
  function EscapeLF(s: string): string {
    ReplaceAll(s, "\n", "\\n")
  }

  lemma EscapeLFCons(s: string)
    requires s != []
    ensures s[0] == '\n' ==> EscapeLF(s) == "\\n" + EscapeLF(s[1..])
    ensures s[0] != '\n' ==> EscapeLF(s) == [s[0]] + EscapeLF(s[1..])
  {
    if s[0] != '\n' {
      assert s[..1][0] == s[0];
    } else {
      assert s[..1] == "\n";
    }
  }

  /** The first and last characters of an escaped text. */
  lemma {:induction false} EscapeLFEnds(s: string)
    requires s != []
    ensures var e := EscapeLF(s);
      && e != []
      && e[0] == (if s[0] == '\n' then '\\' else s[0])
      && e[|e| - 1] == (if s[|s| - 1] == '\n' then 'n' else s[|s| - 1])
    decreases |s|
  {
    EscapeLFCons(s);
    if |s| > 1 {
      EscapeLFEnds(s[1..]);
      assert s[1..][|s[1..]| - 1] == s[|s| - 1];
    } else {
      assert s[1..] == [];
    }
  }

  /** Escaping cannot create a prefix without a backslash. */
  lemma {:induction false} EscapedPrefix(t: string, q: string)
    requires '\\' !in q
    ensures StartsWith(EscapeLF(t), q) ==> StartsWith(t, q)
    decreases |t|
  {
    if q != [] && t != [] {
      EscapeLFCons(t);
      var e := EscapeLF(t);
      assert forall x :: x in q[1..] ==> x in q;
      EscapedPrefix(t[1..], q[1..]);
      if t[0] != '\n' {
        assert e[1..] == EscapeLF(t[1..]);
        if StartsWith(e, q) {
          assert e[..|q|][1..] == e[1..][..|q| - 1];
          assert q == [q[0]] + q[1..];
          assert t[..|q|] == [t[0]] + t[1..][..|q| - 1];
        }
      } else {
        assert q[0] in q;
        if |q| <= |e| {
          assert e[..|q|][0] == '\\';
        }
      }
    }
  }

  /** Escaping cannot create an occurrence of a pattern without a backslash that does not open with n. */
  lemma {:induction false} EscapedContains(t: string, q: string)
    requires q != [] && '\\' !in q && q[0] != 'n'
    ensures Contains(EscapeLF(t), q) ==> Contains(t, q)
    decreases |t|
  {
    if t != [] {
      EscapeLFCons(t);
      EscapedPrefix(t, q);
      EscapedContains(t[1..], q);
      var e := EscapeLF(t);
      if t[0] == '\n' {
        assert e[1..][1..] == EscapeLF(t[1..]);
        assert q[0] in q;
        if |q| <= |e| {
          assert e[..|q|][0] == '\\';
        }
        if |q| <= |e[1..]| {
          assert e[1..][..|q|][0] == 'n';
        }
        assert Contains(e[1..], q) == (StartsWith(e[1..], q) || (e[1..] != [] && Contains(e[1..][1..], q)));
      } else {
        assert e[1..] == EscapeLF(t[1..]);
      }
    }
  }

  /** The client's unescaping undoes the escaping of a text with no backslash-n of its own. */
  lemma {:induction false} UnescapeEscapeLF(c: string)
    requires !Contains(c, "\\n")
    ensures C.Unescape(EscapeLF(c)) == c
    decreases |c|
  {
    if c != [] {
      EscapeLFCons(c);
      var e := EscapeLF(c);
      var e' := EscapeLF(c[1..]);
      UnescapeEscapeLF(c[1..]);
      if c[0] == '\n' {
        assert e[..2] == "\\n";
        assert e[2..] == e';
      } else {
        if c[0] == '\\' && c[1..] != [] {
          assert c[..2] == [c[0], c[1]];
          EscapeLFEnds(c[1..]);
          assert e[..2] == [c[0], e'[0]];
        }
        if |e| >= 2 {
          assert e[..2][0] == c[0];
        }
        ReplaceAppendSingle(c[0], e', "\\n", "\n");
      }
    }
  }

  // ---------------------------------------------------------------------------------------------
  // One line of the stream

  /**
   * A text the framing and the client's parsing carry unchanged: no carriage return, no
   * backslash-n, no `data:`, and no space or tab at either end.
   */
  predicate Transparent(c: string) {
    && '\r' !in c
    && !Contains(c, "\\n")
    && !Contains(c, "data:")
    && (c != [] ==> !IsSpace(c[0]) && !IsSpace(c[|c| - 1]))
  }

  /** A line made of a tag, one space and a value starts with the tag; removing the tag leaves the rest. */
  lemma TagRemoved(tag: string, v: string, line: string)
    requires line == tag + " " + v
    requires tag != [] && tag[0] != ' ' && !Contains(v, tag)
    ensures StartsWith(line, tag) && RemoveAll(line, tag) == [' '] + v
  {
    assert line[..|tag|] == tag;
    assert line[|tag|..] == [' '] + v;
    if |tag| <= 1 + |v| {
      assert ([' '] + v)[..|tag|][0] == ' ';
    }
    ReplaceAppendSingle(' ', v, tag, "");
    ReplaceAbsent(v, tag, "");
  }

  /** Such a line hands the client the tag and, trimmed, the value. */
  lemma TagLine(tag: string, v: string, line: string)
    requires line == tag + " " + v
    requires tag != [] && tag[0] != ' ' && !Contains(v, tag)
    requires v != [] ==> !IsSpace(v[0]) && !IsSpace(v[|v| - 1])
    ensures StartsWith(line, tag) && Trim(RemoveAll(line, tag)) == v
  {
    TagRemoved(tag, v, line);
    TrimByPrefix([' '], v, IsSpace);
    TrimByFixed(v, IsSpace);
  }

  /** The backend's escaping of a transparent text is the line-feed escaping alone. */
  lemma EscapeTransparent(c: string)
    requires '\r' !in c
    ensures S.Escape(c) == EscapeLF(c)
  {
    MissingHead(c, "\r");
    ReplaceAbsent(c, "\r", "");
  }

  /** The client's unescaping undoes the backend's escaping of a transparent text. */
  lemma UnescapeEscape(c: string)
    requires Transparent(c)
    ensures C.Unescape(S.Escape(c)) == c
  {
    EscapeTransparent(c);
    UnescapeEscapeLF(c);
  }

  /** A data line built from a transparent text hands the client that text back. */
  lemma DataLine(c: string, line: string)
    requires Transparent(c) && line == "data:" + " " + S.Escape(c)
    ensures StartsWith(line, "data:") && !StartsWith(line, "event:")
    ensures C.Payload(line) == S.Escape(c)
  {
    EscapeTransparent(c);
    var e := EscapeLF(c);
    EscapedContains(c, "data:");
    if c != [] {
      EscapeLFEnds(c);
    }
    TagLine("data:", e, line);
    assert |line| >= 6 ==> line[..6][0] == 'd';
  }

  /** Only the text [DONE] itself frames as the end marker. */
  lemma NotDoneMarker(c: string)
    requires Transparent(c) && c != "[DONE]"
    ensures S.Escape(c) != "[DONE]"
  {
    UnescapeEscape(c);
    MissingHead("[DONE]", "\\n");
    ReplaceAbsent("[DONE]", "\\n", "\n");
  }

  // ---------------------------------------------------------------------------------------------
  // The whole stream

  /** The lines as the client's loop receives them. */
  function Items(lines: seq<string>): (r: seq<C.StreamItem>)
    ensures |r| == |lines| && forall k :: 0 <= k < |r| ==> r[k] == C.Line(lines[k])
  {
    if lines == [] then [] else [C.Line(lines[0])] + Items(lines[1..])
  }

  lemma {:induction false} ItemsAppend(a: seq<string>, b: seq<string>)
    ensures Items(a + b) == Items(a) + Items(b)
  {
    var l, r := Items(a + b), Items(a) + Items(b);
    assert |l| == |r|;
    forall k | 0 <= k < |l| ensures l[k] == r[k] {
      if k < |a| {
        assert (a + b)[k] == a[k];
      } else {
        assert (a + b)[k] == b[k - |a|];
      }
    }
  }

  /** What the client reports at the end, given the text streamed before it. */
  function Outcome(e: S.Ending, text: string): C.Outcome {
    match e
    case Finished => C.Success(text)
    case Raised(message) => C.Failure(C.Api(C.ServerError(500, Some(message))))
  }

  /** One delta per chunk, in order. */
  function Deltas(chunks: seq<string>): (r: seq<C.Callback>)
    ensures |r| == |chunks| && forall k :: 0 <= k < |r| ==> r[k] == C.Delta(chunks[k])
  {
    if chunks == [] then [] else [C.Delta(chunks[0])] + Deltas(chunks[1..])
  }

  /** Chunks the framing carries unchanged. */
  predicate Sendable(chunks: seq<string>) {
    forall k :: 0 <= k < |chunks| ==> Transparent(chunks[k]) && chunks[k] != "[DONE]"
  }

  /** An ending whose message the framing carries unchanged. */
  predicate Reportable(e: S.Ending) {
    e.Raised? ==> Transparent(e.message)
  }

  /** A chunk's data line, outside an error event, hands over the chunk. */
  lemma DataLineStep(c: string, line: string, d: C.Decoder)
    requires Transparent(c) && c != "[DONE]" && d.event != Some("error")
    requires line == "data:" + " " + S.Escape(c)
    ensures C.StepLine(d, line) == C.Continue(C.Decoder(d.event, d.acc + c), Some(c))
  {
    DataLine(c, line);
    UnescapeEscape(c);
    NotDoneMarker(c);
  }

  /** The data line of an error event stops the stream with the carried message. */
  lemma ErrorLineStep(m: string, line: string, acc: string)
    requires Transparent(m) && line == "data:" + " " + S.Escape(m)
    ensures C.StepLine(C.Decoder(Some("error"), acc), line) == C.Stop(C.Failure(C.Api(C.ServerError(500, Some(m)))))
  {
    DataLine(m, line);
    UnescapeEscape(m);
  }

  /** An event line names the event for the data line after it. */
  lemma EventLineStep(name: string, line: string, d: C.Decoder)
    requires line == "event:" + " " + name
    requires name != [] && !IsSpace(name[0]) && !IsSpace(name[|name| - 1]) && !Contains(name, "event:")
    ensures C.StepLine(d, line) == C.Continue(C.Decoder(Some(name), d.acc), None)
  {
    TagLine("event:", name, line);
  }

  /** The end marker, outside an error event, completes the stream with the text so far. */
  lemma DoneLineStep(v: string, line: string, d: C.Decoder)
    requires line == "data:" + " " + v && v == "[DONE]"
    requires d.event != Some("error")
    ensures C.StepLine(d, line) == C.Stop(C.Success(d.acc))
  {
    MissingHead(v, "data:");
    TagLine("data:", v, line);
    assert !StartsWith(line, "event:") by {
      assert line[0] == 'd';
    }
    DoneStep(d, line);
  }

  /** A data line whose payload is the end marker stops the stream outside an error event. */
  lemma DoneStep(d: C.Decoder, line: string)
    requires StartsWith(line, "data:") && !StartsWith(line, "event:") && C.Payload(line) == "[DONE]"
    requires d.event != Some("error")
    ensures C.StepLine(d, line) == C.Stop(C.Success(d.acc))
  {
  }

  /** A chunk's two lines add its text to the stream and leave no event pending. */
  lemma ChunkStep(c: string, acc: string, rest: seq<C.StreamItem>, log: seq<C.Callback>)
    requires Transparent(c) && c != "[DONE]"
    ensures C.Run(Items(S.ChunkLines(c)) + rest, C.Decoder(None, acc), log)
         == C.Run(rest, C.Decoder(None, acc + c), log + [C.Delta(c)])
  {
    var items := Items(S.ChunkLines(c)) + rest;
    var line := "data:" + " " + S.Escape(c);
    assert "data: " + S.Escape(c) == line;
    assert items[0] == C.Line(line);
    DataLineStep(c, line, C.Decoder(None, acc));
    assert items[1..][0] == C.Line("");
    assert items[1..][1..] == rest;
  }

  /** Two lines, the first carrying on without a delta and the second stopping, end the stream. */
  lemma TwoLineFrame(l0: string, l1: string, d: C.Decoder, next: C.Decoder, last: C.Outcome,
                     rest: seq<C.StreamItem>, log: seq<C.Callback>)
    requires C.StepLine(d, l0) == C.Continue(next, None) && C.StepLine(next, l1) == C.Stop(last)
    ensures C.Run(Items([l0, l1, ""]) + rest, d, log) == log + [C.Complete(last)]
  {
    var items := Items([l0, l1, ""]) + rest;
    assert items[0] == C.Line(l0);
    assert items[1..][0] == C.Line(l1);
  }

  /** The closing frame of a finished reply completes the stream with the text so far. */
  lemma DoneFrame(name: string, v: string, l0: string, l1: string, acc: string,
                  rest: seq<C.StreamItem>, log: seq<C.Callback>)
    requires name == "done" && v == "[DONE]"
    requires l0 == "event:" + " " + name && l1 == "data:" + " " + v
    ensures C.Run(Items([l0, l1, ""]) + rest, C.Decoder(None, acc), log) == log + [C.Complete(C.Success(acc))]
  {
    TooLong(name, "event:");
    EventLineStep(name, l0, C.Decoder(None, acc));
    DoneLineStep(v, l1, C.Decoder(Some(name), acc));
    TwoLineFrame(l0, l1, C.Decoder(None, acc), C.Decoder(Some(name), acc), C.Success(acc), rest, log);
  }

  /** The closing frame of a failed reply stops the stream with the carried message. */
  lemma ErrorFrame(name: string, m: string, l0: string, l1: string, acc: string,
                   rest: seq<C.StreamItem>, log: seq<C.Callback>)
    requires name == "error" && Transparent(m)
    requires l0 == "event:" + " " + name && l1 == "data:" + " " + S.Escape(m)
    ensures C.Run(Items([l0, l1, ""]) + rest, C.Decoder(None, acc), log)
         == log + [C.Complete(C.Failure(C.Api(C.ServerError(500, Some(m)))))]
  {
    TooLong(name, "event:");
    EventLineStep(name, l0, C.Decoder(None, acc));
    ErrorLineStep(m, l1, acc);
    TwoLineFrame(l0, l1, C.Decoder(None, acc), C.Decoder(Some(name), acc),
                 C.Failure(C.Api(C.ServerError(500, Some(m)))), rest, log);
  }

  /** The closing event stops the stream with the ending the backend sent. */
  lemma EndStep(e: S.Ending, acc: string, rest: seq<C.StreamItem>, log: seq<C.Callback>)
    requires Reportable(e)
    ensures C.Run(Items(S.EndLines(e)) + rest, C.Decoder(None, acc), log)
         == log + [C.Complete(Outcome(e, acc))]
  {
    match e
    case Finished =>
      var name, v := "done", "[DONE]";
      assert "event:" + " " + name == "event: done";
      assert "data:" + " " + v == "data: [DONE]";
      DoneFrame(name, v, "event:" + " " + name, "data:" + " " + v, acc, rest, log);
    case Raised(message) =>
      var name := "error";
      assert "event:" + " " + name == "event: error";
      assert "data: " + S.Escape(message) == "data:" + " " + S.Escape(message);
      ErrorFrame(name, message, "event:" + " " + name, "data:" + " " + S.Escape(message), acc, rest, log);
  }

  /** One chunk's frame in front of any lines: the chunk's delta, then those lines. */
  lemma ChunkFrame(c: string, tail: seq<string>, acc: string, rest: seq<C.StreamItem>, log: seq<C.Callback>)
    requires Transparent(c) && c != "[DONE]"
    ensures C.Run(Items(S.ChunkLines(c) + tail) + rest, C.Decoder(None, acc), log)
         == C.Run(Items(tail) + rest, C.Decoder(None, acc + c), log + [C.Delta(c)])
  {
    ItemsAppend(S.ChunkLines(c), tail);
    assert Items(S.ChunkLines(c) + tail) + rest == Items(S.ChunkLines(c)) + (Items(tail) + rest);
    ChunkStep(c, acc, Items(tail) + rest, log);
  }

  /** The chunk frames alone, without the closing event. */
  function ChunkFrames(chunks: seq<string>): seq<string> {
    if chunks == [] then [] else S.ChunkLines(chunks[0]) + ChunkFrames(chunks[1..])
  }

  /** The lines are the chunk frames followed by the closing event. */
  lemma {:induction false} LinesSplit(chunks: seq<string>, e: S.Ending)
    ensures S.Lines(chunks, e) == ChunkFrames(chunks) + S.EndLines(e)
    decreases |chunks|
  {
    if chunks != [] {
      LinesSplit(chunks[1..], e);
      assert S.ChunkLines(chunks[0]) + (ChunkFrames(chunks[1..]) + S.EndLines(e))
          == S.ChunkLines(chunks[0]) + ChunkFrames(chunks[1..]) + S.EndLines(e);
    }
  }

  /** The chunk frames in front of any lines: one delta per chunk, in order, then those lines. */
  lemma {:induction false} RunChunks(chunks: seq<string>, tail: seq<string>, acc: string,
                                     rest: seq<C.StreamItem>, log: seq<C.Callback>)
    requires Sendable(chunks)
    ensures C.Run(Items(ChunkFrames(chunks) + tail) + rest, C.Decoder(None, acc), log)
         == C.Run(Items(tail) + rest, C.Decoder(None, acc + Concat(chunks)), log + Deltas(chunks))
    decreases |chunks|
  {
    if chunks == [] {
      assert ChunkFrames(chunks) + tail == tail;
      assert acc + Concat(chunks) == acc;
      assert log + Deltas(chunks) == log;
    } else {
      var c := chunks[0];
      assert Sendable(chunks[1..]) by {
        forall k | 0 <= k < |chunks[1..]| ensures Transparent(chunks[1..][k]) && chunks[1..][k] != "[DONE]" {
          assert chunks[1..][k] == chunks[k + 1];
        }
      }
      var later := ChunkFrames(chunks[1..]) + tail;
      assert ChunkFrames(chunks) + tail == S.ChunkLines(c) + later;
      ChunkFrame(c, later, acc, rest, log);
      RunChunks(chunks[1..], tail, acc + c, rest, log + [C.Delta(c)]);
      assert log + [C.Delta(c)] + Deltas(chunks[1..]) == log + Deltas(chunks);
      assert acc + c + Concat(chunks[1..]) == acc + Concat(chunks);
    }
  }

  /** The stream from any point: every remaining chunk becomes a delta, then the ending is reported. */
  lemma RunFrames(chunks: seq<string>, e: S.Ending, acc: string, rest: seq<C.StreamItem>, log: seq<C.Callback>)
    requires Sendable(chunks) && Reportable(e)
    ensures C.Run(Items(S.Lines(chunks, e)) + rest, C.Decoder(None, acc), log)
         == log + Deltas(chunks) + [C.Complete(Outcome(e, acc + Concat(chunks)))]
  {
    LinesSplit(chunks, e);
    RunChunks(chunks, S.EndLines(e), acc, rest, log);
    EndStep(e, acc + Concat(chunks), rest, log + Deltas(chunks));
  }

  /**
   * The round trip: the client, reading the backend's response body line by line, reports each
   * chunk as one delta and then the ending: success with the whole reply, or the server error
   * carrying the exception's text.
   */
  lemma RoundTrip(chunks: seq<string>, e: S.Ending)
    requires Sendable(chunks) && Reportable(e)
    ensures C.Decode(Items(Split(S.Body(chunks, e), IsLineFeed)))
         == Deltas(chunks) + [C.Complete(Outcome(e, Concat(chunks)))]
  {
    var lines := S.Lines(chunks, e);
    S.SplitBody(chunks, e);
    ItemsAppend(lines, [""]);
    RunFrames(chunks, e, "", Items([""]), []);
    assert "" + Concat(chunks) == Concat(chunks);
    assert [] + Deltas(chunks) == Deltas(chunks);
  }

  /** The deltas of the chunks spell out the whole reply. */
  lemma {:induction false} DeltasSpellReply(chunks: seq<string>)
    ensures C.DeltaText(Deltas(chunks)) == Concat(chunks)
  {
    if chunks != [] {
      DeltasSpellReply(chunks[1..]);
      assert Deltas(chunks)[1..] == Deltas(chunks[1..]);
    }
  }

  // ---------------------------------------------------------------------------------------------
  // Each condition is needed

  /** A text with no line breaks comes through the backend's escaping as it is. */
  lemma EscapeFixed(c: string)
    requires '\r' !in c && '\n' !in c
    ensures S.Escape(c) == c
  {
    EscapeTransparent(c);
    MissingHead(c, "\n");
    ReplaceAbsent(c, "\n", "\\n");
  }

  /** A chunk that is exactly [DONE] ends the stream: it and everything after it are lost. */
  lemma DoneChunkEndsEarly(chunks: seq<string>, e: S.Ending)
    requires chunks != [] && chunks[0] == "[DONE]"
    ensures C.Decode(Items(Split(S.Body(chunks, e), IsLineFeed))) == [C.Complete(C.Success(""))]
  {
    var v := chunks[0];
    EscapeFixed(v);
    var line := "data:" + " " + v;
    assert "data: " + S.Escape(v) == line;
    S.SplitBody(chunks, e);
    var items := Items(S.Lines(chunks, e) + [""]);
    assert items[0] == C.Line(line);
    DoneLineStep(v, line, C.Start);
  }

  /** The client trims the white space a chunk begins with, so such a chunk is not carried unchanged. */
  lemma LeadingSpaceTrimmed(c: string, line: string)
    requires c != [] && IsSpace(c[0]) && '\r' !in c && '\n' !in c && !Contains(c, "data:")
    requires line == "data:" + " " + S.Escape(c)
    ensures C.Payload(line) != c
  {
    EscapeFixed(c);
    TagRemoved("data:", c, line);
    var r := C.Payload(line);
    assert r == [] || !IsSpace(r[0]);
  }
}
