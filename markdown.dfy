/**
 * The heading clean-up the chat bubble applies before rendering markdown: a line whose trimmed
 * text opens with hashes glued to a word gets one space after the hashes.
 */
module Markdown {
  import opened Text

  /** The number of '#' characters `s` opens with (`prefix { $0 == "#" }`). */
  function LeadingHashes(s: string): (n: nat)
    ensures n <= |s|
    ensures forall i :: 0 <= i < n ==> s[i] == '#'
    ensures n < |s| ==> s[n] != '#'
  {
    if s != [] && s[0] == '#' then 1 + LeadingHashes(s[1..]) else 0
  }

  /** The run of hashes is determined by where the first other character sits. */
  lemma {:induction false} LeadingHashesAt(s: string, n: nat)
    requires n <= |s| && (forall i :: 0 <= i < n ==> s[i] == '#') && (n < |s| ==> s[n] != '#')
    ensures LeadingHashes(s) == n
  {
    if n > 0 {
      LeadingHashesAt(s[1..], n - 1);
    }
  }

  /**
   * A trimmed line that opens with hashes directly followed by something other than a space:
   * the only kind of line the clean-up changes.
   */
  predicate Glued(t: string) {
    t != [] && t[0] == '#' && LeadingHashes(t) < |t| && t[LeadingHashes(t)] != ' '
  }

  /** The hashes, one space, then the rest. */
  function Spaced(t: string): string
    requires Glued(t)
  {
    t[..LeadingHashes(t)] + [' '] + t[LeadingHashes(t)..]
  }

  /** One line of `preprocessedMarkdown`. */
  function NormalizeLine(line: string): string {
    if Glued(Trim(line)) then Spaced(Trim(line)) else line
  }

  /** `preprocessedMarkdown`: split on line feeds, normalise each line, join with line feeds. */
  function Preprocess(text: string): string {
    Join(NormalizeAll(Split(text, IsLineFeed)), "\n")
  }

  function NormalizeAll(lines: seq<string>): seq<string> {
    seq(|lines|, k requires 0 <= k < |lines| => NormalizeLine(lines[k]))
  }

  /**
   * What a line becomes: unchanged unless its trimmed text opens with '#' and, after the run of
   * hashes, has more text that does not start with a space; then the hashes, one space and that
   * text, so the line's leading and trailing white space is gone.
   */
  lemma NormalizeLineCases(line: string)
    ensures var t := Trim(line);
      var n := LeadingHashes(t);
      && (!(t != [] && t[0] == '#') ==> NormalizeLine(line) == line)
      && (t != [] && t[0] == '#' && (n == |t| || t[n] == ' ') ==> NormalizeLine(line) == line)
      && (t != [] && t[0] == '#' && n < |t| && t[n] != ' ' ==>
            NormalizeLine(line) == t[..n] + " " + t[n..] && NormalizeLine(line)[0] == '#')
  {
  }

  /** The trimmed text is a piece of the line. */
  lemma TrimContained(line: string)
    ensures forall x :: x in Trim(line) ==> x in line
  {
    var left := TrimLeft(line, IsSpace);
    var t := TrimRight(left, IsSpace);
    assert t == Trim(line);
    forall x | x in t ensures x in line {
      var i :| 0 <= i < |t| && t[i] == x;
      assert t[i] == left[i];
      assert left[i] == line[|line| - |left| + i];
    }
  }

  /** Normalising adds only a space, so a line without line feeds keeps none. */
  lemma NormalizeKeepsOut(line: string, c: char)
    requires c != ' ' && c !in line
    ensures c !in NormalizeLine(line)
  {
    TrimContained(line);
    var t := Trim(line);
    if Glued(t) {
      SpacedKeepsOut(t, c);
    }
  }

  lemma SpacedKeepsOut(t: string, c: char)
    requires Glued(t) && c != ' ' && c !in t
    ensures c !in Spaced(t)
  {
    var n := LeadingHashes(t);
    assert forall x :: x in t[..n] ==> x in t;
    assert forall x :: x in t[n..] ==> x in t;
  }

  /** A spaced heading is trimmed already and not glued. */
  lemma SpacedSettled(t: string)
    requires Glued(t) && Trim(t) == t
    ensures Trim(Spaced(t)) == Spaced(t) && !Glued(Spaced(t))
  {
    var n := LeadingHashes(t);
    var out := Spaced(t);
    assert t != [] ==> !IsSpace(t[|t| - 1]);
    assert out[|out| - 1] == t[|t| - 1];
    TrimByFixed(out, IsSpace);
    LeadingHashesAt(out, n);
  }

  /** A normalised line is left alone by a second pass. */
  lemma NormalizeLineIdempotent(line: string)
    ensures NormalizeLine(NormalizeLine(line)) == NormalizeLine(line)
  {
    var t := Trim(line);
    if Glued(t) {
      TrimByIdempotent(line, IsSpace);
      SpacedSettled(t);
    }
  }

  /** Splitting the result gives back one normalised line per original line. */
  lemma PreprocessLines(text: string)
    ensures Split(Preprocess(text), IsLineFeed) == NormalizeAll(Split(text, IsLineFeed))
  {
    var lines := Split(text, IsLineFeed);
    var out := NormalizeAll(lines);
    forall k | 0 <= k < |out| ensures '\n' !in out[k] {
      assert forall i :: 0 <= i < |lines[k]| ==> !IsLineFeed(lines[k][i]);
      NormalizeKeepsOut(lines[k], '\n');
    }
    assert Avoids(out, IsLineFeed);
    SplitJoin(out, '\n', IsLineFeed);
  }

  /** The number of lines is kept. */
  lemma PreprocessLineCount(text: string)
    ensures |Split(Preprocess(text), IsLineFeed)| == |Split(text, IsLineFeed)|
  {
    PreprocessLines(text);
  }

  /** A line whose trimmed text does not open with '#' comes out unchanged. */
  lemma PreprocessKeepsPlainLines(text: string, lines: seq<string>, k: nat)
    requires lines == Split(text, IsLineFeed) && k < |lines|
    requires var t := Trim(lines[k]); !(t != [] && t[0] == '#')
    ensures |Split(Preprocess(text), IsLineFeed)| == |lines| && Split(Preprocess(text), IsLineFeed)[k] == lines[k]
  {
    PreprocessLines(text);
  }

  /** Normalising every line twice is normalising them once. */
  lemma NormalizeAllIdempotent(lines: seq<string>)
    ensures NormalizeAll(NormalizeAll(lines)) == NormalizeAll(lines)
  {
    var out := NormalizeAll(lines);
    var twice := NormalizeAll(out);
    forall k | 0 <= k < |out| ensures twice[k] == out[k] {
      NormalizeLineIdempotent(lines[k]);
    }
  }

  /** Preprocessing twice is preprocessing once. */
  lemma PreprocessIdempotent(text: string)
    ensures Preprocess(Preprocess(text)) == Preprocess(text)
  {
    var out := NormalizeAll(Split(text, IsLineFeed));
    PreprocessLines(text);
    NormalizeAllIdempotent(Split(text, IsLineFeed));
    assert Preprocess(Preprocess(text)) == Join(NormalizeAll(out), "\n");
  }
}
