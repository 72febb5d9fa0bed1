/**
 * String helpers shared by the models: the whitespace classes Foundation and Python trim,
 * trimming, prefix and substring tests, replace-all, splitting, joining and decimal rendering.
 * Strings are sequences of Unicode scalar values (Dafny's `char`), which is what Swift's
 * `unicodeScalars` and Python's `str` index over.
 */
module Text {

  // ---------------------------------------------------------------------------------------------
  // Character classes

  /** Foundation's `CharacterSet.whitespaces`: space, tab and the Unicode space separators. */
  predicate IsSpace(c: char) {
    c == ' ' || c == '\t' || c == '\U{00A0}' || c == '\U{1680}' || ('\U{2000}' <= c <= '\U{200A}')
    || c == '\U{202F}' || c == '\U{205F}' || c == '\U{3000}'
  }

  /** Foundation's `CharacterSet.newlines`. */
  predicate IsNewline(c: char) {
    c == '\n' || c == '\r' || c == '\U{000B}' || c == '\U{000C}' || c == '\U{0085}'
    || c == '\U{2028}' || c == '\U{2029}'
  }

  /** Foundation's `.whitespacesAndNewlines`. */
  predicate IsWhite(c: char) {
    IsSpace(c) || IsNewline(c)
  }

  /** What Python's argument-less `str.strip()` removes: the above plus the separators U+001C-U+001F. */
  predicate IsPyWhite(c: char) {
    IsWhite(c) || ('\U{001C}' <= c <= '\U{001F}')
  }

  predicate IsLineFeed(c: char) {
    c == '\n'
  }

  // ---------------------------------------------------------------------------------------------
  // Trimming

  /** Drops the leading characters satisfying `ws`. */
  function TrimLeft(s: string, ws: char -> bool): (r: string)
    ensures |r| <= |s| && r == s[|s| - |r|..]
    ensures forall i :: 0 <= i < |s| - |r| ==> ws(s[i])
    ensures r != [] ==> !ws(r[0])
  {
    if s != [] && ws(s[0]) then TrimLeft(s[1..], ws) else s
  }

  /** Drops the trailing characters satisfying `ws`. */
  function TrimRight(s: string, ws: char -> bool): (r: string)
    ensures |r| <= |s| && r == s[..|r|]
    ensures forall i :: |r| <= i < |s| ==> ws(s[i])
    ensures r != [] ==> !ws(r[|r| - 1])
  {
    if s != [] && ws(s[|s| - 1]) then TrimRight(s[..|s| - 1], ws) else s
  }

  /** `trimmingCharacters(in:)`: both ends. */
  function TrimBy(s: string, ws: char -> bool): (r: string)
    ensures |r| <= |s|
    ensures r != [] ==> !ws(r[0]) && !ws(r[|r| - 1])
    ensures r == [] <==> forall i :: 0 <= i < |s| ==> ws(s[i])
  {
    var left := TrimLeft(s, ws);
    assert left != [] ==> left[0] == s[|s| - |left|];
    TrimRight(left, ws)
  }

  /** Swift `trimmingCharacters(in: .whitespaces)`. */
  function Trim(s: string): string {
    TrimBy(s, IsSpace)
  }

  /** Python's `str.strip()`. */
  function PyStrip(s: string): string {
    TrimBy(s, IsPyWhite)
  }

  /** Swift `trimmingCharacters(in: .whitespacesAndNewlines)`. */
  function TrimWhite(s: string): string {
    TrimBy(s, IsWhite)
  }

  /** Nothing but whitespace and newlines. */
  predicate AllWhite(s: string) {
    forall i :: 0 <= i < |s| ==> IsWhite(s[i])
  }

  /** A trimmed string is empty exactly when the string is all whitespace. */
  lemma TrimWhiteEmpty(s: string)
    ensures TrimWhite(s) == [] <==> AllWhite(s)
    ensures |TrimWhite(s)| <= |s|
  {
  }

  /** A trim starts with the first character outside the class. */
  lemma TrimByHead(s: string, ws: char -> bool)
    requires TrimBy(s, ws) != []
    ensures exists k ::
      && 0 <= k < |s| && TrimBy(s, ws)[0] == s[k] && !ws(s[k])
      && forall j :: 0 <= j < k ==> ws(s[j])
  {
    var left := TrimLeft(s, ws);
    var k := |s| - |left|;
    assert TrimBy(s, ws) == TrimRight(left, ws);
    assert TrimBy(s, ws)[0] == left[0] == s[k];
  }

  /** A string without the trimmed class at either end is its own trim. */
  lemma TrimByFixed(s: string, ws: char -> bool)
    requires s != [] ==> !ws(s[0]) && !ws(s[|s| - 1])
    ensures TrimBy(s, ws) == s
  {
  }

  /** Trimming twice is trimming once. */
  lemma TrimByIdempotent(s: string, ws: char -> bool)
    ensures TrimBy(TrimBy(s, ws), ws) == TrimBy(s, ws)
  {
    TrimByFixed(TrimBy(s, ws), ws);
  }

  /** Leading characters of the trimmed class never survive a trim. */
  lemma {:induction false} TrimLeftPrefix(w: string, s: string, ws: char -> bool)
    requires forall i :: 0 <= i < |w| ==> ws(w[i])
    ensures TrimLeft(w + s, ws) == TrimLeft(s, ws)
  {
    if w != [] {
      assert (w + s)[1..] == w[1..] + s;
      TrimLeftPrefix(w[1..], s, ws);
    } else {
      assert w + s == s;
    }
  }

  /** Empty, or starting and ending with a character `strip()` keeps. */
  predicate Stripped(s: string) {
    s != [] ==> !IsPyWhite(s[0]) && !IsPyWhite(s[|s| - 1])
  }

  lemma PyStripStripped(s: string)
    ensures Stripped(PyStrip(s)) && |PyStrip(s)| <= |s|
  {
  }

  /** A string that starts and ends with a kept character is its own `strip()`. */
  lemma PyStripFixed(s: string)
    requires Stripped(s)
    ensures PyStrip(s) == s
  {
    TrimByFixed(s, IsPyWhite);
  }

  lemma {:induction false} TrimByPrefix(w: string, s: string, ws: char -> bool)
    requires forall i :: 0 <= i < |w| ==> ws(w[i])
    ensures TrimBy(w + s, ws) == TrimBy(s, ws)
  {
    TrimLeftPrefix(w, s, ws);
  }

  // ---------------------------------------------------------------------------------------------
  // Prefixes, substrings, replacement

  predicate StartsWith(s: string, p: string) {
    |p| <= |s| && s[..|p|] == p
  }

  /** Python's `sub in s`, Swift's `contains`. */
  predicate Contains(s: string, p: string)
    decreases |s|
  {
    StartsWith(s, p) || (s != [] && Contains(s[1..], p))
  }

  /** An occurrence at a position means the pattern is contained. */
  lemma {:induction false} OccursContains(s: string, p: string, i: nat)
    requires i <= |s| - |p| && StartsWith(s[i..], p)
    ensures Contains(s, p)
    decreases i
  {
    if i == 0 {
      assert s[0..] == s;
    } else {
      assert s[1..][i - 1..] == s[i..];
      OccursContains(s[1..], p, i - 1);
    }
  }

  /** A contained pattern occurs at some position. */
  lemma {:induction false} ContainsOccurs(s: string, p: string)
    requires Contains(s, p)
    ensures exists i :: 0 <= i <= |s| - |p| && StartsWith(s[i..], p)
    decreases |s|
  {
    if StartsWith(s, p) {
      assert s[0..] == s;
    } else {
      ContainsOccurs(s[1..], p);
      var i :| 0 <= i <= |s[1..]| - |p| && StartsWith(s[1..][i..], p);
      assert s[1..][i..] == s[i + 1..];
    }
  }

  /** A pattern contained in a string is contained in any extension of it. */
  lemma ContainsLeft(a: string, b: string, p: string)
    requires Contains(a, p)
    ensures Contains(a + b, p)
  {
    ContainsOccurs(a, p);
    var i :| 0 <= i <= |a| - |p| && StartsWith(a[i..], p);
    assert (a + b)[i..][..|p|] == a[i..][..|p|];
    OccursContains(a + b, p, i);
  }

  /** A pattern contained in a string is contained in anything that ends with it. */
  lemma ContainsRight(a: string, b: string, p: string)
    requires Contains(b, p)
    ensures Contains(a + b, p)
  {
    ContainsOccurs(b, p);
    var i :| 0 <= i <= |b| - |p| && StartsWith(b[i..], p);
    assert (a + b)[|a| + i..] == b[i..];
    OccursContains(a + b, p, |a| + i);
  }

  /** A contained non-empty pattern's first character occurs in the string. */
  lemma ContainsChar(s: string, p: string)
    requires p != [] && Contains(s, p)
    ensures p[0] in s
  {
    ContainsOccurs(s, p);
    var i :| 0 <= i <= |s| - |p| && StartsWith(s[i..], p);
    assert s[i..][..|p|][0] == s[i];
  }

  /** A pattern whose first character does not occur is not contained. */
  lemma {:induction false} MissingHead(s: string, p: string)
    requires p != [] && p[0] !in s
    ensures !Contains(s, p)
    decreases |s|
  {
    if s != [] {
      if |p| <= |s| {
        assert s[..|p|][0] == s[0];
      }
      assert forall x :: x in s[1..] ==> x in s;
      MissingHead(s[1..], p);
    }
  }

  /** A pattern longer than the string is not contained. */
  lemma {:induction false} TooLong(s: string, p: string)
    requires |p| > |s|
    ensures !Contains(s, p)
    decreases |s|
  {
    if s != [] {
      TooLong(s[1..], p);
    }
  }

  /** `replacingOccurrences(of:with:)` / Python `str.replace`: left-to-right, non-overlapping. */
  function ReplaceAll(s: string, pat: string, rep: string): string
    requires pat != []
    decreases |s|
  {
    if s == [] then []
    else if StartsWith(s, pat) then rep + ReplaceAll(s[|pat|..], pat, rep)
    else [s[0]] + ReplaceAll(s[1..], pat, rep)
  }

  /** Replacing a pattern that does not occur changes nothing. */
  lemma {:induction false} ReplaceAbsent(s: string, pat: string, rep: string)
    requires pat != [] && !Contains(s, pat)
    ensures ReplaceAll(s, pat, rep) == s
    decreases |s|
  {
    if s != [] {
      ReplaceAbsent(s[1..], pat, rep);
    }
  }

  /** Replacement distributes over a split point no occurrence straddles. */
  lemma {:induction false} ReplaceAppendSingle(c: char, s: string, pat: string, rep: string)
    requires pat != [] && !StartsWith([c] + s, pat)
    ensures ReplaceAll([c] + s, pat, rep) == [c] + ReplaceAll(s, pat, rep)
  {
    assert ([c] + s)[1..] == s;
  }

  /** Replacement introduces no character that neither the string nor the replacement holds. */
  lemma {:induction false} ReplaceKeepsOut(s: string, pat: string, rep: string, x: char)
    requires pat != [] && x !in s && x !in rep
    ensures x !in ReplaceAll(s, pat, rep)
    decreases |s|
  {
    if s != [] {
      if StartsWith(s, pat) {
        ReplaceKeepsOut(s[|pat|..], pat, rep, x);
      } else {
        ReplaceKeepsOut(s[1..], pat, rep, x);
      }
    }
  }

  /** Replacing a one-character pattern by text without it leaves no occurrence of that character. */
  lemma {:induction false} ReplaceAvoids(s: string, x: char, rep: string)
    requires x !in rep
    ensures x !in ReplaceAll(s, [x], rep)
    decreases |s|
  {
    if s != [] {
      ReplaceAvoids(s[1..], x, rep);
      if !StartsWith(s, [x]) {
        assert s[..1] == [s[0]];
      }
    }
  }

  /** Replacement of every occurrence by nothing. */
  function RemoveAll(s: string, pat: string): string
    requires pat != []
  {
    ReplaceAll(s, pat, "")
  }

  // ---------------------------------------------------------------------------------------------
  // Splitting and joining

  /** `components(separatedBy:)`: keeps empty pieces, always at least one piece. */
  function Split(s: string, isSep: char -> bool): (r: seq<string>)
    ensures |r| >= 1
    ensures forall k :: 0 <= k < |r| ==> forall i :: 0 <= i < |r[k]| ==> !isSep(r[k][i])
    decreases |s|
  {
    if s == [] then [""]
    else
      var rest := Split(s[1..], isSep);
      if isSep(s[0]) then [""] + rest else [[s[0]] + rest[0]] + rest[1..]
  }

  /** `joined(separator:)`. */
  function Join(parts: seq<string>, sep: string): string
    decreases |parts|
  {
    if parts == [] then ""
    else if |parts| == 1 then parts[0]
    else parts[0] + sep + Join(parts[1..], sep)
  }

  /** Joining pieces whose first one is empty starts with the separator. */
  lemma JoinEmptyHead(rest: seq<string>, sep: string)
    requires |rest| >= 1
    ensures Join([""] + rest, sep) == sep + Join(rest, sep)
  {
    assert ([""] + rest)[1..] == rest;
  }

  /** Splitting a string that starts with a separator opens an empty first piece. */
  lemma SplitSep(c0: char, t: string, isSep: char -> bool)
    requires isSep(c0)
    ensures Split([c0] + t, isSep) == [""] + Split(t, isSep)
  {
    assert ([c0] + t)[1..] == t;
  }

  /** Joining the pieces of a split on a single character restores the string. */
  lemma {:induction false} JoinSplit(s: string, c: char, isSep: char -> bool)
    requires forall x :: isSep(x) <==> x == c
    ensures Join(Split(s, isSep), [c]) == s
    decreases |s|
  {
    if s != [] {
      var t := s[1..];
      var rest := Split(t, isSep);
      JoinSplit(t, c, isSep);
      assert s == [s[0]] + t;
      if isSep(s[0]) {
        SplitSep(s[0], t, isSep);
        JoinEmptyHead(rest, [c]);
      } else {
        SplitCons(s[0], t, isSep);
        var parts := [[s[0]] + rest[0]] + rest[1..];
        JoinHead(parts, [c]);
        assert [parts[0][1..]] + parts[1..] == rest;
      }
    }
  }

  /** Joining pieces whose first one is non-empty starts with its first character. */
  lemma JoinHead(parts: seq<string>, sep: string)
    requires |parts| >= 1 && parts[0] != []
    ensures Join(parts, sep) == [parts[0][0]] + Join([parts[0][1..]] + parts[1..], sep)
  {
    var p := parts[0];
    var parts' := [p[1..]] + parts[1..];
    if |parts| == 1 {
      assert p == [p[0]] + p[1..];
    } else {
      assert parts'[1..] == parts[1..];
      assert p + sep + Join(parts[1..], sep) == [p[0]] + (p[1..] + sep + Join(parts[1..], sep));
    }
  }

  /** Splitting a string that starts with a non-separator extends the first piece. */
  lemma SplitCons(c0: char, t: string, isSep: char -> bool)
    requires !isSep(c0)
    ensures Split([c0] + t, isSep) == [[c0] + Split(t, isSep)[0]] + Split(t, isSep)[1..]
  {
    assert ([c0] + t)[1..] == t;
  }

  /** No piece contains the character c. */
  predicate Free(parts: seq<string>, c: char) {
    forall k :: 0 <= k < |parts| ==> forall i :: 0 <= i < |parts[k]| ==> parts[k][i] != c
  }

  /** No piece contains a separator. */
  predicate Avoids(parts: seq<string>, isSep: char -> bool) {
    forall k :: 0 <= k < |parts| ==> forall i :: 0 <= i < |parts[k]| ==> !isSep(parts[k][i])
  }

  lemma AvoidsShift(parts: seq<string>, isSep: char -> bool)
    requires Avoids(parts, isSep) && |parts| >= 1 && parts[0] != []
    ensures Avoids([parts[0][1..]] + parts[1..], isSep)
  {
    var parts' := [parts[0][1..]] + parts[1..];
    forall k | 0 <= k < |parts'| ensures forall i :: 0 <= i < |parts'[k]| ==> !isSep(parts'[k][i]) {
      if k > 0 {
        assert parts'[k] == parts[k];
      }
    }
  }

  lemma AvoidsTail(parts: seq<string>, isSep: char -> bool)
    requires Avoids(parts, isSep) && |parts| >= 1
    ensures Avoids(parts[1..], isSep)
  {
    forall k | 0 <= k < |parts[1..]| ensures forall i :: 0 <= i < |parts[1..][k]| ==> !isSep(parts[1..][k][i]) {
      assert parts[1..][k] == parts[k + 1];
    }
  }

  /** Splitting a join on a separator, when no piece holds a separator, gives the pieces back. */
  lemma {:induction false} SplitJoin(parts: seq<string>, c: char, isSep: char -> bool)
    requires isSep(c)
    requires |parts| >= 1 && Avoids(parts, isSep)
    ensures Split(Join(parts, [c]), isSep) == parts
    decreases |parts|, |parts[0]|
  {
    var p := parts[0];
    if p == [] {
      if |parts| > 1 {
        var tail := parts[1..];
        AvoidsTail(parts, isSep);
        SplitJoin(tail, c, isSep);
        JoinEmptyHead(tail, [c]);
        SplitSep(c, Join(tail, [c]), isSep);
        assert parts == [""] + tail;
      }
    } else {
      var parts' := [p[1..]] + parts[1..];
      AvoidsShift(parts, isSep);
      SplitJoin(parts', c, isSep);
      JoinHead(parts, [c]);
      assert !isSep(p[0]);
      SplitCons(p[0], Join(parts', [c]), isSep);
      assert [p[0]] + p[1..] == p;
      assert parts == [p] + parts[1..];
    }
  }

  /** Swift `split(whereSeparator:)`: the non-empty pieces only. */
  function Pieces(s: string, isSep: char -> bool): (r: seq<string>)
    ensures forall k :: 0 <= k < |r| ==> r[k] != [] && forall i :: 0 <= i < |r[k]| ==> !isSep(r[k][i])
  {
    NonEmpty(Split(s, isSep))
  }

  function NonEmpty(ps: seq<string>): (r: seq<string>)
    ensures forall k :: 0 <= k < |r| ==> r[k] != [] && r[k] in ps
    ensures |r| <= |ps|
  {
    if ps == [] then []
    else if ps[0] == [] then NonEmpty(ps[1..])
    else [ps[0]] + NonEmpty(ps[1..])
  }

  /** Concatenation of a sequence of strings. */
  function Concat(ss: seq<string>): string
  {
    if ss == [] then "" else ss[0] + Concat(ss[1..])
  }

  /** Rows laid end to end (`joined()` on an array of arrays). */
  function Flatten<T>(rows: seq<seq<T>>): seq<T> {
    if rows == [] then [] else Flatten(rows[..|rows| - 1]) + rows[|rows| - 1]
  }

  /** Leaving out the empty strings does not change a concatenation. */
  lemma {:induction false} ConcatNonEmpty(ps: seq<string>)
    ensures Concat(NonEmpty(ps)) == Concat(ps)
  {
    if ps != [] {
      ConcatNonEmpty(ps[1..]);
    }
  }

  lemma Concat3(a: string, b: string, c: string)
    ensures Concat([a, b, c]) == a + b + c
  {
    assert [a, b, c][1..] == [b, c] && [b, c][1..] == [c] && [c][1..] == [];
    assert Concat([c]) == c + Concat([]);
    assert Concat([b, c]) == b + Concat([c]);
  }

  lemma {:induction false} ConcatAppend(ss: seq<string>, t: string)
    ensures Concat(ss + [t]) == Concat(ss) + t
  {
    if ss != [] {
      assert (ss + [t])[1..] == ss[1..] + [t];
      ConcatAppend(ss[1..], t);
    }
  }

  lemma {:induction false} ConcatJoin(a: seq<string>, b: seq<string>)
    ensures Concat(a + b) == Concat(a) + Concat(b)
  {
    if a != [] {
      assert (a + b)[1..] == a[1..] + b;
      ConcatJoin(a[1..], b);
    } else {
      assert a + b == b;
    }
  }

  // ---------------------------------------------------------------------------------------------
  // Decimal rendering

  function DigitChar(d: nat): char
    requires d < 10
  {
    ['0', '1', '2', '3', '4', '5', '6', '7', '8', '9'][d]
  }

  /** Decimal digits of a natural number, without leading zeros ("0" for zero). */
  function NatDigits(n: nat): (r: string)
    ensures 1 <= |r|
    ensures forall i :: 0 <= i < |r| ==> '0' <= r[i] <= '9'
  {
    if n < 10 then [DigitChar(n)] else NatDigits(n / 10) + [DigitChar(n % 10)]
  }

  /** Swift's `"\(n)"` for an `Int`. */
  function IntToString(n: int): string {
    if n < 0 then "-" + NatDigits(-n) else NatDigits(n)
  }

  /** The decimal text of an integer is not empty and holds only digits and a leading minus. */
  lemma IntToStringShape(n: int)
    ensures var r := IntToString(n);
      && r != []
      && (r[0] == '-' || '0' <= r[0] <= '9')
      && forall i :: 1 <= i < |r| ==> '0' <= r[i] <= '9'
  {
  }

  /** Distinct natural numbers have distinct digits. */
  lemma NatDigitsInjective(a: nat, b: nat)
    requires NatDigits(a) == NatDigits(b)
    ensures a == b
  {
    NatDigitsValue(a);
    NatDigitsValue(b);
  }

  /** Distinct integers have distinct decimal texts. */
  lemma IntToStringInjective(a: int, b: int)
    requires IntToString(a) == IntToString(b)
    ensures a == b
  {
    var s := IntToString(a);
    assert a < 0 <==> s[0] == '-';
    assert b < 0 <==> IntToString(b)[0] == '-';
    if a < 0 {
      assert NatDigits(-a) == s[1..];
      assert NatDigits(-b) == s[1..];
      NatDigitsInjective(-a, -b);
    } else {
      NatDigitsInjective(a, b);
    }
  }

  function Zeros(k: nat): (r: string)
    ensures |r| == k && forall i :: 0 <= i < k ==> r[i] == '0'
  {
    if k == 0 then "" else "0" + Zeros(k - 1)
  }

  /** `String(format: "%0<w>d", n)`: zero-padded to width w (the sign counts towards w). */
  function ZeroPad(n: int, w: nat): string {
    var digits := NatDigits(if n < 0 then -n else n);
    var sign := if n < 0 then "-" else "";
    var width := |sign| + |digits|;
    sign + (if width < w then Zeros(w - width) else "") + digits
  }

  /** Value of a string of decimal digits. */
  function DigitsValue(s: string): nat
    requires forall i :: 0 <= i < |s| ==> '0' <= s[i] <= '9'
  {
    if s == [] then 0 else DigitsValue(s[..|s| - 1]) * 10 + (s[|s| - 1] as int - '0' as int)
  }

  lemma DigitCharValue(d: nat)
    requires d < 10
    ensures DigitChar(d) as int - '0' as int == d
  {
  }

  /** Number of decimal digits of n. */
  function DigitCount(n: nat): nat {
    if n < 10 then 1 else 1 + DigitCount(n / 10)
  }

  function Pow10(k: nat): nat {
    if k == 0 then 1 else 10 * Pow10(k - 1)
  }

  lemma {:induction false} NatDigitsCount(n: nat)
    ensures |NatDigits(n)| == DigitCount(n)
  {
    if n >= 10 {
      NatDigitsCount(n / 10);
    }
  }

  /** A number below 10^w has at most w digits. */
  lemma {:induction false} DigitCountBound(n: nat, w: nat)
    requires 1 <= w && n < Pow10(w)
    ensures DigitCount(n) <= w
  {
    if n >= 10 {
      assert Pow10(1) == 10;
      assert n / 10 < Pow10(w - 1);
      DigitCountBound(n / 10, w - 1);
    }
  }

  /** Reading the digits of a number back gives the number. */
  lemma {:induction false} NatDigitsValue(n: nat)
    ensures DigitsValue(NatDigits(n)) == n
  {
    var r := NatDigits(n);
    if n < 10 {
      DigitCharValue(n);
      assert r[..0] == [];
    } else {
      NatDigitsValue(n / 10);
      DigitCharValue(n % 10);
      assert r[..|r| - 1] == NatDigits(n / 10);
    }
  }

  /** Leading zeros do not change the value. */
  lemma {:induction false} ZerosValue(k: nat, s: string)
    requires forall i :: 0 <= i < |s| ==> '0' <= s[i] <= '9'
    ensures forall i :: 0 <= i < |Zeros(k) + s| ==> '0' <= (Zeros(k) + s)[i] <= '9'
    ensures DigitsValue(Zeros(k) + s) == DigitsValue(s)
    decreases |s| + k
  {
    var t := Zeros(k) + s;
    if s != [] {
      ZerosValue(k, s[..|s| - 1]);
      assert t[..|t| - 1] == Zeros(k) + s[..|s| - 1];
    } else if k > 0 {
      ZerosValue(k - 1, s);
      assert t[..|t| - 1] == Zeros(k - 1) + s;
    }
  }

  /** `%0<w>d` of a natural number below 10^w: exactly w digits that read back as the number. */
  lemma ZeroPadNat(n: nat, w: nat)
    requires 1 <= w && n < Pow10(w)
    ensures |ZeroPad(n, w)| == w
    ensures forall i :: 0 <= i < w ==> '0' <= ZeroPad(n, w)[i] <= '9'
    ensures DigitsValue(ZeroPad(n, w)) == n
  {
    var d := NatDigits(n);
    NatDigitsCount(n);
    DigitCountBound(n, w);
    NatDigitsValue(n);
    var z := Zeros(w - |d|);
    assert ZeroPad(n, w) == z + d by {
      assert ZeroPad(n, w) == "" + (if |d| < w then z else "") + d;
      assert |d| == w ==> z == "";
    }
    ZerosValue(w - |d|, d);
  }

  // ---------------------------------------------------------------------------------------------
  // Scalar sums

  /** The sum of the Unicode scalar values (`unicodeScalars.map { Int($0.value) }.reduce(0, +)`). */
  function ScalarSum(s: string): nat {
    if s == [] then 0 else ScalarSum(s[..|s| - 1]) + s[|s| - 1] as nat
  }

  lemma {:induction false} ScalarSumConcat(a: string, b: string)
    ensures ScalarSum(a + b) == ScalarSum(a) + ScalarSum(b)
  {
    if b == [] {
      assert a + b == a;
    } else {
      assert (a + b)[..|a + b| - 1] == a + b[..|b| - 1];
      ScalarSumConcat(a, b[..|b| - 1]);
    }
  }

  lemma ScalarSumSingle(c: char)
    ensures ScalarSum([c]) == c as nat
  {
    assert [c][..0] == [];
  }

  /** Taking one scalar out of a string takes its value out of the sum. */
  lemma ScalarSumRemove(b: string, j: nat)
    requires j < |b|
    ensures ScalarSum(b) == ScalarSum(b[..j] + b[j + 1..]) + b[j] as nat
  {
    var pre, x, post := b[..j], [b[j]], b[j + 1..];
    assert b == (pre + x) + post;
    ScalarSumConcat(pre + x, post);
    ScalarSumConcat(pre, x);
    ScalarSumConcat(pre, post);
    ScalarSumSingle(b[j]);
  }

  /** Taking one element out of a sequence takes one occurrence out of its multiset. */
  lemma MultisetRemove<T>(b: seq<T>, j: nat)
    requires j < |b|
    ensures multiset(b[..j] + b[j + 1..]) == multiset(b) - multiset{b[j]}
  {
    assert b == b[..j] + [b[j]] + b[j + 1..];
  }

  /** The sum depends only on the multiset of scalars. */
  lemma {:induction false} ScalarSumPermutation(a: string, b: string)
    requires multiset(a) == multiset(b)
    ensures ScalarSum(a) == ScalarSum(b)
    decreases |a|
  {
    if a == [] {
      assert |b| == |multiset(b)|;
    } else {
      var last := |a| - 1;
      var x := a[last];
      assert x in multiset(b) by {
        assert x in multiset(a);
      }
      var j :| 0 <= j < |b| && b[j] == x;
      MultisetRemove(a, last);
      MultisetRemove(b, j);
      assert a[..last] + a[last + 1..] == a[..last];
      ScalarSumPermutation(a[..last], b[..j] + b[j + 1..]);
      ScalarSumRemove(b, j);
    }
  }
}
