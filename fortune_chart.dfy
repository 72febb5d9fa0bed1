/**
 * The text the fortune chart shows: the da-yun entries split over two lines, the two-column
 * lists, and the row cells with their placeholder.
 */
module FortuneChart {
  import opened Wrappers
  import opened Text

  /** The placeholder shown for anything missing. */
  const Dash := "—"

  /** `p` occurs in `s` at position `j`. */
  predicate MatchAt(s: string, p: string, j: nat) {
    j + |p| <= |s| && s[j..j + |p|] == p
  }

  /** The first position at or after `from` where `p` occurs in `s` (`range(of:)`). */
  function FindFrom(s: string, p: string, from: nat): (r: Option<nat>)
    requires p != []
    ensures r.Some? ==> from <= r.value && MatchAt(s, p, r.value)
    ensures r.Some? ==> forall j :: from <= j < r.value ==> !MatchAt(s, p, j)
    ensures r.None? ==> forall j :: from <= j ==> !MatchAt(s, p, j)
    decreases |s| - from
  {
    if from + |p| > |s| then None
    else if MatchAt(s, p, from) then Some(from)
    else FindFrom(s, p, from + 1)
  }

  /** The da-yun separator: a closing parenthesis and a space. */
  const Marker := ") "

  /**
   * `formatDaYunItem`: the dash stays as it is; otherwise, at the first ") ", the text up to and
   * including it and the text after it, each trimmed of spaces, on two lines when the second is
   * not empty; in every other case the item as it is.
   */
  function FormatDaYunItem(item: string): string {
    if item == Dash then item
    else
      match FindFrom(item, Marker, 0)
      case None => item
      case Some(i) =>
        var left := Trim(item[..i + 2]);
        var right := Trim(item[i + 2..]);
        if right != [] then left + "\n" + right else item
  }

  /** The dash is shown as it is. */
  lemma DashUnchanged()
    ensures FormatDaYunItem(Dash) == Dash
  {
  }

  /** An item without ") " is shown as it is. */
  lemma NoMarkerUnchanged(item: string)
    requires forall j: nat :: !MatchAt(item, Marker, j)
    ensures FormatDaYunItem(item) == item
  {
  }

  /** An item whose text after the first ") " is blank is shown as it is. */
  lemma BlankTailUnchanged(item: string, i: nat)
    requires MatchAt(item, Marker, i) && forall j: nat :: j < i ==> !MatchAt(item, Marker, j)
    requires Trim(item[i + 2..]) == []
    ensures FormatDaYunItem(item) == item
  {
    FirstMatch(item, i);
  }

  /**
   * An item other than the dash whose text after its first ") " is not blank is shown on two
   * lines: the trimmed head, which ends with the parenthesis, and the trimmed tail.
   */
  lemma DaYunSplit(item: string, i: nat)
    requires item != Dash
    requires MatchAt(item, Marker, i) && forall j: nat :: j < i ==> !MatchAt(item, Marker, j)
    requires Trim(item[i + 2..]) != []
    ensures var left := Trim(item[..i + 2]);
      && left != [] && left[|left| - 1] == ')'
      && FormatDaYunItem(item) == left + "\n" + Trim(item[i + 2..])
  {
    FirstMatch(item, i);
    HeadEndsParen(item, i);
  }

  /** The trimmed head of an item, up to a ") ", ends with the parenthesis. */
  lemma HeadEndsParen(item: string, i: nat)
    requires MatchAt(item, Marker, i)
    ensures var left := Trim(item[..i + 2]); left != [] && left[|left| - 1] == ')'
  {
    assert item[..i + 2] == item[..i] + [')', ' '];
    TrimBeforeSpace(item[..i], item[..i + 2], ')');
  }

  /** The changed items are exactly those of `DaYunSplit`. */
  lemma DaYunChanged(item: string)
    requires FormatDaYunItem(item) != item
    ensures item != Dash && FindFrom(item, Marker, 0).Some?
    ensures var i := FindFrom(item, Marker, 0).value; Trim(item[i + 2..]) != []
  {
  }

  /** The search from the start finds the first match. */
  lemma FirstMatch(item: string, i: nat)
    requires MatchAt(item, Marker, i) && forall j: nat :: j < i ==> !MatchAt(item, Marker, j)
    ensures FindFrom(item, Marker, 0) == Some(i)
  {
    assert MatchAt(item, Marker, i);
  }

  /** Trimming text that ends in a non-space and a space leaves text that ends with the non-space. */
  lemma TrimBeforeSpace(s: string, w: string, c: char)
    requires !IsSpace(c) && w == s + [c, ' ']
    ensures var t := Trim(w); t != [] && t[|t| - 1] == c
  {
    var left := TrimLeft(w, IsSpace);
    assert !IsSpace(w[|w| - 2]);
    assert |left| >= 2;
    assert left[|left| - 1] == ' ' && left[|left| - 2] == c;
    var t := TrimRight(left, IsSpace);
    assert t == Trim(w);
    assert |t| >= |left| - 1;
    assert |t| != |left|;
  }

  // ---------------------------------------------------------------------------------------------
  // Two-column lists

  /** `showItems`: the items, or a lone dash when there are none. */
  function Shown(items: seq<string>): (r: seq<string>)
    ensures r != [] && (items != [] ==> r == items)
  {
    if items == [] then [Dash] else items
  }

  /** The slice of `s` from `2k`, at most two long. */
  function PairAt<T>(s: seq<T>, k: nat): seq<T>
    requires 2 * k < |s|
  {
    s[2 * k..if 2 * k + 2 <= |s| then 2 * k + 2 else |s|]
  }

  /** `stride(from: 0, to: n, by: 2)` slices. */
  function Pairs<T>(s: seq<T>): seq<seq<T>> {
    seq((|s| + 1) / 2, k requires 0 <= k < (|s| + 1) / 2 => PairAt(s, k))
  }

  /** `rowColumnList`'s rows. */
  function ColumnRows(items: seq<string>): seq<seq<string>> {
    Pairs(Shown(items))
  }

  /** Read in order, the pairs are the sequence. */
  lemma {:induction false} PairsFlatten<T>(s: seq<T>)
    ensures Flatten(Pairs(s)) == s
    decreases |s|
  {
    if |s| > 2 {
      var n := if |s| % 2 == 1 then |s| - 1 else |s| - 2;
      PairsFlatten(s[..n]);
      PairsLast(s, n);
      assert s[..n] + s[n..] == s;
    } else if s != [] {
      PairsShort(s);
      assert Flatten([s]) == Flatten([]) + s;
    }
  }

  /** One or two elements make one pair. */
  lemma PairsShort<T>(s: seq<T>)
    requires 1 <= |s| <= 2
    ensures Pairs(s) == [s]
  {
    assert PairAt(s, 0) == s[0..|s|];
    assert s[0..|s|] == s;
  }

  /** Dropping the last pair leaves the pairs of what comes before it. */
  lemma PairsLast<T>(s: seq<T>, n: nat)
    requires n % 2 == 0 && 2 <= n < |s| <= n + 2
    ensures Flatten(Pairs(s)) == Flatten(Pairs(s[..n])) + s[n..]
  {
    var rows := Pairs(s);
    var prev := Pairs(s[..n]);
    assert |prev| == |rows| - 1;
    forall k | 0 <= k < |prev| ensures prev[k] == rows[k] {
      assert 2 * k + 2 <= n;
    }
    assert rows[..|rows| - 1] == prev;
  }

  /**
   * The rows read in order are the shown items; every row but the last holds two of them, the
   * last one or two; there are ⌈n/2⌉ rows, and at least one.
   */
  lemma ColumnRowsShape(items: seq<string>)
    ensures var rows := ColumnRows(items);
      && Flatten(rows) == Shown(items)
      && rows != []
      && (forall k :: 0 <= k < |rows| - 1 ==> |rows[k]| == 2)
      && 1 <= |rows[|rows| - 1]| <= 2
      && |rows| == (|Shown(items)| + 1) / 2
  {
    PairsFlatten(Shown(items));
  }

  /** No items show one row holding the dash alone. */
  lemma NoItemsShowDash()
    ensures ColumnRows([]) == [[Dash]]
  {
    PairsShort([Dash]);
  }

  /** The left cell of a row, or the dash. */
  function LeftCell(row: seq<string>): string {
    if row != [] then row[0] else Dash
  }

  /** The right cell of a row, or the dash when the row has only one item. */
  function RightCell(row: seq<string>): string {
    if |row| > 1 then row[1] else Dash
  }

  /**
   * Row k shows items 2k and 2k+1 of the shown items, the right cell falling back to the dash
   * exactly when there is no item 2k+1.
   */
  lemma ColumnCells(items: seq<string>, k: nat)
    requires k < |ColumnRows(items)|
    ensures var s, row := Shown(items), ColumnRows(items)[k];
      && LeftCell(row) == s[2 * k]
      && RightCell(row) == (if 2 * k + 1 < |s| then s[2 * k + 1] else Dash)
  {
  }

  // ---------------------------------------------------------------------------------------------
  // Row cells

  /** A pillar field shows the dash when it is empty. */
  function FieldText(field: string): string {
    if field == [] then Dash else field
  }

  /** A cell drawn in the placeholder colour. */
  predicate IsPlaceholder(cell: string) {
    cell == [] || cell == Dash
  }

  /** `rowLabel`: one cell per title, each the field text at that index, or the dash beyond them. */
  function RowCells(titles: seq<string>, fields: seq<string>): seq<string> {
    seq(|titles|, i requires 0 <= i < |titles| => if i < |fields| then FieldText(fields[i]) else Dash)
  }

  /**
   * There is a cell per title; none is empty; a cell is the placeholder exactly when its index has
   * no field or the field is empty or the dash itself, and otherwise it is that field.
   */
  lemma RowCellsMeaning(titles: seq<string>, fields: seq<string>)
    ensures var r := RowCells(titles, fields);
      && |r| == |titles|
      && (forall i :: 0 <= i < |r| ==> r[i] != [])
      && (forall i :: 0 <= i < |r| ==> (IsPlaceholder(r[i]) <==> i >= |fields| || IsPlaceholder(fields[i])))
      && (forall i :: 0 <= i < |r| && i < |fields| && !IsPlaceholder(fields[i]) ==> r[i] == fields[i])
  {
  }
}
