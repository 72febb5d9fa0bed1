/** The tag rows of the draw result's flow layout. */
module DrawResult {
  import opened Text

  /**
   * `FlowTagsView.chunks`: the tags in rows of three, the last row holding what is left. Read in
   * order the rows are the tags; every row but the last has three tags, the last one to three;
   * there are ⌈n/3⌉ rows, so no tags give no rows.
   */
  method Chunks<T>(tags: seq<T>) returns (rows: seq<seq<T>>)
    ensures Flatten(rows) == tags
    ensures forall k :: 0 <= k < |rows| - 1 ==> |rows[k]| == 3
    ensures rows != [] ==> 1 <= |rows[|rows| - 1]| <= 3
    ensures |rows| == (|tags| + 2) / 3
  {
    rows := [];
    var current: seq<T> := [];
    for i := 0 to |tags|
      invariant Flatten(rows) + current == tags[..i]
      invariant forall k :: 0 <= k < |rows| ==> |rows[k]| == 3
      invariant |current| == i % 3 && |rows| == i / 3
    {
      current := current + [tags[i]];
      if |current| == 3 {
        assert Flatten(rows + [current]) == Flatten(rows) + current;
        rows := rows + [current];
        current := [];
      }
    }
    assert tags[..|tags|] == tags;
    if current != [] {
      assert Flatten(rows + [current]) == Flatten(rows) + current;
      rows := rows + [current];
    }
  }
}
