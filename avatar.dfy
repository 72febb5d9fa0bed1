/**
 * The round avatar drawn for a profile: one letter of the name on a colour from a fixed palette
 * of six, the colour picked by the sum of the name's Unicode scalar values.
 */
module Avatar {
  import opened Text

  datatype Colour = Purple | Blue | Pink | Orange | Green | Teal | Gray

  const Palette: seq<Colour> := [Purple, Blue, Pink, Orange, Green, Teal]

  const Placeholder := "档"

  /**
   * `avatarText`: the first character of the trimmed name, or 档 for a blank name. Swift takes the
   * first grapheme cluster; the model takes the first scalar.
   */
  function AvatarText(name: string): string {
    var trimmed := TrimWhite(name);
    if trimmed == [] then Placeholder else trimmed[..1]
  }

  /** `abs(sum) % palette.count` into the palette (the gray branch is for an empty palette). */
  function PaletteIndex(name: string): (i: nat)
    ensures i < |Palette|
  {
    ScalarSum(name) % |Palette|
  }

  function AvatarColour(name: string): Colour {
    if Palette == [] then Gray else Palette[PaletteIndex(name)]
  }

  /**
   * A blank name shows 档; any other name shows its first character that is not whitespace, and
   * only that one.
   */
  lemma AvatarTextMeaning(name: string)
    ensures AllWhite(name) ==> AvatarText(name) == Placeholder
    ensures !AllWhite(name) ==> exists k ::
      && 0 <= k < |name| && !IsWhite(name[k]) && AvatarText(name) == [name[k]]
      && forall j :: 0 <= j < k ==> IsWhite(name[j])
  {
    TrimWhiteEmpty(name);
    if !AllWhite(name) {
      TrimByHead(name, IsWhite);
      assert AvatarText(name) == [TrimWhite(name)[0]];
    }
  }

  /** The colour comes from the palette, never gray, and by the sum's remainder modulo six. */
  lemma AvatarColourMeaning(name: string)
    ensures AvatarColour(name) == Palette[ScalarSum(name) % 6] && AvatarColour(name) != Gray
  {
  }

  /** Reordering the letters of a name keeps its colour. */
  lemma ColourIgnoresOrder(a: string, b: string)
    requires multiset(a) == multiset(b)
    ensures AvatarColour(a) == AvatarColour(b)
  {
    ScalarSumPermutation(a, b);
  }

  /** Surrounding a name with whitespace changes its colour only through the spaces' own values. */
  lemma ColourOfPadded(pad: string, name: string)
    ensures PaletteIndex(pad + name) == (ScalarSum(pad) + ScalarSum(name)) % 6
  {
    var total := ScalarSum(pad + name);
    ScalarSumConcat(pad, name);
    assert |Palette| == 6;
    assert PaletteIndex(pad + name) == total % 6;
  }
}
