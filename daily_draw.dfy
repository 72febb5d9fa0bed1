/**
 * The daily "one thing" draw screen: the choice of today's ritual from a wrapping 64-bit hash of
 * the day and the profile id, and the sigil canvas that gathers the strokes the user draws.
 * The date formatting, the profile's UUID text and the draw request are parameters or left out.
 */
module DailyDraw {
  import opened Wrappers
  import opened Text

  /** `DailyDrawRitual`: draw a sigil, or read the face. */
  datatype Ritual = Sigil | Face

  /** Swift's `Int` is 64 bits wide. */
  const Modulus: int := 0x1_0000_0000_0000_0000
  const IntMin: int := -0x8000_0000_0000_0000
  const IntMax: int := 0x7FFF_FFFF_FFFF_FFFF

  /** The 64-bit two's-complement value with the same low 64 bits as `x`. */
  function Wrap(x: int): (r: int)
    ensures IntMin <= r <= IntMax
    ensures (r - x) % Modulus == 0
  {
    var u := x % Modulus;
    if u > IntMax then u - Modulus else u
  }

  /** The hash seed. */
  const Seed: int := 5381

  /**
   * One round: `(hash << 5) &+ hash &+ scalar`. The shift on a signed `Int` drops the bits that
   * leave the word, so it is a wrapped multiplication by 32.
   */
  function Mix(hash: int, scalar: char): int {
    Wrap(Wrap(Wrap(hash * 32) + hash) + scalar as int)
  }

  /** The hash of `key`, one round per Unicode scalar from the left. */
  function HashOf(key: string): (r: int)
    ensures IntMin <= r <= IntMax
  {
    if key == [] then Seed else Mix(HashOf(key[..|key| - 1]), key[|key| - 1])
  }

  /** The key: the formatted day, a dash, then the profile's UUID text. */
  function RitualKey(dayText: string, profileId: string): string {
    dayText + "-" + profileId
  }

  /** The loop of `resolveRitual`: the 64-bit hash of the key. */
  method Hash(key: string) returns (hash: int)
    ensures hash == HashOf(key)
    ensures IntMin <= hash <= IntMax
  {
    hash := Seed;
    for i := 0 to |key|
      invariant hash == HashOf(key[..i])
    {
      assert key[..i + 1][..i] == key[..i];
      hash := Mix(hash, key[i]);
    }
    assert key[..|key|] == key;
  }

  /**
   * `abs(hash) % 2 == 0 ? .sigil : .face`. `abs` of the least `Int` traps, which the model
   * writes as None.
   */
  function Choose(hash: int): (r: Option<Ritual>)
    requires IntMin <= hash <= IntMax
    ensures r.None? <==> hash == IntMin
    ensures r.Some? ==> (r.value == Sigil <==> hash % 2 == 0)
  {
    if hash == IntMin then None
    else
      var magnitude := if hash < 0 then -hash else hash;
      Some(if magnitude % 2 == 0 then Sigil else Face)
  }

  /** The ritual of a key, None where the choice traps. */
  function RitualOf(key: string): Option<Ritual> {
    Choose(HashOf(key))
  }

  /** Wrapping keeps the parity, since the word size is even. */
  lemma WrapParity(x: int)
    ensures Wrap(x) % 2 == x % 2
  {
    var d := Wrap(x) - x;
    var k := d / Modulus;
    assert d == Modulus * k;
    assert d == 2 * (0x8000_0000_0000_0000 * k);
  }

  /** Parity of a sum. */
  lemma SumParity(a: int, b: int)
    ensures (a + b) % 2 == (a % 2 + b % 2) % 2
  {
  }

  /** A wrapped sum has the parity of the sum. */
  lemma WrapSumParity(a: int, b: int)
    ensures Wrap(a + b) % 2 == (a % 2 + b % 2) % 2
  {
    WrapParity(a + b);
  }

  /** A wrapped multiple of 32 is even. */
  lemma WrapShiftEven(h: int)
    ensures Wrap(h * 32) % 2 == 0
  {
    var x := h * 32;
    assert x % 2 == 0 by { assert x == 2 * (h * 16); }
    WrapParity(x);
  }

  /** One round keeps the parity of `hash + scalar`, as 33 is odd. */
  lemma MixParity(hash: int, scalar: char)
    ensures Mix(hash, scalar) % 2 == (hash % 2 + scalar as int % 2) % 2
  {
    var a := Wrap(hash * 32);
    var b := Wrap(a + hash);
    WrapShiftEven(hash);
    WrapSumParity(a, hash);
    WrapSumParity(b, scalar as int);
  }

  /** The hash is odd exactly when the scalar values sum to an even number (the seed is odd). */
  lemma {:induction false} HashParity(key: string)
    ensures HashOf(key) % 2 == (Seed + ScalarSum(key)) % 2
  {
    if key != [] {
      var prior := key[..|key| - 1];
      var c := key[|key| - 1];
      HashParity(prior);
      MixParity(HashOf(prior), c);
      SumParity(Seed + ScalarSum(prior), c as int);
    }
  }

  /**
   * The ritual follows the parity of the key's scalar sum: the sigil for an odd sum, the face for
   * an even one, unless the hash is the least `Int`, where `abs` traps.
   */
  lemma RitualBySum(key: string)
    ensures RitualOf(key).None? <==> HashOf(key) == IntMin
    ensures RitualOf(key).Some? ==> (RitualOf(key).value == Sigil <==> ScalarSum(key) % 2 == 1)
  {
    var h, total := HashOf(key), ScalarSum(key);
    HashParity(key);
    SumParity(Seed, total);
    assert h % 2 == (1 + total % 2) % 2;
    assert h % 2 == 0 <==> total % 2 == 1;
  }

  /** A point of a stroke, in the canvas' coordinates. */
  datatype Point = Point(x: real, y: real)

  /** The finished strokes and the one under the finger. */
  datatype Canvas = Canvas(strokes: seq<seq<Point>>, current: seq<Point>)

  const Blank := Canvas([], [])

  /** `strokes.reduce(0) { $0 + $1.count }`. */
  function StrokePoints(strokes: seq<seq<Point>>): nat {
    if strokes == [] then 0 else StrokePoints(strokes[..|strokes| - 1]) + |strokes[|strokes| - 1]|
  }

  /** `hasDrawn`: more than 12 points across the finished strokes and the current one. */
  predicate HasDrawn(c: Canvas) {
    StrokePoints(c.strokes) + |c.current| > 12
  }

  /** All the ink, in drawing order. */
  function Ink(c: Canvas): seq<Point> {
    Flatten(c.strokes) + c.current
  }

  /** `DrawingCanvas`'s drag change: the point appended (a fresh stroke when none is open). */
  function Dragged(c: Canvas, p: Point): Canvas {
    if c.current == [] then c.(current := [p]) else c.(current := c.current + [p])
  }

  /** `DrawingCanvas`'s drag end: an open stroke is closed. */
  function Released(c: Canvas): Canvas {
    if c.current == [] then c else Canvas(c.strokes + [c.current], [])
  }

  /** No finished stroke is empty. */
  predicate Valid(c: Canvas) {
    forall k :: 0 <= k < |c.strokes| ==> c.strokes[k] != []
  }

  /** A touch event on the canvas. */
  datatype Gesture = Change(p: Point) | End

  function Apply(c: Canvas, g: Gesture): Canvas {
    match g
    case Change(p) => Dragged(c, p)
    case End => Released(c)
  }

  function Replay(c: Canvas, gs: seq<Gesture>): Canvas {
    if gs == [] then c else Apply(Replay(c, gs[..|gs| - 1]), gs[|gs| - 1])
  }

  /** The points of the drag changes, in order. */
  function Touched(gs: seq<Gesture>): seq<Point> {
    if gs == [] then []
    else Touched(gs[..|gs| - 1]) + (match gs[|gs| - 1] case Change(p) => [p] case End => [])
  }

  /** The source's count of points is the length of the ink. */
  lemma {:induction false} StrokePointsInk(strokes: seq<seq<Point>>)
    ensures StrokePoints(strokes) == |Flatten(strokes)|
  {
    if strokes != [] {
      StrokePointsInk(strokes[..|strokes| - 1]);
    }
  }

  /** `hasDrawn` holds exactly when more than 12 points of ink are on the canvas. */
  lemma HasDrawnMeaning(c: Canvas)
    ensures HasDrawn(c) <==> |Ink(c)| > 12
  {
    StrokePointsInk(c.strokes);
  }

  /** A drag change adds its point to the end of the ink and keeps the strokes. */
  lemma DraggedEffect(c: Canvas, p: Point)
    ensures Ink(Dragged(c, p)) == Ink(c) + [p]
    ensures Dragged(c, p).strokes == c.strokes && Dragged(c, p).current != []
  {
  }

  /** A drag end keeps the ink, leaves no open stroke and never closes an empty one. */
  lemma ReleasedEffect(c: Canvas)
    requires Valid(c)
    ensures Ink(Released(c)) == Ink(c)
    ensures Released(c).current == [] && Valid(Released(c))
  {
    if c.current != [] {
      var s := c.strokes + [c.current];
      assert s[..|s| - 1] == c.strokes;
      assert Flatten(s) == Flatten(c.strokes) + c.current;
    }
  }

  /** A run of gestures leaves exactly the points of its drag changes, in order, as new ink. */
  lemma {:induction false} ReplayInk(c: Canvas, gs: seq<Gesture>)
    requires Valid(c)
    ensures Ink(Replay(c, gs)) == Ink(c) + Touched(gs)
    ensures Valid(Replay(c, gs))
  {
    if gs != [] {
      var prior := gs[..|gs| - 1];
      ReplayInk(c, prior);
      match gs[|gs| - 1]
      case Change(p) =>
        DraggedEffect(Replay(c, prior), p);
      case End =>
        ReleasedEffect(Replay(c, prior));
    }
  }

  /** Thirteen drag changes on a blank canvas, with any drag ends between them, have drawn. */
  lemma DrawnAfterThirteen(gs: seq<Gesture>)
    requires |Touched(gs)| >= 13
    ensures HasDrawn(Replay(Blank, gs))
  {
    ReplayInk(Blank, gs);
    HasDrawnMeaning(Replay(Blank, gs));
  }

  /** The draw screen's ritual and sigil canvas. */
  class DrawScreen {
    var ritual: Ritual
    var strokes: seq<seq<Point>>
    var currentStroke: seq<Point>

    function Snapshot(): Canvas
      reads this
    {
      Canvas(strokes, currentStroke)
    }

    /** The screen opens on the sigil with a blank canvas. */
    constructor()
      ensures ritual == Sigil && Snapshot() == Blank
    {
      ritual, strokes, currentStroke := Sigil, [], [];
    }

    predicate HasDrawnNow()
      reads this
      ensures HasDrawnNow() <==> |Ink(Snapshot())| > 12
    {
      HasDrawnMeaning(Snapshot());
      HasDrawn(Snapshot())
    }

    /**
     * `resolveRitual`: the choice from the day's key, and the canvas cleared. `trapped` is the
     * run-time trap of `abs` on the least `Int`, which changes nothing.
     */
    method ResolveRitual(dayText: string, profileId: string) returns (trapped: bool)
      modifies this
      ensures trapped <==> RitualOf(RitualKey(dayText, profileId)).None?
      ensures trapped ==> ritual == old(ritual) && Snapshot() == old(Snapshot())
      ensures !trapped ==> Some(ritual) == RitualOf(RitualKey(dayText, profileId)) && Snapshot() == Blank
    {
      var hash := Hash(RitualKey(dayText, profileId));
      var choice := Choose(hash);
      if choice.None? {
        return true;
      }
      ritual := choice.value;
      strokes := [];
      currentStroke := [];
      return false;
    }

    /** The drag gesture's change. */
    method DragChanged(p: Point)
      modifies this
      ensures ritual == old(ritual) && Snapshot() == Dragged(old(Snapshot()), p)
    {
      if currentStroke == [] {
        currentStroke := [p];
      } else {
        currentStroke := currentStroke + [p];
      }
    }

    /** The drag gesture's end. */
    method DragEnded()
      modifies this
      ensures ritual == old(ritual) && Snapshot() == Released(old(Snapshot()))
    {
      if currentStroke != [] {
        strokes := strokes + [currentStroke];
        currentStroke := [];
      }
    }

    /** The "重画" button. */
    method Redraw()
      modifies this
      ensures ritual == old(ritual) && Snapshot() == Blank
    {
      strokes := [];
      currentStroke := [];
    }
  }
}
