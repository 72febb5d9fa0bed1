/**
 * The "one thing" divination screen: the three-coin line of each toss, the texts of moving lines
 * and line positions, and the casting session that collects six tosses before it submits them.
 * The coin faces the random draw picks, the clock and the cast request are parameters.
 */
module Divination {
  import opened Wrappers
  import opened Text
  import opened Sorting

  /** `CoinFace.front.rawValue` and `CoinFace.back.rawValue`. */
  const Front := "正"
  const Back := "反"

  /** A toss as sent to the server: the raw values of its coins. */
  type Toss = seq<string>

  /** The two line symbols: broken (yin) and solid (yang). */
  const YinSymbol := "────  ────"
  const YangSymbol := "────────"

  /** The type shown for a line not yet cast. */
  const Pending := "待摇"

  /** The four line types, by the number of heads. */
  const LineTypes := ["老阴", "少阳", "少阴", "老阳"]

  datatype Preview = Preview(symbol: string, lineType: string)

  /** The number of coins showing the front. */
  function Heads(toss: Toss): (h: nat)
    ensures h <= |toss|
  {
    if toss == [] then 0 else (if toss[0] == Front then 1 else 0) + Heads(toss[1..])
  }

  /** A coin's value: three for the front, two for the back. */
  function CoinValue(face: string): nat {
    if face == Front then 3 else 2
  }

  /** The sum of the coin values, coin by coin. */
  function CoinSum(toss: Toss): nat {
    if toss == [] then 0 else CoinValue(toss[0]) + CoinSum(toss[1..])
  }

  /** Counting heads gives the coin-by-coin sum: three per head and two per tail. */
  lemma {:induction false} CoinSumByHeads(toss: Toss)
    ensures CoinSum(toss) == 3 * Heads(toss) + 2 * (|toss| - Heads(toss))
  {
    if toss != [] {
      CoinSumByHeads(toss[1..]);
    }
  }

  /**
   * `linePreview`: "待摇" unless the toss has three coins; otherwise the line type of the sum
   * 3·heads + 2·tails, which is always 6 to 9, the solid symbol for the yang sums 7 and 9.
   */
  function LinePreview(toss: Option<Toss>): (p: Preview)
    ensures toss.None? || |toss.value| != 3 ==> p == Preview(YinSymbol, Pending)
    ensures toss.Some? && |toss.value| == 3 ==>
      && p.lineType == LineTypes[Heads(toss.value)]
      && p.lineType != Pending
      && (p.symbol == YangSymbol <==> CoinSum(toss.value) % 2 == 1)
  {
    if toss.None? || |toss.value| != 3 then Preview(YinSymbol, Pending)
    else
      var heads := Heads(toss.value);
      var sum := heads * 3 + (3 - heads) * 2;
      assert sum == CoinSum(toss.value) by {
        CoinSumByHeads(toss.value);
      }
      if sum == 6 then Preview(YinSymbol, "老阴")
      else if sum == 7 then Preview(YangSymbol, "少阳")
      else if sum == 8 then Preview(YinSymbol, "少阴")
      else if sum == 9 then Preview(YangSymbol, "老阳")
      else Preview(YinSymbol, Pending)
  }

  /** The sum of a three-coin toss is 6 to 9, so every such toss is a line. */
  lemma ThreeCoinSum(toss: Toss)
    requires |toss| == 3
    ensures 6 <= CoinSum(toss) <= 9
    ensures LineTypes[CoinSum(toss) - 6] == LinePreview(Some(toss)).lineType
  {
    CoinSumByHeads(toss);
  }

  // ---------------------------------------------------------------------------------------------
  // Texts

  function Ascending(a: int, b: int): bool {
    a < b
  }

  /** The decimal text of each number. */
  function Numbers(lines: seq<int>): seq<string> {
    seq(|lines|, i requires 0 <= i < |lines| => IntToString(lines[i]))
  }

  predicate IsListSep(c: char) {
    c == '、'
  }

  /** `movingLinesText`: "无" for no lines, else the lines in ascending order joined by "、". */
  function MovingLinesText(lines: seq<int>): string {
    if lines == [] then "无" else Join(Numbers(Sort(lines, Ascending)), "、")
  }

  /** The decimal texts hold no "、". */
  lemma NumbersAvoid(lines: seq<int>)
    ensures Avoids(Numbers(lines), IsListSep)
  {
    forall k | 0 <= k < |lines| ensures forall i :: 0 <= i < |IntToString(lines[k])| ==> !IsListSep(IntToString(lines[k])[i]) {
      IntToStringShape(lines[k]);
    }
  }

  /** Numbers joined by "、" split back into the same numbers, and never read "无". */
  lemma JoinedNumbers(lines: seq<int>)
    requires lines != []
    ensures Split(Join(Numbers(lines), "、"), IsListSep) == Numbers(lines)
    ensures Join(Numbers(lines), "、") != [] && Join(Numbers(lines), "、")[0] != '无'
  {
    var parts := Numbers(lines);
    NumbersAvoid(lines);
    SplitJoin(parts, '、', IsListSep);
    IntToStringShape(lines[0]);
    JoinHead(parts, "、");
  }

  /**
   * The text is "无" exactly when there are no lines; otherwise split at "、" it gives back the
   * lines' numbers, ascending and each line as often as it was given.
   */
  lemma MovingLinesMeaning(lines: seq<int>)
    ensures (MovingLinesText(lines) == "无") <==> lines == []
    ensures lines != [] ==>
      var sorted := Sort(lines, Ascending);
      && multiset(sorted) == multiset(lines)
      && (forall i, j :: 0 <= i < j < |sorted| ==> sorted[i] <= sorted[j])
      && Split(MovingLinesText(lines), IsListSep) == Numbers(sorted)
  {
    if lines != [] {
      var sorted := Sort(lines, Ascending);
      SortSorted(lines, Ascending);
      assert forall i, j :: 0 <= i < j < |sorted| ==> !Ascending(sorted[j], sorted[i]);
      JoinedNumbers(sorted);
    }
  }

  /** The names of the six positions, bottom to top. */
  const PositionNames := ["初", "二", "三", "四", "五", "上"]

  /** `lineName`: 初爻 to 上爻 for lines 1 to 6, else the number followed by 爻. */
  function LineName(line: int): (r: string)
    ensures 1 <= line <= 6 ==> r == PositionNames[line - 1] + "爻"
    ensures !(1 <= line <= 6) ==> r == IntToString(line) + "爻"
  {
    match line
    case 1 => "初爻"
    case 2 => "二爻"
    case 3 => "三爻"
    case 4 => "四爻"
    case 5 => "五爻"
    case 6 => "上爻"
    case _ => IntToString(line) + "爻"
  }

  /** Every name ends with 爻, and distinct lines have distinct names. */
  lemma LineNameInjective(a: int, b: int)
    requires LineName(a) == LineName(b)
    ensures a == b
  {
    var s := LineName(a);
    assert s[..|s| - 1] == (if 1 <= a <= 6 then PositionNames[a - 1] else IntToString(a));
    assert s[..|s| - 1] == (if 1 <= b <= 6 then PositionNames[b - 1] else IntToString(b));
    IntToStringShape(a);
    IntToStringShape(b);
    if !(1 <= a <= 6) && !(1 <= b <= 6) {
      IntToStringInjective(a, b);
    }
  }

  // ---------------------------------------------------------------------------------------------
  // The casting session

  /** The number of tosses a cast needs. */
  const TossCount := 6

  /** The raw value of a coin that landed front (true) or back. */
  function FaceRaw(front: bool): string {
    if front then Front else Back
  }

  /** The coin faces shown before any toss. */
  const InitialFaces := [Front, Back, Front]

  /** The question a typed text asks: the text trimmed, none when it is blank. */
  function Question(input: string): (q: Option<string>)
    ensures q.None? <==> TrimWhite(input) == []
    ensures q.Some? ==> q.value == TrimWhite(input) && q.value != []
  {
    var trimmed := TrimWhite(input);
    if trimmed == [] then None else Some(trimmed)
  }

  /** The casting part of `OneThingDivinationView`'s state; `hasResult` stands for `todayResult != nil`. */
  datatype Casting = Casting(
    activeQuestion: string,
    questionInput: string,
    tosses: seq<Toss>,
    coinFaces: seq<string>,
    startedAt: int,
    isShaking: bool,
    isSubmitting: bool,
    hasResult: bool,
    errorMessage: Option<string>,
    askError: Option<string>,
    showQuestionSheet: bool)

  /** At most six tosses, each of three coins, and fewer than six while coins are in the air. */
  predicate Valid(s: Casting) {
    && |s.tosses| <= TossCount
    && (forall k :: 0 <= k < |s.tosses| ==> |s.tosses[k]| == 3)
    && (s.isShaking ==> |s.tosses| < TossCount)
  }

  /** The screen as it first appears. */
  function InitialCasting(now: int): Casting {
    Casting([], [], [], InitialFaces, now, false, false, false, None, None, false)
  }

  /**
   * `beginCasting`: a blank question is ignored; otherwise the trimmed question becomes active,
   * the tosses and any result are cleared, the coins reset and the clock restarts.
   */
  function BeginCastingState(s: Casting, now: int): Casting {
    Activated(s, Question(s.questionInput), now)
  }

  /** The state once a question, if there is one, becomes active. */
  function Activated(s: Casting, question: Option<string>, now: int): Casting {
    match question
    case None => s
    case Some(q) =>
      s.(activeQuestion := q, tosses := [], coinFaces := InitialFaces, startedAt := now,
         errorMessage := None, hasResult := false, showQuestionSheet := false)
  }

  /** The guard of `shakeOnce`. */
  predicate CanShake(s: Casting) {
    !s.isShaking && !s.isSubmitting && |s.tosses| < TossCount && s.activeQuestion != []
  }

  /** `shakeOnce` up to the delayed landing: the coins are thrown when the guard lets them. */
  function ShakeState(s: Casting): Casting {
    if CanShake(s) then s.(isShaking := true, errorMessage := None) else s
  }

  /**
   * The landing `shakeOnce` schedules: the faces drawn are shown and appended as one toss, and the
   * sixth toss starts the submission.
   */
  function LandState(s: Casting, first: bool, second: bool, third: bool): Casting {
    var next := [FaceRaw(first), FaceRaw(second), FaceRaw(third)];
    var s1 := s.(coinFaces := next, tosses := s.tosses + [next], isShaking := false);
    if |s1.tosses| == TossCount then s1.(isSubmitting := true) else s1
  }

  /** `submitCasting` once the request returns; `failure` is the error text of a failed request. */
  function FinishState(s: Casting, failure: Option<string>): Casting {
    match failure
    case None => s.(hasResult := true, isSubmitting := false, askError := None, errorMessage := None)
    case Some(e) => s.(errorMessage := Some(e), isSubmitting := false)
  }

  /** `startNewDivination`: the result, question and tosses cleared, the question sheet shown. */
  function StartNewState(s: Casting, now: int): Casting {
    s.(hasResult := false, activeQuestion := [], questionInput := [], tosses := [], coinFaces := InitialFaces,
       startedAt := now, errorMessage := None, askError := None, showQuestionSheet := true)
  }

  /**
   * A blank question changes nothing; any other becomes the active question, trimmed and not
   * empty, with no tosses, no result and no error.
   */
  lemma BeginCastingEffect(s: Casting, now: int)
    ensures var r := BeginCastingState(s, now);
      && (TrimWhite(s.questionInput) == [] ==> r == s)
      && (TrimWhite(s.questionInput) != [] ==>
            && r.activeQuestion == TrimWhite(s.questionInput) && r.activeQuestion != []
            && r.tosses == [] && !r.hasResult && r.errorMessage == None && r.startedAt == now
            && r.isShaking == s.isShaking && r.isSubmitting == s.isSubmitting && r.questionInput == s.questionInput)
      && (Valid(s) ==> Valid(r))
  {
  }

  /**
   * A shake is let through exactly under the guard, and then only throws the coins: the tosses are
   * untouched until they land.
   */
  lemma ShakeEffect(s: Casting)
    ensures var r := ShakeState(s);
      && (r.isShaking <==> s.isShaking || CanShake(s))
      && (!CanShake(s) ==> r == s)
      && r.tosses == s.tosses && r.isSubmitting == s.isSubmitting && r.activeQuestion == s.activeQuestion
      && (Valid(s) ==> Valid(r))
  {
  }

  /**
   * A landing adds exactly one toss, of three coins, at the end; it submits exactly when that was
   * the sixth, and it keeps the state valid.
   */
  lemma LandEffect(s: Casting, first: bool, second: bool, third: bool)
    requires Valid(s) && s.isShaking
    ensures var r := LandState(s, first, second, third);
      && Valid(r) && !r.isShaking
      && |r.tosses| == |s.tosses| + 1 && r.tosses[..|s.tosses|] == s.tosses
      && r.tosses[|s.tosses|] == [FaceRaw(first), FaceRaw(second), FaceRaw(third)]
      && (r.isSubmitting <==> s.isSubmitting || |r.tosses| == TossCount)
      && r.activeQuestion == s.activeQuestion && r.hasResult == s.hasResult
  {
    var r := LandState(s, first, second, third);
    assert r.tosses[..|s.tosses|] == s.tosses;
  }

  /**
   * Six shakes that each land fill a cast begun on an empty toss list: every shake is let through
   * and the sixth landing submits, with the tosses in the order they landed.
   */
  lemma CastSix(s: Casting, faces: seq<bool>)
    requires Valid(s) && s.tosses == [] && s.activeQuestion != [] && !s.isShaking && !s.isSubmitting
    requires |faces| == 3 * TossCount
    ensures var r := Cast(s, faces, TossCount);
      && Valid(r) && r.isSubmitting && |r.tosses| == TossCount
      && forall k :: 0 <= k < TossCount ==>
           r.tosses[k] == TossOf(faces, k)
  {
    CastSteps(s, faces, TossCount);
  }

  /** The toss that lands with faces 3k to 3k+2. */
  function TossOf(faces: seq<bool>, k: nat): Toss
    requires 3 * k + 2 < |faces|
  {
    [FaceRaw(faces[3 * k]), FaceRaw(faces[3 * k + 1]), FaceRaw(faces[3 * k + 2])]
  }

  /** One shake that lands with faces 3k to 3k+2. */
  function Step(st: Casting, faces: seq<bool>, k: nat): Casting
    requires 3 * k + 2 < |faces|
  {
    LandState(ShakeState(st), faces[3 * k], faces[3 * k + 1], faces[3 * k + 2])
  }

  /** n shakes, each landing with the next three faces. */
  function Cast(s: Casting, faces: seq<bool>, n: nat): Casting
    requires |faces| >= 3 * n
  {
    if n == 0 then s else Step(Cast(s, faces, n - 1), faces, n - 1)
  }

  /** A shake the guard lets through lands one more toss. */
  lemma StepEffect(st: Casting, faces: seq<bool>, k: nat)
    requires 3 * k + 2 < |faces|
    requires Valid(st) && CanShake(st)
    ensures var r := Step(st, faces, k);
      && Valid(r) && !r.isShaking && r.activeQuestion == st.activeQuestion
      && r.tosses == st.tosses + [TossOf(faces, k)]
      && (r.isSubmitting <==> |r.tosses| == TossCount)
  {
    var thrown := ShakeState(st);
    LandEffect(thrown, faces[3 * k], faces[3 * k + 1], faces[3 * k + 2]);
  }

  lemma {:induction false} CastSteps(s: Casting, faces: seq<bool>, n: nat)
    requires Valid(s) && s.tosses == [] && s.activeQuestion != [] && !s.isShaking && !s.isSubmitting
    requires |faces| >= 3 * n && n <= TossCount
    ensures var r := Cast(s, faces, n);
      && Valid(r) && |r.tosses| == n && !r.isShaking && r.activeQuestion == s.activeQuestion
      && (r.isSubmitting <==> n == TossCount)
      && forall k :: 0 <= k < n ==>
           r.tosses[k] == TossOf(faces, k)
  {
    if n > 0 {
      var before := Cast(s, faces, n - 1);
      CastSteps(s, faces, n - 1);
      assert CanShake(before);
      StepEffect(before, faces, n - 1);
      var r := Cast(s, faces, n);
      assert r == Step(before, faces, n - 1);
      assert r.tosses == before.tosses + [TossOf(faces, n - 1)];
      TossesAppended(before.tosses, faces, n);
    }
  }

  /** The faces of every toss, in order, after one more toss is appended. */
  lemma TossesAppended(tosses: seq<Toss>, faces: seq<bool>, n: nat)
    requires n >= 1 && |faces| >= 3 * n && |tosses| == n - 1
    requires forall k :: 0 <= k < n - 1 ==> tosses[k] == TossOf(faces, k)
    ensures forall k :: 0 <= k < n ==> (tosses + [TossOf(faces, n - 1)])[k] == TossOf(faces, k)
  {
  }

  /** The casting state, in place. */
  class CastingSession {
    var activeQuestion: string
    var questionInput: string
    var tosses: seq<Toss>
    var coinFaces: seq<string>
    var startedAt: int
    var isShaking: bool
    var isSubmitting: bool
    var hasResult: bool
    var errorMessage: Option<string>
    var askError: Option<string>
    var showQuestionSheet: bool

    function Snapshot(): Casting
      reads this
    {
      Casting(activeQuestion, questionInput, tosses, coinFaces, startedAt, isShaking, isSubmitting, hasResult,
              errorMessage, askError, showQuestionSheet)
    }

    constructor(now: int)
      ensures Snapshot() == InitialCasting(now) && Valid(Snapshot())
    {
      activeQuestion, questionInput, tosses, coinFaces, startedAt := [], [], [], InitialFaces, now;
      isShaking, isSubmitting, hasResult := false, false, false;
      errorMessage, askError, showQuestionSheet := None, None, false;
    }

    /** The question being typed. */
    method EditQuestion(text: string)
      modifies this
      ensures Snapshot() == old(Snapshot()).(questionInput := text)
    {
      questionInput := text;
    }

    /** `beginCasting`. */
    method BeginCasting(now: int)
      modifies this
      ensures Snapshot() == BeginCastingState(old(Snapshot()), now)
    {
      var question := Question(questionInput);
      Activate(question, now);
    }

    /** The part of `beginCasting` after the question is trimmed. */
    method Activate(question: Option<string>, now: int)
      modifies this
      ensures Snapshot() == Activated(old(Snapshot()), question, now)
    {
      if question.None? {
        return;
      }
      activeQuestion, tosses, coinFaces, startedAt := question.value, [], InitialFaces, now;
      errorMessage, hasResult, showQuestionSheet := None, false, false;
    }

    /** `shakeOnce`, up to the delayed landing; `started` tells whether the coins were thrown. */
    method ShakeOnce() returns (started: bool)
      modifies this
      ensures Snapshot() == ShakeState(old(Snapshot()))
      ensures started <==> CanShake(old(Snapshot()))
    {
      if !CanShake(Snapshot()) {
        return false;
      }
      isShaking, errorMessage := true, None;
      started := true;
    }

    /** The landing `shakeOnce` schedules; `submit` tells whether the submission starts. */
    method LandCoins(first: bool, second: bool, third: bool) returns (submit: bool)
      modifies this
      ensures Snapshot() == LandState(old(Snapshot()), first, second, third)
      ensures submit <==> |tosses| == TossCount
    {
      var next := [FaceRaw(first), FaceRaw(second), FaceRaw(third)];
      coinFaces := next;
      tosses := tosses + [next];
      isShaking := false;
      submit := |tosses| == TossCount;
      if submit {
        isSubmitting := true;
      }
    }

    /** `submitCasting` once the cast request returns. */
    method FinishSubmit(failure: Option<string>)
      modifies this
      ensures Snapshot() == FinishState(old(Snapshot()), failure)
    {
      isSubmitting, errorMessage := true, None;
      if failure.None? {
        hasResult, isSubmitting, askError := true, false, None;
      } else {
        errorMessage, isSubmitting := failure, false;
      }
    }

    /** `startNewDivination`. */
    method StartNewDivination(now: int)
      modifies this
      ensures Snapshot() == StartNewState(old(Snapshot()), now)
    {
      hasResult, activeQuestion, questionInput, tosses := false, [], [], [];
      coinFaces, startedAt, errorMessage, askError := InitialFaces, now, None, None;
      showQuestionSheet := true;
    }
  }
}
