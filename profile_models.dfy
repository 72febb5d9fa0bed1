/**
 * The profile records and the pure helpers beside them: birth-input validation, the year range
 * the pickers offer, date rendering and the bounds-checked subscript.
 */
module ProfileModels {
  import opened Wrappers
  import opened Text

  datatype CalendarInputType = Solar | Lunar

  datatype Gender = Male | Female | Other

  /** `Gender.rawValue`. */
  function GenderRaw(g: Gender): string {
    match g
    case Male => "男"
    case Female => "女"
    case Other => "其他"
  }

  /** `Gender(rawValue:)`: the gender whose raw value is the string, if any. */
  function GenderFromRaw(s: string): (r: Option<Gender>)
    ensures r.Some? ==> GenderRaw(r.value) == s
  {
    if s == "男" then Some(Male) else if s == "女" then Some(Female) else if s == "其他" then Some(Other) else None
  }

  /** Every gender is read back from its raw value. */
  lemma GenderRawRoundTrip(g: Gender)
    ensures GenderFromRaw(GenderRaw(g)) == Some(g)
  {
  }

  /** What the birth form collects. */
  datatype BirthInput = BirthInput(
    calendarType: CalendarInputType,
    year: int,
    month: int,
    day: int,
    hour: int,
    isLeapMonth: bool)

  /** Foundation's `DateComponents`, restricted to the fields the app sets and reads. */
  datatype DateComponents = DateComponents(
    year: Option<int>,
    month: Option<int>,
    day: Option<int>,
    hour: Option<int>,
    minute: Option<int>)

  datatype BirthInfo = BirthInfo(inputType: CalendarInputType, solar: DateComponents, lunar: DateComponents)

  /** A stored place of birth; the longitude is carried, never computed with. */
  datatype BirthLocation = BirthLocation(province: string, city: string, district: string, longitude: real)

  /** A saved profile. `createdAt` is a timestamp; only its order matters. */
  datatype UserProfile = UserProfile(
    id: nat,
    name: string,
    gender: Gender,
    birthInfo: BirthInfo,
    location: BirthLocation,
    trueSolar: DateComponents,
    createdAt: int)

  // ---------------------------------------------------------------------------------------------
  // Validation

  const MinYear := 1900
  const MaxYear := 2100

  const YearError := "请输入正确的年份（1900-2100）。"
  const MonthError := "请输入正确的月份（1-12）。"
  const DayError := "请输入正确的日期（1-31）。"
  const HourError := "请输入正确的小时（0-23）。"

  /** Whether a year is one of the years the pickers offer (`yearRange`, a closed range). */
  predicate InYearRange(year: int) {
    MinYear <= year <= MaxYear
  }

  /**
   * `validate`: the message for the first field out of range, checked in the order year, month,
   * day, hour; None when all four are in range. The day is not checked against the month.
   */
  function Validate(input: BirthInput): (r: Option<string>)
    ensures r == None <==>
      1900 <= input.year <= 2100 && 1 <= input.month <= 12 && 1 <= input.day <= 31 && 0 <= input.hour <= 23
    ensures !(1900 <= input.year <= 2100) ==> r == Some(YearError)
    ensures 1900 <= input.year <= 2100 && !(1 <= input.month <= 12) ==> r == Some(MonthError)
    ensures 1900 <= input.year <= 2100 && 1 <= input.month <= 12 && !(1 <= input.day <= 31) ==> r == Some(DayError)
    ensures 1900 <= input.year <= 2100 && 1 <= input.month <= 12 && 1 <= input.day <= 31 && !(0 <= input.hour <= 23)
            ==> r == Some(HourError)
  {
    if input.year < 1900 || input.year > 2100 then Some(YearError)
    else if !(1 <= input.month <= 12) then Some(MonthError)
    else if !(1 <= input.day <= 31) then Some(DayError)
    else if !(0 <= input.hour <= 23) then Some(HourError)
    else None
  }

  /** The year picker offers exactly the years `validate` lets through. */
  lemma YearRangeMatchesValidate(input: BirthInput)
    ensures InYearRange(input.year) <==> Validate(input) != Some(YearError)
  {
    assert YearError != MonthError && YearError != DayError && YearError != HourError by {
      assert YearError[6] == '年' && MonthError[6] == '月' && DayError[6] == '日' && HourError[6] == '小';
    }
  }

  /** Day 31 passes for every month, whatever its length. */
  lemma Day31Accepted(input: BirthInput)
    requires InYearRange(input.year) && 1 <= input.month <= 12 && 0 <= input.hour <= 23
    ensures Validate(input.(day := 31)) == None
  {
  }

  // ---------------------------------------------------------------------------------------------
  // Rendering

  /** `formatDateComponents`: "%04d-%02d-%02d %02d:%02d", a missing component counting as 0. */
  function FormatDateComponents(c: DateComponents): (r: string)
  {
    ZeroPad(c.year.GetOr(0), 4) + "-" + ZeroPad(c.month.GetOr(0), 2) + "-" + ZeroPad(c.day.GetOr(0), 2)
    + " " + ZeroPad(c.hour.GetOr(0), 2) + ":" + ZeroPad(c.minute.GetOr(0), 2)
  }

  /** Each field fits its width: years of four digits, the others of two. */
  predicate Renderable(c: DateComponents) {
    && 0 <= c.year.GetOr(0) < 10000
    && 0 <= c.month.GetOr(0) < 100
    && 0 <= c.day.GetOr(0) < 100
    && 0 <= c.hour.GetOr(0) < 100
    && 0 <= c.minute.GetOr(0) < 100
  }

  /** The characters i..j of r are decimal digits reading as v. */
  predicate FieldAt(r: string, i: nat, j: nat, v: int) {
    && i <= j <= |r|
    && (forall k :: i <= k < j ==> '0' <= r[k] <= '9')
    && DigitsOf(r[i..j]) == v
  }

  /** The value of a string of decimal digits (-1 for anything else). */
  function DigitsOf(s: string): int {
    if forall k :: 0 <= k < |s| ==> '0' <= s[k] <= '9' then DigitsValue(s) else -1
  }

  /** A string of digits is a field from its start to its end. */
  lemma WholeField(r: string, v: nat)
    requires forall k :: 0 <= k < |r| ==> '0' <= r[k] <= '9'
    requires DigitsValue(r) == v
    ensures FieldAt(r, 0, |r|, v)
  {
    assert r[0..|r|] == r;
  }

  /** A field rendered by `%0<w>d` from a value below 10^w. */
  lemma PaddedField(n: nat, w: nat)
    requires 1 <= w && n < Pow10(w)
    ensures |ZeroPad(n, w)| == w && FieldAt(ZeroPad(n, w), 0, w, n)
  {
    ZeroPadNat(n, w);
    WholeField(ZeroPad(n, w), n);
  }

  /** Five fields of widths 4, 2, 2, 2, 2 joined by "-", "-", " ", ":" sit where the format puts them. */
  lemma Layout(y: string, mo: string, d: string, h: string, mi: string, r: string,
               vy: int, vmo: int, vd: int, vh: int, vmi: int)
    requires |y| == 4 && |mo| == 2 && |d| == 2 && |h| == 2 && |mi| == 2
    requires FieldAt(y, 0, 4, vy) && FieldAt(mo, 0, 2, vmo) && FieldAt(d, 0, 2, vd)
    requires FieldAt(h, 0, 2, vh) && FieldAt(mi, 0, 2, vmi)
    requires r == y + "-" + mo + "-" + d + " " + h + ":" + mi
    ensures |r| == 16 && r[4] == '-' && r[7] == '-' && r[10] == ' ' && r[13] == ':'
    ensures FieldAt(r, 0, 4, vy) && FieldAt(r, 5, 7, vmo) && FieldAt(r, 8, 10, vd)
    ensures FieldAt(r, 11, 13, vh) && FieldAt(r, 14, 16, vmi)
  {
    assert r[0..4] == y[0..4] && r[5..7] == mo[0..2] && r[8..10] == d[0..2];
    assert r[11..13] == h[0..2] && r[14..16] == mi[0..2];
  }

  /**
   * A renderable date is 16 characters with the separators in place, and each field reads back
   * as its value (0 for a missing one).
   */
  lemma FormatDateShape(c: DateComponents)
    requires Renderable(c)
    ensures var r := FormatDateComponents(c);
      && |r| == 16
      && r[4] == '-' && r[7] == '-' && r[10] == ' ' && r[13] == ':'
      && FieldAt(r, 0, 4, c.year.GetOr(0))
      && FieldAt(r, 5, 7, c.month.GetOr(0))
      && FieldAt(r, 8, 10, c.day.GetOr(0))
      && FieldAt(r, 11, 13, c.hour.GetOr(0))
      && FieldAt(r, 14, 16, c.minute.GetOr(0))
  {
    assert Pow10(4) == 10000 && Pow10(2) == 100;
    var vy, vmo, vd, vh, vmi := c.year.GetOr(0), c.month.GetOr(0), c.day.GetOr(0), c.hour.GetOr(0), c.minute.GetOr(0);
    PaddedField(vy, 4);
    PaddedField(vmo, 2);
    PaddedField(vd, 2);
    PaddedField(vh, 2);
    PaddedField(vmi, 2);
    Layout(ZeroPad(vy, 4), ZeroPad(vmo, 2), ZeroPad(vd, 2), ZeroPad(vh, 2), ZeroPad(vmi, 2),
           FormatDateComponents(c), vy, vmo, vd, vh, vmi);
  }

  // ---------------------------------------------------------------------------------------------
  // Bounds-checked subscript

  /** `subscript(safe:)`: the element when the index is in bounds, else nil. */
  function SafeAt<T>(s: seq<T>, i: int): (r: Option<T>)
    ensures r.Some? <==> 0 <= i < |s|
    ensures r.Some? ==> r.value == s[i]
  {
    if 0 <= i < |s| then Some(s[i]) else None
  }
}
