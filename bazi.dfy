/**
 * The BaZi chart model: the five elements of the stems and branches, the four pillars, and the
 * fallback reader that builds a minimal chart from the server's plain-text chart.
 */
module BaZi {
  import opened Wrappers
  import opened Text

  // ---------------------------------------------------------------------------------------------
  // Five elements

  datatype WuXing = Jin | Mu | Shui | Huo | Tu

  /** `WuXing.rawValue`. */
  function WuXingRaw(w: WuXing): string {
    match w
    case Jin => "金"
    case Mu => "木"
    case Shui => "水"
    case Huo => "火"
    case Tu => "土"
  }

  /** The ten heavenly stems, in order. */
  const Stems := ["甲", "乙", "丙", "丁", "戊", "己", "庚", "辛", "壬", "癸"]

  /** The twelve earthly branches, in order. */
  const Branches := ["子", "丑", "寅", "卯", "辰", "巳", "午", "未", "申", "酉", "戌", "亥"]

  /** The elements in the order they generate one another: wood, fire, earth, metal, water. */
  const Generating := [Mu, Huo, Tu, Jin, Shui]

  /** The element of each branch, in the order of `Branches`. */
  const BranchElements := [Shui, Tu, Mu, Mu, Tu, Huo, Huo, Tu, Jin, Jin, Tu, Shui]

  /**
   * `WuXing.from(stemOrBranch:)`: the element of a stem or branch, none for anything else. The
   * dictionary's keys are single characters, so the lookup is on a one-character string.
   */
  function WuXingFrom(s: string): Option<WuXing> {
    if |s| != 1 then None
    else match s[0]
      case '甲' => Some(Mu) case '乙' => Some(Mu) case '丙' => Some(Huo) case '丁' => Some(Huo)
      case '戊' => Some(Tu) case '己' => Some(Tu) case '庚' => Some(Jin) case '辛' => Some(Jin)
      case '壬' => Some(Shui) case '癸' => Some(Shui)
      case '寅' => Some(Mu) case '卯' => Some(Mu) case '巳' => Some(Huo) case '午' => Some(Huo)
      case '辰' => Some(Tu) case '戌' => Some(Tu) case '丑' => Some(Tu) case '未' => Some(Tu)
      case '申' => Some(Jin) case '酉' => Some(Jin) case '亥' => Some(Shui) case '子' => Some(Shui)
      case _ => None
  }

  /** Each pair of stems shares one element, in the generating order. */
  lemma StemElements()
    ensures forall i :: 0 <= i < |Stems| ==> WuXingFrom(Stems[i]) == Some(Generating[i / 2])
  {
  }

  /** Each branch has the element listed for it. */
  lemma BranchTable()
    ensures forall i :: 0 <= i < |Branches| ==> WuXingFrom(Branches[i]) == Some(BranchElements[i])
  {
  }

  /** The table knows exactly the stems and the branches. */
  lemma KnownExactly(s: string)
    ensures WuXingFrom(s).Some? <==> s in Stems || s in Branches
  {
    if WuXingFrom(s).Some? {
      assert s == [s[0]];
    }
  }

  /** The earth branches are the four "storehouse" branches 辰戌丑未. */
  lemma EarthBranches()
    ensures forall i :: 0 <= i < |Branches| ==> (BranchElements[i] == Tu <==> Branches[i] in ["辰", "戌", "丑", "未"])
  {
  }

  // ---------------------------------------------------------------------------------------------
  // The chart

  datatype Pillar = Pillar(
    gan: string,
    zhi: string,
    zangGan: seq<string>,
    shiShen: seq<string>,
    naYin: string,
    kongWang: string,
    diShi: string,
    ziZuo: string,
    shenSha: seq<string>,
    ganShen: string)

  datatype Chart = Chart(
    solarLabel: string,
    trueSolarLabel: string,
    lunarLabel: string,
    solarTermLabel: Option<string>,
    yearPillar: Pillar,
    monthPillar: Pillar,
    dayPillar: Pillar,
    hourPillar: Pillar,
    ganRelationText: Option<string>,
    gender: Option<string>,
    taiYuan: Option<string>,
    mingGong: Option<string>,
    shenGong: Option<string>,
    daYun: Option<seq<string>>,
    liuNian: Option<seq<string>>)

  /** `pillars`: year, month, day and hour. */
  function Pillars(c: Chart): (r: seq<Pillar>)
    ensures |r| == |PillarTitles|
    ensures forall i :: 0 <= i < |r| ==> r[i] == PillarAt(c, i)
  {
    [c.yearPillar, c.monthPillar, c.dayPillar, c.hourPillar]
  }

  /** `pillarTitles`. */
  const PillarTitles := ["年柱", "月柱", "日柱", "时柱"]

  /** The pillar a title names. */
  function PillarAt(c: Chart, i: nat): Pillar
    requires i < 4
  {
    if i == 0 then c.yearPillar else if i == 1 then c.monthPillar else if i == 2 then c.dayPillar else c.hourPillar
  }

  // ---------------------------------------------------------------------------------------------
  // Reading the plain-text chart

  const SolarTag := "公历："
  const TrueSolarTag := "真太阳时"
  const LunarTag := "农历："
  const YearTag := "年柱："
  const MonthTag := "月柱："
  const DayTag := "日柱："
  const HourTag := "时柱："
  const NaYinTag := "日柱纳音："
  const GenderTag := "性别："

  /** A pillar's stem and branch as read so far. */
  datatype GanZhi = GanZhi(gan: string, zhi: string)

  /** The local variables of `from(plainText:)`. */
  datatype Fields = Fields(
    year: GanZhi,
    month: GanZhi,
    day: GanZhi,
    hour: GanZhi,
    trueSolar: string,
    lunar: string,
    solar: string,
    dayNaYin: string,
    gender: Option<string>)

  const NoFields := Fields(GanZhi("", ""), GanZhi("", ""), GanZhi("", ""), GanZhi("", ""), "", "", "", "", None)

  /** The text after a tag, trimmed of spaces. */
  function Rest(t: string, tag: string): string
    requires StartsWith(t, tag)
  {
    Trim(t[|tag|..])
  }

  /** A pillar value of two or more characters gives its first and last; a shorter one changes nothing. */
  function ReadGanZhi(v: string, previous: GanZhi): (r: GanZhi)
    ensures |v| >= 2 ==> r == GanZhi([v[0]], [v[|v| - 1]])
    ensures |v| < 2 ==> r == previous
  {
    if |v| >= 2 then GanZhi(v[..1], v[|v| - 1..]) else previous
  }

  /** One iteration of the loop: the line trimmed of spaces and matched against the tags in order. */
  function ReadLine(f: Fields, line: string): Fields {
    ReadTrimmedLine(f, Trim(line))
  }

  /** The tags tried in order on a trimmed line. */
  function ReadTrimmedLine(f: Fields, t: string): Fields {
    if StartsWith(t, SolarTag) then f.(solar := Rest(t, SolarTag))
    else if StartsWith(t, TrueSolarTag) then f.(trueSolar := t)
    else if StartsWith(t, LunarTag) then f.(lunar := Rest(t, LunarTag))
    else if StartsWith(t, YearTag) then f.(year := ReadGanZhi(Rest(t, YearTag), f.year))
    else if StartsWith(t, MonthTag) then f.(month := ReadGanZhi(Rest(t, MonthTag), f.month))
    else if StartsWith(t, DayTag) then f.(day := ReadGanZhi(Rest(t, DayTag), f.day))
    else if StartsWith(t, HourTag) then f.(hour := ReadGanZhi(Rest(t, HourTag), f.hour))
    else if StartsWith(t, NaYinTag) then f.(dayNaYin := Rest(t, NaYinTag))
    else if StartsWith(t, GenderTag) then f.(gender := Some(Rest(t, GenderTag)))
    else f
  }

  /** The lines read in order. */
  function ReadLines(f: Fields, lines: seq<string>): Fields {
    if lines == [] then f else ReadLine(ReadLines(f, lines[..|lines| - 1]), lines[|lines| - 1])
  }

  /** A pillar with only its stem, branch and na-yin. */
  function BarePillar(gz: GanZhi, naYin: string): Pillar {
    Pillar(gz.gan, gz.zhi, [], [], naYin, "", "", "", [], "")
  }

  /** The chart the loop's variables build. */
  function Build(f: Fields): Chart {
    Chart(f.solar, f.trueSolar, f.lunar, None,
          BarePillar(f.year, ""), BarePillar(f.month, ""), BarePillar(f.day, f.dayNaYin), BarePillar(f.hour, ""),
          None, f.gender, None, None, None, None, None)
  }

  /**
   * `BaZiModel.from(plainText:)`: every line, split at the newline characters, is read in order;
   * a chart always comes back.
   */
  method FromPlainText(text: string) returns (r: Option<Chart>)
    ensures r.Some? && r.value == Build(ReadLines(NoFields, Split(text, IsNewline)))
  {
    var lines := Split(text, IsNewline);
    var f := NoFields;
    for i := 0 to |lines|
      invariant f == ReadLines(NoFields, lines[..i])
    {
      ReadLinesStep(NoFields, lines, i);
      f := ReadOne(f, lines[i]);
    }
    assert lines[..|lines|] == lines;
    return Some(Build(f));
  }

  /** The lines up to i + 1 are those up to i and then line i. */
  lemma ReadLinesStep(f: Fields, lines: seq<string>, i: nat)
    requires i < |lines|
    ensures ReadLines(f, lines[..i + 1]) == ReadLine(ReadLines(f, lines[..i]), lines[i])
  {
    assert lines[..i + 1][..i] == lines[..i];
  }

  /** The body of the loop over the lines. */
  method ReadOne(f: Fields, line: string) returns (g: Fields)
    ensures g == ReadLine(f, line)
  {
    var t := Trim(line);
    g := ReadTrimmed(f, t);
  }

  /** The loop body once the line is trimmed: the tags tried in order. */
  method ReadTrimmed(f: Fields, t: string) returns (g: Fields)
    ensures g == ReadTrimmedLine(f, t)
  {
    g := f;
    if StartsWith(t, SolarTag) {
      g := g.(solar := Rest(t, SolarTag));
    } else if StartsWith(t, TrueSolarTag) {
      g := g.(trueSolar := t);
    } else if StartsWith(t, LunarTag) {
      g := g.(lunar := Rest(t, LunarTag));
    } else if StartsWith(t, YearTag) {
      g := g.(year := ReadGanZhi(Rest(t, YearTag), g.year));
    } else if StartsWith(t, MonthTag) {
      g := g.(month := ReadGanZhi(Rest(t, MonthTag), g.month));
    } else if StartsWith(t, DayTag) {
      g := g.(day := ReadGanZhi(Rest(t, DayTag), g.day));
    } else if StartsWith(t, HourTag) {
      g := g.(hour := ReadGanZhi(Rest(t, HourTag), g.hour));
    } else if StartsWith(t, NaYinTag) {
      g := g.(dayNaYin := Rest(t, NaYinTag));
    } else if StartsWith(t, GenderTag) {
      g := g.(gender := Some(Rest(t, GenderTag)));
    }
  }

  /**
   * The chart holds the four pillars in title order; only the day pillar has a na-yin, every
   * relational field is empty and no optional field but the gender is set.
   */
  lemma BuildShape(f: Fields)
    ensures var c := Build(f);
      && Pillars(c) == [BarePillar(f.year, ""), BarePillar(f.month, ""), BarePillar(f.day, f.dayNaYin), BarePillar(f.hour, "")]
      && (forall i :: 0 <= i < 4 && i != 2 ==> PillarAt(c, i).naYin == "")
      && PillarAt(c, 2).naYin == f.dayNaYin
      && (forall i :: 0 <= i < 4 ==> var p := PillarAt(c, i);
            p.zangGan == [] && p.shiShen == [] && p.shenSha == [] && p.kongWang == "" && p.diShi == ""
            && p.ziZuo == "" && p.ganShen == "")
      && c.solarTermLabel.None? && c.ganRelationText.None? && c.taiYuan.None? && c.mingGong.None?
      && c.shenGong.None? && c.daYun.None? && c.liuNian.None? && c.gender == f.gender
  {
  }

  /** Reading a line that starts with a tag under a different first character. */
  lemma OtherHead(t: string, tag: string, other: string)
    requires StartsWith(t, tag) && tag != [] && other != [] && other[0] != tag[0]
    ensures !StartsWith(t, other)
  {
    assert t[0] == t[..|tag|][0];
  }

  /** The first characters of the tags: 公 真 农 年 月 日 时 日 性. */
  lemma TagHeads()
    ensures SolarTag[0] == '公' && TrueSolarTag[0] == '真' && LunarTag[0] == '农' && YearTag[0] == '年'
    ensures MonthTag[0] == '月' && DayTag[0] == '日' && HourTag[0] == '时' && NaYinTag[0] == '日'
    ensures GenderTag[0] == '性'
    ensures DayTag[2] == '：' && NaYinTag[2] == '纳'
  {
  }

  /**
   * A line whose trimmed text starts with 年柱： sets the year pillar from its trimmed rest when
   * that has two or more characters, and changes nothing else.
   */
  lemma ReadYear(f: Fields, line: string)
    requires StartsWith(Trim(line), YearTag)
    ensures ReadLine(f, line) == f.(year := ReadGanZhi(Rest(Trim(line), YearTag), f.year))
  {
    var t := Trim(line);
    TagHeads();
    OtherHead(t, YearTag, SolarTag);
    OtherHead(t, YearTag, TrueSolarTag);
    OtherHead(t, YearTag, LunarTag);
  }

  /** The same for 月柱： and the month pillar. */
  lemma ReadMonth(f: Fields, line: string)
    requires StartsWith(Trim(line), MonthTag)
    ensures ReadLine(f, line) == f.(month := ReadGanZhi(Rest(Trim(line), MonthTag), f.month))
  {
    var t := Trim(line);
    TagHeads();
    OtherHead(t, MonthTag, SolarTag);
    OtherHead(t, MonthTag, TrueSolarTag);
    OtherHead(t, MonthTag, LunarTag);
    OtherHead(t, MonthTag, YearTag);
  }

  /** The same for 日柱： and the day pillar. */
  lemma ReadDay(f: Fields, line: string)
    requires StartsWith(Trim(line), DayTag)
    ensures ReadLine(f, line) == f.(day := ReadGanZhi(Rest(Trim(line), DayTag), f.day))
  {
    var t := Trim(line);
    TagHeads();
    OtherHead(t, DayTag, SolarTag);
    OtherHead(t, DayTag, TrueSolarTag);
    OtherHead(t, DayTag, LunarTag);
    OtherHead(t, DayTag, YearTag);
    OtherHead(t, DayTag, MonthTag);
  }

  /** The same for 时柱： and the hour pillar. */
  lemma ReadHour(f: Fields, line: string)
    requires StartsWith(Trim(line), HourTag)
    ensures ReadLine(f, line) == f.(hour := ReadGanZhi(Rest(Trim(line), HourTag), f.hour))
  {
    var t := Trim(line);
    TagHeads();
    OtherHead(t, HourTag, SolarTag);
    OtherHead(t, HourTag, TrueSolarTag);
    OtherHead(t, HourTag, LunarTag);
    OtherHead(t, HourTag, YearTag);
    OtherHead(t, HourTag, MonthTag);
    OtherHead(t, HourTag, DayTag);
  }

  /** A 真太阳时 line is kept whole, trimmed of spaces. */
  lemma ReadTrueSolar(f: Fields, line: string)
    requires StartsWith(Trim(line), TrueSolarTag)
    ensures ReadLine(f, line) == f.(trueSolar := Trim(line))
  {
    TagHeads();
    OtherHead(Trim(line), TrueSolarTag, SolarTag);
  }

  /** The 公历：, 农历：, 日柱纳音： and 性别： lines store their trimmed rest. */
  lemma ReadLabels(f: Fields, line: string)
    ensures StartsWith(Trim(line), SolarTag) ==> ReadLine(f, line) == f.(solar := Rest(Trim(line), SolarTag))
    ensures StartsWith(Trim(line), LunarTag) ==> ReadLine(f, line) == f.(lunar := Rest(Trim(line), LunarTag))
    ensures StartsWith(Trim(line), NaYinTag) ==> ReadLine(f, line) == f.(dayNaYin := Rest(Trim(line), NaYinTag))
    ensures StartsWith(Trim(line), GenderTag) ==> ReadLine(f, line) == f.(gender := Some(Rest(Trim(line), GenderTag)))
  {
    var t := Trim(line);
    TagHeads();
    if StartsWith(t, LunarTag) {
      OtherHead(t, LunarTag, SolarTag);
      OtherHead(t, LunarTag, TrueSolarTag);
    }
    if StartsWith(t, NaYinTag) {
      NaYinNotDay(t);
      OtherHead(t, NaYinTag, SolarTag);
      OtherHead(t, NaYinTag, TrueSolarTag);
      OtherHead(t, NaYinTag, LunarTag);
      OtherHead(t, NaYinTag, YearTag);
      OtherHead(t, NaYinTag, MonthTag);
      OtherHead(t, NaYinTag, HourTag);
    }
    if StartsWith(t, GenderTag) {
      OtherHead(t, GenderTag, SolarTag);
      OtherHead(t, GenderTag, TrueSolarTag);
      OtherHead(t, GenderTag, LunarTag);
      OtherHead(t, GenderTag, YearTag);
      OtherHead(t, GenderTag, MonthTag);
      OtherHead(t, GenderTag, DayTag);
      OtherHead(t, GenderTag, HourTag);
      OtherHead(t, GenderTag, NaYinTag);
    }
  }

  /** 日柱纳音： is not read as the day pillar: its third character is 纳, not ：. */
  lemma NaYinNotDay(t: string)
    requires StartsWith(t, NaYinTag)
    ensures !StartsWith(t, DayTag)
  {
    TagHeads();
    assert t[2] == t[..|NaYinTag|][2];
  }

  /** A line that starts with no tag changes nothing. */
  lemma ReadOther(f: Fields, line: string)
    requires var t := Trim(line);
      !StartsWith(t, SolarTag) && !StartsWith(t, TrueSolarTag) && !StartsWith(t, LunarTag) && !StartsWith(t, YearTag)
      && !StartsWith(t, MonthTag) && !StartsWith(t, DayTag) && !StartsWith(t, HourTag) && !StartsWith(t, NaYinTag)
      && !StartsWith(t, GenderTag)
    ensures ReadLine(f, line) == f
  {
  }
}
