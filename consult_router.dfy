/**
 * The hand-off from the chart, draw and divination screens to the consultation chat: each builds
 * a prompt, parks it as the pending prompt and asks for the consultation tab.
 */
module ConsultRouter {
  import opened Wrappers
  import opened Text
  import opened ProfileModels
  import opened Divination

  const ChartPrefix := "请根据以下排盘信息进行命理分析：\n\n"
  const DrawHeader := "请结合用户八字信息与今日抽卡结果进行解读与建议，语气温和、具体可执行："
  const OneThingHeader := "请基于以下一事一测六爻排卦信息，先给结论，再给可执行建议，语言清晰、直白："
  const NoMovingLines := "无动爻"

  /** `askAI(withChartText:)`'s prompt. */
  function ChartPrompt(chartText: string): string {
    ChartPrefix + chartText
  }

  /** The chart prompt is the fixed prefix followed by the chart text, unchanged. */
  lemma ChartPromptMeaning(chartText: string)
    ensures StartsWith(ChartPrompt(chartText), ChartPrefix)
    ensures ChartPrompt(chartText)[|ChartPrefix|..] == chartText
  {
    assert ChartPrompt(chartText)[..|ChartPrefix|] == ChartPrefix;
  }

  /** The chart block: present only for a chart text that is not blank. */
  function BaziSection(chartText: Option<string>): string {
    if chartText.Some? && TrimWhite(chartText.value) != [] then "\n八字排盘信息：\n" + chartText.value + "\n"
    else ""
  }

  /** The block is empty exactly for a missing or blank chart text, and otherwise holds it verbatim. */
  lemma BaziSectionMeaning(chartText: Option<string>)
    ensures BaziSection(chartText) == "" <==> chartText.None? || AllWhite(chartText.value)
    ensures chartText.Some? && !AllWhite(chartText.value) ==> Contains(BaziSection(chartText), chartText.value)
  {
    if chartText.Some? {
      TrimWhiteEmpty(chartText.value);
      if !AllWhite(chartText.value) {
        var head := "\n八字排盘信息：\n";
        assert BaziSection(chartText) == head + (chartText.value + "\n");
        assert StartsWith(chartText.value + "\n", chartText.value);
        OccursContains(chartText.value + "\n", chartText.value, 0);
        ContainsRight(head, chartText.value + "\n", chartText.value);
      }
    }
  }

  /**
   * The profile block both readings send. `place` is the profile's `location.fullDisplayText`,
   * which is not part of this model.
   */
  function ProfileText(p: UserProfile, place: string): string {
    "用户档案信息：\n- 姓名：" + p.name + "\n- 性别：" + GenderRaw(p.gender) + "\n- 出生地：" + place
    + "\n- 出生时间（阳历）：" + FormatDateComponents(p.birthInfo.solar)
    + "\n- 出生时间（阴历）：" + FormatDateComponents(p.birthInfo.lunar)
    + "\n- 真太阳时：" + FormatDateComponents(p.trueSolar)
  }

  /** The fields of a daily card the prompt quotes. */
  datatype DrawCard = DrawCard(date: string, cardName: string, keywords: seq<string>, interpretation: string, advice: string)

  /** The card's block, after the chart block. */
  function DrawTail(card: DrawCard): string {
    "\n\n抽卡结果：\n- 日期：" + card.date + "\n- 卡名：" + card.cardName + "\n- 关键词：" + Join(card.keywords, "、")
    + "\n- 解读：" + card.interpretation + "\n- 建议：" + card.advice
  }

  /** `askAI(withDrawResult:profile:chartText:)`'s prompt. */
  function DrawPrompt(card: DrawCard, p: UserProfile, place: string, chartText: Option<string>): string {
    DrawHeader + "\n\n" + ProfileText(p, place) + "\n\n" + BaziSection(chartText) + DrawTail(card)
  }

  /** One of the six relatives of a reading. */
  datatype Relative = Relative(line: int, role: string, element: string, note: string)

  /** The divination fields the prompt quotes. */
  datatype Reading = Reading(
    question: string,
    startedAt: string,
    year: string,
    month: string,
    day: string,
    hour: string,
    lunarLabel: string,
    primaryName: string,
    changedName: string,
    movingLines: seq<int>,
    conclusion: string,
    summary: string,
    fiveElements: string,
    advice: string,
    relatives: seq<Relative>)

  /** The moving lines as given, joined by "、", or "无动爻". */
  function MovingLinesSummary(lines: seq<int>): string {
    if lines == [] then NoMovingLines else Join(Numbers(lines), "、")
  }

  /**
   * The text is "无动爻" exactly when no line moves; otherwise, split at "、", it gives back each
   * line's number in the order given.
   */
  lemma MovingLinesSummaryMeaning(lines: seq<int>)
    ensures MovingLinesSummary(lines) == NoMovingLines <==> lines == []
    ensures lines != [] ==> Split(MovingLinesSummary(lines), IsListSep) == Numbers(lines)
  {
    if lines != [] {
      JoinedNumbers(lines);
    }
  }

  /** One relative's line: its position name, role, element and note. */
  function RelativeLine(r: Relative): string {
    LineName(r.line) + "：" + r.role + "(" + r.element + ")，" + r.note
  }

  function RelativeLines(rs: seq<Relative>): seq<string> {
    seq(|rs|, i requires 0 <= i < |rs| => RelativeLine(rs[i]))
  }

  /** A text without a line feed. */
  predicate OneLine(s: string) {
    forall i :: 0 <= i < |s| ==> !IsLineFeed(s[i])
  }

  lemma OneLineConcat(a: string, b: string)
    ensures OneLine(a + b) <==> OneLine(a) && OneLine(b)
  {
    if OneLine(a + b) {
      forall i | 0 <= i < |a| ensures !IsLineFeed(a[i]) {
        assert a[i] == (a + b)[i];
      }
      forall i | 0 <= i < |b| ensures !IsLineFeed(b[i]) {
        assert b[i] == (a + b)[|a| + i];
      }
    }
  }

  /** A relative whose texts are single lines gives a single line. */
  lemma RelativeLineOneLine(r: Relative)
    requires OneLine(r.role) && OneLine(r.element) && OneLine(r.note)
    ensures OneLine(RelativeLine(r))
  {
    if !(1 <= r.line <= 6) {
      IntToStringShape(r.line);
      OneLineConcat(IntToString(r.line), "爻");
    }
    var name := LineName(r.line);
    OneLineConcat(name, "：");
    OneLineConcat(name + "：", r.role);
    OneLineConcat(name + "：" + r.role, "(");
    OneLineConcat(name + "：" + r.role + "(", r.element);
    OneLineConcat(name + "：" + r.role + "(" + r.element, ")，");
    OneLineConcat(name + "：" + r.role + "(" + r.element + ")，", r.note);
  }

  /**
   * The six-relatives block has one line per relative, in the reading's order, as long as no role,
   * element or note spans lines.
   */
  lemma RelativesBlockLines(rs: seq<Relative>)
    requires rs != []
    requires forall k :: 0 <= k < |rs| ==> OneLine(rs[k].role) && OneLine(rs[k].element) && OneLine(rs[k].note)
    ensures Split(Join(RelativeLines(rs), "\n"), IsLineFeed) == RelativeLines(rs)
  {
    var lines := RelativeLines(rs);
    forall k | 0 <= k < |lines| ensures OneLine(lines[k]) {
      RelativeLineOneLine(rs[k]);
    }
    SplitJoin(lines, '\n', IsLineFeed);
  }

  /** The reading's block, after the chart block. */
  function ReadingTail(r: Reading): string {
    "\n\n问题：" + r.question + "\n起卦时间：" + r.startedAt
    + "\n干支：" + r.year + "年 " + r.month + "月 " + r.day + "日 " + r.hour + "时"
    + "\n农历：" + r.lunarLabel + "\n本卦：" + r.primaryName + "\n变卦：" + r.changedName
    + "\n动爻：" + MovingLinesSummary(r.movingLines)
    + "\n\n当前系统解读：\n- 结论：" + r.conclusion + "\n- 概览：" + r.summary
    + "\n- 五行分析：" + r.fiveElements + "\n- 建议：" + r.advice
    + "\n- 六亲：\n" + Join(RelativeLines(r.relatives), "\n")
  }

  /** `askAI(withOneThingResult:profile:chartText:)`'s prompt. */
  function ReadingPrompt(r: Reading, p: UserProfile, place: string, chartText: Option<string>): string {
    OneThingHeader + "\n\n" + ProfileText(p, place) + "\n\n" + BaziSection(chartText) + ReadingTail(r)
  }

  /** A text around a block that holds a needle holds it as well. */
  lemma ContainsAround(head: string, block: string, tail: string, needle: string)
    requires Contains(block, needle)
    ensures Contains(head + block + tail, needle)
  {
    ContainsLeft(block, tail, needle);
    ContainsRight(head, block + tail, needle);
    assert head + block + tail == head + (block + tail);
  }

  /**
   * A prompt built around a chart block holds the chart text whenever it is not blank, and is just
   * its two other parts otherwise.
   */
  lemma ChartInPrompt(head: string, chartText: Option<string>, tail: string)
    ensures chartText.Some? && !AllWhite(chartText.value) ==> Contains(head + BaziSection(chartText) + tail, chartText.value)
    ensures chartText.None? || AllWhite(chartText.value) ==> head + BaziSection(chartText) + tail == head + tail
  {
    BaziSectionMeaning(chartText);
    var block := BaziSection(chartText);
    if chartText.Some? && !AllWhite(chartText.value) {
      ContainsAround(head, block, tail, chartText.value);
    } else {
      assert head + block == head;
    }
  }

  /** The draw prompt quotes the chart text when one is given, and leaves the block out otherwise. */
  lemma DrawPromptCarriesChart(card: DrawCard, p: UserProfile, place: string, chartText: Option<string>)
    ensures chartText.Some? && !AllWhite(chartText.value) ==> Contains(DrawPrompt(card, p, place, chartText), chartText.value)
    ensures chartText.None? || AllWhite(chartText.value) ==>
      DrawPrompt(card, p, place, chartText) == DrawHeader + "\n\n" + ProfileText(p, place) + "\n\n" + DrawTail(card)
  {
    ChartInPrompt(DrawHeader + "\n\n" + ProfileText(p, place) + "\n\n", chartText, DrawTail(card));
  }

  /** The same for the divination prompt. */
  lemma ReadingPromptCarriesChart(r: Reading, p: UserProfile, place: string, chartText: Option<string>)
    ensures chartText.Some? && !AllWhite(chartText.value) ==> Contains(ReadingPrompt(r, p, place, chartText), chartText.value)
    ensures chartText.None? || AllWhite(chartText.value) ==>
      ReadingPrompt(r, p, place, chartText) == OneThingHeader + "\n\n" + ProfileText(p, place) + "\n\n" + ReadingTail(r)
  {
    ChartInPrompt(OneThingHeader + "\n\n" + ProfileText(p, place) + "\n\n", chartText, ReadingTail(r));
  }

  /** `ConsultRouter`. */
  class Router {
    var pendingChartPrompt: Option<string>
    var switchToConsultTab: bool

    constructor()
      ensures pendingChartPrompt.None? && !switchToConsultTab
    {
      pendingChartPrompt, switchToConsultTab := None, false;
    }

    method AskWithChart(chartText: string)
      modifies this
      ensures pendingChartPrompt == Some(ChartPrompt(chartText)) && switchToConsultTab
    {
      pendingChartPrompt := Some(ChartPrompt(chartText));
      switchToConsultTab := true;
    }

    method AskWithDraw(card: DrawCard, p: UserProfile, place: string, chartText: Option<string>)
      modifies this
      ensures pendingChartPrompt == Some(DrawPrompt(card, p, place, chartText)) && switchToConsultTab
    {
      pendingChartPrompt := Some(DrawPrompt(card, p, place, chartText));
      switchToConsultTab := true;
    }

    method AskWithReading(r: Reading, p: UserProfile, place: string, chartText: Option<string>)
      modifies this
      ensures pendingChartPrompt == Some(ReadingPrompt(r, p, place, chartText)) && switchToConsultTab
    {
      pendingChartPrompt := Some(ReadingPrompt(r, p, place, chartText));
      switchToConsultTab := true;
    }

    /** `clearPendingChart`: the prompt is dropped, the tab request stays. */
    method ClearPendingChart()
      modifies this
      ensures pendingChartPrompt.None? && switchToConsultTab == old(switchToConsultTab)
    {
      pendingChartPrompt := None;
    }
  }
}
