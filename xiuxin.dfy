/**
 * The merit screen: tapping one of the five elements strikes the wooden fish, counts one for that
 * element, floats a "+1" badge, and (re)starts a three-second wait after which the counts so far
 * are shown as a summary and start again from zero. Timers arrive as events; the UUIDs the
 * source draws for badges and waits are numbered instead, which keeps them fresh.
 */
module XiuXin {
  import opened Wrappers
  import opened Lists

  /** `XiuXinElement`. */
  datatype Element = Metal | Wood | Water | Fire | Earth

  function EffectText(e: Element): string {
    match e
    case Metal => "功德"
    case Wood => "治愈"
    case Water => "气运"
    case Fire => "事业"
    case Earth => "爱情"
  }

  /** A floating "+1" badge; `faded` is the end state of its animation. */
  datatype FloatingEffect = FloatingEffect(id: nat, text: string, faded: bool)

  /** The screen's state. */
  datatype Merit = Merit(
    selected: Element,
    effects: seq<FloatingEffect>,
    counters: map<Element, int>,
    showSummary: bool,
    summaryValues: map<Element, int>,
    summaryToken: nat,
    nextEffectId: nat)

  const Initial := Merit(Metal, [], map[], false, map[], 0, 0)

  /** `counters[e] ?? 0`. */
  function Count(m: map<Element, int>, e: Element): int {
    if e in m then m[e] else 0
  }

  /** The merit of all five elements. */
  function Total(m: map<Element, int>): int {
    Count(m, Metal) + Count(m, Wood) + Count(m, Water) + Count(m, Fire) + Count(m, Earth)
  }

  /** Every badge was numbered before the next number. */
  predicate Valid(s: Merit) {
    forall k :: 0 <= k < |s.effects| ==> s.effects[k].id < s.nextEffectId
  }

  function EffectKey(e: FloatingEffect): nat {
    e.id
  }

  /** `floatingEffects.firstIndex(where: { $0.id == id })`. */
  function EffectIndex(effects: seq<FloatingEffect>, id: nat): Option<nat> {
    IndexOfKey(effects, EffectKey, id)
  }

  /** `animateFloatingEffect`'s first half: the first badge with the id starts fading. */
  function Faded(effects: seq<FloatingEffect>, id: nat): seq<FloatingEffect> {
    match EffectIndex(effects, id)
    case None => effects
    case Some(i) => effects[i := effects[i].(faded := true)]
  }

  /** `floatingEffects.removeAll { $0.id == id }`, once the fade is over. */
  function WithoutEffect(effects: seq<FloatingEffect>, id: nat): seq<FloatingEffect> {
    WithoutKey(effects, EffectKey, id)
  }

  /** `scheduleSummary`: any wait is superseded by a new token, and the summary hides. */
  function Scheduled(s: Merit): Merit {
    s.(showSummary := false, summaryToken := s.summaryToken + 1)
  }

  /** `triggerEffect`: one more for the element, one new fading badge, and a new wait. */
  function Triggered(s: Merit, e: Element): Merit {
    var counters := s.counters[e := Count(s.counters, e) + 1];
    var badge := FloatingEffect(s.nextEffectId, EffectText(e) + "+1", false);
    var effects := Faded(s.effects + [badge], badge.id);
    Scheduled(s.(counters := counters, effects := effects, nextEffectId := s.nextEffectId + 1))
  }

  /** An element button: selected, then triggered. */
  function Tapped(s: Merit, e: Element): Merit {
    Triggered(s.(selected := e), e)
  }

  /** The end of a three-second wait: only the current token shows the summary and resets the counts. */
  function SummaryFired(s: Merit, token: nat): Merit {
    if token != s.summaryToken then s
    else s.(summaryValues := s.counters, counters := map[], showSummary := true)
  }

  /** The end of the badge's fade. */
  function EffectExpired(s: Merit, id: nat): Merit {
    s.(effects := WithoutEffect(s.effects, id))
  }

  /**
   * A trigger counts exactly one for its element, an absent count as zero, and leaves the others;
   * the total merit grows by one.
   */
  lemma TriggeredCounts(s: Merit, e: Element)
    ensures Count(Triggered(s, e).counters, e) == Count(s.counters, e) + 1
    ensures forall x :: x != e ==> Count(Triggered(s, e).counters, x) == Count(s.counters, x)
    ensures Total(Triggered(s, e).counters) == Total(s.counters) + 1
    ensures Triggered(s, e).counters.Keys == s.counters.Keys + {e}
  {
  }

  /** A badge whose id no earlier one has is found at the end. */
  lemma IndexOfNew(effects: seq<FloatingEffect>, badge: FloatingEffect)
    requires forall k :: 0 <= k < |effects| ==> effects[k].id != badge.id
    ensures EffectIndex(effects + [badge], badge.id) == Some(|effects|)
  {
    var all := effects + [badge];
    assert EffectKey(all[|effects|]) == badge.id;
    assert forall k :: 0 <= k < |effects| ==> EffectKey(all[k]) != badge.id;
  }

  /** On numbered badges a trigger appends exactly one badge, the new one, already fading. */
  lemma TriggeredLabel(s: Merit, e: Element)
    requires Valid(s)
    ensures Valid(Triggered(s, e))
    ensures Triggered(s, e).effects == s.effects + [FloatingEffect(s.nextEffectId, EffectText(e) + "+1", true)]
  {
    var badge := FloatingEffect(s.nextEffectId, EffectText(e) + "+1", false);
    IndexOfNew(s.effects, badge);
  }

  /**
   * Every schedule hides the summary and issues a token no earlier wait holds, so a wait started
   * before any later trigger never fires.
   */
  lemma StaleWaitIgnored(s: Merit, e: Element, token: nat)
    requires token <= s.summaryToken
    ensures !Triggered(s, e).showSummary
    ensures Triggered(s, e).summaryToken > token
    ensures SummaryFired(Triggered(s, e), token) == Triggered(s, e)
  {
  }

  /**
   * The current wait copies the counts to the summary and empties them; no merit is lost, the
   * summary holds the total the counters had.
   */
  lemma SummaryFiredMeaning(s: Merit)
    ensures var t := SummaryFired(s, s.summaryToken);
      && t.summaryValues == s.counters && t.counters == map[] && t.showSummary
      && Total(t.summaryValues) == Total(s.counters) && Total(t.counters) == 0
      && t.effects == s.effects && t.summaryToken == s.summaryToken
  {
  }

  /** A run of taps, the last one's wait then firing: the summary counts each element's taps. */
  function Taps(s: Merit, es: seq<Element>): Merit {
    if es == [] then s else Tapped(Taps(s, es[..|es| - 1]), es[|es| - 1])
  }

  function Occurrences(es: seq<Element>, e: Element): nat {
    if es == [] then 0 else Occurrences(es[..|es| - 1], e) + (if es[|es| - 1] == e then 1 else 0)
  }

  lemma {:induction false} TapsCount(s: Merit, es: seq<Element>, e: Element)
    ensures Count(Taps(s, es).counters, e) == Count(s.counters, e) + Occurrences(es, e)
  {
    if es != [] {
      var prior := Taps(s, es[..|es| - 1]);
      TapsCount(s, es[..|es| - 1], e);
      TriggeredCounts(prior.(selected := es[|es| - 1]), es[|es| - 1]);
    }
  }

  lemma SummaryAfterTaps(es: seq<Element>, e: Element)
    requires es != []
    ensures var t := Taps(Initial, es);
      Count(SummaryFired(t, t.summaryToken).summaryValues, e) == Occurrences(es, e)
  {
    TapsCount(Initial, es, e);
  }

  /** `XiuXinView`'s state. */
  class MeritScreen {
    var selected: Element
    var effects: seq<FloatingEffect>
    var counters: map<Element, int>
    var showSummary: bool
    var summaryValues: map<Element, int>
    var summaryToken: nat
    var nextEffectId: nat

    function Snapshot(): Merit
      reads this
    {
      Merit(selected, effects, counters, showSummary, summaryValues, summaryToken, nextEffectId)
    }

    constructor()
      ensures Snapshot() == Initial
    {
      selected, effects, counters, showSummary := Metal, [], map[], false;
      summaryValues, summaryToken, nextEffectId := map[], 0, 0;
    }

    /** An element button; `token` is the one the new wait holds. */
    method Tap(e: Element) returns (token: nat)
      modifies this
      ensures Snapshot() == Tapped(old(Snapshot()), e)
      ensures token == summaryToken
    {
      selected := e;
      token := TriggerEffect(e);
    }

    method TriggerEffect(e: Element) returns (token: nat)
      modifies this
      ensures Snapshot() == Triggered(old(Snapshot()), e)
      ensures token == summaryToken
    {
      var count := Count(counters, e) + 1;
      counters := counters[e := count];
      var badge := FloatingEffect(nextEffectId, EffectText(e) + "+1", false);
      nextEffectId := nextEffectId + 1;
      effects := effects + [badge];
      AnimateFloatingEffect(badge.id);
      token := ScheduleSummary();
    }

    /** The start of a badge's fade. */
    method AnimateFloatingEffect(id: nat)
      modifies this
      ensures Snapshot() == old(Snapshot()).(effects := Faded(old(effects), id))
    {
      var i := EffectIndex(effects, id);
      if i.None? {
        return;
      }
      effects := effects[i.value := effects[i.value].(faded := true)];
    }

    /** The end of a badge's fade. */
    method RemoveEffect(id: nat)
      modifies this
      ensures Snapshot() == EffectExpired(old(Snapshot()), id)
    {
      effects := WithoutEffect(effects, id);
    }

    method ScheduleSummary() returns (token: nat)
      modifies this
      ensures Snapshot() == Scheduled(old(Snapshot()))
      ensures token == summaryToken
    {
      showSummary := false;
      summaryToken := summaryToken + 1;
      token := summaryToken;
    }

    /** The end of the wait that holds `token`. */
    method SummaryDue(token: nat)
      modifies this
      ensures Snapshot() == SummaryFired(old(Snapshot()), token)
    {
      if token != summaryToken {
        return;
      }
      summaryValues := counters;
      counters := map[];
      showSummary := true;
    }

    /** The summary's own 1.6-second display ends; it holds no token. */
    method SummaryHidden()
      modifies this
      ensures Snapshot() == old(Snapshot()).(showSummary := false)
    {
      showSummary := false;
    }
  }
}
