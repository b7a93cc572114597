/**
  The demo scenario catalog of the Bio-OS console and the display labels of the
  action priorities. The catalog is a fixed lookup table: a scenario label selects
  the two zones' readings, an ordered cause list and an ordered action list, and
  every label outside the table selects the routine entry.
 */
module App {
  import opened Common

  datatype Option<T> = None | Some(value: T)

  /**
    Fixed-point rendering of a reading with the given number of decimals
    (Python's `:.1f` and `:.2f`); supplied by the caller, not modelled.
   */
  type Formatter = (real, nat) -> string

  // ---------------------------------------------------------------------------
  // Scenario labels
  // ---------------------------------------------------------------------------

  const RoutineLabel: string := "일반"
  const OxygenDropLabel: string := "산소량 급락"
  const FlowDropLabel: string := "물 흐름 저하"
  const FiltrationLoadLabel: string := "여과 부담 증가"

  /** The labels with their own catalog entry. */
  predicate IsNamedScenario(scenario: string)
  {
    scenario == OxygenDropLabel || scenario == FlowDropLabel || scenario == FiltrationLoadLabel
  }

  // ---------------------------------------------------------------------------
  // Catalog entries
  // ---------------------------------------------------------------------------

  /** One row of the catalog: both zones' readings, the causes and the actions. */
  datatype Entry = Entry(loopA: ZoneMetrics, loopB: ZoneMetrics, causes: seq<Cause>, actions: seq<Action>)

  /** Routine readings of zone A, which every scenario starts from. */
  const RoutineLoopA: ZoneMetrics := ZoneMetrics(52.0, 1, 0.18, 0.74, 7.1, 16.7, 7.82, 31.1)
  /** Routine readings of zone B, which every scenario starts from. */
  const RoutineLoopB: ZoneMetrics := ZoneMetrics(44.0, 0, 0.12, 0.61, 7.4, 16.6, 7.88, 31.0)

  /**
    The catalog. Each named scenario overwrites all eight readings of both
    zones, so its update is a whole-record replacement; any other label keeps
    the routine readings.
   */
  function Lookup(scenario: string): Entry
  {
    if scenario == OxygenDropLabel then
      Entry(
        ZoneMetrics(82.0, 9, 0.48, 0.92, 5.3, 16.8, 7.68, 31.2),
        ZoneMetrics(34.0, 0, 0.05, 0.38, 7.7, 16.6, 7.92, 31.0),
        [Cause("산소량 급락", 0.52), Cause("출렁임 증가", 0.31), Cause("설비 사용률 상승", 0.17)],
        [Action(P1, "산소 공급 단계 상향", "즉시"), Action(P2, "산소 라인 점검", "오늘"),
         Action(P3, "여유 용량 검토", "계획")])
    else if scenario == FlowDropLabel then
      Entry(
        ZoneMetrics(63.0, 2, 0.28, 0.88, 6.6, 16.7, 7.74, 31.1),
        ZoneMetrics(41.0, 1, 0.12, 0.62, 7.2, 16.6, 7.88, 31.0),
        [Cause("물 흐름 저하", 0.46), Cause("설비 사용률 상승", 0.29), Cause("산소량 변동", 0.25)],
        [Action(P1, "펌프/밸브 점검 및 유량 복구", "즉시"), Action(P2, "배관/필터 점검", "오늘"),
         Action(P3, "예비 펌프/라인 계획", "계획")])
    else if scenario == FiltrationLoadLabel then
      Entry(
        ZoneMetrics(58.0, 1, 0.22, 0.84, 6.9, 16.8, 7.55, 31.2),
        ZoneMetrics(46.0, 0, 0.15, 0.66, 7.4, 16.6, 7.83, 31.0),
        [Cause("여과 부담 증가", 0.44), Cause("pH 하락", 0.33), Cause("설비 사용률 상승", 0.23)],
        [Action(P1, "여과 단계 강화/역세척 점검", "즉시"), Action(P2, "pH 안정화 점검", "오늘"),
         Action(P3, "여과 용량 증설 검토", "계획")])
    else
      Entry(
        RoutineLoopA,
        RoutineLoopB,
        [Cause("정상 변동", 0.41), Cause("운영 조건", 0.33), Cause("설비 사용률", 0.26)],
        [Action(P2, "일일 점검 수행", "오늘"), Action(P3, "운영 기록 정리", "계획")])
  }

  /** The four evidence lines: zone A's readings, each with its reference band. */
  function Evidence(a: ZoneMetrics, fmt: Formatter): (lines: seq<string>)
    ensures |lines| == 4
  {
    [ "산소량(용존산소) " + fmt(a.dissolvedOxygen, 1) + " (기준 6.0~10.0)",
      "물 온도 " + fmt(a.temp, 1) + " (기준 14.0~20.0)",
      "물 산도(pH) " + fmt(a.ph, 2) + " (기준 7.6~8.3)",
      "염도 " + fmt(a.salinity, 1) + " (기준 28.0~34.0)" ]
  }

  /** Cause weights fall strictly from first to last. */
  predicate StrictlyDecreasing(cs: seq<Cause>)
  {
    forall i, j :: 0 <= i < j < |cs| ==> cs[i].weight > cs[j].weight
  }

  /** Every cause weight is a fraction. */
  predicate WeightsAreFractions(cs: seq<Cause>)
  {
    forall i :: 0 <= i < |cs| ==> 0.0 <= cs[i].weight <= 1.0
  }

  /** The priorities of a list of actions, in order. */
  function Priorities(actions: seq<Action>): (ps: seq<Priority>)
    ensures |ps| == |actions|
    ensures forall i :: 0 <= i < |actions| ==> ps[i] == actions[i].priority
  {
    if actions == [] then [] else [actions[0].priority] + Priorities(actions[1..])
  }

  /**
    `load_latest_metrics`: the catalog entry of the scenario together with the
    evidence lines built from zone A's readings. Every entry has three causes
    with strictly falling fractional weights, both zones in their domain, and
    zone A strictly riskier than zone B.
   */
  function LoadLatestMetrics(scenario: string, fmt: Formatter): (m: Metrics)
    ensures m.evidence == Evidence(m.loopA, fmt)
    ensures |m.causes| == 3
    ensures StrictlyDecreasing(m.causes) && WeightsAreFractions(m.causes)
    ensures InDomain(m.loopA) && InDomain(m.loopB)
    ensures m.loopA.risk > m.loopB.risk
    ensures IsNamedScenario(scenario) ==> m.causes[0].name == scenario
    ensures IsNamedScenario(scenario) ==> Priorities(m.actions) == [P1, P2, P3]
    ensures !IsNamedScenario(scenario) ==>
      && m.loopA == RoutineLoopA && m.loopB == RoutineLoopB
      && Labels(m.causes) == ["정상 변동", "운영 조건", "설비 사용률"]
      && Priorities(m.actions) == [P2, P3]
  {
    var e := Lookup(scenario);
    Metrics(e.loopA, e.loopB, e.causes, e.actions, Evidence(e.loopA, fmt))
  }

  /** The zone risks of each catalog row: A is 52/82/63/58 and B is 44/34/41/46. */
  lemma CatalogRisks(scenario: string, fmt: Formatter)
    ensures var m := LoadLatestMetrics(scenario, fmt);
      && (scenario == OxygenDropLabel ==> m.loopA.risk == 82.0 && m.loopB.risk == 34.0)
      && (scenario == FlowDropLabel ==> m.loopA.risk == 63.0 && m.loopB.risk == 41.0)
      && (scenario == FiltrationLoadLabel ==> m.loopA.risk == 58.0 && m.loopB.risk == 46.0)
      && (!IsNamedScenario(scenario) ==> m.loopA.risk == 52.0 && m.loopB.risk == 44.0)
  {
  }

  /** Any label outside the catalog gives exactly the routine entry. */
  lemma UnknownScenarioFallsBack(scenario: string, fmt: Formatter)
    requires !IsNamedScenario(scenario)
    ensures LoadLatestMetrics(scenario, fmt) == LoadLatestMetrics(RoutineLabel, fmt)
  {
  }

  /** The routine entry has no act-now action: its front action is an inspect-today one. */
  lemma RoutineHasNoActNowAction(scenario: string, fmt: Formatter, meta: DocMeta, now: string)
    requires !IsNamedScenario(scenario)
    ensures var m := LoadLatestMetrics(scenario, fmt);
      && P1 !in Priorities(m.actions)
      && m.actions[0].priority == P2
      && BuildReportPayload(m, meta, now).p1 == m.actions[0].description
  {
  }

  /** A catalog payload always blames zone A and keeps the three catalog causes in order. */
  lemma CatalogPayload(scenario: string, fmt: Formatter, meta: DocMeta, now: string)
    ensures var m := LoadLatestMetrics(scenario, fmt);
      var p := BuildReportPayload(m, meta, now);
      && p.culprit == ZoneA
      && p.rMax == m.loopA.risk
      && p.causes == m.causes
      && p.causesTopNames == Labels(m.causes)
      && |p.evidence| == 4
      && p.evidence == Evidence(p.loopA, fmt)
  {
  }

  /** The oxygen-drop scenario, end to end. */
  lemma OxygenDropExample(fmt: Formatter, meta: DocMeta, now: string)
    ensures var p := BuildReportPayload(LoadLatestMetrics(OxygenDropLabel, fmt), meta, now);
      && p.rMax == 82.0
      && p.culprit == ZoneA
      && p.status == Critical
      && p.expansionStage == ImmediateExpansionReview
      && p.shock24h == 9
      && p.exposure7dPct == 48.0
      && p.utilPct == 92.0
      && p.causes[0] == Cause("산소량 급락", 0.52)
      && p.p1 == "산소 공급 단계 상향"
  {
  }

  // ---------------------------------------------------------------------------
  // Priority labels
  // ---------------------------------------------------------------------------

  /** The code of a priority as it appears in an action tuple. */
  function Code(p: Priority): string
  {
    match p
    case P1 => "P1"
    case P2 => "P2"
    case P3 => "P3"
  }

  /** The priority a code stands for, if any. */
  function ParsePriority(code: string): (p: Option<Priority>)
    ensures p.Some? ==> Code(p.value) == code
    ensures p.None? ==> code != "P1" && code != "P2" && code != "P3"
  {
    if code == "P1" then Some(P1)
    else if code == "P2" then Some(P2)
    else if code == "P3" then Some(P3)
    else None
  }

  /** Reading back a priority's code gives the priority. */
  lemma ParseCodeRoundTrip(p: Priority)
    ensures ParsePriority(Code(p)) == Some(p)
  {
  }

  /** The fixed display label of each priority. */
  function Meaning(p: Priority): string
  {
    match p
    case P1 => "지금 바로 조치"
    case P2 => "오늘 안에 점검"
    case P3 => "계획 수립 필요"
  }

  /** The label shown for a priority code: its fixed label, or the code itself when unknown. */
  function PriorityLabel(code: string): (shown: string)
    ensures code == "P1" ==> shown == "지금 바로 조치"
    ensures code == "P2" ==> shown == "오늘 안에 점검"
    ensures code == "P3" ==> shown == "계획 수립 필요"
    ensures code != "P1" && code != "P2" && code != "P3" ==> shown == code
  {
    match ParsePriority(code)
    case Some(p) => Meaning(p)
    case None => code
  }

  /** Every catalog action is shown with the fixed label of its priority. */
  lemma CatalogActionLabels(scenario: string, fmt: Formatter, i: nat)
    requires i < |LoadLatestMetrics(scenario, fmt).actions|
    ensures var a := LoadLatestMetrics(scenario, fmt).actions[i];
      PriorityLabel(Code(a.priority)) == Meaning(a.priority)
  {
  }

  // ---------------------------------------------------------------------------
  // Evidence shown by the renderers
  // ---------------------------------------------------------------------------

  /** How many evidence lines a renderer shows at most. */
  const MaxShownEvidence: nat := 6

  /** The evidence lines a renderer shows: the first six, in order. */
  function ShownEvidence(evidence: seq<string>): (shown: seq<string>)
    ensures |shown| == Min(MaxShownEvidence, |evidence|)
    ensures shown <= evidence
    ensures |evidence| <= MaxShownEvidence ==> shown == evidence
  {
    evidence[..Min(MaxShownEvidence, |evidence|)]
  }
}
