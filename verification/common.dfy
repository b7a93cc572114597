/**
  The risk aggregation engine of the Bio-OS console: the two status classifiers,
  the worse-of-two-zones reduction, the expansion-stage ladder, the selection of
  the top causes and of the front action, and the report payload that every
  renderer consumes.

  Scores and fractions are reals and are only compared, never rounded.
 */
module Common {

  // ---------------------------------------------------------------------------
  // Status bands
  // ---------------------------------------------------------------------------

  /** The four status bands, from the calmest to the most severe. */
  datatype Status = Normal | Caution | Watch | Critical

  /** Position of a band on the ladder: 0 for Normal up to 3 for Critical. */
  function Rank(s: Status): nat
  {
    match s
    case Normal => 0
    case Caution => 1
    case Watch => 2
    case Critical => 3
  }

  /** The cut points of the operating standard; each is the lower edge of its band. */
  const CautionCut: real := 40.0
  const WatchCut: real := 60.0
  const CriticalCut: real := 75.0

  /**
    Reference definition of the band index, independent of any if-chain:
    the number of cut points the score has reached.
   */
  function CutsReached(score: real): (n: nat)
    ensures n <= 3
    ensures n == 0 <==> score < CautionCut
    ensures n == 3 <==> CriticalCut <= score
  {
    (if CautionCut <= score then 1 else 0)
    + (if WatchCut <= score then 1 else 0)
    + (if CriticalCut <= score then 1 else 0)
  }

  /** The band a score falls into; its rank is the number of cuts reached. */
  function Classify(score: real): (s: Status)
    ensures Rank(s) == CutsReached(score)
  {
    if score < CautionCut then Normal
    else if score < WatchCut then Caution
    else if score < CriticalCut then Watch
    else Critical
  }

  /** Korean display text of a band. */
  function KoreanName(s: Status): string
  {
    match s
    case Normal => "정상"
    case Caution => "주의"
    case Watch => "경계"
    case Critical => "위험"
  }

  /** English display text of a band. */
  function EnglishName(s: Status): string
  {
    match s
    case Normal => "Normal"
    case Caution => "Caution"
    case Watch => "Watch"
    case Critical => "Critical"
  }

  /** `risk_label_kr`: the Korean label ladder; it names the band of the score. */
  function RiskLabelKr(score: real): (text: string)
    ensures text == KoreanName(Classify(score))
  {
    if score < 40.0 then "정상"
    else if score < 60.0 then "주의"
    else if score < 75.0 then "경계"
    else "위험"
  }

  /** `risk_label_en`: the English label ladder; it names the band of the score. */
  function RiskLabelEn(score: real): (text: string)
    ensures text == EnglishName(Classify(score))
  {
    if score < 40.0 then "Normal"
    else if score < 60.0 then "Caution"
    else if score < 75.0 then "Watch"
    else "Critical"
  }

  /** Every score lies in exactly one of four half-open bands, lower edge inclusive. */
  lemma ClassifyBands(score: real)
    ensures Classify(score) == Normal <==> score < 40.0
    ensures Classify(score) == Caution <==> 40.0 <= score < 60.0
    ensures Classify(score) == Watch <==> 60.0 <= score < 75.0
    ensures Classify(score) == Critical <==> 75.0 <= score
  {
  }

  /** A higher score never lands in a lower band. */
  lemma ClassifyMonotone(s1: real, s2: real)
    requires s1 <= s2
    ensures Rank(Classify(s1)) <= Rank(Classify(s2))
  {
  }

  /** The two languages' labels are distinct per band, so each text determines the band. */
  lemma NamesInjective(s: Status, t: Status)
    ensures KoreanName(s) == KoreanName(t) <==> s == t
    ensures EnglishName(s) == EnglishName(t) <==> s == t
  {
  }

  /**
    The Korean and English classifiers agree on the band: two scores get the
    same Korean label exactly when they get the same English label.
   */
  lemma LabelsAgree(s1: real, s2: real)
    ensures RiskLabelKr(s1) == RiskLabelKr(s2) <==> RiskLabelEn(s1) == RiskLabelEn(s2)
    ensures RiskLabelKr(s1) == RiskLabelKr(s2) <==> Classify(s1) == Classify(s2)
  {
  }

  /** The boundary values of the operating standard. */
  lemma ClassifyAtCutPoints()
    ensures Classify(39.99) == Normal && Classify(40.0) == Caution
    ensures Classify(59.99) == Caution && Classify(60.0) == Watch
    ensures Classify(74.99) == Watch && Classify(75.0) == Critical
  {
  }

  // ---------------------------------------------------------------------------
  // Expansion stage
  // ---------------------------------------------------------------------------

  /** Capacity-planning recommendation, from the most relaxed to the most urgent. */
  datatype Stage = SpareCapacity | OperationalAdjustment | PrepareExpansion | ImmediateExpansionReview

  /** Position of a stage on its ladder: 0 for SpareCapacity up to 3. */
  function StageRank(st: Stage): nat
  {
    match st
    case SpareCapacity => 0
    case OperationalAdjustment => 1
    case PrepareExpansion => 2
    case ImmediateExpansionReview => 3
  }

  /** Korean display text of a stage. */
  function StageText(st: Stage): string
  {
    match st
    case ImmediateExpansionReview => "즉시 증설 검토"
    case PrepareExpansion => "설비 증설 준비"
    case OperationalAdjustment => "운영 조정 필요"
    case SpareCapacity => "설비 여유 있음"
  }

  /**
    The expansion-stage ladder, a separate descending chain of `>=` tests over
    the overall risk; its rank is the number of cuts reached.
   */
  function ExpansionStage(rMax: real): (st: Stage)
    ensures StageRank(st) == CutsReached(rMax)
  {
    if rMax >= 75.0 then ImmediateExpansionReview
    else if rMax >= 60.0 then PrepareExpansion
    else if rMax >= 40.0 then OperationalAdjustment
    else SpareCapacity
  }

  /** The stage ladder and the status ladder always pick the same band. */
  lemma StageTracksStatus(rMax: real)
    ensures StageRank(ExpansionStage(rMax)) == Rank(Classify(rMax))
  {
  }

  /** The boundary values of the stage ladder. */
  lemma StageAtCutPoints()
    ensures ExpansionStage(39.99) == SpareCapacity && ExpansionStage(40.0) == OperationalAdjustment
    ensures ExpansionStage(59.99) == OperationalAdjustment && ExpansionStage(60.0) == PrepareExpansion
    ensures ExpansionStage(74.99) == PrepareExpansion && ExpansionStage(75.0) == ImmediateExpansionReview
  {
  }

  // ---------------------------------------------------------------------------
  // Zones and the worse-of-two rule
  // ---------------------------------------------------------------------------

  datatype Zone = ZoneA | ZoneB

  /** Display name of a zone. */
  function ZoneName(z: Zone): string
  {
    match z
    case ZoneA => "A구역"
    case ZoneB => "B구역"
  }

  /** One zone's readings: risk score, 24-hour shock count, fractions and raw environment values. */
  datatype ZoneMetrics = ZoneMetrics(
    risk: real,
    shock24h: int,
    exposure7d: real,
    util: real,
    dissolvedOxygen: real,
    temp: real,
    ph: real,
    salinity: real)

  /** The intended domain of a zone's figures (the engine does not check it). */
  predicate InDomain(z: ZoneMetrics)
  {
    && 0.0 <= z.risk <= 100.0
    && 0 <= z.shock24h
    && 0.0 <= z.exposure7d <= 1.0
    && 0.0 <= z.util <= 1.0
  }

  /** The readings of the named zone. */
  function ZoneOf(z: Zone, a: ZoneMetrics, b: ZoneMetrics): ZoneMetrics
  {
    if z == ZoneA then a else b
  }

  /** Overall risk: the larger of the two zone risks, never an average. */
  function RMax(a: ZoneMetrics, b: ZoneMetrics): (r: real)
    ensures r >= a.risk && r >= b.risk
    ensures r == a.risk || r == b.risk
  {
    if a.risk >= b.risk then a.risk else b.risk
  }

  /** The zone that sets the overall risk; zone A unless zone B is strictly worse. */
  function Culprit(a: ZoneMetrics, b: ZoneMetrics): (z: Zone)
    ensures ZoneOf(z, a, b).risk == RMax(a, b)
    ensures z == ZoneB ==> b.risk > a.risk
  {
    if a.risk >= b.risk then ZoneA else ZoneB
  }

  /** An exact tie goes to zone A. */
  lemma CulpritTieGoesToA(a: ZoneMetrics, b: ZoneMetrics)
    requires a.risk == b.risk
    ensures Culprit(a, b) == ZoneA
  {
  }

  /** The larger of two fractions, scaled to percent. */
  function PeakPercent(x: real, y: real): (pct: real)
    ensures pct >= 100.0 * x && pct >= 100.0 * y
    ensures pct == 100.0 * x || pct == 100.0 * y
  {
    (if x >= y then x else y) * 100.0
  }

  // ---------------------------------------------------------------------------
  // Causes and actions
  // ---------------------------------------------------------------------------

  /** A cause label with its relative-contribution weight (weights need not sum to 1). */
  datatype Cause = Cause(name: string, weight: real)

  /** Response priority: act now, inspect today, plan. */
  datatype Priority = P1 | P2 | P3

  /** A response action: its priority, what to do, and by when. */
  datatype Action = Action(priority: Priority, description: string, timeframe: string)

  /** Stand-in cause when no cause is reported. */
  const NoAnomaly: Cause := Cause("특이 이상 없음", 1.0)

  /** Stand-in front action when no action is reported. */
  const CheckOperatingConditions: string := "운영 조건 점검"

  /** How many causes the payload keeps. */
  const TopCauseCount: nat := 3

  function Min(x: int, y: int): int
  {
    if x <= y then x else y
  }

  /**
    The causes the payload keeps: the first three, in their reported order, or
    the single stand-in cause when none is reported.
   */
  function TopCauses(causes: seq<Cause>): (top: seq<Cause>)
    ensures causes == [] ==> top == [NoAnomaly]
    ensures causes != [] ==> top <= causes && |top| == Min(TopCauseCount, |causes|)
  {
    var pairs := if causes == [] then [NoAnomaly] else causes;
    pairs[..Min(TopCauseCount, |pairs|)]
  }

  /** The labels of a list of causes, in the same order. */
  function Labels(cs: seq<Cause>): (names: seq<string>)
    ensures |names| == |cs|
    ensures forall i :: 0 <= i < |cs| ==> names[i] == cs[i].name
  {
    if cs == [] then [] else [cs[0].name] + Labels(cs[1..])
  }

  /** The front action: the description of the first action, or the stand-in when there is none. */
  function FrontAction(actions: seq<Action>): (p1: string)
    ensures actions != [] ==> p1 == actions[0].description
    ensures actions == [] ==> p1 == CheckOperatingConditions
  {
    if actions != [] then actions[0].description else CheckOperatingConditions
  }

  // ---------------------------------------------------------------------------
  // The report payload
  // ---------------------------------------------------------------------------

  /** Document metadata: opaque strings owned by the caller and passed through. */
  datatype DocMeta = DocMeta(
    facilityName: string,
    reportPeriod: string,
    reportOwner: string,
    systemVersion: string,
    docId: string,
    rev: string,
    issuer: string,
    logoText: string,
    securityLevel: string,
    revDate: string,
    revDesc: string)

  /** One evaluation's input: both zones, the ordered causes and actions, and evidence lines. */
  datatype Metrics = Metrics(
    loopA: ZoneMetrics,
    loopB: ZoneMetrics,
    causes: seq<Cause>,
    actions: seq<Action>,
    evidence: seq<string>)

  /** The engine's single output, consumed read-only by every renderer. */
  datatype Payload = Payload(
    meta: DocMeta,
    generatedAt: string,
    status: Status,
    rMax: real,
    culprit: Zone,
    causes: seq<Cause>,
    causesTopNames: seq<string>,
    p1: string,
    shock24h: int,
    exposure7dPct: real,
    utilPct: real,
    expansionStage: Stage,
    evidence: seq<string>,
    loopA: ZoneMetrics,
    loopB: ZoneMetrics)

  /**
    `build_report_payload`: reduces the two zones and the cause and action lists
    to one payload. `now` is the generation timestamp, read from the clock by
    the caller.
   */
  function BuildReportPayload(m: Metrics, meta: DocMeta, now: string): (p: Payload)
    // worse of two zones
    ensures p.rMax >= m.loopA.risk && p.rMax >= m.loopB.risk
    ensures p.rMax == m.loopA.risk || p.rMax == m.loopB.risk
    ensures p.culprit == ZoneA <==> m.loopA.risk >= m.loopB.risk
    ensures ZoneOf(p.culprit, m.loopA, m.loopB).risk == p.rMax
    // status and stage
    ensures Rank(p.status) == CutsReached(p.rMax)
    ensures StageRank(p.expansionStage) == Rank(p.status)
    // aggregates
    ensures p.shock24h == m.loopA.shock24h + m.loopB.shock24h
    ensures p.exposure7dPct == 100.0 * m.loopA.exposure7d || p.exposure7dPct == 100.0 * m.loopB.exposure7d
    ensures p.exposure7dPct >= 100.0 * m.loopA.exposure7d && p.exposure7dPct >= 100.0 * m.loopB.exposure7d
    ensures p.utilPct == 100.0 * m.loopA.util || p.utilPct == 100.0 * m.loopB.util
    ensures p.utilPct >= 100.0 * m.loopA.util && p.utilPct >= 100.0 * m.loopB.util
    // causes and front action
    ensures m.causes == [] ==> p.causes == [NoAnomaly]
    ensures m.causes != [] ==> p.causes <= m.causes && |p.causes| == Min(TopCauseCount, |m.causes|)
    ensures |p.causesTopNames| == |p.causes|
    ensures forall i :: 0 <= i < |p.causes| ==> p.causesTopNames[i] == p.causes[i].name
    ensures m.actions != [] ==> p.p1 == m.actions[0].description
    ensures m.actions == [] ==> p.p1 == CheckOperatingConditions
    // passthrough
    ensures p.meta == meta && p.generatedAt == now
    ensures p.evidence == m.evidence && p.loopA == m.loopA && p.loopB == m.loopB
  {
    var la, lb := m.loopA, m.loopB;
    var rMax := RMax(la, lb);
    var top := TopCauses(m.causes);
    Payload(
      meta := meta,
      generatedAt := now,
      status := Classify(rMax),
      rMax := rMax,
      culprit := Culprit(la, lb),
      causes := top,
      causesTopNames := Labels(top),
      p1 := FrontAction(m.actions),
      shock24h := la.shock24h + lb.shock24h,
      exposure7dPct := PeakPercent(la.exposure7d, lb.exposure7d),
      utilPct := PeakPercent(la.util, lb.util),
      expansionStage := ExpansionStage(rMax),
      evidence := m.evidence,
      loopA := la,
      loopB := lb)
  }

  /** The payload's status text is the Korean label of the overall risk. */
  lemma PayloadStatusText(m: Metrics, meta: DocMeta, now: string)
    ensures KoreanName(BuildReportPayload(m, meta, now).status) == RiskLabelKr(RMax(m.loopA, m.loopB))
  {
  }

  /** When both zones are in their domain, so are the payload's aggregates. */
  lemma PayloadInDomain(m: Metrics, meta: DocMeta, now: string)
    requires InDomain(m.loopA) && InDomain(m.loopB)
    ensures var p := BuildReportPayload(m, meta, now);
      && 0.0 <= p.rMax <= 100.0
      && 0 <= p.shock24h
      && 0.0 <= p.exposure7dPct <= 100.0
      && 0.0 <= p.utilPct <= 100.0
  {
  }
}
