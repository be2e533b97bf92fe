/** The plot compliance classifier of the satellite monitoring map
    (`Sentinel2MonitoringMap`): the height-violation tier, the weighted risk
    score and the compliance label that combines them, plus the
    multi-layer detection flags. Arithmetic is over `real`. */
module Risk {

  datatype Plot = Plot(
    id: string,
    name: string,
    allottee: string,
    approvedArea: real,
    detectedArea: real,
    violationType: string,
    severity: string,
    x: int,
    y: int,
    ndviPrevious: real,
    ndviCurrent: real,
    ndbiPrevious: real,
    ndbiCurrent: real,
    approvedHeight: real,
    detectedHeight: real,
    zoningLimit: real,
    sensorId: string,
    lastSync: string)

  /** The four plots the map shows. */
  const Plots: seq<Plot> := [
    Plot("CG-RAI-2024-0847", "Plot 847", "Sai Industries Pvt. Ltd.", 5000.0, 6200.0,
         "Unauthorized Extension", "high", 35, 45, 0.72, 0.18, -0.20, 0.45, 12.0, 18.4, 15.0,
         "LDR-UR-204", "12 Feb 2026 - 09:42 AM"),
    Plot("CG-RAI-2024-0848", "Plot 848", "Modern Manufacturing Co.", 8000.0, 8050.0,
         "Minor Deviation", "low", 45, 42, 0.45, 0.42, 0.10, 0.12, 15.0, 14.8, 18.0,
         "LDR-UR-205", "12 Feb 2026 - 09:40 AM"),
    Plot("CG-RAI-2024-0849", "Plot 849", "Steel Fabrication Works", 6500.0, 7800.0,
         "Horizontal + Vertical Expansion", "high", 55, 48, 0.68, 0.22, -0.15, 0.52, 10.0, 16.2, 12.0,
         "LDR-UR-206", "12 Feb 2026 - 09:38 AM"),
    Plot("CG-RAI-2024-0850", "Plot 850", "Green Energy Systems", 7200.0, 7200.0,
         "None", "none", 65, 35, 0.50, 0.48, 0.05, 0.08, 18.0, 17.5, 20.0,
         "LDR-UR-207", "12 Feb 2026 - 09:45 AM")
  ]

  datatype HeightStatus = Critical | High | Medium | Compliant

  /** `getHeightViolationStatus`: exceeding the zoning limit is critical;
      otherwise the tier follows the excess over the approved height. */
  function HeightViolationStatus(p: Plot): (s: HeightStatus)
    ensures s == Critical <==> p.detectedHeight > p.zoningLimit
    ensures s == High <==> p.detectedHeight <= p.zoningLimit && p.detectedHeight - p.approvedHeight > 2.0
    ensures s == Medium <==> p.detectedHeight <= p.zoningLimit && 0.5 < p.detectedHeight - p.approvedHeight <= 2.0
    ensures s == Compliant <==> p.detectedHeight <= p.zoningLimit && p.detectedHeight - p.approvedHeight <= 0.5
  {
    var deviation := p.detectedHeight - p.approvedHeight;
    var exceedsZoning := p.detectedHeight > p.zoningLimit;
    if exceedsZoning then Critical
    else if deviation > 2.0 then High
    else if deviation > 0.5 then Medium
    else Compliant
  }

  function Abs(x: real): real { if x < 0.0 then -x else x }

  /** `Math.round`: halves round up. */
  function Round(x: real): (n: int)
    ensures x - 0.5 < n as real <= x + 0.5
  {
    (x + 0.5).Floor
  }

  /** `Math.min(100, Math.max(0, x))`. */
  function Clamp(x: real): (c: real)
    ensures 0.0 <= c <= 100.0
    ensures 0.0 <= x <= 100.0 ==> c == x
    ensures x < 0.0 ==> c == 0.0
    ensures x > 100.0 ==> c == 100.0
  {
    if x < 0.0 then 0.0 else if x > 100.0 then 100.0 else x
  }

  /** The divisors the score uses without a guard must be non-zero. */
  predicate HasScorableDivisors(p: Plot)
  {
    p.ndviPrevious != 0.0 && p.approvedArea != 0.0 && p.approvedHeight != 0.0
  }

  /** `plot.ndbiPrevious || 0.01`: a zero previous NDBI is replaced by 0.01. */
  function NdbiBase(p: Plot): (b: real)
    ensures b != 0.0
    ensures p.ndbiPrevious != 0.0 ==> b == p.ndbiPrevious
    ensures p.ndbiPrevious == 0.0 ==> b == 0.01
  {
    if p.ndbiPrevious != 0.0 then p.ndbiPrevious else 0.01
  }

  function NdviChange(p: Plot): real
    requires HasScorableDivisors(p)
  {
    (p.ndviPrevious - p.ndviCurrent) / p.ndviPrevious * 100.0
  }

  function NdbiChange(p: Plot): real
  {
    (p.ndbiCurrent - p.ndbiPrevious) / Abs(NdbiBase(p)) * 100.0
  }

  function AreaDeviation(p: Plot): real
    requires HasScorableDivisors(p)
  {
    (p.detectedArea - p.approvedArea) / p.approvedArea * 100.0
  }

  function HeightDeviation(p: Plot): real
    requires HasScorableDivisors(p)
  {
    (p.detectedHeight - p.approvedHeight) / p.approvedHeight * 100.0
  }

  /** The weighted sum before clamping. */
  function RawRiskScore(p: Plot): real
    requires HasScorableDivisors(p)
  {
    NdviChange(p) * 0.2 + NdbiChange(p) * 0.2 + AreaDeviation(p) * 0.3 + HeightDeviation(p) * 0.3
  }

  /** `calculateRiskScore`: the weighted sum clamped to [0, 100], then rounded. */
  function RiskScore(p: Plot): (r: int)
    requires HasScorableDivisors(p)
    ensures 0 <= r <= 100
  {
    Round(Clamp(RawRiskScore(p)))
  }

  datatype ComplianceLabel = CriticalViolation | HighRisk | ModerateRisk | CompliantLabel

  /** `getComplianceStatus`: the first matching rung of the cascade. */
  function ComplianceStatus(p: Plot): (c: ComplianceLabel)
    requires HasScorableDivisors(p)
    ensures c == CriticalViolation <==> HeightViolationStatus(p) == Critical || RiskScore(p) > 80
    ensures c == CompliantLabel <==> HeightViolationStatus(p) == Compliant && RiskScore(p) <= 40
  {
    var riskScore := RiskScore(p);
    var heightStatus := HeightViolationStatus(p);
    if heightStatus == Critical || riskScore > 80 then CriticalViolation
    else if heightStatus == High || riskScore > 60 then HighRisk
    else if heightStatus == Medium || riskScore > 40 then ModerateRisk
    else CompliantLabel
  }

  /** Vegetation change is flagged when NDVI moved by more than 0.3 either way. */
  predicate VegetationChangeDetected(p: Plot) { Abs(p.ndviCurrent - p.ndviPrevious) > 0.3 }

  /** Built-up expansion is flagged when NDBI moved by more than 0.3 either way. */
  predicate BuiltUpExpansionDetected(p: Plot) { Abs(p.ndbiCurrent - p.ndbiPrevious) > 0.3 }

  /** The height flag compares with the approved height, not the zoning limit. */
  predicate HeightViolationDetected(p: Plot) { p.detectedHeight > p.approvedHeight }

  /** Each change flag is a two-sided threshold; with a positive approved
      height the height flag shows exactly when the score's height term is
      positive. */
  lemma DetectionFlags(p: Plot)
    ensures VegetationChangeDetected(p)
            <==> p.ndviCurrent > p.ndviPrevious + 0.3 || p.ndviCurrent < p.ndviPrevious - 0.3
    ensures BuiltUpExpansionDetected(p)
            <==> p.ndbiCurrent > p.ndbiPrevious + 0.3 || p.ndbiCurrent < p.ndbiPrevious - 0.3
    ensures HasScorableDivisors(p) && p.approvedHeight > 0.0
            ==> (HeightViolationDetected(p) <==> HeightDeviation(p) > 0.0)
  {
    if HasScorableDivisors(p) && p.approvedHeight > 0.0 {
      var d := p.detectedHeight - p.approvedHeight;
      if d > 0.0 {
        assert d / p.approvedHeight > 0.0;
      } else {
        assert d / p.approvedHeight <= 0.0;
      }
    }
  }

  /** A plot whose indices, area and height all match the previous and
      approved values has raw score 0, score 0 and no flag. */
  lemma UnchangedPlotScoresZero(p: Plot)
    requires HasScorableDivisors(p)
    requires p.ndviCurrent == p.ndviPrevious && p.ndbiCurrent == p.ndbiPrevious
    requires p.detectedArea == p.approvedArea && p.detectedHeight == p.approvedHeight
    ensures RawRiskScore(p) == 0.0 && RiskScore(p) == 0
    ensures !VegetationChangeDetected(p) && !BuiltUpExpansionDetected(p) && !HeightViolationDetected(p)
  {
    assert NdviChange(p) == 0.0 && NdbiChange(p) == 0.0;
    assert AreaDeviation(p) == 0.0 && HeightDeviation(p) == 0.0;
  }

  /** Severity ranks used to compare the two tiers with the label. */
  function HeightRank(s: HeightStatus): nat
  {
    match s
    case Critical => 3
    case High => 2
    case Medium => 1
    case Compliant => 0
  }

  function ScoreRank(score: int): nat
  {
    if score > 80 then 3 else if score > 60 then 2 else if score > 40 then 1 else 0
  }

  function LabelRank(c: ComplianceLabel): nat
  {
    match c
    case CriticalViolation => 3
    case HighRisk => 2
    case ModerateRisk => 1
    case CompliantLabel => 0
  }

  /** The cascade yields the worse of the height tier and the score tier. */
  lemma ComplianceIsWorseTier(p: Plot)
    requires HasScorableDivisors(p)
    ensures var h, s := HeightRank(HeightViolationStatus(p)), ScoreRank(RiskScore(p));
            LabelRank(ComplianceStatus(p)) == if h >= s then h else s
  {
  }

  lemma DivideMonotone(x: real, y: real, d: real)
    requires x <= y && d > 0.0
    ensures x / d <= y / d
  {
    assert y / d - x / d == (y - x) / d;
  }

  lemma RoundMonotone(x: real, y: real)
    requires x <= y
    ensures Round(x) <= Round(y)
  {
  }

  /** More detected area never lowers the score (weight +0.3, positive approved area). */
  lemma RiskScoreMonotoneInArea(p: Plot, a1: real, a2: real)
    requires HasScorableDivisors(p) && p.approvedArea > 0.0 && a1 <= a2
    ensures RiskScore(p.(detectedArea := a1)) <= RiskScore(p.(detectedArea := a2))
  {
    DivideMonotone(a1 - p.approvedArea, a2 - p.approvedArea, p.approvedArea);
    RoundMonotone(Clamp(RawRiskScore(p.(detectedArea := a1))), Clamp(RawRiskScore(p.(detectedArea := a2))));
  }

  /** More detected height never lowers the score (weight +0.3, positive approved height). */
  lemma RiskScoreMonotoneInHeight(p: Plot, h1: real, h2: real)
    requires HasScorableDivisors(p) && p.approvedHeight > 0.0 && h1 <= h2
    ensures RiskScore(p.(detectedHeight := h1)) <= RiskScore(p.(detectedHeight := h2))
  {
    DivideMonotone(h1 - p.approvedHeight, h2 - p.approvedHeight, p.approvedHeight);
    RoundMonotone(Clamp(RawRiskScore(p.(detectedHeight := h1))), Clamp(RawRiskScore(p.(detectedHeight := h2))));
  }

  /** A high or medium height tier always shows the height flag as detected;
      a critical tier need not, since it compares with the zoning limit. */
  lemma HeightTierImpliesFlag(p: Plot)
    requires HeightViolationStatus(p) in {High, Medium}
    ensures HeightViolationDetected(p)
  {
  }

  /** Plot CG-RAI-2024-0847: 18.4 m against a 15 m zoning limit is critical;
      its raw score 103.2 clamps to 100; vegetation declined by 75 percent. */
  lemma FirstPlotIsCritical()
    ensures HasScorableDivisors(Plots[0])
    ensures NdviChange(Plots[0]) == 75.0
    ensures RawRiskScore(Plots[0]) == 103.2
    ensures HeightViolationStatus(Plots[0]) == Critical
    ensures RiskScore(Plots[0]) == 100
    ensures ComplianceStatus(Plots[0]) == CriticalViolation
    ensures VegetationChangeDetected(Plots[0]) && BuiltUpExpansionDetected(Plots[0])
  {
  }

  /** The labels of all four plots: plots 847 and 849 exceed their zoning
      limits; plots 848 and 850 score 5 and 12 and are compliant. */
  lemma PlotLabels()
    ensures forall i :: 0 <= i < |Plots| ==> HasScorableDivisors(Plots[i])
    ensures RiskScore(Plots[1]) == 5 && RiskScore(Plots[3]) == 12
    ensures ComplianceStatus(Plots[1]) == CompliantLabel
    ensures ComplianceStatus(Plots[2]) == CriticalViolation
    ensures ComplianceStatus(Plots[3]) == CompliantLabel
  {
  }
}
