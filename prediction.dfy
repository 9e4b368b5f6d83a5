/**
 The rule-based classifier `simular_prediccion` of funcion.py: a
 critical-factor short-circuit, then an additive risk score over eight
 factors, then a mapping of the score onto four ascending bands.
 */
module Prediction {
  import opened Symptoms
  import opened HealthStatus

  /** Each of the six critical conditions; all of them together make the
      record critical. */
  predicate CriticalAge(m: Symptoms) { m.age > 80 }
  predicate CriticalPressure(m: Symptoms) { m.systolic > 180 || m.diastolic > 110 }
  predicate CriticalHeartRate(m: Symptoms) { m.heartRate > 150 || m.heartRate < 40 }
  predicate CriticalTemperature(m: Symptoms) { m.temperature > 39.5 }
  predicate CriticalPain(m: Symptoms) { m.painLevel > 8 }
  predicate CriticalDuration(m: Symptoms) { m.symptomDays > 30 }

  predicate CriticalFactors(m: Symptoms) {
    && CriticalAge(m)
    && CriticalPressure(m)
    && CriticalHeartRate(m)
    && CriticalTemperature(m)
    && CriticalPain(m)
    && CriticalDuration(m)
  }

  /** The eight terms of the additive risk score. */
  datatype RiskFactor =
    | AgeRisk | PressureRisk | HeartRateRisk | TemperatureRisk
    | DurationRisk | AllergyRisk | MedicationRisk | PainRisk

  /** The terms in the order the score adds them up. */
  const RiskFactors: seq<RiskFactor> :=
    [AgeRisk, PressureRisk, HeartRateRisk, TemperatureRisk,
     DurationRisk, AllergyRisk, MedicationRisk, PainRisk]

  function Indicator(b: bool): nat { if b then 1 else 0 }

  /** The largest amount a factor can add for a valid record: one for each
      yes/no factor, three for pain (10 / 3 == 3). */
  function Weight(f: RiskFactor): nat {
    if f == PainRisk then 3 else 1
  }

  function TotalWeight(fs: seq<RiskFactor>): nat {
    if fs == [] then 0 else Weight(fs[0]) + TotalWeight(fs[1..])
  }

  /** What one factor adds to the score. Pain contributes `painLevel // 3`;
      Dafny's `/` agrees with Python's floor division for the divisor 3. */
  function Contribution(m: Symptoms, f: RiskFactor): (c: int)
    ensures f != PainRisk ==> 0 <= c <= 1
    ensures m.Valid() ==> 0 <= c <= Weight(f)
  {
    match f
    case AgeRisk => Indicator(m.age > 65)
    case PressureRisk => Indicator(m.systolic > 140 || m.diastolic > 90)
    case HeartRateRisk => Indicator(m.heartRate > 100 || m.heartRate < 60)
    case TemperatureRisk => Indicator(m.temperature > 37.5)
    case DurationRisk => Indicator(m.symptomDays > 7)
    case AllergyRisk => Indicator(m.hasAllergies)
    case MedicationRisk => Indicator(m.priorMedication)
    case PainRisk => m.painLevel / 3
  }

  /** The sum of the contributions of the factors `fs`; for a valid record
      it is bounded by their total weight. */
  function FactorSum(m: Symptoms, fs: seq<RiskFactor>): (r: int)
    ensures m.Valid() ==> 0 <= r <= TotalWeight(fs)
  {
    if fs == [] then 0 else Contribution(m, fs[0]) + FactorSum(m, fs[1..])
  }

  /** The additive risk score (`puntuacion_riesgo`, funcion.py:54-63): the
      sum of the eight factor contributions in `RiskFactors`. The lemma
      `RiskScoreTerms` writes it out as the literal eight-term sum. */
  function RiskScore(m: Symptoms): (r: int)
    ensures m.Valid() ==> 0 <= r <= 10
  {
    assert TotalWeight(RiskFactors) == 10;
    FactorSum(m, RiskFactors)
  }

  /** The score written out term by term, as the source adds it. */
  lemma {:induction false} RiskScoreTerms(m: Symptoms)
    ensures RiskScore(m) ==
      Contribution(m, AgeRisk) + Contribution(m, PressureRisk)
      + Contribution(m, HeartRateRisk) + Contribution(m, TemperatureRisk)
      + Contribution(m, DurationRisk) + Contribution(m, AllergyRisk)
      + Contribution(m, MedicationRisk) + Contribution(m, PainRisk)
  {
    var fs := RiskFactors;
    assert FactorSum(m, fs[8..]) == 0;
    assert FactorSum(m, fs[7..]) == Contribution(m, PainRisk) + FactorSum(m, fs[8..]);
    assert FactorSum(m, fs[6..]) == Contribution(m, MedicationRisk) + FactorSum(m, fs[7..]);
    assert FactorSum(m, fs[5..]) == Contribution(m, AllergyRisk) + FactorSum(m, fs[6..]);
    assert FactorSum(m, fs[4..]) == Contribution(m, DurationRisk) + FactorSum(m, fs[5..]);
    assert FactorSum(m, fs[3..]) == Contribution(m, TemperatureRisk) + FactorSum(m, fs[4..]);
    assert FactorSum(m, fs[2..]) == Contribution(m, HeartRateRisk) + FactorSum(m, fs[3..]);
    assert FactorSum(m, fs[1..]) == Contribution(m, PressureRisk) + FactorSum(m, fs[2..]);
    assert FactorSum(m, fs) == Contribution(m, AgeRisk) + FactorSum(m, fs[1..]);
  }

  /** The band boundaries of the score, checked in ascending order. */
  const Thresholds: seq<int> := [2, 4, 6]

  /** How many of the thresholds `ts` the score lies strictly above. */
  function ThresholdsExceeded(score: int, ts: seq<int>): nat {
    if ts == [] then 0
    else (if score > ts[0] then 1 else 0) + ThresholdsExceeded(score, ts[1..])
  }

  /** The score-to-label mapping: the label's severity is the number of
      band boundaries the score has passed, and it is never terminal. */
  function LabelForScore(score: int): (s: Status)
    ensures s != TerminalIllness
    ensures Severity(s) == ThresholdsExceeded(score, Thresholds)
  {
    assert ThresholdsExceeded(score, Thresholds[3..]) == 0;
    assert ThresholdsExceeded(score, Thresholds[2..]) == Indicator(score > 6);
    assert ThresholdsExceeded(score, Thresholds[1..]) == Indicator(score > 4) + Indicator(score > 6);
    assert ThresholdsExceeded(score, Thresholds)
      == Indicator(score > 2) + Indicator(score > 4) + Indicator(score > 6);
    if score <= 2 then NotSick
    else if score <= 4 then MildIllness
    else if score <= 6 then AcuteIllness
    else ChronicIllness
  }

  /** `simular_prediccion`: terminal exactly when every critical condition
      holds, otherwise the band of the additive risk score. */
  function Classify(m: Symptoms): (s: Status)
    ensures s == TerminalIllness <==> CriticalFactors(m)
    ensures !CriticalFactors(m) ==> Severity(s) == ThresholdsExceeded(RiskScore(m), Thresholds)
  {
    if CriticalFactors(m) then TerminalIllness
    else LabelForScore(RiskScore(m))
  }

  /** The thresholds are checked in ascending order, so each band is an
      exact interval of scores. */
  lemma ScoreBands(score: int)
    ensures LabelForScore(score) == NotSick <==> score <= 2
    ensures LabelForScore(score) == MildIllness <==> 3 <= score <= 4
    ensures LabelForScore(score) == AcuteIllness <==> 5 <= score <= 6
    ensures LabelForScore(score) == ChronicIllness <==> score >= 7
  {
  }

  lemma {:induction false} ThresholdsExceededMonotone(a: int, b: int, ts: seq<int>)
    requires a <= b
    ensures ThresholdsExceeded(a, ts) <= ThresholdsExceeded(b, ts)
  {
    if ts != [] {
      ThresholdsExceededMonotone(a, b, ts[1..]);
    }
  }

  /** A higher score never yields a less severe label. */
  lemma SeverityMonotone(a: int, b: int)
    requires a <= b
    ensures Severity(LabelForScore(a)) <= Severity(LabelForScore(b))
  {
    ThresholdsExceededMonotone(a, b, Thresholds);
  }

  /** Among records that are not critical, the one with the higher risk
      score is classified at least as severely. */
  lemma ClassifyMonotone(m1: Symptoms, m2: Symptoms)
    requires !CriticalFactors(m1) && !CriticalFactors(m2)
    requires RiskScore(m1) <= RiskScore(m2)
    ensures Severity(Classify(m1)) <= Severity(Classify(m2))
  {
  }

  /** A critical record scores at least 8 on the additive scale (five
      indicators forced to one, and pain above 8 adds three), so without the
      short-circuit it would already be chronic: the short-circuit only
      raises a chronic result to terminal. */
  lemma CriticalScoresChronic(m: Symptoms)
    requires CriticalFactors(m)
    ensures RiskScore(m) >= 8
    ensures LabelForScore(RiskScore(m)) == ChronicIllness
    ensures Classify(m) == TerminalIllness
  {
    RiskScoreTerms(m);
  }

  /** Since a valid heart rate is at least 40, the `< 40` half of the
      critical heart-rate condition can never hold. */
  lemma ValidHeartRateCritical(m: Symptoms)
    requires m.Valid()
    ensures CriticalHeartRate(m) <==> m.heartRate > 150
  {
  }
}
