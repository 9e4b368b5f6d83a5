/**
 The five concrete records of the service's prediction tests
 (tests/test_prediction.py), one per label, each with the additive score
 its label comes from.
 */
module PredictionScenarios {
  import opened Symptoms
  import opened HealthStatus
  import opened Prediction

  lemma NotSickScenario()
    ensures var m := Symptoms(35, 120, 80, 75, 36.5, 2, false, false, 2);
      && m.Valid() && !CriticalFactors(m) && RiskScore(m) == 0
      && Label(Classify(m)) == "NO ENFERMO"
  {
  }

  lemma MildIllnessScenario()
    ensures var m := Symptoms(45, 135, 85, 90, 37.2, 5, true, true, 4);
      && m.Valid() && !CriticalFactors(m) && RiskScore(m) == 3
      && Label(Classify(m)) == "ENFERMEDAD LEVE"
  {
  }

  lemma AcuteIllnessScenario()
    ensures var m := Symptoms(50, 145, 95, 110, 38.5, 3, true, true, 5);
      && m.Valid() && !CriticalFactors(m) && RiskScore(m) == 6
      && Label(Classify(m)) == "ENFERMEDAD AGUDA"
  {
  }

  lemma ChronicIllnessScenario()
    ensures var m := Symptoms(70, 160, 100, 95, 37.8, 30, true, true, 8);
      && m.Valid() && !CriticalFactors(m) && RiskScore(m) == 8
      && Label(Classify(m)) == "ENFERMEDAD CRÓNICA"
  {
  }

  /** All six critical conditions hold; the additive score alone (10) would
      have given the chronic label. */
  lemma TerminalIllnessScenario()
    ensures var m := Symptoms(85, 185, 115, 155, 39.8, 35, true, true, 9);
      && m.Valid() && CriticalFactors(m) && RiskScore(m) == 10
      && Label(LabelForScore(RiskScore(m))) == "ENFERMEDAD CRÓNICA"
      && Label(Classify(m)) == "ENFERMEDAD TERMINAL"
  {
  }
}
