# Health-status classifier

A model of the simulated health-status predictor of funcion.py. The service
receives nine measurements of a patient (age, systolic and diastolic blood
pressure, heart rate, temperature, days with symptoms, allergies, prior
medication, pain on a 0-10 scale), each within the bounds its request schema
enforces, and `simular_prediccion` turns them into one of five Spanish labels:

1. if six extreme conditions hold together (age over 80, systolic over 180 or
   diastolic over 110, heart rate over 150 or under 40, temperature over
   39.5 °C, pain over 8, symptoms for more than 30 days) the answer is
   `ENFERMEDAD TERMINAL`;
2. otherwise an additive risk score is formed from seven yes/no risk factors
   and `pain // 3`;
3. the score is mapped onto `NO ENFERMO` (at most 2), `ENFERMEDAD LEVE`
   (3-4), `ENFERMEDAD AGUDA` (5-6) or `ENFERMEDAD CRÓNICA` (7 and above).

Files:

- `symptoms.dfy` — module `Symptoms`: the measurement record and the
  predicate `Valid` holding the schema bounds (funcion.py:13-21).
- `status.dfy` — module `HealthStatus`: the five statuses, their Spanish
  labels and their severity order.
- `prediction.dfy` — module `Prediction`: the six critical conditions, the
  eight risk factors and their contributions, the score, the score bands and
  the classifier `Classify`, with the lemmas about them.
- `scenarios.dfy` — module `PredictionScenarios`: the five records of the
  prediction tests.

The classifier is a total function with no precondition, as in the source:
the Python function accepts any record, and only the schema in front of it
restricts the fields. Properties that depend on the bounds (the score lies in
0..10, a heart rate cannot be under 40) take `Valid()` as a hypothesis.
The score is the sum of the contributions of the factors listed in
`RiskFactors`, in the order the source adds them; `RiskScoreTerms` writes the
sum out term by term. Severity ranks the statuses 0 (no illness) to 4
(terminal); a non-terminal label's rank equals the number of band boundaries
(2, 4, 6) the score lies strictly above.

tests/test_prediction.py also exercises a `/reporte` endpoint and a
`predicciones.json` log that funcion.py does not contain (see "Left out").

## Model

| member | source | states |
|---|---|---|
| `HealthStatus.Severity` | funcion.py:65-72 | ranks are 0..4 and only the terminal status has the top rank 4 |
| `HealthStatus.LabelInjective` | funcion.py:43-72 | the five returned strings are pairwise distinct, so a response string determines the status |
| `Prediction.Contribution` | funcion.py:47-62 | each yes/no risk factor adds 0 or 1 for any record; for a valid record every factor adds between 0 and its weight (pain at most 3) |
| `Prediction.FactorSum` | funcion.py:54-63 | for a valid record the sum of the contributions of any list of factors lies between 0 and the sum of their weights |
| `Prediction.RiskScore` | funcion.py:54-63 | for a record within the schema bounds the risk score lies in 0..10 |
| `Prediction.RiskScoreTerms` | funcion.py:47-63 | the score is exactly age + pressure + heart-rate + temperature + duration + allergy + medication + pain contributions |
| `Prediction.LabelForScore` | funcion.py:65-72 | the score mapping never yields the terminal status, and the label's severity is the number of the boundaries 2, 4, 6 the score exceeds |
| `Prediction.ScoreBands` | funcion.py:65-72 | exact bands, both directions: not sick iff score <= 2, mild iff 3..4, acute iff 5..6, chronic iff >= 7 |
| `Prediction.ThresholdsExceededMonotone` | funcion.py:65-72 | a larger score exceeds at least as many of any list of boundaries |
| `Prediction.SeverityMonotone` | funcion.py:65-72 | the severity of the score's label is non-decreasing in the score |
| `Prediction.Classify` | funcion.py:28-72 | the result is terminal if and only if all six critical conditions hold; otherwise its severity is the band of the risk score |
| `Prediction.ClassifyMonotone` | funcion.py:43-72 | of two non-critical records, the one with the higher score is classified at least as severely |
| `Prediction.CriticalScoresChronic` | funcion.py:34-63 | a record meeting all critical conditions scores at least 8, so the score alone would give chronic; the short-circuit turns it into terminal |
| `Prediction.ValidHeartRateCritical` | funcion.py:37 | within the schema bound heart rate >= 40 (line 16), the critical heart-rate condition reduces to heart rate > 150 |
| `PredictionScenarios.NotSickScenario` | tests/test_prediction.py:32-42 | the first test record is valid, scores 0 and is labelled `NO ENFERMO` |
| `PredictionScenarios.MildIllnessScenario` | tests/test_prediction.py:45-55 | the second test record is valid, scores 3 and is labelled `ENFERMEDAD LEVE` |
| `PredictionScenarios.AcuteIllnessScenario` | tests/test_prediction.py:58-68 | the third test record is valid, scores 6 and is labelled `ENFERMEDAD AGUDA` |
| `PredictionScenarios.ChronicIllnessScenario` | tests/test_prediction.py:71-81 | the fourth test record is valid, scores 8 and is labelled `ENFERMEDAD CRÓNICA` |
| `PredictionScenarios.TerminalIllnessScenario` | tests/test_prediction.py:84-94 | the fifth test record is valid and critical; its score of 10 alone would give `ENFERMEDAD CRÓNICA`, and it is labelled `ENFERMEDAD TERMINAL` |

## Left out

- The FastAPI application, the `/predecir` and `/` endpoints, their async handlers and the wrapping of unexpected exceptions into an HTTP 500 answer (funcion.py:6-10, 75-111): framework I/O around the classifier, which itself has no failure path.
- The pydantic validation machinery (funcion.py:12-25): only its numeric bounds are kept, as `Symptoms.Valid`; the output wrapper `PrediccionOutput` carries nothing beyond the label string.
- The prediction log, its JSON file, its timestamps and time zone, and the `/reporte` aggregate exercised by tests/test_prediction.py:9-28 and 102-144: no implementation of them exists in funcion.py, so there is nothing to model them against; file I/O and wall-clock time are also outside a pure model.
- The list of four states in the endpoint's docstring (funcion.py:93-97): documentation that omits the terminal label, not behaviour.
- Floating-point behaviour of the temperature: it is only compared with the constants 35.0, 37.5, 39.5 and 42.0, so it is modelled as an exact `real`.
