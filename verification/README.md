# Cardiometabolic risk scoring — a Dafny model

The service takes nine patient metrics from a web form and computes a risk score with `simularPrediccion`. The score is the sum of fixed weights for nine threshold conditions, clamped to [0, 1]. The service maps the score to a level (`Bajo`, `Moderado` or `Alto`) and builds a list of recommendations. The POST `/api/prediction` handler stores the inputs with the score and level in the `evaluaciones` table and returns the prediction. The repository has two copies of this logic: `server.js` and `backend/server.js`.

This project models both copies:

- `patient.dfy` (`Patient`): the nine input metrics as a typed record.
- `rules.dfy` (`Rules`):
  - the nine rules in source order, with the condition and weight of each;
  - the weighted sum and its bounds;
  - the table's closed form;
  - monotonicity, and the independence of each rule.
- `scoring.dfy` (`Scoring`): what both variants share:
  - the levels and the thresholds;
  - the clamp;
  - the five recommendation texts;
  - the predicates `LevelFits`, `RecommendationsFit` and `Consistent`, which state what a prediction promises.
- `evaluations.dfy` (`Evaluations`): the row bound to the INSERT, and the response of the handler.
- `server.dfy` (`Server`): `server.js`, written with expressions. The level comes from the nested conditional.
- `backend.dfy` (`Backend`): `backend/server.js`, written with statements:
  - a running total over the rules;
  - a level that defaults to `Bajo` and is raised by an if/else chain;
  - recommendations pushed onto a list.

  Each method is proved equal to its `server.js` counterpart.
- `properties.dfy` (`Properties`):
  - uniqueness of the promised prediction;
  - monotonicity;
  - one-condition independence;
  - the exact-`"low"` rule for activity;
  - the all/none boundary cases and the two worked examples.

Scores are integers counted in hundredths. `100` is a score of 1.0, the weights are 10, 10, 15, 10, 10, 10, 10, 10 and 15, and the thresholds are 70 and 40, so every comparison is exact. The weights total exactly 100. So the clamp never changes the sum (`Server.SimulatePrediction` states `riskScore == WeightedSum(Table, m)`).

The database is abstract: the table is the sequence of inserted rows, and whether the INSERT succeeds is a boolean parameter. A failed INSERT gives the 500 response `Error al guardar los datos` and leaves the table unchanged.

## Model

| member | source | states |
|---|---|---|
| Rules.WeightedSum | server.js:52-61 | The sum of the weights of the fired rules never exceeds the total weight of the rules considered. |
| Rules.RawScore | server.js:52-63 | The unclamped score of the nine rules lies in 0..100 hundredths, so it is already in [0, 1]. |
| Rules.WeightedSumExtremes | server.js:52-61 | The weighted sum is 0 iff no rule fires, and it equals the total weight iff every rule fires. |
| Rules.RawScoreExtremes | server.js:52-63 | The score is 0 iff none of the nine conditions holds, and 1.00 iff all nine hold. |
| Rules.TableFacts | server.js:53-61 | The rule table lists each of the nine conditions exactly once, and its weights total exactly 1.00. |
| Rules.ScoreIsSumOfFiredWeights | server.js:52-61 | The score equals the table of weights: age>50 adds 10, bmi>30 10, glucose>120 15, bp>140 10, hdl<40 10, ldl>160 10, smoking 10, activity "low" 10, family history 15. Each term depends only on its own field. |
| Rules.WeightedSumMonotone | server.js:53-61 | If one input fires every rule another fires, its weighted sum is not lower. |
| Rules.WeightedSumFlip | server.js:53-61 | Turning on one rule, with all others unchanged, adds exactly that rule's weight. |
| Scoring.Clamp | server.js:63 | `Math.min(1, Math.max(0, x))` yields a value in [0, 1]. It leaves a value already in range unchanged, and maps values below 0 to 0 and above 1 to 1. |
| Evaluations.MakeRow | server.js:88-92 | The INSERT row stores the nine inputs unchanged (projecting them back gives the metrics). Its score and level are exactly those returned to the client. |
| Server.Classify | server.js:64 | The nested conditional gives `Alto` iff score ≥ 0.70, `Moderado` iff 0.40 ≤ score < 0.70, and `Bajo` iff score < 0.40. |
| Server.Recommend | server.js:66-72 | The list is: the three base items in order, then the cardiologist iff score ≥ 0.70, then quitting smoking iff smoking. The cardiologist comes first, nothing repeats, and the length is 3 + [high] + [smoking]. |
| Server.SimulatePrediction | server.js:49-75 | The returned score is the exact weighted sum, unchanged by the clamp. The prediction is consistent: the score is in [0, 1], the level fits the thresholds, and the recommendations fit the score and smoking flag. |
| Server.HandlePost | server.js:78-99 | On success, the response is a consistent prediction and the table grows by exactly one row at the end. That row stores the inputs and the same score and level as the response. On failure, the response is the fixed error message and the table is unchanged. |
| Backend.AccumulateScore | backend/server.js:45-54 | The running total over the nine conditions, in source order, equals the weighted sum of the fired rules and lies in 0..100. |
| Backend.Classify | backend/server.js:58-60 | The default-`Bajo` if/else chain gives the level that fits the thresholds, the same as the nested conditional of server.js. |
| Backend.Recommend | backend/server.js:62-68 | The push-built list fits the score and smoking flag and equals the server.js list. |
| Backend.SimulatePrediction | backend/server.js:42-71 | For every input, this variant returns a consistent prediction equal to server.js's (same score, level and recommendations). |
| Backend.HandlePost | backend/server.js:74-98 | This handler gives the same response and table as server.js's. On success, the table is the old table plus the row built from the inputs and the returned prediction. On failure, it gives the error message and an unchanged table. |
| Properties.RecommendationsFitUnique | server.js:66-72 | Any list meeting the recommendation rules is exactly the list the function builds, so the rules determine its contents. |
| Properties.ConsistentIsUnique | server.js:63-74 | Two consistent predictions with the same score and smoking flag are equal. The level and list are determined by the score. |
| Properties.ClassifyMonotone | server.js:64 | A higher score never gets a lower level. |
| Properties.PredictionMonotone | server.js:53-64 | Meeting more conditions never lowers the score or the level. |
| Properties.OneMoreCondition | server.js:53-64 | Making one condition true, with the others unchanged, raises the score by exactly its weight and never lowers the level. |
| Properties.OtherActivityLevelsEqual | server.js:60 | Only the exact string "low" adds weight. Moving between other activity levels ("medium", "high", any other string) leaves the whole prediction unchanged. |
| Properties.LowActivityAddsWeight | server.js:60 | Switching the activity level from any other string to "low" raises the score by exactly 0.10. |
| Properties.AllConditions | backend/server.js:45-68 | When all nine conditions hold, the result is score 1.00, `Alto`, and the five recommendations ending with the cardiologist and then quitting smoking. |
| Properties.NoCondition | backend/server.js:45-68 | When no condition holds, the result is score 0, `Bajo`, and only the three base recommendations. |
| Properties.HighRiskExample | backend/server.js:45-70 | The input (60, 32, 130, 150, 35, 170, smoker, "low", family history) gives 1.00, `Alto` and five recommendations. |
| Properties.HealthyExample | backend/server.js:45-70 | The input (30, 22, 90, 110, 55, 100, non-smoker, "high", no family history) gives 0, `Bajo` and the three base recommendations. |

## Left out

- IEEE-754 arithmetic: the source adds 0.1 and 0.15 as doubles, which can produce values such as 0.9999999999999999. The model adds exact hundredths, so it does not represent float drift near the 0.4 and 0.7 boundaries or the stored REAL value's rounding.
- JavaScript coercion: the form sends numeric fields as strings, and fields may be missing, giving `undefined` or `NaN` comparisons. The model takes typed metrics.
- The `activity_level` field is a free string in the model, as in the source. The model does not restrict it to low/medium/high.
- Express routing, middleware, status codes, logging and the `GET /` landing responses are HTTP glue.
- The `pg` pool, the environment configuration and the `CREATE TABLE` DDL run in PostgreSQL, which is outside the model. The model keeps only the INSERT, as an append, and its failure, as a parameter.
- The `id` and `fecha` columns: the database assigns both.
- `GET /api/evaluaciones` (SELECT ... ORDER BY fecha DESC) and `DELETE /api/evaluaciones`: their behaviour lives in the database and is not modelled.
- The client in public/app.js (React state, fetch, alerts, chart rendering) is not part of this model.
- Level names: the model keeps the level as an enumeration. `Level.Name` gives the text sent to the client and stored.
