/** `server.js`: the scoring function written with expressions (a nested
    conditional for the level) and the POST /api/prediction handler. */
module Server {
  import opened Patient
  import opened Rules
  import opened Scoring
  import opened Evaluations

  /** The nested conditional that picks the level of a score. */
  function Classify(score: int): (level: Level)
    ensures LevelFits(level, score)
  {
    if score >= HighThreshold then Alto
    else if score >= ModerateThreshold then Moderado
    else Bajo
  }

  /** The base recommendations, then the cardiologist for a high score, then
      quitting smoking for a smoker. */
  function Recommend(score: int, smoking: bool): (rs: seq<string>)
    ensures RecommendationsFit(rs, score, smoking)
  {
    Base
    + (if score >= HighThreshold then [Cardiologist] else [])
    + (if smoking then [QuitSmoking] else [])
  }

  /** `simularPrediccion`: the exact weighted sum of the fired rules, which
      the clamp leaves unchanged, with its level and recommendations. */
  function SimulatePrediction(m: Metrics): (p: Prediction)
    ensures p.riskScore == WeightedSum(Table, m)
    ensures Consistent(p, m.smoking)
  {
    var score := Clamp(RawScore(m));
    Prediction(score, Classify(score), Recommend(score, m.smoking))
  }

  /** POST /api/prediction: score the metrics, insert one row, and answer
      with the prediction; when the INSERT fails, answer with the fixed
      error message and leave the table as it was. */
  function HandlePost(m: Metrics, table: seq<Row>, insertSucceeds: bool): (o: Outcome)
    ensures insertSucceeds ==>
      && o.response.Ok?
      && Consistent(o.response.prediction, m.smoking)
      && o.response.prediction.riskScore == RawScore(m)
      && |o.table| == |table| + 1
      && o.table[..|table|] == table
      && Inputs(o.table[|table|]) == m
      && o.table[|table|].riskScore == o.response.prediction.riskScore
      && o.table[|table|].level == o.response.prediction.level
    ensures !insertSucceeds ==> o.response == ServerError(SaveError) && o.table == table
  {
    var p := SimulatePrediction(m);
    if insertSucceeds then Outcome(Ok(p), table + [MakeRow(m, p)])
    else Outcome(ServerError(SaveError), table)
  }
}
