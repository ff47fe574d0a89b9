/** `backend/server.js`: the same scoring function written with statements
    (a running total, a level that defaults to low and is raised by an
    if/else chain, recommendations pushed onto a list) and its POST
    /api/prediction handler. Each step is proved to agree with `server.js`. */
module Backend {
  import opened Patient
  import opened Rules
  import opened Scoring
  import opened Evaluations
  import Server

  /** The running total: start at 0 and add each rule's weight, in the
      order the source tests them, when the rule fires. */
  method AccumulateScore(m: Metrics) returns (score: int)
    ensures score == WeightedSum(Table, m)
    ensures 0 <= score <= Full
  {
    score := 0;
    var i := 0;
    while i < |Table|
      invariant 0 <= i <= |Table|
      invariant score + WeightedSum(Table[i..], m) == WeightedSum(Table, m)
    {
      assert Table[i..][1..] == Table[i + 1..];
      if Fires(Table[i], m) {
        score := score + Weight(Table[i]);
      }
      i := i + 1;
    }
    assert RawScore(m) == WeightedSum(Table, m);
  }

  /** The level starts as low; a high score raises it to high, otherwise a
      moderate score raises it to moderate. */
  method Classify(score: int) returns (level: Level)
    ensures LevelFits(level, score)
    ensures level == Server.Classify(score)
  {
    level := Bajo;
    if score >= HighThreshold {
      level := Alto;
    } else if score >= ModerateThreshold {
      level := Moderado;
    }
  }

  /** The base list, with the cardiologist and then quitting smoking pushed
      when they apply. */
  method Recommend(score: int, smoking: bool) returns (rs: seq<string>)
    ensures RecommendationsFit(rs, score, smoking)
    ensures rs == Server.Recommend(score, smoking)
  {
    rs := [Exercise, Diet, Checkups];
    if score >= HighThreshold {
      rs := rs + [Cardiologist];
    }
    if smoking {
      rs := rs + [QuitSmoking];
    }
  }

  /** `simularPrediccion` of this variant: for every input it returns the
      same score, level and recommendations as the `server.js` variant. */
  method SimulatePrediction(m: Metrics) returns (p: Prediction)
    ensures Consistent(p, m.smoking)
    ensures p == Server.SimulatePrediction(m)
  {
    var score := AccumulateScore(m);
    score := Clamp(score);
    var level := Classify(score);
    var recommendations := Recommend(score, m.smoking);
    p := Prediction(score, level, recommendations);
  }

  /** POST /api/prediction of this variant: the same response and the same
      table as the `server.js` handler. */
  method HandlePost(m: Metrics, table: seq<Row>, insertSucceeds: bool) returns (o: Outcome)
    ensures o == Server.HandlePost(m, table, insertSucceeds)
    ensures insertSucceeds ==> o.response.Ok? && o.table == table + [MakeRow(m, o.response.prediction)]
    ensures !insertSucceeds ==> o.response == ServerError(SaveError) && o.table == table
  {
    var p := SimulatePrediction(m);
    if insertSucceeds {
      o := Outcome(Ok(p), table + [MakeRow(m, p)]);
    } else {
      o := Outcome(ServerError(SaveError), table);
    }
  }
}
