/** Properties of the scoring function that relate several calls or pin its
    results down completely. They are stated about the `server.js` variant;
    `Backend.SimulatePrediction` returns the same prediction for every input. */
module Properties {
  import opened Patient
  import opened Rules
  import opened Scoring
  import Server

  /** The recommendation list is fully determined by the score and the
      smoking flag: any list meeting `RecommendationsFit` is the one the
      scoring function builds. */
  lemma RecommendationsFitUnique(rs: seq<string>, score: int, smoking: bool)
    requires RecommendationsFit(rs, score, smoking)
    ensures rs == Server.Recommend(score, smoking)
  {
  }

  /** The promise of `Consistent` is complete: two consistent predictions
      for the same score and smoking flag are equal. */
  lemma ConsistentIsUnique(p: Prediction, q: Prediction, smoking: bool)
    requires Consistent(p, smoking) && Consistent(q, smoking)
    requires p.riskScore == q.riskScore
    ensures p == q
  {
  }

  /** A higher score never gets a lower level. */
  lemma ClassifyMonotone(score: int, higher: int)
    requires score <= higher
    ensures Rank(Server.Classify(score)) <= Rank(Server.Classify(higher))
  {
  }

  /** Meeting more of the conditions never lowers the score or the level. */
  lemma PredictionMonotone(before: Metrics, after: Metrics)
    requires Dominates(after, before)
    ensures Server.SimulatePrediction(before).riskScore <= Server.SimulatePrediction(after).riskScore
    ensures Rank(Server.SimulatePrediction(before).level) <= Rank(Server.SimulatePrediction(after).level)
  {
    WeightedSumMonotone(Table, before, after);
    ClassifyMonotone(Server.SimulatePrediction(before).riskScore, Server.SimulatePrediction(after).riskScore);
  }

  /** Each condition contributes independently: making one condition true,
      with the others unchanged, raises the score by exactly its weight and
      never lowers the level. */
  lemma OneMoreCondition(before: Metrics, after: Metrics, r: Rule)
    requires !Fires(r, before) && Fires(r, after)
    requires forall q :: q != r ==> (Fires(q, after) <==> Fires(q, before))
    ensures Server.SimulatePrediction(after).riskScore == Server.SimulatePrediction(before).riskScore + Weight(r)
    ensures Rank(Server.SimulatePrediction(before).level) <= Rank(Server.SimulatePrediction(after).level)
  {
    TableFacts();
    WeightedSumFlip(Table, r, before, after);
    PredictionMonotone(before, after);
  }

  /** Only the exact string "low" adds weight for activity: moving between
      two other activity levels ("medium", "high", any other string)
      changes nothing in the prediction. */
  lemma OtherActivityLevelsEqual(m: Metrics, a: string)
    requires m.activityLevel != "low" && a != "low"
    ensures Server.SimulatePrediction(WithActivity(m, a)) == Server.SimulatePrediction(m)
  {
    var after := WithActivity(m, a);
    assert forall q :: Fires(q, after) <==> Fires(q, m);
    WeightedSumMonotone(Table, m, after);
    WeightedSumMonotone(Table, after, m);
  }

  /** Switching from any other activity level to "low" adds exactly 0.10. */
  lemma LowActivityAddsWeight(m: Metrics)
    requires m.activityLevel != "low"
    ensures Server.SimulatePrediction(WithActivity(m, "low")).riskScore
         == Server.SimulatePrediction(m).riskScore + 10
  {
    var after := WithActivity(m, "low");
    assert forall q :: q != LowActivity ==> (Fires(q, after) <==> Fires(q, m));
    OneMoreCondition(m, after, LowActivity);
  }

  /** All nine conditions: score 1.0, high risk, and five recommendations
      ending with the cardiologist and then quitting smoking. */
  lemma AllConditions(m: Metrics)
    requires forall r :: Fires(r, m)
    ensures Server.SimulatePrediction(m) == Prediction(Full, Alto, Base + [Cardiologist, QuitSmoking])
  {
    RawScoreExtremes(m);
    assert Fires(Smoker, m);
  }

  /** No condition: score 0, low risk, and only the three base recommendations. */
  lemma NoCondition(m: Metrics)
    requires forall r :: !Fires(r, m)
    ensures Server.SimulatePrediction(m) == Prediction(0, Bajo, Base)
  {
    RawScoreExtremes(m);
    assert !Fires(Smoker, m);
  }

  /** The high-risk example: every threshold crossed. */
  lemma HighRiskExample()
    ensures Server.SimulatePrediction(Metrics(60, 32.0, 130, 150, 35, 170, true, "low", true))
         == Prediction(100, Alto, [Exercise, Diet, Checkups, Cardiologist, QuitSmoking])
  {
  }

  /** The healthy example: no threshold crossed. */
  lemma HealthyExample()
    ensures Server.SimulatePrediction(Metrics(30, 22.0, 90, 110, 55, 100, false, "high", false))
         == Prediction(0, Bajo, [Exercise, Diet, Checkups])
  {
  }
}
