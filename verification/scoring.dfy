/** What both server variants share: the risk levels, the shape of a
    prediction, the clamp to [0, 1] and the fixed recommendation texts.
    Scores are in hundredths: `Full` (100) is a score of 1.0. */
module Scoring {

  const Full: int := 100
  /** A score of 0.70 or more is high risk. */
  const HighThreshold: int := 70
  /** A score of 0.40 or more (and below 0.70) is moderate risk. */
  const ModerateThreshold: int := 40

  datatype Level = Bajo | Moderado | Alto {
    /** The text sent to the client and stored in the `level` column. */
    function Name(): string {
      match this
      case Bajo => "Bajo"
      case Moderado => "Moderado"
      case Alto => "Alto"
    }
  }

  /** Levels ordered by severity. */
  function Rank(level: Level): nat {
    match level
    case Bajo => 0
    case Moderado => 1
    case Alto => 2
  }

  /** The JSON body returned to the client. */
  datatype Prediction = Prediction(riskScore: int, level: Level, recommendations: seq<string>)

  const Exercise: string := "Hacer ejercicio regularmente"
  const Diet: string := "Mantener una dieta saludable"
  const Checkups: string := "Realizar chequeos médicos frecuentes"
  const Cardiologist: string := "Consultar a un cardiólogo"
  const QuitSmoking: string := "Dejar de fumar"

  /** The three recommendations every prediction starts with, in order. */
  const Base: seq<string> := [Exercise, Diet, Checkups]

  /** `Math.min(1, Math.max(0, x))` in hundredths: the score forced into [0, 1],
      leaving a score already in range as it is. */
  function Clamp(x: int): (r: int)
    ensures 0 <= r <= Full
    ensures 0 <= x <= Full ==> r == x
    ensures x < 0 ==> r == 0
    ensures x > Full ==> r == Full
  {
    if x > Full then Full else if x < 0 then 0 else x
  }

  /** The level that the thresholds assign to `score`: high from 0.70,
      moderate from 0.40, low below that. */
  predicate LevelFits(level: Level, score: int) {
    && (level == Alto <==> score >= HighThreshold)
    && (level == Moderado <==> ModerateThreshold <= score < HighThreshold)
    && (level == Bajo <==> score < ModerateThreshold)
  }

  /** The recommendations due for `score` and `smoking`: the three base items
      first, the cardiologist exactly when the score is high, quitting smoking
      exactly for smokers, the cardiologist before quitting smoking, nothing
      repeated and nothing else. */
  predicate RecommendationsFit(rs: seq<string>, score: int, smoking: bool) {
    && |rs| == |Base| + (if score >= HighThreshold then 1 else 0) + (if smoking then 1 else 0)
    && rs[..|Base|] == Base
    && (Cardiologist in rs <==> score >= HighThreshold)
    && (QuitSmoking in rs <==> smoking)
    && (forall i, j :: 0 <= i < j < |rs| ==> rs[i] != rs[j])
    && (forall i, j :: 0 <= i < |rs| && 0 <= j < |rs| && rs[i] == QuitSmoking && rs[j] == Cardiologist ==> j < i)
  }

  /** A prediction as the scoring function promises it: a score in [0, 1],
      the level its thresholds give, the recommendations they call for. */
  predicate Consistent(p: Prediction, smoking: bool) {
    && 0 <= p.riskScore <= Full
    && LevelFits(p.level, p.riskScore)
    && RecommendationsFit(p.recommendations, p.riskScore, smoking)
  }
}
