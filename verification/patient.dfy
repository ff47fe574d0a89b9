/** The input of an evaluation: the patient metrics sent by the form. */
module Patient {

  /** The nine fields the scoring function destructures from the request body.
      Values are typed: JavaScript's coercion of form strings, `undefined`
      fields and `NaN` comparisons are not modelled. */
  datatype Metrics = Metrics(
    age: int,
    bmi: real,
    glucose: int,
    bp: int,
    hdl: int,
    ldl: int,
    smoking: bool,
    activityLevel: string,
    familyHistory: bool)

  /** The same metrics with another activity level. */
  function WithActivity(m: Metrics, a: string): Metrics {
    Metrics(m.age, m.bmi, m.glucose, m.bp, m.hdl, m.ldl, m.smoking, a, m.familyHistory)
  }
}
