/** The `evaluaciones` table as far as the prediction handler touches it:
    the row it inserts and the response it sends. The database is abstract:
    the table is the sequence of inserted rows, and whether an INSERT
    succeeds is a parameter. */
module Evaluations {
  import opened Patient
  import opened Scoring

  /** The eleven values bound to `$1`..`$11` of the INSERT. The `id` and
      `fecha` columns are assigned by the database and are not modelled. */
  datatype Row = Row(
    age: int,
    bmi: real,
    glucose: int,
    bp: int,
    hdl: int,
    ldl: int,
    smoking: bool,
    activityLevel: string,
    familyHistory: bool,
    riskScore: int,
    level: Level)

  /** The patient metrics a row was built from. */
  function Inputs(row: Row): Metrics {
    Metrics(row.age, row.bmi, row.glucose, row.bp, row.hdl, row.ldl,
            row.smoking, row.activityLevel, row.familyHistory)
  }

  /** The row inserted for metrics `m` and the prediction `p` computed from
      them: the nine inputs stored unchanged, the score and level exactly
      as returned to the client. */
  function MakeRow(m: Metrics, p: Prediction): (row: Row)
    ensures Inputs(row) == m
    ensures row.riskScore == p.riskScore && row.level == p.level
  {
    Row(m.age, m.bmi, m.glucose, m.bp, m.hdl, m.ldl,
        m.smoking, m.activityLevel, m.familyHistory,
        p.riskScore, p.level)
  }

  /** The message of the 500 response when the INSERT fails. */
  const SaveError: string := "Error al guardar los datos"

  datatype Response = Ok(prediction: Prediction) | ServerError(message: string)

  /** The response of one request and the table after it. */
  datatype Outcome = Outcome(response: Response, table: seq<Row>)
}
