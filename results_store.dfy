/**
 * The `test_results` table row and the JSON responses shared by the two
 * edge functions that write and read it
 * (supabase/functions/save-test-results/index.ts,
 * supabase/functions/get-test-results/index.ts).
 */
module ResultsStore {
  import opened Wrappers

  /** The `status` column of a result row. */
  datatype ResultStatus = InProgress | Completed

  /**
   * A stored result row. `test_date` is the row's timestamp, as an ordered
   * number; the numeric measures are JSON numbers.
   */
  datatype TestResultRow = TestResultRow(
    id: string,
    email: string,
    payment_code: string,
    participant_name: string,
    test_date: int,
    duration: Option<string>,
    omission_errors: real,
    commission_errors: real,
    response_time: real,
    variability: real,
    status: ResultStatus)

  /** The JSON body of a response, or none at all for the CORS preflight. */
  datatype Body =
    | NoBody
    | ErrorBody(error: string, code: Option<string>)
    | DataBody(data: Option<TestResultRow>)

  /** An HTTP response: status code and body (the CORS headers are the same on every one). */
  datatype Response = Response(status: nat, body: Body)

  /** The method of a CORS preflight request, answered before anything else. */
  const PreflightMethod: string := "OPTIONS"

  /** The preflight answer: status 200 (the `Response` default) and no body. */
  const PreflightResponse: Response := Response(200, NoBody)

  /**
   * JavaScript truthiness of an optional string field: the two falsy values
   * are `undefined` and the empty string.
   */
  function TruthyString(field: Option<string>): (truthy: bool)
    ensures !truthy <==> field == None || field == Some("")
  {
    field.Some? && field.value != ""
  }

  /**
   * JavaScript truthiness of an optional number field: the two falsy values
   * are `undefined` and zero.
   */
  function TruthyNumber(field: Option<real>): (truthy: bool)
    ensures !truthy <==> field == None || field == Some(0.0)
  {
    field.Some? && field.value != 0.0
  }
}
