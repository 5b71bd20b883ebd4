/**
 * The `get-test-results` edge function
 * (supabase/functions/get-test-results/index.ts): given a payment code it
 * answers with the most recent `test_results` row carrying that code, or
 * `null`. The database is the input `db`: the rows of the table, or the
 * error the query reports. The query only reads the rows it is given.
 */
module GetResults {
  import opened Wrappers
  import opened ResultsStore

  /** The JSON body of the request. */
  datatype GetRequest = GetRequest(payment_code: Option<string>)

  /** The table as the query sees it: its rows, or a query error with its message. */
  datatype Table = Rows(rows: seq<TestResultRow>) | QueryError(message: string)

  const MissingCodeMessage: string := "payment_code is required"

  /**
   * `.eq('payment_code', code).order('test_date', { ascending: false })
   * .limit(1).maybeSingle()`: a row with the code and the latest date among
   * such rows, or none when no row has the code. Among rows sharing the
   * latest date, which one is chosen is not promised.
   */
  function LatestFor(rows: seq<TestResultRow>, code: string): (latest: Option<TestResultRow>)
    ensures latest.None? <==> forall i :: 0 <= i < |rows| ==> rows[i].payment_code != code
    ensures latest.Some? ==> latest.value in rows && latest.value.payment_code == code
    ensures latest.Some? ==>
              forall i :: 0 <= i < |rows| && rows[i].payment_code == code ==>
                rows[i].test_date <= latest.value.test_date
    decreases |rows|
  {
    if rows == [] then None
    else
      var rest := LatestFor(rows[1..], code);
      if rows[0].payment_code != code then rest
      else if rest.Some? && rest.value.test_date > rows[0].test_date then rest
      else Some(rows[0])
  }

  /**
   * The request handler. `body` is the parsed JSON body, or the message of
   * the exception raised while reading it.
   */
  function GetTestResults(verb: string, body: Result<GetRequest, string>, db: Table): (resp: Response)
    ensures verb == PreflightMethod ==> resp == PreflightResponse
    ensures verb != PreflightMethod && body.Failure? ==> resp == Response(500, ErrorBody(body.error, None))
    ensures resp.status in {200, 400, 500}
    ensures resp.status == 400 <==>
              verb != PreflightMethod && body.Success? && !TruthyString(body.value.payment_code)
    ensures resp.status == 200 && verb != PreflightMethod ==>
              body.Success? && TruthyString(body.value.payment_code) && db.Rows?
              && resp.body.DataBody?
    ensures resp.body.DataBody? && resp.body.data.Some? ==>
              body.Success? && db.Rows? && resp.body.data.value in db.rows
              && Some(resp.body.data.value.payment_code) == body.value.payment_code
  {
    if verb == PreflightMethod then PreflightResponse
    else match body
      case Failure(message) => Response(500, ErrorBody(message, None))
      case Success(req) =>
        if !TruthyString(req.payment_code) then Response(400, ErrorBody(MissingCodeMessage, None))
        else match db
          case QueryError(message) => Response(500, ErrorBody(message, None))
          case Rows(rows) => Response(200, DataBody(LatestFor(rows, req.payment_code.value)))
  }

  /** A request without a payment code is refused with 400 whatever the table holds. */
  lemma MissingCodeRejected(verb: string, req: GetRequest, db1: Table, db2: Table)
    requires verb != PreflightMethod && !TruthyString(req.payment_code)
    ensures GetTestResults(verb, Success(req), db1) == GetTestResults(verb, Success(req), db2)
    ensures GetTestResults(verb, Success(req), db1) == Response(400, ErrorBody(MissingCodeMessage, None))
  {
  }

  /**
   * With a payment code: a query error answers 500 with its message, no
   * matching row answers 200 with `null`, and otherwise 200 with a row of
   * that code dated no earlier than any other row of that code.
   */
  lemma LookupResponse(verb: string, code: string, db: Table)
    requires verb != PreflightMethod && code != ""
    ensures db.QueryError? ==>
              GetTestResults(verb, Success(GetRequest(Some(code))), db)
              == Response(500, ErrorBody(db.message, None))
    ensures db.Rows? && (forall i :: 0 <= i < |db.rows| ==> db.rows[i].payment_code != code) ==>
              GetTestResults(verb, Success(GetRequest(Some(code))), db) == Response(200, DataBody(None))
    ensures db.Rows? && (exists i :: 0 <= i < |db.rows| && db.rows[i].payment_code == code) ==>
              var resp := GetTestResults(verb, Success(GetRequest(Some(code))), db);
              && resp.status == 200 && resp.body.DataBody? && resp.body.data.Some?
              && resp.body.data.value.payment_code == code
              && forall i :: 0 <= i < |db.rows| && db.rows[i].payment_code == code ==>
                   db.rows[i].test_date <= resp.body.data.value.test_date
  {
  }

  /** Appending a row stored under another payment code does not change the answer for `code`. */
  lemma {:induction false} LatestIgnoresOtherCodes(rows: seq<TestResultRow>, other: TestResultRow, code: string)
    requires other.payment_code != code
    ensures LatestFor(rows + [other], code) == LatestFor(rows, code)
    decreases |rows|
  {
    if rows == [] {
      assert [other][1..] == [];
    } else {
      assert (rows + [other])[1..] == rows[1..] + [other];
      LatestIgnoresOtherCodes(rows[1..], other, code);
    }
  }

  /**
   * A row saved later than every row already stored under its payment code
   * is the one the lookup answers with.
   */
  lemma {:induction false} LatestFindsNewestSave(rows: seq<TestResultRow>, saved: TestResultRow)
    requires forall i :: 0 <= i < |rows| && rows[i].payment_code == saved.payment_code ==>
               rows[i].test_date < saved.test_date
    ensures LatestFor(rows + [saved], saved.payment_code) == Some(saved)
    decreases |rows|
  {
    if rows == [] {
      assert [saved][1..] == [];
    } else {
      assert (rows + [saved])[1..] == rows[1..] + [saved];
      LatestFindsNewestSave(rows[1..], saved);
    }
  }
}
