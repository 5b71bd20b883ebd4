/**
 * The `save-test-results` edge function
 * (supabase/functions/save-test-results/index.ts): it checks that a result
 * names an email and a payment code, fills in defaults for the optional
 * fields, inserts one `test_results` row and answers with the stored row or
 * the error. The database insert is the parameter `insert`, so a response
 * that does not depend on it is one for which no insert was attempted.
 */
module SaveResults {
  import opened Wrappers
  import opened ResultsStore

  /** The JSON body of the request, each field absent (`undefined`) or present. */
  datatype SaveRequest = SaveRequest(
    email: Option<string>,
    payment_code: Option<string>,
    participant_name: Option<string>,
    duration: Option<string>,
    omission_errors: Option<real>,
    commission_errors: Option<real>,
    response_time: Option<real>,
    variability: Option<real>)

  /** The object handed to `insert`. */
  datatype NewRow = NewRow(
    email: string,
    payment_code: string,
    participant_name: string,
    duration: Option<string>,
    omission_errors: real,
    commission_errors: real,
    response_time: real,
    variability: real,
    status: ResultStatus)

  /** What the database answers to the insert: the stored row, or an error with message and code. */
  datatype InsertOutcome = Inserted(row: TestResultRow) | InsertFailed(message: string, code: string)

  const MissingFieldsMessage: string := "Email and payment_code are required"

  /** The name stored when the request gives none. */
  const DefaultParticipantName: string := "Peserta"

  /**
   * `field || 0` for a number field: zero exactly when the field is falsy,
   * and otherwise the field's own value.
   */
  function OrZero(field: Option<real>): (value: real)
    ensures value == 0.0 <==> !TruthyNumber(field)
    ensures value != 0.0 ==> field == Some(value)
  {
    if TruthyNumber(field) then field.value else 0.0
  }

  /**
   * `field || fallback` for a string field: the field's own value when it
   * is truthy, the fallback otherwise.
   */
  function OrDefault(field: Option<string>, fallback: string): (value: string)
    ensures TruthyString(field) ==> field == Some(value) && value != ""
    ensures !TruthyString(field) ==> value == fallback
  {
    if TruthyString(field) then field.value else fallback
  }

  /**
   * Validation and construction of the inserted row: none when the email or
   * the payment code is missing or empty, otherwise a row that copies them
   * and the duration, defaults the name to "Peserta" and each measure to 0,
   * and is marked completed.
   */
  function PlanInsert(req: SaveRequest): (row: Option<NewRow>)
    ensures row.Some? <==> TruthyString(req.email) && TruthyString(req.payment_code)
    ensures row.Some? ==>
              && row.value.email != "" && row.value.payment_code != ""
              && Some(row.value.email) == req.email
              && Some(row.value.payment_code) == req.payment_code
              && row.value.duration == req.duration
              && row.value.status == Completed
  {
    if !TruthyString(req.email) || !TruthyString(req.payment_code) then None
    else Some(NewRow(
      req.email.value,
      req.payment_code.value,
      OrDefault(req.participant_name, DefaultParticipantName),
      req.duration,
      OrZero(req.omission_errors),
      OrZero(req.commission_errors),
      OrZero(req.response_time),
      OrZero(req.variability),
      Completed))
  }

  /**
   * The request handler. `body` is the parsed JSON body, or the message of
   * the exception raised while reading it.
   */
  function SaveTestResults(verb: string, body: Result<SaveRequest, string>,
                           insert: NewRow -> InsertOutcome): (resp: Response)
    ensures verb == PreflightMethod ==> resp == PreflightResponse
    ensures verb != PreflightMethod && body.Failure? ==> resp == Response(500, ErrorBody(body.error, None))
    ensures resp.status in {200, 400, 500}
    ensures resp.status == 400 <==>
              verb != PreflightMethod && body.Success? && PlanInsert(body.value).None?
    ensures resp.status == 200 && verb != PreflightMethod ==>
              body.Success? && PlanInsert(body.value).Some?
              && insert(PlanInsert(body.value).value).Inserted?
              && resp.body == DataBody(Some(insert(PlanInsert(body.value).value).row))
  {
    if verb == PreflightMethod then PreflightResponse
    else match body
      case Failure(message) => Response(500, ErrorBody(message, None))
      case Success(req) =>
        match PlanInsert(req)
        case None => Response(400, ErrorBody(MissingFieldsMessage, None))
        case Some(row) =>
          match insert(row)
          case InsertFailed(message, code) => Response(500, ErrorBody(message, Some(code)))
          case Inserted(stored) => Response(200, DataBody(Some(stored)))
  }

  /** A request without an email or payment code is refused with 400 before any insert. */
  lemma MissingFieldsRejected(verb: string, req: SaveRequest,
                              insert1: NewRow -> InsertOutcome, insert2: NewRow -> InsertOutcome)
    requires verb != PreflightMethod
    requires !TruthyString(req.email) || !TruthyString(req.payment_code)
    ensures SaveTestResults(verb, Success(req), insert1) == SaveTestResults(verb, Success(req), insert2)
    ensures SaveTestResults(verb, Success(req), insert1) == Response(400, ErrorBody(MissingFieldsMessage, None))
  {
  }

  /** The optional fields fall back to their defaults exactly when they are falsy. */
  lemma InsertDefaults(req: SaveRequest)
    requires PlanInsert(req).Some?
    ensures PlanInsert(req).value.participant_name
            == if TruthyString(req.participant_name) then req.participant_name.value else DefaultParticipantName
    ensures PlanInsert(req).value.omission_errors
            == if TruthyNumber(req.omission_errors) then req.omission_errors.value else 0.0
    ensures PlanInsert(req).value.commission_errors
            == if TruthyNumber(req.commission_errors) then req.commission_errors.value else 0.0
    ensures PlanInsert(req).value.response_time
            == if TruthyNumber(req.response_time) then req.response_time.value else 0.0
    ensures PlanInsert(req).value.variability
            == if TruthyNumber(req.variability) then req.variability.value else 0.0
  {
  }

  /** A failed insert answers 500 with the database's message and code; a stored row answers 200 with that row. */
  lemma InsertOutcomeResponse(verb: string, req: SaveRequest, insert: NewRow -> InsertOutcome)
    requires verb != PreflightMethod && PlanInsert(req).Some?
    ensures insert(PlanInsert(req).value).InsertFailed? ==>
              SaveTestResults(verb, Success(req), insert)
              == Response(500, ErrorBody(insert(PlanInsert(req).value).message,
                                         Some(insert(PlanInsert(req).value).code)))
    ensures insert(PlanInsert(req).value).Inserted? ==>
              SaveTestResults(verb, Success(req), insert)
              == Response(200, DataBody(Some(insert(PlanInsert(req).value).row)))
  {
  }
}
