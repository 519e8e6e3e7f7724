/** interface/src/handler/error.rs: the application error of the HTTP layer,
    its display text and the status code of the response it becomes. */
module HandlerError {

  /** `AppError`. The validation report is kept as its rendered text. */
  datatype AppError =
    | EntityNotFound(message: string)
    | ValidationError(report: string)
    | CreateRecordError
    | UpdateRecordError
    | DeleteRecordError

  const NotFound: nat := 404
  const BadRequest: nat := 400
  const InternalServerError: nat := 500

  /** The failures of a write to the store, which are the server's fault. */
  predicate IsRecordError(e: AppError)
  {
    e.CreateRecordError? || e.UpdateRecordError? || e.DeleteRecordError?
  }

  /** `into_response`: the status code of the error's response. Not found
      is 404 and a failed validation 400, whatever their text; the three
      failed writes are 500. */
  function StatusCode(e: AppError): (code: nat)
    ensures code == NotFound <==> e.EntityNotFound?
    ensures code == BadRequest <==> e.ValidationError?
    ensures code == InternalServerError <==> IsRecordError(e)
    ensures code == NotFound || code == BadRequest || code == InternalServerError
  {
    match e
    case EntityNotFound(_) => NotFound
    case ValidationError(_) => BadRequest
    case CreateRecordError | UpdateRecordError | DeleteRecordError => InternalServerError
  }

  /** The `Display` text of the error: the carried message for the first
      two, a fixed sentence for each failed write. */
  function Message(e: AppError): string
  {
    match e
    case EntityNotFound(m) => m
    case ValidationError(r) => r
    case CreateRecordError => "Failed create record."
    case UpdateRecordError => "Failed update record"
    case DeleteRecordError => "Failed Delete record"
  }

  /** The response is a client error (4xx) exactly for a missing entity or a
      failed validation, and a server error (5xx) exactly for a failed write. */
  lemma ClientOrServer(e: AppError)
    ensures 400 <= StatusCode(e) < 500 <==> e.EntityNotFound? || e.ValidationError?
    ensures 500 <= StatusCode(e) < 600 <==> IsRecordError(e)
  {
  }

  /** The status ignores the error's text: two errors of the same variant
      give the same status, whatever their messages. */
  lemma StatusIgnoresText(m1: string, m2: string)
    ensures StatusCode(EntityNotFound(m1)) == StatusCode(EntityNotFound(m2))
    ensures StatusCode(ValidationError(m1)) == StatusCode(ValidationError(m2))
  {
  }

  /** The text of a failed write tells which write failed: the three fixed
      sentences differ, and none is empty. */
  lemma RecordMessagesDistinct(e1: AppError, e2: AppError)
    requires IsRecordError(e1) && IsRecordError(e2)
    ensures Message(e1) != ""
    ensures Message(e1) == Message(e2) <==> e1 == e2
  {
    assert Message(CreateRecordError)[7] == 'c';
    assert Message(UpdateRecordError)[7] == 'u';
    assert Message(DeleteRecordError)[7] == 'D';
  }
}
