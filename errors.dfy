/** The mapping of database errors to action results shared by the master-data actions. */
module Errors {
  import opened Wrappers
  import opened Entities

  const DuplicateMessage: string := "Duplicate value. Please use a different value."
  const RecordNotFoundMessage: string := "Record not found."
  const SomethingWrongMessage: string := "Something went wrong. Please try again."
  const FixValidationMessage: string := "Fix validation errors."

  /** What an action can catch: a known database error with its code, or anything else. */
  datatype Thrown = KnownRequestError(code: string) | OtherError(message: Option<string>)

  /** `prismaError`: a unique violation, a missing record, or a generic failure. */
  function PrismaError(e: Thrown): (r: ActionResult<()>)
    ensures r.Err? && r.fieldErrors.None?
    ensures e == KnownRequestError("P2002") <==> r.code == Some(CONFLICT)
    ensures e == KnownRequestError("P2025") <==> r.code == Some(NOT_FOUND)
    ensures r.code == Some(CONFLICT) || r.code == Some(NOT_FOUND) || r.code == Some(FAILED)
    ensures r.code == Some(CONFLICT) ==> r.message == DuplicateMessage
    ensures r.code == Some(NOT_FOUND) ==> r.message == RecordNotFoundMessage
    ensures r.code == Some(FAILED) ==> r.message == SomethingWrongMessage
  {
    if e.KnownRequestError? && e.code == "P2002" then
      Err(Some(CONFLICT), DuplicateMessage, None)
    else if e.KnownRequestError? && e.code == "P2025" then
      Err(Some(NOT_FOUND), RecordNotFoundMessage, None)
    else
      Err(Some(FAILED), SomethingWrongMessage, None)
  }

  /** `validationError`: always a failure coded VALIDATION_ERROR, with the messages per field. */
  function ValidationError(fieldErrors: FieldErrors): (r: ActionResult<()>)
    ensures r.Err? && r.code == Some(VALIDATION_ERROR)
    ensures r.message == FixValidationMessage && r.fieldErrors == Some(fieldErrors)
  {
    Err(Some(VALIDATION_ERROR), FixValidationMessage, Some(fieldErrors))
  }
}
