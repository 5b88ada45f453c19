/**
 * The backend's global Express error middleware (backend/middlewares/errorHandler.js):
 * it classifies a thrown error and answers with the failure envelope.
 */
module ErrorHandler {
  import opened Wrappers
  import opened JsValues
  import opened ErrorFold
  import opened Responses

  /**
   * The members of a thrown error that the handler reads.
   * `fieldErrors` are the values of `err.errors` (each with its `path` and
   * `message`), `keyPattern` the keys of `err.keyPattern` in order, `path` the
   * cast path of a CastError. `None` stands for an absent member.
   */
  datatype ServerError = ServerError(
    name: string,
    code: Option<int>,
    fieldErrors: seq<FieldError>,
    keyPattern: seq<string>,
    path: string,
    statusCode: Option<int>,
    message: string,
    stack: string)

  /** Which branch of the handler's if-chain an error takes. */
  datatype ErrorKind = ValidationFailure | DuplicateKey | BadObjectId | Other

  /** The checks in the order the handler makes them: the first that matches decides. */
  function Kind(err: ServerError): (k: ErrorKind)
    ensures k == ValidationFailure <==> err.name == "ValidationError"
    ensures k == DuplicateKey <==> err.name != "ValidationError" && err.code == Some(11000)
    ensures k == BadObjectId <==> err.name != "ValidationError" && err.code != Some(11000) && err.name == "CastError"
  {
    if err.name == "ValidationError" then ValidationFailure
    else if err.code == Some(11000) then DuplicateKey
    else if err.name == "CastError" then BadObjectId
    else Other
  }

  /** `err.statusCode` is set: present and not 0. */
  predicate HasStatusCode(err: ServerError)
  {
    err.statusCode.Some? && err.statusCode.value != 0
  }

  /** `Object.keys(err.keyPattern)[0]`, which JavaScript renders as "undefined" when there is no key. */
  function DuplicateField(err: ServerError): string
  {
    if err.keyPattern == [] then "undefined" else err.keyPattern[0]
  }

  /** The response the middleware sends for `err` when `NODE_ENV` is `nodeEnv`. */
  function HandleError(err: ServerError, nodeEnv: Option<string>): (r: Envelope)
    ensures !r.success && r.data == None
    ensures Kind(err) == ValidationFailure ==>
      r.status == 400 && r.message == "Validation Error" && r.errors == Some(StringObject(FoldErrors(err.fieldErrors)))
    ensures Kind(err) == DuplicateKey ==>
      var f := DuplicateField(err);
      r.status == 409 && r.message == "Duplicate Error" && r.errors == Some(Obj(map[f := Str(f + " already exists")]))
    ensures Kind(err) == BadObjectId ==>
      r.status == 400 && r.message == "Invalid ID" && r.errors == Some(Obj(map[err.path := Str("Invalid " + err.path)]))
    ensures Kind(err) == Other && HasStatusCode(err) ==> r.status == err.statusCode.value && r.message == err.message
    ensures Kind(err) == Other && !HasStatusCode(err) ==> r.status == 500 && r.message == "Internal Server Error"
    ensures Kind(err) == Other ==>
      r.errors == (if nodeEnv == Some("development") && err.stack != "" then Some(Str(err.stack)) else None)
  {
    match Kind(err)
    case ValidationFailure =>
      ErrorResponse(400, "Validation Error", StringObject(FoldErrors(err.fieldErrors)))
    case DuplicateKey =>
      var field := DuplicateField(err);
      ErrorResponse(409, "Duplicate Error", Obj(map[field := Str(field + " already exists")]))
    case BadObjectId =>
      ErrorResponse(400, "Invalid ID", Obj(map[err.path := Str("Invalid " + err.path)]))
    case Other =>
      var status := if HasStatusCode(err) then err.statusCode.value else 500;
      var message := if HasStatusCode(err) then err.message else "Internal Server Error";
      ErrorResponse(status, message, if nodeEnv == Some("development") then Str(err.stack) else Undefined)
  }

  /**
   * The stack trace reaches the client only in development, and only in the
   * default branch: every other branch sends an object of field messages.
   */
  lemma StackOnlyInDevelopment(err: ServerError, nodeEnv: Option<string>)
    ensures var r := HandleError(err, nodeEnv);
      r.errors.Some? && r.errors.value.Str? ==>
        nodeEnv == Some("development") && Kind(err) == Other && r.errors.value == Str(err.stack)
  {
  }

  /**
   * An error that carries no status code of its own is answered with 500 and a
   * fixed message, so its own message is never shown.
   */
  lemma UnknownErrorsAreHidden(err: ServerError, nodeEnv: Option<string>)
    requires Kind(err) == Other && !HasStatusCode(err)
    ensures HandleError(err, nodeEnv).status == 500
    ensures HandleError(err, nodeEnv).message == "Internal Server Error"
  {
  }

  /** Every field named by a validation error appears, with the last message reported for it. */
  lemma ValidationErrorsListed(err: ServerError, nodeEnv: Option<string>, i: nat)
    requires err.name == "ValidationError"
    requires i < |err.fieldErrors|
    requires forall j :: i < j < |err.fieldErrors| ==> err.fieldErrors[j].path != err.fieldErrors[i].path
    ensures var r := HandleError(err, nodeEnv);
      r.errors.Some? && r.errors.value.Obj? &&
      r.errors.value.fields[err.fieldErrors[i].path] == Str(err.fieldErrors[i].msg)
  {
    FoldKeepsLast(err.fieldErrors, i);
  }
}
