/**
 * The JSON envelope every backend endpoint answers with
 * (backend-rest-api/utils/responseHandler.js): `{ success, message, data? }` on
 * success and `{ success, message, errors? }` on failure, sent with a status code.
 */
module Responses {
  import opened Wrappers
  import opened JsValues

  /**
   * A response: its HTTP status and its JSON body's members. `data` and `errors`
   * are `None` when the member is left out of the body.
   */
  datatype Envelope = Envelope(
    status: int,
    success: bool,
    message: string,
    data: Option<JsValue>,
    errors: Option<JsValue>)

  /** `successResponse(res, statusCode, message, data)`: `data` is attached only when truthy. */
  function SuccessResponse(status: int, message: string, data: JsValue): (r: Envelope)
    ensures r.status == status && r.success && r.message == message && r.errors == None
    ensures r.data.Some? <==> Truthy(data)
    ensures r.data.Some? ==> r.data.value == data
  {
    Envelope(status, true, message, if Truthy(data) then Some(data) else None, None)
  }

  /** `errorResponse(res, statusCode, message, errors)`: `errors` is attached only when truthy. */
  function ErrorResponse(status: int, message: string, errors: JsValue): (r: Envelope)
    ensures r.status == status && !r.success && r.message == message && r.data == None
    ensures r.errors.Some? <==> Truthy(errors)
    ensures r.errors.Some? ==> r.errors.value == errors
  {
    Envelope(status, false, message, None, if Truthy(errors) then Some(errors) else None)
  }

  /** `responseHandler(res, statusCode, message, data)`: the error envelope exactly from status 400 on. */
  function ResponseHandler(status: int, message: string, payload: JsValue): (r: Envelope)
    ensures r.status == status && r.message == message
    ensures r.success <==> status < 400
  {
    if status >= 400 then ErrorResponse(status, message, payload) else SuccessResponse(status, message, payload)
  }

  /** The JSON body the client receives for an envelope. */
  function Body(e: Envelope): (j: JsValue)
    ensures j.Obj?
    ensures "success" in j.fields && j.fields["success"] == Bool(e.success)
    ensures "message" in j.fields && j.fields["message"] == Str(e.message)
    ensures "data" in j.fields <==> e.data.Some?
    ensures e.data.Some? ==> j.fields["data"] == e.data.value
    ensures "errors" in j.fields <==> e.errors.Some?
    ensures e.errors.Some? ==> j.fields["errors"] == e.errors.value
    ensures j.fields.Keys <= {"success", "message", "data", "errors"}
  {
    var base := map["success" := Bool(e.success), "message" := Str(e.message)];
    var withData := if e.data.Some? then base["data" := e.data.value] else base;
    Obj(if e.errors.Some? then withData["errors" := e.errors.value] else withData)
  }

  /**
   * `responseHandler` puts a truthy payload under `data` when the status is below
   * 400 and under `errors` from 400 on, and leaves both members out of the body
   * for a falsy payload; `success` in the body agrees with the status.
   */
  lemma ResponseHandlerBody(status: int, message: string, payload: JsValue)
    ensures var b := Body(ResponseHandler(status, message, payload)).fields;
      && b["success"] == Bool(status < 400)
      && b["message"] == Str(message)
      && ("data" in b <==> status < 400 && Truthy(payload))
      && ("errors" in b <==> status >= 400 && Truthy(payload))
      && ("data" in b ==> b["data"] == payload)
      && ("errors" in b ==> b["errors"] == payload)
  {
  }

  /** `mongoDbStatusResponse(res, status)`: 200 when `status.isConnected` is truthy, 503 otherwise. */
  function MongoDbStatusResponse(status: map<string, JsValue>): (r: Envelope)
    ensures Truthy(Field(status, "isConnected")) ==>
      r == Envelope(200, true, "MongoDB connection is healthy", Some(Obj(status)), None)
    ensures !Truthy(Field(status, "isConnected")) ==>
      r == Envelope(503, false, "MongoDB connection is not available", None, Some(Obj(status)))
  {
    var connected := Truthy(Field(status, "isConnected"));
    ResponseHandler(
      if connected then 200 else 503,
      if connected then "MongoDB connection is healthy" else "MongoDB connection is not available",
      Obj(status))
  }

  /** `mongoDbMetricsResponse(res, metrics)`: always 200 and successful, with the metrics object as `data`. */
  function MongoDbMetricsResponse(metrics: map<string, JsValue>): (r: Envelope)
    ensures r == Envelope(200, true, "MongoDB metrics retrieved successfully", Some(Obj(metrics)), None)
  {
    ResponseHandler(200, "MongoDB metrics retrieved successfully", Obj(metrics))
  }
}
