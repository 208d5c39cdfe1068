/** The uniform response envelope every handler answers with
    (`create_response` in backend/app.py). */
module Envelope {
  import opened Wrappers
  import opened PyJson

  /** The envelope's JSON body `{code, success, message, result}`. */
  datatype Body = Body(code: int, success: bool, message: string, result: Json)

  /** What Flask receives from a handler: the body and the HTTP status. */
  datatype Response = Response(body: Body, status: int)

  const DataTypeErrorMessage: string := "Data should be a dictionary \U{1F61E}"

  /** A status code counts as success exactly when it is a 2xx code. */
  predicate IsSuccessStatus(status: int)
  {
    200 <= status < 300
  }

  /** The payload must be a dict or `None`; anything else is a programming
      error and raises `TypeError` before any envelope is built. */
  function CreateResponse(data: Json, status: int, message: string): (r: Result<Response, PyError>)
    ensures r.Err? <==> !(data.JObject? || data.JNull?)
    ensures r.Err? ==> r.error == TypeError(DataTypeErrorMessage)
    ensures r.Ok? ==> r.value.status == status && r.value.body.code == r.value.status
    ensures r.Ok? ==> (r.value.body.success <==> 200 <= status < 300)
    ensures r.Ok? ==> r.value.body.message == message && r.value.body.result == data
  {
    if TypeName(data) != "dict" && !data.JNull? then
      Err(TypeError(DataTypeErrorMessage))
    else
      Ok(Response(Body(status, IsSuccessStatus(status), message, data), status))
  }

  /** The error statuses the handlers use are reported as failures. */
  lemma ErrorStatusesAreNotSuccess(data: Json, message: string)
    requires data.JObject? || data.JNull?
    ensures CreateResponse(data, 404, message).Ok? && !CreateResponse(data, 404, message).value.body.success
    ensures CreateResponse(data, 422, message).Ok? && !CreateResponse(data, 422, message).value.body.success
    ensures CreateResponse(data, 200, message).Ok? && CreateResponse(data, 200, message).value.body.success
  {
  }
}
