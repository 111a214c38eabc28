/**
 * The HTTP answers the edge functions produce: a status and a body that is
 * either plain text or the JSON serialisation of a value (the serialisation
 * itself is not modelled; the body holds the value); and the messages they
 * send to the model.
 */
module EdgeResponse {
  import opened JsValue

  datatype Body = Text(text: string) | Json(value: Value)

  datatype Response = Response(status: int, body: Body)

  /** One message of the list an edge function sends to the model. */
  datatype ModelMessage = ModelMessage(role: string, content: string)

  /** The answer to a CORS preflight request. */
  const PreflightResponse := Response(200, Text("ok"))

  /** A failed request: status 400 and `{error: message}`. */
  function ErrorResponse(message: string): (r: Response)
    ensures r.status == 400 && r.body == Json(Object([("error", Str(message))]))
  {
    Response(400, Json(Object([("error", Str(message))])))
  }

  /** A successful JSON answer (status 200 is the default). */
  function JsonResponse(v: Value): (r: Response)
    ensures r.status == 200 && r.body == Json(v)
  {
    Response(200, Json(v))
  }

  /** A failure answer names its message under the single key `error`. */
  predicate IsErrorResponse(r: Response) {
    r.status == 400 && r.body.Json? && r.body.value.Object?
    && |r.body.value.fields| == 1 && r.body.value.fields[0].0 == "error" && r.body.value.fields[0].1.Str?
  }
}
