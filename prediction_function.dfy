/**
 * The request handler of the prediction edge function, from the point where
 * the model's answer arrives: the `'{}'` fallback for missing content, the
 * destructuring of the parsed answer, the presence-and-truthiness check of
 * its fields, and the success and failure responses.
 *
 * Everything the handler awaits is a parameter: `completion` is the outcome
 * of reading the request and calling the model (`Err` carries the message of
 * whatever was thrown, `Ok` the message content, `None` for `null` or a
 * missing content), and `parse` is `JSON.parse`, whose `Err` is the message of
 * its syntax error.
 */
module PredictionFunction {
  import opened Wrappers
  import opened JsValue
  import opened EdgeResponse

  const MissingFieldsMessage := "Invalid response from OpenAI: missing required fields"

  /** V8's message for destructuring `result` when `JSON.parse` gave `null`. */
  const NullResultMessage := "Cannot destructure property 'prediction' of 'result' as it is null."

  /** The text handed to `JSON.parse`: the content, or `'{}'` when the content is missing or empty. */
  function EffectiveContent(content: Option<string>): (r: string)
    ensures r == "{}" <==> content.None? || content.value == "" || content.value == "{}"
    ensures content.Some? && content.value != "" ==> r == content.value
  {
    if content.Some? && content.value != "" then content.value else "{}"
  }

  /** The condition under which the handler does not throw at the field check. */
  predicate Complete(prediction: Value, firstMessage: Value, summary: Value) {
    && Truthy(prediction)
    && Truthy(Property(prediction, "past"))
    && Truthy(Property(prediction, "present"))
    && Truthy(Property(prediction, "future"))
    && Truthy(firstMessage)
    && Truthy(summary)
  }

  /** The success body: exactly the three fields, in this order. */
  function SuccessBody(prediction: Value, firstMessage: Value, summary: Value): (r: Value)
    ensures r.Object? && |r.fields| == 3
    ensures r.fields[0].0 == "prediction" && r.fields[1].0 == "firstMessage" && r.fields[2].0 == "summary"
    ensures Lookup(r.fields, "prediction") == prediction
    ensures Lookup(r.fields, "firstMessage") == firstMessage
    ensures Lookup(r.fields, "summary") == summary
  {
    var fields := [("prediction", prediction), ("firstMessage", firstMessage), ("summary", summary)];
    ThreeFields(fields);
    Object(fields)
  }

  /** Reading each key of a three-field object with distinct keys. */
  lemma ThreeFields(fields: seq<(string, Value)>)
    requires |fields| == 3
    requires fields[0].0 != fields[1].0 && fields[0].0 != fields[2].0 && fields[1].0 != fields[2].0
    ensures Lookup(fields, fields[0].0) == fields[0].1
    ensures Lookup(fields, fields[1].0) == fields[1].1
    ensures Lookup(fields, fields[2].0) == fields[2].1
  {
    var init := fields[..2];
    assert init[1] == fields[1] && init[..1] == [fields[0]];
    assert Lookup(init, fields[0].0) == Lookup([fields[0]], fields[0].0) == fields[0].1;
  }

  /**
   * Destructuring the parsed answer and checking it: the fields of an
   * accepted answer, echoed in the success body, or the message thrown.
   */
  function CheckResult(result: Value): (r: Result<Value>)
    ensures r.Ok? <==> (HasProperties(result)
      && Complete(Property(result, "prediction"), Property(result, "firstMessage"), Property(result, "summary")))
    ensures r.Ok? ==> r.value == SuccessBody(Property(result, "prediction"), Property(result, "firstMessage"), Property(result, "summary"))
    ensures r.Err? && result.Null? ==> r.message == NullResultMessage
    ensures r.Err? && HasProperties(result) ==> r.message == MissingFieldsMessage
  {
    if result.Null? then Err(NullResultMessage)
    else if result.Undefined? then Err("Cannot destructure property 'prediction' of 'result' as it is undefined.")
    else
      var prediction := Property(result, "prediction");
      var firstMessage := Property(result, "firstMessage");
      var summary := Property(result, "summary");
      if !Truthy(prediction) || !Truthy(Property(prediction, "past")) || !Truthy(Property(prediction, "present"))
         || !Truthy(Property(prediction, "future")) || !Truthy(firstMessage) || !Truthy(summary)
      then Err(MissingFieldsMessage)
      else Ok(SuccessBody(prediction, firstMessage, summary))
  }

  /** The whole handler for one request. */
  function HandleRequest(httpMethod: string, completion: Result<Option<string>>, parse: string -> Result<Value>): (r: Response)
    ensures httpMethod == "OPTIONS" ==> r == PreflightResponse
    ensures httpMethod != "OPTIONS" ==> r.status == 200 || IsErrorResponse(r)
    ensures httpMethod != "OPTIONS" && completion.Err? ==> r == ErrorResponse(completion.message)
  {
    if httpMethod == "OPTIONS" then PreflightResponse
    else match completion
      case Err(message) => ErrorResponse(message)
      case Ok(content) =>
        match parse(EffectiveContent(content))
        case Err(message) => ErrorResponse(message)
        case Ok(result) =>
          match CheckResult(result)
          case Err(message) => ErrorResponse(message)
          case Ok(body) => JsonResponse(body)
  }

  /** A response of the handler to a non-preflight request succeeds exactly when the parsed answer passes the check, and then carries its fields. */
  lemma HandleRequestSucceeds(httpMethod: string, completion: Result<Option<string>>, parse: string -> Result<Value>)
    requires httpMethod != "OPTIONS"
    ensures HandleRequest(httpMethod, completion, parse).status == 200
        <==> completion.Ok? && parse(EffectiveContent(completion.value)).Ok?
             && CheckResult(parse(EffectiveContent(completion.value)).value).Ok?
    ensures HandleRequest(httpMethod, completion, parse).status == 200
        ==> HandleRequest(httpMethod, completion, parse).body
            == Json(CheckResult(parse(EffectiveContent(completion.value)).value).value)
  {
  }

  /** Missing or empty model content is read as `{}`, which has none of the fields, so it is rejected. */
  lemma EmptyContentIsRejected(httpMethod: string, content: Option<string>, parse: string -> Result<Value>)
    requires httpMethod != "OPTIONS"
    requires content.None? || content.value == ""
    requires parse("{}") == Ok(Object([]))
    ensures HandleRequest(httpMethod, Ok(content), parse) == ErrorResponse(MissingFieldsMessage)
  {
    assert EffectiveContent(content) == "{}";
  }

  /** The field check rejects an answer when any of the six values it reads is falsy. */
  lemma FalsyFieldIsRejected(result: Value, key: string)
    requires result.Object?
    requires key in {"prediction", "firstMessage", "summary"}
    requires !Truthy(Lookup(result.fields, key))
    ensures CheckResult(result) == Err(MissingFieldsMessage)
  {
  }

  /** An empty text counts as missing, whichever of the five text fields holds it. */
  lemma EmptyTextIsRejected(past: string, present: string, future: string, firstMessage: string, summary: string)
    requires past == "" || present == "" || future == "" || firstMessage == "" || summary == ""
    ensures CheckResult(Answer(past, present, future, firstMessage, summary)) == Err(MissingFieldsMessage)
  {
    var answer := Answer(past, present, future, firstMessage, summary);
    ThreeFields(answer.fields);
    ThreeFields(answer.fields[0].1.fields);
  }

  /** The answer the instructions ask the model for. */
  function Answer(past: string, present: string, future: string, firstMessage: string, summary: string): Value {
    Object([
      ("prediction", Object([("past", Str(past)), ("present", Str(present)), ("future", Str(future))])),
      ("firstMessage", Str(firstMessage)),
      ("summary", Str(summary))
    ])
  }

  /** An answer of the requested shape whose texts are all non-empty passes, and the body echoes it unchanged. */
  lemma WellFormedAnswerIsEchoed(past: string, present: string, future: string, firstMessage: string, summary: string)
    requires past != "" && present != "" && future != "" && firstMessage != "" && summary != ""
    ensures CheckResult(Answer(past, present, future, firstMessage, summary))
         == Ok(Answer(past, present, future, firstMessage, summary))
  {
    var answer := Answer(past, present, future, firstMessage, summary);
    ThreeFields(answer.fields);
    ThreeFields(answer.fields[0].1.fields);
  }

  /** `JSON.parse` of `null` makes the destructuring throw before any check. */
  lemma NullAnswerIsRejected(httpMethod: string, content: Option<string>, parse: string -> Result<Value>)
    requires httpMethod != "OPTIONS"
    requires parse(EffectiveContent(content)) == Ok(Null)
    ensures HandleRequest(httpMethod, Ok(content), parse) == ErrorResponse(NullResultMessage)
  {
  }
}
