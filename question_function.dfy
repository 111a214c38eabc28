/**
 * The question-generation edge function: its own instructions and prompt
 * builder (the variant that labels the conversation "Chat History"), the
 * reading of the request, the two messages sent to the model, the
 * empty-answer check and the two responses.
 *
 * What the handler awaits or calls outside the model is a parameter:
 * `request` is the outcome of `req.json()` and its destructuring (`Err`
 * carries the message thrown), `stringify` is `JSON.stringify` followed by
 * the template literal's conversion to text, `complete` is the model call
 * (`Err` for a thrown error, `Ok(None)` for a missing content), and `parse` is
 * `JSON.parse`, whose `Err` is the message of its syntax error.
 */
module QuestionFunction {
  import opened Wrappers
  import opened Text
  import opened Records
  import opened JsValue
  import opened EdgeResponse
  import opened QuestionTemplate

  /** The instructions, with their `{timeFrame}` placeholders. */
  const StaticPrompt: string := "You are a tarot reader's assistant. Your task is to generate a thought-provoking question based on a tarot card prediction and previous conversation. The question should aim to clarify vague aspects of the prediction for the {timeFrame}, encouraging the user to reflect on deeply personal and private experiences from their past.\n\nGuidelines:\n1. Identify a vague or symbolic element from the tarot card's interpretation that hasn't been addressed in the chat history.\n2. Formulate a question that prompts the user to reveal a specific, private event or experience from their past that relates to the tarot card's symbolism.\n3. Provide 2 to 4 distinct and specific answer options that represent very different personal experiences. These options MUST be completely mutually exclusive with absolutely NO overlap between them. Ensure users can only select one that truly applies to them.\n4. Each option should touch on sensitive or private information that a person might be hesitant to share publicly.\n5. Include emojis in both the question and options for visual engagement.\n6. Avoid repeating questions or topics that have already been discussed in the chat history.\n\nHere's an example:\nexpected input:\n{\n  \"prediction\": {\n    \"past\": \"The High Priestess appeared in your past position, symbolizing intuition and hidden knowledge. This energy suggests that your journey towards PR may have begun in subtle ways before you were fully aware of it. You might have felt drawn to certain experiences or knowledge that are now proving valuable in your PR process. There's a sense that your subconscious was guiding you, preparing you for this path even when you weren't actively pursuing it.\",\n    \"present\": \"Your present is represented by The Chariot, symbolizing willpower and determination. This indicates that you're currently in a phase of active pursuit and focused energy regarding your PR goals. You're likely taking concrete steps towards your objective, facing challenges head-on, and maintaining a strong drive despite any obstacles.\",\n    \"future\": \"Temperance appears in your future position, symbolizing balance and patience. This suggests that the coming phase of your PR journey will require a harmonious blend of action and patience. You may find yourself in situations where you need to make measured decisions, balancing different aspects of your life or application process.\"\n  },\n  \"chatHistory\": [\n    {\"role\": \"user\", \"content\": \"I'm curious about the intuition mentioned in my past. Can you elaborate?\"},\n    {\"role\": \"assistant\", \"content\": \"The High Priestess in your past suggests that intuition and hidden knowledge played a role in your journey towards PR. It implies that you may have unconsciously prepared for this path.\"},\n    {\"role\": \"user\", \"content\": \"That's interesting. What about my present situation?\"},\n    {\"role\": \"assistant\", \"content\": \"The Chariot in your present position indicates strong willpower and determination in pursuing your PR goals. You're likely taking active steps towards your objective.\"}\n  ],\n  \"timeFrame\": \"PAST\"\n}\n\nexpected output:\n{\n  \"question\": \"The High Priestess symbolizes hidden knowledge. What private experience in your past unexpectedly prepared you for your current PR journey? 🔮🗝️\",\n  \"options\": [\n    \"A confidential work project that gave you unique insights into the country's culture 🏢🌏\",\n    \"A personal relationship that ended but taught you valuable lessons about adaptability 💔🌱\",\n    \"A family secret that motivated you to seek opportunities abroad 🤫✈️\",\n    \"An undisclosed health challenge that made you reassess your life priorities 🏥🔄\"\n  ]\n}\n\nNow, based on the provided prediction and conversation, generate a question about the {timeFrame} with 3 to 5 options for answers. The question should help clarify a vague aspect of the prediction that hasn't been addressed in the chat history, focusing on deeply personal and private past experiences. Respond only with the JSON object, ensuring it's valid JSON format."

  const HistoryLabel := "\n\nChat History: "

  const NoResponseMessage := "No response from OpenAI"

  /** `generateDynamicPrompt`. */
  function GenerateDynamicPrompt(prediction: string, chatHistory: string, timeFrame: string): string {
    Build(prediction, HistoryLabel, chatHistory, StaticPrompt, timeFrame)
  }

  /**
   * The prompt is the prediction and the chat history, verbatim, behind
   * their labels and in that order, then the instructions with every
   * placeholder replaced by the lowercased time frame and the text between
   * placeholders unchanged.
   */
  lemma PromptShape(prediction: string, chatHistory: string, timeFrame: string)
    ensures var r := GenerateDynamicPrompt(prediction, chatHistory, timeFrame);
      var p := |PredictionLabel| + |prediction|;
      && StartsWith(r, PredictionLabel)
      && r[|PredictionLabel|..p] == prediction
      && r[p..p + |HistoryLabel|] == HistoryLabel
      && r[p + |HistoryLabel|..p + |HistoryLabel| + |chatHistory|] == chatHistory
      && EndsWith(r, PromptGap + Join(Split(StaticPrompt, Placeholder), ToLower(timeFrame)))
  {
    BuildShape(prediction, HistoryLabel, chatHistory, StaticPrompt, timeFrame);
  }

  /**
   * For every time frame the prompt holds no `{timeFrame}` placeholder,
   * unless the prediction or the chat history brought one in.
   */
  lemma NoPlaceholderRemains(prediction: string, chatHistory: string, t: TimeFrame)
    requires !Occurs(Placeholder, prediction) && !Occurs(Placeholder, chatHistory)
    ensures !Occurs(Placeholder, GenerateDynamicPrompt(prediction, chatHistory, TimeFrameName(t)))
  {
    BuildHasNoPlaceholder(prediction, HistoryLabel, chatHistory, StaticPrompt, t);
  }

  /** The request body's fields the handler reads, as sent. */
  datatype QuestionRequest = QuestionRequest(tarotPrediction: Value, chatHistory: Value, timeFrame: Value)

  /** V8's message for reading a property of `null` or `undefined`. */
  function ReadError(v: Value, key: string): string {
    "Cannot read properties of " + (if v.Null? then "null" else "undefined") + " (reading '" + key + "')"
  }

  /** V8's message for calling `toLowerCase` on a value that has properties but is not a string. */
  const NotLowerableMessage := "timeFrame.toLowerCase is not a function"

  /**
   * The two messages for the model: the unfilled instructions as the system
   * message and the filled prompt as the user message. The arguments of the
   * builder are evaluated left to right, so a missing reading is reported
   * before a bad time frame.
   */
  function Prepare(request: QuestionRequest, stringify: Value -> string): (r: Result<seq<ModelMessage>>)
    ensures r.Ok? <==> HasProperties(request.tarotPrediction) && request.timeFrame.Str?
    ensures r.Ok? ==> |r.value| == 2 && r.value[0].role == "system" && r.value[1].role == "user"
    ensures !HasProperties(request.tarotPrediction) ==> r == Err(ReadError(request.tarotPrediction, "prediction"))
    ensures HasProperties(request.tarotPrediction) && !HasProperties(request.timeFrame) ==>
      r == Err(ReadError(request.timeFrame, "toLowerCase"))
    ensures HasProperties(request.tarotPrediction) && HasProperties(request.timeFrame) && !request.timeFrame.Str? ==>
      r == Err(NotLowerableMessage)
  {
    if !HasProperties(request.tarotPrediction) then Err(ReadError(request.tarotPrediction, "prediction"))
    else
      var prediction := stringify(Property(request.tarotPrediction, "prediction"));
      var history := stringify(request.chatHistory);
      match request.timeFrame
      case Str(timeFrame) =>
        Ok([ModelMessage("system", StaticPrompt), ModelMessage("user", GenerateDynamicPrompt(prediction, history, ToLower(timeFrame)))])
      case Undefined => Err(ReadError(Undefined, "toLowerCase"))
      case Null => Err(ReadError(Null, "toLowerCase"))
      case _ => Err(NotLowerableMessage)
  }

  /**
   * The system message is the unfilled instructions; the user message is
   * the prompt built from the reading's prediction, the history and the
   * time frame, lowercased once or twice alike.
   */
  lemma PreparedMessages(request: QuestionRequest, stringify: Value -> string)
    requires Prepare(request, stringify).Ok?
    ensures var messages := Prepare(request, stringify).value;
      && messages[0].content == StaticPrompt
      && messages[1].content == GenerateDynamicPrompt(
           stringify(Property(request.tarotPrediction, "prediction")),
           stringify(request.chatHistory),
           request.timeFrame.s)
  {
    var prediction := stringify(Property(request.tarotPrediction, "prediction"));
    var history := stringify(request.chatHistory);
    var timeFrame := request.timeFrame.s;
    var expected := [ModelMessage("system", StaticPrompt), ModelMessage("user", GenerateDynamicPrompt(prediction, history, ToLower(timeFrame)))];
    assert request.timeFrame == Str(timeFrame);
    assert HasProperties(request.tarotPrediction);
    assert Prepare(request, stringify) == Ok(expected);
    DynamicPromptLowersOnce(prediction, history, timeFrame);
  }

  /** Lowercasing the time frame before the builder does changes nothing. */
  lemma DynamicPromptLowersOnce(prediction: string, chatHistory: string, timeFrame: string)
    ensures GenerateDynamicPrompt(prediction, chatHistory, ToLower(timeFrame)) == GenerateDynamicPrompt(prediction, chatHistory, timeFrame)
  {
    BuildLowersOnce(prediction, HistoryLabel, chatHistory, StaticPrompt, timeFrame);
  }


  /**
   * A request for one of the time frames the client sends gets a user
   * prompt without a placeholder, unless the reading or the history brought
   * one in, while the system message keeps the instructions unfilled.
   */
  lemma TimeFrameRequestIsFilled(request: QuestionRequest, stringify: Value -> string, t: TimeFrame)
    requires HasProperties(request.tarotPrediction) && request.timeFrame == Str(TimeFrameName(t))
    requires !Occurs(Placeholder, stringify(Property(request.tarotPrediction, "prediction")))
    requires !Occurs(Placeholder, stringify(request.chatHistory))
    ensures Prepare(request, stringify).Ok?
    ensures !Occurs(Placeholder, Prepare(request, stringify).value[1].content)
    ensures Prepare(request, stringify).value[0].content == StaticPrompt
  {
    PreparedMessages(request, stringify);
    NoPlaceholderRemains(stringify(Property(request.tarotPrediction, "prediction")), stringify(request.chatHistory), t);
  }

  /** The whole handler for one request: the parsed answer of the model is returned as it is. */
  function HandleRequest(
    httpMethod: string,
    request: Result<QuestionRequest>,
    stringify: Value -> string,
    complete: seq<ModelMessage> -> Result<Option<string>>,
    parse: string -> Result<Value>): (r: Response)
    ensures httpMethod == "OPTIONS" ==> r == PreflightResponse
    ensures httpMethod != "OPTIONS" ==> r.status == 200 || IsErrorResponse(r)
    ensures httpMethod != "OPTIONS" && request.Err? ==> r == ErrorResponse(request.message)
  {
    if httpMethod == "OPTIONS" then PreflightResponse
    else match request
      case Err(message) => ErrorResponse(message)
      case Ok(body) =>
        match Prepare(body, stringify)
        case Err(message) => ErrorResponse(message)
        case Ok(messages) =>
          match complete(messages)
          case Err(message) => ErrorResponse(message)
          case Ok(answer) =>
            if answer.None? || answer.value == "" then ErrorResponse(NoResponseMessage)
            else match parse(answer.value)
              case Err(message) => ErrorResponse(message)
              case Ok(parsed) => JsonResponse(parsed)
  }

  /** A missing or empty answer of the model is a failure, reported as 400 with its message. */
  lemma EmptyAnswerIsRejected(
    httpMethod: string,
    request: QuestionRequest,
    stringify: Value -> string,
    complete: seq<ModelMessage> -> Result<Option<string>>,
    parse: string -> Result<Value>)
    requires httpMethod != "OPTIONS" && Prepare(request, stringify).Ok?
    requires complete(Prepare(request, stringify).value) == Ok(None)
          || complete(Prepare(request, stringify).value) == Ok(Some(""))
    ensures HandleRequest(httpMethod, Ok(request), stringify, complete, parse) == ErrorResponse(NoResponseMessage)
  {
  }

  /**
   * A request succeeds exactly when the messages could be prepared, the model
   * gave a non-empty answer and the answer parsed; the body is then the
   * parsed answer.
   */
  lemma HandleRequestSucceeds(
    httpMethod: string,
    request: QuestionRequest,
    stringify: Value -> string,
    complete: seq<ModelMessage> -> Result<Option<string>>,
    parse: string -> Result<Value>)
    requires httpMethod != "OPTIONS"
    ensures var r := HandleRequest(httpMethod, Ok(request), stringify, complete, parse);
      var prepared := Prepare(request, stringify);
      r.status == 200 <==>
        && prepared.Ok?
        && complete(prepared.value).Ok?
        && complete(prepared.value).value.Some?
        && complete(prepared.value).value.value != ""
        && parse(complete(prepared.value).value.value).Ok?
    ensures var r := HandleRequest(httpMethod, Ok(request), stringify, complete, parse);
      var prepared := Prepare(request, stringify);
      r.status == 200 ==> r.body == Json(parse(complete(prepared.value).value.value).value)
  {
  }
}
