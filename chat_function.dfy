/**
 * The request handler of the chat function: the chat history mapped to the
 * model's `{role, content}` messages, the reading's instructions put in
 * front of them, the empty-answer check and the two responses.
 *
 * What the handler awaits is a parameter: `request` is the outcome of
 * `req.json()` and its destructuring (`Err` carries the message thrown), and
 * `complete` is the model call, from the messages sent to the outcome (`Err`
 * for a thrown error, `Ok(None)` for a missing content).
 */
module ChatFunction {
  import opened Wrappers
  import opened Text
  import opened Records
  import opened JsValue
  import opened EdgeResponse

  /** The reading the client sends along, its fields interpolated as text. */
  datatype ReadingText = ReadingText(question: string, cards: string, prediction: string)

  /**
   * The request body's fields the handler reads. An absent `chatHistory` or
   * `tarotPrediction` is `undefined` (`None`); `predictionId` is echoed as
   * whatever value was sent.
   */
  datatype ChatRequest = ChatRequest(
    predictionId: Value,
    chatHistory: Option<seq<ChatMessage>>,
    tarotPrediction: Option<ReadingText>)

  const NoResponseMessage := "No response from OpenAI"

  /** V8's messages for reading a property of the absent fields. */
  const MissingHistoryMessage := "Cannot read properties of undefined (reading 'map')"
  const MissingReadingMessage := "Cannot read properties of undefined (reading 'question')"

  /** The instructions up to the quoted question. */
  const Intro: string := "You are Celeste, a friendly AI Tarot reader and fortune teller. Provide a customized tarot interpretation for:\n\n      Question: \""
  const CardsLine := "\"\n      Cards: "
  const PredictionLine := "\n      Prediction: "
  /** The instructions after the prediction. */
  const Guidance: string := "\n\n      Guidelines:\n      1. Use a warm, conversational tone.\n      2. Keep responses concise (1-2 sentences) unless asked to elaborate.\n      3. Ask simple questions to gather more information when needed.\n      4. Acknowledge user's input before continuing.\n      5. Relate responses to specific cards or aspects of the user's question.\n      6. If the user's question is vague, offer a reasonable guess about their situation and ask for confirmation or clarification.\n      7. When the user provides more details, acknowledge their input before continuing\n      8. Then, relate their input back to the tarot reading or ask a follow-up question\n      9. Do not let the conversation die. Try to keep the conversation going and ask follow up questions.\n\n\n      Aim for a personal and insightful dialogue."

  /**
   * The template literal of the instructions, over any fixed text around the
   * three values: the question (in quotes), the hand text and the
   * prediction, verbatim, in this order.
   */
  function Embed(intro: string, question: string, cards: string, prediction: string, guidance: string): (r: string)
    ensures |r| == |intro| + |question| + |CardsLine| + |cards| + |PredictionLine| + |prediction| + |guidance|
    ensures StartsWith(r, intro) && EndsWith(r, guidance)
    ensures var q := |intro| + |question|;
      var c := q + |CardsLine| + |cards|;
      && MatchesAt(question, r, |intro|)
      && MatchesAt(CardsLine, r, q)
      && MatchesAt(cards, r, q + |CardsLine|)
      && MatchesAt(PredictionLine, r, c)
      && MatchesAt(prediction, r, c + |PredictionLine|)
  {
    intro + question + CardsLine + cards + PredictionLine + prediction + guidance
  }

  /** The system message's content for a reading. */
  function SystemContent(reading: ReadingText): string {
    Embed(Intro, reading.question, reading.cards, reading.prediction, Guidance)
  }

  /** The instructions carry the reading's question, hand text and prediction verbatim, in that order. */
  lemma SystemContentEmbedsReading(reading: ReadingText)
    ensures var r := SystemContent(reading);
      var q := |Intro| + |reading.question|;
      var c := q + |CardsLine| + |reading.cards|;
      && MatchesAt(reading.question, r, |Intro|)
      && MatchesAt(reading.cards, r, q + |CardsLine|)
      && MatchesAt(reading.prediction, r, c + |PredictionLine|)
      && Occurs(reading.question, r) && Occurs(reading.cards, r) && Occurs(reading.prediction, r)
  {
    var r := SystemContent(reading);
    OccursAt(reading.question, r);
    OccursAt(reading.cards, r);
    OccursAt(reading.prediction, r);
  }

  /** `msg.is_ai_response ? "assistant" : "user"`. */
  function Role(m: ChatMessage): (r: string)
    ensures r == "assistant" <==> m.isAiResponse
    ensures r == "assistant" || r == "user"
  {
    if m.isAiResponse then "assistant" else "user"
  }

  /** `chatHistory.map(...)`: one model message per history entry, in order. */
  function HistoryMessages(history: seq<ChatMessage>): (r: seq<ModelMessage>)
    ensures |r| == |history|
    ensures forall i :: 0 <= i < |history| ==> r[i] == ModelMessage(Role(history[i]), history[i].message)
  {
    if history == [] then []
    else [ModelMessage(Role(history[0]), history[0].message)] + HistoryMessages(history[1..])
  }

  /**
   * The messages for the model: the instructions as the system message,
   * then one message per history entry with its text, as the assistant's
   * exactly when the entry is an AI response.
   */
  predicate PreparedFrom(messages: seq<ModelMessage>, history: seq<ChatMessage>, reading: ReadingText) {
    && |messages| == |history| + 1
    && messages[0] == ModelMessage("system", SystemContent(reading))
    && forall i :: 1 <= i < |messages| ==>
         && (messages[i].role == "assistant" <==> history[i - 1].isAiResponse)
         && (messages[i].role == "assistant" || messages[i].role == "user")
         && messages[i].content == history[i - 1].message
  }

  /** The description fixes the list: at most one list is prepared from a history and a reading. */
  lemma PreparedFromIsUnique(m1: seq<ModelMessage>, m2: seq<ModelMessage>, history: seq<ChatMessage>, reading: ReadingText)
    requires PreparedFrom(m1, history, reading) && PreparedFrom(m2, history, reading)
    ensures m1 == m2
  {
    forall i | 1 <= i < |m1| ensures m1[i] == m2[i] {
      assert m1[i].role == m2[i].role;
    }
  }

  /** Map the history, then `unshift` the system message. */
  method PrepareMessages(history: seq<ChatMessage>, reading: ReadingText) returns (messages: seq<ModelMessage>)
    ensures PreparedFrom(messages, history, reading)
  {
    messages := HistoryMessages(history);
    messages := [ModelMessage("system", SystemContent(reading))] + messages;
  }

  /**
   * The whole handler for one request; `sent` is the list handed to the
   * model, when the handler gets that far.
   */
  method HandleRequest(httpMethod: string, request: Result<ChatRequest>, complete: seq<ModelMessage> -> Result<Option<string>>)
    returns (response: Response, sent: Option<seq<ModelMessage>>)
    ensures httpMethod == "OPTIONS" ==> response == PreflightResponse && sent.None?
    ensures httpMethod != "OPTIONS" ==> response.status == 200 || IsErrorResponse(response)
    ensures httpMethod != "OPTIONS" && request.Err? ==> response == ErrorResponse(request.message) && sent.None?
    ensures httpMethod != "OPTIONS" && request.Ok? && request.value.chatHistory.None?
      ==> response == ErrorResponse(MissingHistoryMessage) && sent.None?
    ensures httpMethod != "OPTIONS" && request.Ok? && request.value.chatHistory.Some? && request.value.tarotPrediction.None?
      ==> response == ErrorResponse(MissingReadingMessage) && sent.None?
    ensures sent.Some? <==>
      httpMethod != "OPTIONS" && request.Ok? && request.value.chatHistory.Some? && request.value.tarotPrediction.Some?
    ensures sent.Some? ==> PreparedFrom(sent.value, request.value.chatHistory.value, request.value.tarotPrediction.value)
    ensures sent.Some? && complete(sent.value).Err? ==> response == ErrorResponse(complete(sent.value).message)
    ensures sent.Some? && complete(sent.value).Ok? ==>
      var answer := complete(sent.value).value;
      if answer.Some? && answer.value != "" then
        response == JsonResponse(Object([("message", Str(answer.value)), ("predictionId", request.value.predictionId)]))
      else response == ErrorResponse(NoResponseMessage)
  {
    if httpMethod == "OPTIONS" {
      return PreflightResponse, None;
    }
    if request.Err? {
      return ErrorResponse(request.message), None;
    }
    var body := request.value;
    if body.chatHistory.None? {
      return ErrorResponse(MissingHistoryMessage), None;
    }
    if body.tarotPrediction.None? {
      return ErrorResponse(MissingReadingMessage), None;
    }
    var messages := PrepareMessages(body.chatHistory.value, body.tarotPrediction.value);
    sent := Some(messages);
    var outcome := complete(messages);
    if outcome.Err? {
      response := ErrorResponse(outcome.message);
    } else if outcome.value.None? || outcome.value.value == "" {
      response := ErrorResponse(NoResponseMessage);
    } else {
      response := JsonResponse(Object([("message", Str(outcome.value.value)), ("predictionId", body.predictionId)]));
    }
  }
}
