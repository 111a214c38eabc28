/**
 * The reading coordinator: it holds the question, the hand, the prediction
 * text and the id of the saved reading, and turns a completed hand into a
 * prediction, one saved reading and the two opening AI messages of its chat.
 * The prediction service and the database are parameters: each call is an
 * outcome given to the method, and the rows written are kept in two logs.
 */
module ReadingFlow {
  import opened Wrappers
  import opened Text
  import opened Records
  import opened CardCodec

  /** The text shown in place of a prediction when generating one failed. */
  const PredictionErrorText := "An error occurred while generating your prediction. Please try again."

  const GreetingOpening := "Hello! I'm Celeste, your AI Tarot reader. I've drawn "
  const GreetingMiddle := " cards in response to your question: \""
  const GreetingClosing := "\". \n\nThe cards suggest "

  /**
   * The first AI message of a reading's chat: it quotes the number of cards,
   * the question verbatim and the prediction. The count can be read back
   * from the digits after the fixed opening.
   */
  function Greeting(cardCount: nat, question: string, prediction: string): (r: string)
    ensures |r| == |GreetingOpening| + |Decimal(cardCount)| + |GreetingMiddle| + |question| + |GreetingClosing| + |prediction|
    ensures StartsWith(r, GreetingOpening)
    ensures var d := |GreetingOpening| + |Decimal(cardCount)|;
      r[|GreetingOpening|..d] == Decimal(cardCount) && DecimalValue(r[|GreetingOpening|..d]) == cardCount
      && r[d + |GreetingMiddle|..d + |GreetingMiddle| + |question|] == question
    ensures EndsWith(r, prediction)
  {
    PiecesInPlace(GreetingOpening, Decimal(cardCount), GreetingMiddle, question, GreetingClosing + prediction);
    DecimalRoundTrip(cardCount);
    GreetingOpening + Decimal(cardCount) + GreetingMiddle + question + (GreetingClosing + prediction)
  }

  /** Where the pieces of a five-part text sit. */
  lemma PiecesInPlace(a: string, b: string, c: string, d: string, e: string)
    ensures var r := a + b + c + d + e;
      && |r| == |a| + |b| + |c| + |d| + |e|
      && StartsWith(r, a)
      && r[|a|..|a| + |b|] == b
      && r[|a| + |b| + |c|..|a| + |b| + |c| + |d|] == d
      && EndsWith(r, e)
  {
  }

  /** What the client sends to `saveTarotReading`: the row without its id and timestamp. */
  datatype ReadingDraft = ReadingDraft(userId: string, question: string, cards: string, prediction: string)

  /** The part of the prediction service's reply the coordinator reads. */
  datatype PredictionReply = PredictionReply(prediction: Option<string>, firstMessage: string)

  /** `!prediction` fails: the field is missing or empty. */
  predicate HasPrediction(reply: PredictionReply) {
    reply.prediction.Some? && reply.prediction.value != ""
  }

  /** `reading.id ?? ''`. */
  function IdOrEmpty(id: Option<string>): (r: string)
    ensures id.Some? ==> r == id.value
    ensures id.None? ==> r == ""
  {
    if id.Some? then id.value else ""
  }

  /** The two AI messages that open a reading's chat, in the order they are saved. */
  function SeedMessages(userId: string, readingId: string, cardCount: nat, question: string,
                        prediction: string, firstMessage: string): (r: seq<ChatMessage>)
    ensures |r| == 2
    ensures forall i :: 0 <= i < 2 ==>
      r[i].isAiResponse && r[i].predictionId == readingId && r[i].userId == userId
      && r[i].id.None? && r[i].createdAt.None? && r[i].metadata.None?
    ensures r[0].message == Greeting(cardCount, question, prediction)
    ensures r[1].message == firstMessage
  {
    [ChatMessage(None, userId, readingId, Greeting(cardCount, question, prediction), true, None, None),
     ChatMessage(None, userId, readingId, firstMessage, true, None, None)]
  }

  /** The arguments `generateTarotPrediction` is called with: the question, the hand text and the user id. */
  datatype PredictionRequest = PredictionRequest(question: string, cardDescriptions: string, userId: string)

  /** The identity-provider user the hook sees, if someone is signed in. */
  datatype SignedInUser = SignedInUser(externalId: string, primaryEmail: Option<string>)

  /** The arguments `getOrCreateUser` is called with. */
  datatype UserLookup = UserLookup(externalId: string, email: string)

  class TarotReading {
    var question: string
    var selectedCards: seq<SelectedCard>
    var prediction: string
    var predictionId: string
    var isLoading: bool
    var supabaseUser: Option<User>
    /** Every reading row written, oldest first. */
    var savedReadings: seq<ReadingDraft>
    /** Every chat message row written, oldest first. */
    var savedMessages: seq<ChatMessage>

    constructor ()
      ensures question == "" && selectedCards == [] && prediction == "" && predictionId == ""
      ensures !isLoading && supabaseUser.None? && savedReadings == [] && savedMessages == []
    {
      question, selectedCards, prediction, predictionId := "", [], "", "";
      isLoading, supabaseUser := false, None;
      savedReadings, savedMessages := [], [];
    }

    /**
     * Resolve the signed-in user to the application's user row; `lookup` is
     * what `getOrCreateUser` yields, and the result is the call made, if any.
     * A failed lookup leaves the state as it was.
     */
    method FetchSupabaseUser(signedIn: Option<SignedInUser>, lookup: Result<User>) returns (call: Option<UserLookup>)
      modifies this
      ensures signedIn.None? ==> call.None? && unchanged(this)
      ensures signedIn.Some? ==>
        && call == Some(UserLookup(signedIn.value.externalId, IdOrEmpty(signedIn.value.primaryEmail)))
        && supabaseUser == (if lookup.Ok? then Some(lookup.value) else old(supabaseUser))
      ensures question == old(question) && selectedCards == old(selectedCards) && prediction == old(prediction)
      ensures predictionId == old(predictionId) && isLoading == old(isLoading)
      ensures savedReadings == old(savedReadings) && savedMessages == old(savedMessages)
    {
      if signedIn.None? {
        return None;
      }
      call := Some(UserLookup(signedIn.value.externalId, IdOrEmpty(signedIn.value.primaryEmail)));
      if lookup.Ok? {
        supabaseUser := Some(lookup.value);
      }
    }

    method HandleQuestionSubmit(submitted: string)
      modifies this
      ensures question == submitted
      ensures selectedCards == old(selectedCards) && prediction == old(prediction) && predictionId == old(predictionId)
      ensures isLoading == old(isLoading) && supabaseUser == old(supabaseUser)
      ensures savedReadings == old(savedReadings) && savedMessages == old(savedMessages)
    {
      question := submitted;
    }

    /**
     * Turn a hand into a reading. `reply` is the prediction service's answer,
     * `readingSave` the id the database returns for the new reading row, and
     * `greetingSaved`/`firstSaved` whether each of the two message writes
     * succeeds. Nothing happens without an application user; otherwise the
     * writes happen in order until the first failure, a failure replaces the
     * prediction text by the error text, written rows stay, and loading ends.
     * The result is the prediction service call made, if any.
     */
    method GeneratePrediction(cards: seq<SelectedCard>, reply: Result<PredictionReply>,
                              readingSave: Result<Option<string>>, greetingSaved: bool, firstSaved: bool)
      returns (call: Option<PredictionRequest>)
      modifies this
      ensures call.None? <==> old(supabaseUser).None?
      ensures call.Some? ==> call.value == PredictionRequest(question, SerializeCards(cards), old(supabaseUser).value.id)
      ensures old(supabaseUser).None? ==> unchanged(this)
      ensures question == old(question) && selectedCards == old(selectedCards) && supabaseUser == old(supabaseUser)
      ensures old(supabaseUser).Some? ==> !isLoading
      ensures old(supabaseUser).Some? && !(reply.Ok? && HasPrediction(reply.value)) ==>
        && prediction == PredictionErrorText && predictionId == old(predictionId)
        && savedReadings == old(savedReadings) && savedMessages == old(savedMessages)
      ensures old(supabaseUser).Some? && reply.Ok? && HasPrediction(reply.value) && readingSave.Err? ==>
        && prediction == PredictionErrorText && predictionId == old(predictionId)
        && savedReadings == old(savedReadings) && savedMessages == old(savedMessages)
      ensures old(supabaseUser).Some? && reply.Ok? && HasPrediction(reply.value) && readingSave.Ok? ==>
        var uid := old(supabaseUser).value.id;
        var p := reply.value.prediction.value;
        var rid := IdOrEmpty(readingSave.value);
        var written := if !greetingSaved then 0 else if !firstSaved then 1 else 2;
        && savedReadings == old(savedReadings) + [ReadingDraft(uid, question, SerializeCards(cards), p)]
        && predictionId == rid
        && savedMessages == old(savedMessages) + SeedMessages(uid, rid, |cards|, question, p, reply.value.firstMessage)[..written]
        && prediction == (if written == 2 then p else PredictionErrorText)
    {
      if supabaseUser.None? {
        return None;
      }
      isLoading := true;
      var uid := supabaseUser.value.id;
      var cardText := SerializeCards(cards);
      call := Some(PredictionRequest(question, cardText, uid));
      var failed := true;
      if reply.Ok? && HasPrediction(reply.value) {
        var p := reply.value.prediction.value;
        prediction := p;
        if readingSave.Ok? {
          savedReadings := savedReadings + [ReadingDraft(uid, question, cardText, p)];
          predictionId := IdOrEmpty(readingSave.value);
          var seeds := SeedMessages(uid, predictionId, |cards|, question, p, reply.value.firstMessage);
          if greetingSaved {
            savedMessages := savedMessages + [seeds[0]];
            if firstSaved {
              savedMessages := savedMessages + [seeds[1]];
              assert seeds[..2] == [seeds[0]] + [seeds[1]];
              failed := false;
            }
          }
        }
      }
      if failed {
        prediction := PredictionErrorText;
      }
      isLoading := false;
    }

    /** The completed hand is kept and a prediction is generated for it; the result is the service call made. */
    method HandleCardSelection(cards: seq<SelectedCard>, reply: Result<PredictionReply>,
                               readingSave: Result<Option<string>>, greetingSaved: bool, firstSaved: bool)
      returns (call: Option<PredictionRequest>)
      modifies this
      ensures call.None? <==> old(supabaseUser).None?
      ensures call.Some? ==> call.value == PredictionRequest(question, SerializeCards(cards), old(supabaseUser).value.id)
      ensures selectedCards == cards && question == old(question) && supabaseUser == old(supabaseUser)
      ensures !isLoading || (old(supabaseUser).None? && isLoading == old(isLoading))
      ensures old(supabaseUser).None? ==>
        && prediction == old(prediction) && predictionId == old(predictionId)
        && savedReadings == old(savedReadings) && savedMessages == old(savedMessages)
      ensures old(supabaseUser).Some? && reply.Ok? && HasPrediction(reply.value) && readingSave.Ok? ==>
        var uid := old(supabaseUser).value.id;
        var p := reply.value.prediction.value;
        var rid := IdOrEmpty(readingSave.value);
        var written := if !greetingSaved then 0 else if !firstSaved then 1 else 2;
        && savedReadings == old(savedReadings) + [ReadingDraft(uid, question, SerializeCards(cards), p)]
        && predictionId == rid
        && savedMessages == old(savedMessages) + SeedMessages(uid, rid, |cards|, question, p, reply.value.firstMessage)[..written]
        && prediction == (if written == 2 then p else PredictionErrorText)
      ensures old(supabaseUser).Some? && !(reply.Ok? && HasPrediction(reply.value) && readingSave.Ok?) ==>
        && prediction == PredictionErrorText && predictionId == old(predictionId)
        && savedReadings == old(savedReadings) && savedMessages == old(savedMessages)
    {
      selectedCards := cards;
      call := GeneratePrediction(cards, reply, readingSave, greetingSaved, firstSaved);
    }

    /** Start over: question, hand, prediction and reading id are cleared. */
    method ResetReading()
      modifies this
      ensures question == "" && selectedCards == [] && prediction == "" && predictionId == ""
      ensures isLoading == old(isLoading) && supabaseUser == old(supabaseUser)
      ensures savedReadings == old(savedReadings) && savedMessages == old(savedMessages)
    {
      question, selectedCards, prediction, predictionId := "", [], "", "";
    }
  }
}
