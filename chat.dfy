/**
 * The chat coordinator behind a reading's chat page: the message list, the
 * input box, the loading flags, whether the viewer owns the reading, and the
 * reading's share link. Every database read or write and every AI call is an
 * outcome passed to the method that makes it; the rows the coordinator
 * writes are kept in a log.
 */
module Chat {
  import opened Wrappers
  import opened Text
  import opened Records
  import opened CardCodec
  import opened JsValue

  /** A string-valued lookup the code tests for truthiness: present and non-empty. */
  predicate IsSet(o: Option<string>) {
    o.Some? && o.value != ""
  }

  // ---------- the share link ----------

  const SharePath := "/chat?shareId="

  /** The share link of a reading: the page origin, the chat path and the id as the `shareId` parameter. */
  function ShareUrl(origin: string, id: string): string
  {
    origin + SharePath + id
  }

  /** The query of a URL: after the first `?` that comes before the fragment. */
  function QueryString(url: string): Option<string>
  {
    AfterFirst(BeforeFirst(url, '#'), '?')
  }

  /** The value of the first `key=value` pair with the given key (no percent-decoding). */
  function LookupParam(pairs: seq<string>, key: string): Option<string>
  {
    if pairs == [] then None
    else if BeforeFirst(pairs[0], '=') == key then
      Some(match AfterFirst(pairs[0], '=') case None => "" case Some(v) => v)
    else LookupParam(pairs[1..], key)
  }

  /** `new URL(url).searchParams.get('shareId')`. */
  function ShareIdFromUrl(url: string): Option<string>
  {
    match QueryString(url)
    case None => None
    case Some(q) => LookupParam(Split(q, "&"), "shareId")
  }

  /** The share id already carried by the current share link, if any (`shareUrl ? … : null`). */
  function ExistingShareId(shareUrl: Option<string>): Option<string>
  {
    if IsSet(shareUrl) then ShareIdFromUrl(shareUrl.value) else None
  }

  /**
   * An origin and an id that the model's query reading gives back: the origin
   * holds no query or fragment, and the id holds nothing a query parser would
   * cut at or decode.
   */
  predicate QuerySafe(origin: string, id: string) {
    '?' !in origin && '#' !in origin
    && '&' !in id && '#' !in id && '%' !in id && '+' !in id
  }

  /**
   * An origin and an id that also survive the URL parser: neither holds a
   * tab or line break (the parser removes those everywhere), the origin does
   * not start and the id does not end with a control character or a space
   * (the parser strips those from both ends of the link).
   */
  predicate ShareSafe(origin: string, id: string) {
    && QuerySafe(origin, id)
    && '\t' !in origin && '\n' !in origin && '\r' !in origin
    && '\t' !in id && '\n' !in id && '\r' !in id
    && (origin == [] || origin[0] > ' ')
    && (id == [] || id[|id| - 1] > ' ')
  }

  /** The query of a share link is the `shareId` parameter alone. */
  lemma {:induction false} ShareUrlQuery(origin: string, id: string)
    requires QuerySafe(origin, id)
    ensures QueryString(ShareUrl(origin, id)) == Some("shareId=" + id)
  {
    var url := ShareUrl(origin, id);
    assert '#' !in SharePath;
    assert '#' !in url;
    BeforeFirstAbsent(url, '#');
    var front := origin + "/chat";
    assert url == front + ['?'] + ("shareId=" + id);
    assert '?' !in "/chat";
    assert '?' !in front;
    BeforeFirstSplit(front, '?', "shareId=" + id);
  }

  /** A query holding one `shareId` parameter yields its value. */
  lemma {:induction false} ShareIdParam(id: string)
    requires '&' !in id
    ensures LookupParam(Split("shareId=" + id, "&"), "shareId") == Some(id)
  {
    var query := "shareId=" + id;
    assert '&' !in "shareId=";
    assert '&' !in query;
    NoOccurrenceWithoutFirstChar("&", query);
    SplitFree(query, "&");
    assert query == "shareId" + ['='] + id;
    assert '=' !in "shareId";
    BeforeFirstSplit("shareId", '=', id);
  }

  /** The share id is read back out of the share link built from it. */
  lemma ShareIdRoundTrip(origin: string, id: string)
    requires ShareSafe(origin, id)
    ensures ShareIdFromUrl(ShareUrl(origin, id)) == Some(id)
  {
    ShareUrlQuery(origin, id);
    ShareIdParam(id);
  }

  /** A share link the coordinator built already names its id, so sharing again reuses it. */
  lemma ShareReusesId(origin: string, id: string)
    requires ShareSafe(origin, id) && id != ""
    ensures ExistingShareId(Some(ShareUrl(origin, id))) == Some(id)
  {
    ShareIdRoundTrip(origin, id);
  }

  // ---------- the coordinator ----------

  /** A message row as the client hands it to `saveChatMessage` (no id, no timestamp). */
  function Draft(userId: string, predictionId: string, text: string, isAi: bool, metadata: Option<Metadata>): ChatMessage
  {
    ChatMessage(None, userId, predictionId, text, isAi, metadata, None)
  }

  /** The arguments of the AI chat call. */
  datatype AiChatCall = AiChatCall(message: string, externalUserId: string, predictionId: string)

  /** The arguments of the question-generation call. */
  datatype QuestionRequest = QuestionRequest(userId: string, predictionId: string, timeFrame: TimeFrame)

  /** What the question service returns. */
  datatype GeneratedQuestion = GeneratedQuestion(question: string, options: seq<string>)

  /** Which load the mount effect starts. */
  datatype LoadKind = OwnLoad | SharedLoad | NoLoad

  /** The outcomes of the calls the mount effect makes. */
  datatype LoadOutcomes = LoadOutcomes(
    messagesUserId: Option<string>, messages: Result<seq<ChatMessage>>,
    readingUserId: Option<string>, reading: Result<Option<DbReading>>,
    shared: Result<Option<DbReading>>)

  class ChatSession {
    /** The signed-in user's identity-provider id, if someone is signed in. */
    const user: Option<string>
    const predictionId: string
    const shareId: Option<string>
    var messages: seq<ChatMessage>
    var input: string
    var isLoading: bool
    var tarotReading: Option<FrontendReading>
    var isGeneratingQuestion: bool
    var isOwner: bool
    var shareUrl: Option<string>
    /** Every message row written, oldest first. */
    var savedMessages: seq<ChatMessage>

    /** Ownership is only ever claimed for a loaded reading. */
    predicate Valid()
      reads this
    {
      isOwner ==> tarotReading.Some?
    }

    constructor (user: Option<string>, predictionId: string, shareId: Option<string>)
      ensures Valid()
      ensures this.user == user && this.predictionId == predictionId && this.shareId == shareId
      ensures messages == [] && input == "" && !isLoading && tarotReading.None?
      ensures !isGeneratingQuestion && !isOwner && shareUrl.None? && savedMessages == []
    {
      this.user, this.predictionId, this.shareId := user, predictionId, shareId;
      messages, input, isLoading, tarotReading := [], "", false, None;
      isGeneratingQuestion, isOwner, shareUrl, savedMessages := false, false, None, [];
    }

    /**
     * The mount effect: the own reading and its messages for a signed-in
     * owner, else the shared one. `parse` is `JSON.parse`, applied to the
     * stored prediction text.
     */
    method Load(origin: string, parse: string -> Result<Value>, outcomes: LoadOutcomes) returns (kind: LoadKind)
      requires Valid()
      modifies this
      ensures Valid()
      ensures kind == OwnLoad <==> user.Some? && predictionId != ""
      ensures kind == SharedLoad <==> !(user.Some? && predictionId != "") && IsSet(shareId)
      ensures kind == NoLoad ==> unchanged(this)
      ensures kind == OwnLoad ==>
        messages == (if IsSet(outcomes.messagesUserId) && outcomes.messages.Ok? then outcomes.messages.value else old(messages))
      ensures kind == OwnLoad && IsSet(outcomes.readingUserId) && outcomes.reading.Ok? && outcomes.reading.value.Some?
                && parse(outcomes.reading.value.value.prediction).Ok? ==>
        var row := outcomes.reading.value.value;
        && tarotReading == ReadingToFrontendFormat(outcomes.reading.value, parse).value && isOwner
        && shareUrl == (if IsSet(row.shareId) then Some(ShareUrl(origin, row.shareId.value)) else None)
      ensures kind == OwnLoad && IsSet(outcomes.readingUserId) && outcomes.reading.Ok? && outcomes.reading.value.None? ==>
        !isOwner && tarotReading == old(tarotReading) && shareUrl == old(shareUrl)
      ensures kind == OwnLoad && (!(IsSet(outcomes.readingUserId) && outcomes.reading.Ok?)
                || (outcomes.reading.value.Some? && parse(outcomes.reading.value.value.prediction).Err?)) ==>
        isOwner == old(isOwner) && tarotReading == old(tarotReading) && shareUrl == old(shareUrl)
      ensures kind == SharedLoad ==> messages == old(messages) && shareUrl == old(shareUrl)
      ensures kind == SharedLoad && outcomes.shared.Ok? && outcomes.shared.value.Some?
                && parse(outcomes.shared.value.value.prediction).Ok? ==>
        tarotReading == ReadingToFrontendFormat(outcomes.shared.value, parse).value && !isOwner
      ensures kind == SharedLoad && !(outcomes.shared.Ok? && outcomes.shared.value.Some?
                && parse(outcomes.shared.value.value.prediction).Ok?) ==>
        tarotReading == old(tarotReading) && isOwner == old(isOwner)
      ensures input == old(input) && isLoading == old(isLoading) && isGeneratingQuestion == old(isGeneratingQuestion)
      ensures savedMessages == old(savedMessages)
    {
      if user.Some? && predictionId != "" {
        LoadChatMessages(outcomes.messagesUserId, outcomes.messages);
        LoadTarotReading(origin, parse, outcomes.readingUserId, outcomes.reading);
        kind := OwnLoad;
      } else if IsSet(shareId) {
        LoadSharedTarotReading(parse, outcomes.shared);
        kind := SharedLoad;
      } else {
        kind := NoLoad;
      }
    }

    /** Load the reading's messages: `userId` is the application user found, `fetched` the rows read. */
    method LoadChatMessages(userId: Option<string>, fetched: Result<seq<ChatMessage>>)
      requires Valid()
      modifies this
      ensures Valid()
      ensures user.Some? && IsSet(userId) && fetched.Ok? ==> messages == fetched.value
      ensures !(user.Some? && IsSet(userId) && fetched.Ok?) ==> messages == old(messages)
      ensures input == old(input) && isLoading == old(isLoading) && tarotReading == old(tarotReading)
      ensures isGeneratingQuestion == old(isGeneratingQuestion) && isOwner == old(isOwner)
      ensures shareUrl == old(shareUrl) && savedMessages == old(savedMessages)
    {
      if user.Some? && IsSet(userId) && fetched.Ok? {
        messages := fetched.value;
      }
    }

    /**
     * Load the signed-in user's own reading. Found and converted: it is shown,
     * the viewer owns it, and the share link is rebuilt from its share id (or
     * cleared). Not found: the viewer does not own it. A failed call, or a
     * prediction text `JSON.parse` throws on, changes nothing.
     */
    method LoadTarotReading(origin: string, parse: string -> Result<Value>, userId: Option<string>,
                            fetched: Result<Option<DbReading>>)
      requires Valid()
      modifies this
      ensures Valid()
      ensures user.Some? && IsSet(userId) && fetched.Ok? && fetched.value.Some? && parse(fetched.value.value.prediction).Ok? ==>
        var row := fetched.value.value;
        && tarotReading == ReadingToFrontendFormat(fetched.value, parse).value && isOwner
        && shareUrl == (if IsSet(row.shareId) then Some(ShareUrl(origin, row.shareId.value)) else None)
      ensures user.Some? && IsSet(userId) && fetched.Ok? && fetched.value.None? ==>
        !isOwner && tarotReading == old(tarotReading) && shareUrl == old(shareUrl)
      ensures !(user.Some? && IsSet(userId) && fetched.Ok?)
              || (fetched.value.Some? && parse(fetched.value.value.prediction).Err?) ==>
        isOwner == old(isOwner) && tarotReading == old(tarotReading) && shareUrl == old(shareUrl)
      ensures messages == old(messages) && input == old(input) && isLoading == old(isLoading)
      ensures isGeneratingQuestion == old(isGeneratingQuestion) && savedMessages == old(savedMessages)
    {
      if user.Some? && IsSet(userId) && fetched.Ok? {
        if fetched.value.Some? {
          var row := fetched.value.value;
          var converted := ReadingToFrontendFormat(fetched.value, parse);
          if converted.Ok? {
            tarotReading := converted.value;
            isOwner := true;
            shareUrl := if IsSet(row.shareId) then Some(ShareUrl(origin, row.shareId.value)) else None;
          }
        } else {
          isOwner := false;
        }
      }
    }

    /**
     * Load a reading by its share id: a found reading whose prediction text
     * parses is shown and never owned; otherwise nothing changes.
     */
    method LoadSharedTarotReading(parse: string -> Result<Value>, fetched: Result<Option<DbReading>>)
      requires Valid()
      modifies this
      ensures Valid()
      ensures fetched.Ok? && fetched.value.Some? && parse(fetched.value.value.prediction).Ok? ==>
        tarotReading == ReadingToFrontendFormat(fetched.value, parse).value && !isOwner
      ensures !(fetched.Ok? && fetched.value.Some? && parse(fetched.value.value.prediction).Ok?) ==> unchanged(this)
      ensures messages == old(messages) && input == old(input) && isLoading == old(isLoading)
      ensures isGeneratingQuestion == old(isGeneratingQuestion) && shareUrl == old(shareUrl)
      ensures savedMessages == old(savedMessages)
    {
      if fetched.Ok? && fetched.value.Some? {
        var converted := ReadingToFrontendFormat(fetched.value, parse);
        if converted.Ok? {
          tarotReading := converted.value;
          isOwner := false;
        }
      }
    }

    /**
     * `handleSendMessage` proceeds only with a signed-in user, a loaded
     * reading and an input whose trimmed form is non-empty, which by the
     * contract of `Text.Trim` is an input that is not all whitespace.
     */
    predicate CanSend()
      reads this
    {
      !IsBlank(input) && user.Some? && tarotReading.Some?
    }

    /** The guard is the source's `!input.trim() || !user || !tarotReading`, negated. */
    lemma CanSendIsTrimGuard()
      ensures CanSend() <==> Trim(input) != "" && user.Some? && tarotReading.Some?
    {
    }

    /**
     * Send the input. `userId` is the application user found, `userSave` the
     * stored user message, `reply` the AI answer and `aiSave` the stored AI
     * message. The user message is appended and the input cleared once it is
     * saved; the AI reply follows only when both later steps succeed. The
     * result is the AI call made, carrying the input as it was before sending.
     */
    method HandleSendMessage(userId: Option<string>, userSave: Result<RowStamp>, reply: Result<string>,
                             aiSave: Result<RowStamp>) returns (aiCall: Option<AiChatCall>)
      requires Valid()
      modifies this
      ensures Valid()
      ensures !old(CanSend()) ==> aiCall.None? && unchanged(this)
      ensures old(CanSend()) ==> !isLoading
      ensures tarotReading == old(tarotReading) && isOwner == old(isOwner) && shareUrl == old(shareUrl)
      ensures isGeneratingQuestion == old(isGeneratingQuestion)
      ensures old(CanSend()) && !(IsSet(userId) && userSave.Ok?) ==>
        && aiCall.None? && messages == old(messages) && input == old(input) && savedMessages == old(savedMessages)
      ensures old(CanSend()) && IsSet(userId) && userSave.Ok? ==>
        input == "" && aiCall == Some(AiChatCall(old(input), user.value, predictionId))
      ensures old(CanSend()) && IsSet(userId) && userSave.Ok? && reply.Ok? && aiSave.Ok? ==>
        var added := [Stored(Draft(userId.value, predictionId, old(input), false, None), userSave.value),
                      Stored(Draft(userId.value, predictionId, reply.value, true, None), aiSave.value)];
        messages == old(messages) + added && savedMessages == old(savedMessages) + added
      ensures old(CanSend()) && IsSet(userId) && userSave.Ok? && !(reply.Ok? && aiSave.Ok?) ==>
        var added := [Stored(Draft(userId.value, predictionId, old(input), false, None), userSave.value)];
        messages == old(messages) + added && savedMessages == old(savedMessages) + added
    {
      if !CanSend() {
        return None;
      }
      isLoading := true;
      aiCall := None;
      if IsSet(userId) {
        var uid := userId.value;
        var text := input;
        if userSave.Ok? {
          var sent := Stored(Draft(uid, predictionId, text, false, None), userSave.value);
          savedMessages := savedMessages + [sent];
          messages := messages + [sent];
          input := "";
          aiCall := Some(AiChatCall(text, user.value, predictionId));
          if reply.Ok? && aiSave.Ok? {
            var answer := Stored(Draft(uid, predictionId, reply.value, true, None), aiSave.value);
            savedMessages := savedMessages + [answer];
            messages := messages + [answer];
          }
        }
      }
      isLoading := false;
    }

    /** A generated question becomes one AI message carrying its answer options. */
    method HandleQuestionGenerated(question: string, options: seq<string>, userId: Option<string>, save: Result<RowStamp>)
      requires Valid()
      modifies this
      ensures Valid()
      ensures user.Some? && IsSet(userId) && save.Ok? ==>
        var m := Stored(Draft(userId.value, predictionId, question, true, Some(Metadata(options))), save.value);
        messages == old(messages) + [m] && savedMessages == old(savedMessages) + [m]
      ensures !(user.Some? && IsSet(userId) && save.Ok?) ==>
        messages == old(messages) && savedMessages == old(savedMessages)
      ensures input == old(input) && isLoading == old(isLoading) && tarotReading == old(tarotReading)
      ensures isGeneratingQuestion == old(isGeneratingQuestion) && isOwner == old(isOwner) && shareUrl == old(shareUrl)
    {
      if user.Some? && IsSet(userId) && save.Ok? {
        var m := Stored(Draft(userId.value, predictionId, question, true, Some(Metadata(options))), save.value);
        savedMessages := savedMessages + [m];
        messages := messages + [m];
      }
    }

    /**
     * Ask the question service for a discussion question about `timeFrame`
     * and post it. `userId` is the application user found, `generated` the
     * service's answer, and `handlerUserId`/`save` the outcomes of the
     * posting step. The result is the service call made; the flag is lowered
     * at the end.
     */
    method HandleGenerateQuestion(timeFrame: TimeFrame, userId: Option<string>, generated: Result<GeneratedQuestion>,
                                  handlerUserId: Option<string>, save: Result<RowStamp>)
      returns (request: Option<QuestionRequest>)
      requires Valid()
      modifies this
      ensures Valid()
      ensures predictionId == "" || user.None? ==> request.None? && unchanged(this)
      ensures predictionId != "" && user.Some? ==> !isGeneratingQuestion
      ensures request.Some? <==> predictionId != "" && user.Some? && IsSet(userId)
      ensures request.Some? ==> request.value == QuestionRequest(userId.value, predictionId, timeFrame)
      ensures request.Some? && generated.Ok? && IsSet(handlerUserId) && save.Ok? ==>
        var q := generated.value;
        var m := Stored(Draft(handlerUserId.value, predictionId, q.question, true, Some(Metadata(q.options))), save.value);
        messages == old(messages) + [m] && savedMessages == old(savedMessages) + [m]
      ensures !(request.Some? && generated.Ok? && IsSet(handlerUserId) && save.Ok?) ==>
        messages == old(messages) && savedMessages == old(savedMessages)
      ensures input == old(input) && isLoading == old(isLoading) && tarotReading == old(tarotReading)
      ensures isOwner == old(isOwner) && shareUrl == old(shareUrl)
    {
      if predictionId == "" || user.None? {
        return None;
      }
      isGeneratingQuestion := true;
      request := None;
      if IsSet(userId) {
        request := Some(QuestionRequest(userId.value, predictionId, timeFrame));
        if generated.Ok? {
          HandleQuestionGenerated(generated.value.question, generated.value.options, handlerUserId, save);
        }
      }
      isGeneratingQuestion := false;
    }

    /**
     * Share the reading: reuse the id in the current share link, and only
     * without one ask for a new id (`generated` is what that call returns).
     * With an id, the share link becomes origin + "/chat?shareId=" + id and
     * is the text copied (the second result); the first result says whether
     * a new id was requested.
     */
    method HandleShare(origin: string, userId: Option<string>, generated: Option<string>)
      returns (generateCalled: bool, copied: Option<string>)
      requires Valid()
      modifies this
      ensures Valid()
      ensures !(user.Some? && predictionId != "" && IsSet(userId)) ==>
        !generateCalled && copied.None? && unchanged(this)
      ensures user.Some? && predictionId != "" && IsSet(userId) ==>
        var existing := ExistingShareId(old(shareUrl));
        var chosen := if IsSet(existing) then existing else generated;
        && (generateCalled <==> !IsSet(existing))
        && (IsSet(chosen) ==> shareUrl == Some(ShareUrl(origin, chosen.value)) && copied == shareUrl)
        && (!IsSet(chosen) ==> shareUrl == old(shareUrl) && copied.None?)
      ensures messages == old(messages) && input == old(input) && isLoading == old(isLoading)
      ensures tarotReading == old(tarotReading) && isGeneratingQuestion == old(isGeneratingQuestion)
      ensures isOwner == old(isOwner) && savedMessages == old(savedMessages)
    {
      generateCalled, copied := false, None;
      if user.Some? && predictionId != "" && IsSet(userId) {
        var id := ExistingShareId(shareUrl);
        if !IsSet(id) {
          generateCalled := true;
          id := generated;
        }
        if IsSet(id) {
          shareUrl := Some(ShareUrl(origin, id.value));
          copied := shareUrl;
        }
      }
    }
  }

  /**
   * Sharing a reading whose share link the coordinator built from a safe id
   * requests no new id and leaves the link as it was, so repeated shares
   * give the same URL.
   */
  lemma RepeatedShareIsStable(origin: string, id: string)
    requires ShareSafe(origin, id) && id != ""
    ensures var existing := ExistingShareId(Some(ShareUrl(origin, id)));
      IsSet(existing) && ShareUrl(origin, existing.value) == ShareUrl(origin, id)
  {
    ShareReusesId(origin, id);
  }
}
