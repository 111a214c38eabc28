# mystar tarot core in Dafny

This project models the logic at the heart of the mystar tarot application. The app is a
React front end with three Supabase edge functions that ask a language model for a
reading, a chat reply or a discussion question. The model covers:

- **Card selection** (`CardSelection`). The card grid's state machine:
  - a tap toggles a card in or out of a hand of at most three distinct cards;
  - the card's orientation is fixed at the tap;
  - a one-shot reveal freezes the hand, flips it face up and hands it on.

  It is a class with one step method per timer.
- **Hand text format** (`CardCodec`):
  - the serialiser the reading coordinator uses when it saves a hand (`"Name (Reversed), Name"`);
  - the parser that reads a stored hand back, with the regular expression `^(.*?)\s*\((Reversed)?\)$` modelled exactly, and its fallback;
  - the conversion of a stored reading into the front end's record;
  - the round trip between serialiser and parser, under sufficient preconditions: some cards outside them still come back, but the whitespace condition cannot be dropped (`TrailingSpaceIsLost`).
- **Reading coordinator** (`ReadingFlow`). The hook that turns a completed hand into a
  prediction, one saved reading and the two opening AI chat messages. It also handles
  resetting a reading and resolving the signed-in user.
- **Chat coordinator** (`Chat`). The hook behind a reading's chat page:
  - the load dispatch and the ownership flags;
  - the send guard and the order of appends;
  - partial failure;
  - discussion questions;
  - the share link, whose id is reused when present.
- **Question form** (`QuestionForm`, `ThemeData`):
  - the three-action reducer;
  - the submit guard;
  - the refresh, which shuffles the theme's question list in place and shows its first four entries;
  - the theme catalogue.
- **Edge functions**:
  - the prediction function's answer check (`PredictionFunction`);
  - the chat function's mapping of the history to model messages (`ChatFunction`);
  - the question function's prompt, with its global `{timeFrame}` replacement (`QuestionFunction`);
  - the three prompt modules' `generateDynamicPrompt` templates (`PredictionPrompt`, `ChatPrompt`, `QuestionPrompt`, sharing `QuestionTemplate`).

Support modules:

- `Wrappers`: `Option` and `Result`.
- `Text`: JavaScript's `split`, `join`, `trim`, `toLowerCase` and global `replace`, on strings.
- `Records`: the rows and records the client and database exchange.
- `JsValue`: parsed JSON values, with JavaScript truthiness and property access.
- `EdgeResponse`: HTTP answers and model messages.

Calls into the database, the AI services and the language model are parameters. Each call
becomes the outcome (an `Option` or `Result`) it would have returned. `JSON.parse` and
`JSON.stringify` are function-valued parameters. `Math.random` becomes a boolean, or a list
of exchanges for the shuffle. `window.location.origin` is a parameter. The classes keep
logs of the rows they write.

## Model

| member | source | states |
|---|---|---|
| CardSelection.Click | src/hooks/useCardSelections.ts:31-42 | after a tap the card is held exactly when it was not held before and fewer than three cards were held; the hand grows by at most one card |
| CardSelection.Without | src/hooks/useCardSelections.ts:35 | the filtered hand is no longer than before, holds no card with the tapped name, and holds only cards of the old hand |
| CardSelection.ClickKeepsHandValid | src/hooks/useCardSelections.ts:31-42 | every tap keeps the hand at most three cards with distinct names |
| CardSelection.ClickHeldCard | src/hooks/useCardSelections.ts:32-35 | tapping a held card removes exactly that card; the others keep their relative order |
| CardSelection.ClickNewCard | src/hooks/useCardSelections.ts:36-41 | tapping a new card appends it with the orientation drawn at that moment while fewer than three are held, and changes nothing when three are held |
| CardSelection.WithoutRemovesOne | src/hooks/useCardSelections.ts:35 | with distinct names, the filter removes exactly the card at that position and keeps the rest in order |
| CardSelection.WithoutAbsent | src/hooks/useCardSelections.ts:35 | filtering out a name that is not held keeps the whole hand |
| CardSelection.CardSelector.constructor | src/hooks/useCardSelections.ts:12-14 | the selector starts with no cards, nothing flipped and no reveal |
| CardSelection.CardSelector.HandleCardClick | src/hooks/useCardSelections.ts:28-43 | during a reveal a tap changes nothing; otherwise the hand becomes `Click` of the old hand; the invariant that the hand holds at most three distinct cards is preserved |
| CardSelection.CardSelector.RevealEffect | src/hooks/useCardSelections.ts:16-18 | the reveal starts exactly when three cards are held and it has not started; it captures the hand; once started it never restarts, so it happens at most once |
| CardSelection.CardSelector.FlipTimerFires | src/hooks/useCardSelections.ts:19-20 | the first delay flips exactly the captured cards' names, in order |
| CardSelection.CardSelector.HandoffTimerFires | src/hooks/useCardSelections.ts:21-23 | the second delay hands over the same three-card hand that triggered the reveal and is also the current hand, once |
| CardCodec.Describe | src/hooks/useTarotReading.ts:59-60 | a card's text begins with its name, and a reversed card's text ends with the "(Reversed)" the parser looks for |
| CardCodec.SerializeCards | src/hooks/useTarotReading.ts:59-61 | a non-empty hand of encodable cards, once joined with ", ", splits back into exactly its card texts, in order |
| CardCodec.SerializeCardsCons | src/hooks/useTarotReading.ts:59-61 | the stored hand is the first card's text, then ", " and the rest, in selection order |
| CardCodec.ParseCard | src/utils/utils.ts:8-19 | the parsed name is a prefix of the segment, and a card is reversed only when the segment ends with "(Reversed)"; the three cases are the lemmas below |
| CardCodec.ParseCards | src/utils/utils.ts:7-20 | one card per ", "-separated segment, in order: card i is segment i parsed by `ParseCard` |
| CardCodec.ParseEmptyHand | src/utils/utils.ts:7 | the empty stored hand gives one card with the empty name |
| CardCodec.ParseReversedSegment | src/utils/utils.ts:8-13 | `X<ws>(Reversed)` gives name `X` (trailing whitespace removed), reversed |
| CardCodec.ParseEmptyParensSegment | src/utils/utils.ts:8-13 | `X<ws>()` gives name `X`, upright |
| CardCodec.ParseUnmarkedSegment | src/utils/utils.ts:15-19 | a segment ending in neither "(Reversed)" nor "()" is kept whole, upright |
| CardCodec.ParseMultiLineName | src/utils/utils.ts:8-19 | a name with a line terminator defeats the pattern (`.` does not match it); the segment falls back whole, upright |
| CardCodec.DescribeIsFree | src/hooks/useTarotReading.ts:60 | the text of an encodable card holds no ", " separator |
| CardCodec.ParseDescribe | src/utils/utils.ts:8-19 | parsing one encodable card's text gives the card back |
| CardCodec.RoundTrip | src/utils/utils.ts:7-20 | parsing the serialised hand gives back the same cards, in order, with the same orientations, for a non-empty hand of encodable cards |
| CardCodec.TrailingSpaceIsLost | src/utils/utils.ts:8-13 | a reversed name ending in a space comes back trimmed, so the format is not stable without that precondition |
| CardCodec.ReadingToFrontendFormat | src/utils/utils.ts:4-29 | no reading gives no reading. When `JSON.parse` throws on the stored prediction text, the conversion throws the same error. Otherwise the record copies every other field, holds the parsed prediction, and its cards are `ParseCards` of the stored hand |
| CardCodec.StoredHandComesBack | src/utils/utils.ts:4-29 | a row whose hand was serialised from an encodable hand, and whose prediction text parses, converts back to that very hand |
| ReadingFlow.Greeting | src/hooks/useTarotReading.ts:82 | the greeting holds the decimal card count, which reads back as that count, then the question verbatim, and ends with the prediction |
| ReadingFlow.SeedMessages | src/hooks/useTarotReading.ts:79-91 | exactly two AI messages linked to the reading, of the user: the greeting, then `firstMessage` |
| ReadingFlow.TarotReading.constructor | src/hooks/useTarotReading.ts:15-20 | all fields start empty, not loading, no user, nothing written |
| ReadingFlow.TarotReading.FetchSupabaseUser | src/hooks/useTarotReading.ts:29-44 | nothing without a signed-in user; otherwise `getOrCreateUser` is called with the external id and the email or ''; a failed lookup keeps the old user |
| ReadingFlow.TarotReading.HandleQuestionSubmit | src/hooks/useTarotReading.ts:46-48 | only the question changes |
| ReadingFlow.TarotReading.GeneratePrediction | src/hooks/useTarotReading.ts:55-116 | nothing without an application user. With one, the prediction service is called exactly once, with the question, the serialised hand and the user's id. A missing prediction or a failed reading save writes nothing and shows the error text. Otherwise exactly one reading (user, question, serialised hand, prediction) is saved, then the greeting and `firstMessage` in that order, until the first failed write. Written rows are never rolled back. Loading is false at the end |
| ReadingFlow.TarotReading.HandleCardSelection | src/hooks/useTarotReading.ts:50-53 | the hand is stored, then the prediction is generated with the same service call and the same outcomes as `GeneratePrediction` |
| ReadingFlow.TarotReading.ResetReading | src/hooks/useTarotReading.ts:119-124 | question, hand, prediction and reading id are emptied; nothing else changes |
| Records.Stored | src/hooks/useChat.ts:128-129 | the stored row is the draft with the id and timestamp the database assigned, and nothing else changed |
| Chat.ShareUrl | src/hooks/useChat.ts:77 | (built as origin + "/chat?shareId=" + id; no contract of its own) its query is `shareId=<id>` by `ShareUrlQuery`, and its id reads back by `ShareIdRoundTrip` |
| Chat.ShareIdFromUrl | src/hooks/useChat.ts:238 | (no contract of its own) on a link built by `ShareUrl` from a safe origin and id it yields that id, by `ShareIdRoundTrip` |
| Chat.ShareUrlQuery | src/hooks/useChat.ts:245 | the query of a share link is exactly `shareId=<id>` |
| Chat.ShareIdParam | src/hooks/useChat.ts:238 | `searchParams.get('shareId')` of that query is the id |
| Chat.ShareIdRoundTrip | src/hooks/useChat.ts:238-246 | the id read back out of the share link built from it is that id |
| Chat.ShareReusesId | src/hooks/useChat.ts:238-242 | a share link the coordinator built already names its id, so sharing does not generate a new one |
| Chat.RepeatedShareIsStable | src/hooks/useChat.ts:238-246 | sharing again rebuilds the same URL |
| Chat.ChatSession.constructor | src/hooks/useChat.ts:18-28 | empty messages and input, no reading, no flags, no share link |
| Chat.ChatSession.Load | src/hooks/useChat.ts:30-37 | the own load runs exactly with a user and a prediction id; the shared load runs exactly without them and with a share id. The own load sets the messages and the reading, ownership and share link with the outcomes of `LoadChatMessages` and `LoadTarotReading`. A shared load of a reading whose prediction text parses shows it and never claims ownership; a failed, missing or unparsable shared reading changes neither the reading nor ownership |
| Chat.ChatSession.LoadChatMessages | src/hooks/useChat.ts:43-65 | with a user, an application user and a successful read, the messages are the rows read; otherwise unchanged |
| Chat.ChatSession.LoadTarotReading | src/hooks/useChat.ts:67-93 | a found own reading whose prediction text parses is shown, the viewer owns it, and the share link is rebuilt from its share id or cleared; a missing reading clears ownership; a failed call, or a prediction text `JSON.parse` throws on (src/utils/utils.ts:22), changes nothing |
| Chat.ChatSession.LoadSharedTarotReading | src/hooks/useChat.ts:95-113 | a found shared reading whose prediction text parses is shown and not owned; otherwise, including a parse error, nothing changes |
| Chat.ChatSession.CanSend | src/hooks/useChat.ts:116 | (a predicate; see the next row) the send guard: a non-blank input, a user and a loaded reading |
| Chat.ChatSession.CanSendIsTrimGuard | src/hooks/useChat.ts:116 | the guard holds exactly when `input.trim()` is non-empty, a user is signed in and a reading is loaded |
| Chat.ChatSession.HandleSendMessage | src/hooks/useChat.ts:115-160 | a blank input, no user or no reading makes it a no-op. With all saves, the list grows by the user message with the pre-send input, then the AI reply. The input is cleared only after the user message is saved; if that save fails, messages and input are unchanged. If the AI call or its save fails, the user message stays and no AI message is added. Loading is false at the end |
| Chat.ChatSession.HandleQuestionGenerated | src/hooks/useChat.ts:162-195 | a generated question is appended (and written) as one AI message whose metadata options are the given options; a failure adds nothing |
| Chat.ChatSession.HandleGenerateQuestion | src/hooks/useChat.ts:197-231 | nothing without a prediction id and a user. The service is asked exactly when an application user is found, with that user, the reading and the time frame. Its question is posted as in `HandleQuestionGenerated`. The flag is lowered at the end |
| Chat.ChatSession.HandleShare | src/hooks/useChat.ts:233-270 | an id already in the share link is reused and a new id is requested only without one; with an id, the link becomes origin + "/chat?shareId=" + id and that link is copied; nothing else changes |
| QuestionForm.Reducer | src/components/QuestionForm/questionReducer.ts:18-29 | each action sets its own field to its payload and leaves the other two fields alone |
| QuestionForm.StateOfParts | src/components/QuestionForm/questionReducer.ts:18-29 | the reducer's contract determines its result uniquely |
| QuestionForm.ReducerIdempotent | src/components/QuestionForm/questionReducer.ts:18-29 | applying an action twice equals applying it once |
| QuestionForm.ReducerCommutes | src/components/QuestionForm/questionReducer.ts:18-29 | actions on different fields commute |
| QuestionForm.ReducerLastWriteWins | src/components/QuestionForm/questionReducer.ts:18-29 | of two actions on the same field, the second wins |
| QuestionForm.InitialStateIsEmpty | src/components/QuestionForm/questionReducer.ts:12-16 | empty question, empty theme, no displayed questions |
| QuestionForm.Slice | src/components/QuestionForm/QuestionForm.tsx:97 | `slice(0, 4)` gives the first min(4, length) entries |
| QuestionForm.RandomSort | src/components/QuestionForm/QuestionForm.tsx:94 | sorting with the random comparator reorders the array in place and keeps it a permutation of its contents |
| QuestionForm.PermutationKeepsDistinct | src/components/QuestionForm/QuestionForm.tsx:94 | a reordering of a list without repeats has no repeats |
| QuestionForm.PrefixKeepsDistinct | src/components/QuestionForm/QuestionForm.tsx:97 | a prefix of a list without repeats has no repeats |
| QuestionForm.CatalogueIsWellStocked | src/components/QuestionForm/themeData.ts:10-60 | every theme's list has at least four questions and no repeats |
| QuestionForm.QuestionFormView.constructor | src/components/QuestionForm/QuestionForm.tsx:68-69 | the form starts in the reducer's initial state over the exported theme lists |
| QuestionForm.QuestionFormView.HandleQuestionChange | src/components/QuestionForm/QuestionForm.tsx:75-80 | typing dispatches `SET_QUESTION` with the box's value |
| QuestionForm.QuestionFormView.HandleThemeChange | src/components/QuestionForm/QuestionForm.tsx:82-84 | choosing a theme dispatches `SET_THEME` |
| QuestionForm.QuestionFormView.HandleQuestionSelect | src/components/QuestionForm/QuestionForm.tsx:86-88 | picking an example dispatches `SET_QUESTION` with it |
| QuestionForm.QuestionFormView.HandleSubmit | src/components/QuestionForm/QuestionForm.tsx:109-114 | `onSubmit` is called exactly when the question holds a non-whitespace character, with the untrimmed question |
| QuestionForm.QuestionFormView.RefreshQuestions | src/components/QuestionForm/QuestionForm.tsx:90-100 | with no theme, nothing changes. Otherwise the theme's list is reordered in place and stays a permutation of the original, and other lists are untouched. Exactly 4 questions are displayed: the list's first four, each from the theme's list, with no repeats |
| ThemeData.CatalogueFacts | src/components/QuestionForm/themeData.ts:1-60 | every listed theme has a question list, there is one list per theme, and each has at least four distinct questions |
| ThemeData.CareerQuestionsDistinct | src/components/QuestionForm/themeData.ts:11-18 | the Career questions have no repeats |
| ThemeData.RelationshipQuestionsDistinct | src/components/QuestionForm/themeData.ts:19-27 | the Relationships questions have no repeats |
| ThemeData.PersonalGrowthQuestionsDistinct | src/components/QuestionForm/themeData.ts:28-35 | the Personal Growth questions have no repeats |
| ThemeData.FinanceQuestionsDistinct | src/components/QuestionForm/themeData.ts:36-43 | the Finance questions have no repeats |
| ThemeData.HomeFamilyQuestionsDistinct | src/components/QuestionForm/themeData.ts:44-51 | the Home & Family questions have no repeats |
| ThemeData.SpiritualityQuestionsDistinct | src/components/QuestionForm/themeData.ts:52-59 | the Spirituality questions have no repeats |
| Text.Trim | src/components/QuestionForm/QuestionForm.tsx:111 | `trim()` is empty (falsy) exactly when the text is all whitespace |
| Text.TrimEnd | src/utils/utils.ts:8 | the lazy name group plus `\s*` leave the longest prefix not ending in whitespace, with only whitespace after it |
| Text.ToLower | supabase/functions/generate-question/index.ts:85 | `toLowerCase` maps each character to its (ASCII) lower-case form |
| Text.ToLowerIdempotent | supabase/functions/generate-question/index.ts:85 | lower-casing twice is lower-casing once |
| Text.Split | src/utils/utils.ts:7 | `split(", ")` always yields at least one piece |
| Text.SplitPiecesAreFree | src/utils/utils.ts:7 | no piece of a split holds the separator |
| Text.JoinSplit | src/utils/utils.ts:7 | joining the pieces of a split with the same separator gives the text back |
| Text.Join | src/hooks/useTarotReading.ts:61 | (no contract of its own) `join(", ")`; `JoinSplit` and `SplitJoin` relate it to `Split` |
| Text.SplitJoin | src/hooks/useTarotReading.ts:61 | splitting joined pieces gives the pieces back when none holds the separator and the separator cannot overlap itself |
| Text.ReplaceAll | supabase/functions/generate-question/index.ts:49 | (no contract of its own) the global replace of a literal pattern; see the next two rows |
| Text.ReplaceAllIsSplitJoin | supabase/functions/generate-question/index.ts:49 | the global replace equals splitting on the pattern and joining with the replacement |
| Text.ReplaceAllRemovesPattern | supabase/functions/generate-question/index.ts:49 | no occurrence of the pattern is left when the replacement is non-empty, does not hold the pattern's first character, and does not start with a character of the pattern's remainder |
| JsValue.Lookup | supabase/functions/generate-tarot-prediction/index.ts:73 | a property read yields a value bound to that key, and `undefined` when no binding has the key |
| JsValue.LookupReadsLastBinding | supabase/functions/generate-tarot-prediction/index.ts:73 | when some field binds the key, the read yields the value of the last such field, the one `JSON.parse` keeps for a repeated key |
| JsValue.LookupDistinct | supabase/functions/generate-tarot-prediction/index.ts:73 | in an object whose keys are distinct, reading any field's key yields that field's own value |
| JsValue.TruthyHasProperties | supabase/functions/generate-tarot-prediction/index.ts:79 | a truthy value is neither null nor undefined, so its properties can be read |
| PredictionFunction.EffectiveContent | supabase/functions/generate-tarot-prediction/index.ts:69 | the text parsed is `'{}'` exactly when the content is missing, empty or `{}` itself; any other content is parsed as it is |
| PredictionFunction.SuccessBody | supabase/functions/generate-tarot-prediction/index.ts:85-88 | the success body holds exactly `prediction`, `firstMessage` and `summary`, in order, each read back as given |
| PredictionFunction.CheckResult | supabase/functions/generate-tarot-prediction/index.ts:73-82 | the answer is accepted exactly when it can be destructured and the prediction, its past, present and future, the first message and the summary are all truthy; the body then echoes them; otherwise the missing-fields error, or V8's destructuring error for null |
| PredictionFunction.HandleRequest | supabase/functions/generate-tarot-prediction/index.ts:42-95 | OPTIONS gets the preflight "ok"; every other request gets 200 or status 400 with `{error: message}`; a thrown call is reported with its message |
| PredictionFunction.HandleRequestSucceeds | supabase/functions/generate-tarot-prediction/index.ts:69-88 | a request succeeds exactly when the call, the parse and the field check succeed, and the body is then the checked answer |
| PredictionFunction.EmptyContentIsRejected | supabase/functions/generate-tarot-prediction/index.ts:69-82 | missing or empty content is read as `{}` and rejected with the missing-fields error |
| PredictionFunction.FalsyFieldIsRejected | supabase/functions/generate-tarot-prediction/index.ts:79-82 | a falsy `prediction`, `firstMessage` or `summary` is rejected |
| PredictionFunction.EmptyTextIsRejected | supabase/functions/generate-tarot-prediction/index.ts:79-82 | an empty string counts as missing in any of the five text fields |
| PredictionFunction.WellFormedAnswerIsEchoed | supabase/functions/generate-tarot-prediction/index.ts:79-88 | an answer of the requested shape with non-empty texts passes and is echoed unchanged |
| PredictionFunction.NullAnswerIsRejected | supabase/functions/generate-tarot-prediction/index.ts:69-73 | an answer parsing to `null` fails at the destructuring |
| PredictionPrompt.GenerateDynamicPrompt | supabase/functions/generate-tarot-prediction/prompt.ts:23-27 | (no contract of its own) `Compose` over the exported instructions; its shape is `Compose`'s contract and its injectivity `GenerateDynamicPromptInjective` |
| PredictionPrompt.Compose | supabase/functions/generate-tarot-prediction/prompt.ts:23-27 | the prompt is "\nQuestion: ", the question, "\nCards: ", the cards, a blank line and the instructions, in that order, verbatim, with exactly that length |
| PredictionPrompt.CardsLine | supabase/functions/generate-tarot-prediction/prompt.ts:25-26 | the cards line is "Cards: ", the cards and a blank line |
| PredictionPrompt.ComposeInjective | supabase/functions/generate-tarot-prediction/prompt.ts:23-27 | for questions without a line break, the prompt determines the question and the cards |
| PredictionPrompt.GenerateDynamicPromptInjective | supabase/functions/generate-tarot-prediction/prompt.ts:23-27 | the same for the prompt ending with the exported instructions |
| ChatPrompt.GenerateDynamicPrompt | supabase/functions/ai-astrologist-chat/prompt.ts:19-24 | (no contract of its own) `Compose` over the exported instructions; its shape is `Compose`'s contract, and `PlaceholdersAreNotSubstituted` and `GenerateDynamicPromptInjective` are about it |
| ChatPrompt.Compose | supabase/functions/ai-astrologist-chat/prompt.ts:19-24 | the prompt is "\nQuestion: ", "\nCards: " and "\nPrediction: " with the three values verbatim in that order, a blank line and the instructions, with exactly that length |
| ChatPrompt.SystemPromptPlaceholders | supabase/functions/ai-astrologist-chat/prompt.ts:1-5 | the instructions hold `{question}`, `{cards}` and `{prediction}` at fixed positions |
| ChatPrompt.InstructionsKept | supabase/functions/ai-astrologist-chat/prompt.ts:19-24 | any text in the instructions is found again at the end of the prompt |
| ChatPrompt.PlaceholdersAreNotSubstituted | supabase/functions/ai-astrologist-chat/prompt.ts:1-24 | the prompt still holds all three placeholders, whatever the arguments |
| ChatPrompt.ComposeInjective | supabase/functions/ai-astrologist-chat/prompt.ts:19-24 | for a question and cards without a line break, the prompt determines all three values |
| ChatPrompt.GenerateDynamicPromptInjective | supabase/functions/ai-astrologist-chat/prompt.ts:19-24 | the same for the prompt ending with the exported instructions |
| ChatFunction.SystemContent | supabase/functions/ai-astrologist-chat/index.ts:38-59 | (no contract of its own) the system message text, `Embed` of the fixed introduction, the reading and the guidelines; `SystemContentEmbedsReading` is about it |
| ChatFunction.Embed | supabase/functions/ai-astrologist-chat/index.ts:40-58 | the system content holds the question (quoted), the cards and the prediction verbatim, in order, at known positions, between the fixed introduction and guidelines |
| ChatFunction.SystemContentEmbedsReading | supabase/functions/ai-astrologist-chat/index.ts:42-44 | the reading's question, cards and prediction each occur in the system content |
| ChatFunction.Role | supabase/functions/ai-astrologist-chat/index.ts:34 | the role is "assistant" exactly for AI responses, else "user" |
| ChatFunction.HistoryMessages | supabase/functions/ai-astrologist-chat/index.ts:33-36 | one message per history entry, in order, with its role and text |
| ChatFunction.PreparedFromIsUnique | supabase/functions/ai-astrologist-chat/index.ts:33-59 | the description of the outgoing list fixes it completely |
| ChatFunction.PrepareMessages | supabase/functions/ai-astrologist-chat/index.ts:33-59 | the outgoing list has length history + 1. Element 0 is the system message. Each later role is "assistant" exactly when the entry is an AI response, else "user". Contents are the history texts in order |
| ChatFunction.HandleRequest | supabase/functions/ai-astrologist-chat/index.ts:21-84 | OPTIONS gets "ok". A missing history or reading fails with V8's error. Otherwise the prepared list is sent. An empty or missing answer is a 400. A non-empty one is returned with the echoed `predictionId` |
| QuestionTemplate.LowerName | supabase/functions/generate-question/index.ts:58-62 | the lower-cased enum value is "past", "present" or "future" |
| QuestionTemplate.Fill | supabase/functions/generate-question/index.ts:49 | (no contract of its own) the global replace of `{timeFrame}` by the lower-cased time frame; the next three rows are about it |
| QuestionTemplate.FillReplacesEveryPlaceholder | supabase/functions/generate-question/index.ts:49 | the global replace cuts the instructions at every `{timeFrame}` and joins the pieces, which hold no placeholder, with the lower-cased time frame; the rest is unchanged |
| QuestionTemplate.FillLowersOnce | supabase/functions/generate-question/index.ts:49 | lower-casing before the call as well changes nothing |
| QuestionTemplate.FilledTemplateHasNoPlaceholder | supabase/functions/generate-question/index.ts:49 | for every time frame, no `{timeFrame}` is left after the replace |
| QuestionTemplate.Frame | supabase/functions/generate-question/index.ts:44-49 | "\nTarot Prediction: ", the prediction, the conversation label, the conversation, a blank line and the filled instructions, verbatim and in order |
| QuestionTemplate.BuildShape | supabase/functions/generate-question/prompt.ts:36-41 | the built prompt has that shape, with the instructions filled by the lower-cased time frame |
| QuestionTemplate.BuildLowersOnce | supabase/functions/generate-question/prompt.ts:41 | building with an already lower-cased time frame gives the same prompt |
| QuestionTemplate.BuildHasNoPlaceholder | supabase/functions/generate-question/prompt.ts:36-41 | for every time frame, and arguments without the placeholder, the built prompt holds no `{timeFrame}` |
| QuestionPrompt.GenerateDynamicPrompt | supabase/functions/generate-question/prompt.ts:36-41 | (no contract of its own) `Build` with the "Previous Conversation" label; `PromptShape` and `NoPlaceholderRemains` are about it |
| QuestionPrompt.PromptShape | supabase/functions/generate-question/prompt.ts:36-41 | "\nTarot Prediction: " + p + "\n\nPrevious Conversation: " + c + "\n\n" + the instructions with every `{timeFrame}` replaced by the lower-cased argument |
| QuestionPrompt.NoPlaceholderRemains | supabase/functions/generate-question/prompt.ts:36-41 | for every time frame the prompt holds no `{timeFrame}` |
| QuestionFunction.GenerateDynamicPrompt | supabase/functions/generate-question/index.ts:44-49 | (no contract of its own) `Build` with the "Chat History" label; `PromptShape` and `NoPlaceholderRemains` are about it |
| QuestionFunction.PromptShape | supabase/functions/generate-question/index.ts:44-49 | "\nTarot Prediction: " + p + "\n\nChat History: " + h + "\n\n" + the instructions with every `{timeFrame}` replaced by the lower-cased argument |
| QuestionFunction.NoPlaceholderRemains | supabase/functions/generate-question/index.ts:44-49 | for every time frame the dynamic prompt holds no `{timeFrame}` |
| QuestionFunction.Prepare | supabase/functions/generate-question/index.ts:79-94 | the messages can be built exactly when the reading has properties and the time frame is a string: a system and a user message. Otherwise it fails with V8's message: reading `prediction` of a null or undefined reading, reading `toLowerCase` of a null or undefined time frame, or "timeFrame.toLowerCase is not a function" for any other non-string |
| QuestionFunction.PreparedMessages | supabase/functions/generate-question/index.ts:82-94 | the system message is the unreplaced instructions; the user message is the dynamic prompt of the stringified prediction and history and the time frame |
| QuestionFunction.DynamicPromptLowersOnce | supabase/functions/generate-question/index.ts:85 | lower-casing twice (in the handler and in the builder) equals lower-casing once |
| QuestionFunction.TimeFrameRequestIsFilled | supabase/functions/generate-question/index.ts:79-94 | a request with a reading and an enum time frame is prepared, its user message holds no `{timeFrame}`, and its system message is the unreplaced instructions |
| QuestionFunction.HandleRequest | supabase/functions/generate-question/index.ts:64-121 | OPTIONS gets "ok"; every other request gets 200 or status 400 with `{error: message}` |
| QuestionFunction.EmptyAnswerIsRejected | supabase/functions/generate-question/index.ts:98-103 | a missing or empty model answer is a 400 with "No response from OpenAI" |
| QuestionFunction.HandleRequestSucceeds | supabase/functions/generate-question/index.ts:98-113 | a request succeeds exactly when the messages are prepared, the model answers with non-empty text and the text parses; the body is the parsed answer |

## Left out

- Network, database and AI calls are left out: Supabase queries, `fetch`, OpenAI, `Deno.env`, `serve`, CORS headers. Each becomes the outcome it yields, passed as a parameter.
- `JSON.parse` and `JSON.stringify` (RFC 8259) are parameters. This leaves out how `JSON.stringify` drops keys bound to `undefined` and which texts `JSON.parse` accepts; its outcome (a value or the thrown message) is given.
- Interpolated values are modelled as strings. An object interpolated into a template (`"[object Object]"`) is not modelled.
- `toLowerCase` and `trim` follow JavaScript for ASCII letters and for the whitespace set `\s` names. Unicode case mapping beyond ASCII is not modelled.
- The `$` patterns of `String.prototype.replace` are not modelled; none of the time-frame names contains `$`.
- URL handling is left out: the URL parser's removal of tabs and line breaks and its stripping of leading and trailing controls and spaces, percent-decoding and `+` in query values, and `new URL` throwing on a malformed link. `Chat.ShareIdFromUrl` reads the query of the text as it is. `Chat.ShareSafe` names the ids and origins for which the round trip through the model's `ShareIdFromUrl` holds; it excludes the characters the parser would remove or strip, so on those inputs the browser reads the same id.
- Timers: the two 2000 ms reveal delays are the step methods `FlipTimerFires` and `HandoffTimerFires`. The 300 ms refresh debounce, the clearing of pending timers on unmount, and the interleaving of concurrent async loads are left out; each async handler runs to completion as one method.
- Side effects are left out: toasts, `console`, clipboard writes (the copied text is a result), scrolling, and the rendering components and routes (including the share redirect and the in-flight send guard of the chat page).
- The prediction function's inline instructions and user message (generate-tarot-prediction/index.ts:11-32, 53-67) are the input of the model call, which is a parameter. That handler does not use its own `prompt.ts`, which is modelled on its own.
- Version drift between client and services is left out: service results are taken as inputs instead. The API helper returns `data.prediction` (src/lib/api.ts:20) while the reading coordinator destructures `prediction` and `firstMessage` from it. The client chat call sends no `chatHistory` or `tarotPrediction`.
- The older src/components/QuestionForm.tsx repeats the newer form's trim-guarded submit and is not modelled separately.
- QuestionFunction.NoPlaceholderRemains and QuestionPrompt.NoPlaceholderRemains do not state that the instructions hold exactly two `{timeFrame}` occurrences. The verifier does not see inside long string literals; both lemmas are proved for any instructions text.
- QuestionForm.QuestionFormView.constructor takes the theme arrays as a parameter, so each form has its own arrays. In the source they are module-level arrays shared by every form instance, and each shuffle persists into later renders.
- QuestionForm.QuestionFormView.RefreshQuestions returns `false` for a theme missing from the catalogue. The source throws a TypeError there (`undefined.sort`), which the form does not catch.
- ReadingFlow.TarotReading.GeneratePrediction links the seed messages to `reading.id ?? ''`. The source writes `reading.id!`; the two differ only when the database returns no id.
- CardSelection.CardSelector.HandleCardClick takes the orientation as a parameter even when the tap does not add a card; the source draws it only when it appends.
