/**
 * The records the client and the database exchange: a picked card, a reading
 * as stored (cards and prediction as text) and as the front end uses it,
 * a chat message, the application's user record, and the time frames a
 * discussion question can be about.
 */
module Records {
  import opened Wrappers
  import opened JsValue

  /** A card as picked: its name and whether it was drawn upside down. */
  datatype SelectedCard = SelectedCard(name: string, isReversed: bool)

  /** The application's own user row (keyed by the identity provider's id). */
  datatype User = User(id: string, externalId: string, email: string)

  /** A `tarot_readings` row: the hand and the prediction are stored as text. */
  datatype DbReading = DbReading(
    id: Option<string>,
    userId: string,
    question: string,
    cards: string,
    prediction: string,
    createdAt: Option<string>,
    shareId: Option<string>)

  /** The front end's reading: the hand parsed into cards and the prediction text parsed as JSON. */
  datatype FrontendReading = FrontendReading(
    id: Option<string>,
    userId: string,
    question: string,
    cards: seq<SelectedCard>,
    prediction: Value,
    createdAt: Option<string>,
    shareId: Option<string>)

  /** The `metadata` of a generated discussion question: its quick-reply options. */
  datatype Metadata = Metadata(options: seq<string>)

  /** A `chat_messages` row; `id` and `createdAt` are assigned by the database. */
  datatype ChatMessage = ChatMessage(
    id: Option<string>,
    userId: string,
    predictionId: string,
    message: string,
    isAiResponse: bool,
    metadata: Option<Metadata>,
    createdAt: Option<string>)

  /** What the database assigns to a row it stores. */
  datatype RowStamp = RowStamp(id: string, createdAt: string)

  /** The row the database returns for a stored message draft. */
  function Stored(draft: ChatMessage, stamp: RowStamp): (m: ChatMessage)
    ensures m.id == Some(stamp.id) && m.createdAt == Some(stamp.createdAt)
    ensures m.(id := draft.id, createdAt := draft.createdAt) == draft
  {
    draft.(id := Some(stamp.id), createdAt := Some(stamp.createdAt))
  }

  /** The period a generated discussion question is about. */
  datatype TimeFrame = Past | Present | Future

  /** The enum's string value, as sent over the wire. */
  function TimeFrameName(t: TimeFrame): string
  {
    match t
    case Past => "PAST"
    case Present => "PRESENT"
    case Future => "FUTURE"
  }
}
