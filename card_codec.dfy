/**
 * The text encoding of a hand: the serialiser the reading coordinator uses
 * when it saves a reading ("Name (Reversed), Name, ..."), the parser that
 * turns a stored hand back into cards, and the conversion of a stored
 * reading into the front end's record.
 */
module CardCodec {
  import opened Wrappers
  import opened Text
  import opened Records
  import opened JsValue

  const CardSeparator := ", "
  const ReversedMarker := " (Reversed)"

  /**
   * One card as text: its name, followed by " (Reversed)" exactly when it is
   * reversed. The text begins with the name, and a reversed card's text ends
   * with the "(Reversed)" the parser looks for.
   */
  function Describe(c: SelectedCard): (r: string)
    ensures StartsWith(r, c.name)
    ensures c.isReversed ==> EndsWith(r, "(Reversed)")
  {
    c.name + (if c.isReversed then ReversedMarker else "")
  }

  function Descriptions(cards: seq<SelectedCard>): (r: seq<string>)
    ensures |r| == |cards|
    ensures forall i :: 0 <= i < |cards| ==> r[i] == Describe(cards[i])
  {
    seq(|cards|, i requires 0 <= i < |cards| => Describe(cards[i]))
  }

  /**
   * The stored form of a hand: the card texts in selection order, joined by
   * ", ". A non-empty hand of encodable cards splits back into exactly those
   * texts.
   */
  function SerializeCards(cards: seq<SelectedCard>): (r: string)
    ensures |cards| >= 1 && (forall i :: 0 <= i < |cards| ==> Encodable(cards[i])) ==>
      Split(r, CardSeparator) == Descriptions(cards)
  {
    SerializedHandSplits(cards);
    Join(Descriptions(cards), CardSeparator)
  }

  /** No card text of an encodable hand holds the separator, so the split undoes the join. */
  lemma SerializedHandSplits(cards: seq<SelectedCard>)
    ensures |cards| >= 1 && (forall i :: 0 <= i < |cards| ==> Encodable(cards[i])) ==>
      Split(Join(Descriptions(cards), CardSeparator), CardSeparator) == Descriptions(cards)
  {
    if |cards| >= 1 && forall i :: 0 <= i < |cards| ==> Encodable(cards[i]) {
      var parts := Descriptions(cards);
      forall i | 0 <= i < |parts| ensures !Occurs(CardSeparator, parts[i]) {
        DescribeIsFree(cards[i]);
      }
      assert Unbordered(CardSeparator) by {
        assert CardSeparator[1..] == [' '] && CardSeparator[..1] == [','];
      }
      SplitJoin(parts, CardSeparator);
    }
  }

  /** The serialised hand begins with its first card and then holds the rest after one separator. */
  lemma SerializeCardsCons(c: SelectedCard, rest: seq<SelectedCard>)
    ensures SerializeCards([c]) == Describe(c)
    ensures rest != [] ==> SerializeCards([c] + rest) == Describe(c) + ", " + SerializeCards(rest)
  {
    if rest != [] {
      assert Descriptions([c] + rest)[1..] == Descriptions(rest);
    }
  }

  /**
   * What `/^(.*?)\s*\((Reversed)?\)$/` accepts as the name part in front of
   * the parentheses: `.` does not match a line terminator, and the lazy group
   * stops where only whitespace is left, so the captured name is `TrimEnd(r)`
   * and the match fails when that still holds a line terminator.
   */
  predicate NameGroupMatches(r: string) {
    !HasLineTerminator(TrimEnd(r))
  }

  /**
   * One segment of a stored hand: `X<ws>(Reversed)` is `X` reversed,
   * `X<ws>()` is `X` upright, and anything the pattern does not match is
   * the whole segment, upright.
   */
  function ParseCard(seg: string): (r: SelectedCard)
    ensures StartsWith(seg, r.name)
    ensures r.isReversed ==> EndsWith(seg, "(Reversed)")
  {
    if EndsWith(seg, "(Reversed)") && NameGroupMatches(seg[..|seg| - 10]) then
      SelectedCard(TrimEnd(seg[..|seg| - 10]), true)
    else if EndsWith(seg, "()") && NameGroupMatches(seg[..|seg| - 2]) then
      SelectedCard(TrimEnd(seg[..|seg| - 2]), false)
    else
      SelectedCard(seg, false)
  }

  /** A stored hand: one card per ", "-separated segment, in order. */
  function ParseCards(s: string): (r: seq<SelectedCard>)
    ensures |r| == |Split(s, CardSeparator)|
    ensures forall i :: 0 <= i < |r| ==> r[i] == ParseCard(Split(s, CardSeparator)[i])
  {
    var segs := Split(s, CardSeparator);
    seq(|segs|, i requires 0 <= i < |segs| => ParseCard(segs[i]))
  }

  /** A name followed by blanks and "(Reversed)" parses to that name, reversed. */
  lemma ParseReversedSegment(x: string, ws: string)
    requires IsBlank(ws) && !HasLineTerminator(x)
    requires x == [] || !IsWhitespace(x[|x| - 1])
    ensures ParseCard(x + ws + "(Reversed)") == SelectedCard(x, true)
  {
    var seg := x + ws + "(Reversed)";
    assert seg[..|seg| - 10] == x + ws;
    TrimEndBlankSuffix(x, ws);
  }

  /** A name followed by blanks and "()" parses to that name, upright. */
  lemma ParseEmptyParensSegment(x: string, ws: string)
    requires IsBlank(ws) && !HasLineTerminator(x)
    requires x == [] || !IsWhitespace(x[|x| - 1])
    ensures ParseCard(x + ws + "()") == SelectedCard(x, false)
  {
    var seg := x + ws + "()";
    assert seg[..|seg| - 2] == x + ws;
    assert !EndsWith(seg, "(Reversed)") by {
      assert seg[|seg| - 1] == ')' && seg[|seg| - 2] == '(';
      assert "(Reversed)"[8] == 'd';
    }
    TrimEndBlankSuffix(x, ws);
  }

  /** A segment that ends in neither "(Reversed)" nor "()" is kept whole, upright. */
  lemma ParseUnmarkedSegment(seg: string)
    requires !EndsWith(seg, "(Reversed)") && !EndsWith(seg, "()")
    ensures ParseCard(seg) == SelectedCard(seg, false)
  {
  }

  /** A name holding a line terminator defeats the pattern: the segment is kept whole, upright. */
  lemma ParseMultiLineName(x: string)
    requires HasLineTerminator(x) && (x == [] || !IsWhitespace(x[|x| - 1]))
    ensures ParseCard(x + " (Reversed)") == SelectedCard(x + " (Reversed)", false)
  {
    var seg := x + " (Reversed)";
    assert seg[..|seg| - 10] == x + " ";
    TrimEndBlankSuffix(x, " ");
    assert !EndsWith(seg, "()") by {
      assert seg[|seg| - 2] == 'd';
    }
  }

  /** The empty stored hand parses to a single card with the empty name. */
  lemma ParseEmptyHand()
    ensures ParseCards("") == [SelectedCard("", false)]
  {
    assert Split("", CardSeparator) == [""];
  }

  /**
   * A sufficient condition for the text encoding to carry a card: its name holds
   * no ", ", an upright name does not end like a marker, and a reversed name
   * (which gets " (Reversed)" appended) does not end in whitespace or ',' and
   * holds no line terminator. It is not necessary: an upright name such as
   * "a\nb()" also comes back whole, because the line break defeats the pattern;
   * `TrailingSpaceIsLost` shows that the whitespace condition cannot be dropped.
   */
  predicate Encodable(c: SelectedCard) {
    && !Occurs(CardSeparator, c.name)
    && (if c.isReversed then
          && !EndsWith(c.name, ",")
          && !HasLineTerminator(c.name)
          && (c.name == [] || !IsWhitespace(c.name[|c.name| - 1]))
        else
          !EndsWith(c.name, "()") && !EndsWith(c.name, "(Reversed)"))
  }

  /** The text of an encodable card holds no separator. */
  lemma DescribeIsFree(c: SelectedCard)
    requires Encodable(c)
    ensures !Occurs(CardSeparator, Describe(c))
  {
    if c.isReversed {
      assert Describe(c) == c.name + ReversedMarker;
      forall k | 0 < k < |CardSeparator|
        ensures !(EndsWith(c.name, CardSeparator[..k]) && StartsWith(ReversedMarker, CardSeparator[k..]))
      {
        assert k == 1 && CardSeparator[..k] == ",";
      }
      NoOccurrenceInConcat(CardSeparator, c.name, ReversedMarker);
    } else {
      assert Describe(c) == c.name;
    }
  }

  /** Parsing the text of an encodable card gives the card back. */
  lemma ParseDescribe(c: SelectedCard)
    requires Encodable(c)
    ensures ParseCard(Describe(c)) == c
  {
    if c.isReversed {
      assert Describe(c) == c.name + " " + "(Reversed)";
      ParseReversedSegment(c.name, " ");
    } else {
      assert Describe(c) == c.name;
    }
  }

  /**
   * The round trip of the stored hand format: parsing the serialised hand
   * gives back the same cards, in the same order, with the same orientations.
   */
  lemma RoundTrip(hand: seq<SelectedCard>)
    requires |hand| >= 1
    requires forall i :: 0 <= i < |hand| ==> Encodable(hand[i])
    ensures ParseCards(SerializeCards(hand)) == hand
  {
    forall i | 0 <= i < |hand| ensures ParseCards(SerializeCards(hand))[i] == hand[i] {
      ParseDescribe(hand[i]);
    }
  }

  /**
   * Without the trailing-whitespace condition the format is not even stable:
   * a reversed "X " is stored as "X  (Reversed)", read back as "X", and
   * stored again as "X (Reversed)".
   */
  lemma TrailingSpaceIsLost()
    ensures ParseCards(SerializeCards([SelectedCard("X ", true)])) == [SelectedCard("X", true)]
    ensures SerializeCards(ParseCards(SerializeCards([SelectedCard("X ", true)]))) != SerializeCards([SelectedCard("X ", true)])
  {
    var c := SelectedCard("X ", true);
    var text := Describe(c);
    assert text == "X" + "  " + "(Reversed)";
    SerializeCardsCons(c, []);
    assert SerializeCards([c]) == text;
    assert ',' !in text;
    NoOccurrenceWithoutFirstChar(CardSeparator, text);
    SplitFree(text, CardSeparator);
    assert !HasLineTerminator("X");
    ParseReversedSegment("X", "  ");
    assert ParseCards(text) == [SelectedCard("X", true)];
    SerializeCardsCons(SelectedCard("X", true), []);
    assert |Describe(SelectedCard("X", true))| == 12;
  }

  /**
   * `readingToFrontendFormat`: no reading gives no reading; otherwise the hand
   * is parsed, the prediction text is handed to `JSON.parse` (`parse`, which
   * yields the parsed value or the message of the error it throws), and every
   * other field is copied unchanged. A parse error is thrown to the caller.
   */
  function ReadingToFrontendFormat(db: Option<DbReading>, parse: string -> Result<Value>): (r: Result<Option<FrontendReading>>)
    ensures db.None? ==> r == Ok(None)
    ensures db.Some? && parse(db.value.prediction).Err? ==> r == Err(parse(db.value.prediction).message)
    ensures db.Some? && parse(db.value.prediction).Ok? ==> r.Ok? && r.value.Some?
    ensures r.Ok? && r.value.Some? ==>
      && r.value.value.id == db.value.id
      && r.value.value.userId == db.value.userId
      && r.value.value.question == db.value.question
      && r.value.value.createdAt == db.value.createdAt
      && r.value.value.shareId == db.value.shareId
      && r.value.value.prediction == parse(db.value.prediction).value
      && r.value.value.cards == ParseCards(db.value.cards)
  {
    match db
    case None => Ok(None)
    case Some(d) =>
      var cards := ParseCards(d.cards);
      match parse(d.prediction)
      case Err(e) => Err(e)
      case Ok(p) => Ok(Some(FrontendReading(d.id, d.userId, d.question, cards, p, d.createdAt, d.shareId)))
  }

  /** A reading saved from an encodable hand, whose prediction text parses, comes back with that very hand. */
  lemma StoredHandComesBack(d: DbReading, hand: seq<SelectedCard>, parse: string -> Result<Value>)
    requires |hand| >= 1 && forall i :: 0 <= i < |hand| ==> Encodable(hand[i])
    requires d.cards == SerializeCards(hand) && parse(d.prediction).Ok?
    ensures ReadingToFrontendFormat(Some(d), parse).Ok?
    ensures ReadingToFrontendFormat(Some(d), parse).value.Some?
    ensures ReadingToFrontendFormat(Some(d), parse).value.value.cards == hand
  {
    RoundTrip(hand);
  }
}
