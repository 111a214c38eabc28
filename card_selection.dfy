/**
 * The card-selection state machine behind the card grid: tapping toggles a
 * card in or out of a hand of at most three distinct cards, with the
 * orientation fixed at the tap; once three are held a one-shot reveal
 * freezes the hand, flips the cards face up after a first delay and hands
 * the hand on after a second one. The random orientation is a parameter and
 * each delay is a step method of its own.
 */
module CardSelection {
  import opened Wrappers
  import opened Records

  const HandSize := 3

  /** The names of the cards, in order (what the reveal flips face up). */
  function Names(cards: seq<SelectedCard>): (r: seq<string>)
    ensures |r| == |cards|
    ensures forall i :: 0 <= i < |cards| ==> r[i] == cards[i].name
  {
    seq(|cards|, i requires 0 <= i < |cards| => cards[i].name)
  }

  predicate DistinctNames(cards: seq<SelectedCard>) {
    forall i, j :: 0 <= i < j < |cards| ==> cards[i].name != cards[j].name
  }

  /** `prev.find(c => c.name === card)` finds something. */
  predicate Holds(cards: seq<SelectedCard>, name: string) {
    exists i :: 0 <= i < |cards| && cards[i].name == name
  }

  /** `prev.filter(c => c.name !== card)`. */
  function Without(cards: seq<SelectedCard>, name: string): (r: seq<SelectedCard>)
    ensures |r| <= |cards|
    ensures forall i :: 0 <= i < |r| ==> r[i].name != name && r[i] in cards
  {
    if cards == [] then []
    else if cards[0].name == name then Without(cards[1..], name)
    else [cards[0]] + Without(cards[1..], name)
  }

  /** A filter that matches nothing keeps the whole list. */
  lemma {:induction false} WithoutAbsent(cards: seq<SelectedCard>, name: string)
    requires !Holds(cards, name)
    ensures Without(cards, name) == cards
  {
    if cards != [] {
      assert cards[0].name != name;
      assert !Holds(cards[1..], name) by {
        forall i | 0 <= i < |cards| - 1 ensures cards[1..][i].name != name {
          assert cards[1..][i] == cards[i + 1];
        }
      }
      WithoutAbsent(cards[1..], name);
      assert cards == [cards[0]] + cards[1..];
    }
  }

  /**
   * In a hand of distinct names, filtering out the name at position `k`
   * removes exactly that card and keeps the others in their order.
   */
  lemma {:induction false} WithoutRemovesOne(cards: seq<SelectedCard>, k: nat)
    requires DistinctNames(cards) && k < |cards|
    ensures Without(cards, cards[k].name) == cards[..k] + cards[k + 1..]
  {
    var name := cards[k].name;
    if k == 0 {
      assert !Holds(cards[1..], name) by {
        forall i | 0 <= i < |cards| - 1 ensures cards[1..][i].name != name {
          assert cards[1..][i] == cards[i + 1];
        }
      }
      WithoutAbsent(cards[1..], name);
    } else {
      assert cards[0].name != name;
      var tail := cards[1..];
      assert DistinctNames(tail) by {
        forall i, j | 0 <= i < j < |tail| ensures tail[i].name != tail[j].name {
          assert tail[i] == cards[i + 1] && tail[j] == cards[j + 1];
        }
      }
      assert tail[k - 1] == cards[k];
      WithoutRemovesOne(tail, k - 1);
      assert cards[..k] == [cards[0]] + tail[..k - 1];
      assert cards[k + 1..] == tail[k..];
    }
  }

  /**
   * The update `handleCardClick` applies to the hand (outside a reveal): after
   * the tap the card is held exactly when it was not held before and there
   * was room for it, and the hand grows by at most one card.
   */
  function Click(prev: seq<SelectedCard>, card: string, reversed: bool): (r: seq<SelectedCard>)
    ensures Holds(r, card) <==> !Holds(prev, card) && |prev| < HandSize
    ensures |r| <= |prev| + 1
  {
    if Holds(prev, card) then Without(prev, card)
    else if |prev| < HandSize then
      var next := prev + [SelectedCard(card, reversed)];
      assert next[|prev|].name == card;
      next
    else prev
  }

  /** The hand invariant: at most three cards, no name twice. */
  predicate ValidHand(cards: seq<SelectedCard>) {
    |cards| <= HandSize && DistinctNames(cards)
  }

  /** Dropping one card of a hand of distinct names leaves distinct names. */
  lemma DropKeepsDistinct(cards: seq<SelectedCard>, k: nat)
    requires DistinctNames(cards) && k < |cards|
    ensures DistinctNames(cards[..k] + cards[k + 1..])
  {
    var next := cards[..k] + cards[k + 1..];
    forall i, j | 0 <= i < j < |next| ensures next[i].name != next[j].name {
      var i' := if i < k then i else i + 1;
      var j' := if j < k then j else j + 1;
      assert next[i] == cards[i'] && next[j] == cards[j'];
    }
  }

  /** Appending a name not yet held keeps the names distinct. */
  lemma AppendKeepsDistinct(cards: seq<SelectedCard>, c: SelectedCard)
    requires DistinctNames(cards) && !Holds(cards, c.name)
    ensures DistinctNames(cards + [c])
  {
    var next := cards + [c];
    forall i, j | 0 <= i < j < |next| ensures next[i].name != next[j].name {
      assert next[i] == cards[i];
      if j < |cards| {
        assert next[j] == cards[j];
      }
    }
  }

  /** Every click keeps the hand at most three distinct cards. */
  lemma ClickKeepsHandValid(prev: seq<SelectedCard>, card: string, reversed: bool)
    requires ValidHand(prev)
    ensures ValidHand(Click(prev, card, reversed))
  {
    if Holds(prev, card) {
      var k :| 0 <= k < |prev| && prev[k].name == card;
      WithoutRemovesOne(prev, k);
      DropKeepsDistinct(prev, k);
    } else if |prev| < HandSize {
      AppendKeepsDistinct(prev, SelectedCard(card, reversed));
    }
  }

  /** Clicking a held card removes exactly it; the others keep their order. */
  lemma ClickHeldCard(prev: seq<SelectedCard>, k: nat, reversed: bool)
    requires ValidHand(prev) && k < |prev|
    ensures Click(prev, prev[k].name, reversed) == prev[..k] + prev[k + 1..]
  {
    WithoutRemovesOne(prev, k);
  }

  /** Clicking a new card appends it, with the orientation drawn now, while fewer than three are held. */
  lemma ClickNewCard(prev: seq<SelectedCard>, card: string, reversed: bool)
    requires !Holds(prev, card)
    ensures |prev| < HandSize ==> Click(prev, card, reversed) == prev + [SelectedCard(card, reversed)]
    ensures |prev| >= HandSize ==> Click(prev, card, reversed) == prev
  {
  }

  /** Which reveal timer is pending. */
  datatype RevealStage = NotStarted | FlipPending | HandoffPending | HandedOff

  class CardSelector {
    var selectedCards: seq<SelectedCard>
    var flippedCards: seq<string>
    var isRevealing: bool
    /** The reveal timer scheduled next. */
    var stage: RevealStage
    /** The hand the reveal effect captured when it fired. */
    var revealHand: seq<SelectedCard>
    /** How many times the hand was passed to `onSelect`. */
    ghost var handoffs: nat

    ghost predicate Valid()
      reads this
    {
      && ValidHand(selectedCards)
      && (isRevealing <==> stage != NotStarted)
      && (isRevealing ==> selectedCards == revealHand && |revealHand| == HandSize)
      && (stage == NotStarted || stage == FlipPending ==> flippedCards == [])
      && (stage == HandoffPending || stage == HandedOff ==> flippedCards == Names(revealHand))
      && handoffs == (if stage == HandedOff then 1 else 0)
    }

    constructor ()
      ensures Valid()
      ensures selectedCards == [] && flippedCards == [] && !isRevealing && stage == NotStarted
    {
      selectedCards, flippedCards, isRevealing := [], [], false;
      stage, revealHand := NotStarted, [];
      handoffs := 0;
    }

    /** A tap on `card`; `reversed` is the coin `Math.random() < 0.5` would have thrown. */
    method HandleCardClick(card: string, reversed: bool)
      requires Valid()
      modifies this
      ensures Valid()
      ensures old(isRevealing) ==> unchanged(this)
      ensures !old(isRevealing) ==>
        && selectedCards == Click(old(selectedCards), card, reversed)
        && flippedCards == old(flippedCards) && !isRevealing && stage == old(stage)
        && revealHand == old(revealHand) && handoffs == old(handoffs)
    {
      if isRevealing {
        return;
      }
      ClickKeepsHandValid(selectedCards, card, reversed);
      selectedCards := Click(selectedCards, card, reversed);
    }

    /** The effect that runs after a render: start the reveal once three cards are held. */
    method RevealEffect()
      requires Valid()
      modifies this
      ensures Valid()
      ensures |old(selectedCards)| == HandSize && !old(isRevealing) ==>
        && isRevealing && stage == FlipPending && revealHand == old(selectedCards)
        && selectedCards == old(selectedCards) && flippedCards == old(flippedCards) && handoffs == old(handoffs)
      ensures !(|old(selectedCards)| == HandSize && !old(isRevealing)) ==> unchanged(this)
    {
      if |selectedCards| == HandSize && !isRevealing {
        isRevealing := true;
        stage := FlipPending;
        revealHand := selectedCards;
      }
    }

    /** The first delay elapses: the captured cards are flipped face up. */
    method FlipTimerFires()
      requires Valid()
      modifies this
      ensures Valid()
      ensures old(stage) == FlipPending ==>
        && flippedCards == Names(revealHand) && stage == HandoffPending
        && selectedCards == old(selectedCards) && isRevealing && revealHand == old(revealHand)
        && handoffs == old(handoffs)
      ensures old(stage) != FlipPending ==> unchanged(this)
    {
      if stage == FlipPending {
        flippedCards := Names(revealHand);
        stage := HandoffPending;
      }
    }

    /** The second delay elapses: `onSelect` receives the captured hand (the result, when the timer was pending). */
    method HandoffTimerFires() returns (handed: Option<seq<SelectedCard>>)
      requires Valid()
      modifies this
      ensures Valid()
      ensures handed.Some? <==> old(stage) == HandoffPending
      ensures handed.Some? ==>
        && handed.value == old(revealHand) == selectedCards && |handed.value| == HandSize
        && flippedCards == Names(handed.value) && stage == HandedOff && handoffs == 1
      ensures handed.None? ==> unchanged(this)
    {
      if stage == HandoffPending {
        handed := Some(revealHand);
        stage := HandedOff;
        handoffs := handoffs + 1;
      } else {
        handed := None;
      }
    }
  }
}
