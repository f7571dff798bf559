/** The "Fact or Myth?" card game (components/myths.tsx): a card dragged far enough
    left (Fact) or right (Myth) is scored against whether its statement is true and
    then taken off the deck. */
module Myths {
  import opened Wrappers
  import opened Seqs

  /** A card of the deck. */
  datatype Myth = Myth(id: int, title: string, description: string, isTrue: bool)

  /** Left is "Fact", right is "Myth". */
  datatype Direction = Left | Right

  /** The feedback shown after a swipe. */
  datatype SwipeResult = SwipeResult(id: int, correct: bool)

  /** `onDragEnd`: a horizontal offset beyond 100 swipes right, beyond -100 swipes
      left, and anything in between is no swipe. */
  function SwipeOf(offset: real): (d: Option<Direction>)
    ensures d == Some(Right) <==> offset > 100.0
    ensures d == Some(Left) <==> offset < -100.0
    ensures d == None <==> -100.0 <= offset <= 100.0
  {
    if offset > 100.0 then Some(Right)
    else if offset < -100.0 then Some(Left)
    else None
  }

  /** `isFactSwipe === card.isTrue`: a true statement is answered by swiping it to
      Fact, a myth by swiping it to Myth. */
  function IsCorrect(direction: Direction, card: Myth): (correct: bool)
    ensures card.isTrue ==> (correct <==> direction == Left)
    ensures !card.isTrue ==> (correct <==> direction == Right)
  {
    (direction == Left) == card.isTrue
  }

  /** For every card exactly one of the two directions scores as correct. */
  lemma ExactlyOneDirectionIsCorrect(card: Myth)
    ensures IsCorrect(Left, card) != IsCorrect(Right, card)
  {
  }

  /** `prev.filter((m) => m.id !== id)`. */
  function WithoutCard(cards: seq<Myth>, id: int): seq<Myth>
  {
    Filter(cards, (m: Myth) => m.id != id)
  }

  /** After removal no card has the swiped id, the other cards remain, in order. */
  lemma WithoutCardKeepsOthers(cards: seq<Myth>, more: seq<Myth>, id: int)
    ensures forall m :: m in WithoutCard(cards, id) <==> m in cards && m.id != id
    ensures WithoutCard(cards + more, id) == WithoutCard(cards, id) + WithoutCard(more, id)
  {
    FilterAppend(cards, more, (m: Myth) => m.id != id);
  }

  /** The game's state. */
  class SwipeGame {
    var cards: seq<Myth>
    var result: Option<SwipeResult>

    /** The game starts on the whole deck (the `myths` list) with no feedback. */
    constructor (deck: seq<Myth>)
      ensures cards == deck && result == None
    {
      cards := deck;
      result := None;
    }

    /** The first half of `handleSwipe`: the feedback is set at once. */
    method HandleSwipe(direction: Direction, card: Myth)
      modifies this`result
      ensures result == Some(SwipeResult(card.id, IsCorrect(direction, card)))
    {
      result := Some(SwipeResult(card.id, IsCorrect(direction, card)));
    }

    /** The second half of `handleSwipe`, run by the timer a second later: the card
        leaves the deck and the feedback is cleared. */
    method RemoveSwiped(card: Myth)
      modifies this
      ensures cards == WithoutCard(old(cards), card.id)
      ensures result == None
    {
      cards := WithoutCard(cards, card.id);
      result := None;
    }

    /** `onDragEnd` of a card, with the drag's horizontal offset. */
    method DragEnd(card: Myth, offset: real)
      modifies this`result
      ensures SwipeOf(offset).None? ==> result == old(result)
      ensures SwipeOf(offset).Some? ==> result == Some(SwipeResult(card.id, IsCorrect(SwipeOf(offset).value, card)))
    {
      var swipe := SwipeOf(offset);
      if swipe.Some? {
        HandleSwipe(swipe.value, card);
      }
    }

    /** "No more myths!" is shown instead of the cards. */
    function ShowsNoMoreMyths(): (r: bool)
      reads this
      ensures r <==> cards == []
    {
      |cards| == 0
    }
  }
}
