/** Drawing a card: the shared Actor draw, the Player's draw (which turns the card
    face-up first), the AI's draw (which shows the AI's first card to the player) and
    the AI's turn, which draws until its hand is worth at least 17.

    The deck is passed to a draw by reference and changed in place; here a draw takes
    the deck and gives back what is left of it. */
module Draws {
  import opened Cards
  import opened Hands

  /** AI._stopNumber: the AI stops drawing at this hand value. */
  const StopNumber: nat := 17

  /** What a draw leaves: the rest of the deck and the new cards of the hand. */
  datatype Drawn = Drawn(deck: seq<Card>, hand: seq<Card>)

  /** Actor.DrawCard: nothing happens when the deck is empty; otherwise the front
      card is offered to the hand and removed from the deck, whether or not the hand
      had room for it. */
  function BaseDraw(deck: seq<Card>, hand: seq<Card>): Drawn
  {
    if |deck| <= 0 then Drawn(deck, hand) else Drawn(deck[1..], Added(hand, deck[0]))
  }

  /** Drawing from an empty deck changes neither the deck nor the hand. */
  lemma DrawFromEmptyDeck(hand: seq<Card>)
    ensures BaseDraw([], hand) == Drawn([], hand)
  {
  }

  /** Drawing from a non-empty deck removes exactly its front card and keeps the order
      of the rest; the card becomes the hand's last card when the hand had room, and
      the hand is unchanged when it was full. */
  lemma DrawTakesFront(deck: seq<Card>, hand: seq<Card>)
    requires deck != []
    ensures BaseDraw(deck, hand).deck == deck[1..]
    ensures |BaseDraw(deck, hand).deck| == |deck| - 1
    ensures |hand| < MaxHandSize ==> BaseDraw(deck, hand).hand == hand + [deck[0]]
    ensures |hand| >= MaxHandSize ==> BaseDraw(deck, hand).hand == hand
  {
  }

  /** No card is created or duplicated by a draw: every card is in the deck or the
      hand afterwards, except the front card drawn into a full hand, which is in
      neither. */
  lemma DrawConservesCards(deck: seq<Card>, hand: seq<Card>)
    ensures var r := BaseDraw(deck, hand);
      var lost := if deck != [] && |hand| >= MaxHandSize then multiset{deck[0]} else multiset{};
      multiset(r.deck) + multiset(r.hand) + lost == multiset(deck) + multiset(hand)
  {
    if deck != [] {
      assert deck == [deck[0]] + deck[1..];
    }
  }

  datatype Option<T> = None | Some(value: T)

  /** Player.DrawCard as written: its guard `deck.Count > 0 || deck != null` holds for
      every existing deck, empty or not, so the front card is turned face-up even when
      there is none, which throws. None stands for that exception; otherwise the shared
      draw follows. */
  function PlayerDrawAsWritten(deck: seq<Card>, hand: seq<Card>): (r: Option<Drawn>)
    ensures r.None? <==> deck == []
  {
    if deck == [] then None
    else Some(BaseDraw(deck[0 := deck[0].(isFrontFacingPlayer := true)], hand))
  }

  /** A player drawing from an empty deck throws, where the shared draw that the guard
      protects would have left deck and hand as they were. */
  lemma PlayerDrawThrowsOnEmptyDeck(hand: seq<Card>)
    ensures PlayerDrawAsWritten([], hand) == None
    ensures BaseDraw([], hand) == Drawn([], hand)
  {
  }

  /** Player.DrawCard with the guard the source evidently means (`deck.Count > 0 &&
      deck != null`): the front card is turned face-up only when there is one, then the
      shared draw runs. */
  function PlayerDraw(deck: seq<Card>, hand: seq<Card>): Drawn
  {
    if |deck| > 0 then BaseDraw(deck[0 := deck[0].(isFrontFacingPlayer := true)], hand)
    else BaseDraw(deck, hand)
  }

  /** The corrected draw agrees with the source on every deck that has a card, and
      leaves everything unchanged where the source throws. */
  lemma PlayerDrawCorrectsGuard(deck: seq<Card>, hand: seq<Card>)
    ensures deck != [] ==> PlayerDrawAsWritten(deck, hand) == Some(PlayerDraw(deck, hand))
    ensures deck == [] ==> PlayerDraw(deck, hand) == Drawn(deck, hand)
  {
  }

  /** The card the player receives is face-up; apart from that flag the player's draw
      does to deck and hand what the shared draw does. */
  lemma PlayerDrawFaceUp(deck: seq<Card>, hand: seq<Card>)
    ensures PlayerDraw(deck, hand).deck == BaseDraw(deck, hand).deck
    ensures Keys(PlayerDraw(deck, hand).hand) == Keys(BaseDraw(deck, hand).hand)
    ensures deck != [] && |hand| < MaxHandSize ==>
      PlayerDraw(deck, hand).hand == hand + [deck[0].(isFrontFacingPlayer := true)]
    ensures deck == [] || |hand| >= MaxHandSize ==> PlayerDraw(deck, hand).hand == hand
  {
    if deck != [] {
      assert deck[0 := deck[0].(isFrontFacingPlayer := true)][1..] == deck[1..];
    }
  }

  /** The cards with the first one turned face-up. */
  function RevealFirst(cards: seq<Card>): (r: seq<Card>)
    ensures |r| == |cards|
    ensures cards != [] ==> r[0] == cards[0].(isFrontFacingPlayer := true) && r[1..] == cards[1..]
  {
    if cards == [] then [] else cards[0 := cards[0].(isFrontFacingPlayer := true)]
  }

  /** Showing the first card keeps every card's face and suit. */
  lemma RevealFirstKeepsKeys(cards: seq<Card>)
    ensures Keys(RevealFirst(cards)) == Keys(cards)
  {
  }

  /** The AI's deck, hand and _isFirstCardDrawn flag after one AI draw. */
  datatype AIDrawn = AIDrawn(deck: seq<Card>, hand: seq<Card>, firstPending: bool)

  /** AI.DrawCard: the shared draw, then on the AI's first draw its first card is
      turned face-up and the flag is cleared. The source reads the hand's first card
      without checking that the hand has one. */
  function AIDraw(deck: seq<Card>, hand: seq<Card>, firstPending: bool): AIDrawn
    requires |hand| <= MaxHandSize
    requires !(firstPending && deck == [] && hand == [])
  {
    var d := BaseDraw(deck, hand);
    if firstPending then AIDrawn(d.deck, RevealFirst(d.hand), false) else AIDrawn(d.deck, d.hand, firstPending)
  }

  /** The AI's first draw from a non-empty deck into its empty hand holds that card
      face-up; every later draw is the shared draw, so those cards keep the visibility
      they had in the deck. */
  lemma AIDrawVisibility(deck: seq<Card>, hand: seq<Card>, firstPending: bool)
    requires |hand| <= MaxHandSize
    requires !(firstPending && deck == [] && hand == [])
    ensures firstPending && hand == [] ==>
      AIDraw(deck, hand, firstPending) == AIDrawn(deck[1..], [deck[0].(isFrontFacingPlayer := true)], false)
    ensures !firstPending ==>
      var d := BaseDraw(deck, hand); AIDraw(deck, hand, firstPending) == AIDrawn(d.deck, d.hand, false)
  {
  }

  /** With the deck empty and the first card already shown, an AI draw changes
      nothing: the AI's loop cannot make progress from such a state. */
  lemma AIIdleDraw(hand: seq<Card>)
    requires |hand| <= MaxHandSize
    ensures AIDraw([], hand, false) == AIDrawn([], hand, false)
  {
  }

  /** How the AI's turn loop ends: the deck and hand it leaves, the flag, and whether
      the loop spins forever instead of ending. */
  datatype AIOutcome = AIOutcome(deck: seq<Card>, hand: seq<Card>, firstPending: bool, spins: bool)

  /** The loop of AI.StartTurn: draw while the hand is worth less than 17 and holds at
      most MaxHandSize cards. The size test is always true, since a hand never grows
      past MaxHandSize; once the deck is empty, a draw changes nothing (AIIdleDraw),
      so a hand still under 17 makes the loop spin forever. */
  function AITurn(deck: seq<Card>, hand: seq<Card>, firstPending: bool): (r: AIOutcome)
    requires |hand| <= MaxHandSize
    requires firstPending == (hand == [])
    requires !(firstPending && deck == [])
    ensures |hand| <= |r.hand| <= MaxHandSize
    ensures r.firstPending == (r.hand == [])
    ensures |r.deck| <= |deck|
    decreases |deck|
  {
    if !(Score(hand) < StopNumber && |hand| <= MaxHandSize) then
      AIOutcome(deck, hand, firstPending, false)
    else if deck == [] then
      AIOutcome(deck, hand, firstPending, true)
    else
      var d := AIDraw(deck, hand, firstPending);
      AITurn(d.deck, d.hand, d.firstPending)
  }

  /** A hand already worth 17 or more draws nothing. */
  lemma AIStandsAt17(deck: seq<Card>, hand: seq<Card>, firstPending: bool)
    requires |hand| <= MaxHandSize && firstPending == (hand == []) && !(firstPending && deck == [])
    requires Score(hand) >= StopNumber
    ensures AITurn(deck, hand, firstPending) == AIOutcome(deck, hand, firstPending, false)
  {
  }

  /** When the loop ends the hand is worth at least 17; it spins exactly when the
      deck has run out with the hand still under 17, and a spinning state is one the
      loop body leaves unchanged while the loop guard still holds. */
  lemma {:induction false} AITurnEnd(deck: seq<Card>, hand: seq<Card>, firstPending: bool)
    requires |hand| <= MaxHandSize && firstPending == (hand == []) && !(firstPending && deck == [])
    ensures var r := AITurn(deck, hand, firstPending);
      && (!r.spins <==> Score(r.hand) >= StopNumber)
      && (r.spins ==> r.deck == [] && !r.firstPending
                      && AIDraw(r.deck, r.hand, r.firstPending) == AIDrawn(r.deck, r.hand, r.firstPending))
    decreases |deck|
  {
    if Score(hand) < StopNumber && deck != [] {
      var d := AIDraw(deck, hand, firstPending);
      AITurnEnd(d.deck, d.hand, d.firstPending);
    }
  }

  /** The loop takes cards only from the front of the deck, one per iteration. The
      hand receives them in order until it is full; those drawn after that are lost.
      The first card of a hand that started empty is face-up; every other card keeps
      the visibility it had in the deck. */
  lemma {:induction false} AITurnTakesFromFront(deck: seq<Card>, hand: seq<Card>, firstPending: bool)
    requires |hand| <= MaxHandSize && firstPending == (hand == []) && !(firstPending && deck == [])
    ensures var r := AITurn(deck, hand, firstPending);
      var taken := |deck| - |r.deck|;
      && r.deck == deck[taken..]
      && r.hand == Dealt(hand, deck[..Min(taken, MaxHandSize - |hand|)], firstPending)
    decreases |deck|
  {
    var r := AITurn(deck, hand, firstPending);
    var n := |deck| - |r.deck|;
    AITurnDrawsRepeatedly(deck, hand, firstPending, n);
    DrawnTakesFromFront(deck, hand, firstPending, n);
  }

  /** The state after n iterations of the AI's draw, whatever the loop guard. */
  function DrawnTimes(deck: seq<Card>, hand: seq<Card>, firstPending: bool, n: nat): (r: AIDrawn)
    requires n <= |deck| && |hand| <= MaxHandSize && firstPending == (hand == [])
    ensures |r.hand| <= MaxHandSize && r.firstPending == (r.hand == [])
  {
    if n == 0 then AIDrawn(deck, hand, firstPending)
    else
      var d := AIDraw(deck, hand, firstPending);
      DrawnTimes(d.deck, d.hand, d.firstPending, n - 1)
  }

  /** n draws take the first n cards of the deck; the hand receives them in order
      until it is full, the first face-up when the hand started empty. */
  lemma {:induction false} DrawnTakesFromFront(deck: seq<Card>, hand: seq<Card>, firstPending: bool, n: nat)
    requires n <= |deck| && |hand| <= MaxHandSize && firstPending == (hand == [])
    ensures DrawnTimes(deck, hand, firstPending, n).deck == deck[n..]
    ensures DrawnTimes(deck, hand, firstPending, n).hand == Dealt(hand, deck[..Min(n, MaxHandSize - |hand|)], firstPending)
  {
    if n == 0 {
      TakeNone(deck, hand, firstPending);
    } else {
      var d := AIDraw(deck, hand, firstPending);
      DrawnTakesFromFront(d.deck, d.hand, d.firstPending, n - 1);
      TakeStep(deck, hand, firstPending, n - 1);
    }
  }

  /** The source's loop ends (or spins) in the state reached by drawing once per card
      it took from the deck, n of them. */
  lemma {:induction false} AITurnDrawsRepeatedly(deck: seq<Card>, hand: seq<Card>, firstPending: bool, n: nat)
    requires |hand| <= MaxHandSize && firstPending == (hand == []) && !(firstPending && deck == [])
    requires n == |deck| - |AITurn(deck, hand, firstPending).deck|
    ensures var r := AITurn(deck, hand, firstPending);
      var t := DrawnTimes(deck, hand, firstPending, n);
      r.deck == t.deck && r.hand == t.hand && r.firstPending == t.firstPending
    decreases |deck|
  {
    if Score(hand) < StopNumber && deck != [] {
      var d := AIDraw(deck, hand, firstPending);
      AITurnDrawsRepeatedly(d.deck, d.hand, d.firstPending, n - 1);
    }
  }

  /** The base case of the loop lemmas: nothing taken, nothing dealt. */
  lemma TakeNone(deck: seq<Card>, hand: seq<Card>, firstPending: bool)
    requires |hand| <= MaxHandSize && (firstPending ==> hand == [])
    ensures deck == deck[|deck| - |deck|..]
    ensures hand == Dealt(hand, deck[..Min(|deck| - |deck|, MaxHandSize - |hand|)], firstPending)
    ensures hand == Dealt(hand, deck[..0], firstPending)
  {
    assert deck[..0] == [];
    assert hand + [] == hand;
  }

  /** The hand after cards `kept` are dealt into it, the first face-up when
      `firstPending` (the hand was empty and the AI had not drawn yet). */
  function Dealt(hand: seq<Card>, kept: seq<Card>, firstPending: bool): seq<Card>
  {
    if firstPending then RevealFirst(hand + kept) else hand + kept
  }

  /** Dealing one card and then more cards is dealing them all at once. */
  lemma DealtAppend(hand: seq<Card>, c: Card, more: seq<Card>, firstPending: bool)
    ensures Dealt(Dealt(hand, [c], firstPending), more, false) == Dealt(hand, [c] + more, firstPending)
  {
    var a := hand + [c];
    assert a + more == hand + ([c] + more);
    if firstPending {
      assert RevealFirst(a) + more == RevealFirst(a + more);
    }
  }

  /** One iteration of the loop lemmas' induction: what the first draw and then k more
      iterations take and deal is what k + 1 iterations take and deal. */
  lemma TakeStep(deck: seq<Card>, hand: seq<Card>, firstPending: bool, k: nat)
    requires deck != [] && |hand| <= MaxHandSize && firstPending == (hand == [])
    requires k <= |deck| - 1
    ensures deck[1..][k..] == deck[k + 1..]
    ensures var d := AIDraw(deck, hand, firstPending);
      Dealt(d.hand, deck[1..][..Min(k, MaxHandSize - |d.hand|)], false)
        == Dealt(hand, deck[..Min(k + 1, MaxHandSize - |hand|)], firstPending)
  {
    var d := AIDraw(deck, hand, firstPending);
    if |hand| < MaxHandSize {
      var j := Min(k, MaxHandSize - |hand| - 1);
      assert d.hand == Dealt(hand, [deck[0]], firstPending);
      assert deck[..j + 1] == [deck[0]] + deck[1..][..j];
      DealtAppend(hand, deck[0], deck[1..][..j], firstPending);
    } else {
      assert d.hand == hand;
      assert deck[1..][..0] == deck[..0];
    }
  }

  /** Five cards worth 14 and one more card in the deck: the loop as written draws
      that card into the full hand, where it is dropped, and then spins on the empty
      deck, since the hand can no longer change. */
  lemma AITurnSpinsOnFullLowHand()
    ensures var hand := [Card(Two, Clubs, true), Card(Two, Spades, false), Card(Three, Clubs, false),
                         Card(Three, Spades, false), Card(Four, Clubs, false)];
      Score(hand) == 14
      && AITurn([Card(King, Hearts, false)], hand, false) == AIOutcome([], hand, false, true)
  {
    var c1, c2, c3 := Card(Two, Clubs, true), Card(Two, Spades, false), Card(Three, Clubs, false);
    var c4, c5 := Card(Three, Spades, false), Card(Four, Clubs, false);
    var hand := [c1, c2, c3, c4, c5];
    assert hand[..4] == [c1, c2, c3, c4] && [c1, c2, c3, c4][..3] == [c1, c2, c3];
    assert [c1, c2, c3][..2] == [c1, c2] && [c1, c2][..1] == [c1] && [c1][..0] == [];
    assert SoftTotal([c1]) == 2 && AceCount([c1]) == 0;
    assert SoftTotal([c1, c2]) == 4 && AceCount([c1, c2]) == 0;
    assert SoftTotal([c1, c2, c3]) == 7 && AceCount([c1, c2, c3]) == 0;
    assert SoftTotal([c1, c2, c3, c4]) == 10 && AceCount([c1, c2, c3, c4]) == 0;
    assert AIDraw([Card(King, Hearts, false)], hand, false) == AIDrawn([], hand, false);
  }

  /** The AI's turn with the loop guard the source evidently means: draw while the hand
      is worth less than 17, has room for a card, and the deck has one. */
  function AITurnCorrected(deck: seq<Card>, hand: seq<Card>, firstPending: bool): (r: AIDrawn)
    requires |hand| <= MaxHandSize
    requires firstPending == (hand == [])
    ensures |hand| <= |r.hand| <= MaxHandSize && |r.deck| <= |deck|
    ensures r.firstPending == (r.hand == [])
    decreases |deck|
  {
    if Score(hand) < StopNumber && |hand| < MaxHandSize && deck != [] then
      var d := AIDraw(deck, hand, firstPending);
      AITurnCorrected(d.deck, d.hand, d.firstPending)
    else
      AIDrawn(deck, hand, firstPending)
  }

  /** The corrected loop always ends, and it ends with the hand worth at least 17,
      full, or with the deck empty. */
  lemma {:induction false} AITurnCorrectedEnds(deck: seq<Card>, hand: seq<Card>, firstPending: bool)
    requires |hand| <= MaxHandSize && firstPending == (hand == [])
    ensures var r := AITurnCorrected(deck, hand, firstPending);
      Score(r.hand) >= StopNumber || |r.hand| == MaxHandSize || r.deck == []
    decreases |deck|
  {
    if Score(hand) < StopNumber && |hand| < MaxHandSize && deck != [] {
      var d := AIDraw(deck, hand, firstPending);
      AITurnCorrectedEnds(d.deck, d.hand, d.firstPending);
    }
  }

  /** The corrected loop takes cards only from the front of the deck and loses none:
      every card it takes is in the hand afterwards, in order, the first face-up when
      the hand started empty. */
  lemma {:induction false} AITurnCorrectedKeepsCards(deck: seq<Card>, hand: seq<Card>, firstPending: bool)
    requires |hand| <= MaxHandSize && firstPending == (hand == [])
    ensures var r := AITurnCorrected(deck, hand, firstPending);
      var taken := |deck| - |r.deck|;
      && |r.hand| == |hand| + taken
      && r.deck == deck[taken..]
      && r.hand == Dealt(hand, deck[..taken], firstPending)
    decreases |deck|
  {
    var r := AITurnCorrected(deck, hand, firstPending);
    var n := |deck| - |r.deck|;
    AITurnCorrectedTakesIntoHand(deck, hand, firstPending);
    AITurnCorrectedDrawsRepeatedly(deck, hand, firstPending, n);
    DrawnTakesFromFront(deck, hand, firstPending, n);
  }

  /** The corrected loop takes no more cards than the hand has room for: each card it
      takes goes into the hand. */
  lemma {:induction false} AITurnCorrectedTakesIntoHand(deck: seq<Card>, hand: seq<Card>, firstPending: bool)
    requires |hand| <= MaxHandSize && firstPending == (hand == [])
    ensures var r := AITurnCorrected(deck, hand, firstPending);
      |r.hand| - |hand| == |deck| - |r.deck|
    decreases |deck|
  {
    if Score(hand) < StopNumber && |hand| < MaxHandSize && deck != [] {
      var d := AIDraw(deck, hand, firstPending);
      CorrectedStep(deck, hand, firstPending);
      AITurnCorrectedTakesIntoHand(d.deck, d.hand, d.firstPending);
    }
  }

  /** The corrected loop ends in the state reached by drawing once per card it took,
      n of them. */
  lemma {:induction false} AITurnCorrectedDrawsRepeatedly(deck: seq<Card>, hand: seq<Card>, firstPending: bool, n: nat)
    requires |hand| <= MaxHandSize && firstPending == (hand == [])
    requires n == |deck| - |AITurnCorrected(deck, hand, firstPending).deck|
    ensures AITurnCorrected(deck, hand, firstPending) == DrawnTimes(deck, hand, firstPending, n)
    decreases |deck|
  {
    if Score(hand) < StopNumber && |hand| < MaxHandSize && deck != [] {
      var d := AIDraw(deck, hand, firstPending);
      CorrectedStep(deck, hand, firstPending);
      assert n >= 1;
      AITurnCorrectedDrawsRepeatedly(d.deck, d.hand, d.firstPending, n - 1);
    } else {
      assert DrawnTimes(deck, hand, firstPending, 0) == AIDrawn(deck, hand, firstPending);
    }
  }

  /** One iteration of the corrected loop: a draw into a hand with room takes one card
      and adds it, and the loop continues from the drawn state. */
  lemma CorrectedStep(deck: seq<Card>, hand: seq<Card>, firstPending: bool)
    requires |hand| < MaxHandSize && firstPending == (hand == []) && deck != []
    requires Score(hand) < StopNumber
    ensures var d := AIDraw(deck, hand, firstPending);
      && |d.hand| == |hand| + 1 && |d.deck| == |deck| - 1 && d.firstPending == (d.hand == [])
      && AITurnCorrected(deck, hand, firstPending) == AITurnCorrected(d.deck, d.hand, d.firstPending)
  {
  }

  /** Where the source's loop ends without dropping a card, the corrected loop ends in
      the same state. */
  lemma {:induction false} AITurnCorrectedAgrees(deck: seq<Card>, hand: seq<Card>, firstPending: bool)
    requires |hand| <= MaxHandSize && firstPending == (hand == []) && !(firstPending && deck == [])
    requires Score(AITurn(deck, hand, firstPending).hand) >= StopNumber
    requires |AITurn(deck, hand, firstPending).hand| - |hand| == |deck| - |AITurn(deck, hand, firstPending).deck|
    ensures var r := AITurn(deck, hand, firstPending);
      AITurnCorrected(deck, hand, firstPending) == AIDrawn(r.deck, r.hand, r.firstPending)
    decreases |deck|
  {
    var r := AITurn(deck, hand, firstPending);
    if Score(hand) < StopNumber {
      assert deck != [];
      var d := AIDraw(deck, hand, firstPending);
      assert r == AITurn(d.deck, d.hand, d.firstPending);
      assert |hand| < MaxHandSize;
      AITurnCorrectedAgrees(d.deck, d.hand, d.firstPending);
    }
  }

  /** Actor.DrawCard on a hand object: an empty deck is left alone; otherwise the
      front card is offered to the hand, then removed from the deck. */
  method DrawCard(hand: Hand, deck: seq<Card>) returns (rest: seq<Card>)
    requires hand.Valid()
    modifies hand
    ensures hand.Valid()
    ensures Drawn(rest, hand.cards) == BaseDraw(deck, old(hand.cards))
  {
    if |deck| <= 0 {
      return deck;
    }
    hand.AddCardToHand(deck[0]);
    rest := deck[1..];
  }
}
