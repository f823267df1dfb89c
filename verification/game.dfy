/** The objects of a game: the game manager, which owns the deck and the turn counter,
    and its two actors, each with a hand. They call each other: the turn counter's
    setter starts an actor's turn, an actor ends its turn by calling the manager back,
    and the end of the last turn ends the game.

    Every method is proved to leave the objects in the state the matching function of
    module Round computes from the state before the call (GameManager.Snap reads that
    state off the objects). The UI's Hit and Done buttons are the player's two entry
    points. */
module Game {
  import opened Cards
  import opened Hands
  import opened Draws
  import opened Decks
  import opened Winners
  import opened Round

  /** The human player. */
  class Player {
    const name: string
    const gm: GameManager
    const hand: Hand
    /** Whether the Hit and Done buttons act: true from the start of the player's turn
        until Done. */
    var isCurrentlyActive: bool

    constructor (gameManager: GameManager, name: string)
      ensures this.gm == gameManager && this.name == name
      ensures fresh(hand) && hand.Valid() && hand.cards == [] && !isCurrentlyActive
    {
      this.gm := gameManager;
      this.name := name;
      this.hand := new Hand();
      isCurrentlyActive := false;
    }

    /** Player.StartTurn. */
    method StartTurn()
      modifies this`isCurrentlyActive
      ensures isCurrentlyActive
    {
      isCurrentlyActive := true;
    }

    /** Player.DrawCard, with the guard of Draws.PlayerDraw: the front card is turned
        face-up when there is one, then the actor's shared draw runs. */
    method DrawCard(deck: seq<Card>) returns (rest: seq<Card>)
      requires hand.Valid()
      modifies hand
      ensures hand.Valid()
      ensures Drawn(rest, hand.cards) == PlayerDraw(deck, old(hand.cards))
    {
      var d := deck;
      if |d| > 0 {
        d := d[0 := d[0].(isFrontFacingPlayer := true)];
      }
      rest := Draws.DrawCard(hand, d);
    }

    /** Player.OnHitButtonPressed: during the player's turn, draw from the manager's
        deck. */
    method OnHitButtonPressed()
      requires gm.Valid() && gm.player == this
      modifies gm.Repr
      ensures gm.Valid() && gm.player == old(gm.player) && gm.ai == old(gm.ai)
      ensures gm.Snap() == PlayerHit(old(gm.Snap()))
    {
      if isCurrentlyActive {
        gm.deck := DrawCard(gm.deck);
      }
    }

    /** Player.OnDoneButtonPressed: during the player's turn, end it and tell the
        manager (Actor.TurnFinished forwards to GameManager.TurnFinished). */
    method OnDoneButtonPressed()
      requires gm.Valid() && gm.player == this
      modifies gm.Repr
      ensures gm.Valid() && gm.player == old(gm.player) && gm.ai == old(gm.ai)
      ensures gm.Snap() == PlayerDone(old(gm.Snap()))
    {
      if isCurrentlyActive {
        isCurrentlyActive := false;
        gm.TurnFinished();
      }
    }
  }

  /** The dealer. */
  class AI {
    const name: string
    const gm: GameManager
    const hand: Hand
    /** _isFirstCardDrawn: the next draw is the AI's first, whose card is shown. */
    var isFirstCardDrawn: bool

    constructor (gameManager: GameManager, name: string)
      ensures this.gm == gameManager && this.name == name
      ensures fresh(hand) && hand.Valid() && hand.cards == [] && isFirstCardDrawn
    {
      this.gm := gameManager;
      this.name := name;
      this.hand := new Hand();
      isFirstCardDrawn := true;
    }

    /** AI.DrawCard: the actor's shared draw, then on the first draw the hand's first
        card is turned face-up. */
    method DrawCard(deck: seq<Card>) returns (rest: seq<Card>)
      requires hand.Valid()
      requires !(isFirstCardDrawn && deck == [] && hand.cards == [])
      modifies this`isFirstCardDrawn, hand
      ensures hand.Valid()
      ensures AIDrawn(rest, hand.cards, isFirstCardDrawn) == AIDraw(deck, old(hand.cards), old(isFirstCardDrawn))
    {
      rest := Draws.DrawCard(hand, deck);
      if isFirstCardDrawn {
        var shown := hand.cards[0 := hand.cards[0].(isFrontFacingPlayer := true)];
        ScoreIgnoresVisibility(hand.cards, shown);
        hand.cards := shown;
        isFirstCardDrawn := false;
      }
    }

    /** The loop of AI.StartTurn, with the guard of Draws.AITurnCorrected: draw while
        the hand is worth less than 17, has room and the deck has a card. The deck is
        the manager's, which nothing else touches while the loop runs. */
    method DrawUntilStanding(deck: seq<Card>) returns (rest: seq<Card>)
      requires hand.Valid() && isFirstCardDrawn == (hand.cards == [])
      modifies this`isFirstCardDrawn, hand
      ensures hand.Valid() && isFirstCardDrawn == (hand.cards == [])
      ensures AIDrawn(rest, hand.cards, isFirstCardDrawn) == AITurnCorrected(deck, old(hand.cards), old(isFirstCardDrawn))
    {
      rest := deck;
      while hand.handValue < StopNumber && |hand.cards| < MaxHandSize && |rest| > 0
        invariant hand.Valid() && isFirstCardDrawn == (hand.cards == [])
        invariant AITurnCorrected(rest, hand.cards, isFirstCardDrawn) == AITurnCorrected(deck, old(hand.cards), old(isFirstCardDrawn))
        decreases |rest|
      {
        rest := DrawCard(rest);
      }
    }

    /** AI.StartTurn: draw until standing, then end the turn (Actor.TurnFinished
        forwards to GameManager.TurnFinished). */
    method StartTurn()
      requires gm.Valid() && gm.ai == this
      modifies gm.Repr
      ensures gm.Valid() && gm.player == old(gm.player) && gm.ai == old(gm.ai)
      ensures gm.Snap() == AIStartTurn(old(gm.Snap()))
      decreases TurnsLeft(gm.turnsPassed), 1
    {
      ghost var t := gm.Snap();
      ghost var d := AITurnCorrected(t.deck, t.ai, t.aiFirstPending);
      assert AIStartTurn(t) == Round.TurnFinished(t.(deck := d.deck, ai := d.hand, aiFirstPending := d.firstPending));
      gm.deck := DrawUntilStanding(gm.deck);
      assert gm.Valid();
      assert gm.Snap() == t.(deck := d.deck, ai := d.hand, aiFirstPending := d.firstPending);
      gm.TurnFinished();
    }
  }

  /** The loop of GameManager.GameEnded: DetermineWinners over the player's and the
      AI's hand values, then the name of each winner, in the order DetermineWinners
      lists them. */
  method NamesOfWinners(playerValue: nat, aiValue: nat, playerName: string, aiName: string)
    returns (winnerNames: seq<string>)
    ensures var winners := WinnerIndices([playerValue, aiValue]);
      && |winnerNames| == |winners|
      && forall k :: 0 <= k < |winners| ==> winnerNames[k] == (if winners[k] == 0 then playerName else aiName)
  {
    var winners := DetermineWinners([playerValue, aiValue]);
    winnerNames := [];
    for k := 0 to |winners|
      invariant |winnerNames| == k
      invariant forall j :: 0 <= j < k ==> winnerNames[j] == (if winners[j] == 0 then playerName else aiName)
    {
      var name := if winners[k] == 0 then playerName else aiName;
      winnerNames := winnerNames + [name];
    }
  }

  /** The game manager: the deck, the turn counter, the two actors, and the winners'
      names it has announced. */
  class GameManager {
    var turnsPassed: nat
    var player: Player?
    var ai: AI?
    var deck: seq<Card>
    /** The arguments of every _winnersDetermined invocation, in order. */
    var announced: seq<seq<string>>
    ghost var Repr: set<object>

    /** The objects of a started game: the manager, its two actors (named "Player" and
        "AI", each pointing back at it) and their two distinct, valid hands, with the
        AI's first-draw flag set exactly while its hand is empty. */
    ghost predicate Valid()
      reads this, Repr
    {
      && this in Repr && player != null && ai != null
      && Repr == {this, player, ai, player.hand, ai.hand}
      && player.gm == this && ai.gm == this
      && player.name == PlayerName && ai.name == AIName
      && player.hand != ai.hand
      && player.hand.Valid() && ai.hand.Valid()
      && ai.isFirstCardDrawn == (ai.hand.cards == [])
    }

    /** The state of the game as module Round describes it. */
    ghost function Snap(): (t: Table)
      requires Valid()
      reads this, Repr
      ensures Playable(t)
    {
      Table(deck, player.hand.cards, player.isCurrentlyActive, ai.hand.cards,
            ai.isFirstCardDrawn, turnsPassed, announced)
    }

    /** GameManager.Start: create the actors, create and shuffle the deck (`picks` are
        the random positions the shuffle exchanges with), deal two cards to each
        actor, and set the turn counter to 0. */
    constructor Start(picks: seq<int>)
      requires Picks(picks, 52)
      ensures Valid() && fresh(Repr - {this})
      ensures Snap() == Started(Shuffled(FullDeck(), picks, 52))
    {
      turnsPassed := 0;
      deck := [];
      announced := [];
      new;
      var p := new Player(this, PlayerName);
      var a := new AI(this, AIName);
      player, ai := p, a;
      Repr := {this, p, a, p.hand, a.hand};
      assert fresh(Repr - {this});
      CreateDeck();
      assert player == p && ai == a && deck == FullDeck();
      deck := Shuffle(deck, picks);
      ghost var shuffled := deck;
      assert Valid();
      assert Snap() == Table(shuffled, [], false, [], true, 0, []);
      DealStartingHands();
      assert player == p && ai == a && Snap() == Deal(shuffled);
      SetTurnsPassed(0);
      assert player == p && ai == a && Snap() == Started(shuffled);
    }

    /** The deal of GameManager.Start: two cards from the deck to the player, then two
        to the AI. */
    method DealStartingHands()
      requires Valid() && |deck| >= 3
      requires Snap() == Table(deck, [], false, [], true, 0, [])
      modifies Repr
      ensures Valid() && player == old(player) && ai == old(ai)
      ensures Snap() == Deal(old(deck))
    {
      ghost var p1 := PlayerDraw(deck, []);
      ghost var p2 := PlayerDraw(p1.deck, p1.hand);
      ghost var a1 := AIDraw(p2.deck, [], true);
      ghost var a2 := AIDraw(a1.deck, a1.hand, a1.firstPending);
      var d := deck;
      d := player.DrawCard(d);
      assert Drawn(d, player.hand.cards) == p1;
      d := player.DrawCard(d);
      assert Drawn(d, player.hand.cards) == p2;
      d := ai.DrawCard(d);
      assert AIDrawn(d, ai.hand.cards, ai.isFirstCardDrawn) == a1;
      d := ai.DrawCard(d);
      assert AIDrawn(d, ai.hand.cards, ai.isFirstCardDrawn) == a2;
      deck := d;
    }

    /** The setter of TurnsPassed: store the value, then start the player's turn when
        it is even and the AI's when it is odd. */
    method SetTurnsPassed(v: nat)
      requires Valid()
      modifies Repr
      ensures Valid() && player == old(player) && ai == old(ai)
      ensures Snap() == Round.SetTurnsPassed(old(Snap()), v)
      decreases TurnsLeft(v), 2
    {
      turnsPassed := v;
      if turnsPassed % 2 == 0 {
        player.StartTurn();
      }
      if turnsPassed % 2 == 1 {
        ai.StartTurn();
      }
    }

    /** GameManager.TurnFinished: end the game after the last turn, otherwise advance
        the turn counter. */
    method TurnFinished()
      requires Valid()
      modifies Repr
      ensures Valid() && player == old(player) && ai == old(ai)
      ensures Snap() == Round.TurnFinished(old(Snap()))
      decreases TurnsLeft(turnsPassed), 0
    {
      ghost var t := Snap();
      if turnsPassed >= TurnsToPlay - 1 {
        assert Round.TurnFinished(t) == Round.GameEnded(t);
        GameEnded();
        return;
      }
      assert Round.TurnFinished(t) == Round.SetTurnsPassed(t, t.turnsPassed + 1);
      SetTurnsPassed(turnsPassed + 1);
    }

    /** GameManager.CreateDeck: append one face-down card of every face of every suit,
        suit by suit. */
    method CreateDeck()
      modifies this`deck
      ensures deck == old(deck) + FullDeck()
    {
      for s := 0 to 4
        invariant deck == old(deck) + Rows(s)
      {
        var suit := AllSuits[s];
        ghost var before := deck;
        for f := 0 to 13
          invariant deck == before + SuitRow(suit)[..f]
        {
          var card := Card(AllFaces[f], suit, false);
          SuitRowGrows(suit, f);
          AppendAssociates(before, SuitRow(suit)[..f], [card]);
          deck := deck + [card];
        }
        assert SuitRow(suit)[..13] == SuitRow(suit);
        AppendAssociates(old(deck), Rows(s), SuitRow(suit));
      }
    }

    /** GameManager.GameEnded: show the AI's hand, then announce the names of the
        winners between the player and the AI. */
    method GameEnded()
      requires Valid()
      modifies Repr
      ensures Valid() && player == old(player) && ai == old(ai)
      ensures Snap() == Round.GameEnded(old(Snap()))
    {
      ghost var t := Snap();
      UpdateGameObjectsForCards(ai.hand, true);
      assert Valid() && Snap() == t.(ai := WithVisibility(t.ai, true));
      var winnerNames := NamesOfWinners(player.hand.handValue, ai.hand.handValue, player.name, ai.name);
      assert winnerNames == WinnerNames(player.hand.handValue, ai.hand.handValue);
      announced := announced + [winnerNames];
    }

    /** The visibility part of GameManager.UpdateGameObjectsForCards: every card of the
        hand is turned to `visible`. */
    method UpdateGameObjectsForCards(hand: Hand, visible: bool)
      requires hand.Valid()
      modifies hand`cards
      ensures hand.Valid()
      ensures hand.cards == WithVisibility(old(hand.cards), visible)
    {
      for i := 0 to |hand.cards|
        invariant |hand.cards| == |old(hand.cards)|
        invariant forall j :: 0 <= j < i ==> hand.cards[j] == old(hand.cards)[j].(isFrontFacingPlayer := visible)
        invariant forall j :: i <= j < |hand.cards| ==> hand.cards[j] == old(hand.cards)[j]
      {
        hand.cards := hand.cards[i := hand.cards[i].(isFrontFacingPlayer := visible)];
      }
      ScoreIgnoresVisibility(old(hand.cards), hand.cards);
    }
  }
}
