/** The course of one game as a function of the table: what the game manager, the
    player and the AI hold, and what each event (the start of the game, the Hit and
    Done buttons) makes of it. The classes of module Game are proved to change their
    fields exactly as these functions say.

    Turns alternate through the turn counter: setting it to an even number starts the
    player's turn, to an odd number the AI's. The player ends a turn with Done; the AI
    ends its own turn. When the turn that ends is the last of TurnsToPlay, the game is
    over: the AI's hand is turned face-up and the winners are announced. */
module Round {
  import opened Cards
  import opened Hands
  import opened Draws
  import opened Winners
  import opened WinText

  /** GameManager._turnsToPlay: the player's turn, then the AI's. */
  const TurnsToPlay: nat := 2

  /** The names the game manager gives its two actors. */
  const PlayerName: string := "Player"
  const AIName: string := "AI"

  /** The game's state: the deck, the player's hand and whether the player's turn is
      on, the AI's hand and whether its first card is still to be drawn, the turn
      counter, and the lists of winners' names announced so far. */
  datatype Table = Table(deck: seq<Card>, player: seq<Card>, playerActive: bool,
                         ai: seq<Card>, aiFirstPending: bool, turnsPassed: nat,
                         announced: seq<seq<string>>)

  /** What every table of a game satisfies: neither hand is over the size limit, and
      the AI's first card is pending exactly while its hand is empty. */
  predicate Playable(t: Table)
  {
    |t.player| <= MaxHandSize && |t.ai| <= MaxHandSize && t.aiFirstPending == (t.ai == [])
  }

  /** How many turns are still to come after the one that is on; the measure that
      makes the chain of turn changes end. */
  function TurnsLeft(turns: nat): nat
  {
    if turns >= TurnsToPlay - 1 then 0 else TurnsToPlay - 1 - turns
  }

  /** The names of the winners among the player (position 0) and the AI (position 1),
      in that order. */
  function WinnerNames(playerValue: nat, aiValue: nat): (names: seq<string>)
  {
    var winners := WinnerIndices([playerValue, aiValue]);
    seq(|winners|, k requires 0 <= k < |winners| => if winners[k] == 0 then PlayerName else AIName)
  }

  /** GameManager.GameEnded: the AI's cards are turned face-up, then the names of the
      winners by hand value are announced. */
  function GameEnded(t: Table): (r: Table)
    requires Playable(t)
    ensures Playable(r)
  {
    var shown := WithVisibility(t.ai, true);
    t.(ai := shown,
       announced := t.announced + [WinnerNames(Score(t.player), Score(shown))])
  }

  /** GameManager.TurnFinished: the last turn's end ends the game; any earlier turn's
      end advances the turn counter, which starts the next turn. */
  function TurnFinished(t: Table): (r: Table)
    requires Playable(t)
    ensures Playable(r)
    decreases TurnsLeft(t.turnsPassed), 0
  {
    if t.turnsPassed >= TurnsToPlay - 1 then GameEnded(t)
    else SetTurnsPassed(t, t.turnsPassed + 1)
  }

  /** The setter of GameManager.TurnsPassed: store the value, then start the player's
      turn when it is even and the AI's when it is odd. */
  function SetTurnsPassed(t: Table, v: nat): (r: Table)
    requires Playable(t)
    ensures Playable(r)
    decreases TurnsLeft(v), 2
  {
    var t1 := t.(turnsPassed := v);
    if v % 2 == 0 then PlayerStartTurn(t1) else AIStartTurn(t1)
  }

  /** Player.StartTurn: the Hit and Done buttons now act. */
  function PlayerStartTurn(t: Table): Table
  {
    t.(playerActive := true)
  }

  /** AI.StartTurn: the AI draws until it stands (with the loop guard of
      Draws.AITurnCorrected), then ends its turn. */
  function AIStartTurn(t: Table): (r: Table)
    requires Playable(t)
    ensures Playable(r)
    decreases TurnsLeft(t.turnsPassed), 1
  {
    var d := AITurnCorrected(t.deck, t.ai, t.aiFirstPending);
    TurnFinished(t.(deck := d.deck, ai := d.hand, aiFirstPending := d.firstPending))
  }

  /** Player.OnHitButtonPressed: during the player's turn the player draws a card;
      otherwise nothing happens. */
  function PlayerHit(t: Table): Table
  {
    if t.playerActive then
      var d := PlayerDraw(t.deck, t.player);
      t.(deck := d.deck, player := d.hand)
    else t
  }

  /** Player.OnDoneButtonPressed: during the player's turn the turn ends; otherwise
      nothing happens. */
  function PlayerDone(t: Table): (r: Table)
    requires Playable(t)
    ensures Playable(r)
  {
    if t.playerActive then TurnFinished(t.(playerActive := false)) else t
  }

  /** The deal of GameManager.Start from the shuffled deck: the player draws two
      cards, then the AI two. */
  function Deal(shuffled: seq<Card>): (r: Table)
    requires |shuffled| >= 3
    ensures Playable(r)
  {
    var p1 := PlayerDraw(shuffled, []);
    var p2 := PlayerDraw(p1.deck, p1.hand);
    var a1 := AIDraw(p2.deck, [], true);
    var a2 := AIDraw(a1.deck, a1.hand, a1.firstPending);
    Table(a2.deck, p2.hand, false, a2.hand, a2.firstPending, 0, [])
  }

  /** GameManager.Start from the shuffled deck: the deal, then the turn counter is set
      to 0. */
  function Started(shuffled: seq<Card>): (r: Table)
    requires |shuffled| >= 3
    ensures Playable(r)
  {
    SetTurnsPassed(Deal(shuffled), 0)
  }

  /** After the start the player holds the first two cards of the deck face-up, the AI
      the next two with only the first face-up, the rest of the deck is left in order,
      and it is the player's turn. */
  lemma StartDeals(shuffled: seq<Card>)
    requires |shuffled| >= 4
    ensures var t := Started(shuffled);
      && t.deck == shuffled[4..]
      && t.player == [shuffled[0].(isFrontFacingPlayer := true), shuffled[1].(isFrontFacingPlayer := true)]
      && t.ai == [shuffled[2].(isFrontFacingPlayer := true), shuffled[3]]
      && t.playerActive && !t.aiFirstPending && t.turnsPassed == 0 && t.announced == []
      && Keys(t.player) + Keys(t.ai) + Keys(t.deck) == Keys(shuffled)
  {
    var t := Started(shuffled);
    DealFour(shuffled);
    DealtKeys(shuffled, t.player, t.ai, t.deck);
  }

  /** The four draws of the start, one by one. */
  lemma DealFour(shuffled: seq<Card>)
    requires |shuffled| >= 4
    ensures var p1 := PlayerDraw(shuffled, []);
      var p2 := PlayerDraw(p1.deck, p1.hand);
      var a1 := AIDraw(p2.deck, [], true);
      var a2 := AIDraw(a1.deck, a1.hand, a1.firstPending);
      && p2 == Drawn(shuffled[2..], [shuffled[0].(isFrontFacingPlayer := true), shuffled[1].(isFrontFacingPlayer := true)])
      && a2 == AIDrawn(shuffled[4..], [shuffled[2].(isFrontFacingPlayer := true), shuffled[3]], false)
  {
    var up0 := shuffled[0].(isFrontFacingPlayer := true);
    var up1 := shuffled[1].(isFrontFacingPlayer := true);
    var up2 := shuffled[2].(isFrontFacingPlayer := true);
    var p1 := PlayerDraw(shuffled, []);
    assert p1 == Drawn(shuffled[1..], [up0]);
    var p2 := PlayerDraw(p1.deck, p1.hand);
    assert p2 == Drawn(shuffled[2..], [up0, up1]);
    var a1 := AIDraw(p2.deck, [], true);
    assert a1 == AIDrawn(shuffled[3..], [up2], false);
  }

  /** The keys of the four dealt cards and the rest of the deck are the deck's keys. */
  lemma DealtKeys(shuffled: seq<Card>, player: seq<Card>, ai: seq<Card>, rest: seq<Card>)
    requires |shuffled| >= 4 && rest == shuffled[4..]
    requires player == [shuffled[0].(isFrontFacingPlayer := true), shuffled[1].(isFrontFacingPlayer := true)]
    requires ai == [shuffled[2].(isFrontFacingPlayer := true), shuffled[3]]
    ensures Keys(player) + Keys(ai) + Keys(rest) == Keys(shuffled)
  {
    var head := shuffled[..4];
    assert shuffled == head + rest;
    KeysAppend(head, rest);
    var k0, k1, k2, k3 := Key(shuffled[0]), Key(shuffled[1]), Key(shuffled[2]), Key(shuffled[3]);
    assert Keys(player) == [k0, k1];
    assert Keys(ai) == [k2, k3];
    assert Keys(head) == [k0, k1, k2, k3];
  }

  /** Keys distribute over concatenation. */
  lemma KeysAppend(a: seq<Card>, b: seq<Card>)
    ensures Keys(a + b) == Keys(a) + Keys(b)
  {
  }

  /** Done during the player's first turn plays out the rest of the game: the AI takes
      its turn, with its hand ending worth at least 17, full, or with the deck empty;
      then the game is over, the AI's hand is face-up, the turn counter stays at 1, and
      exactly one list of winners is announced: the winners by the two hands' scores. */
  lemma DoneEndsGame(t: Table)
    requires Playable(t) && t.playerActive && t.turnsPassed == 0 && t.ai != []
    ensures var d := AITurnCorrected(t.deck, t.ai, false);
      var r := PlayerDone(t);
      && r.deck == d.deck
      && r.player == t.player
      && !r.playerActive
      && r.ai == WithVisibility(d.hand, true)
      && (Score(r.ai) >= StopNumber || |r.ai| == MaxHandSize || r.deck == [])
      && r.turnsPassed == 1
      && r.announced == t.announced + [WinnerNames(Score(t.player), Score(r.ai))]
  {
    var t1 := t.(playerActive := false);
    var t2 := t1.(turnsPassed := 1);
    var d := AITurnCorrected(t.deck, t.ai, false);
    var t3 := t2.(deck := d.deck, ai := d.hand, aiFirstPending := d.firstPending);
    assert PlayerDone(t) == TurnFinished(t1);
    assert TurnFinished(t1) == SetTurnsPassed(t1, 1);
    assert SetTurnsPassed(t1, 1) == AIStartTurn(t2);
    assert AIStartTurn(t2) == TurnFinished(t3);
    assert TurnFinished(t3) == GameEnded(t3);
    AITurnCorrectedEnds(t.deck, t.ai, false);
    ScoreIgnoresVisibility(d.hand, WithVisibility(d.hand, true));
  }

  /** Outside the player's turn the buttons do nothing; in particular after the game
      is over neither a Hit nor a second Done changes anything. */
  lemma ButtonsIdleOutsideTurn(t: Table)
    requires Playable(t) && !t.playerActive
    ensures PlayerHit(t) == t && PlayerDone(t) == t
  {
  }

  /** During the player's turn a Hit draws and nothing else: the turn stays on, the
      counter, the AI's hand and the announcements stay as they are. */
  lemma HitKeepsTurn(t: Table)
    requires t.playerActive
    ensures var r := PlayerHit(t);
      && r.playerActive && r.turnsPassed == t.turnsPassed && r.ai == t.ai
      && r.announced == t.announced
      && Drawn(r.deck, r.player) == PlayerDraw(t.deck, t.player)
  {
  }

  /** The text shown for the two hands' scores: the higher score of at most 21 wins,
      equal scores of at most 21 tie, and when both bust nobody wins. */
  lemma ResultText(p: nat, a: nat)
    ensures p <= Limit && (a > Limit || p > a) ==> WinString(WinnerNames(p, a)) == "Player Won"
    ensures a <= Limit && (p > Limit || a > p) ==> WinString(WinnerNames(p, a)) == "AI Won"
    ensures p == a <= Limit ==> WinString(WinnerNames(p, a)) == "Player and AI Tied"
    ensures p > Limit && a > Limit ==> WinString(WinnerNames(p, a)) == "Nobody Won"
  {
    TwoHandWinners(p, a);
    WinStringExamples();
    if p <= Limit && (a > Limit || p > a) {
      assert WinnerNames(p, a) == ["Player"];
    } else if a <= Limit && (p > Limit || a > p) {
      assert WinnerNames(p, a) == ["AI"];
    } else if p == a <= Limit {
      assert WinnerNames(p, a) == ["Player", "AI"];
    } else if p > Limit && a > Limit {
      assert WinnerNames(p, a) == [];
    }
  }

  /** The winners between two hands, by position. */
  lemma TwoHandWinners(p: nat, a: nat)
    ensures p <= Limit && (a > Limit || p > a) ==> WinnerIndices([p, a]) == [0]
    ensures a <= Limit && (p > Limit || a > p) ==> WinnerIndices([p, a]) == [1]
    ensures p == a <= Limit ==> WinnerIndices([p, a]) == [0, 1]
    ensures p > Limit && a > Limit ==> WinnerIndices([p, a]) == []
  {
    assert [p, a][..1] == [p];
    assert [p][..0] == [];
    assert Best([p][..0]) == 0;
    var b1 := Best([p]);
    assert b1 == (if p <= Limit then p else 0);
    var b := Best([p, a]);
    assert b == (if a > b1 && a <= Limit then a else b1);
    assert IndicesOf([p, a], b, 2) == IndicesOf([p, a], b, 1) + (if a == b then [1] else []);
    assert IndicesOf([p, a], b, 1) == (if p == b then [0] else []);
  }
}
