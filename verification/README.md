# Blackjack game engine, in Dafny

This project models the game engine of a small Unity blackjack game. The Player plays
against an AI for two turns. The player draws (Hit) until they press Done. The AI then
draws until its hand is worth 17. After that the AI's hand is shown and the winners are
announced.

The model covers these parts:

- **Cards** (`cards.dfy`, module `Cards`): the `Suit` and `Face` enumerations with their
  integer values, and the `Card` record. A card's face and suit never change; only its
  visibility flag is written.
- **Hands** (`hand.dfy`, module `Hands`): the class `Hand`.
  - It holds at most five cards and caches their score.
  - `AddCardToHand` appends a card only when there is room.
  - `CalculateHandValue` sums the cards with every Ace as 11, then demotes Aces while
    the total is over 21.
  - The method is proved equal to the pure function `Score`.
  - `Score` is proved to be the best blackjack total, and to depend on neither card
    order nor visibility.
- **Draws** (`draw.dfy`, module `Draws`): the actors' draws, as functions from the deck
  and hand to what they leave.
  - The shared draw of `Actor`, the Player's draw (card face-up first) and the AI's draw
    (first card shown).
  - The AI's turn loop, both as written and with the guard it evidently means.
  - The method `DrawCard` over a `Hand` object.
- **Decks** (`deck.dfy`, module `Decks`): the new 52-card deck, the swap shuffle, and the
  sprite-table index of a card.
- **Winners** (`winners.dfy`, module `Winners`): `DetermineWinners`, the positions whose
  hand value is the highest one not over 21.
- **WinText** (`wintext.dfy`, module `WinText`): `UIManager.CreateWinString`, the result
  line.
- **Round** (`round.dfy`, module `Round`): the whole game as functions of a `Table`.
  - A `Table` holds the deck, both hands, the player's active flag, the AI's first-draw
    flag, the turn counter and the announced winners.
  - There is one function per event: start, Hit, Done, the turn counter's setter,
    `TurnFinished` and `GameEnded`.
- **Game** (`game.dfy`, module `Game`): the classes `Player`, `AI` and `GameManager`.
  - Each method changes its fields exactly as the matching `Round` function says.
  - `GameManager.Snap` reads the `Table` off the objects; `GameManager.Valid` is the
    invariant every method keeps.

The C# `ref List<Card> deck` parameter becomes a sequence passed in and a sequence
returned. The random numbers of the shuffle become a parameter, `picks`. The
`_winnersDetermined` event becomes the field `announced`, which records each list of
winners' names announced.

## Model

| member | source | states |
|---|---|---|
| Cards.Suit.Value | Assets/Scripts/Card.cs:9-15 | A suit's integer value is in 0..3. |
| Cards.Face.Value | Assets/Scripts/Card.cs:19-34 | A face's integer value is in 2..14; exactly Jack is 11, Queen 12, King 13 and Ace 14. |
| Cards.SuitOfValue | Assets/Scripts/Card.cs:9-15 | Every integer 0..3 is the value of a suit. |
| Cards.FaceOfValue | Assets/Scripts/Card.cs:19-34 | Every integer 2..14 is the value of a face. |
| Cards.EnumerationOrder | Assets/Scripts/Card.cs:9-34 | The enumerations list every suit and face once, in ascending value order. |
| Cards.ValuesIdentify | Assets/Scripts/Card.cs:9-34 | Two faces, or two suits, with the same value are equal. |
| Cards.VisibilityWriteKeepsKey | Assets/Scripts/Card.cs:38-54 | Writing the visibility flag sets it and keeps the face and suit. |
| Cards.WithVisibility | Assets/Scripts/GameManager.cs:244-247 | Every card gets the requested visibility, in place; the length and every face and suit are kept. |
| Hands.PointsOfFace | Assets/Scripts/Hand.cs:40-52 | A card counts 2..11: a number card its number, Ten, Jack, Queen and King 10, and exactly the Ace 11. |
| Hands.SoftIsHardPlusAces | Assets/Scripts/Hand.cs:38-53 | The all-Aces-11 total is the all-Aces-1 total plus 10 per Ace. |
| Hands.DemotionStops | Assets/Scripts/Hand.cs:55-61 | When the demotion loop stops because the Aces ran out or the total reached 21 or less, it holds the demoted total. |
| Hands.DemotedIsBest | Assets/Scripts/Hand.cs:55-61 | Demotion takes 10 off at most once per Ace, and only from a total over 21. No other number of demotions gives a higher total of at most 21. A result over 21 has every Ace demoted. |
| Hands.ScoreIsBestTotal | Assets/Scripts/Hand.cs:33-63 | The score lies between the all-Aces-1 total and the all-Aces-11 total. It is the highest total of at most 21 reachable by demoting Aces. It is over 21 only when every Ace counts 1. |
| Hands.ScoreWithinLimit | Assets/Scripts/Hand.cs:55-61 | A hand whose all-Aces-1 total is at most 21 scores at most 21. |
| Hands.ScoreOrderFree | Assets/Scripts/Hand.cs:38-53 | Two hands with the same multiset of faces have the same score, whatever the order. |
| Hands.ScoreIgnoresVisibility | Assets/Scripts/Hand.cs:38-53 | Turning cards over never changes the score. |
| Hands.TotalsAreSums | Assets/Scripts/Hand.cs:38-53 | The running total and the Ace count are sums of per-face weights. |
| Hands.ScoreExamples | Assets/Scripts/Hand.cs:33-63 | Worked scores: A A 9 = 21, K Q = 20, A K = 21, 2 3 4 5 6 = 20, and the empty hand 0. |
| Hands.Added | Assets/Scripts/Hand.cs:21-28 | The card is appended exactly when the hand has fewer than 5 cards. The old cards stay in front, and the hand never exceeds 5 cards. |
| Hands.Hand.constructor | Assets/Scripts/Hand.cs:15-29 | A new hand is empty and worth 0. |
| Hands.Hand.AddCardToHand | Assets/Scripts/Hand.cs:21-28 | With room, the card is appended and the value equals the recomputed score. When full, the cards and the value are unchanged. |
| Hands.Hand.CalculateHandValue | Assets/Scripts/Hand.cs:33-63 | The accumulate-then-demote loops compute exactly `Score` of the hand's cards. |
| Draws.DrawFromEmptyDeck | Assets/Scripts/Actor.cs:41-44 | Drawing from an empty deck changes neither deck nor hand. |
| Draws.DrawTakesFront | Assets/Scripts/Actor.cs:45-46 | A draw removes exactly the front card and keeps the order of the rest. The card becomes the hand's last card when there is room; a full hand is unchanged. |
| Draws.DrawConservesCards | Assets/Scripts/Actor.cs:45-46 | Deck and hand together keep every card, except the front card drawn into a full hand, which is lost. |
| Draws.PlayerDrawAsWritten | Assets/Scripts/Player.cs:37-45 | The draw as written fails (throws) exactly on an empty deck. |
| Draws.PlayerDrawThrowsOnEmptyDeck | Assets/Scripts/Player.cs:39-41 | On an empty deck the draw as written throws where the guarded draw would change nothing. |
| Draws.PlayerDrawCorrectsGuard | Assets/Scripts/Player.cs:39-43 | The corrected draw agrees with the source on every deck with a card, and changes nothing on an empty deck. |
| Draws.PlayerDrawFaceUp | Assets/Scripts/Player.cs:39-43 | The player's card arrives face-up. Apart from that flag, the player's draw changes deck and hand as the shared draw does. |
| Draws.RevealFirst | Assets/Scripts/AI.cs:38 | Only the first card is turned face-up; the other cards are unchanged. |
| Draws.RevealFirstKeepsKeys | Assets/Scripts/AI.cs:38 | Showing the first card keeps every face and suit. |
| Draws.AIDrawVisibility | Assets/Scripts/AI.cs:33-42 | The AI's first card is face-up. Every later draw is the shared draw, so those cards keep their deck visibility. |
| Draws.AIIdleDraw | Assets/Scripts/AI.cs:33-42 | After the first draw, a draw from an empty deck changes nothing. |
| Draws.AITurn | Assets/Scripts/AI.cs:18-28 | The loop as written never shrinks the hand, keeps it within 5 cards, and never grows the deck. |
| Draws.AIStandsAt17 | Assets/Scripts/AI.cs:22 | A hand already worth 17 or more draws nothing. |
| Draws.AITurnEnd | Assets/Scripts/AI.cs:22-25 | The loop as written ends exactly with the hand worth at least 17. Otherwise it spins on an empty deck in a state the body leaves unchanged. |
| Draws.AITurnTakesFromFront | Assets/Scripts/AI.cs:22-25 | The loop takes cards only from the deck's front. The hand receives them in order until full; later ones are lost. |
| Draws.DrawnTimes | Assets/Scripts/AI.cs:24 | Repeated AI draws keep the hand within 5 cards, with the first-draw flag set exactly while the hand is empty. |
| Draws.DrawnTakesFromFront | Assets/Scripts/Actor.cs:45-46 | n draws take the first n cards. The hand receives them in order until full, the first face-up when the hand started empty. |
| Draws.AITurnDrawsRepeatedly | Assets/Scripts/AI.cs:22-25 | The loop as written ends in the state of n draws, n being the number of cards it took. |
| Draws.AITurnSpinsOnFullLowHand | Assets/Scripts/AI.cs:22 | A full hand worth 14 and a one-card deck: the loop discards the card and spins forever. |
| Draws.AITurnCorrected | Assets/Scripts/AI.cs:22-25 | The corrected loop keeps the hand within 5 cards and never grows the deck. |
| Draws.AITurnCorrectedEnds | Assets/Scripts/AI.cs:22-25 | The corrected loop ends with the hand worth at least 17, full, or with the deck empty. |
| Draws.AITurnCorrectedKeepsCards | Assets/Scripts/AI.cs:22-25 | The corrected loop takes cards from the deck's front and loses none. Every card taken is in the hand, in order. |
| Draws.AITurnCorrectedTakesIntoHand | Assets/Scripts/AI.cs:22-25 | The corrected loop grows the hand by exactly the number of cards it takes. |
| Draws.AITurnCorrectedDrawsRepeatedly | Assets/Scripts/AI.cs:22-25 | The corrected loop ends in the state of n draws, n being the number of cards it took. |
| Draws.AITurnCorrectedAgrees | Assets/Scripts/AI.cs:22-25 | Wherever the source's loop ends without losing a card, the corrected loop ends in the same state. |
| Draws.DrawCard | Assets/Scripts/Actor.cs:39-47 | The method leaves the hand object and the returned deck as the shared draw says, and keeps the hand valid. |
| Decks.FullDeck | Assets/Scripts/GameManager.cs:117-126 | The new deck has 52 cards. |
| Decks.FullDeckAt | Assets/Scripts/GameManager.cs:117-126 | Card i of the new deck has suit i / 13 and face i % 13 + 2, and is face-down: suit-major, face-ascending. |
| Decks.FullDeckHoldsEachCardOnce | Assets/Scripts/GameManager.cs:117-126 | Every (face, suit) pair occurs in the new deck, at position 13 * suit + face - 2, and no pair occurs twice. |
| Decks.SpriteIndex | Assets/Scripts/GameManager.cs:168-172 | The sprite index lies in 0..51 and is never the card-back index 52. |
| Decks.SpriteIndexIsBijective | Assets/Scripts/GameManager.cs:168-172 | The index determines the card, and every index below 52 is some card's: no two cards share a sprite. |
| Decks.Shuffled | Assets/Scripts/GameManager.cs:132-146 | Shuffling keeps the length. |
| Decks.SwapPermutes | Assets/Scripts/GameManager.cs:140-143 | One exchange keeps the multiset of elements. |
| Decks.ShuffleStepPermutes | Assets/Scripts/GameManager.cs:138-144 | Each iteration of the shuffle keeps the multiset. |
| Decks.ShuffledPermutes | Assets/Scripts/GameManager.cs:132-146 | For any choice of positions, the shuffle keeps the multiset of elements. |
| Decks.ShuffledDeckHoldsEachCardOnce | Assets/Scripts/GameManager.cs:87-88 | The shuffled new deck holds the same cards as the new deck, each once, all face-down. |
| Decks.Shuffle | Assets/Scripts/GameManager.cs:132-146 | The swap loop computes `Shuffled` and keeps the multiset; an empty list is returned unchanged. |
| Winners.BestIsHighest | Assets/Scripts/GameManager.cs:186-202 | The running highest value is at most 21, is at least every value of at most 21, and is one of the values unless it is 0. |
| Winners.IndicesOfExactly | Assets/Scripts/GameManager.cs:187-202 | The listed positions are exactly those holding the value, in increasing order. |
| Winners.WinnerIndicesAreWinners | Assets/Scripts/GameManager.cs:178-204 | The winners are exactly the positions with the highest value of at most 21, in input order; none when all bust. |
| Winners.WinnerExamples | Assets/Scripts/GameManager.cs:178-204 | [18, 21, 22] gives the 21, [19, 19] gives both, [22, 23] none, [20, 22] the 20. |
| Winners.DetermineWinners | Assets/Scripts/GameManager.cs:178-204 | The clear-and-append loop returns exactly the winning positions, in input order. |
| WinText.ListedWithoutLast | Assets/Scripts/UIManager.cs:131-137 | When no name equals the last name, every name is followed by " and ". |
| WinText.TieJoinsNames | Assets/Scripts/UIManager.cs:128-141 | A tie whose last name occurs only at the end reads as the names joined by " and ", then " Tied". |
| WinText.WinStringExamples | Assets/Scripts/UIManager.cs:118-142 | The texts are "Nobody Won", "Player Won" and "Player and AI Tied", and ["AI", "AI"] gives "AIAI Tied". |
| WinText.CreateWinString | Assets/Scripts/UIManager.cs:118-142 | No winner gives "Nobody Won" and one gives its name + " Won". A tie of distinct names gives them joined by " and ", then " Tied". |
| Round.StartDeals | Assets/Scripts/GameManager.cs:80-100 | After the start the player holds the deck's first two cards face-up and the AI the next two, only the first face-up. The rest of the deck is kept in order, it is the player's turn, and no card is created or lost. |
| Round.DealFour | Assets/Scripts/GameManager.cs:93-97 | The four draws of the start, one by one. |
| Round.DealtKeys | Assets/Scripts/GameManager.cs:93-97 | The dealt cards and the rest of the deck hold the deck's faces and suits, in order. |
| Round.DoneEndsGame | Assets/Scripts/Player.cs:49-56 | Done in the player's turn plays out the game. The AI draws until it stands, its hand is shown, the counter stays at 1, and exactly one list of winners is announced, by the two scores. |
| Round.ButtonsIdleOutsideTurn | Assets/Scripts/Player.cs:26-56 | Outside the player's turn Hit and Done change nothing; a second Done is ignored. |
| Round.HitKeepsTurn | Assets/Scripts/Player.cs:26-32 | Hit in the player's turn performs one player draw and changes nothing else. |
| Round.ResultText | Assets/Scripts/UIManager.cs:118-142 | The text for two scores: the higher one of at most 21 wins, equal ones tie, and when both bust nobody wins. |
| Round.TwoHandWinners | Assets/Scripts/GameManager.cs:178-204 | The winners among the player's and the AI's values, by position. |
| Game.Player.constructor | Assets/Scripts/Actor.cs:49-55 | The player's name and manager are fixed, its hand is new and empty, and it starts inactive. |
| Game.Player.StartTurn | Assets/Scripts/Player.cs:10-13 | Starting the player's turn makes the player active. |
| Game.Player.DrawCard | Assets/Scripts/Player.cs:37-45 | The hand and the returned deck are as `Draws.PlayerDraw` says. |
| Game.Player.OnHitButtonPressed | Assets/Scripts/Player.cs:26-32 | The game changes as `Round.PlayerHit` says, and the manager stays valid. |
| Game.Player.OnDoneButtonPressed | Assets/Scripts/Player.cs:49-56 | The game changes as `Round.PlayerDone` says, and the manager stays valid. |
| Game.AI.constructor | Assets/Scripts/AI.cs:14 | The AI's name and manager are fixed, its hand is new and empty, and its first draw is pending. |
| Game.AI.DrawCard | Assets/Scripts/AI.cs:33-42 | The hand, the returned deck and the first-draw flag are as `Draws.AIDraw` says. |
| Game.AI.DrawUntilStanding | Assets/Scripts/AI.cs:20-26 | The loop leaves the hand, deck and flag as `Draws.AITurnCorrected` says. |
| Game.AI.StartTurn | Assets/Scripts/AI.cs:18-28 | The game changes as `Round.AIStartTurn` says: the AI draws until it stands, then ends its turn. |
| Game.NamesOfWinners | Assets/Scripts/GameManager.cs:154-159 | The names are those of the winners, in the order `DetermineWinners` lists them. |
| Game.GameManager.Start | Assets/Scripts/GameManager.cs:80-100 | The new game is valid and in the state `Round.Started` gives for the shuffled new deck. |
| Game.GameManager.DealStartingHands | Assets/Scripts/GameManager.cs:93-97 | The two player draws and two AI draws leave the game as `Round.Deal` says. |
| Game.GameManager.SetTurnsPassed | Assets/Scripts/GameManager.cs:29-40 | Storing the counter starts the player's turn when it is even and the AI's when it is odd, as `Round.SetTurnsPassed` says. |
| Game.GameManager.TurnFinished | Assets/Scripts/GameManager.cs:105-113 | After the last turn the game ends; otherwise the counter advances, as `Round.TurnFinished` says. |
| Game.GameManager.CreateDeck | Assets/Scripts/GameManager.cs:117-126 | The nested loops append exactly `Decks.FullDeck`. |
| Game.GameManager.GameEnded | Assets/Scripts/GameManager.cs:150-161 | The AI's hand is turned face-up and the winners' names are announced, as `Round.GameEnded` says. |
| Game.GameManager.UpdateGameObjectsForCards | Assets/Scripts/GameManager.cs:242-249 | Every card of the hand gets the requested visibility, and the hand's value stays its score. |

## Left out

- Rendering is not modelled: card GameObjects, `Instantiate`, `Destroy`, `Image`, and `Hand._cardGameObjects`. Of `UpdateGameObjectsForCards` only the visibility loop is modelled.
- The sprite fields of `Card` and the `_cardSprites` table are not modelled. `FindCardSprite` is modelled only as its index arithmetic (`Decks.SpriteIndex`).
- `UnityEngine.Random.Range` becomes the parameter `picks`, a sequence of positions in [0, n). No claim is made about the distribution of the shuffle.
- The events `_gameOver`, `_winnersDetermined`, `_hitButtonPressed` and `_doneButtonPressed` become direct calls. `_winnersDetermined` appends to the `announced` field.
- `_onActorCardsChanged` is left out: it only redraws the cards and changes no game state.
- `Actor.TurnFinished` is left out as a separate method: its forwarding call to `GameManager.TurnFinished` is made directly by `Player.OnDoneButtonPressed` and `AI.StartTurn`.
- The null checks on `GM`, `_player`, `_ai` and the deck are left out. The objects exist by construction (`GameManager.Valid`).
- The Unity `Start` message is modelled as the constructor `GameManager.Start`. The actors' transforms and card prefab are left out.
- Of `UIManager` only `CreateWinString` is modelled. Canvas groups, the result text, scene loading and the lookup in the Player's constructor are UI plumbing. `MainMenu` is not part of this model.
- Integer widths are not modelled: hand values are `nat`, not `uint`. No value can wrap, since a hand of at most 5 cards is worth at most 55.
- Cards are values, not references. No card is ever held in two places (deck, player's hand, AI's hand), so there is no aliasing to model.
- Draws.AIDraw: requires that the AI's first draw has a card to show. The source would throw on an empty deck, but no game reaches that state: the AI draws first from a deck of 50 cards.
- The classes use the corrected draw guard of the player and the corrected AI loop (see Findings). The code as written is modelled by `Draws.PlayerDrawAsWritten` and `Draws.AITurn`.

## Findings

| source | as written | input that shows it | evidently intended | confidence | as-written member | corrected member |
|---|---|---|---|---|---|---|
| Assets/Scripts/AI.cs:22 | `Hand.CardsInHand.Count <= Hand.maxHandSize` is always true, because a hand never holds more than 5 cards. | A full hand 2 2 3 3 4 (worth 14) and a deck of one King. The loop draws the King into the full hand, which drops it, and then spins forever on the empty deck. | Draw only while the hand has room (`<`) and the deck has a card. | not executed | Draws.AITurn, Draws.AITurnSpinsOnFullLowHand | Draws.AITurnCorrected, Draws.AITurnCorrectedEnds, Draws.AITurnCorrectedKeepsCards |
| Assets/Scripts/Player.cs:39 | `deck.Count > 0 \|\| deck != null` holds for every existing deck, so `deck[0]` is read even when the deck is empty. | An empty deck: after the player has hit until the deck ran out, one more Hit throws. | `deck.Count > 0 && deck != null`: the card is turned face-up only when there is one. | not executed | Draws.PlayerDrawAsWritten, Draws.PlayerDrawThrowsOnEmptyDeck | Draws.PlayerDraw, Draws.PlayerDrawCorrectsGuard |
