/** The deck the game manager builds and shuffles, and the arithmetic that finds a
    card's picture in the sprite table. */
module Decks {
  import opened Cards

  /** GameManager._cardBackIndex: the sprite table's entry for the back of a card. */
  const CardBackIndex: nat := 52

  /** One suit's part of a new deck: its thirteen faces in ascending order, face-down. */
  function SuitRow(s: Suit): seq<Card>
  {
    seq(13, j requires 0 <= j < 13 => Card(AllFaces[j], s, false))
  }

  /** The first f + 1 cards of a suit's row are its first f and then face f. */
  lemma SuitRowGrows(s: Suit, f: nat)
    requires f < 13
    ensures SuitRow(s)[..f + 1] == SuitRow(s)[..f] + [Card(AllFaces[f], s, false)]
  {
  }

  /** Appending is associative. */
  lemma AppendAssociates<T>(a: seq<T>, b: seq<T>, c: seq<T>)
    ensures a + b + c == a + (b + c)
  {
  }

  /** The rows of the first n suits, in enumeration order. */
  function Rows(n: nat): (d: seq<Card>)
    requires n <= 4
    ensures |d| == 13 * n
  {
    if n == 0 then [] else Rows(n - 1) + SuitRow(AllSuits[n - 1])
  }

  /** The cards CreateDeck appends: every suit in enumeration order, and within a suit
      every face in enumeration order, all face-down. */
  function FullDeck(): (d: seq<Card>)
    ensures |d| == 52
  {
    Rows(4)
  }

  /** Card i of the first n rows. */
  lemma {:induction false} RowsAt(n: nat, i: nat)
    requires n <= 4 && i < 13 * n
    ensures Rows(n)[i] == Card(AllFaces[i % 13], AllSuits[i / 13], false)
  {
    if i < 13 * (n - 1) {
      RowsAt(n - 1, i);
    } else {
      assert i / 13 == n - 1;
    }
  }

  /** The new deck is in suit-major, face-ascending order, and face-down: card i has
      suit value i / 13 and face value i % 13 + 2. */
  lemma FullDeckAt(i: nat)
    requires i < 52
    ensures FullDeck()[i] == Card(FaceOfValue(i % 13 + 2), SuitOfValue(i / 13), false)
    ensures FullDeck()[i].suit.Value() == i / 13 && FullDeck()[i].face.Value() == i % 13 + 2
    ensures !FullDeck()[i].isFrontFacingPlayer
  {
    RowsAt(4, i);
    EnumerationOrder();
    ValuesIdentify(AllFaces[i % 13], FaceOfValue(i % 13 + 2), AllSuits[i / 13], SuitOfValue(i / 13));
  }

  /** The new deck holds every (face, suit) pair exactly once: the pair sits at
      position 13 * suit + face - 2, and no two positions share a pair. */
  lemma FullDeckHoldsEachCardOnce(f: Face, s: Suit)
    ensures FullDeck()[13 * s.Value() + f.Value() - 2] == Card(f, s, false)
    ensures forall i, j :: 0 <= i < j < 52 ==> Key(FullDeck()[i]) != Key(FullDeck()[j])
  {
    var k := 13 * s.Value() + f.Value() - 2;
    FullDeckAt(k);
    ValuesIdentify(f, FullDeck()[k].face, s, FullDeck()[k].suit);
    forall i, j | 0 <= i < j < 52
      ensures Key(FullDeck()[i]) != Key(FullDeck()[j])
    {
      FullDeckAt(i);
      FullDeckAt(j);
    }
  }

  /** The index FindCardSprite reads in the sprite table. The table holds each suit's
      faces from the Ace down to the Two. */
  function SpriteIndex(f: Face, s: Suit): (i: int)
    ensures 0 <= i <= 51 && i != CardBackIndex
  {
    s.Value() * 13 + (12 - (f.Value() - 2))
  }

  /** The card whose sprite sits at table index i. */
  function SpriteCard(i: nat): (Face, Suit)
    requires i < 52
  {
    (FaceOfValue(14 - i % 13), SuitOfValue(i / 13))
  }

  /** The sprite index determines the card and every index below 52 belongs to
      exactly one card, so two different cards never share a picture. */
  lemma SpriteIndexIsBijective(f: Face, s: Suit, i: nat)
    requires i < 52
    ensures SpriteCard(SpriteIndex(f, s)) == (f, s)
    ensures SpriteIndex(SpriteCard(i).0, SpriteCard(i).1) == i
  {
    var (g, t) := SpriteCard(SpriteIndex(f, s));
    ValuesIdentify(f, g, s, t);
  }

  /** s with the elements at positions i and j exchanged. */
  function Swap<T>(s: seq<T>, i: nat, j: nat): seq<T>
    requires i < |s| && j < |s|
  {
    seq(|s|, k requires 0 <= k < |s| => if k == j then s[i] else if k == i then s[j] else s[k])
  }

  /** The positions a shuffle may exchange position k with are those of the list. */
  ghost predicate Picks(picks: seq<int>, n: nat)
  {
    |picks| == n && forall k :: 0 <= k < |picks| ==> 0 <= picks[k] < n
  }

  /** The list after the first n steps of the shuffle: step k exchanges position k
      with position picks[k]. */
  function Shuffled<T>(list: seq<T>, picks: seq<int>, n: nat): (r: seq<T>)
    requires Picks(picks, |list|) && n <= |list|
    ensures |r| == |list|
  {
    if n == 0 then list else Swap(Shuffled(list, picks, n - 1), n - 1, picks[n - 1])
  }

  /** One step of the shuffle keeps every element. */
  lemma ShuffleStepPermutes<T>(list: seq<T>, picks: seq<int>, n: nat)
    requires Picks(picks, |list|) && 0 < n <= |list|
    ensures multiset(Shuffled(list, picks, n)) == multiset(Shuffled(list, picks, n - 1))
  {
    SwapPermutes(Shuffled(list, picks, n - 1), n - 1, picks[n - 1]);
  }

  /** A shuffle only reorders: it keeps every element, as often as it occurs. */
  lemma {:induction false} ShuffledPermutes<T>(list: seq<T>, picks: seq<int>, n: nat)
    requires Picks(picks, |list|) && n <= |list|
    ensures multiset(Shuffled(list, picks, n)) == multiset(list)
  {
    if n > 0 {
      ShuffledPermutes(list, picks, n - 1);
      ShuffleStepPermutes(list, picks, n);
    }
  }

  /** An exchange keeps every element. */
  lemma SwapPermutes<T>(s: seq<T>, i: nat, j: nat)
    requires i < |s| && j < |s|
    ensures multiset(Swap(s, i, j)) == multiset(s)
  {
    var t := s[i := s[j]];
    assert multiset(t) == multiset(s) - multiset{s[i]} + multiset{s[j]};
    assert t[j := s[i]] == Swap(s, i, j);
    assert multiset(t[j := s[i]]) == multiset(t) - multiset{t[j]} + multiset{s[i]};
  }

  /** Shuffling the new deck leaves each card of the deck in it exactly once, face-down. */
  lemma ShuffledDeckHoldsEachCardOnce(picks: seq<int>)
    requires Picks(picks, 52)
    ensures multiset(Shuffled(FullDeck(), picks, 52)) == multiset(FullDeck())
    ensures forall c :: c in Shuffled(FullDeck(), picks, 52) <==> c in FullDeck()
    ensures forall c :: c in Shuffled(FullDeck(), picks, 52) ==> !c.isFrontFacingPlayer
  {
    ShuffledPermutes(FullDeck(), picks, 52);
    forall c | c in Shuffled(FullDeck(), picks, 52)
      ensures c in FullDeck() && !c.isFrontFacingPlayer
    {
      assert c in multiset(FullDeck());
      var i :| 0 <= i < 52 && FullDeck()[i] == c;
      FullDeckAt(i);
    }
    forall c | c in FullDeck()
      ensures c in Shuffled(FullDeck(), picks, 52)
    {
      assert c in multiset(Shuffled(FullDeck(), picks, 52));
    }
  }

  /** GameManager.Shuffle: for every position i in turn, exchange the element at i with
      the one at picks[i]. `picks` stands for the values UnityEngine.Random.Range
      returns, each in [0, n). */
  method Shuffle<T>(list: seq<T>, picks: seq<int>) returns (shuffled: seq<T>)
    requires Picks(picks, |list|)
    ensures shuffled == Shuffled(list, picks, |list|)
    ensures multiset(shuffled) == multiset(list)
  {
    shuffled := list;
    var startingIndex := 0;
    var endingIndex := |shuffled|;
    if endingIndex > 0 {
      for i := startingIndex to endingIndex
        invariant shuffled == Shuffled(list, picks, i)
      {
        var valueToShuffle := shuffled[i];
        var indexToMoveValueTo := picks[i];
        shuffled := shuffled[i := shuffled[indexToMoveValueTo]];
        shuffled := shuffled[indexToMoveValueTo := valueToShuffle];
      }
    }
    ShuffledPermutes(list, picks, |list|);
  }
}
