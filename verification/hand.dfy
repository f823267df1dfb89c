/** A hand of at most five cards and its blackjack score.

    The score counts 2..10 at face value, Jack, Queen and King as 10 and every Ace
    as 11, then demotes Aces to 1 (subtracting 10 each) one at a time while the
    total is over 21 and an undemoted Ace remains. */
module Hands {
  import opened Cards

  /** Hand.maxHandSize: a hand never holds more cards than this. */
  const MaxHandSize: nat := 5

  /** The faces of a list of cards, in order. */
  function Faces(cards: seq<Card>): (fs: seq<Face>)
    ensures |fs| == |cards|
  {
    seq(|cards|, i requires 0 <= i < |cards| => cards[i].face)
  }

  /** Cards with the same faces and suits have the same faces, whichever way they face. */
  lemma FacesIgnoreVisibility(a: seq<Card>, b: seq<Card>)
    requires Keys(a) == Keys(b)
    ensures Faces(a) == Faces(b)
  {
    assert |a| == |Keys(a)|;
    forall i | 0 <= i < |a|
      ensures a[i].face == b[i].face
    {
      assert Keys(a)[i] == Keys(b)[i];
    }
  }

  /** What one card adds before any Ace is demoted. */
  function Points(f: Face): nat
  {
    if 2 <= f.Value() <= 10 then f.Value()
    else if f == Jack || f == Queen || f == King then 10
    else 11
  }

  /** A number card adds its number, a picture card 10 and an Ace 11. */
  lemma PointsOfFace(f: Face)
    ensures 2 <= Points(f) <= 11
    ensures Points(f) == 11 <==> f == Ace
    ensures Points(f) == 10 <==> f in {Ten, Jack, Queen, King}
    ensures f.Value() <= 10 ==> Points(f) == f.Value()
  {
  }

  /** What one card adds when every Ace counts 1. */
  function HardPoints(f: Face): nat
  {
    if f == Ace then 1 else Points(f)
  }

  /** 1 for an Ace, 0 otherwise. */
  function AceWeight(f: Face): nat
  {
    if f == Ace then 1 else 0
  }

  /** The sum of w over the faces. */
  function Sum(faces: seq<Face>, w: Face -> nat): nat
  {
    if faces == [] then 0 else Sum(faces[..|faces| - 1], w) + w(faces[|faces| - 1])
  }

  /** The total of the cards with every Ace counted as 11. */
  function SoftTotal(cards: seq<Card>): nat
  {
    if cards == [] then 0 else SoftTotal(cards[..|cards| - 1]) + Points(cards[|cards| - 1].face)
  }

  /** The total of the cards with every Ace counted as 1. */
  function HardTotal(cards: seq<Card>): nat
  {
    if cards == [] then 0 else HardTotal(cards[..|cards| - 1]) + HardPoints(cards[|cards| - 1].face)
  }

  /** The number of Aces among the cards. */
  function AceCount(cards: seq<Card>): nat
  {
    if cards == [] then 0 else AceCount(cards[..|cards| - 1]) + AceWeight(cards[|cards| - 1].face)
  }

  /** Each Ace is worth exactly 10 more soft than hard. */
  lemma {:induction false} SoftIsHardPlusAces(cards: seq<Card>)
    ensures SoftTotal(cards) == HardTotal(cards) + 10 * AceCount(cards)
  {
    if cards != [] {
      SoftIsHardPlusAces(cards[..|cards| - 1]);
    }
  }

  function Min(a: int, b: int): int
  {
    if a <= b then a else b
  }

  /** The soft total after Aces are demoted from 11 to 1 (10 off each), one at a
      time, while the total is over 21 and an undemoted Ace remains. */
  function Demoted(soft: nat, aces: nat): nat
    decreases aces
  {
    if soft > 21 && aces > 0 then Demoted(soft - 10, aces - 1) else soft
  }

  /** The demotion loop, stopped after i demotions (each made from a total over 21)
      because the Aces ran out or the total came down to 21 or less, has reached the
      demoted total. */
  lemma {:induction false} DemotionStops(soft: nat, aces: nat, i: nat)
    requires i <= aces
    requires i > 0 ==> soft - 10 * (i - 1) > 21
    requires i == aces || soft - 10 * i <= 21
    ensures soft - 10 * i == Demoted(soft, aces)
  {
    if i > 0 {
      DemotionStops(soft - 10, aces - 1, i - 1);
    }
  }

  /** The demoted total is the best one: it is the soft total less some number of
      demotions, at most `aces`, each made from a total over 21; no choice of at most
      `aces` demotions gives a larger total of at most 21; and a total still over 21
      has every Ace demoted. */
  lemma {:induction false} DemotedIsBest(soft: nat, aces: nat)
    ensures var s := Demoted(soft, aces);
      && s <= soft
      && (soft - s) % 10 == 0
      && (soft - s) / 10 <= aces
      && ((soft - s) / 10 > 0 ==> s + 10 > 21)
      && (forall k :: 0 <= k <= aces && soft - 10 * k <= 21 ==> soft - 10 * k <= s)
      && (s > 21 ==> s == soft - 10 * aces)
    decreases aces
  {
    if soft > 21 && aces > 0 {
      DemotedIsBest(soft - 10, aces - 1);
      var s := Demoted(soft, aces);
      forall k | 0 <= k <= aces && soft - 10 * k <= 21
        ensures soft - 10 * k <= s
      {
        assert (soft - 10) - 10 * (k - 1) <= 21;
      }
    }
  }

  /** The score of a hand (Hand.HandValue). */
  function Score(cards: seq<Card>): nat
  {
    Demoted(SoftTotal(cards), AceCount(cards))
  }

  /** The score is the best blackjack total: it is the soft total with some number k
      of Aces demoted, k is at most the number of Aces, every demotion was made from a
      total over 21, no other choice of demotions gives a larger total of at most 21,
      and a score over 21 has every Ace demoted. */
  lemma ScoreIsBestTotal(cards: seq<Card>)
    ensures var soft, aces, s := SoftTotal(cards), AceCount(cards), Score(cards);
      && (soft - s) % 10 == 0
      && (soft - s) / 10 <= aces
      && ((soft - s) / 10 > 0 ==> s + 10 > 21)
      && HardTotal(cards) <= s <= soft
      && (forall k :: 0 <= k <= aces && soft - 10 * k <= 21 ==> soft - 10 * k <= s)
      && (s > 21 ==> s == HardTotal(cards))
  {
    SoftIsHardPlusAces(cards);
    DemotedIsBest(SoftTotal(cards), AceCount(cards));
  }

  /** A hand that does not bust with all Aces hard does not bust at all. */
  lemma ScoreWithinLimit(cards: seq<Card>)
    requires HardTotal(cards) <= 21
    ensures Score(cards) <= 21
  {
    SoftIsHardPlusAces(cards);
    DemotedIsBest(SoftTotal(cards), AceCount(cards));
  }

  /** Sums distribute over concatenation. */
  lemma {:induction false} SumAppend(a: seq<Face>, b: seq<Face>, w: Face -> nat)
    ensures Sum(a + b, w) == Sum(a, w) + Sum(b, w)
    decreases |b|
  {
    if b != [] {
      assert (a + b)[..|a + b| - 1] == a + b[..|b| - 1];
      SumAppend(a, b[..|b| - 1], w);
    } else {
      assert a + b == a;
    }
  }

  /** A sum depends only on the multiset of faces summed. */
  lemma {:induction false} SumOrderFree(a: seq<Face>, b: seq<Face>, w: Face -> nat)
    requires multiset(a) == multiset(b)
    ensures Sum(a, w) == Sum(b, w)
    decreases |a|
  {
    if a != [] {
      var x := a[|a| - 1];
      assert a == a[..|a| - 1] + [x];
      assert x in multiset(b);
      var j :| 0 <= j < |b| && b[j] == x;
      var rest := b[..j] + b[j + 1..];
      assert b == b[..j] + [x] + b[j + 1..];
      assert multiset(b) == multiset(b[..j]) + multiset{x} + multiset(b[j + 1..]);
      assert multiset(rest) == multiset(b[..j]) + multiset(b[j + 1..]);
      assert multiset(a) == multiset(a[..|a| - 1]) + multiset{x};
      assert multiset(a[..|a| - 1]) == multiset(a) - multiset{x};
      assert multiset(rest) == multiset(b) - multiset{x};
      SumOrderFree(a[..|a| - 1], rest, w);
      SumAppend(b[..j] + [x], b[j + 1..], w);
      SumAppend(b[..j], [x], w);
      SumAppend(b[..j], b[j + 1..], w);
      assert Sum([x], w) == w(x) by {
        assert [x][..0] == [];
      }
    }
  }

  /** The score depends only on the multiset of faces, not on the order of the cards
      or on which way they face. */
  lemma ScoreOrderFree(a: seq<Card>, b: seq<Card>)
    requires multiset(Faces(a)) == multiset(Faces(b))
    ensures Score(a) == Score(b)
  {
    TotalsAreSums(a);
    TotalsAreSums(b);
    SumOrderFree(Faces(a), Faces(b), Points);
    SumOrderFree(Faces(a), Faces(b), AceWeight);
  }

  /** Turning cards over never changes a hand's score. */
  lemma ScoreIgnoresVisibility(a: seq<Card>, b: seq<Card>)
    requires Keys(a) == Keys(b)
    ensures Score(a) == Score(b)
  {
    FacesIgnoreVisibility(a, b);
    ScoreOrderFree(a, b);
  }

  /** The soft total and the Ace count are sums of per-face weights. */
  lemma {:induction false} TotalsAreSums(cards: seq<Card>)
    ensures SoftTotal(cards) == Sum(Faces(cards), Points)
    ensures AceCount(cards) == Sum(Faces(cards), AceWeight)
  {
    if cards != [] {
      var n := |cards| - 1;
      TotalsAreSums(cards[..n]);
      assert Faces(cards)[..n] == Faces(cards[..n]);
    }
  }

  /** Worked scores: two Aces and a Nine make 21, King and Queen 20, Ace and King 21,
      two to six 20, and the empty hand 0. */
  lemma ScoreExamples()
    ensures Score([Card(Ace, Spades, true), Card(Ace, Hearts, true), Card(Nine, Clubs, true)]) == 21
    ensures Score([Card(King, Clubs, true), Card(Queen, Hearts, true)]) == 20
    ensures Score([Card(Ace, Diamonds, true), Card(King, Spades, false)]) == 21
    ensures Score([Card(Two, Clubs, true), Card(Three, Clubs, true), Card(Four, Clubs, true),
                   Card(Five, Clubs, true), Card(Six, Clubs, true)]) == 20
    ensures Score([]) == 0
  {
    var a, b, c := Card(Ace, Spades, true), Card(Ace, Hearts, true), Card(Nine, Clubs, true);
    assert [a, b, c][..2] == [a, b] && [a, b][..1] == [a] && [a][..0] == [];
    assert SoftTotal([a]) == 11 && AceCount([a]) == 1;
    assert SoftTotal([a, b]) == 22 && AceCount([a, b]) == 2;
    var k, q := Card(King, Clubs, true), Card(Queen, Hearts, true);
    assert [k, q][..1] == [k] && [k][..0] == [];
    var d, e := Card(Ace, Diamonds, true), Card(King, Spades, false);
    assert [d, e][..1] == [d] && [d][..0] == [];
    var c2, c3, c4, c5, c6 := Card(Two, Clubs, true), Card(Three, Clubs, true), Card(Four, Clubs, true),
                              Card(Five, Clubs, true), Card(Six, Clubs, true);
    assert [c2, c3, c4, c5, c6][..4] == [c2, c3, c4, c5] && [c2, c3, c4, c5][..3] == [c2, c3, c4];
    assert [c2, c3, c4][..2] == [c2, c3] && [c2, c3][..1] == [c2] && [c2][..0] == [];
    assert SoftTotal([c2]) == 2 && AceCount([c2]) == 0;
    assert SoftTotal([c2, c3]) == 5 && AceCount([c2, c3]) == 0;
    assert SoftTotal([c2, c3, c4]) == 9 && AceCount([c2, c3, c4]) == 0;
    assert SoftTotal([c2, c3, c4, c5]) == 14 && AceCount([c2, c3, c4, c5]) == 0;
  }

  /** The card list after Hand.AddCardToHand: the card goes at the end when there is
      room, and is dropped when the hand is full. */
  function Added(cards: seq<Card>, c: Card): (r: seq<Card>)
    ensures |cards| <= MaxHandSize ==> |r| <= MaxHandSize
    ensures |r| == |cards| + 1 <==> |cards| < MaxHandSize
    ensures |r| >= |cards| && r[..|cards|] == cards
    ensures |r| > |cards| ==> r[|cards|] == c
  {
    if |cards| + 1 <= MaxHandSize then cards + [c] else cards
  }

  /** Hand: the cards an actor holds and their score, recomputed on every add. */
  class Hand {
    /** CardsInHand, in the order the cards were added. */
    var cards: seq<Card>
    /** HandValue. */
    var handValue: nat

    ghost predicate Valid()
      reads this
    {
      |cards| <= MaxHandSize && handValue == Score(cards)
    }

    constructor ()
      ensures Valid() && cards == [] && handValue == 0
    {
      cards := [];
      handValue := 0;
    }

    /** Appends the card when the hand has fewer than MaxHandSize cards and recomputes
        the value; a full hand is left exactly as it was. */
    method AddCardToHand(card: Card)
      requires Valid()
      modifies this
      ensures Valid()
      ensures cards == Added(old(cards), card)
      ensures |old(cards)| < MaxHandSize ==> cards == old(cards) + [card]
      ensures |old(cards)| >= MaxHandSize ==> cards == old(cards) && handValue == old(handValue)
    {
      if |cards| + 1 <= MaxHandSize {
        cards := cards + [card];
        CalculateHandValue();
      }
    }

    /** Recomputes handValue from scratch: sum with Aces as 11, then demote Aces one at
        a time while the total is over 21. */
    method CalculateHandValue()
      modifies this`handValue
      ensures handValue == Score(cards)
    {
      var calculatedValue: nat := 0;
      var aceCount: nat := 0;
      for i := 0 to |cards|
        invariant calculatedValue == SoftTotal(cards[..i])
        invariant aceCount == AceCount(cards[..i])
      {
        assert cards[..i + 1][..i] == cards[..i];
        var face := cards[i].face;
        if 2 <= face.Value() <= 10 {
          calculatedValue := calculatedValue + face.Value();
        } else if face == Jack || face == Queen || face == King {
          calculatedValue := calculatedValue + 10;
        } else {
          calculatedValue := calculatedValue + 11;
          aceCount := aceCount + 1;
        }
      }
      assert cards[..|cards|] == cards;
      ghost var soft := calculatedValue;
      if calculatedValue > 21 && aceCount > 0 {
        var i := 0;
        while i < aceCount && calculatedValue > 21
          invariant i <= aceCount
          invariant calculatedValue == soft - 10 * i
          invariant i > 0 ==> soft - 10 * (i - 1) > 21
        {
          calculatedValue := calculatedValue - 10;
          i := i + 1;
        }
        DemotionStops(soft, aceCount, i);
      }
      handValue := calculatedValue;
    }
  }
}
