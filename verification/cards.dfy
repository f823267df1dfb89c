/** Cards of a 52-card deck: the Suit and Face enumerations and the Card record.
    A card's face and suit are fixed when it is created; the only thing other code
    may change is whether its front faces the player. */
module Cards {

  /** Card.Suit, with the enumeration's integer values 0..3. */
  datatype Suit = Clubs | Spades | Diamonds | Hearts {
    function Value(): (n: nat)
      ensures n <= 3
    {
      match this
      case Clubs => 0
      case Spades => 1
      case Diamonds => 2
      case Hearts => 3
    }
  }

  /** Card.Face, with the enumeration's integer values 2..14 (the Ace is high). */
  datatype Face = Two | Three | Four | Five | Six | Seven | Eight | Nine | Ten
                | Jack | Queen | King | Ace {
    function Value(): (n: nat)
      ensures 2 <= n <= 14
      ensures n == 11 <==> this == Jack
      ensures n == 12 <==> this == Queen
      ensures n == 13 <==> this == King
      ensures n == 14 <==> this == Ace
    {
      match this
      case Two => 2
      case Three => 3
      case Four => 4
      case Five => 5
      case Six => 6
      case Seven => 7
      case Eight => 8
      case Nine => 9
      case Ten => 10
      case Jack => 11
      case Queen => 12
      case King => 13
      case Ace => 14
    }
  }

  /** The suits in the order the enumeration lists them (and Enum.GetValues returns them). */
  const AllSuits: seq<Suit> := [Clubs, Spades, Diamonds, Hearts]

  /** The faces in the order the enumeration lists them. */
  const AllFaces: seq<Face> := [Two, Three, Four, Five, Six, Seven, Eight, Nine, Ten, Jack, Queen, King, Ace]

  /** The suit whose enumeration value is n. */
  function SuitOfValue(n: nat): (s: Suit)
    requires n <= 3
    ensures s.Value() == n
  {
    AllSuits[n]
  }

  /** The face whose enumeration value is n. */
  function FaceOfValue(n: nat): (f: Face)
    requires 2 <= n <= 14
    ensures f.Value() == n
  {
    AllFaces[n - 2]
  }

  /** The enumerations hold every value of their range exactly once, in ascending order. */
  lemma EnumerationOrder()
    ensures |AllSuits| == 4 && forall i :: 0 <= i < 4 ==> AllSuits[i].Value() == i
    ensures |AllFaces| == 13 && forall i :: 0 <= i < 13 ==> AllFaces[i].Value() == i + 2
    ensures forall s: Suit :: s in AllSuits
    ensures forall f: Face :: f in AllFaces
  {
    forall s: Suit
      ensures s in AllSuits
    {
      assert AllSuits[s.Value()] == s;
    }
    forall f: Face
      ensures f in AllFaces
    {
      assert AllFaces[f.Value() - 2] == f;
    }
  }

  /** A face is determined by its value, and a suit by its. */
  lemma ValuesIdentify(f: Face, g: Face, s: Suit, t: Suit)
    ensures f.Value() == g.Value() ==> f == g
    ensures s.Value() == t.Value() ==> s == t
  {
  }

  /** A card: its face, its suit, and whether its front faces the player.
      The sprites the Unity class also stores are not part of this model. */
  datatype Card = Card(face: Face, suit: Suit, isFrontFacingPlayer: bool)

  /** What identifies a card in the deck: its face and suit, not its visibility. */
  function Key(c: Card): (Face, Suit)
  {
    (c.face, c.suit)
  }

  /** The keys of a list of cards, in order. */
  function Keys(cards: seq<Card>): (ks: seq<(Face, Suit)>)
    ensures |ks| == |cards|
  {
    seq(|cards|, i requires 0 <= i < |cards| => Key(cards[i]))
  }

  /** Writing the visibility flag (the one settable property) keeps face and suit. */
  lemma VisibilityWriteKeepsKey(c: Card, visible: bool)
    ensures Key(c.(isFrontFacingPlayer := visible)) == Key(c)
    ensures c.(isFrontFacingPlayer := visible).isFrontFacingPlayer == visible
  {
  }

  /** Every card of a list with its visibility flag set to `visible`. */
  function WithVisibility(cards: seq<Card>, visible: bool): (r: seq<Card>)
    ensures |r| == |cards|
    ensures forall i :: 0 <= i < |cards| ==> r[i] == cards[i].(isFrontFacingPlayer := visible)
    ensures Keys(r) == Keys(cards)
  {
    if cards == [] then []
    else WithVisibility(cards[..|cards| - 1], visible) + [cards[|cards| - 1].(isFrontFacingPlayer := visible)]
  }
}
