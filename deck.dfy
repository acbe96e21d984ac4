/** The 52-card deck: four 13-card blocks, one per suit in `FromIndex`
    order (Hearts, Diamonds, Clubs, Spades), each holding the faces built
    from the values 2..14 in turn (Two..Ten, then Ace, Jack, Queen, King). */
module Deck {
  import opened Prelude
  import opened Faces
  import opened CardSuits
  import opened Cards

  const DeckSize: nat := 52
  const BlockSize: nat := 13

  /** The card `get_deck_ace_high` writes at position `k`. */
  function DeckCard(k: nat): (c: CardData)
    requires k < DeckSize
    ensures DeckIndex(c.cardSuit) == k / BlockSize
    ensures DeckValue(c.cardFace) == 2 + k % BlockSize
  {
    CardData(FromIndex(k / BlockSize), FromValue(2 + k % BlockSize))
  }

  /** The deck as a whole. */
  function AceHighDeck(): (d: seq<CardData>)
    ensures |d| == DeckSize
    ensures forall k :: 0 <= k < DeckSize ==> d[k] == DeckCard(k)
  {
    seq(DeckSize, k requires 0 <= k < DeckSize => DeckCard(k))
  }

  /** `DECK`, evaluated at compile time from `get_deck_ace_high`. */
  const DECK: seq<CardData> := AceHighDeck()

  /** The position of card `c` in the deck. */
  function Position(c: CardData): (k: nat)
    ensures k < DeckSize
  {
    DeckIndex(c.cardSuit) * BlockSize + (DeckValue(c.cardFace) - 2)
  }

  lemma BlockArithmetic(b: nat, o: nat)
    requires b < 4 && o < BlockSize
    ensures (b * BlockSize + o) / BlockSize == b
    ensures (b * BlockSize + o) % BlockSize == o
  {
  }

  /** `get_deck_ace_high`: fill a 52-slot array, initialised with the
      placeholder (Clubs, Ace), block by block. The Rust function returns
      the array by value, so the result here is its contents. */
  method GetDeckAceHigh() returns (deck: seq<CardData>)
    ensures deck == AceHighDeck()
  {
    var a := new CardData[DeckSize](_ => CardData(Clubs, Ace));
    var i: nat := 0;
    var suitIndex: U8 := 0;
    while suitIndex < 4
      invariant suitIndex <= 4
      invariant i == suitIndex * BlockSize
      invariant forall k :: 0 <= k < i ==> a[k] == DeckCard(k)
    {
      var suit := FromIndex(suitIndex);
      var value: U8 := 2;
      while value <= 14
        invariant 2 <= value <= 15
        invariant i == suitIndex * BlockSize + (value - 2)
        invariant forall k :: 0 <= k < i ==> a[k] == DeckCard(k)
      {
        BlockArithmetic(suitIndex, value - 2);
        a[i] := CardData(suit, FromValue(value));
        i := i + 1;
        value := value + 1;
      }
      suitIndex := suitIndex + 1;
    }
    deck := a[..];
  }

  /** Every card occurs in the deck exactly once: `Position` finds it, and
      no two positions hold the same card. */
  lemma EveryCardExactlyOnce()
    ensures forall c :: AceHighDeck()[Position(c)] == c
    ensures forall j, k :: 0 <= j < k < DeckSize ==> AceHighDeck()[j] != AceHighDeck()[k]
  {
  }

  /** `Position` undoes `DeckCard`. */
  lemma PositionOfDeckCard(k: nat)
    requires k < DeckSize
    ensures Position(DeckCard(k)) == k
  {
  }

  /** The layout of block `b`: its suit is `FromIndex(b)`, offsets 0..8 hold
      Two..Ten, offset 9 the Ace, offsets 10, 11, 12 Jack, Queen, King. */
  lemma BlockLayout(b: nat, o: nat)
    requires b < 4 && o < BlockSize
    ensures AceHighDeck()[b * BlockSize + o].cardSuit == FromIndex(b)
    ensures AceHighDeck()[b * BlockSize + o].cardFace ==
      [Two, Three, Four, Five, Six, Seven, Eight, Nine, Ten, Ace, Jack, Queen, King][o]
  {
  }

  /** Every slot is overwritten: the deck opens with thirteen Hearts, not
      with the (Clubs, Ace) placeholder the array starts out with. */
  lemma FirstBlockIsHearts()
    ensures forall k :: 0 <= k < BlockSize ==> AceHighDeck()[k].cardSuit == Hearts
    ensures AceHighDeck()[0] == CardData(Hearts, Two) != Cards.Default()
  {
  }

  /** The number of cards of `s` that satisfy `p`. */
  function Count(s: seq<CardData>, p: CardData -> bool): (n: nat)
    ensures n <= |s|
  {
    if s == [] then 0 else (if p(s[0]) then 1 else 0) + Count(s[1..], p)
  }

  lemma {:induction false} CountConcat(s: seq<CardData>, t: seq<CardData>, p: CardData -> bool)
    ensures Count(s + t, p) == Count(s, p) + Count(t, p)
  {
    if s == [] {
      assert s + t == t;
    } else {
      assert (s + t)[1..] == s[1..] + t;
      CountConcat(s[1..], t, p);
    }
  }

  lemma {:induction false} CountNone(s: seq<CardData>, p: CardData -> bool)
    requires forall k :: 0 <= k < |s| ==> !p(s[k])
    ensures Count(s, p) == 0
  {
    if s != [] {
      CountNone(s[1..], p);
    }
  }

  lemma {:induction false} CountAll(s: seq<CardData>, p: CardData -> bool)
    requires forall k :: 0 <= k < |s| ==> p(s[k])
    ensures Count(s, p) == |s|
  {
    if s != [] {
      CountAll(s[1..], p);
    }
  }

  /** The cards of block `b`. */
  function Block(b: nat): (s: seq<CardData>)
    requires b < 4
    ensures |s| == BlockSize
  {
    AceHighDeck()[b * BlockSize .. b * BlockSize + BlockSize]
  }

  lemma DeckIsFourBlocks()
    ensures AceHighDeck() == Block(0) + Block(1) + Block(2) + Block(3)
  {
  }

  /** Within a block, the ace sits at offset 9 and the face cards at 10..12. */
  lemma BlockClassification(b: nat, o: nat)
    requires b < 4 && o < BlockSize
    ensures IsAce(Block(b)[o]) <==> o == 9
    ensures IsFaceCard(Block(b)[o]) <==> o >= 10
  {
  }

  /** Each block holds one ace and three face cards. */
  lemma {:induction false} BlockCounts(b: nat)
    requires b < 4
    ensures Count(Block(b), IsAce) == 1
    ensures Count(Block(b), IsFaceCard) == 3
  {
    var s := Block(b);
    forall o | 0 <= o < BlockSize
      ensures (IsAce(s[o]) <==> o == 9) && (IsFaceCard(s[o]) <==> o >= 10)
    {
      BlockClassification(b, o);
    }
    var front, back := s[..9], s[10..];
    assert s == front + [s[9]] + back;
    CountNone(front, IsAce);
    CountNone(back, IsAce);
    CountConcat(front, [s[9]], IsAce);
    CountConcat(front + [s[9]], back, IsAce);
    var pips, faces := s[..10], s[10..];
    assert s == pips + faces;
    CountNone(pips, IsFaceCard);
    CountAll(faces, IsFaceCard);
    CountConcat(pips, faces, IsFaceCard);
  }

  /** The deck holds four aces and twelve face cards. */
  lemma {:induction false} DeckCounts()
    ensures Count(AceHighDeck(), IsAce) == 4
    ensures Count(AceHighDeck(), IsFaceCard) == 12
  {
    DeckIsFourBlocks();
    BlockCounts(0);
    BlockCounts(1);
    BlockCounts(2);
    BlockCounts(3);
    CountConcat(Block(0), Block(1), IsAce);
    CountConcat(Block(0) + Block(1), Block(2), IsAce);
    CountConcat(Block(0) + Block(1) + Block(2), Block(3), IsAce);
    CountConcat(Block(0), Block(1), IsFaceCard);
    CountConcat(Block(0) + Block(1), Block(2), IsFaceCard);
    CountConcat(Block(0) + Block(1) + Block(2), Block(3), IsFaceCard);
  }
}
