/** Card suits and their two index encodings. `FromIndex` (used to build
    the deck) starts at Hearts; `From` on a `u8` follows the declaration
    order and starts at Clubs. Each is a bijection from 0..3 onto the
    suits, and they differ by swapping Hearts and Clubs. */
module CardSuits {
  import opened Prelude

  datatype CardSuit = Clubs | Diamonds | Hearts | Spades

  /** The enum discriminant (declaration order): Clubs is 0, Spades is 3. */
  function Ordinal(s: CardSuit): (n: nat)
    ensures n < 4
  {
    match s
    case Clubs => 0
    case Diamonds => 1
    case Hearts => 2
    case Spades => 3
  }

  /** The index `FromIndex` turns into `s`: the position of its 13-card
      block in the deck. */
  function DeckIndex(s: CardSuit): (i: U8)
    ensures i < 4
  {
    match s
    case Hearts => 0
    case Diamonds => 1
    case Clubs => 2
    case Spades => 3
  }

  /** `CardSuit::default()`. */
  function Default(): (s: CardSuit)
    ensures Ordinal(s) == 0
  {
    Clubs
  }

  /** `CardSuit::from_index`: defined on 0..3, panics elsewhere. Its result
      is the suit whose declaration ordinal is the index with 0 and 2
      swapped. */
  function FromIndex(index: U8): (s: CardSuit)
    requires index < 4
    ensures DeckIndex(s) == index
    ensures Ordinal(s) == if index % 2 == 1 then index else 2 - index
  {
    match index
    case 0 => Hearts
    case 1 => Diamonds
    case 2 => Clubs
    case 3 => Spades
  }

  /** `impl<T: Into<u8>> From<T> for CardSuit`: defined when the converted
      value is in 0..3, panics elsewhere; the value is the declaration
      ordinal of the result. */
  function From<T>(value: T, into: T -> U8): (s: CardSuit)
    requires into(value) < 4
    ensures Ordinal(s) == into(value)
  {
    match into(value)
    case 0 => Clubs
    case 1 => Diamonds
    case 2 => Hearts
    case 3 => Spades
  }

  /** `FromIndex` is a bijection from 0..3 onto the four suits, with
      `DeckIndex` as its inverse. */
  lemma FromIndexBijective()
    ensures forall s :: FromIndex(DeckIndex(s)) == s
    ensures forall i: U8, j: U8 :: i < 4 && j < 4 && FromIndex(i) == FromIndex(j) ==> i == j
  {
  }

  /** `From` on a `u8` is a bijection from 0..3 onto the four suits, with
      `Ordinal` as its inverse. */
  lemma FromU8Bijective()
    ensures forall s :: From(Ordinal(s) as U8, U8Into) == s
    ensures forall i: U8, j: U8 :: i < 4 && j < 4 && From(i, U8Into) == From(j, U8Into) ==> i == j
  {
  }

  /** The two encodings agree exactly at 1 and 3; at 0 and 2 one gives
      Hearts where the other gives Clubs. */
  lemma EncodingsDisagree(i: U8)
    requires i < 4
    ensures FromIndex(i) == From(i, U8Into) <==> i == 1 || i == 3
    ensures i == 0 ==> FromIndex(i) == Hearts && From(i, U8Into) == Clubs
    ensures i == 2 ==> FromIndex(i) == Clubs && From(i, U8Into) == Hearts
  {
  }
}
