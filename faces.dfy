/** Card faces (ranks) and their two integer encodings: `FromValue`, used
    to build the deck, and `Value`, the numeric value a face reports.
    The two are deliberately not inverse to each other: `FromValue` sends
    1 and 11 to Ace and 12, 13, 14 to Jack, Queen, King, while `Value`
    gives both Ace and Jack the value 11. */
module Faces {
  import opened Prelude

  /** The thirteen faces, in the order of their declaration. */
  datatype CardFace =
    | Two | Three | Four | Five | Six | Seven | Eight | Nine | Ten
    | Jack | Queen | King | Ace

  /** The enum discriminant (declaration order): Two is 0, Ace is 12. */
  function Ordinal(f: CardFace): (n: nat)
    ensures n < 13
  {
    match f
    case Two => 0
    case Three => 1
    case Four => 2
    case Five => 3
    case Six => 4
    case Seven => 5
    case Eight => 6
    case Nine => 7
    case Ten => 8
    case Jack => 9
    case Queen => 10
    case King => 11
    case Ace => 12
  }

  /** The deck-building value `FromValue` turns into `f`, among 2..14:
      Ace is built from 11, Jack, Queen and King from 12, 13 and 14. */
  function DeckValue(f: CardFace): (v: U8)
    ensures 2 <= v <= 14
  {
    match f
    case Two => 2
    case Three => 3
    case Four => 4
    case Five => 5
    case Six => 6
    case Seven => 7
    case Eight => 8
    case Nine => 9
    case Ten => 10
    case Ace => 11
    case Jack => 12
    case Queen => 13
    case King => 14
  }

  /** `CardFace::default()`. */
  function Default(): (f: CardFace)
    ensures f == FromValue(1) && Ordinal(f) == 12
  {
    Ace
  }

  /** `CardFace::from_value`: defined on 1..14 and panics elsewhere.
      Both 1 and 11 give Ace; every other value is the deck value of the
      face it gives. */
  function FromValue(value: U8): (f: CardFace)
    requires 1 <= value <= 14
    ensures value == 1 || value == 11 <==> f == Ace
    ensures value != 1 ==> DeckValue(f) == value
  {
    match value
    case 1 => Ace
    case 11 => Ace
    case 2 => Two
    case 3 => Three
    case 4 => Four
    case 5 => Five
    case 6 => Six
    case 7 => Seven
    case 8 => Eight
    case 9 => Nine
    case 10 => Ten
    case 12 => Jack
    case 13 => Queen
    case 14 => King
  }

  /** `CardFace::value`: the rank counted from Two = 2 for every face but
      Ace, which reports 11 (the value Jack has too). */
  function Value(f: CardFace): (v: U8)
    ensures 2 <= v <= 13
    ensures f != Ace ==> v == Ordinal(f) + 2
    ensures f == Ace ==> v == 11
  {
    match f
    case Two => 2
    case Three => 3
    case Four => 4
    case Five => 5
    case Six => 6
    case Seven => 7
    case Eight => 8
    case Nine => 9
    case Ten => 10
    case Ace => 11
    case Jack => 11
    case Queen => 12
    case King => 13
  }

  /** `impl<T: Into<u8>> From<T> for CardFace`: convert to `u8`, then
      `FromValue`. */
  function From<T>(value: T, into: T -> U8): (f: CardFace)
    requires 1 <= into(value) <= 14
    ensures into(value) == 1 || into(value) == 11 <==> f == Ace
    ensures into(value) != 1 ==> DeckValue(f) == into(value)
  {
    FromValue(into(value))
  }

  /** `From` on a `u8` is `FromValue` itself. */
  lemma FromU8IsFromValue(v: U8)
    requires 1 <= v <= 14
    ensures From(v, U8Into) == FromValue(v)
  {
  }

  /** Both 1 and 11 build an Ace. */
  lemma AceAliases()
    ensures FromValue(1) == Ace && FromValue(11) == Ace
  {
  }

  /** `DeckValue` undoes `FromValue` on 2..14, and `FromValue` undoes
      `DeckValue`: on 2..14 `FromValue` is a bijection onto all faces. */
  lemma FromValueBijective()
    ensures forall v: U8 :: 2 <= v <= 14 ==> DeckValue(FromValue(v)) == v
    ensures forall f :: 2 <= DeckValue(f) <= 14 && FromValue(DeckValue(f)) == f
    ensures forall v: U8, w: U8 :: 2 <= v <= 14 && 2 <= w <= 14 && FromValue(v) == FromValue(w) ==> v == w
  {
  }

  /** `Value` is not injective: Ace and Jack collide at 11, and that is
      the only collision. */
  lemma ValueCollision()
    ensures Value(Ace) == Value(Jack) == 11
    ensures forall f, g :: Value(f) == Value(g) ==> f == g || (f in {Ace, Jack} && g in {Ace, Jack})
  {
  }

  /** `Value(FromValue(v))` gives back `v` on 2..11 only: 1 comes back as
      11 and 12..14 come back one lower. */
  lemma ValueOfFromValue(v: U8)
    requires 1 <= v <= 14
    ensures Value(FromValue(v)) == if v == 1 then 11 else if v >= 12 then v - 1 else v
    ensures Value(FromValue(v)) == v <==> 2 <= v <= 11
  {
  }

  /** The concrete failure of the round trip: 12 builds a Jack, whose value is 11. */
  lemma RoundTripFailsAtTwelve()
    ensures FromValue(12) == Jack && Value(FromValue(12)) == 11
  {
  }

  /** `Value` and `FromValue` agree with each other on faces Two..Ten only. */
  lemma FromValueOfValue(f: CardFace)
    ensures FromValue(Value(f)) == f <==> Ordinal(f) <= 8 || f == Ace
  {
  }
}
