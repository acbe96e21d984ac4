/** The `BalatroPredictor` entry points implemented for a hand
    (`Vec<CardData>`). There is one entry point per hand category; each one
    rejects a hand of fewer than five cards with an error naming its
    category, and otherwise answers 0.0. The discard pile is accepted and
    never looked at, and the hand is never changed. */
module Predictor {
  import opened Prelude
  import opened Cards

  /** The ten `calculate_*_probability` methods of the trait, one per
      poker hand category, highest last. */
  datatype Category =
    | HighCard | Pair | TwoPair | ThreeOfAKind | Straight
    | Flush | FullHouse | FourOfAKind | StraightFlush | RoyalFlush

  /** The category's name as its error message spells it. */
  function Name(c: Category): string
  {
    match c
    case HighCard => "high card"
    case Pair => "pair"
    case TwoPair => "two pair"
    case ThreeOfAKind => "three of a kind"
    case Straight => "straight"
    case Flush => "flush"
    case FullHouse => "full house"
    case FourOfAKind => "four of a kind"
    case StraightFlush => "straight flush"
    case RoyalFlush => "royal flush"
  }

  const MinHandSize: nat := 5
  const ErrorPrefix: string := "Not enough cards to calculate "

  /** The message an entry point fails with: the common prefix, then the
      category's name. */
  function ErrorMessage(c: Category): string
  {
    ErrorPrefix + Name(c)
  }

  /** `calculate_<category>_probability(&mut self, discarded_cards)` on the
      hand `hand`. The `f32` result is a real here; the only value ever
      returned is 0.0. */
  function Calculate(category: Category, hand: seq<CardData>, discardedCards: Option<seq<CardData>>)
    : (r: Result<real, string>)
    ensures r.Failure? <==> |hand| < MinHandSize
    ensures r.Failure? ==> ErrorPrefix <= r.error && r.error[|ErrorPrefix|..] == Name(category)
    ensures r.Success? ==> r.value == 0.0
  {
    if |hand| < MinHandSize then
      Failure(ErrorMessage(category))
    else
      Success(0.0)
  }

  /** Each category has its own message: no two categories fail alike. */
  lemma {:induction false} ErrorsNameTheirCategory(c: Category, e: Category, hand: seq<CardData>, d: Option<seq<CardData>>)
    requires |hand| < MinHandSize
    requires c != e
    ensures Calculate(c, hand, d) != Calculate(e, hand, d)
  {
  }

  /** A hand of exactly five cards is enough: the boundary succeeds. */
  lemma FiveCardsSucceed(c: Category, hand: seq<CardData>, d: Option<seq<CardData>>)
    requires |hand| == 5
    ensures Calculate(c, hand, d) == Success(0.0)
  {
  }

  /** The discard pile is ignored: no discard and any discard give the same outcome. */
  lemma DiscardIgnored(c: Category, hand: seq<CardData>, discarded: seq<CardData>)
    ensures Calculate(c, hand, None) == Calculate(c, hand, Some(discarded))
  {
  }

  /** The outcome depends on the hand's length only, never on its cards
      or on the discard pile. */
  lemma OnlyLengthMatters(c: Category, h1: seq<CardData>, h2: seq<CardData>,
                          d1: Option<seq<CardData>>, d2: Option<seq<CardData>>)
    requires |h1| == |h2|
    ensures Calculate(c, h1, d1) == Calculate(c, h2, d2)
  {
  }

  /** Every successful answer is a probability, and no category ever
      reports 1.0: in particular a hand that already holds a category is
      not recognised as holding it. */
  lemma SuccessIsZeroProbability(c: Category, hand: seq<CardData>, d: Option<seq<CardData>>)
    requires |hand| >= MinHandSize
    ensures Calculate(c, hand, d).Success?
    ensures 0.0 <= Calculate(c, hand, d).value <= 1.0
    ensures Calculate(c, hand, d).value != 1.0
  {
  }
}
