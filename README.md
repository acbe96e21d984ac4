# Balatro predictor: card model, deck and predictor entry points

This project models the Rust core of the Balatro hand predictor, found under
`src-tauri/src/algorithm/`, and proves properties of the model in Dafny:

- **Faces** (`faces.dfy`, from `faces.rs`). The thirteen `CardFace`s and their two
  integer encodings. `FromValue` builds a face from 1..14 and panics on any other
  value. `Value` reports a face's numeric value. The two are not inverse to each
  other. `FromValue` sends both 1 and 11 to Ace, and 12, 13, 14 to Jack, Queen,
  King. `Value` gives both Ace and Jack the value 11. `From<T: Into<u8>>` converts
  its argument and then calls `FromValue`.
- **Suits** (`card_suits.rs`). The four `CardSuit`s and two index maps that disagree:
  `from_index` goes Hearts, Diamonds, Clubs, Spades, while `From<u8>` goes Clubs,
  Diamonds, Hearts, Spades. The default suit is Clubs.
- **Cards** (`card_data.rs`). `CardData` is a (suit, face) pair with `is_ace` and
  `is_face_card`. Its default is built from the field defaults.
- **Deck** (`deck.rs`). `get_deck_ace_high` fills a 52-slot array, first set to the
  placeholder (Clubs, Ace), using two nested `while` loops. The outer loop takes
  suit indices 0..3 and the inner loop takes values 2..14. `DECK` is the value of
  that function.
- **Predictor** (`balatro_predictor.rs`). The ten `calculate_*_probability` methods
  of the `BalatroPredictor` trait (`card_data.rs:22-63`), implemented for a hand
  `Vec<CardData>`. Each method rejects a hand of fewer than five cards with
  "Not enough cards to calculate <category>". Otherwise it returns `Ok(0.0)`.
  The discard argument is never read.

Modelling choices:

- A `panic!` in `from_value`, `from_index` and `From<u8>` becomes a precondition.
- `u8` is the subset type `Prelude.U8` (0..255). No value in the core gets near
  its bounds. The deck loop counters stay within 0..52, so `usize` is modelled as
  `nat`.
- `From<T> where T: Into<u8>` becomes a generic function that receives the `Into`
  conversion as a parameter. `Prelude.U8Into` is the identity conversion used
  for `T = u8`.
- The ten trait methods are a single function, `Predictor.Calculate`, that takes
  the category as a datatype `Category`. The `f32` result becomes a `real`, since
  the only value it ever takes is 0.0. The hand is passed by value. The Rust
  receiver is `&mut self`, but no method writes to it, so no state is modelled.
- `get_deck_ace_high` returns a Rust array by value. The Dafny method fills a
  local `array` in place, exactly as the loops do, and returns its contents as a
  sequence. The function `Deck.AceHighDeck` specifies that result, and the
  constant `Deck.DECK` is defined as it.
- Where the written specification of the system and the code disagree, the
  model follows the code. The specification describes hand-classification
  predicates (pair, straight, flush, …), completion estimators, and
  short-circuit answers of 1.0 and 0.0. None of these exists in the predictor
  source: every entry point is a length guard followed by `Ok(0.0)`. The model
  therefore proves that a successful answer is always 0.0, including for a hand
  that already holds the category (`Predictor.SuccessIsZeroProbability`).

## Model

| member | source | states |
|---|---|---|
| `Faces.Default` | src-tauri/src/algorithm/faces.rs:22-26 | the default face is the one value 1 builds, Ace (declaration ordinal 12) |
| `Faces.FromValue` | src-tauri/src/algorithm/faces.rs:29-46 | defined exactly on 1..14; the result is Ace iff the value is 1 or 11; any value other than 1 is the deck value of the face it builds |
| `Faces.Value` | src-tauri/src/algorithm/faces.rs:47-63 | the value is in 2..13; a non-Ace face reports its declaration ordinal plus 2; Ace reports 11 |
| `Faces.From` | src-tauri/src/algorithm/faces.rs:66-73 | converts with `Into<u8>` and then behaves as `FromValue` on that `u8`, with the same domain and the same Ace aliases |
| `Faces.FromU8IsFromValue` | src-tauri/src/algorithm/faces.rs:70-72 | on a `u8`, `From` coincides with `FromValue` |
| `Faces.AceAliases` | src-tauri/src/algorithm/faces.rs:31 | `FromValue(1)` and `FromValue(11)` are both Ace |
| `Faces.FromValueBijective` | src-tauri/src/algorithm/faces.rs:31-43 | restricted to 2..14, `FromValue` is injective and reaches every face; `DeckValue` is its inverse in both directions |
| `Faces.ValueCollision` | src-tauri/src/algorithm/faces.rs:58-59 | `Value(Ace) == Value(Jack) == 11`, and this is the only pair of faces that share a value |
| `Faces.ValueOfFromValue` | src-tauri/src/algorithm/faces.rs:29-62 | `Value(FromValue(v))` is 11 for v = 1, v - 1 for v in 12..14, and v otherwise; the round trip holds exactly on 2..11 |
| `Faces.RoundTripFailsAtTwelve` | src-tauri/src/algorithm/faces.rs:41 | 12 builds a Jack, and Jack's value is 11, not 12 |
| `Faces.FromValueOfValue` | src-tauri/src/algorithm/faces.rs:29-62 | `FromValue(Value(f)) == f` holds exactly for Two..Ten and Ace; it fails for Jack, Queen and King |
| `CardSuits.Default` | src-tauri/src/algorithm/card_suits.rs:24-28 | the default suit is the first declared one, Clubs |
| `CardSuits.FromIndex` | src-tauri/src/algorithm/card_suits.rs:12-20 | defined exactly on 0..3; `DeckIndex` undoes it; its result's declaration ordinal is the index with 0 and 2 swapped (0 gives Hearts, 2 gives Clubs) |
| `CardSuits.From` | src-tauri/src/algorithm/card_suits.rs:30-40 | defined exactly when the converted value is in 0..3; the result is the suit of that declaration ordinal (0 gives Clubs) |
| `CardSuits.FromIndexBijective` | src-tauri/src/algorithm/card_suits.rs:12-19 | `FromIndex` is a bijection from 0..3 onto the four suits |
| `CardSuits.FromU8Bijective` | src-tauri/src/algorithm/card_suits.rs:30-39 | `From` on a `u8` is a bijection from 0..3 onto the four suits |
| `CardSuits.EncodingsDisagree` | src-tauri/src/algorithm/card_suits.rs:12-39 | the two maps agree exactly at 1 and 3; at 0 and 2 they swap Hearts and Clubs |
| `Cards.Default` | src-tauri/src/algorithm/card_data.rs:5-9 | the default card combines the two field defaults, (Clubs, Ace) |
| `Cards.IsAce` | src-tauri/src/algorithm/card_data.rs:12-14 | a card is an ace iff its face is the one value 1 builds, the last declared face |
| `Cards.IsFaceCard` | src-tauri/src/algorithm/card_data.rs:15-19 | a card is a face card iff its face has deck value 12 or more, or equivalently it is not an Ace and its value is at least 11 |
| `Cards.AceAndFaceCardDisjoint` | src-tauri/src/algorithm/card_data.rs:12-19 | no card is both an ace and a face card; every other card has value at most 10 |
| `Cards.PredicatesIgnoreSuit` | src-tauri/src/algorithm/card_data.rs:12-19 | both predicates give the same answer for any two suits with the same face |
| `Deck.DeckCard` | src-tauri/src/algorithm/deck.rs:13-23 | the card at position k has the suit with deck index k / 13 and the face with deck value 2 + k % 13 |
| `Deck.GetDeckAceHigh` | src-tauri/src/algorithm/deck.rs:6-27 | the nested loops keep `i == suitIndex * 13 + (value - 2)`, stay inside the 52 slots and never call `FromIndex` or `FromValue` outside their domains; the result is exactly `AceHighDeck()` |
| `Deck.EveryCardExactlyOnce` | src-tauri/src/algorithm/deck.rs:13-24 | every (suit, face) pair is found at its `Position`, and no two positions hold the same card |
| `Deck.BlockLayout` | src-tauri/src/algorithm/deck.rs:14-19 | block b has suit `FromIndex(b)`; offsets 0..8 hold Two..Ten, offset 9 the Ace, and offsets 10..12 Jack, Queen and King |
| `Deck.FirstBlockIsHearts` | src-tauri/src/algorithm/deck.rs:7-14 | the first 13 cards are Hearts, and the first card is (Hearts, Two), not the placeholder |
| `Deck.BlockCounts` | src-tauri/src/algorithm/deck.rs:15-23 | each 13-card block holds exactly one ace and three face cards |
| `Deck.DeckCounts` | src-tauri/src/algorithm/deck.rs:13-24 | the deck holds exactly 4 aces and 12 face cards |
| `Predictor.Calculate` | src-tauri/src/algorithm/balatro_predictor.rs:3-120 | a call fails iff the hand has fewer than 5 cards; the error is "Not enough cards to calculate " followed by the category's name; otherwise the result is 0.0 |
| `Predictor.ErrorsNameTheirCategory` | src-tauri/src/algorithm/balatro_predictor.rs:8-116 | for a short hand, two different categories fail with different errors |
| `Predictor.FiveCardsSucceed` | src-tauri/src/algorithm/balatro_predictor.rs:8-13 | a hand of exactly five cards succeeds with 0.0 in every category |
| `Predictor.DiscardIgnored` | src-tauri/src/algorithm/balatro_predictor.rs:4-14 | no discard and any discard list give identical outcomes |
| `Predictor.OnlyLengthMatters` | src-tauri/src/algorithm/balatro_predictor.rs:8-13 | two hands of the same length give identical outcomes, whatever their cards and discards |
| `Predictor.SuccessIsZeroProbability` | src-tauri/src/algorithm/balatro_predictor.rs:13-118 | on hands of five or more cards every category succeeds, with a value in [0, 1] that is never 1.0 |

## Left out

- `src-tauri/src/lib.rs` is not part of this model. It holds the Tauri application bootstrap and the `#[tauri::command]` wrappers, which turn an empty discard list into `None` and errors into strings. This is framework glue, and `Predictor.DiscardIgnored` shows that the `None` mapping cannot change any outcome.
- The TypeScript/React front end and the Tailwind configuration are not part of this model. They are user interface, IPC calls and a static table of jokers.
- The serde `Serialize`/`Deserialize` derives and the `Debug` formatter of `CardData` are left out. They are string formatting done by foreign libraries.
- IEEE `f32` arithmetic is left out. The only float the core produces is the constant 0.0, modelled as a real.
- A panic is modelled as a precondition, not as a failure value, because the Rust code offers callers no way to recover from it.
- `Predictor.Calculate`: the `&mut self` receiver is not modelled as mutable state. Every method only reads `self.len()`, so the hand is passed by value, and "the hand is unchanged" holds by construction instead of being stated.
- Hand classification and probability estimation (pair, straight, flush, …, clamping, discount factors) are left out. No such code exists in the predictor source: every entry point returns 0.0 once its length guard passes.
