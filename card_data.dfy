/** A card: a (suit, face) pair, with its two classification predicates. */
module Cards {
  import opened Faces
  import opened CardSuits

  datatype CardData = CardData(cardSuit: CardSuit, cardFace: CardFace)

  /** The derived `Default`: each field takes its own type's default. */
  function Default(): (c: CardData)
    ensures c == CardData(CardSuits.Default(), Faces.Default())
    ensures c.cardSuit == CardSuits.From<Prelude.U8>(0, Prelude.U8Into) && c.cardFace == FromValue(1)
  {
    CardData(Clubs, Ace)
  }

  /** `CardData::is_ace`: the face is the one both 1 and 11 build. */
  predicate IsAce(c: CardData)
    ensures IsAce(c) <==> c.cardFace == FromValue(1)
    ensures IsAce(c) <==> Faces.Ordinal(c.cardFace) == 12
  {
    c.cardFace == Ace
  }

  /** `CardData::is_face_card`: Jack, Queen or King, that is the faces
      whose deck value is 12 or more, or, by reported value, the faces of
      value 11 and up other than Ace. */
  predicate IsFaceCard(c: CardData)
    ensures IsFaceCard(c) <==> DeckValue(c.cardFace) >= 12
    ensures IsFaceCard(c) <==> c.cardFace != Ace && Value(c.cardFace) >= 11
  {
    c.cardFace == King || c.cardFace == Queen || c.cardFace == Jack
  }

  /** No card is both an ace and a face card; every card is one of ace,
      face card, or a pip card Two..Ten. */
  lemma AceAndFaceCardDisjoint(c: CardData)
    ensures !(IsAce(c) && IsFaceCard(c))
    ensures IsAce(c) || IsFaceCard(c) || Value(c.cardFace) <= 10
  {
  }

  /** Both predicates look at the face only, never at the suit. */
  lemma PredicatesIgnoreSuit(s: CardSuit, t: CardSuit, f: CardFace)
    ensures IsAce(CardData(s, f)) == IsAce(CardData(t, f))
    ensures IsFaceCard(CardData(s, f)) == IsFaceCard(CardData(t, f))
  {
  }
}
