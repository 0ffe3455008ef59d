/**
 * The card face of `PlayingCard.tsx`: a card string such as "As" or "10s"
 * is split into its rank (everything but the last character) and its suit
 * (the last character); hearts and diamonds are drawn red and the suit
 * letter is looked up in the suit-symbol table. A face-down card shows only
 * its back and its string is not read at all.
 */
module PlayingCard {

  import opened Optional
  import MockData

  /** `card.slice(-1)`: the last character, or "" for the empty string. */
  function Suit(card: string): (suit: string)
    ensures |suit| == (if card == "" then 0 else 1)
    ensures suit == card[|card| - |suit|..]
  {
    if |card| == 0 then "" else card[|card| - 1..]
  }

  /** `card.slice(0, -1)`: all but the last character, or "" for the empty string. */
  function Rank(card: string): (rank: string)
    ensures rank <= card
    ensures |rank| == (if card == "" then 0 else |card| - 1)
  {
    if |card| == 0 then "" else card[..|card| - 1]
  }

  /** Red are exactly the suits drawn with the heart and the diamond. */
  predicate IsRed(suit: string)
    ensures IsRed(suit) <==> SuitSymbol(suit) == Some("♥") || SuitSymbol(suit) == Some("♦")
  {
    suit == "h" || suit == "d"
  }

  /** `cardSuits[suit]`, which is `undefined` for a letter the table does not hold. */
  function SuitSymbol(suit: string): (symbol: Option<string>)
    ensures symbol.Some? ==> |suit| == 1 && symbol.value in {"♠", "♥", "♦", "♣"}
  {
    if suit in MockData.CardSuits then Some(MockData.CardSuits[suit]) else None
  }

  /** What one card shows. */
  datatype CardView =
    | Back
    | Face(rank: string, suit: string, isRed: bool, suitSymbol: Option<string>)

  function View(card: string, faceDown: bool): (v: CardView)
    ensures v.Back? <==> faceDown
    ensures v.Face? ==> v.rank + v.suit == card && |v.suit| <= 1
    ensures v.Face? ==> (v.isRed <==> v.suit == "h" || v.suit == "d")
    ensures v.Face? && card != "" ==> v.suit == [card[|card| - 1]]
  {
    if faceDown then Back
    else
      var suit := Suit(card);
      Face(Rank(card), suit, IsRed(suit), SuitSymbol(suit))
  }

  /** The split loses nothing: the rank followed by the suit is the card again, for every string. */
  lemma SplitRecombines(card: string)
    ensures Rank(card) + Suit(card) == card
    ensures |card| > 0 ==> |Suit(card)| == 1 && |Rank(card)| == |card| - 1
    ensures |card| == 0 ==> Suit(card) == "" && Rank(card) == ""
  {
  }

  /** A two-character rank stays whole. */
  lemma TenOfSpades()
    ensures Rank("10s") == "10" && Suit("10s") == "s"
    ensures View("10s", false) == Face("10", "s", false, Some("♠"))
  {
  }

  /** The four suit letters and nothing else have a symbol, and each has its own. */
  lemma SuitSymbolCases(suit: string)
    ensures SuitSymbol(suit).Some? <==> suit in {"s", "h", "d", "c"}
    ensures suit == "s" ==> SuitSymbol(suit) == Some("♠")
    ensures suit == "h" ==> SuitSymbol(suit) == Some("♥")
    ensures suit == "d" ==> SuitSymbol(suit) == Some("♦")
    ensures suit == "c" ==> SuitSymbol(suit) == Some("♣")
  {
  }

  /** The face-down view does not depend on the card string. */
  lemma FaceDownIgnoresCard(a: string, b: string)
    ensures View(a, true) == View(b, true) == Back
  {
  }
}
