/** The label of the deal button in `ActionPanel.tsx`, chosen by the number of community cards. */
module ActionPanel {

  const DealFlopLabel := "🎴 Deal Flop"
  const DealTurnLabel := "🎴 Deal Turn"
  const DealRiverLabel := "🎴 Deal River"
  const DealLabel := "🎴 Deal"

  /**
   * The button names the flop for an empty board, the turn for three cards,
   * the river for four, and falls back to a plain "Deal" for every other
   * count; each label belongs to exactly one of these cases.
   */
  function DealButtonText(communityCardsCount: int): (text: string)
    ensures text == DealFlopLabel <==> communityCardsCount == 0
    ensures text == DealTurnLabel <==> communityCardsCount == 3
    ensures text == DealRiverLabel <==> communityCardsCount == 4
    ensures text == DealLabel <==> communityCardsCount !in {0, 3, 4}
  {
    if communityCardsCount == 0 then DealFlopLabel
    else if communityCardsCount == 3 then DealTurnLabel
    else if communityCardsCount == 4 then DealRiverLabel
    else DealLabel
  }
}
