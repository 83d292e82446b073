/** The voting interface (src/components/VotingInterface.tsx): one card per deck value. */
module VotingInterface {
  import opened Wrappers
  import opened Types

  /** One card of the deck as rendered. */
  datatype CardView = CardView(value: VoteValue, selected: bool, disabled: bool, flipped: bool)

  /** The heading, the cards, and the "Your vote" line when it is shown. */
  datatype View = View(heading: string, cards: seq<CardView>, yourVote: Option<VoteValue>)

  function Render(currentVote: Option<VoteValue>, disabled: bool, votesRevealed: bool): (v: View)
    ensures v.heading == if votesRevealed then "Votes Revealed" else "Cast Your Vote"
    ensures |v.cards| == |FibonacciValues|
    ensures forall i :: 0 <= i < |v.cards| ==> v.cards[i].value == FibonacciValues[i]
    ensures forall i :: 0 <= i < |v.cards| ==> (v.cards[i].selected <==> currentVote == Some(FibonacciValues[i]))
    ensures forall i :: 0 <= i < |v.cards| ==> (v.cards[i].disabled <==> disabled || votesRevealed)
    ensures forall i :: 0 <= i < |v.cards| ==> v.cards[i].flipped == votesRevealed
    ensures v.yourVote.Some? <==> currentVote.Some? && !votesRevealed
    ensures v.yourVote.Some? ==> v.yourVote == currentVote
  {
    var n := |FibonacciValues|;
    View(if votesRevealed then "Votes Revealed" else "Cast Your Vote",
         seq(n, i requires 0 <= i < n =>
           CardView(FibonacciValues[i], currentVote == Some(FibonacciValues[i]), disabled || votesRevealed, votesRevealed)),
         if !votesRevealed then currentVote else None)
  }

  /** What a click on a card emits: the card's own value, unless the card is disabled. */
  function Click(c: CardView): (r: Option<VoteValue>)
    ensures r.Some? <==> !c.disabled
    ensures r.Some? ==> r.value == c.value
  {
    if c.disabled then None else Some(c.value)
  }

  /** At most one card is selected, and exactly one (the card of the current vote) when there is one. */
  lemma SelectedCard(currentVote: Option<VoteValue>, disabled: bool, votesRevealed: bool)
    ensures var cards := Render(currentVote, disabled, votesRevealed).cards;
      forall i, j :: 0 <= i < |cards| && 0 <= j < |cards| && cards[i].selected && cards[j].selected ==> i == j
    ensures var cards := Render(currentVote, disabled, votesRevealed).cards;
      currentVote.Some? ==> cards[IndexOf(currentVote.value)].selected && cards[IndexOf(currentVote.value)].value == currentVote.value
    ensures currentVote.None? ==> forall c :: c in Render(currentVote, disabled, votesRevealed).cards ==> !c.selected
  {
    FibonacciValuesDistinct();
  }

  /** Every vote value can be cast by clicking its card, as long as voting is open for this player. */
  lemma EveryValueClickable(currentVote: Option<VoteValue>, v: VoteValue)
    ensures Click(Render(currentVote, false, false).cards[IndexOf(v)]) == Some(v)
    ensures forall c :: c in Render(currentVote, true, false).cards ==> Click(c) == None
    ensures forall c :: c in Render(currentVote, false, true).cards ==> Click(c) == None
  {
  }
}
