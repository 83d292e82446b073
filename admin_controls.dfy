/** The admin controls (src/components/AdminControls.tsx): a reveal button guarded by the round's
    state and an unguarded "New Round" button. */
module AdminControls {
  import opened Wrappers

  /** The two handlers the page passes in. */
  datatype Handler = OnReveal | OnReset

  /** One rendered button: whether it is disabled, whether it is drawn greyed out, what it calls. */
  datatype Button = Button(caption: string, disabled: bool, greyed: bool, onClick: Handler)

  datatype Controls = Controls(revealButton: Button, resetButton: Button)

  function Render(votesRevealed: bool, hasVotes: bool): (c: Controls)
    ensures c.revealButton.disabled <==> !hasVotes || votesRevealed
    ensures c.revealButton.greyed == c.revealButton.disabled
    ensures !c.resetButton.disabled && !c.resetButton.greyed
    ensures c.revealButton.onClick == OnReveal && c.resetButton.onClick == OnReset
  {
    var guard := !hasVotes || votesRevealed;
    Controls(Button("Reveal Votes", guard, guard, OnReveal),
             Button("New Round", false, false, OnReset))
  }

  /** What a click on a button calls: its own handler when enabled, nothing when disabled. */
  function Click(b: Button): (h: Option<Handler>)
    ensures h.Some? <==> !b.disabled
    ensures h.Some? ==> h.value == b.onClick
  {
    if b.disabled then None else Some(b.onClick)
  }

  /** Reveal can be requested exactly while voting is open and somebody has voted; a new round can
      be requested in every state, also while still voting. */
  lemma RevealGuard(votesRevealed: bool, hasVotes: bool)
    ensures Click(Render(votesRevealed, hasVotes).revealButton) == Some(OnReveal) <==> !votesRevealed && hasVotes
    ensures Click(Render(votesRevealed, hasVotes).revealButton) != Some(OnReset)
    ensures Click(Render(votesRevealed, hasVotes).resetButton) == Some(OnReset)
  {
  }
}
