/** The player list (src/components/PlayerList.tsx): one tile per player, whose vote is shown only
    once the votes are revealed. */
module PlayerList {
  import opened Wrappers
  import opened Types

  /** The right-hand side of a tile: exactly one of the three. */
  datatype Status = ShowsVote(vote: VoteValue) | VotedHidden | Waiting

  /** One tile: name, the green "voted" dot, the badges, the highlight of the local player, status. */
  datatype Tile = Tile(id: PlayerId, name: string, votedDot: bool, adminBadge: bool, youBadge: bool,
                       highlighted: bool, status: Status)

  /** The heading's count and the tiles. */
  datatype View = View(count: nat, tiles: seq<Tile>)

  predicate HasVoted(p: Player)
  {
    p.vote.Some?
  }

  /** The value is displayed only when votes are revealed and the player voted; a vote cast but
      hidden shows as "Voted"; no vote shows "Waiting...". */
  function PlayerStatus(p: Player, votesRevealed: bool): (s: Status)
    ensures s.ShowsVote? <==> votesRevealed && HasVoted(p)
    ensures s.ShowsVote? ==> p.vote == Some(s.vote)
    ensures s.VotedHidden? <==> !votesRevealed && HasVoted(p)
    ensures s.Waiting? <==> !HasVoted(p)
  {
    if votesRevealed && HasVoted(p) then ShowsVote(p.vote.value)
    else if HasVoted(p) then VotedHidden
    else Waiting
  }

  function PlayerTile(p: Player, votesRevealed: bool, currentPlayerId: Option<PlayerId>): (t: Tile)
    ensures t.id == p.id && t.name == p.name
    ensures t.votedDot <==> HasVoted(p)
    ensures t.adminBadge <==> p.isAdmin
    ensures t.youBadge <==> currentPlayerId == Some(p.id)
    ensures t.highlighted == t.youBadge
    ensures t.status == PlayerStatus(p, votesRevealed)
  {
    var isCurrent := currentPlayerId == Some(p.id);
    Tile(p.id, p.name, HasVoted(p), p.isAdmin, isCurrent, isCurrent, PlayerStatus(p, votesRevealed))
  }

  /** The list over `Object.values(players)`: the count is the number of entries, one tile each, in order. */
  function Render(players: seq<Player>, votesRevealed: bool, currentPlayerId: Option<PlayerId>): (v: View)
    ensures v.count == |players| && |v.tiles| == |players|
    ensures forall i :: 0 <= i < |players| ==> v.tiles[i] == PlayerTile(players[i], votesRevealed, currentPlayerId)
  {
    View(|players|, seq(|players|, i requires 0 <= i < |players| => PlayerTile(players[i], votesRevealed, currentPlayerId)))
  }

  /** Two players that differ at most in WHICH value they voted (not in whether they voted). */
  predicate SameButVoteValue(p: Player, q: Player)
  {
    p.(vote := None) == q.(vote := None) && HasVoted(p) == HasVoted(q)
  }

  /** Vote secrecy: before the reveal, the list is the same whatever values were voted. */
  lemma {:induction false} RenderHidesVotes(ps: seq<Player>, qs: seq<Player>, currentPlayerId: Option<PlayerId>)
    requires |ps| == |qs|
    requires forall i :: 0 <= i < |ps| ==> SameButVoteValue(ps[i], qs[i])
    ensures Render(ps, false, currentPlayerId) == Render(qs, false, currentPlayerId)
  {
    var a, b := Render(ps, false, currentPlayerId), Render(qs, false, currentPlayerId);
    forall i | 0 <= i < |ps| ensures a.tiles[i] == b.tiles[i] {
      assert ps[i].id == ps[i].(vote := None).id && qs[i].id == qs[i].(vote := None).id;
      assert ps[i].name == ps[i].(vote := None).name && qs[i].name == qs[i].(vote := None).name;
      assert ps[i].isAdmin == ps[i].(vote := None).isAdmin && qs[i].isAdmin == qs[i].(vote := None).isAdmin;
    }
  }

  /** The ids of the entries, in list order. */
  function Ids(ps: seq<Player>): (ids: seq<PlayerId>)
    ensures |ids| == |ps| && forall i :: 0 <= i < |ps| ==> ids[i] == ps[i].id
  {
    seq(|ps|, i requires 0 <= i < |ps| => ps[i].id)
  }

  /** When the entries carry distinct ids, at most one tile has the "You" badge. */
  lemma AtMostOneYouBadge(ps: seq<Player>, votesRevealed: bool, currentPlayerId: Option<PlayerId>)
    requires Distinct(Ids(ps))
    ensures var tiles := Render(ps, votesRevealed, currentPlayerId).tiles;
      forall i, j :: 0 <= i < |tiles| && 0 <= j < |tiles| && tiles[i].youBadge && tiles[j].youBadge ==> i == j
  {
  }
}
