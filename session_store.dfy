/** The writes the session hook issues against the database (src/hooks/useSession.ts),
    each as a function from the old contents of `sessions` to the new. */
module SessionStore {
  import opened Wrappers
  import opened Types

  /** The `sessions` node of the database: one aggregate per session id. */
  type Store = map<SessionId, SessionData>

  /** Every stored aggregate carries its own key and is well formed. */
  predicate ValidStore(store: Store)
  {
    forall s :: s in store ==> store[s].session.id == s && WellFormed(store[s])
  }

  /** What a subscription to `sessions/<sid>` delivers: the aggregate, or nothing. */
  function Snapshot(store: Store, sid: SessionId): (r: Option<SessionData>)
    ensures r.Some? <==> sid in store
    ensures r.Some? ==> r.value == store[sid]
  {
    if sid in store then Some(store[sid]) else None
  }

  /** The aggregate createSession writes: round 1, not revealed, the creator as sole (admin) player. */
  function NewSession(sid: SessionId, adminId: PlayerId, adminName: string, createdAt: int, lastSeen: int): (d: SessionData)
    ensures d.session.id == sid && d.session.adminId == adminId && d.session.createdAt == createdAt
    ensures !d.session.votesRevealed && d.session.currentRound == 1
    ensures d.players.Keys == {adminId}
    ensures d.players[adminId].id == adminId && d.players[adminId].name == adminName
    ensures d.players[adminId].isAdmin && d.players[adminId].vote == None && d.players[adminId].lastSeen == lastSeen
    ensures WellFormed(d)
  {
    SessionData(Session(sid, createdAt, adminId, false, 1),
                map[adminId := Player(adminId, adminName, None, true, lastSeen)])
  }

  /** `set(sessions/<sid>, d)`: the aggregate at sid becomes d, every other session is untouched. */
  function PutSession(store: Store, sid: SessionId, d: SessionData): (r: Store)
    ensures r.Keys == store.Keys + {sid}
    ensures r[sid] == d
    ensures forall s :: s in store && s != sid ==> r[s] == store[s]
  {
    store[sid := d]
  }

  /** `set(sessions/<sid>/players/<p.id>, p)`: one entry is added or replaced, nothing else changes.
      A missing session is left missing. */
  function PutPlayer(store: Store, sid: SessionId, p: Player): (r: Store)
    ensures r.Keys == store.Keys
    ensures forall s :: s in store && s != sid ==> r[s] == store[s]
    ensures sid !in store ==> r == store
    ensures sid in store ==> r[sid].session == store[sid].session
    ensures sid in store ==> r[sid].players.Keys == store[sid].players.Keys + {p.id}
    ensures sid in store ==> r[sid].players[p.id] == p
    ensures sid in store ==> forall q :: q in store[sid].players && q != p.id ==> r[sid].players[q] == store[sid].players[q]
  {
    if sid in store then store[sid := store[sid].(players := store[sid].players[p.id := p])] else store
  }

  /** `set(sessions/<sid>/players/<pid>/vote, v)`: only that player's vote changes. */
  function SetVote(store: Store, sid: SessionId, pid: PlayerId, v: VoteValue): (r: Store)
    ensures r.Keys == store.Keys
    ensures forall s :: s in store && s != sid ==> r[s] == store[s]
    ensures sid !in store || pid !in store[sid].players ==> r == store
    ensures sid in store ==> r[sid].session == store[sid].session
    ensures sid in store ==> r[sid].players.Keys == store[sid].players.Keys
    ensures sid in store && pid in store[sid].players ==> r[sid].players[pid] == store[sid].players[pid].(vote := Some(v))
    ensures sid in store ==> forall q :: q in store[sid].players && q != pid ==> r[sid].players[q] == store[sid].players[q]
  {
    if sid in store && pid in store[sid].players then
      var d := store[sid];
      store[sid := d.(players := d.players[pid := d.players[pid].(vote := Some(v))])]
    else
      store
  }

  /** `set(sessions/<sid>/session/votesRevealed, true)`: only the reveal flag changes. */
  function SetRevealed(store: Store, sid: SessionId): (r: Store)
    ensures r.Keys == store.Keys
    ensures forall s :: s in store && s != sid ==> r[s] == store[s]
    ensures sid in store ==> r[sid].players == store[sid].players
    ensures sid in store ==> r[sid].session.votesRevealed
    ensures sid in store ==> r[sid].session == store[sid].session.(votesRevealed := true)
  {
    if sid in store then
      var d := store[sid];
      store[sid := d.(session := d.session.(votesRevealed := true))]
    else
      store
  }

  /** `update(playerRef, {lastSeen: t})`, the heartbeat: only that player's lastSeen changes. */
  function SetLastSeen(store: Store, sid: SessionId, pid: PlayerId, t: int): (r: Store)
    ensures r.Keys == store.Keys
    ensures forall s :: s in store && s != sid ==> r[s] == store[s]
    ensures sid !in store || pid !in store[sid].players ==> r == store
    ensures sid in store ==> r[sid].session == store[sid].session
    ensures sid in store ==> r[sid].players.Keys == store[sid].players.Keys
    ensures sid in store && pid in store[sid].players ==> r[sid].players[pid] == store[sid].players[pid].(lastSeen := t)
    ensures sid in store ==> forall q :: q in store[sid].players && q != pid ==> r[sid].players[q] == store[sid].players[q]
  {
    if sid in store && pid in store[sid].players then
      var d := store[sid];
      store[sid := d.(players := d.players[pid := d.players[pid].(lastSeen := t)])]
    else
      store
  }

  /** `remove(sessions/<sid>/players/<pid>)`: exactly that entry disappears. */
  function RemovePlayer(store: Store, sid: SessionId, pid: PlayerId): (r: Store)
    ensures r.Keys == store.Keys
    ensures forall s :: s in store && s != sid ==> r[s] == store[s]
    ensures sid in store ==> r[sid].session == store[sid].session
    ensures sid in store ==> r[sid].players.Keys == store[sid].players.Keys - {pid}
    ensures sid in store ==> forall q :: q in r[sid].players ==> r[sid].players[q] == store[sid].players[q]
  {
    if sid in store then
      var d := store[sid];
      store[sid := d.(players := d.players - {pid})]
    else
      store
  }

  /** The multi-path write resetVotes submits: the two session fields and one vote path per player. */
  datatype MultiPathUpdate = MultiPathUpdate(votesRevealed: bool, currentRound: int, votes: map<PlayerId, Option<VoteValue>>)

  /** `update(ref(database), updates)` restricted to one session: both session fields are set and every
      listed player that is present gets the listed vote; players not listed keep theirs. */
  function ApplyUpdate(store: Store, sid: SessionId, u: MultiPathUpdate): (r: Store)
    ensures r.Keys == store.Keys
    ensures forall s :: s in store && s != sid ==> r[s] == store[s]
    ensures sid in store ==> r[sid].session == store[sid].session.(votesRevealed := u.votesRevealed, currentRound := u.currentRound)
    ensures sid in store ==> r[sid].players.Keys == store[sid].players.Keys
    ensures sid in store ==> forall k :: k in store[sid].players && k in u.votes ==> r[sid].players[k] == store[sid].players[k].(vote := u.votes[k])
    ensures sid in store ==> forall k :: k in store[sid].players && k !in u.votes ==> r[sid].players[k] == store[sid].players[k]
  {
    if sid in store then
      var d := store[sid];
      var players := map k | k in d.players :: if k in u.votes then d.players[k].(vote := u.votes[k]) else d.players[k];
      store[sid := SessionData(d.session.(votesRevealed := u.votesRevealed, currentRound := u.currentRound), players)]
    else
      store
  }

  /** The update resetVotes builds from a held snapshot: hide the votes, next round, clear the vote of
      every player the snapshot knows. */
  function ResetUpdate(snapshot: SessionData): (u: MultiPathUpdate)
    ensures !u.votesRevealed && u.currentRound == snapshot.session.currentRound + 1
    ensures u.votes.Keys == snapshot.players.Keys
    ensures forall k :: k in u.votes ==> u.votes[k] == None
  {
    MultiPathUpdate(false, snapshot.session.currentRound + 1, map k | k in snapshot.players :: None)
  }

  /** The effect of resetVotes on the store, given the snapshot the hook held when it was issued. */
  function ResetWrite(store: Store, sid: SessionId, snapshot: SessionData): (r: Store)
    ensures r.Keys == store.Keys
    ensures forall s :: s in store && s != sid ==> r[s] == store[s]
    ensures sid in store ==> !r[sid].session.votesRevealed
    ensures sid in store ==> r[sid].session.currentRound == snapshot.session.currentRound + 1
    ensures sid in store ==> r[sid].session == store[sid].session.(votesRevealed := false, currentRound := snapshot.session.currentRound + 1)
    ensures sid in store ==> r[sid].players.Keys == store[sid].players.Keys
    ensures sid in store ==> forall k :: k in store[sid].players && k in snapshot.players ==> r[sid].players[k] == store[sid].players[k].(vote := None)
    ensures sid in store ==> forall k :: k in store[sid].players && k !in snapshot.players ==> r[sid].players[k] == store[sid].players[k]
  {
    ApplyUpdate(store, sid, ResetUpdate(snapshot))
  }

  /** Revealing twice is revealing once. */
  lemma RevealIdempotent(store: Store, sid: SessionId)
    ensures SetRevealed(SetRevealed(store, sid), sid) == SetRevealed(store, sid)
  {
  }

  /** A reset from an up-to-date snapshot ends the round: votes hidden, round advanced by one,
      nobody has a vote. */
  lemma ResetFromFreshSnapshot(store: Store, sid: SessionId)
    requires sid in store
    ensures var r := ResetWrite(store, sid, store[sid]);
      && !r[sid].session.votesRevealed
      && r[sid].session.currentRound == store[sid].session.currentRound + 1
      && (forall k :: k in r[sid].players ==> r[sid].players[k].vote == None)
      && !AnyVoted(r[sid].players)
  {
  }

  /** n resets in a row, each issued from a snapshot refreshed to the store. */
  function Resets(store: Store, sid: SessionId, n: nat): (r: Store)
    requires sid in store
    ensures sid in r
    decreases n
  {
    if n == 0 then store else Resets(ResetWrite(store, sid, store[sid]), sid, n - 1)
  }

  /** Starting from round R, n resets with refreshed snapshots give round R + n, and the session keeps
      its player entries. */
  lemma {:induction false} RoundAfterResets(store: Store, sid: SessionId, n: nat)
    requires sid in store
    ensures Resets(store, sid, n)[sid].session.currentRound == store[sid].session.currentRound + n
    ensures Resets(store, sid, n)[sid].players.Keys == store[sid].players.Keys
    decreases n
  {
    if n > 0 {
      RoundAfterResets(ResetWrite(store, sid, store[sid]), sid, n - 1);
    }
  }

  /** Last writer wins: a vote cast after the snapshot was taken is wiped by the reset built from it. */
  lemma ResetOverwritesLaterVote(store: Store, sid: SessionId, pid: PlayerId, v: VoteValue)
    requires sid in store && pid in store[sid].players
    ensures ResetWrite(SetVote(store, sid, pid, v), sid, store[sid])[sid].players[pid].vote == None
  {
  }

  /** A player who joined after the snapshot was taken keeps its vote through the reset. */
  lemma ResetKeepsLaterJoiner(store: Store, sid: SessionId, p: Player, v: VoteValue)
    requires sid in store && p.id !in store[sid].players
    ensures var joined := SetVote(PutPlayer(store, sid, p), sid, p.id, v);
      ResetWrite(joined, sid, store[sid])[sid].players[p.id].vote == Some(v)
  {
  }

  /** With a stale snapshot the round can go down: the store already holds round 5, the snapshot
      still says 3, and the reset writes 4. */
  lemma StaleResetCanLowerRound()
    ensures exists store: Store, sid: SessionId, snapshot: SessionData ::
      sid in store && ResetWrite(store, sid, snapshot)[sid].session.currentRound < store[sid].session.currentRound
  {
    var current := SessionData(Session("s", 0, "a", true, 5), map[]);
    var stale := SessionData(Session("s", 0, "a", true, 3), map[]);
    var store := map["s" := current];
    assert ResetWrite(store, "s", stale)["s"].session.currentRound == 4;
  }

  /** Creating a session keeps the store valid. */
  lemma CreatePreservesValid(store: Store, sid: SessionId, adminId: PlayerId, name: string, createdAt: int, lastSeen: int)
    requires ValidStore(store) && sid !in store
    ensures ValidStore(PutSession(store, sid, NewSession(sid, adminId, name, createdAt, lastSeen)))
  {
  }

  /** Joining as a non-admin player under its own id keeps the store valid. */
  lemma JoinPreservesValid(store: Store, sid: SessionId, p: Player)
    requires ValidStore(store) && !p.isAdmin
    ensures ValidStore(PutPlayer(store, sid, p))
  {
  }

  /** Voting keeps the store valid. */
  lemma VotePreservesValid(store: Store, sid: SessionId, pid: PlayerId, v: VoteValue)
    requires ValidStore(store)
    ensures ValidStore(SetVote(store, sid, pid, v))
  {
  }

  /** Revealing keeps the store valid. */
  lemma RevealPreservesValid(store: Store, sid: SessionId)
    requires ValidStore(store)
    ensures ValidStore(SetRevealed(store, sid))
  {
  }

  /** Removing a player keeps the store valid. */
  lemma RemovePreservesValid(store: Store, sid: SessionId, pid: PlayerId)
    requires ValidStore(store)
    ensures ValidStore(RemovePlayer(store, sid, pid))
  {
  }

  /** The heartbeat keeps the store valid. */
  lemma HeartbeatPreservesValid(store: Store, sid: SessionId, pid: PlayerId, t: int)
    requires ValidStore(store)
    ensures ValidStore(SetLastSeen(store, sid, pid, t))
  {
  }

  /** A reset from any snapshot whose round is not negative keeps the store valid. */
  lemma ResetPreservesValid(store: Store, sid: SessionId, snapshot: SessionData)
    requires ValidStore(store) && snapshot.session.currentRound >= 0
    ensures ValidStore(ResetWrite(store, sid, snapshot))
  {
  }
}
