/** The session hook (src/hooks/useSession.ts): a local projection of one session, kept up to date by
    the subscription callbacks, and the commands it issues against the shared database. */
module SessionHook {
  import opened Wrappers
  import opened Types
  import opened SessionStore

  /** The shared database, reduced to its `sessions` node. */
  class Database {
    var sessions: Store

    constructor (initial: Store)
      ensures sessions == initial
    {
      sessions := initial;
    }
  }

  /** Why a command was rejected. */
  datatype HookError =
    | SessionIdRequired   // joinSession without a session id
    | WriteRejected       // the database refused the write

  /** Builds the multi-path update of resetVotes from a snapshot, one vote path per player of the
      snapshot, in the way the source fills its `updates` dictionary. */
  method BuildResetUpdates(snapshot: SessionData) returns (u: MultiPathUpdate)
    ensures !u.votesRevealed
    ensures u.currentRound == snapshot.session.currentRound + 1
    ensures u.votes.Keys == snapshot.players.Keys
    ensures forall k :: k in u.votes ==> u.votes[k] == None
  {
    var votes: map<PlayerId, Option<VoteValue>> := map[];
    var pending := snapshot.players.Keys;
    while pending != {}
      invariant pending <= snapshot.players.Keys
      invariant votes.Keys == snapshot.players.Keys - pending
      invariant forall k :: k in votes ==> votes[k] == None
      decreases pending
    {
      var pid :| pid in pending;
      votes := votes[pid := None];
      pending := pending - {pid};
    }
    u := MultiPathUpdate(false, snapshot.session.currentRound + 1, votes);
  }

  /** The state one use of the hook holds. */
  class SessionHook {
    const db: Database
    const sessionId: SessionId
    var sessionData: Option<SessionData>
    var loading: bool
    var error: Option<string>

    /** A fresh hook: nothing projected yet, loading. */
    constructor (db: Database, sessionId: SessionId)
      ensures this.db == db && this.sessionId == sessionId
      ensures sessionData == None && loading && error == None
    {
      this.db := db;
      this.sessionId := sessionId;
      sessionData := None;
      loading := true;
      error := None;
    }

    /** The subscription effect: with no session id nothing is subscribed and loading ends;
        otherwise the callbacks below take over and nothing changes yet. */
    method Subscribe()
      modifies this
      ensures sessionId == "" ==> !loading
      ensures sessionId != "" ==> loading == old(loading)
      ensures sessionData == old(sessionData) && error == old(error)
    {
      if sessionId == "" {
        loading := false;
      }
    }

    /** The value callback: an existing snapshot replaces the projection wholesale and clears the
        error; a missing one clears the projection and keeps the error. Loading ends either way. */
    method OnSnapshot(snapshot: Option<SessionData>)
      requires sessionId != ""
      modifies this
      ensures sessionData == snapshot
      ensures error == if snapshot.Some? then None else old(error)
      ensures !loading
    {
      if snapshot.Some? {
        sessionData := snapshot;
        error := None;
      } else {
        sessionData := None;
      }
      loading := false;
    }

    /** The error callback: the message is recorded, the projection is kept, loading ends. */
    method OnError(message: string)
      requires sessionId != ""
      modifies this
      ensures error == Some(message)
      ensures sessionData == old(sessionData)
      ensures !loading
    {
      error := Some(message);
      loading := false;
    }

    /** The database delivers its current value for the subscribed path. */
    method Sync()
      requires sessionId != ""
      modifies this
      ensures sessionData == Snapshot(db.sessions, sessionId)
      ensures error == if sessionId in db.sessions then None else old(error)
      ensures !loading
    {
      OnSnapshot(Snapshot(db.sessions, sessionId));
    }

    /** The heartbeat write: the local player's lastSeen, when there is a session and a player. */
    method Heartbeat(localPlayer: Option<LocalPlayer>, now: int)
      modifies db
      ensures db.sessions == if sessionId == "" || localPlayer.None? then old(db.sessions)
                             else SetLastSeen(old(db.sessions), sessionId, localPlayer.value.id, now)
    {
      if sessionId == "" || localPlayer.None? {
        return;
      }
      db.sessions := SetLastSeen(db.sessions, sessionId, localPlayer.value.id, now);
    }

    /** createSession: writes a new aggregate under a fresh key, with the creator as its single admin
        player, and returns the key. It does not use the hook's own session id. */
    method CreateSession(adminName: string, key: SessionId, adminId: PlayerId, createdAt: int, lastSeen: int,
                         accepted: bool)
      returns (r: Result<SessionId, HookError>)
      requires key !in db.sessions
      modifies db
      ensures accepted ==> r == Success(key)
      ensures accepted ==> db.sessions == PutSession(old(db.sessions), key, NewSession(key, adminId, adminName, createdAt, lastSeen))
      ensures !accepted ==> r == Failure(WriteRejected) && db.sessions == old(db.sessions)
    {
      if !accepted {
        return Failure(WriteRejected);
      }
      db.sessions := PutSession(db.sessions, key, NewSession(key, adminId, adminName, createdAt, lastSeen));
      r := Success(key);
    }

    /** joinSession: without a session id it fails and writes nothing; otherwise it adds one
        non-admin player without a vote under a fresh id and returns that id. */
    method JoinSession(playerName: string, playerId: PlayerId, now: int) returns (r: Result<PlayerId, HookError>)
      requires sessionId in db.sessions ==> playerId !in db.sessions[sessionId].players
      modifies db
      ensures sessionId == "" ==> r == Failure(SessionIdRequired) && db.sessions == old(db.sessions)
      ensures sessionId != "" ==> r == Success(playerId)
      ensures sessionId != "" ==> db.sessions == PutPlayer(old(db.sessions), sessionId, Player(playerId, playerName, None, false, now))
    {
      if sessionId == "" {
        return Failure(SessionIdRequired);
      }
      db.sessions := PutPlayer(db.sessions, sessionId, Player(playerId, playerName, None, false, now));
      r := Success(playerId);
    }

    /** castVote: sets one player's vote; a no-op without a session id. */
    method CastVote(playerId: PlayerId, vote: VoteValue)
      modifies db
      ensures db.sessions == if sessionId == "" then old(db.sessions) else SetVote(old(db.sessions), sessionId, playerId, vote)
    {
      if sessionId == "" {
        return;
      }
      db.sessions := SetVote(db.sessions, sessionId, playerId, vote);
    }

    /** revealVotes: sets the reveal flag; a no-op without a session id. No admin check is made. */
    method RevealVotes()
      modifies db
      ensures db.sessions == if sessionId == "" then old(db.sessions) else SetRevealed(old(db.sessions), sessionId)
    {
      if sessionId == "" {
        return;
      }
      db.sessions := SetRevealed(db.sessions, sessionId);
    }

    /** resetVotes: a no-op without a session id or before the first snapshot; otherwise one
        multi-path write built from the HELD snapshot, not from the database. No admin check is made. */
    method ResetVotes()
      modifies db
      ensures db.sessions == if sessionId == "" || sessionData.None? then old(db.sessions)
                             else ResetWrite(old(db.sessions), sessionId, sessionData.value)
    {
      if sessionId == "" || sessionData.None? {
        return;
      }
      var updates := BuildResetUpdates(sessionData.value);
      assert updates == ResetUpdate(sessionData.value);
      db.sessions := ApplyUpdate(db.sessions, sessionId, updates);
    }

    /** removePlayer: deletes one player entry; a no-op without a session id. */
    method RemovePlayer(playerId: PlayerId)
      modifies db
      ensures db.sessions == if sessionId == "" then old(db.sessions) else SessionStore.RemovePlayer(old(db.sessions), sessionId, playerId)
    {
      if sessionId == "" {
        return;
      }
      db.sessions := SessionStore.RemovePlayer(db.sessions, sessionId, playerId);
    }
  }

  /** Resetting n times, with the snapshot refreshed from the database before each reset, advances
      the round by exactly n. */
  method ResetRounds(hook: SessionHook, n: nat)
    requires hook.sessionId != "" && hook.sessionId in hook.db.sessions
    modifies hook, hook.db
    ensures hook.sessionId in hook.db.sessions
    ensures hook.db.sessions[hook.sessionId].session.currentRound == old(hook.db.sessions[hook.sessionId].session.currentRound) + n
    ensures hook.db.sessions == Resets(old(hook.db.sessions), hook.sessionId, n)
  {
    ghost var start := hook.db.sessions;
    var i := 0;
    while i < n
      invariant 0 <= i <= n
      invariant hook.sessionId in hook.db.sessions
      invariant Resets(start, hook.sessionId, n) == Resets(hook.db.sessions, hook.sessionId, n - i)
      decreases n - i
    {
      hook.Sync();
      hook.ResetVotes();
      i := i + 1;
    }
    RoundAfterResets(start, hook.sessionId, n);
  }
}
