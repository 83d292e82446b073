/** The session page (src/pages/SessionPage.tsx): what it derives from the projection, how it
    renders, and the join and vote handlers. */
module SessionPage {
  import opened Wrappers
  import opened Types
  import opened SessionStore
  import opened SessionHook
  import opened BrowserState
  import AdminControls
  import PlayerList
  import VotingInterface

  // ---------------------------------------------------------------------------------------------
  // Object.values(players): the entries in the order the runtime enumerates their keys.

  /** `order` lists every key of `players` exactly once. */
  predicate IsEnumeration(players: map<PlayerId, Player>, order: seq<PlayerId>)
  {
    && Distinct(order)
    && (forall k :: k in players ==> k in order)
    && (forall k :: k in order ==> k in players)
  }

  function PlayerValues(players: map<PlayerId, Player>, order: seq<PlayerId>): (ps: seq<Player>)
    requires forall k :: k in order ==> k in players
    ensures |ps| == |order|
    ensures forall i :: 0 <= i < |order| ==> ps[i] == players[order[i]]
  {
    seq(|order|, i requires 0 <= i < |order| => players[order[i]])
  }

  lemma {:induction false} DistinctCardinality(order: seq<PlayerId>)
    requires Distinct(order)
    ensures |set k | k in order| == |order|
    decreases |order|
  {
    if order != [] {
      DistinctCardinality(order[1..]);
      assert (set k | k in order) == {order[0]} + (set k | k in order[1..]);
    }
  }

  /** The list has one entry per player. */
  lemma EnumerationSize(players: map<PlayerId, Player>, order: seq<PlayerId>)
    requires IsEnumeration(players, order)
    ensures |PlayerValues(players, order)| == |players|
  {
    DistinctCardinality(order);
    assert players.Keys == set k | k in order;
  }

  // ---------------------------------------------------------------------------------------------
  // Derived values.

  /** `Object.values(players).some(p => p.vote !== null)`. */
  function HasVotes(ps: seq<Player>): (b: bool)
    ensures b <==> exists i :: 0 <= i < |ps| && ps[i].vote.Some?
    decreases |ps|
  {
    if ps == [] then false
    else if ps[0].vote.Some? then true
    else
      var rest := HasVotes(ps[1..]);
      assert rest ==> exists i :: 0 <= i < |ps| && ps[i].vote.Some? by {
        if rest {
          var i :| 0 <= i < |ps[1..]| && ps[1..][i].vote.Some?;
          assert ps[i + 1] == ps[1..][i];
        }
      }
      rest
  }

  /** hasVotes holds exactly when some player has a vote, whatever order the entries come in. */
  lemma HasVotesIffAnyVoted(players: map<PlayerId, Player>, order: seq<PlayerId>)
    requires IsEnumeration(players, order)
    ensures HasVotes(PlayerValues(players, order)) <==> AnyVoted(players)
  {
    var ps := PlayerValues(players, order);
    if AnyVoted(players) {
      var k :| k in players && players[k].vote.Some?;
      var i :| 0 <= i < |order| && order[i] == k;
      assert ps[i].vote.Some?;
    }
  }

  /** The entry of the local token's id, if the token exists and names an entry. */
  function CurrentPlayer(d: SessionData, local: Option<LocalPlayer>): (r: Option<Player>)
    ensures r.Some? <==> local.Some? && local.value.id in d.players
    ensures r.Some? ==> r.value == d.players[local.value.id]
  {
    if local.Some? && local.value.id in d.players then Some(d.players[local.value.id]) else None
  }

  /** The admin flag of that entry; false without a token or without an entry. The token's role is
      not consulted. */
  function IsAdmin(d: SessionData, local: Option<LocalPlayer>): (b: bool)
    ensures b <==> local.Some? && local.value.id in d.players && d.players[local.value.id].isAdmin
  {
    match CurrentPlayer(d, local)
    case Some(p) => p.isAdmin
    case None => false
  }

  /** The local player's own vote, if any. */
  function CurrentVote(d: SessionData, local: Option<LocalPlayer>): (r: Option<VoteValue>)
    ensures local.Some? && local.value.id in d.players ==> r == d.players[local.value.id].vote
    ensures local.None? || local.value.id !in d.players ==> r == None
  {
    match CurrentPlayer(d, local)
    case Some(p) => p.vote
    case None => None
  }

  /** In a well-formed session, whoever sees the admin controls holds the session's adminId as its
      token id; the role written into the token makes no difference. */
  lemma AdminIsAdminId(d: SessionData, t: LocalPlayer, role: UserRole)
    requires WellFormed(d)
    ensures IsAdmin(d, Some(t)) ==> t.id == d.session.adminId
    ensures IsAdmin(d, Some(t.(role := role))) == IsAdmin(d, Some(t))
  {
  }

  // ---------------------------------------------------------------------------------------------
  // The summary tally: filter the players that voted, then reduce into a count per value.

  /** `.filter(p => p.vote !== null)` followed by `player.vote!`. */
  function CastVotes(ps: seq<Player>): (vs: seq<VoteValue>)
    decreases |ps|
  {
    if ps == [] then []
    else (if ps[0].vote.Some? then [ps[0].vote.value] else []) + CastVotes(ps[1..])
  }

  function Get(t: map<VoteValue, nat>, v: VoteValue): nat
  {
    if v in t then t[v] else 0
  }

  /** The reducer: `acc[vote] = (acc[vote] || 0) + 1`, left to right. */
  function TallyFrom(acc: map<VoteValue, nat>, vs: seq<VoteValue>): map<VoteValue, nat>
    decreases |vs|
  {
    if vs == [] then acc else TallyFrom(acc[vs[0] := Get(acc, vs[0]) + 1], vs[1..])
  }

  function Tally(ps: seq<Player>): map<VoteValue, nat>
  {
    TallyFrom(map[], CastVotes(ps))
  }

  /** The reduce adds, for each value, the number of its occurrences; it adds no value that does not occur. */
  lemma {:induction false} TallyFromCounts(acc: map<VoteValue, nat>, vs: seq<VoteValue>)
    ensures forall v :: v in TallyFrom(acc, vs) <==> v in acc || v in multiset(vs)
    ensures forall v :: Get(TallyFrom(acc, vs), v) == Get(acc, v) + multiset(vs)[v]
    decreases |vs|
  {
    if vs != [] {
      TallyFromCounts(acc[vs[0] := Get(acc, vs[0]) + 1], vs[1..]);
      assert vs == [vs[0]] + vs[1..];
      assert multiset(vs) == multiset{vs[0]} + multiset(vs[1..]);
    }
  }

  /** The sum of the counts of a tally over a list of values. */
  function SumOver(t: map<VoteValue, nat>, ds: seq<VoteValue>): nat
    decreases |ds|
  {
    if ds == [] then 0 else Get(t, ds[0]) + SumOver(t, ds[1..])
  }

  lemma {:induction false} SumOverBump(t: map<VoteValue, nat>, ds: seq<VoteValue>, v: VoteValue)
    requires Distinct(ds)
    ensures SumOver(t[v := Get(t, v) + 1], ds) == SumOver(t, ds) + (if v in ds then 1 else 0)
    decreases |ds|
  {
    if ds != [] {
      SumOverBump(t, ds[1..], v);
      if ds[0] == v {
        forall j | 0 <= j < |ds[1..]| ensures ds[1..][j] != v {
          assert ds[1..][j] == ds[j + 1];
        }
      }
    }
  }

  /** Each reduce step adds exactly one to the sum of the counts over a deck holding every value once. */
  lemma {:induction false} TallyFromTotal(acc: map<VoteValue, nat>, vs: seq<VoteValue>, deck: seq<VoteValue>)
    requires Distinct(deck)
    requires forall v :: v in deck
    ensures SumOver(TallyFrom(acc, vs), deck) == SumOver(acc, deck) + |vs|
    decreases |vs|
  {
    if vs != [] {
      SumOverBump(acc, deck, vs[0]);
      TallyFromTotal(acc[vs[0] := Get(acc, vs[0]) + 1], vs[1..], deck);
    }
  }

  /** The whole deck holds every value. */
  lemma DeckComplete()
    ensures forall v :: v in FibonacciValues
    ensures Distinct(FibonacciValues)
  {
    FibonacciValuesDistinct();
    forall v ensures v in FibonacciValues {
      var i := IndexOf(v);
    }
  }

  lemma {:induction false} ZeroSum(ds: seq<VoteValue>)
    ensures SumOver(map[], ds) == 0
    decreases |ds|
  {
    if ds != [] {
      ZeroSum(ds[1..]);
    }
  }

  /** The players listed in `order` that voted `v`, and those that voted at all. */
  ghost function VotersIn(players: map<PlayerId, Player>, order: seq<PlayerId>, v: VoteValue): set<PlayerId>
  {
    set k | k in order && k in players && players[k].vote == Some(v)
  }

  ghost function AllVotersIn(players: map<PlayerId, Player>, order: seq<PlayerId>): set<PlayerId>
  {
    set k | k in order && k in players && players[k].vote.Some?
  }

  /** The players that voted `v`, and those that voted at all. */
  ghost function Voters(players: map<PlayerId, Player>, v: VoteValue): set<PlayerId>
  {
    set k | k in players && players[k].vote == Some(v)
  }

  ghost function AllVoters(players: map<PlayerId, Player>): set<PlayerId>
  {
    set k | k in players && players[k].vote.Some?
  }

  /** Filtering the listed entries splits at the first entry. */
  lemma CastVotesCons(players: map<PlayerId, Player>, order: seq<PlayerId>)
    requires order != [] && forall k :: k in order ==> k in players
    ensures var p := players[order[0]];
      CastVotes(PlayerValues(players, order))
        == (if p.vote.Some? then [p.vote.value] else []) + CastVotes(PlayerValues(players, order[1..]))
  {
    assert PlayerValues(players, order)[1..] == PlayerValues(players, order[1..]);
  }

  /** Filtering the listed entries yields each value once per player that cast it. */
  lemma {:induction false} CastVotesCount(players: map<PlayerId, Player>, order: seq<PlayerId>, v: VoteValue)
    requires Distinct(order) && forall k :: k in order ==> k in players
    ensures multiset(CastVotes(PlayerValues(players, order)))[v] == |VotersIn(players, order, v)|
    decreases |order|
  {
    if order == [] {
      assert VotersIn(players, order, v) == {};
    } else {
      var k, rest := order[0], order[1..];
      assert Distinct(rest);
      CastVotesCount(players, rest, v);
      CastVotesCons(players, order);
      var head := if players[k].vote.Some? then [players[k].vote.value] else [];
      var tail := CastVotes(PlayerValues(players, rest));
      assert multiset(head + tail) == multiset(head) + multiset(tail);
      assert k !in rest;
      VotersInCons(players, order, v);
    }
  }

  lemma VotersInCons(players: map<PlayerId, Player>, order: seq<PlayerId>, v: VoteValue)
    requires order != [] && order[0] !in order[1..] && forall k :: k in order ==> k in players
    ensures |VotersIn(players, order, v)| == |VotersIn(players, order[1..], v)| + (if players[order[0]].vote == Some(v) then 1 else 0)
  {
    var k, rest := order[0], order[1..];
    assert order == [k] + rest;
    if players[k].vote == Some(v) {
      assert VotersIn(players, order, v) == {k} + VotersIn(players, rest, v);
    } else {
      assert VotersIn(players, order, v) == VotersIn(players, rest, v);
    }
  }

  /** Filtering the listed entries keeps one value per player that voted. */
  lemma {:induction false} CastVotesLength(players: map<PlayerId, Player>, order: seq<PlayerId>)
    requires Distinct(order) && forall k :: k in order ==> k in players
    ensures |CastVotes(PlayerValues(players, order))| == |AllVotersIn(players, order)|
    decreases |order|
  {
    if order == [] {
      assert AllVotersIn(players, order) == {};
    } else {
      var k, rest := order[0], order[1..];
      assert Distinct(rest);
      CastVotesLength(players, rest);
      CastVotesCons(players, order);
      assert k !in rest;
      if players[k].vote.Some? {
        assert AllVotersIn(players, order) == {k} + AllVotersIn(players, rest);
      } else {
        assert AllVotersIn(players, order) == AllVotersIn(players, rest);
      }
    }
  }

  /** The summary tally: its keys are exactly the values somebody voted, and each count is the
      number of players that voted that value. */
  lemma TallyCounts(players: map<PlayerId, Player>, order: seq<PlayerId>)
    requires IsEnumeration(players, order)
    ensures var t := Tally(PlayerValues(players, order));
      && (forall v :: v in t <==> Voters(players, v) != {})
      && (forall v :: v in t ==> t[v] == |Voters(players, v)|)
  {
    var vs := CastVotes(PlayerValues(players, order));
    TallyFromCounts(map[], vs);
    forall v ensures multiset(vs)[v] == |Voters(players, v)| {
      CastVotesCount(players, order, v);
      assert VotersIn(players, order, v) == Voters(players, v);
    }
  }

  /** The counts of the summary add up to the number of players that voted. */
  lemma TallyTotal(players: map<PlayerId, Player>, order: seq<PlayerId>)
    requires IsEnumeration(players, order)
    ensures SumOver(Tally(PlayerValues(players, order)), FibonacciValues) == |AllVoters(players)|
  {
    var vs := CastVotes(PlayerValues(players, order));
    CastVotesLength(players, order);
    DeckComplete();
    TallyFromTotal(map[], vs, FibonacciValues);
    ZeroSum(FibonacciValues);
    assert AllVotersIn(players, order) == AllVoters(players);
  }

  /** The tally does not depend on the order in which the entries are enumerated. */
  lemma TallyOrderIndependent(players: map<PlayerId, Player>, o1: seq<PlayerId>, o2: seq<PlayerId>)
    requires IsEnumeration(players, o1) && IsEnumeration(players, o2)
    ensures Tally(PlayerValues(players, o1)) == Tally(PlayerValues(players, o2))
  {
    TallyCounts(players, o1);
    TallyCounts(players, o2);
  }

  // ---------------------------------------------------------------------------------------------
  // Rendering.

  /** The page shown once a session is loaded. */
  datatype SessionView = SessionView(
    round: int,
    adminControls: Option<AdminControls.Controls>,
    voting: VotingInterface.View,
    playerList: PlayerList.View,
    summary: Option<map<VoteValue, nat>>)

  /** What the page shows, in order of priority. */
  datatype Screen = LoadingScreen | ErrorScreen(message: string) | NotFoundScreen | SessionScreen(view: SessionView)

  /** `if (error)`: an empty message is falsy and shows no error. */
  predicate ShowsError(error: Option<string>)
  {
    error.Some? && error.value != ""
  }

  function View(d: SessionData, local: Option<LocalPlayer>, order: seq<PlayerId>): (v: SessionView)
    requires IsEnumeration(d.players, order)
    ensures v.round == d.session.currentRound
    ensures v.adminControls.Some? <==> IsAdmin(d, local)
    ensures v.summary.Some? <==> d.session.votesRevealed && AnyVoted(d.players)
    ensures v.summary.Some? ==> v.summary.value == Tally(PlayerValues(d.players, order))
    ensures v.adminControls.Some? ==> v.adminControls.value == AdminControls.Render(d.session.votesRevealed, AnyVoted(d.players))
    ensures v.voting == VotingInterface.Render(CurrentVote(d, local), CurrentPlayer(d, local).None?, d.session.votesRevealed)
    ensures v.playerList == PlayerList.Render(PlayerValues(d.players, order), d.session.votesRevealed,
                                              if local.Some? then Some(local.value.id) else None)
  {
    var players := PlayerValues(d.players, order);
    var revealed := d.session.votesRevealed;
    var hasVotes := HasVotes(players);
    HasVotesIffAnyVoted(d.players, order);
    SessionView(
      d.session.currentRound,
      if IsAdmin(d, local) then Some(AdminControls.Render(revealed, hasVotes)) else None,
      VotingInterface.Render(CurrentVote(d, local), CurrentPlayer(d, local).None?, revealed),
      PlayerList.Render(players, revealed, if local.Some? then Some(local.value.id) else None),
      if revealed && hasVotes then Some(Tally(players)) else None)
  }

  /** Loading first, then an error, then "not found" when there is no aggregate, then the page. */
  function Render(loading: bool, error: Option<string>, data: Option<SessionData>, local: Option<LocalPlayer>,
                  order: seq<PlayerId>): (s: Screen)
    requires data.Some? ==> IsEnumeration(data.value.players, order)
    ensures s.LoadingScreen? <==> loading
    ensures s.ErrorScreen? <==> !loading && ShowsError(error)
    ensures s.ErrorScreen? ==> s.message == error.value
    ensures s.NotFoundScreen? <==> !loading && !ShowsError(error) && data.None?
    ensures s.SessionScreen? <==> !loading && !ShowsError(error) && data.Some?
    ensures s.SessionScreen? ==> s.view == View(data.value, local, order)
  {
    if loading then LoadingScreen
    else if ShowsError(error) then ErrorScreen(error.value)
    else if data.None? then NotFoundScreen
    else SessionScreen(View(data.value, local, order))
  }

  /** Two aggregates that agree on everything except the values of votes, and agree on whether each
      player voted and on the local player's own vote. */
  ghost predicate SameUpToHiddenVotes(d1: SessionData, d2: SessionData, local: Option<LocalPlayer>)
  {
    && d1.session == d2.session
    && d1.players.Keys == d2.players.Keys
    && (forall k :: k in d1.players ==> PlayerList.SameButVoteValue(d1.players[k], d2.players[k]))
    && (local.Some? && local.value.id in d1.players ==> d1.players[local.value.id] == d2.players[local.value.id])
  }

  /** Records equal up to hidden votes agree on whether anybody voted. */
  lemma HiddenVotesSameVoters(d1: SessionData, d2: SessionData, local: Option<LocalPlayer>)
    requires SameUpToHiddenVotes(d1, d2, local)
    ensures AnyVoted(d1.players) == AnyVoted(d2.players)
  {
    if AnyVoted(d1.players) {
      var k :| k in d1.players && d1.players[k].vote.Some?;
      assert d2.players[k].vote.Some?;
    }
    if AnyVoted(d2.players) {
      var k :| k in d2.players && d2.players[k].vote.Some?;
      assert d1.players[k].vote.Some?;
    }
  }

  /** Records equal up to hidden votes give the same hidden player list. */
  lemma HiddenVotesSameList(d1: SessionData, d2: SessionData, local: Option<LocalPlayer>, order: seq<PlayerId>,
                            current: Option<PlayerId>)
    requires SameUpToHiddenVotes(d1, d2, local)
    requires IsEnumeration(d1.players, order)
    ensures IsEnumeration(d2.players, order)
    ensures PlayerList.Render(PlayerValues(d1.players, order), false, current)
         == PlayerList.Render(PlayerValues(d2.players, order), false, current)
  {
    var ps1, ps2 := PlayerValues(d1.players, order), PlayerValues(d2.players, order);
    forall i | 0 <= i < |ps1| ensures PlayerList.SameButVoteValue(ps1[i], ps2[i]) {
      assert order[i] in d1.players;
    }
    PlayerList.RenderHidesVotes(ps1, ps2, current);
  }

  /** Vote secrecy: until the reveal, the screen is the same whatever values the other players voted. */
  lemma VoteSecrecy(loading: bool, error: Option<string>, d1: SessionData, d2: SessionData,
                    local: Option<LocalPlayer>, order: seq<PlayerId>)
    requires !d1.session.votesRevealed
    requires SameUpToHiddenVotes(d1, d2, local)
    requires IsEnumeration(d1.players, order)
    ensures IsEnumeration(d2.players, order)
    ensures Render(loading, error, Some(d1), local, order) == Render(loading, error, Some(d2), local, order)
  {
    HiddenVotesSameList(d1, d2, local, order, if local.Some? then Some(local.value.id) else None);
    HiddenVotesSameVoters(d1, d2, local);
    var v1, v2 := View(d1, local, order), View(d2, local, order);
    assert IsAdmin(d1, local) == IsAdmin(d2, local);
    assert CurrentPlayer(d1, local) == CurrentPlayer(d2, local);
    assert v1.adminControls == v2.adminControls;
    assert v1.voting == v2.voting;
    assert v1.summary == v2.summary == None;
    assert v1 == v2;
  }

  /** As written, the create flow stores a token whose id is generated apart from the adminId in the
      store. In a well-formed record only the adminId entry can carry the admin flag, so whenever the
      two ids differ the creator's page shows no admin controls, whatever else the record holds. */
  lemma CreatorTokenMissesEntry(d: SessionData, name: string, tokenId: PlayerId, order: seq<PlayerId>)
    requires WellFormed(d) && tokenId != d.session.adminId
    requires IsEnumeration(d.players, order)
    ensures !IsAdmin(d, Some(LocalPlayer(tokenId, name, AdminRole)))
    ensures View(d, Some(LocalPlayer(tokenId, name, AdminRole)), order).adminControls.None?
  {
    AdminIsAdminId(d, LocalPlayer(tokenId, name, AdminRole), AdminRole);
  }

  /** On the record createSession wrote, before the creator's tab has sent its first heartbeat, the
      token finds no entry at all, and every card is disabled as well. */
  lemma CreatorTokenMissesFreshEntry(key: SessionId, adminId: PlayerId, name: string, createdAt: int, lastSeen: int,
                                     tokenId: PlayerId, order: seq<PlayerId>)
    requires tokenId != adminId
    requires IsEnumeration(NewSession(key, adminId, name, createdAt, lastSeen).players, order)
    ensures var d := NewSession(key, adminId, name, createdAt, lastSeen);
      var local := Some(LocalPlayer(tokenId, name, AdminRole));
      var v := View(d, local, order);
      && CurrentPlayer(d, local).None?
      && v.adminControls.None?
      && forall c :: c in v.voting.cards ==> c.disabled
  {
  }

  /** With the token keyed by the adminId itself, the creator's page shows the admin controls and
      open cards. */
  lemma CorrectedCreatorIsAdmin(key: SessionId, adminId: PlayerId, name: string, createdAt: int, lastSeen: int,
                                order: seq<PlayerId>)
    requires IsEnumeration(NewSession(key, adminId, name, createdAt, lastSeen).players, order)
    ensures var d := NewSession(key, adminId, name, createdAt, lastSeen);
      var local := Some(LocalPlayer(adminId, name, AdminRole));
      var v := View(d, local, order);
      && CurrentPlayer(d, local) == Some(d.players[adminId])
      && v.adminControls.Some?
      && forall c :: c in v.voting.cards ==> !c.disabled
  {
  }

  // ---------------------------------------------------------------------------------------------
  // The page's effects.

  /** The page over one tab, one session id and the hook subscribed to it. */
  class Page {
    const browser: Browser
    const hook: SessionHook
    var localPlayer: Option<LocalPlayer>

    /** Mounting: the token is read from storage under `player_<sessionId>`. */
    constructor (browser: Browser, db: Database, sessionId: SessionId)
      ensures this.browser == browser
      ensures fresh(hook) && hook.db == db && hook.sessionId == sessionId
      ensures hook.sessionData == None && hook.loading && hook.error == None
      ensures localPlayer == if TokenKey(sessionId) in browser.storage then Some(browser.storage[TokenKey(sessionId)]) else None
    {
      this.browser := browser;
      hook := new SessionHook(db, sessionId);
      localPlayer := if TokenKey(sessionId) in browser.storage then Some(browser.storage[TokenKey(sessionId)]) else None;
    }

    /** The page asks for a name and joins only when it holds no token, loading is over and the
        session exists. */
    predicate JoinDue()
      reads this, hook
    {
      localPlayer.None? && !hook.loading && hook.sessionData.Some?
    }

    /** The join effect. Without a session id the tab goes home. When a join is due and the prompt
        returns no name (cancelled or empty), the tab goes home and nobody joins. With a name the
        player joins and the token `{id, name, role: player}` is kept and stored. */
    method JoinEffect(answer: Option<string>, playerId: PlayerId, now: int)
      requires hook.sessionId in hook.db.sessions ==> playerId !in hook.db.sessions[hook.sessionId].players
      modifies this, browser, hook.db
      ensures hook.sessionId == "" ==>
        && browser.route == HomeRoute && browser.storage == old(browser.storage)
        && localPlayer == old(localPlayer) && hook.db.sessions == old(hook.db.sessions)
      ensures hook.sessionId != "" && !old(JoinDue()) ==>
        && browser.route == old(browser.route) && browser.storage == old(browser.storage)
        && localPlayer == old(localPlayer) && hook.db.sessions == old(hook.db.sessions)
      ensures hook.sessionId != "" && old(JoinDue()) && (answer.None? || answer.value == "") ==>
        && browser.route == HomeRoute && browser.storage == old(browser.storage)
        && localPlayer == old(localPlayer) && hook.db.sessions == old(hook.db.sessions)
      ensures hook.sessionId != "" && old(JoinDue()) && answer.Some? && answer.value != "" ==>
        && hook.db.sessions == PutPlayer(old(hook.db.sessions), hook.sessionId, Player(playerId, answer.value, None, false, now))
        && localPlayer == Some(LocalPlayer(playerId, answer.value, PlayerRole))
        && browser.storage == old(browser.storage)[TokenKey(hook.sessionId) := LocalPlayer(playerId, answer.value, PlayerRole)]
        && browser.route == old(browser.route)
    {
      if hook.sessionId == "" {
        browser.route := HomeRoute;
        return;
      }
      if JoinDue() {
        if answer.None? || answer.value == "" {
          browser.route := HomeRoute;
          return;
        }
        var name := answer.value;
        var joined := hook.JoinSession(name, playerId, now);
        if joined.Success? {
          var player := LocalPlayer(joined.value, name, PlayerRole);
          localPlayer := Some(player);
          browser.storage := browser.storage[TokenKey(hook.sessionId) := player];
        }
      }
    }

    /** handleVote: a vote is cast under the token's id, and only when there is a token. */
    method HandleVote(value: VoteValue)
      modifies hook.db
      ensures hook.db.sessions ==
        if localPlayer.None? || hook.sessionId == "" then old(hook.db.sessions)
        else SetVote(old(hook.db.sessions), hook.sessionId, localPlayer.value.id, value)
    {
      if localPlayer.Some? {
        hook.CastVote(localPlayer.value.id, value);
      }
    }

    /** A click on an admin button runs that button's own handler, and nothing when it is disabled. */
    method PressAdminButton(b: AdminControls.Button)
      modifies hook.db
      ensures hook.sessionId == "" || b.disabled ==> hook.db.sessions == old(hook.db.sessions)
      ensures hook.sessionId != "" && !b.disabled && b.onClick == AdminControls.OnReveal ==>
        hook.db.sessions == SetRevealed(old(hook.db.sessions), hook.sessionId)
      ensures hook.sessionId != "" && !b.disabled && b.onClick == AdminControls.OnReset ==>
        hook.db.sessions == if hook.sessionData.None? then old(hook.db.sessions)
                            else ResetWrite(old(hook.db.sessions), hook.sessionId, hook.sessionData.value)
    {
      var handler := AdminControls.Click(b);
      if handler == Some(AdminControls.OnReveal) {
        hook.RevealVotes();
      } else if handler == Some(AdminControls.OnReset) {
        hook.ResetVotes();
      }
    }

    /** A click on a card casts its value, and does nothing when the card is disabled. */
    method PressCard(c: VotingInterface.CardView)
      modifies hook.db
      ensures hook.db.sessions ==
        if c.disabled || localPlayer.None? || hook.sessionId == "" then old(hook.db.sessions)
        else SetVote(old(hook.db.sessions), hook.sessionId, localPlayer.value.id, c.value)
    {
      match VotingInterface.Click(c)
      case Some(v) => HandleVote(v);
      case None =>
    }
  }
}
