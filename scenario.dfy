/** One estimation round played end to end over the model: two tabs, one shared database. */
module Scenario {
  import opened Wrappers
  import opened Types
  import opened SessionStore
  import opened SessionHook
  import opened BrowserState
  import opened HomePage
  import opened SessionPage

  const AliceEntry := Player("a1", "Alice", None, true, 0)
  const BobEntry := Player("b1", "Bob", None, false, 1)
  const AliceToken := LocalPlayer("a1", "Alice", AdminRole)
  const Opened := Session("s1", 0, "a1", false, 1)
  const Order: seq<PlayerId> := ["a1", "b1"]

  function AfterAliceVoted(): Store
  {
    map["s1" := SessionData(Opened, map["a1" := AliceEntry.(vote := Some(Five))])]
  }

  function BothVoted(): map<PlayerId, Player>
  {
    map["a1" := AliceEntry.(vote := Some(Five)), "b1" := BobEntry.(vote := Some(Eight))]
  }

  /** Alice creates session s1 from the home page, opens its page and votes 5. */
  method AliceCreatesAndVotes(db: Database) returns (alice: Page)
    requires db.sessions == map[]
    modifies db
    ensures fresh(alice) && fresh(alice.hook)
    ensures alice.hook.db == db && alice.hook.sessionId == "s1" && alice.localPlayer == Some(AliceToken)
    ensures db.sessions == AfterAliceVoted()
  {
    var tab := new Browser(map[], HomeRoute);
    var home := new Home(tab, db);
    home.name := "Alice";
    assert !IsBlank("Alice") by { assert !IsWhiteSpace("Alice"[0]); }
    home.HandleCreateSessionCorrected("s1", "a1", 0, 0, true);
    assert db.sessions == map["s1" := SessionData(Opened, map["a1" := AliceEntry])];
    assert tab.storage == map[TokenKey("s1") := AliceToken];
    alice := new Page(tab, db, "s1");
    alice.hook.Sync();
    alice.HandleVote(Five);
    assert db.sessions.Keys == {"s1"} && db.sessions["s1"].session == Opened;
    assert db.sessions["s1"].players == map["a1" := AliceEntry.(vote := Some(Five))];
  }

  /** Bob opens the page of s1 in his own tab, gives his name, joins and votes 8. */
  method BobJoinsAndVotes(db: Database)
    requires db.sessions == AfterAliceVoted()
    modifies db
    ensures db.sessions == map["s1" := SessionData(Opened, BothVoted())]
  {
    var tab := new Browser(map[], SessionRoute("s1"));
    var bob := new Page(tab, db, "s1");
    bob.hook.Sync();
    assert bob.JoinDue();
    bob.JoinEffect(Some("Bob"), "b1", 1);
    assert db.sessions.Keys == {"s1"} && db.sessions["s1"].session == Opened;
    assert db.sessions["s1"].players == map["a1" := AliceEntry.(vote := Some(Five)), "b1" := BobEntry];
    bob.HandleVote(Eight);
    assert db.sessions.Keys == {"s1"} && db.sessions["s1"].session == Opened;
    assert db.sessions["s1"].players == BothVoted();
  }

  /** The summary of the two votes. */
  lemma TallyOfBothVotes()
    ensures IsEnumeration(BothVoted(), Order)
    ensures AnyVoted(BothVoted())
    ensures Tally(PlayerValues(BothVoted(), Order)) == map[Five := 1, Eight := 1]
  {
    assert BothVoted()["a1"].vote.Some?;
    var ps := PlayerValues(BothVoted(), Order);
    assert ps == [AliceEntry.(vote := Some(Five)), BobEntry.(vote := Some(Eight))];
    assert ps[1..] == [BobEntry.(vote := Some(Eight))];
    assert CastVotes(ps[1..][1..]) == [];
    assert CastVotes(ps[1..]) == [Eight];
    assert CastVotes(ps) == [Five, Eight];
    assert TallyFrom(map[], [Five, Eight]) == TallyFrom(map[Five := 1], [Eight]);
    assert [Eight][1..] == [];
    assert TallyFrom(map[Five := 1], [Eight]) == map[Five := 1, Eight := 1];
  }

  /** The new round clears both votes and advances to round 2. */
  lemma ResetOfRevealedRound()
    ensures var d := SessionData(Opened.(votesRevealed := true), BothVoted());
      ResetWrite(map["s1" := d], "s1", d) == map["s1" := SessionData(Opened.(currentRound := 2), map["a1" := AliceEntry, "b1" := BobEntry])]
  {
    var d := SessionData(Opened.(votesRevealed := true), BothVoted());
    var r := ResetWrite(map["s1" := d], "s1", d);
    assert r.Keys == {"s1"};
    assert r["s1"].session == Opened.(currentRound := 2);
    assert r["s1"].players == map["a1" := AliceEntry, "b1" := BobEntry];
  }

  /** Alice's page refreshes, she presses "Reveal Votes", and her page shows the summary. */
  method AliceReveals(alice: Page) returns (summary: map<VoteValue, nat>)
    requires alice.hook.sessionId == "s1" && alice.localPlayer == Some(AliceToken)
    requires alice.hook.db.sessions == map["s1" := SessionData(Opened, BothVoted())]
    modifies alice.hook, alice.hook.db
    ensures alice.hook.db.sessions == map["s1" := SessionData(Opened.(votesRevealed := true), BothVoted())]
    ensures alice.hook.sessionData == Some(alice.hook.db.sessions["s1"])
    ensures summary == map[Five := 1, Eight := 1]
  {
    TallyOfBothVotes();
    HasVotesIffAnyVoted(BothVoted(), Order);
    alice.hook.Sync();
    var view := View(alice.hook.sessionData.value, alice.localPlayer, Order);
    assert !view.adminControls.value.revealButton.disabled;
    alice.PressAdminButton(view.adminControls.value.revealButton);
    alice.hook.Sync();
    view := View(alice.hook.sessionData.value, alice.localPlayer, Order);
    summary := view.summary.value;
  }

  /** Alice presses "New Round"; the next snapshot shows round 2, hidden, with no votes. */
  method AliceResets(alice: Page) returns (d: SessionData)
    requires alice.hook.sessionId == "s1" && alice.localPlayer == Some(AliceToken)
    requires alice.hook.db.sessions == map["s1" := SessionData(Opened.(votesRevealed := true), BothVoted())]
    requires alice.hook.sessionData == Some(alice.hook.db.sessions["s1"])
    modifies alice.hook, alice.hook.db
    ensures d == SessionData(Opened.(currentRound := 2), map["a1" := AliceEntry, "b1" := BobEntry])
  {
    assert IsEnumeration(BothVoted(), Order);
    ResetOfRevealedRound();
    var view := View(alice.hook.sessionData.value, alice.localPlayer, Order);
    assert IsAdmin(alice.hook.sessionData.value, alice.localPlayer);
    alice.PressAdminButton(view.adminControls.value.resetButton);
    assert alice.hook.db.sessions == map["s1" := SessionData(Opened.(currentRound := 2), map["a1" := AliceEntry, "b1" := BobEntry])];
    alice.hook.Sync();
    d := alice.hook.sessionData.value;
  }

  /** Alice creates a session and votes 5, Bob opens it, joins and votes 8, Alice reveals
      (summary 5: 1, 8: 1) and starts a new round (round 2, hidden, no votes). Alice's token comes
      from the corrected create flow; with the flow as written her token would not name the admin
      entry, and her page would not show her the admin controls. */
  method EstimationRound() returns (summary: map<VoteValue, nat>, round: int, revealed: bool, anyVote: bool)
    ensures summary == map[Five := 1, Eight := 1]
    ensures round == 2 && !revealed && !anyVote
  {
    var db := new Database(map[]);
    var alice := AliceCreatesAndVotes(db);
    BobJoinsAndVotes(db);
    summary := AliceReveals(alice);
    var d := AliceResets(alice);
    round := d.session.currentRound;
    revealed := d.session.votesRevealed;
    assert PlayerValues(d.players, Order) == [AliceEntry, BobEntry];
    anyVote := HasVotes(PlayerValues(d.players, Order));
  }
}
