# Scrum poker: a verified model of the session state machine

Scrum poker is a planning-poker web application. A facilitator creates a session, gets an admin token in
the browser tab and shares the session link. Players open the link, give their name and join. Each player
picks one card of a ten-card deck (0, 1, 2, 3, 5, 8, 13, 21, "?", "☕"). While votes are hidden, every
player sees only who has voted. The admin reveals the votes, the page shows a tally of the cast values,
and the admin starts a new round, which clears all votes and bumps the round counter. All state lives in
one realtime database record per session. Every tab subscribes to it and renders from the latest
snapshot it received.

This project models that core in Dafny:

- `Types`: the vote values, the deck, players, sessions, the `SessionData` aggregate and the local
  identity token.
- `SessionStore`: the database as a map from session id to `SessionData`. Each write the hook performs is
  a pure function on that map, and lemmas state how the writes relate to each other.
- `SessionHook`: the `useSession` hook as a class. It projects the record (`sessionData`, `loading`,
  `error`) through its subscription callbacks and issues the commands against a shared `Database`
  object. `resetVotes` builds its multi-path update in a loop over the *held snapshot*. The vote writes
  in that update therefore follow the snapshot, not the current database.
- `BrowserState`: the tab's `sessionStorage` token map, keyed `player_<sessionId>`, and its current route.
- `HomePage`: the create and join forms, with JavaScript's `trim` written out over the ECMAScript
  white-space set.
- `SessionPage`: the derived values (current player, admin flag, current vote, `hasVotes`), the
  order-independent vote tally, render priority, vote secrecy, the join effect and the click handlers
  of the page.
- `AdminControls`, `PlayerList`, `VotingInterface`: the three presentational components as pure view
  functions.
- `Scenario`: one estimation round played over the model by two tabs that share one database.

`Object.values` and `Object.keys` enumerate a JavaScript object in an order that the code does not
control. The model passes that order in as a sequence `order` with `IsEnumeration(players, order)`:
the order is distinct and covers exactly the keys. The results that do not depend on that order are
proved for every such order (`TallyOrderIndependent`, `HasVotesIffAnyVoted`).

Ids the code generates (push keys, `player_<time>_<random>`) and timestamps (`Date.now()`) are
parameters. Where the code relies on an id being fresh, the parameter comes with a `!in` precondition.
Whether an asynchronous database write succeeds is a parameter called `accepted`.

A reset trusts the snapshot the tab holds. It therefore sets the round to *snapshot round + 1*, however
the database has moved on. A tab holding a stale snapshot can lower the round
(`SessionStore.StaleResetCanLowerRound`). Players who joined after that snapshot keep their votes through
the reset (`SessionStore.ResetKeepsLaterJoiner`). A later vote by a player the snapshot already knows is
still cleared (`SessionStore.ResetOverwritesLaterVote`). One might expect the round never to decrease. The code gives no such guarantee under
concurrent tabs, and the model follows the code. With the snapshot refreshed before
each reset, the round grows by exactly one per reset (`SessionStore.RoundAfterResets`,
`SessionHook.ResetRounds`).

## Model

| member | source | states |
|---|---|---|
| `Types.Label` | src/types.ts:3 | the label of each value; `LabelRoundTrip`, `ParseLabelSound` and `LabelInjective` state that labels and values correspond one to one |
| `Types.LabelRoundTrip` | src/types.ts:3 | every vote value has a label that parses back to it |
| `Types.ParseLabelSound` | src/types.ts:3 | the only strings accepted as votes are the ten labels, each read back to the value with that label |
| `Types.LabelInjective` | src/types.ts:3 | distinct vote values have distinct labels, so a tally keyed by value is a tally keyed by label |
| `Types.FibonacciLabels` | src/types.ts:5 | the deck has ten cards, labelled 0,1,2,3,5,8,13,21,?,☕ in that order |
| `Types.FibonacciValuesDistinct` | src/types.ts:5 | no value appears twice in the deck |
| `Types.IndexOf` | src/types.ts:5 | every vote value occurs in the deck, at exactly one position |
| `Types.RoleRoundTrip` | src/types.ts:28 | a role is exactly "admin" or "player", and each role's label reads back to it |
| `SessionStore.Snapshot` | src/hooks/useSession.ts:18-29 | the subscription delivers a snapshot exactly when the session key exists, and it is that session's record |
| `SessionStore.NewSession` | src/hooks/useSession.ts:65-84 | a new session has round 1, hidden votes and `adminId` as admin id. Its only player is `adminId`: admin, named as given, with no vote. The record is well formed |
| `SessionStore.PutSession` | src/hooks/useSession.ts:86 | after `set(newSessionRef, …)` the new key holds the record and no other session changes |
| `SessionStore.PutPlayer` | src/hooks/useSession.ts:95-105 | a join adds or replaces exactly one player entry and leaves the session fields and all other entries unchanged |
| `SessionStore.SetVote` | src/hooks/useSession.ts:113-114 | a vote write changes only that player's vote, and nothing when the player has no entry |
| `SessionStore.SetRevealed` | src/hooks/useSession.ts:121-122 | reveal sets only `votesRevealed` |
| `SessionStore.SetLastSeen` | src/hooks/useSession.ts:46-49 | the heartbeat changes only the local player's `lastSeen` |
| `SessionStore.RemovePlayer` | src/hooks/useSession.ts:146-147 | removal deletes exactly one player key. Session fields and every other entry are unchanged |
| `SessionStore.ApplyUpdate` | src/hooks/useSession.ts:139 | a multi-path update sets the two session fields and the listed players' votes, and touches nothing else |
| `SessionStore.ResetUpdate` | src/hooks/useSession.ts:129-137 | the reset update hides votes, sets the round to snapshot round + 1 and clears the vote of exactly the snapshot's player keys |
| `SessionStore.ResetWrite` | src/hooks/useSession.ts:126-139 | after a reset: votes hidden, round = snapshot round + 1, votes cleared for players in the snapshot, players absent from the snapshot keep theirs, no player added or removed |
| `SessionStore.RevealIdempotent` | src/hooks/useSession.ts:118-123 | revealing twice has the effect of revealing once |
| `SessionStore.ResetFromFreshSnapshot` | src/hooks/useSession.ts:126-139 | a reset from an up-to-date snapshot leaves votes hidden, advances the round by one and leaves no vote at all |
| `SessionStore.Resets` | src/hooks/useSession.ts:131 | n refreshed resets keep the session present |
| `SessionStore.RoundAfterResets` | src/hooks/useSession.ts:131 | starting from round R, n resets each from a refreshed snapshot give round R + n and keep the player set |
| `SessionStore.ResetOverwritesLaterVote` | src/hooks/useSession.ts:135-137 | a vote cast after the snapshot by a player the snapshot knows is cleared by the reset |
| `SessionStore.ResetKeepsLaterJoiner` | src/hooks/useSession.ts:135-137 | a player who joined and voted after the snapshot keeps the vote through the reset |
| `SessionStore.StaleResetCanLowerRound` | src/hooks/useSession.ts:131 | the round can go down: some store and stale snapshot give a round below the stored one |
| `SessionStore.CreatePreservesValid` | src/hooks/useSession.ts:62-87 | creating a session under a fresh key keeps every record well formed |
| `SessionStore.JoinPreservesValid` | src/hooks/useSession.ts:91-107 | adding a non-admin player keeps every record well formed |
| `SessionStore.VotePreservesValid` | src/hooks/useSession.ts:110-115 | a vote keeps every record well formed |
| `SessionStore.RevealPreservesValid` | src/hooks/useSession.ts:118-123 | a reveal keeps every record well formed |
| `SessionStore.RemovePreservesValid` | src/hooks/useSession.ts:143-148 | a removal keeps every record well formed |
| `SessionStore.HeartbeatPreservesValid` | src/hooks/useSession.ts:42-59 | a heartbeat keeps every record well formed |
| `SessionStore.ResetPreservesValid` | src/hooks/useSession.ts:126-140 | a reset from a snapshot with a non-negative round keeps every record well formed |
| `SessionHook.Database.constructor` | src/firebase.ts:21 | the database starts with the given sessions |
| `SessionHook.BuildResetUpdates` | src/hooks/useSession.ts:129-137 | the loop's update hides votes, sets round = snapshot round + 1 and clears every snapshot player key's vote, no other key |
| `SessionHook.SessionHook.constructor` | src/hooks/useSession.ts:7-9 | a new hook has no data, is loading and has no error |
| `SessionHook.SessionHook.Subscribe` | src/hooks/useSession.ts:12-16 | with an empty id, loading ends and nothing else changes. Otherwise subscribing leaves the projection as it was |
| `SessionHook.SessionHook.OnSnapshot` | src/hooks/useSession.ts:22-31 | a snapshot replaces `sessionData` wholesale. An existing one clears the error, a missing one sets null and keeps the error. Loading ends |
| `SessionHook.SessionHook.OnError` | src/hooks/useSession.ts:32-36 | an error sets the message and keeps `sessionData`. Loading ends |
| `SessionHook.SessionHook.Sync` | src/hooks/useSession.ts:20-31 | delivery of the current record: the projection equals the database's record for the id |
| `SessionHook.SessionHook.Heartbeat` | src/hooks/useSession.ts:43-53 | without an id or a token nothing is written. Otherwise the token's player gets `lastSeen = now` |
| `SessionHook.SessionHook.CreateSession` | src/hooks/useSession.ts:62-87 | on success the store gains exactly the new session record under the fresh key, and the key is returned. A rejected write fails and changes nothing |
| `SessionHook.SessionHook.JoinSession` | src/hooks/useSession.ts:91-107 | an empty id fails with "Session ID is required" and writes nothing. Otherwise exactly one new non-admin player without a vote is written and its id returned |
| `SessionHook.SessionHook.CastVote` | src/hooks/useSession.ts:110-115 | an empty id is a no-op. Otherwise only that player's vote changes |
| `SessionHook.SessionHook.RevealVotes` | src/hooks/useSession.ts:118-123 | an empty id is a no-op. Otherwise only `votesRevealed` becomes true. No admin check |
| `SessionHook.SessionHook.ResetVotes` | src/hooks/useSession.ts:126-140 | a no-op without an id or a held snapshot. Otherwise the reset computed from the held snapshot is applied to the current database. No admin check |
| `SessionHook.SessionHook.RemovePlayer` | src/hooks/useSession.ts:143-148 | an empty id is a no-op. Otherwise exactly that player's entry is deleted |
| `SessionHook.ResetRounds` | src/hooks/useSession.ts:126-140 | n resets, each after the snapshot is refreshed, raise the round by exactly n |
| `BrowserState.TokenKey` | src/pages/SessionPage.tsx:13 | the storage key `player_<sessionId>`; `TokenKeyInjective` states that different sessions get different keys |
| `BrowserState.SessionRoute` | src/pages/HomePage.tsx:32 | the route `/session/<sessionId>`; `SessionRouteInjective` states that it is injective and never the home route |
| `BrowserState.TokenKeyInjective` | src/pages/SessionPage.tsx:13 | tokens of different sessions live under different storage keys |
| `BrowserState.SessionRouteInjective` | src/pages/HomePage.tsx:32 | different sessions have different routes, none of them the home route |
| `BrowserState.Browser.constructor` | src/pages/SessionPage.tsx:12-15 | a tab starts with the given storage and route |
| `HomePage.TrimStart` | src/pages/HomePage.tsx:14 | the result is a suffix of the input, everything removed before it is white space, and it does not start with white space |
| `HomePage.TrimEnd` | src/pages/HomePage.tsx:14 | the result is a prefix of the input, everything removed after it is white space, and it does not end with white space |
| `HomePage.Trim` | src/pages/HomePage.tsx:14 | `s.trim()`: white space removed at both ends; `TrimEmptyIffBlank` states that it is empty exactly for blank strings, the test of lines 14 and 43 |
| `HomePage.TrimEmptyIffBlank` | src/pages/HomePage.tsx:14 | `s.trim()` is empty exactly when every character of `s` is white space |
| `HomePage.TrimEndEmpty` | src/pages/HomePage.tsx:43 | if trimming the end leaves nothing, the input was all white space |
| `HomePage.Home.constructor` | src/pages/HomePage.tsx:6-10 | empty inputs, not loading, a hook with an empty session id |
| `HomePage.Home.HandleCreateSession` | src/pages/HomePage.tsx:12-39 | a blank name writes nothing. Otherwise loading ends false. On success the session is created, an admin token with the name and its own separately generated id is stored under `player_<key>`, and the route is `/session/<key>`. On failure there is no token and no navigation |
| `HomePage.Home.HandleCreateSessionCorrected` | src/pages/HomePage.tsx:21-32 | as `HandleCreateSession`, except that the token carries the `adminId` written to the database |
| `HomePage.Home.HandleJoinSession` | src/pages/HomePage.tsx:41-48 | a blank id leaves the route unchanged. Otherwise the route is `/session/<id>` with the untrimmed id. Storage is untouched |
| `AdminControls.Render` | src/components/AdminControls.tsx:22-40 | reveal is disabled iff there are no votes or they are revealed, and greyed under the same condition. "New Round" is never disabled. Each button carries its own handler |
| `AdminControls.Click` | src/components/AdminControls.tsx:23-36 | a click calls the button's own handler when enabled and nothing when disabled |
| `AdminControls.RevealGuard` | src/components/AdminControls.tsx:24 | clicking reveal requests a reveal iff voting is open and somebody voted. Clicking "New Round" always requests a reset |
| `PlayerList.HasVoted` | src/components/PlayerList.tsx:24 | `vote !== null`; `PlayerStatus` and `PlayerTile` state the status and the voted dot in terms of it |
| `PlayerList.PlayerStatus` | src/components/PlayerList.tsx:61-73 | exactly one of: the value (revealed and voted), "✓ Voted" (voted, hidden) or "Waiting..." (no vote). A shown value is the player's vote |
| `PlayerList.PlayerTile` | src/components/PlayerList.tsx:23-77 | the voted dot iff voted. The Admin badge iff `isAdmin`. The You badge and the highlight iff the id is the current player's |
| `PlayerList.Render` | src/components/PlayerList.tsx:15-23 | the count is the number of entries, with one tile per entry in enumeration order |
| `PlayerList.RenderHidesVotes` | src/components/PlayerList.tsx:61-73 | while votes are hidden, the list is the same for any two player lists that differ only in which values were voted |
| `PlayerList.AtMostOneYouBadge` | src/components/PlayerList.tsx:25 | with distinct ids at most one tile carries the You badge |
| `VotingInterface.Render` | src/components/VotingInterface.tsx:19-45 | heading by revealed state. One card per deck value in deck order. Selected iff equal to the current vote. Disabled iff `disabled` or revealed. "Your vote" iff a vote exists and votes are hidden |
| `VotingInterface.Click` | src/components/VotingInterface.tsx:31-32 | an enabled card emits its own value and a disabled card emits nothing |
| `VotingInterface.SelectedCard` | src/components/VotingInterface.tsx:29 | at most one card is selected. A current vote selects its own card, and no vote selects none |
| `VotingInterface.EveryValueClickable` | src/components/VotingInterface.tsx:25-32 | while voting is open, each value's card emits that value. With `disabled` or once revealed, no card emits anything |
| `SessionPage.PlayerValues` | src/pages/SessionPage.tsx:103 | `Object.values` in a given order: one entry per key of the order, in that order |
| `SessionPage.DistinctCardinality` | src/components/PlayerList.tsx:15 | a duplicate-free order has as many distinct keys as elements |
| `SessionPage.EnumerationSize` | src/components/PlayerList.tsx:20 | `Object.values` yields exactly as many players as there are keys, so the count shown is the number of players |
| `SessionPage.HasVotes` | src/pages/SessionPage.tsx:103 | true iff some enumerated player has a vote |
| `SessionPage.HasVotesIffAnyVoted` | src/pages/SessionPage.tsx:103 | `hasVotes` holds iff some player in the record has voted, in every enumeration order |
| `SessionPage.CurrentPlayer` | src/pages/SessionPage.tsx:99 | the entry keyed by the token id when there is a token and such an entry, and none otherwise |
| `SessionPage.IsAdmin` | src/pages/SessionPage.tsx:100 | true iff there is a token, the record has its entry and that entry is flagged admin. False with no token or no entry |
| `SessionPage.CurrentVote` | src/pages/SessionPage.tsx:102 | the vote of the token's entry, and none without a token or an entry |
| `SessionPage.AdminIsAdminId` | src/pages/SessionPage.tsx:99-100 | in a well-formed record, whoever the page treats as admin holds the session's `adminId`. The token's role plays no part |
| `SessionPage.CastVotes` | src/pages/SessionPage.tsx:165-166 | the filter `p.vote !== null` over the enumerated players; `CastVotesCount` and `CastVotesLength` state what it keeps |
| `SessionPage.TallyFrom` | src/pages/SessionPage.tsx:167-171 | the reducer that adds one to `acc[vote]`, starting from 0; `TallyFromCounts` and `TallyFromTotal` state its keys, counts and sum |
| `SessionPage.Tally` | src/pages/SessionPage.tsx:164-171 | filter then reduce; keys and counts given by `TallyCounts`, its sum by `TallyTotal`, and its independence from the enumeration order by `TallyOrderIndependent` |
| `SessionPage.TallyFromCounts` | src/pages/SessionPage.tsx:167-171 | the reducer adds each value's number of occurrences to the accumulator and adds no other key |
| `SessionPage.SumOverBump` | src/pages/SessionPage.tsx:169 | one increment of a deck value raises the deck-wide sum by one |
| `SessionPage.TallyFromTotal` | src/pages/SessionPage.tsx:167-171 | the reducer raises the sum of counts over a complete deck by the number of votes folded in |
| `SessionPage.DeckComplete` | src/types.ts:5 | the deck contains every vote value, each once |
| `SessionPage.ZeroSum` | src/pages/SessionPage.tsx:171 | the empty accumulator sums to zero |
| `SessionPage.CastVotesCons` | src/pages/SessionPage.tsx:165-166 | filtering the enumerated players keeps the first player's vote, if any, before the rest |
| `SessionPage.CastVotesCount` | src/pages/SessionPage.tsx:165-166 | after the filter, each value occurs once per enumerated player who voted it |
| `SessionPage.VotersInCons` | src/pages/SessionPage.tsx:165-166 | voters of a value among the enumerated players: the first player counts iff they voted it |
| `SessionPage.CastVotesLength` | src/pages/SessionPage.tsx:166 | the filter keeps exactly one vote per enumerated player who voted |
| `SessionPage.TallyCounts` | src/pages/SessionPage.tsx:164-171 | the tally's keys are exactly the cast values, and each count is the number of players who voted that value |
| `SessionPage.TallyTotal` | src/pages/SessionPage.tsx:164-171 | the tally's counts sum to the number of players who voted |
| `SessionPage.TallyOrderIndependent` | src/pages/SessionPage.tsx:164-171 | the tally is the same for every enumeration order of the players |
| `SessionPage.View` | src/pages/SessionPage.tsx:99-187 | round shown. Admin controls iff `isAdmin`, and then they are the controls for the reveal state and whether anybody voted. The voting interface gets the current vote, `disabled` iff there is no current player, and the reveal state. The player list gets the enumerated players, the reveal state and the token id. Summary iff revealed and some vote, and then it is the tally |
| `SessionPage.ShowsError` | src/pages/SessionPage.tsx:83 | `if (error)`: an error is shown only when it is present and non-empty; `Render` states where it takes priority |
| `SessionPage.Render` | src/pages/SessionPage.tsx:75-97 | loading first; then the error (a non-empty message); then "not found" without a record; then the page, which is `View` of the record, the local token and the enumeration order |
| `SessionPage.HiddenVotesSameVoters` | src/pages/SessionPage.tsx:103 | records that differ only in hidden vote values agree on whether anybody voted |
| `SessionPage.HiddenVotesSameList` | src/components/PlayerList.tsx:61-73 | records that differ only in hidden vote values give the same player list while votes are hidden |
| `SessionPage.VoteSecrecy` | src/pages/SessionPage.tsx:99-187 | while votes are hidden, the whole screen is the same for two records that differ only in the values other players voted |
| `SessionPage.CreatorTokenMissesEntry` | src/pages/HomePage.tsx:24 | as written: when the creator's token id differs from `adminId`, the token never names an admin entry in a well-formed record, so the creator's page shows no admin controls, whatever else the record holds |
| `SessionPage.CreatorTokenMissesFreshEntry` | src/pages/HomePage.tsx:24 | on the record `createSession` wrote, before the creator's first heartbeat, the token with an id other than `adminId` finds no entry, so there are no admin controls and every card is disabled |
| `SessionPage.CorrectedCreatorIsAdmin` | src/pages/HomePage.tsx:24-30 | with the token carrying `adminId`, the creator's page finds the entry, shows the admin controls and enables the cards |
| `SessionPage.Page.constructor` | src/pages/SessionPage.tsx:12-25 | the page reads its token from `player_<sessionId>`. The hook starts loading with no data |
| `SessionPage.Page.JoinDue` | src/pages/SessionPage.tsx:34 | the join guard: no token, loading over, a record present; `JoinEffect` states that nothing is joined unless it holds |
| `SessionPage.Page.JoinEffect` | src/pages/SessionPage.tsx:28-52 | no id goes home. No join unless the tab has no token, loading is over and the record exists. An empty or cancelled name goes home. Otherwise the player is joined and the token `{id, name, 'player'}` is stored under `player_<sessionId>` and kept by the page |
| `SessionPage.Page.HandleVote` | src/pages/SessionPage.tsx:54-58 | votes with the token's id when there is a token, and does nothing otherwise |
| `SessionPage.Page.PressAdminButton` | src/pages/SessionPage.tsx:60-66 | an enabled reveal button reveals and an enabled reset button resets from the held snapshot. A disabled button does nothing |
| `SessionPage.Page.PressCard` | src/pages/SessionPage.tsx:140-145 | an enabled card casts its value for the token's player. A disabled card, or no token, does nothing |
| `Scenario.EstimationRound` | src/pages/SessionPage.tsx:158-187 | one round: two players vote 5 and 8. After the reveal the summary is {5: 1, 8: 1}. After the reset: round 2, hidden, no votes |

## Left out

- Firebase semantics are not modelled: push key generation, `onValue` delivery timing, atomicity of
  `update`, and `null` as deletion. The store is a plain map and an absent vote is `None`. The code
  tests `vote !== null`, which is right only if the SDK reports a cleared vote as `null` rather than
  omitting the field. The model does not decide this.
- `SessionStore.SetVote`, `SessionStore.PutPlayer`, `SessionStore.SetLastSeen`, `SessionStore.SetRevealed`,
  `SessionStore.ApplyUpdate` and `SessionStore.ResetWrite`: a write under a session or player that does not exist
  creates a partial node in Firebase. The typed
  model leaves the store unchanged there instead, because such a node is not a `SessionData`. No modelled
  command deletes a session, so the reset write never meets a missing session in the modelled flows.
- `SessionPage.CreatorTokenMissesFreshEntry` holds only until the creator's tab sends its first heartbeat. In
  Firebase that `lastSeen` write creates `players/<tokenId>`: an entry with no name and no admin flag. The
  page then finds it, enables the cards and lists an extra player. The model's heartbeat writes nothing for a
  missing player, so that entry is not modelled. `SessionPage.CreatorTokenMissesEntry` holds either way.
- Removing the last player leaves the session without a `players` node in Firebase.
  `SessionStore.RemovePlayer` keeps an empty map instead.
- `Date.now()` and `Math.random()`: ids and timestamps are parameters.
- The 30-second heartbeat timer and `clearInterval` are left out. Only the single `lastSeen` write is
  modelled (`SessionHook.SessionHook.Heartbeat`).
- Failure of the writes other than create (`joinSession`, `castVote`, reveal, reset, remove): these
  promises are not awaited for errors in the pages, and the model treats the writes as applied.
- Concurrency between tabs: no scheduler is modelled. Each step is one write or one snapshot delivery
  (`Sync`). The stale-snapshot effect of a reset is modelled by passing the held snapshot explicitly.
- React effects and re-rendering are left out. Stored tokens are read as `LocalPlayer` values, without
  JSON serialisation. The `prompt` answer is a parameter. `alert`, the clipboard copy, CSS classes, and
  the order and pluralisation of the summary tiles are left out. The summary is the map from value to
  count.
- `SessionPage.Page.JoinEffect` is one atomic step: the write, the token and `localPlayer` change together.
  In the page, the effect reruns whenever `sessionData` changes (src/pages/SessionPage.tsx:52). The
  `set` inside `joinSession` can deliver a snapshot before `.then` sets `localPlayer`
  (src/pages/SessionPage.tsx:42-49). The effect may then prompt and join a second time. The model does
  not capture that interleaving.
- An undefined `sessionId` route parameter is treated as the empty id, as `sessionId || ''` does for
  the hook.
- `(currentRound || 0) + 1` is modelled as `currentRound + 1`. The two agree on every integer; they
  differ only for a missing or `NaN` round, which a record of the model cannot hold.
- src/components/Card.tsx is not part of this model beyond its `disabled` attribute (`VotingInterface.Click`).
  src/firebase.ts, src/App.tsx and src/components/DarkModeToggle.tsx are not part of this model either:
  they hold configuration, routing and styling only.

## Findings

| source | as written | input that shows it | evidently intended | confidence | as-written member | corrected member |
|---|---|---|---|---|---|---|
| src/pages/HomePage.tsx:24 | the admin token stored after `createSession` gets a second, freshly generated id, independent of the `adminId` that src/hooks/useSession.ts:65 writes into the session | any create: the database entry is keyed `player_<t1>_<r1>`, the token says `player_<t2>_<r2>` | the token carries the `adminId` of the created session, so the creator is the admin on the session page | not executed | `SessionPage.CreatorTokenMissesEntry` | `SessionPage.CorrectedCreatorIsAdmin` |

As written, the creator's session page looks up `players[token.id]`, which is never the admin entry, so
the creator never sees the admin controls. On the freshly created record the lookup finds nothing and all
cards are disabled. The creator's first heartbeat then creates a nameless non-admin entry under the token
id, which enables the cards; the admin controls stay hidden. Once the page has loaded, the join effect
does not run, because a token exists. `HomePage.Home.HandleCreateSession` models the flow as written.
`HomePage.Home.HandleCreateSessionCorrected` stores the token with `adminId`, and `Scenario` uses it.
