/** The data model of a planning poker session (src/types.ts). */
module Types {
  import opened Wrappers

  type SessionId = string
  type PlayerId = string

  /** No element occurs twice. */
  predicate Distinct<T(==)>(s: seq<T>)
  {
    forall i, j :: 0 <= i < j < |s| ==> s[i] != s[j]
  }

  /** The ten card values a player can vote with. */
  datatype VoteValue =
    | Zero | One | Two | Three | Five | Eight | Thirteen | TwentyOne
    | Unknown   // "?"
    | Coffee    // "☕", asking for a break

  /** The label under which a vote is stored and displayed. */
  function Label(v: VoteValue): string
  {
    match v
    case Zero => "0"
    case One => "1"
    case Two => "2"
    case Three => "3"
    case Five => "5"
    case Eight => "8"
    case Thirteen => "13"
    case TwentyOne => "21"
    case Unknown => "?"
    case Coffee => "☕"
  }

  /** Reads a stored label back; any other string is not a vote. */
  function ParseLabel(s: string): Option<VoteValue>
  {
    if s == "0" then Some(Zero)
    else if s == "1" then Some(One)
    else if s == "2" then Some(Two)
    else if s == "3" then Some(Three)
    else if s == "5" then Some(Five)
    else if s == "8" then Some(Eight)
    else if s == "13" then Some(Thirteen)
    else if s == "21" then Some(TwentyOne)
    else if s == "?" then Some(Unknown)
    else if s == "☕" then Some(Coffee)
    else None
  }

  /** Labels and values are in one-to-one correspondence: parsing inverts labelling ... */
  lemma LabelRoundTrip(v: VoteValue)
    ensures ParseLabel(Label(v)) == Some(v)
  {
    match v
    case Zero =>
    case One =>
    case Two =>
    case Three =>
    case Five =>
    case Eight =>
    case Thirteen =>
    case TwentyOne =>
    case Unknown =>
    case Coffee =>
  }

  /** ... and every string that parses is the label of what it parses to. */
  lemma ParseLabelSound(s: string)
    ensures ParseLabel(s).Some? ==> Label(ParseLabel(s).value) == s
  {
  }

  /** Two distinct votes never share a label. */
  lemma LabelInjective(v: VoteValue, w: VoteValue)
    ensures Label(v) == Label(w) ==> v == w
  {
    LabelRoundTrip(v);
    LabelRoundTrip(w);
  }

  /** The card deck, in display order. */
  const FibonacciValues: seq<VoteValue> :=
    [Zero, One, Two, Three, Five, Eight, Thirteen, TwentyOne, Unknown, Coffee]

  /** The labels of the deck, in order. */
  lemma FibonacciLabels()
    ensures |FibonacciValues| == 10
    ensures seq(|FibonacciValues|, i requires 0 <= i < |FibonacciValues| => Label(FibonacciValues[i]))
         == ["0", "1", "2", "3", "5", "8", "13", "21", "?", "☕"]
  {
  }

  /** No card appears twice in the deck. */
  lemma FibonacciValuesDistinct()
    ensures Distinct(FibonacciValues)
  {
  }

  /** The position of a vote in the deck: every vote is there, exactly once. */
  function IndexOf(v: VoteValue): (i: nat)
    ensures i < |FibonacciValues| && FibonacciValues[i] == v
    ensures forall j :: 0 <= j < |FibonacciValues| && FibonacciValues[j] == v ==> j == i
  {
    FibonacciValuesDistinct();
    match v
    case Zero => 0
    case One => 1
    case Two => 2
    case Three => 3
    case Five => 4
    case Eight => 5
    case Thirteen => 6
    case TwentyOne => 7
    case Unknown => 8
    case Coffee => 9
  }

  /** A participant as stored in the session; `vote` is None until the player votes in this round. */
  datatype Player = Player(id: PlayerId, name: string, vote: Option<VoteValue>, isAdmin: bool, lastSeen: int)

  /** The session-wide fields. */
  datatype Session = Session(id: SessionId, createdAt: int, adminId: PlayerId, votesRevealed: bool, currentRound: int)

  /** The aggregate stored under one session id: one Session and the players keyed by id. */
  datatype SessionData = SessionData(session: Session, players: map<PlayerId, Player>)

  /** The role a device holds in a session. */
  datatype UserRole = AdminRole | PlayerRole

  function RoleLabel(r: UserRole): string
  {
    match r
    case AdminRole => "admin"
    case PlayerRole => "player"
  }

  function ParseRole(s: string): Option<UserRole>
  {
    if s == "admin" then Some(AdminRole) else if s == "player" then Some(PlayerRole) else None
  }

  /** A role is exactly one of the two labels. */
  lemma RoleRoundTrip(r: UserRole, s: string)
    ensures ParseRole(RoleLabel(r)) == Some(r)
    ensures ParseRole(s).Some? <==> s == "admin" || s == "player"
  {
    match r
    case AdminRole =>
    case PlayerRole =>
  }

  /** The identity token a device keeps for one session. */
  datatype LocalPlayer = LocalPlayer(id: PlayerId, name: string, role: UserRole)

  /** The shape every session written by the commands keeps: entries keyed by their own id,
      a round of at least one, and no admin other than the session's adminId. */
  predicate WellFormed(d: SessionData)
  {
    && (forall k :: k in d.players ==> d.players[k].id == k)
    && d.session.currentRound >= 1
    && (forall k :: k in d.players && d.players[k].isAdmin ==> k == d.session.adminId)
  }

  /** Some player of the map holds a vote: the reference meaning of "has anyone voted". */
  ghost predicate AnyVoted(players: map<PlayerId, Player>)
  {
    exists k :: k in players && players[k].vote.Some?
  }
}
