/** The home page (src/pages/HomePage.tsx): creating a session and going to an existing one. */
module HomePage {
  import opened Wrappers
  import opened Types
  import opened SessionStore
  import opened SessionHook
  import opened BrowserState

  /** The characters String.prototype.trim removes: ECMAScript WhiteSpace and LineTerminator. */
  predicate IsWhiteSpace(c: char)
  {
    || c == '\t' || c == '\n' || c == '\U{000B}' || c == '\U{000C}' || c == '\r' || c == ' '
    || c == '\U{00A0}' || c == '\U{1680}' || ('\U{2000}' <= c <= '\U{200A}')
    || c == '\U{2028}' || c == '\U{2029}' || c == '\U{202F}' || c == '\U{205F}'
    || c == '\U{3000}' || c == '\U{FEFF}'
  }

  function TrimStart(s: string): (r: string)
    ensures |r| <= |s| && r == s[|s| - |r|..]
    ensures r != [] ==> !IsWhiteSpace(r[0])
    ensures forall i :: 0 <= i < |s| - |r| ==> IsWhiteSpace(s[i])
  {
    if s != [] && IsWhiteSpace(s[0]) then TrimStart(s[1..]) else s
  }

  function TrimEnd(s: string): (r: string)
    ensures |r| <= |s| && r == s[..|r|]
    ensures r != [] ==> !IsWhiteSpace(r[|r| - 1])
    ensures forall i :: |r| <= i < |s| ==> IsWhiteSpace(s[i])
  {
    if s != [] && IsWhiteSpace(s[|s| - 1]) then TrimEnd(s[..|s| - 1]) else s
  }

  /** `s.trim()`. */
  function Trim(s: string): string
  {
    TrimEnd(TrimStart(s))
  }

  /** The string holds nothing but white space. */
  predicate IsBlank(s: string)
  {
    forall i :: 0 <= i < |s| ==> IsWhiteSpace(s[i])
  }

  /** `!s.trim()` holds exactly for the white-space-only strings. */
  lemma {:induction false} TrimEmptyIffBlank(s: string)
    ensures Trim(s) == "" <==> IsBlank(s)
    decreases |s|
  {
    if s != [] && IsWhiteSpace(s[0]) {
      TrimEmptyIffBlank(s[1..]);
      assert IsBlank(s) <==> IsBlank(s[1..]) by {
        if IsBlank(s[1..]) {
          forall i | 0 <= i < |s| ensures IsWhiteSpace(s[i]) {
            if i > 0 { assert s[i] == s[1..][i - 1]; }
          }
        }
        if IsBlank(s) {
          forall i | 0 <= i < |s[1..]| ensures IsWhiteSpace(s[1..][i]) {
            assert s[1..][i] == s[i + 1];
          }
        }
      }
    } else if s != [] {
      var t := TrimEnd(s);
      assert t != [] by {
        if t == [] {
          TrimEndEmpty(s);
        }
      }
    }
  }

  /** Trimming the end leaves nothing only when the string is all white space. */
  lemma {:induction false} TrimEndEmpty(s: string)
    requires TrimEnd(s) == ""
    ensures IsBlank(s)
    decreases |s|
  {
    if s != [] {
      TrimEndEmpty(s[..|s| - 1]);
      forall i | 0 <= i < |s| ensures IsWhiteSpace(s[i]) {
        if i < |s| - 1 { assert s[i] == s[..|s| - 1][i]; }
      }
    }
  }

  /** The home page's form state, over the tab and over a hook used with no session id. */
  class Home {
    const browser: Browser
    const hook: SessionHook
    var name: string
    var sessionIdInput: string
    var loading: bool

    constructor (browser: Browser, db: Database)
      ensures this.browser == browser && fresh(hook) && hook.db == db && hook.sessionId == ""
      ensures name == "" && sessionIdInput == "" && !loading
    {
      this.browser := browser;
      hook := new SessionHook(db, "");
      name := "";
      sessionIdInput := "";
      loading := false;
    }

    /** handleCreateSession. A blank name changes nothing. Otherwise createSession is awaited; on
        success an admin token under a fresh id of its own (not the adminId the store was given) is
        stored for the new session and the tab goes to its page; on failure nothing is stored and
        the tab stays. Either way loading ends false. */
    method HandleCreateSession(key: SessionId, adminId: PlayerId, createdAt: int, lastSeen: int, accepted: bool,
                               tokenId: PlayerId)
      requires key !in hook.db.sessions
      modifies this, browser, hook.db
      ensures name == old(name) && sessionIdInput == old(sessionIdInput)
      ensures IsBlank(name) ==> loading == old(loading) && hook.db.sessions == old(hook.db.sessions)
      ensures IsBlank(name) ==> browser.storage == old(browser.storage) && browser.route == old(browser.route)
      ensures !IsBlank(name) ==> !loading
      ensures !IsBlank(name) && accepted ==>
        && hook.db.sessions == PutSession(old(hook.db.sessions), key, NewSession(key, adminId, name, createdAt, lastSeen))
        && browser.storage == old(browser.storage)[TokenKey(key) := LocalPlayer(tokenId, name, AdminRole)]
        && browser.route == SessionRoute(key)
      ensures !IsBlank(name) && !accepted ==>
        && hook.db.sessions == old(hook.db.sessions)
        && browser.storage == old(browser.storage) && browser.route == old(browser.route)
    {
      TrimEmptyIffBlank(name);
      if Trim(name) == "" {
        return;
      }
      loading := true;
      var created := hook.CreateSession(name, key, adminId, createdAt, lastSeen, accepted);
      if created.Success? {
        var newSessionId := created.value;
        browser.storage := browser.storage[TokenKey(newSessionId) := LocalPlayer(tokenId, name, AdminRole)];
        browser.route := SessionRoute(newSessionId);
      }
      loading := false;
    }

    /** The create flow as evidently intended: the same steps, but the stored admin token carries
        the adminId the store was given, so the creator's page finds its own entry. */
    method HandleCreateSessionCorrected(key: SessionId, adminId: PlayerId, createdAt: int, lastSeen: int,
                                        accepted: bool)
      requires key !in hook.db.sessions
      modifies this, browser, hook.db
      ensures name == old(name) && sessionIdInput == old(sessionIdInput)
      ensures IsBlank(name) ==> loading == old(loading) && hook.db.sessions == old(hook.db.sessions)
      ensures IsBlank(name) ==> browser.storage == old(browser.storage) && browser.route == old(browser.route)
      ensures !IsBlank(name) ==> !loading
      ensures !IsBlank(name) && accepted ==>
        && hook.db.sessions == PutSession(old(hook.db.sessions), key, NewSession(key, adminId, name, createdAt, lastSeen))
        && browser.storage == old(browser.storage)[TokenKey(key) := LocalPlayer(adminId, name, AdminRole)]
        && browser.route == SessionRoute(key)
      ensures !IsBlank(name) && !accepted ==>
        && hook.db.sessions == old(hook.db.sessions)
        && browser.storage == old(browser.storage) && browser.route == old(browser.route)
    {
      TrimEmptyIffBlank(name);
      if Trim(name) == "" {
        return;
      }
      loading := true;
      var created := hook.CreateSession(name, key, adminId, createdAt, lastSeen, accepted);
      if created.Success? {
        var newSessionId := created.value;
        browser.storage := browser.storage[TokenKey(newSessionId) := LocalPlayer(adminId, name, AdminRole)];
        browser.route := SessionRoute(newSessionId);
      }
      loading := false;
    }

    /** handleJoinSession: a blank id changes nothing; otherwise the tab goes to the page of the id
        exactly as typed, untrimmed. */
    method HandleJoinSession()
      modifies browser
      ensures browser.storage == old(browser.storage)
      ensures browser.route == if IsBlank(sessionIdInput) then old(browser.route) else SessionRoute(sessionIdInput)
    {
      TrimEmptyIffBlank(sessionIdInput);
      if Trim(sessionIdInput) == "" {
        return;
      }
      browser.route := SessionRoute(sessionIdInput);
    }
  }
}
