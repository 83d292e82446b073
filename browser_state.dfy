/** What one browser tab holds locally: its sessionStorage of identity tokens and the current route. */
module BrowserState {
  import opened Types

  /** The storage key of the identity token for a session: `player_<sessionId>`. */
  function TokenKey(sid: SessionId): string
  {
    "player_" + sid
  }

  /** Different sessions never share a token key. */
  lemma TokenKeyInjective(a: SessionId, b: SessionId)
    ensures TokenKey(a) == TokenKey(b) ==> a == b
  {
    if TokenKey(a) == TokenKey(b) {
      assert a == TokenKey(a)[7..];
      assert b == TokenKey(b)[7..];
    }
  }

  const HomeRoute: string := "/"

  /** The route of a session page: `/session/<sessionId>`. */
  function SessionRoute(sid: SessionId): string
  {
    "/session/" + sid
  }

  /** The session id can be read back from the route of its page. */
  lemma SessionRouteInjective(a: SessionId, b: SessionId)
    ensures SessionRoute(a) == SessionRoute(b) ==> a == b
    ensures SessionRoute(a) != HomeRoute
  {
    if SessionRoute(a) == SessionRoute(b) {
      assert a == SessionRoute(a)[9..];
      assert b == SessionRoute(b)[9..];
    }
  }

  class Browser {
    var storage: map<string, LocalPlayer>
    var route: string

    constructor (storage: map<string, LocalPlayer>, route: string)
      ensures this.storage == storage && this.route == route
    {
      this.storage := storage;
      this.route := route;
    }
  }
}
