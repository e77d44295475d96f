/** The older request gate (app/middleware.ts), which the framework does not load
    and which the login route imports without calling: it has no public paths and
    no API role check; only page paths are tied to the caller's role. */
module LegacyGate {
  import opened Common
  import opened Gate

  /** app/middleware.ts, lines 4-26. */
  function LegacyMiddleware(path: string, token: Option<string>, verify: string -> Option<Payload>): (d: Decision)
    // no token, an empty one or one that fails verification: login page, on every path
    ensures Claims(token, verify).None? ==> d == Redirect("/login")
    // it never answers 403
    ensures d != Forbidden
    // every API path is open to every authenticated role
    ensures Claims(token, verify).Some? && StartsWith(path, "/api") ==> d == Next
    // a page path outside the caller's area goes to the caller's home
    ensures Claims(token, verify).Some? && !StartsWith(path, "/api")
            ==> d == (if StartsWith(path, Home(Claims(token, verify).value.role))
                      then Next else Redirect(Home(Claims(token, verify).value.role)))
  {
    match Claims(token, verify)
    case None => Redirect("/login")
    case Some(p) =>
      if StartsWith(path, "/api") then Next
      else if !StartsWith(path, Home(p.role)) then Redirect(Home(p.role))
      else Next
  }

  /** On page paths with a valid token the two gates decide alike. */
  lemma {:induction false} PagesAgree(path: string, token: Option<string>, verify: string -> Option<Payload>)
    requires Matched(path) && !StartsWith(path, "/api")
    requires Claims(token, verify).Some?
    ensures LegacyMiddleware(path, token, verify) == Middleware(path, token, verify)
  {
    MatchedPublicIsAuthApi(path);
    PrefixOfExtension(path, "/api", "/auth");
    GateAppliesRoleRule(path, token, verify);
  }

  /** Without a token the older gate sends even the login API to the login page, where
      the root gate lets it through: /api/auth/login is matched and has no exemption. */
  lemma LoginApiBlockedWithoutToken(verify: string -> Option<Payload>)
    ensures Matched("/api/auth/login")
    ensures LegacyMiddleware("/api/auth/login", None, verify) == Redirect("/login")
    ensures Middleware("/api/auth/login", None, verify) == Next
  {
    assert StartsWith("/api/auth/login", "/api/");
    assert StartsWith("/api/auth/login", "/api/auth");
  }
}
