/** The request gate that runs before every matched route (middleware.ts): a
    stateless decision from the request path, the `token` cookie and what token
    verification makes of it, to "pass on", "redirect" or "403 Forbidden".
    Token verification is a parameter: whatever it answers, the gate only
    compares path prefixes against the lower-cased role. */
module Gate {
  import opened Common

  /** What the gate does with a request: hand it to the route (NextResponse.next()),
      redirect the browser, or answer 403 with {error: "Forbidden"}. */
  datatype Decision = Next | Redirect(location: string) | Forbidden

  /** The claims the request carries: none when the cookie is missing or empty
      (`if (!token)`), otherwise whatever verification of the cookie yields. */
  function Claims(token: Option<string>, verify: string -> Option<Payload>): (c: Option<Payload>)
    ensures !Present(token) ==> c == None
    ensures Present(token) ==> c == verify(token.value)
  {
    if Present(token) then verify(token.value) else None
  }

  /** The role as a path segment. */
  function Segment(r: Role): string {
    match r
    case ADMIN => "admin"
    case CLIENT => "client"
    case EMPLOYEE => "employee"
  }

  /** The segment is `payload.role.toLowerCase()`. */
  lemma SegmentIsLowerCase(r: Role)
    ensures Segment(r) == ToLower(RoleName(r))
  {
    var s := ToLower(RoleName(r));
    assert forall i :: 0 <= i < |s| ==> s[i] == Segment(r)[i];
  }

  /** The paths the gate lets through without a token. */
  predicate IsPublic(path: string) {
    StartsWith(path, "/login") || StartsWith(path, "/api/auth")
  }

  /** The home area of a role: "/" + role. */
  function Home(r: Role): string {
    "/" + Segment(r)
  }

  /** The gate's own rule for an authenticated caller with role `r`. */
  function RoleRule(path: string, r: Role): (d: Decision)
    ensures StartsWith(path, "/api") ==> !d.Redirect?
    ensures !StartsWith(path, "/api") ==> d != Forbidden
    ensures d == Next <==>
      (StartsWith(path, "/api/profile") || StartsWith(path, "/api/" + Segment(r))
       || (!StartsWith(path, "/api") && StartsWith(path, Home(r))))
  {
    if StartsWith(path, "/api") then
      if StartsWith(path, "/api/profile") then Next
      else if !StartsWith(path, "/api/" + Segment(r)) then Forbidden
      else Next
    else if !StartsWith(path, Home(r)) then Redirect(Home(r))
    else Next
  }

  /** middleware.ts, lines 5-38. */
  function Middleware(path: string, token: Option<string>, verify: string -> Option<Payload>): (d: Decision)
    // the public paths pass whether or not a token is present
    ensures IsPublic(path) ==> d == Next
    // anything else without a valid token goes to the login page
    ensures !IsPublic(path) && Claims(token, verify).None? ==> d == Redirect("/login")
    // an API path is never redirected once the caller is authenticated, a page path never gets 403
    ensures d == Forbidden ==> StartsWith(path, "/api") && Claims(token, verify).Some?
    ensures d.Redirect? && StartsWith(path, "/api") ==> d == Redirect("/login")
    // a redirect goes to the login page or to the caller's own home area
    ensures d.Redirect? ==>
      d.location == "/login"
      || (Claims(token, verify).Some? && d.location == Home(Claims(token, verify).value.role))
    // what is let through: public, the shared profile API, or the caller's own area
    ensures d == Next ==>
      IsPublic(path)
      || (Claims(token, verify).Some?
          && var r := Claims(token, verify).value.role;
             StartsWith(path, "/api/profile") || StartsWith(path, "/api/" + Segment(r)) || StartsWith(path, Home(r)))
  {
    if IsPublic(path) then Next
    else
      match Claims(token, verify)
      case None => Redirect("/login")
      case Some(p) => RoleRule(path, p.role)
  }

  /** One `config.matcher` entry, "/base/:path*": the base itself or anything below it. */
  predicate MatchesPattern(path: string, base: string) {
    path == base || StartsWith(path, base + "/")
  }

  /** The paths `config.matcher` hands to the gate. */
  predicate Matched(path: string) {
    MatchesPattern(path, "/admin") || MatchesPattern(path, "/employee")
    || MatchesPattern(path, "/client") || MatchesPattern(path, "/api")
  }

  /** Two strings that differ at a position inside the prefix: no prefix relation. */
  lemma DiffersAt(s: string, prefix: string, i: nat)
    requires i < |prefix| && i < |s| && s[i] != prefix[i]
    ensures !StartsWith(s, prefix)
  {
  }

  /** A string that starts with `a` cannot start with a `b` that differs from `a` inside both. */
  lemma Incompatible(s: string, a: string, b: string, i: nat)
    requires StartsWith(s, a) && i < |a| && i < |b| && a[i] != b[i]
    ensures !StartsWith(s, b)
  {
    assert s[i] == a[i];
  }

  /** A string that starts with an extension of `prefix` starts with `prefix`. */
  lemma PrefixOfExtension(s: string, prefix: string, more: string)
    ensures StartsWith(s, prefix + more) ==> StartsWith(s, prefix)
  {
    if StartsWith(s, prefix + more) {
      assert s[..|prefix|] == (prefix + more)[..|prefix|] == prefix;
    }
  }

  /** Among matched paths the only public ones are those under /api/auth:
      /login is never handed to the gate. */
  lemma {:induction false} MatchedPublicIsAuthApi(path: string)
    requires Matched(path)
    ensures IsPublic(path) <==> StartsWith(path, "/api/auth")
  {
    assert |path| >= 4 && path[1] in "aec";
    DiffersAt(path, "/login", 1);
  }

  /** For an authenticated caller on a non-public path the gate applies RoleRule. */
  lemma {:induction false} GateAppliesRoleRule(path: string, token: Option<string>,
                                               verify: string -> Option<Payload>)
    requires !IsPublic(path) && Claims(token, verify).Some?
    ensures Middleware(path, token, verify) == RoleRule(path, Claims(token, verify).value.role)
  {
  }

  /** The first two letters of a role's segment: distinct first letters, none of them the
      'p' of "profile", and no second letter the 'u' of "auth". */
  lemma SegmentLetters(r: Role)
    ensures |Segment(r)| >= 5 && Segment(r)[1] != 'u' && Segment(r)[0] != 'p'
    ensures Segment(r)[0] == match r case ADMIN => 'a' case CLIENT => 'c' case EMPLOYEE => 'e'
  {
  }

  /** An authenticated caller on another role's API area gets 403, never a redirect:
      e.g. an EMPLOYEE token on /api/client/... */
  lemma {:induction false} OtherRoleApiForbidden(path: string, token: Option<string>,
                                                 verify: string -> Option<Payload>, other: Role)
    requires StartsWith(path, "/api/" + Segment(other))
    requires Claims(token, verify).Some? && Claims(token, verify).value.role != other
    ensures Middleware(path, token, verify) == Forbidden
  {
    var r := Claims(token, verify).value.role;
    var area := "/api/" + Segment(other);
    SegmentLetters(other);
    SegmentLetters(r);
    assert area[1] == 'a' && area[5] == Segment(other)[0] && area[6] == Segment(other)[1];
    Incompatible(path, area, "/login", 1);
    Incompatible(path, area, "/api/auth", 6);
    Incompatible(path, area, "/api/profile", 5);
    Incompatible(path, area, "/api/" + Segment(r), 5);
    assert "/api" + ("/" + Segment(other)) == area;
    PrefixOfExtension(path, "/api", "/" + Segment(other));
    GateAppliesRoleRule(path, token, verify);
  }

  /** An authenticated caller on another role's page area is redirected to its own home,
      never refused: e.g. an ADMIN token on /client goes to /admin. */
  lemma {:induction false} OtherRolePageRedirected(path: string, token: Option<string>,
                                                   verify: string -> Option<Payload>, other: Role)
    requires StartsWith(path, Home(other))
    requires Claims(token, verify).Some? && Claims(token, verify).value.role != other
    ensures Middleware(path, token, verify) == Redirect(Home(Claims(token, verify).value.role))
  {
    var r := Claims(token, verify).value.role;
    var home := Home(other);
    assert path[..|home|] == home;
    assert |home| >= 5 && home[1] == Segment(other)[0] && home[2] == Segment(other)[1];
    DiffersAt(path, "/login", 1);
    DiffersAt(path, "/api/auth", if path[1] == 'a' then 2 else 1);
    DiffersAt(path, "/api", if path[1] == 'a' then 2 else 1);
    DiffersAt(path, Home(r), 1);
    GateAppliesRoleRule(path, token, verify);
  }

  /** The messaging API (/api/messages and /api/messages/contacts) is refused for every role:
      it is neither the shared /api/profile nor under any /api/<role>. */
  lemma {:induction false} MessagingApiForbidden(path: string, token: Option<string>,
                                                 verify: string -> Option<Payload>)
    requires StartsWith(path, "/api/messages")
    requires Claims(token, verify).Some?
    ensures Middleware(path, token, verify) == Forbidden
  {
    var r := Claims(token, verify).value.role;
    assert path[..13] == "/api/messages";
    DiffersAt(path, "/login", 1);
    DiffersAt(path, "/api/auth", 5);
    DiffersAt(path, "/api/profile", 5);
    DiffersAt(path, "/api/" + Segment(r), 5);
    assert StartsWith(path, "/api") by { assert path[..4] == "/api"; }
    GateAppliesRoleRule(path, token, verify);
  }

  /** The prefix tests have no segment boundary: an ADMIN passes on /api/adminfoo and on
      /administrator, though the latter is not matched, so the gate never sees it. */
  lemma NoSegmentBoundary(token: Option<string>, verify: string -> Option<Payload>)
    requires Claims(token, verify).Some? && Claims(token, verify).value.role == ADMIN
    ensures Middleware("/api/adminfoo", token, verify) == Next
    ensures Middleware("/administrator", token, verify) == Next
    ensures Matched("/api/adminfoo") && !Matched("/administrator")
  {
    DiffersAt("/api/adminfoo", "/login", 1);
    DiffersAt("/api/adminfoo", "/api/auth", 6);
    DiffersAt("/api/adminfoo", "/api/profile", 5);
    assert StartsWith("/api/adminfoo", "/api/" + Segment(ADMIN));
    assert StartsWith("/api/adminfoo", "/api/");
    GateAppliesRoleRule("/api/adminfoo", token, verify);
    DiffersAt("/administrator", "/login", 1);
    DiffersAt("/administrator", "/api/auth", 2);
    DiffersAt("/administrator", "/api", 2);
    assert StartsWith("/administrator", Home(ADMIN));
    GateAppliesRoleRule("/administrator", token, verify);
    DiffersAt("/administrator", "/admin/", 6);
    DiffersAt("/administrator", "/employee/", 1);
    DiffersAt("/administrator", "/client/", 1);
    DiffersAt("/administrator", "/api/", 2);
  }

  /** The gate with the messaging API shared by every authenticated role, as /api/profile is:
      the evident intent, since the contacts route answers each of the three roles its own
      list of people to message, and the employee dashboard's messaging panel calls
      /api/messages and /api/messages/contacts. */
  function SharedMiddleware(path: string, token: Option<string>, verify: string -> Option<Payload>): (d: Decision)
    ensures !StartsWith(path, "/api/messages") ==> d == Middleware(path, token, verify)
    ensures StartsWith(path, "/api/messages") && Claims(token, verify).Some? ==> d == Next
    ensures StartsWith(path, "/api/messages") && Claims(token, verify).None? ==> d == Redirect("/login")
  {
    if StartsWith(path, "/api/messages") then
      assert path[..13] == "/api/messages";
      DiffersAt(path, "/login", 1);
      DiffersAt(path, "/api/auth", 5);
      if Claims(token, verify).Some? then Next else Redirect("/login")
    else Middleware(path, token, verify)
  }
}
