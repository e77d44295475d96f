/** The login route (app/api/auth/login/route.ts): validate the body, find the user by
    e-mail, compare the password, and on success answer the session claims and set the
    session cookie. Password comparison and token signing are parameters. */
module Login {
  import opened Common
  import opened Store
  import opened Schemas

  /** Seven days in seconds: the cookie's lifetime. */
  const CookieMaxAge: int := 60 * 60 * 24 * 7

  datatype Cookie = Cookie(name: string, value: string, httpOnly: bool, secure: bool,
                           sameSite: string, maxAge: int)

  datatype LoginReply = LoginReply(status: int, message: string, data: Option<Payload>, cookie: Option<Cookie>)

  /** POST. `production` is whether the deployment runs in production mode. */
  function HandleLogin(body: Body, users: seq<User>, comparePassword: (string, string) -> bool,
                       signToken: Payload -> string, production: bool): (r: LoginReply)
    // the schema is checked before any lookup
    ensures ParseLogin(body).None? ==> r == LoginReply(400, "Email and Password are required", None, None)
    ensures r.status == 404 <==> ParseLogin(body).Some? && FindUserByEmail(users, ParseLogin(body).value.email).None?
    ensures r.status == 401 <==>
      ParseLogin(body).Some? && FindUserByEmail(users, ParseLogin(body).value.email).Some?
      && !comparePassword(ParseLogin(body).value.password, FindUserByEmail(users, ParseLogin(body).value.email).value.password)
    ensures r.status == 400 <==> ParseLogin(body).None?
    // a known e-mail with a matching password logs in
    ensures r.status == 200 <==>
      ParseLogin(body).Some? && FindUserByEmail(users, ParseLogin(body).value.email).Some?
      && comparePassword(ParseLogin(body).value.password, FindUserByEmail(users, ParseLogin(body).value.email).value.password)
    ensures r.status in {200, 400, 401, 404}
    // claims and cookie only on success
    ensures r.status != 200 ==> r.data.None? && r.cookie.None?
    ensures r.status == 200 ==>
      var u := FindUserByEmail(users, ParseLogin(body).value.email).value;
      u in users && u.email == ParseLogin(body).value.email
      && comparePassword(ParseLogin(body).value.password, u.password)
      && r.data == Some(Payload(u.id, u.role, u.email))
      && r.cookie == Some(Cookie("token", signToken(Payload(u.id, u.role, u.email)), true, production, "lax", CookieMaxAge))
  {
    match ParseLogin(body)
    case None => LoginReply(400, "Email and Password are required", None, None)
    case Some(input) =>
      match FindUserByEmail(users, input.email)
      case None => LoginReply(404, "User not found", None, None)
      case Some(u) =>
        if !comparePassword(input.password, u.password) then LoginReply(401, "Invalid Password", None, None)
        else
          var payload := Payload(u.id, u.role, u.email);
          LoginReply(200, "Login successful", Some(payload),
                     Some(Cookie("token", signToken(payload), true, production, "lax", CookieMaxAge)))
  }

  /** The signed token carries exactly the claims the reply returns, and the cookie is
      secure exactly in production. */
  lemma TokenMatchesReply(body: Body, users: seq<User>, comparePassword: (string, string) -> bool,
                          signToken: Payload -> string, production: bool)
    ensures var r := HandleLogin(body, users, comparePassword, signToken, production);
      r.status == 200 ==>
        r.cookie.value.value == signToken(r.data.value) && r.cookie.value.secure == production
        && r.cookie.value.maxAge == 604800 && r.data.value.email == ParseLogin(body).value.email
  {
  }
}
