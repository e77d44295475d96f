/** The request-body schemas of app/lib/schemaTypes.ts as parsers: a body passes when every
    field has the required type and constraint, and parsing yields the typed fields. The
    e-mail format check is a parameter. */
module Schemas {
  import opened Common

  /** The minimum password length of `registerSchema`. */
  const MinPassword: nat := 6

  datatype RegisterInput = RegisterInput(email: string, password: string, role: Role)
  datatype LoginInput = LoginInput(email: string, password: string)

  /** `registerSchema.safeParse(body)`: an e-mail string, a password of at least six
      characters, and one of the three role names. */
  function ParseRegister(body: Body, isEmail: string -> bool): (r: Option<RegisterInput>)
    ensures r.Some? <==>
      Field(body, "email").Str? && isEmail(Field(body, "email").s)
      && Field(body, "password").Str? && |Field(body, "password").s| >= MinPassword
      && Field(body, "role").Str? && Field(body, "role").s in {"ADMIN", "CLIENT", "EMPLOYEE"}
    ensures r.Some? ==>
      Field(body, "email") == Str(r.value.email) && Field(body, "password") == Str(r.value.password)
      && Field(body, "role") == Str(RoleName(r.value.role))
  {
    var email, password, role := Field(body, "email"), Field(body, "password"), Field(body, "role");
    if email.Str? && isEmail(email.s) && password.Str? && |password.s| >= MinPassword && role.Str? then
      match ParseRole(role.s)
      case Some(rl) => Some(RegisterInput(email.s, password.s, rl))
      case None => None
    else None
  }

  /** `loginSchema.safeParse(body)`: two strings, with no further constraint. */
  function ParseLogin(body: Body): (r: Option<LoginInput>)
    ensures r.Some? <==> Field(body, "email").Str? && Field(body, "password").Str?
    ensures r.Some? ==> Field(body, "email") == Str(r.value.email) && Field(body, "password") == Str(r.value.password)
  {
    var email, password := Field(body, "email"), Field(body, "password");
    if email.Str? && password.Str? then Some(LoginInput(email.s, password.s)) else None
  }

  /** Any two strings log in as themselves, whatever else the body carries. */
  lemma LoginAcceptsAnyStrings(extra: Body, email: string, password: string)
    ensures ParseLogin(extra["email" := Str(email)]["password" := Str(password)]) == Some(LoginInput(email, password))
  {
  }

  /** Keys other than the two fields are ignored (the schema strips unknown keys). */
  lemma LoginIgnoresOtherKeys(body: Body, key: string, value: Json)
    requires key != "email" && key != "password"
    ensures ParseLogin(body[key := value]) == ParseLogin(body)
  {
  }

  /** Likewise for the register schema. */
  lemma RegisterIgnoresOtherKeys(body: Body, isEmail: string -> bool, key: string, value: Json)
    requires key != "email" && key != "password" && key != "role"
    ensures ParseRegister(body[key := value], isEmail) == ParseRegister(body, isEmail)
  {
  }

  /** The register schema accepts every role, ADMIN included, with a five-character password
      rejected and a six-character one accepted. */
  lemma RegisterExamples(email: string, isEmail: string -> bool)
    requires isEmail(email)
    ensures ParseRegister(map["email" := Str(email), "password" := Str("12345"), "role" := Str("CLIENT")], isEmail).None?
    ensures forall r: Role ::
      ParseRegister(map["email" := Str(email), "password" := Str("123456"), "role" := Str(RoleName(r))], isEmail)
      == Some(RegisterInput(email, "123456", r))
  {
  }

  /** The login schema takes empty strings but not missing or non-string fields. */
  lemma LoginExamples()
    ensures ParseLogin(map["email" := Str(""), "password" := Str("")]) == Some(LoginInput("", ""))
    ensures ParseLogin(map["email" := Str("a@b.c")]).None?
    ensures ParseLogin(map["email" := Num(1), "password" := Str("x")]).None?
  {
  }
}
