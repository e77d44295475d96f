/** Vocabulary shared by the request gate, the route handlers and the pages:
    identities and roles, the claims a session token carries, JSON body fields
    with JavaScript truthiness, HTTP replies, and the string primitives the
    handlers rely on (startsWith, includes, toLowerCase, toUpperCase, trim). */
module Common {

  datatype Option<T> = None | Some(value: T)

  /** Record identifiers are strings (the store generates them). */
  type Id = string

  /** The three user roles of the store's role enumeration. */
  datatype Role = ADMIN | CLIENT | EMPLOYEE

  /** The role as it is spelled in tokens, bodies and the store. */
  function RoleName(r: Role): string {
    match r
    case ADMIN => "ADMIN"
    case CLIENT => "CLIENT"
    case EMPLOYEE => "EMPLOYEE"
  }

  /** Parses a role name; the inverse of RoleName on the three spellings. */
  function ParseRole(s: string): (r: Option<Role>)
    ensures r.Some? <==> s in {"ADMIN", "CLIENT", "EMPLOYEE"}
    ensures r.Some? ==> RoleName(r.value) == s
  {
    if s == "ADMIN" then Some(ADMIN)
    else if s == "CLIENT" then Some(CLIENT)
    else if s == "EMPLOYEE" then Some(EMPLOYEE)
    else None
  }

  /** The claims a session token carries: {id, role, email}. */
  datatype Payload = Payload(id: Id, role: Role, email: string)

  /** The value of one field of a parsed JSON request body, as JavaScript sees it;
      a field that is absent reads as Undefined. Fractional numbers are not modelled. */
  datatype Json = Undefined | Null | Bool(b: bool) | Num(n: int) | Str(s: string) | Composite

  /** JavaScript truthiness: what `if (!x)` rejects is exactly the falsy values. */
  predicate Truthy(j: Json) {
    match j
    case Undefined => false
    case Null => false
    case Bool(b) => b
    case Num(n) => n != 0
    case Str(s) => s != ""
    case Composite => true
  }

  /** A parsed JSON object body. */
  type Body = map<string, Json>

  /** Destructuring `const { key } = body`. */
  function Field(body: Body, key: string): Json {
    if key in body then body[key] else Undefined
  }

  /** An optional string that is present and non-empty, i.e. truthy. */
  predicate Present(s: Option<string>) {
    s.Some? && s.value != ""
  }

  /** An HTTP reply: status code, the `message` of the JSON body and its `data`, if any. */
  datatype Reply<T> = Reply(status: int, message: string, data: Option<T>)

  /** String.prototype.startsWith: a raw prefix test, with no segment boundary. */
  predicate StartsWith(s: string, prefix: string) {
    prefix <= s
  }

  /** String.prototype.includes: `q` occurs somewhere in `s`. */
  predicate Contains(s: string, q: string)
    decreases |s|
  {
    q <= s || (s != [] && Contains(s[1..], q))
  }

  lemma {:induction false} ContainsInRight(a: string, b: string, q: string)
    requires Contains(b, q)
    ensures Contains(a + b, q)
  {
    if a != [] {
      assert (a + b)[1..] == a[1..] + b;
      ContainsInRight(a[1..], b, q);
      assert Contains((a + b)[1..], q);
    } else {
      assert a + b == b;
    }
  }

  lemma {:induction false} ContainsInLeft(a: string, b: string, q: string)
    requires Contains(a, q)
    ensures Contains(a + b, q)
  {
    if q <= a {
      assert q <= a + b;
    } else {
      assert (a + b)[1..] == a[1..] + b;
      ContainsInLeft(a[1..], b, q);
    }
  }

  lemma {:induction false} ContainsInMiddle(pre: string, mid: string, post: string, q: string)
    requires Contains(mid, q)
    ensures Contains(pre + mid + post, q)
  {
    ContainsInLeft(mid, post, q);
    ContainsInRight(pre, mid + post, q);
    assert pre + (mid + post) == pre + mid + post;
  }

  /** ASCII approximation of toLowerCase on one character. */
  function LowerChar(c: char): char {
    if 'A' <= c <= 'Z' then (c as int + 32) as char else c
  }

  /** ASCII approximation of toUpperCase on one character. */
  function UpperChar(c: char): char {
    if 'a' <= c <= 'z' then (c as int - 32) as char else c
  }

  /** String.prototype.toLowerCase, restricted to ASCII letters. */
  function ToLower(s: string): (r: string)
    ensures |r| == |s|
    ensures forall i :: 0 <= i < |s| ==> r[i] == LowerChar(s[i])
  {
    if s == [] then [] else [LowerChar(s[0])] + ToLower(s[1..])
  }

  lemma ToLowerAppend(a: string, b: string)
    ensures ToLower(a + b) == ToLower(a) + ToLower(b)
  {
    assert forall i :: 0 <= i < |a + b| ==> ToLower(a + b)[i] == (ToLower(a) + ToLower(b))[i];
  }

  /** The characters String.prototype.trim removes: white space and line terminators. */
  predicate IsSpace(c: char) {
    c == ' ' || c == '\t' || c == '\n' || c == '\r' || c == '\U{B}' || c == '\U{C}' || c == '\U{A0}'
    || c == '\U{1680}' || c == '\U{2028}' || c == '\U{2029}' || c == '\U{202F}' || c == '\U{205F}'
    || c == '\U{3000}' || c == '\U{FEFF}' || '\U{2000}' <= c <= '\U{200A}'
  }

  /** A string with no character left after trimming. */
  predicate Blank(s: string) {
    forall i :: 0 <= i < |s| ==> IsSpace(s[i])
  }

  function TrimStart(s: string): (r: string)
    ensures |r| <= |s| && r == s[|s| - |r|..]
    ensures r == [] <==> Blank(s)
    ensures r != [] ==> !IsSpace(r[0])
  {
    if s != [] && IsSpace(s[0]) then TrimStart(s[1..]) else s
  }

  /** What TrimStart cuts off is white space. */
  lemma {:induction false} TrimStartCutsBlank(s: string)
    ensures Blank(s[..|s| - |TrimStart(s)|])
  {
    if s != [] && IsSpace(s[0]) {
      TrimStartCutsBlank(s[1..]);
      var k := |s| - |TrimStart(s)|;
      assert s[..k] == [s[0]] + s[1..][..k - 1];
    }
  }

  function TrimEnd(s: string): (r: string)
    ensures r <= s
    ensures r == [] <==> Blank(s)
    ensures r != [] ==> !IsSpace(r[|r| - 1])
  {
    if s != [] && IsSpace(s[|s| - 1]) then TrimEnd(s[..|s| - 1]) else s
  }

  /** What TrimEnd cuts off is white space. */
  lemma {:induction false} TrimEndCutsBlank(s: string)
    ensures Blank(s[|TrimEnd(s)|..])
  {
    if s != [] && IsSpace(s[|s| - 1]) {
      TrimEndCutsBlank(s[..|s| - 1]);
      var k := |TrimEnd(s)|;
      assert s[k..] == s[..|s| - 1][k..] + [s[|s| - 1]];
    }
  }

  /** String.prototype.trim: the string without leading and trailing white space. */
  function Trim(s: string): (r: string)
    ensures r == [] <==> Blank(s)
    ensures r != [] ==> !IsSpace(r[0]) && !IsSpace(r[|r| - 1])
    // only white space is removed, and only at the two ends
    ensures exists a, b :: 0 <= a <= b <= |s| && r == s[a..b] && Blank(s[..a]) && Blank(s[b..])
  {
    TrimBounds(s);
    TrimEnd(TrimStart(s))
  }

  /** Where the trimmed string sits inside `s`, with white space on either side. */
  lemma TrimBounds(s: string)
    ensures exists a, b :: 0 <= a <= b <= |s| && TrimEnd(TrimStart(s)) == s[a..b] && Blank(s[..a]) && Blank(s[b..])
  {
    var t := TrimStart(s);
    var r := TrimEnd(t);
    var a, b := |s| - |t|, |s| - |t| + |r|;
    SuffixSlices(s, a, |r|);
    assert r == t[..|r|];
    TrimStartCutsBlank(s);
    TrimEndCutsBlank(t);
  }

  lemma SuffixSlices(s: string, a: nat, k: nat)
    requires a + k <= |s|
    ensures s[a..][k..] == s[a + k..] && s[a..][..k] == s[a..a + k]
  {
  }
}
