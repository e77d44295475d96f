/** The contacts route (app/api/messages/contacts/route.ts): the users the caller may start
    a conversation with. The caller's role selects which user roles the query admits, and the
    query sorts them by e-mail. */
module Contacts {
  import opened Common
  import opened Seqs
  import opened Store

  /** The role filter of the query's `where`: an ADMIN sees everyone, an EMPLOYEE sees
      clients and admins, a CLIENT sees employees and admins. */
  predicate Visible(viewer: Role, c: Contact) {
    match viewer
    case ADMIN => true
    case EMPLOYEE => c.role == Some(CLIENT) || c.role == Some(ADMIN)
    case CLIENT => c.role == Some(EMPLOYEE) || c.role == Some(ADMIN)
  }

  /** Code-point order on strings: the order `orderBy: {email: "asc"}` is modelled with. */
  predicate LexLe(a: string, b: string)
    decreases |a|
  {
    a == [] || (b != [] && (a[0] < b[0] || (a[0] == b[0] && LexLe(a[1..], b[1..]))))
  }

  predicate ByEmail(a: Contact, b: Contact) {
    LexLe(a.email, b.email)
  }

  /** Any two strings are comparable. */
  lemma {:induction false} LexLeTotal(a: string, b: string)
    ensures LexLe(a, b) || LexLe(b, a)
    decreases |a|
  {
    if a != [] && b != [] && a[0] == b[0] {
      LexLeTotal(a[1..], b[1..]);
    }
  }

  lemma {:induction false} LexLeTrans(a: string, b: string, c: string)
    requires LexLe(a, b) && LexLe(b, c)
    ensures LexLe(a, c)
    decreases |a|
  {
    if a != [] && a[0] == b[0] && b[0] == c[0] {
      LexLeTrans(a[1..], b[1..], c[1..]);
    }
  }

  /** `c` put before the first contact whose e-mail is not below its own. */
  function InsertByEmail(c: Contact, s: seq<Contact>): (r: seq<Contact>)
    requires Ordered(s, ByEmail)
    ensures Ordered(r, ByEmail)
    ensures multiset(r) == multiset(s) + multiset{c}
  {
    if s == [] then [c]
    else if LexLe(c.email, s[0].email) then
      forall k | 0 <= k < |s| ensures LexLe(c.email, s[k].email) {
        if k > 0 {
          LexLeTrans(c.email, s[0].email, s[k].email);
        }
      }
      [c] + s
    else
      LexLeTotal(c.email, s[0].email);
      assert s == [s[0]] + s[1..];
      var rest := InsertByEmail(c, s[1..]);
      forall k | 0 <= k < |rest| ensures LexLe(s[0].email, rest[k].email) {
        assert rest[k] in multiset(rest);
      }
      [s[0]] + rest
  }

  /** `orderBy: {email: "asc"}`: the contacts sorted by e-mail. */
  function SortByEmail(s: seq<Contact>): (r: seq<Contact>)
    ensures Ordered(r, ByEmail)
    ensures multiset(r) == multiset(s)
  {
    if s == [] then []
    else
      assert s == [s[0]] + s[1..];
      InsertByEmail(s[0], SortByEmail(s[1..]))
  }

  /** GET. `table` is the user table as the query selects it, or None when the query throws;
      the query's `where` is the role filter and its `orderBy` the e-mail sort. */
  function ListContacts(me: Option<Payload>, table: Option<seq<Contact>>): (r: Reply<seq<Contact>>)
    ensures me.None? ==> r == Reply(401, "Unauthorized", None)
    ensures me.Some? && table.None? ==> r == Reply(500, "Something went wrong", None)
    ensures me.Some? && table.Some? ==> r.status == 200 && r.message == "Contacts" && r.data.Some?
    ensures r.data.Some? ==>
      (forall i :: 0 <= i < |r.data.value| ==> r.data.value[i] in table.value && Visible(me.value.role, r.data.value[i]))
      && (forall i :: 0 <= i < |table.value| && Visible(me.value.role, table.value[i]) ==> table.value[i] in r.data.value)
  {
    match me
    case None => Reply(401, "Unauthorized", None)
    case Some(p) =>
      match table
      case None => Reply(500, "Something went wrong", None)
      case Some(users) =>
        var visible := Filter(users, (c: Contact) => Visible(p.role, c));
        var sorted := SortByEmail(visible);
        SameMembers(sorted, visible);
        Reply(200, "Contacts", Some(sorted))
  }

  /** An ADMIN gets the whole table, itself and the other admins included, each user once. */
  lemma {:induction false} AdminSeesEveryone(me: Payload, table: seq<Contact>)
    requires me.role == ADMIN
    ensures multiset(ListContacts(Some(me), Some(table)).data.value) == multiset(table)
  {
    FilterAll(table, (c: Contact) => Visible(me.role, c));
  }

  /** A non-admin never sees a user of its own role, so never itself when its own row carries
      its role; admins are visible to every role. */
  lemma {:induction false} NonAdminSeesOtherRoles(me: Payload, table: seq<Contact>)
    requires me.role != ADMIN
    requires forall k :: 0 <= k < |table| && table[k].id == me.id ==> table[k].role == Some(me.role)
    ensures forall i :: 0 <= i < |ListContacts(Some(me), Some(table)).data.value| ==>
      var c := ListContacts(Some(me), Some(table)).data.value[i];
      c.role != Some(me.role) && c.id != me.id
    ensures forall k :: 0 <= k < |table| && table[k].role == Some(ADMIN) ==>
      table[k] in ListContacts(Some(me), Some(table)).data.value
  {
    var result := ListContacts(Some(me), Some(table)).data.value;
    forall i | 0 <= i < |result|
      ensures result[i].role != Some(me.role) && result[i].id != me.id
    {
      assert result[i] in table;
      var k :| 0 <= k < |table| && table[k] == result[i];
    }
  }

  /** The contacts come in ascending e-mail order, and they are the visible users, each as
      often as in the table. */
  lemma {:induction false} ContactsByEmail(me: Payload, table: seq<Contact>)
    ensures Ordered(ListContacts(Some(me), Some(table)).data.value, ByEmail)
    ensures multiset(ListContacts(Some(me), Some(table)).data.value)
            == multiset(Filter(table, (c: Contact) => Visible(me.role, c)))
  {
  }
}
