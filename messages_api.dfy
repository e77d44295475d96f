/** The messages route (app/api/messages/route.ts): GET lists the caller's conversations,
    POST sends a message, PUT sets a message's read flag. The caller is what session lookup
    makes of the request (None: no valid session); a store failure answers 500. */
module MessagesApi {
  import opened Common
  import opened Seqs
  import opened Store
  import opened Conversations

  /** GET. `query` is what the store returns for the caller's messages with sender and
      receiver joined in, newest first; None when the query throws. */
  function ListConversations(user: Option<Payload>, query: Option<seq<Row>>): (r: Reply<seq<Conversation<Row>>>)
    ensures user.None? ==> r == Reply(401, "Unauthorized", None)
    ensures user.Some? && query.None? ==> r == Reply(500, "Failed to load messages", None)
    ensures user.Some? && query.Some? ==> r.status == 200 && r.data.Some?
    // distinct partners, each taken from its first message, with exactly its thread, in
    // first-seen order, covering every row
    ensures r.data.Some? ==> Grouping(user.value.id, query.value, r.data.value)
  {
    match user
    case None => Reply(401, "Unauthorized", None)
    case Some(u) =>
      match query
      case None => Reply(500, "Failed to load messages", None)
      case Some(rows) =>
        GroupIsGrouping(u.id, rows);
        Reply(200, "", Some(Group(u.id, rows)))
  }

  /** What the caller's message query returns from the message table before the join: the
      messages the caller sent or received. */
  function CallerMessages(messages: seq<Message>, me: Id): (r: seq<Message>)
    ensures forall i :: 0 <= i < |r| ==> r[i] in messages && (r[i].senderId == me || r[i].receiverId == me)
    ensures forall i :: 0 <= i < |messages| && (messages[i].senderId == me || messages[i].receiverId == me) ==>
      messages[i] in r
  {
    Filter(messages, (m: Message) => m.senderId == me || m.receiverId == me)
  }

  /** The query and the grouping together: when the rows are the caller's messages with their
      own sender and receiver joined in, every message of a conversation passes between the
      caller and that conversation's partner, one way or the other. */
  lemma {:induction false} ConversationsAreBetweenCallerAndPartner(user: Payload, messages: seq<Message>,
                                                                  rows: seq<Row>, i: nat, k: nat)
    requires forall j :: 0 <= j < |rows| ==> Joined(rows[j]) && rows[j].msg in CallerMessages(messages, user.id)
    requires i < |ListConversations(Some(user), Some(rows)).data.value|
    requires k < |ListConversations(Some(user), Some(rows)).data.value[i].conversation|
    ensures var c := ListConversations(Some(user), Some(rows)).data.value[i];
      var m := c.conversation[k].msg;
      (m.senderId == user.id && m.receiverId == c.partner.id) || (m.receiverId == user.id && m.senderId == c.partner.id)
  {
    var me := user.id;
    var convs := Group(me, rows);
    GroupIsGrouping(me, rows);
    var c := convs[i];
    assert c.conversation == ThreadWith(me, rows, c.partner.id);
    var x := c.conversation[k];
    assert x in rows && PartnerId(me, x) == c.partner.id;
    var j :| 0 <= j < |rows| && rows[j] == x;
    var caller := CallerMessages(messages, me);
    var n :| 0 <= n < |caller| && caller[n] == x.msg;
    PartnerOfOwnMessage(me, x);
  }

  /** The outcome of POST's body checks. */
  datatype PostCheck =
    | MissingFields                              // `!receiverId || !message`: 400
    | NotStrings                                 // truthy but not strings: the insert throws, 500
    | Accepted(receiverId: Id, text: string)

  function CheckPost(body: Body): (c: PostCheck)
    ensures c == MissingFields <==> !Truthy(Field(body, "receiverId")) || !Truthy(Field(body, "message"))
    ensures c.Accepted? <==>
      Field(body, "receiverId").Str? && Field(body, "message").Str?
      && Field(body, "receiverId").s != "" && Field(body, "message").s != ""
    ensures c.Accepted? ==> Field(body, "receiverId") == Str(c.receiverId) && Field(body, "message") == Str(c.text)
  {
    var rid, text := Field(body, "receiverId"), Field(body, "message");
    if !Truthy(rid) || !Truthy(text) then MissingFields
    else if rid.Str? && text.Str? then Accepted(rid.s, text.s)
    else NotStrings
  }

  /** POST: checks the session, then the body, then inserts the message from the caller.
      `newId` and `now` are the id and timestamp the store assigns. A receiver that is not a
      user violates the message's foreign key, which the store reports as a failure; so does a
      caller whose session outlived its user record. */
  method SendMessage(db: Database, user: Option<Payload>, body: Body, newId: Id, now: int)
    returns (reply: Reply<Message>)
    requires db.Valid()
    requires forall i :: 0 <= i < |db.messages| ==> db.messages[i].id != newId
    modifies db
    ensures db.Valid()
    ensures db.users == old(db.users) && db.clients == old(db.clients) && db.employees == old(db.employees)
    ensures db.projects == old(db.projects) && db.assignments == old(db.assignments)
    ensures db.services == old(db.services) && db.requests == old(db.requests)
    ensures user.None? ==> reply == Reply(401, "Unauthorized", None)
    ensures reply.status == 401 <==> user.None?
    ensures reply.status == 400 <==> user.Some? && CheckPost(body) == MissingFields
    // non-string fields, an unknown receiver or an unknown caller make the insert fail
    ensures reply.status == 500 <==>
      user.Some? && CheckPost(body) != MissingFields
      && (CheckPost(body) == NotStrings || FindUserById(db.users, CheckPost(body).receiverId).None?
          || FindUserById(db.users, user.value.id).None?)
    ensures reply.status == 500 ==> reply == Reply(500, "Failed to send", None)
    ensures reply.status in {201, 400, 401, 500}
    ensures reply.status != 201 ==> db.messages == old(db.messages) && reply.data.None?
    ensures reply.status == 201 <==>
      user.Some? && CheckPost(body).Accepted? && FindUserById(db.users, CheckPost(body).receiverId).Some?
      && FindUserById(db.users, user.value.id).Some?
    ensures reply.status == 201 ==>
      var m := Message(newId, user.value.id, CheckPost(body).receiverId, CheckPost(body).text, false, now);
      reply.data == Some(m) && db.messages == old(db.messages) + [m]
  {
    if user.None? {
      return Reply(401, "Unauthorized", None);
    }
    var check := CheckPost(body);
    if check == MissingFields {
      return Reply(400, "receiverId and message required", None);
    }
    if check == NotStrings || FindUserById(db.users, check.receiverId).None?
       || FindUserById(db.users, user.value.id).None? {
      return Reply(500, "Failed to send", None);
    }
    var created := Message(newId, user.value.id, check.receiverId, check.text, false, now);
    db.messages := db.messages + [created];
    return Reply(201, "", Some(created));
  }

  /** PUT: checks the session, then `!id || typeof read !== "boolean"`, then updates the
      read flag. An id that names no message makes the update throw: 500, not 404. Any
      authenticated caller may update any message. */
  method SetRead(db: Database, user: Option<Payload>, body: Body) returns (reply: Reply<Message>)
    requires db.Valid()
    modifies db
    ensures db.Valid()
    ensures db.users == old(db.users) && db.clients == old(db.clients) && db.employees == old(db.employees)
    ensures db.projects == old(db.projects) && db.assignments == old(db.assignments)
    ensures db.services == old(db.services) && db.requests == old(db.requests)
    ensures user.None? ==> reply == Reply(401, "Unauthorized", None)
    ensures reply.status == 400 <==>
      user.Some? && (!Truthy(Field(body, "id")) || !Field(body, "read").Bool?)
    ensures reply.status == 401 <==> user.None?
    // a truthy id that is not a string, or that names no message, makes the update fail
    ensures reply.status == 500 <==>
      user.Some? && Truthy(Field(body, "id")) && Field(body, "read").Bool?
      && (!Field(body, "id").Str? || FindMessage(old(db.messages), Field(body, "id").s).None?)
    ensures reply.status == 500 ==> reply == Reply(500, "Failed to update", None)
    ensures reply.status in {200, 400, 401, 500}
    ensures reply.status != 200 ==> db.messages == old(db.messages) && reply.data.None?
    ensures reply.status == 200 <==>
      user.Some? && Field(body, "id").Str? && Field(body, "id").s != "" && Field(body, "read").Bool?
      && FindMessage(old(db.messages), Field(body, "id").s).Some?
    ensures reply.status == 200 ==>
      var id, read := Field(body, "id").s, Field(body, "read").b;
      db.messages == WithRead(old(db.messages), id, read)
      && reply.data == Some(FindMessage(old(db.messages), id).value.(read := read))
  {
    if user.None? {
      return Reply(401, "Unauthorized", None);
    }
    var id, read := Field(body, "id"), Field(body, "read");
    if !Truthy(id) || !read.Bool? {
      return Reply(400, "id and read flag required", None);
    }
    if !id.Str? || FindMessage(db.messages, id.s).None? {
      return Reply(500, "Failed to update", None);
    }
    var updated := FindMessage(db.messages, id.s).value.(read := read.b);
    WithReadChangesOnlyRead(db.messages, id.s, read.b);
    db.messages := WithRead(db.messages, id.s, read.b);
    return Reply(200, "", Some(updated));
  }

  /** Setting the same read flag twice leaves the table as the first call left it. */
  lemma SetReadIdempotent(messages: seq<Message>, id: Id, read: bool)
    ensures WithRead(WithRead(messages, id, read), id, read) == WithRead(messages, id, read)
    ensures FindMessage(WithRead(messages, id, read), id).Some? <==> FindMessage(messages, id).Some?
  {
    WithReadChangesOnlyRead(messages, id, read);
    if FindMessage(messages, id).Some? {
      var k :| 0 <= k < |messages| && messages[k].id == id;
      assert WithRead(messages, id, read)[k].id == id;
    }
  }
}
