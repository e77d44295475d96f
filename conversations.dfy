/** Grouping of a caller's messages into conversations (the `reduce` of the
    messages GET handler): one conversation per counterparty, in the order each
    counterparty is first met in the input, each holding that counterparty's
    messages in input order. */
module Conversations {
  import opened Common
  import opened Seqs
  import opened Store

  /** A message as the GET query returns it: with its sender and receiver joined in. */
  datatype Row = Row(msg: Message, sender: Contact, receiver: Contact)

  /** {partner, conversation}: a counterparty and the messages exchanged with it. */
  datatype Conversation<M> = Conversation(partner: Contact, conversation: seq<M>)

  /** The other party of a message, as seen by `me`: the receiver when `me` sent it,
      otherwise the sender. */
  function Partner(me: Id, r: Row): Contact {
    if r.msg.senderId == me then r.receiver else r.sender
  }

  function PartnerId(me: Id, r: Row): Id {
    Partner(me, r).id
  }

  /** Reference definition of a thread: the messages of `rows` whose counterparty is `pid`,
      in input order. */
  function ThreadWith(me: Id, rows: seq<Row>, pid: Id): seq<Row> {
    Filter(rows, (r: Row) => PartnerId(me, r) == pid)
  }

  /** The index of the first message of `rows` whose counterparty is `pid`, or |rows|. */
  function FirstSeen(me: Id, rows: seq<Row>, pid: Id): (k: nat)
    ensures k <= |rows|
    ensures k < |rows| ==> PartnerId(me, rows[k]) == pid
    ensures forall j :: 0 <= j < k && j < |rows| ==> PartnerId(me, rows[j]) != pid
  {
    if rows == [] then 0
    else if PartnerId(me, rows[0]) == pid then 0
    else 1 + FirstSeen(me, rows[1..], pid)
  }

  /** `acc.findIndex(c => c.partner.id === pid)`. */
  function FindIndex(acc: seq<Conversation<Row>>, pid: Id): (i: int)
    ensures -1 <= i < |acc|
    ensures i == -1 <==> forall k :: 0 <= k < |acc| ==> acc[k].partner.id != pid
    ensures i >= 0 ==> acc[i].partner.id == pid
  {
    if acc == [] then -1
    else if acc[0].partner.id == pid then 0
    else var j := FindIndex(acc[1..], pid); if j == -1 then -1 else j + 1
  }

  /** One step of the reduce: append `r` to its counterparty's conversation, or push a new
      conversation for a counterparty not seen yet. */
  function Step(me: Id, acc: seq<Conversation<Row>>, r: Row): seq<Conversation<Row>> {
    var p := Partner(me, r);
    var idx := FindIndex(acc, p.id);
    if idx == -1 then acc + [Conversation(p, [r])]
    else acc[idx := acc[idx].(conversation := acc[idx].conversation + [r])]
  }

  /** `msgs.reduce(Step, [])`. */
  function Group(me: Id, rows: seq<Row>): seq<Conversation<Row>> {
    if rows == [] then [] else Step(me, Group(me, rows[..|rows| - 1]), rows[|rows| - 1])
  }

  /** The number of messages across all conversations. */
  function TotalLength<M>(convs: seq<Conversation<M>>): nat {
    if convs == [] then 0 else TotalLength(convs[..|convs| - 1]) + |convs[|convs| - 1].conversation|
  }

  ghost predicate DistinctPartners<M>(convs: seq<Conversation<M>>) {
    forall i, j :: 0 <= i < j < |convs| ==> convs[i].partner.id != convs[j].partner.id
  }

  /** Each conversation is exactly the thread of its partner. */
  ghost predicate GroupsAreThreads(me: Id, rows: seq<Row>, convs: seq<Conversation<Row>>) {
    forall i :: 0 <= i < |convs| ==> convs[i].conversation == ThreadWith(me, rows, convs[i].partner.id)
  }

  /** Some conversation has `pid` as its partner. */
  ghost predicate HasPartner<M>(convs: seq<Conversation<M>>, pid: Id) {
    exists i :: 0 <= i < |convs| && convs[i].partner.id == pid
  }

  /** Every message's counterparty has a conversation. */
  ghost predicate CoversRows(me: Id, rows: seq<Row>, convs: seq<Conversation<Row>>) {
    forall j :: 0 <= j < |rows| ==> HasPartner(convs, PartnerId(me, rows[j]))
  }

  /** Every conversation's partner is taken from the first message exchanged with it. */
  ghost predicate PartnersFromFirst(me: Id, rows: seq<Row>, convs: seq<Conversation<Row>>) {
    forall i :: 0 <= i < |convs| ==>
      FirstSeen(me, rows, convs[i].partner.id) < |rows|
      && convs[i].partner == Partner(me, rows[FirstSeen(me, rows, convs[i].partner.id)])
  }

  /** Conversations come in the order their partners are first seen. */
  ghost predicate FirstSeenOrder(me: Id, rows: seq<Row>, convs: seq<Conversation<Row>>) {
    forall i, j :: 0 <= i < j < |convs| ==>
      FirstSeen(me, rows, convs[i].partner.id) < FirstSeen(me, rows, convs[j].partner.id)
  }

  ghost predicate Grouping(me: Id, rows: seq<Row>, convs: seq<Conversation<Row>>) {
    DistinctPartners(convs) && GroupsAreThreads(me, rows, convs) && CoversRows(me, rows, convs)
    && PartnersFromFirst(me, rows, convs) && FirstSeenOrder(me, rows, convs) && TotalLength(convs) == |rows|
  }

  lemma {:induction false} ThreadAppend(me: Id, rows: seq<Row>, r: Row, pid: Id)
    ensures ThreadWith(me, rows + [r], pid)
            == ThreadWith(me, rows, pid) + (if PartnerId(me, r) == pid then [r] else [])
  {
    assert (rows + [r])[..|rows|] == rows;
  }

  lemma {:induction false} FirstSeenAppend(me: Id, rows: seq<Row>, r: Row, pid: Id)
    ensures FirstSeen(me, rows, pid) < |rows| ==> FirstSeen(me, rows + [r], pid) == FirstSeen(me, rows, pid)
    ensures FirstSeen(me, rows, pid) == |rows| && PartnerId(me, r) == pid ==> FirstSeen(me, rows + [r], pid) == |rows|
  {
    var k := FirstSeen(me, rows, pid);
    forall j | 0 <= j < k && j < |rows|
      ensures PartnerId(me, (rows + [r])[j]) != pid
    {
      assert (rows + [r])[j] == rows[j];
    }
    if k < |rows| {
      assert (rows + [r])[k] == rows[k];
    } else {
      assert (rows + [r])[|rows|] == r;
    }
  }

  lemma {:induction false} TotalLengthAppend<M>(convs: seq<Conversation<M>>, c: Conversation<M>)
    ensures TotalLength(convs + [c]) == TotalLength(convs) + |c.conversation|
  {
    assert (convs + [c])[..|convs|] == convs;
  }

  lemma {:induction false} TotalLengthUpdate<M>(convs: seq<Conversation<M>>, idx: nat, c: Conversation<M>)
    requires idx < |convs|
    ensures TotalLength(convs[idx := c]) == TotalLength(convs) - |convs[idx].conversation| + |c.conversation|
    decreases |convs|
  {
    var n := |convs| - 1;
    if idx < n {
      assert convs[idx := c][..n] == convs[..n][idx := c];
      TotalLengthUpdate(convs[..n], idx, c);
    } else {
      assert convs[idx := c][..n] == convs[..n];
    }
  }

  /** A counterparty with no conversation yet has no message in the input. */
  lemma {:induction false} UnseenPartner(me: Id, rows: seq<Row>, convs: seq<Conversation<Row>>, pid: Id)
    requires CoversRows(me, rows, convs)
    requires forall k :: 0 <= k < |convs| ==> convs[k].partner.id != pid
    ensures ThreadWith(me, rows, pid) == []
    ensures FirstSeen(me, rows, pid) == |rows|
  {
    forall j | 0 <= j < |rows|
      ensures PartnerId(me, rows[j]) != pid
    {
      assert HasPartner(convs, PartnerId(me, rows[j]));
      var i :| 0 <= i < |convs| && convs[i].partner.id == PartnerId(me, rows[j]);
    }
    FilterNone(rows, (r: Row) => PartnerId(me, r) == pid);
  }

  lemma {:induction false} NewThreads(me: Id, rows: seq<Row>, acc: seq<Conversation<Row>>, r: Row)
    requires GroupsAreThreads(me, rows, acc) && CoversRows(me, rows, acc)
    requires forall k :: 0 <= k < |acc| ==> acc[k].partner.id != PartnerId(me, r)
    ensures GroupsAreThreads(me, rows + [r], acc + [Conversation(Partner(me, r), [r])])
  {
    var acc' := acc + [Conversation(Partner(me, r), [r])];
    UnseenPartner(me, rows, acc, PartnerId(me, r));
    ThreadAppend(me, rows, r, PartnerId(me, r));
    forall i | 0 <= i < |acc'|
      ensures acc'[i].conversation == ThreadWith(me, rows + [r], acc'[i].partner.id)
    {
      ThreadAppend(me, rows, r, acc'[i].partner.id);
    }
  }

  lemma {:induction false} NewCovers(me: Id, rows: seq<Row>, acc: seq<Conversation<Row>>, r: Row)
    requires CoversRows(me, rows, acc)
    ensures CoversRows(me, rows + [r], acc + [Conversation(Partner(me, r), [r])])
  {
    var rows', acc' := rows + [r], acc + [Conversation(Partner(me, r), [r])];
    forall j | 0 <= j < |rows'|
      ensures HasPartner(acc', PartnerId(me, rows'[j]))
    {
      if j < |rows| {
        assert rows'[j] == rows[j];
        var i :| 0 <= i < |acc| && acc[i].partner.id == PartnerId(me, rows[j]);
        assert acc'[i] == acc[i];
      } else {
        assert acc'[|acc|].partner.id == PartnerId(me, rows'[j]);
      }
    }
  }

  /** The first-seen index of a partner that already has a conversation does not move. */
  lemma {:induction false} SeenStays(me: Id, rows: seq<Row>, acc: seq<Conversation<Row>>, r: Row, i: nat)
    requires PartnersFromFirst(me, rows, acc) && i < |acc|
    ensures FirstSeen(me, rows + [r], acc[i].partner.id) == FirstSeen(me, rows, acc[i].partner.id) < |rows|
    ensures acc[i].partner == Partner(me, (rows + [r])[FirstSeen(me, rows + [r], acc[i].partner.id)])
  {
    var k := FirstSeen(me, rows, acc[i].partner.id);
    FirstSeenAppend(me, rows, r, acc[i].partner.id);
    assert (rows + [r])[k] == rows[k];
  }

  lemma {:induction false} NewFirst(me: Id, rows: seq<Row>, acc: seq<Conversation<Row>>, r: Row)
    requires PartnersFromFirst(me, rows, acc) && CoversRows(me, rows, acc)
    requires forall k :: 0 <= k < |acc| ==> acc[k].partner.id != PartnerId(me, r)
    ensures FirstSeen(me, rows + [r], PartnerId(me, r)) == |rows|
    ensures PartnersFromFirst(me, rows + [r], acc + [Conversation(Partner(me, r), [r])])
  {
    var rows', acc' := rows + [r], acc + [Conversation(Partner(me, r), [r])];
    UnseenPartner(me, rows, acc, PartnerId(me, r));
    FirstSeenAppend(me, rows, r, PartnerId(me, r));
    assert rows'[|rows|] == r;
    forall i | 0 <= i < |acc'|
      ensures FirstSeen(me, rows', acc'[i].partner.id) < |rows'|
      ensures acc'[i].partner == Partner(me, rows'[FirstSeen(me, rows', acc'[i].partner.id)])
    {
      if i < |acc| {
        assert acc'[i] == acc[i];
        SeenStays(me, rows, acc, r, i);
      }
    }
  }

  lemma {:induction false} NewOrder(me: Id, rows: seq<Row>, acc: seq<Conversation<Row>>, r: Row)
    requires PartnersFromFirst(me, rows, acc) && FirstSeenOrder(me, rows, acc) && CoversRows(me, rows, acc)
    requires forall k :: 0 <= k < |acc| ==> acc[k].partner.id != PartnerId(me, r)
    ensures FirstSeenOrder(me, rows + [r], acc + [Conversation(Partner(me, r), [r])])
  {
    var rows', acc' := rows + [r], acc + [Conversation(Partner(me, r), [r])];
    NewFirst(me, rows, acc, r);
    forall i | 0 <= i < |acc|
      ensures FirstSeen(me, rows', acc'[i].partner.id) == FirstSeen(me, rows, acc[i].partner.id) < |rows|
    {
      assert acc'[i] == acc[i];
      SeenStays(me, rows, acc, r, i);
    }
    assert FirstSeen(me, rows', acc'[|acc|].partner.id) == |rows|;
  }

  lemma {:induction false} StepNew(me: Id, rows: seq<Row>, acc: seq<Conversation<Row>>, r: Row)
    requires Grouping(me, rows, acc)
    requires FindIndex(acc, PartnerId(me, r)) == -1
    ensures Grouping(me, rows + [r], Step(me, acc, r))
  {
    var c := Conversation(Partner(me, r), [r]);
    assert Step(me, acc, r) == acc + [c];
    NewThreads(me, rows, acc, r);
    NewCovers(me, rows, acc, r);
    NewFirst(me, rows, acc, r);
    NewOrder(me, rows, acc, r);
    TotalLengthAppend(acc, c);
  }

  lemma {:induction false} ExistingThreads(me: Id, rows: seq<Row>, acc: seq<Conversation<Row>>, r: Row, idx: nat)
    requires GroupsAreThreads(me, rows, acc) && DistinctPartners(acc)
    requires idx < |acc| && acc[idx].partner.id == PartnerId(me, r)
    ensures GroupsAreThreads(me, rows + [r], acc[idx := acc[idx].(conversation := acc[idx].conversation + [r])])
  {
    var acc' := acc[idx := acc[idx].(conversation := acc[idx].conversation + [r])];
    forall i | 0 <= i < |acc'|
      ensures acc'[i].conversation == ThreadWith(me, rows + [r], acc'[i].partner.id)
    {
      ThreadAppend(me, rows, r, acc'[i].partner.id);
    }
  }

  lemma {:induction false} ExistingCovers(me: Id, rows: seq<Row>, acc: seq<Conversation<Row>>, r: Row, idx: nat)
    requires CoversRows(me, rows, acc)
    requires idx < |acc| && acc[idx].partner.id == PartnerId(me, r)
    ensures CoversRows(me, rows + [r], acc[idx := acc[idx].(conversation := acc[idx].conversation + [r])])
  {
    var rows', acc' := rows + [r], acc[idx := acc[idx].(conversation := acc[idx].conversation + [r])];
    forall j | 0 <= j < |rows'|
      ensures HasPartner(acc', PartnerId(me, rows'[j]))
    {
      if j < |rows| {
        assert rows'[j] == rows[j];
        var i :| 0 <= i < |acc| && acc[i].partner.id == PartnerId(me, rows[j]);
        assert acc'[i].partner.id == acc[i].partner.id;
      } else {
        assert acc'[idx].partner.id == PartnerId(me, rows'[j]);
      }
    }
  }

  lemma {:induction false} ExistingOrder(me: Id, rows: seq<Row>, acc: seq<Conversation<Row>>, r: Row, idx: nat)
    requires PartnersFromFirst(me, rows, acc) && FirstSeenOrder(me, rows, acc)
    requires idx < |acc|
    ensures PartnersFromFirst(me, rows + [r], acc[idx := acc[idx].(conversation := acc[idx].conversation + [r])])
    ensures FirstSeenOrder(me, rows + [r], acc[idx := acc[idx].(conversation := acc[idx].conversation + [r])])
  {
    var rows', acc' := rows + [r], acc[idx := acc[idx].(conversation := acc[idx].conversation + [r])];
    forall i | 0 <= i < |acc'|
      ensures acc'[i].partner == acc[i].partner
      ensures FirstSeen(me, rows', acc'[i].partner.id) == FirstSeen(me, rows, acc[i].partner.id) < |rows|
      ensures acc'[i].partner == Partner(me, rows'[FirstSeen(me, rows', acc'[i].partner.id)])
    {
      SeenStays(me, rows, acc, r, i);
    }
  }

  lemma {:induction false} ExistingDistinct(acc: seq<Conversation<Row>>, idx: nat, r: Row)
    requires DistinctPartners(acc) && idx < |acc|
    ensures DistinctPartners(acc[idx := acc[idx].(conversation := acc[idx].conversation + [r])])
  {
    var acc' := acc[idx := acc[idx].(conversation := acc[idx].conversation + [r])];
    forall i | 0 <= i < |acc| ensures acc'[i].partner == acc[i].partner { }
  }

  lemma {:induction false} StepExisting(me: Id, rows: seq<Row>, acc: seq<Conversation<Row>>, r: Row)
    requires Grouping(me, rows, acc)
    requires FindIndex(acc, PartnerId(me, r)) >= 0
    ensures Grouping(me, rows + [r], Step(me, acc, r))
  {
    var idx := FindIndex(acc, PartnerId(me, r));
    var c := acc[idx].(conversation := acc[idx].conversation + [r]);
    assert Step(me, acc, r) == acc[idx := c];
    ExistingThreads(me, rows, acc, r, idx);
    ExistingCovers(me, rows, acc, r, idx);
    ExistingOrder(me, rows, acc, r, idx);
    TotalLengthUpdate(acc, idx, c);
    ExistingDistinct(acc, idx, r);
  }

  /** The reduce yields a grouping: distinct partners, each conversation exactly the thread of
      its partner in input order, every message covered, first-seen order of partners, and the
      conversation lengths summing to the number of messages. */
  lemma {:induction false} GroupIsGrouping(me: Id, rows: seq<Row>)
    ensures Grouping(me, rows, Group(me, rows))
  {
    if rows != [] {
      var rows0, r := rows[..|rows| - 1], rows[|rows| - 1];
      assert rows == rows0 + [r];
      GroupIsGrouping(me, rows0);
      if FindIndex(Group(me, rows0), PartnerId(me, r)) == -1 {
        StepNew(me, rows0, Group(me, rows0), r);
      } else {
        StepExisting(me, rows0, Group(me, rows0), r);
      }
    }
  }

  /** Every message lands in exactly one conversation: the one of its counterparty. */
  lemma {:induction false} GroupPartition(me: Id, rows: seq<Row>, j: nat, i: nat)
    requires j < |rows| && i < |Group(me, rows)|
    ensures rows[j] in Group(me, rows)[i].conversation <==> Group(me, rows)[i].partner.id == PartnerId(me, rows[j])
    ensures exists k :: 0 <= k < |Group(me, rows)| && Group(me, rows)[k].partner.id == PartnerId(me, rows[j])
  {
    var convs := Group(me, rows);
    GroupIsGrouping(me, rows);
    var pid := convs[i].partner.id;
    assert convs[i].conversation == ThreadWith(me, rows, pid);
    assert HasPartner(convs, PartnerId(me, rows[j]));
  }

  /** `a` is at least as recent as `b`: the order of `orderBy: {createdAt: "desc"}`. */
  predicate NewerOrSame(a: Row, b: Row) {
    a.msg.createdAt >= b.msg.createdAt
  }

  /** With the input newest first, every conversation is newest first, so its first message
      is its most recent one. */
  lemma {:induction false} GroupNewestFirst(me: Id, rows: seq<Row>, i: nat)
    requires Ordered(rows, NewerOrSame)
    requires i < |Group(me, rows)|
    ensures Ordered(Group(me, rows)[i].conversation, NewerOrSame)
    ensures |Group(me, rows)[i].conversation| > 0
    ensures forall k :: 0 <= k < |Group(me, rows)[i].conversation| ==>
      Group(me, rows)[i].conversation[0].msg.createdAt >= Group(me, rows)[i].conversation[k].msg.createdAt
  {
    var convs := Group(me, rows);
    GroupIsGrouping(me, rows);
    var pid := convs[i].partner.id;
    assert convs[i].conversation == ThreadWith(me, rows, pid);
    FilterOrdered(rows, (r: Row) => PartnerId(me, r) == pid, NewerOrSame);
    var k := FirstSeen(me, rows, pid);
    assert rows[k] in convs[i].conversation;
  }

  /** The joined sender and receiver are the users the message names. */
  predicate Joined(r: Row) {
    r.sender.id == r.msg.senderId && r.receiver.id == r.msg.receiverId
  }

  /** The counterparty of one of the caller's messages is the other party, and a message the
      caller sent to itself is grouped under the caller's own id. */
  lemma PartnerOfOwnMessage(me: Id, r: Row)
    requires Joined(r) && (r.msg.senderId == me || r.msg.receiverId == me)
    ensures PartnerId(me, r) == if r.msg.senderId == me then r.msg.receiverId else r.msg.senderId
    ensures r.msg.senderId == me && r.msg.receiverId == me ==> PartnerId(me, r) == me
  {
  }

  /** `acc.findIndex(c => c.partner.id === pid)`, scanning from the front. */
  method FindPartner(acc: seq<Conversation<Row>>, pid: Id) returns (idx: int)
    ensures idx == FindIndex(acc, pid)
  {
    idx := 0;
    while idx < |acc| && acc[idx].partner.id != pid
      invariant 0 <= idx <= |acc|
      invariant forall k :: 0 <= k < idx ==> acc[k].partner.id != pid
    {
      idx := idx + 1;
    }
    if idx == |acc| {
      idx := -1;
    }
    FindIndexFirst(acc, pid, idx);
  }

  /** FindIndex answers the first matching position, and -1 only when there is none. */
  lemma {:induction false} FindIndexFirst(acc: seq<Conversation<Row>>, pid: Id, idx: int)
    requires -1 <= idx < |acc|
    requires idx == -1 ==> forall k :: 0 <= k < |acc| ==> acc[k].partner.id != pid
    requires idx >= 0 ==> acc[idx].partner.id == pid && forall k :: 0 <= k < idx ==> acc[k].partner.id != pid
    ensures idx == FindIndex(acc, pid)
  {
    if acc != [] && idx != 0 {
      FindIndexFirst(acc[1..], pid, if idx == -1 then -1 else idx - 1);
    }
  }

  /** The GET handler's `reduce`: the accumulator is extended one message at a time, by a
      push of a new conversation or an append to an existing one. */
  method GroupConversations(me: Id, rows: seq<Row>) returns (convs: seq<Conversation<Row>>)
    ensures convs == Group(me, rows)
    ensures DistinctPartners(convs) && CoversRows(me, rows, convs)
    ensures forall i :: 0 <= i < |convs| ==> convs[i].conversation == ThreadWith(me, rows, convs[i].partner.id)
    ensures FirstSeenOrder(me, rows, convs) && TotalLength(convs) == |rows|
  {
    convs := [];
    var n := 0;
    while n < |rows|
      invariant 0 <= n <= |rows|
      invariant convs == Group(me, rows[..n])
    {
      var msg := rows[n];
      var partner := Partner(me, msg);
      var idx := FindPartner(convs, partner.id);
      if idx == -1 {
        convs := convs + [Conversation(partner, [msg])];
      } else {
        convs := convs[idx := convs[idx].(conversation := convs[idx].conversation + [msg])];
      }
      assert rows[..n + 1][..n] == rows[..n];
      n := n + 1;
    }
    assert rows[..n] == rows;
    GroupIsGrouping(me, rows);
  }

  /** Three messages of u1, newest first: from u2, to u3, from u3. Two conversations come
      out, u2's first with one message, then u3's with the other two in input order. */
  lemma GroupExample(u1: Contact, u2: Contact, u3: Contact)
    requires u1.id == "u1" && u2.id == "u2" && u3.id == "u3"
    ensures
      var m1 := Row(Message("m1", "u2", "u1", "a", false, 3), u2, u1);
      var m2 := Row(Message("m2", "u1", "u3", "b", false, 2), u1, u3);
      var m3 := Row(Message("m3", "u3", "u1", "c", false, 1), u3, u1);
      Group("u1", [m1, m2, m3]) == [Conversation(u2, [m1]), Conversation(u3, [m2, m3])]
  {
    var m1 := Row(Message("m1", "u2", "u1", "a", false, 3), u2, u1);
    var m2 := Row(Message("m2", "u1", "u3", "b", false, 2), u1, u3);
    var m3 := Row(Message("m3", "u3", "u1", "c", false, 1), u3, u1);
    var c1 := [Conversation(u2, [m1])];
    var c2 := c1 + [Conversation(u3, [m2])];
    assert [m1][..0] == [];
    assert FindIndex([], "u2") == -1;
    assert Group("u1", [m1]) == c1;
    assert [m1, m2][..1] == [m1];
    assert "u2" != "u3" by { assert "u2"[1] != "u3"[1]; }
    assert FindIndex(c1, "u3") == -1;
    assert Group("u1", [m1, m2]) == c2;
    assert [m1, m2, m3][..2] == [m1, m2];
    assert FindIndex(c2, "u3") == 1;
    assert c2[1].conversation + [m3] == [m2, m3];
    assert c2[1 := Conversation(u3, [m2, m3])] == [Conversation(u2, [m1]), Conversation(u3, [m2, m3])];
    assert Step("u1", c2, m3) == [Conversation(u2, [m1]), Conversation(u3, [m2, m3])];
  }
}
