/** The messaging panel of the pages (app/components/Messages.tsx): the conversation list
    loaded from the server, the selected counterparty, the draft, and the three things the
    user does — open a conversation with a contact, send the draft, and read the selected
    thread in time order. Network calls are replaced by their outcomes. */
module MessagePanel {
  import opened Common
  import opened Seqs
  import opened Store
  import opened Conversations

  /** `getDisplayName`: the employee name, else the client name, else the e-mail, else "User"
      (each only when non-empty). */
  function DisplayName(u: Contact): (name: string)
    ensures name != ""
    ensures Present(u.employeeName) ==> name == u.employeeName.value
    ensures !Present(u.employeeName) && Present(u.clientName) ==> name == u.clientName.value
    ensures !Present(u.employeeName) && !Present(u.clientName) ==> name == if u.email != "" then u.email else "User"
  {
    if Present(u.employeeName) then u.employeeName.value
    else if Present(u.clientName) then u.clientName.value
    else if u.email != "" then u.email
    else "User"
  }

  /** `getInitial`: the first character of the display name, in capitals. */
  function Initial(u: Contact): (s: string)
    ensures |s| == 1
    // never a lower-case letter
    ensures !('a' <= s[0] <= 'z')
    // the same letter as the name's first character, ignoring case
    ensures LowerChar(s[0]) == LowerChar(DisplayName(u)[0])
    // only a lower-case letter is changed
    ensures s[0] != DisplayName(u)[0] ==> 'a' <= DisplayName(u)[0] <= 'z'
  {
    [UpperChar(DisplayName(u)[0])]
  }

  /** The contacts offered for a new conversation: everyone but the current user. */
  function Choices(users: seq<Contact>, me: Option<Id>): (r: seq<Contact>)
    ensures forall i :: 0 <= i < |r| ==> r[i] in users && (me.Some? ==> r[i].id != me.value)
    ensures forall i :: 0 <= i < |users| && (me.None? || users[i].id != me.value) ==> users[i] in r
  {
    Filter(users, (u: Contact) => me.None? || u.id != me.value)
  }

  /** The list after opening a conversation with `u`: unchanged when one exists, otherwise
      an empty conversation with `u` in front. */
  function Opened(convs: seq<Conversation<Message>>, u: Contact): (r: seq<Conversation<Message>>)
    ensures HasPartner(r, u.id)
    ensures HasPartner(convs, u.id) ==> r == convs
    ensures !HasPartner(convs, u.id) ==> |r| == |convs| + 1 && r[0] == Conversation(u, []) && r[1..] == convs
  {
    if FindConversation(convs, u.id) < |convs| then convs
    else
      var r := [Conversation(u, [])] + convs;
      assert r[0].partner.id == u.id;
      r
  }

  /** Opening never creates a second conversation with the same partner. */
  lemma {:induction false} OpenedKeepsDistinct(convs: seq<Conversation<Message>>, u: Contact)
    requires DistinctPartners(convs)
    ensures DistinctPartners(Opened(convs, u))
  {
    var r := Opened(convs, u);
    if !HasPartner(convs, u.id) {
      forall i, j | 0 <= i < j < |r|
        ensures r[i].partner.id != r[j].partner.id
      {
        assert r[j] == convs[j - 1];
        if i > 0 {
          assert r[i] == convs[i - 1];
        }
      }
    }
  }

  /** The list after a send: `created` in front of the conversation with `pid`, every other
      conversation as it was. */
  function Prepended(convs: seq<Conversation<Message>>, pid: Id, created: Message): (r: seq<Conversation<Message>>)
    ensures |r| == |convs|
    ensures forall i :: 0 <= i < |r| ==> r[i].partner == convs[i].partner
    ensures forall i :: 0 <= i < |r| ==>
      r[i].conversation == if convs[i].partner.id == pid then [created] + convs[i].conversation else convs[i].conversation
  {
    seq(|convs|, i requires 0 <= i < |convs| =>
      if convs[i].partner.id == pid then convs[i].(conversation := [created] + convs[i].conversation) else convs[i])
  }

  /** A send keeps the partners distinct and adds exactly one message to the total. */
  lemma {:induction false} PrependedOne(convs: seq<Conversation<Message>>, pid: Id, created: Message)
    requires DistinctPartners(convs)
    ensures DistinctPartners(Prepended(convs, pid, created))
    ensures TotalLength(Prepended(convs, pid, created)) == TotalLength(convs) + (if HasPartner(convs, pid) then 1 else 0)
    decreases |convs|
  {
    var r := Prepended(convs, pid, created);
    if convs != [] {
      var n := |convs| - 1;
      var init := convs[..n];
      assert DistinctPartners(init);
      PrependedOne(init, pid, created);
      assert r[..n] == Prepended(init, pid, created);
      assert HasPartner(convs, pid) <==> HasPartner(init, pid) || convs[n].partner.id == pid;
      if HasPartner(init, pid) {
        var k :| 0 <= k < |init| && init[k].partner.id == pid;
        assert convs[k].partner.id == pid;
      }
    }
  }

  /** Messages in ascending time order. */
  predicate Chronological(s: seq<Message>) {
    forall i, j :: 0 <= i < j < |s| ==> s[i].createdAt <= s[j].createdAt
  }

  /** `m` put before the first message not older than it. */
  function Insert(m: Message, s: seq<Message>): (r: seq<Message>)
    requires Chronological(s)
    ensures Chronological(r)
    ensures multiset(r) == multiset(s) + multiset{m}
  {
    if s == [] then [m]
    else if m.createdAt <= s[0].createdAt then [m] + s
    else
      var rest := Insert(m, s[1..]);
      assert s == [s[0]] + s[1..];
      forall k | 0 <= k < |rest| ensures s[0].createdAt <= rest[k].createdAt {
        assert rest[k] in multiset(rest);
      }
      [s[0]] + rest
  }

  /** The displayed thread: a copy of the conversation sorted by `createdAt`, ascending. */
  function ByTime(s: seq<Message>): (r: seq<Message>)
    ensures Chronological(r)
    ensures multiset(r) == multiset(s)
  {
    if s == [] then []
    else
      assert s == [s[0]] + s[1..];
      Insert(s[0], ByTime(s[1..]))
  }

  /** The panel's state. */
  class Panel {
    var conversations: seq<Conversation<Message>>
    var users: seq<Contact>
    var currentUser: Option<Id>
    var selectedPartnerId: Option<Id>
    var newMsg: string
    var showNewDropdown: bool

    constructor ()
      ensures conversations == [] && users == [] && currentUser == None
      ensures selectedPartnerId == None && newMsg == "" && !showNewDropdown
    {
      conversations, users, currentUser := [], [], None;
      selectedPartnerId, newMsg, showNewDropdown := None, "", false;
    }

    /** `selectedConversation`: the first conversation with the selected partner, if any. */
    function Selected(): (c: Option<Conversation<Message>>)
      reads this
      ensures c.Some? ==> selectedPartnerId.Some? && c.value in conversations
                          && c.value.partner.id == selectedPartnerId.value
      ensures c.None? ==> selectedPartnerId.None? || !HasPartner(conversations, selectedPartnerId.value)
      // `find` takes the first conversation with that partner
      ensures c.Some? ==> c.value == conversations[FindConversation(conversations, selectedPartnerId.value)]
    {
      if selectedPartnerId.None? then None
      else
        var i := FindConversation(conversations, selectedPartnerId.value);
        if i == |conversations| then None else Some(conversations[i])
    }

    /** The selected thread as displayed; the stored conversation keeps its order. */
    function DisplayedThread(): (s: seq<Message>)
      reads this
      ensures Selected().Some? ==> Chronological(s) && multiset(s) == multiset(Selected().value.conversation)
      ensures Selected().None? ==> s == []
    {
      match Selected()
      case None => []
      case Some(c) => ByTime(c.conversation)
    }

    /** The contacts the new-conversation dropdown lists. */
    function DropdownChoices(): (r: seq<Contact>)
      reads this
      ensures forall i :: 0 <= i < |r| ==> r[i] in users && (currentUser.Some? ==> r[i].id != currentUser.value)
      ensures forall i :: 0 <= i < |users| && (currentUser.None? || users[i].id != currentUser.value) ==> users[i] in r
    {
      Choices(users, currentUser)
    }

    /** The initial load: the fetched conversations, contacts and current user, with the first
        conversation's partner selected; on a failed fetch nothing changes. */
    method Load(fetched: Option<(seq<Conversation<Message>>, seq<Contact>, Option<Id>)>)
      modifies this
      ensures fetched.None? ==> conversations == old(conversations) && users == old(users)
                                && currentUser == old(currentUser) && selectedPartnerId == old(selectedPartnerId)
      ensures fetched.Some? ==> conversations == fetched.value.0 && users == fetched.value.1
                                && currentUser == fetched.value.2
      ensures fetched.Some? && fetched.value.0 != [] ==> selectedPartnerId == Some(fetched.value.0[0].partner.id)
      ensures fetched.Some? && fetched.value.0 == [] ==> selectedPartnerId == old(selectedPartnerId)
      ensures newMsg == old(newMsg) && showNewDropdown == old(showNewDropdown)
    {
      if fetched.Some? {
        var (convos, userList, me) := fetched.value;
        conversations, users, currentUser := convos, userList, me;
        if |convos| > 0 {
          selectedPartnerId := Some(convos[0].partner.id);
        }
      }
    }

    /** `openOrCreateConversation(u)`: select `u`, adding an empty conversation in front when
        there is none with `u` yet. */
    method OpenOrCreate(u: Contact)
      modifies this
      ensures conversations == Opened(old(conversations), u)
      ensures selectedPartnerId == Some(u.id) && !showNewDropdown
      ensures Selected().Some? && Selected().value.partner.id == u.id
      ensures users == old(users) && currentUser == old(currentUser) && newMsg == old(newMsg)
    {
      showNewDropdown := false;
      var i := FindConversation(conversations, u.id);
      if i < |conversations| {
        selectedPartnerId := Some(u.id);
        return;
      }
      conversations := [Conversation(u, [])] + conversations;
      selectedPartnerId := Some(u.id);
    }

    /** `handleSend`. Without a selected partner or with a blank draft nothing happens and no
        request is made (`request` is None). Otherwise the request carries the selected partner
        and the trimmed draft, and `sent` is what the server answered: on success the created
        message goes in front of that partner's conversation and the draft is cleared; on
        failure nothing changes. */
    method Send(sent: Option<Message>) returns (request: Option<(Id, string)>)
      modifies this
      ensures !Present(old(selectedPartnerId)) || Blank(old(newMsg)) ==>
        request.None? && conversations == old(conversations) && newMsg == old(newMsg)
      ensures Present(old(selectedPartnerId)) && !Blank(old(newMsg)) ==>
        request == Some((old(selectedPartnerId).value, Trim(old(newMsg)))) && request.value.1 != ""
      ensures request.Some? && sent.Some? ==>
        conversations == Prepended(old(conversations), request.value.0, sent.value) && newMsg == ""
      ensures request.Some? && sent.None? ==> conversations == old(conversations) && newMsg == old(newMsg)
      ensures selectedPartnerId == old(selectedPartnerId) && users == old(users)
      ensures currentUser == old(currentUser) && showNewDropdown == old(showNewDropdown)
    {
      if !Present(selectedPartnerId) {
        return None;
      }
      var text := Trim(newMsg);
      if text == "" {
        return None;
      }
      request := Some((selectedPartnerId.value, text));
      if sent.Some? {
        conversations := Prepended(conversations, selectedPartnerId.value, sent.value);
        newMsg := "";
      }
    }
  }

  /** The position of the first conversation with partner `pid`, or |convs| when none. */
  function FindConversation(convs: seq<Conversation<Message>>, pid: Id): (i: nat)
    ensures i <= |convs|
    ensures i < |convs| ==> convs[i].partner.id == pid
    ensures i == |convs| <==> !HasPartner(convs, pid)
  {
    if convs == [] then 0
    else if convs[0].partner.id == pid then 0
    else
      var j := FindConversation(convs[1..], pid);
      assert HasPartner(convs[1..], pid) ==> HasPartner(convs, pid) by {
        if HasPartner(convs[1..], pid) {
          var k :| 0 <= k < |convs[1..]| && convs[1..][k].partner.id == pid;
          assert convs[k + 1].partner.id == pid;
        }
      }
      1 + j
  }
}
