/** The client routes: app/api/client/projects/route.ts answers the caller's projects,
    app/api/client/requests/route.ts lists the caller's service requests (GET) and opens a
    new one (POST). Both scope by the caller's client record; neither checks the role. */
module ClientApi {
  import opened Common
  import opened Seqs
  import opened Store
  import opened Gate

  /** GET /api/client/projects. */
  function ListClientProjects(user: Option<Payload>, clients: seq<Client>, projects: seq<Project>)
    : (r: Reply<seq<Project>>)
    ensures user.None? ==> r == Reply(401, "Unauthorized", None)
    ensures user.Some? && FindClientOf(clients, user.value.id).None? ==> r == Reply(404, "Client not found", None)
    ensures r.status == 200 <==> user.Some? && FindClientOf(clients, user.value.id).Some?
    ensures r.status == 200 ==>
      var cid := FindClientOf(clients, user.value.id).value.id;
      r.data.Some?
      && (forall i :: 0 <= i < |r.data.value| ==> r.data.value[i] in projects && r.data.value[i].clientId == cid)
      && (forall i :: 0 <= i < |projects| && projects[i].clientId == cid ==> projects[i] in r.data.value)
  {
    match user
    case None => Reply(401, "Unauthorized", None)
    case Some(u) =>
      match FindClientOf(clients, u.id)
      case None => Reply(404, "Client not found", None)
      case Some(c) => Reply(200, "Projects fetched", Some(Filter(projects, (p: Project) => p.clientId == c.id)))
  }

  /** GET /api/client/requests. A caller with no client record makes `client!.id` throw: 500. */
  function ListClientRequests(user: Option<Payload>, clients: seq<Client>, requests: seq<ServiceRequest>)
    : (r: Reply<seq<ServiceRequest>>)
    ensures user.None? ==> r == Reply(401, "Invalid User", None)
    ensures user.Some? && FindClientOf(clients, user.value.id).None? ==>
      r == Reply(500, "getting all requests failed", None)
    ensures r.status == 200 <==> user.Some? && FindClientOf(clients, user.value.id).Some?
    ensures r.status == 200 ==>
      var cid := FindClientOf(clients, user.value.id).value.id;
      r.data.Some?
      && (forall i :: 0 <= i < |r.data.value| ==> r.data.value[i] in requests && r.data.value[i].clientId == cid)
      && (forall i :: 0 <= i < |requests| && requests[i].clientId == cid ==> requests[i] in r.data.value)
  {
    match user
    case None => Reply(401, "Invalid User", None)
    case Some(u) =>
      match FindClientOf(clients, u.id)
      case None => Reply(500, "getting all requests failed", None)
      case Some(c) =>
        Reply(200, "All requests fetched", Some(Filter(requests, (q: ServiceRequest) => q.clientId == c.id)))
  }

  /** The status every new service request starts in. */
  const Pending := "PENDING"

  /** POST /api/client/requests. The body's `id` is the service asked for; it is checked
      before the client record. A non-string id or one naming no service makes the insert
      throw: 500. `newId` and `now` are the id and timestamp the store assigns. */
  method CreateRequest(db: Database, user: Option<Payload>, body: Body, newId: Id, now: int)
    returns (reply: Reply<()>)
    modifies db
    ensures db.users == old(db.users) && db.clients == old(db.clients) && db.employees == old(db.employees)
    ensures db.projects == old(db.projects) && db.assignments == old(db.assignments)
    ensures db.services == old(db.services) && db.messages == old(db.messages)
    ensures user.None? ==> reply == Reply(401, "Invalid user", None)
    ensures reply.status == 400 <==> user.Some? && !Truthy(Field(body, "id"))
    ensures reply.status == 401 <==> user.None?
    ensures user.Some? && Truthy(Field(body, "id")) && FindClientOf(db.clients, user.value.id).None? ==>
      reply == Reply(500, "something went wrong with client fetching", None)
    // a truthy id that is not a string, or that names no service, makes the insert fail
    ensures reply.status == 500 <==>
      user.Some? && Truthy(Field(body, "id"))
      && (FindClientOf(db.clients, user.value.id).None? || !Field(body, "id").Str?
          || FindService(db.services, Field(body, "id").s).None?)
    ensures reply.status in {200, 400, 401, 500}
    ensures reply.status != 200 ==> db.requests == old(db.requests)
    ensures reply.status == 200 <==>
      user.Some? && Field(body, "id").Str? && Field(body, "id").s != ""
      && FindClientOf(db.clients, user.value.id).Some? && FindService(db.services, Field(body, "id").s).Some?
    ensures reply.status == 200 ==>
      reply == Reply(200, "Service Request created", None)
      && db.requests == old(db.requests)
         + [ServiceRequest(newId, FindClientOf(db.clients, user.value.id).value.id, Field(body, "id").s, Pending, now)]
  {
    if user.None? {
      return Reply(401, "Invalid user", None);
    }
    var client := FindClientOf(db.clients, user.value.id);
    var id := Field(body, "id");
    if !Truthy(id) {
      return Reply(400, "Invalid data", None);
    }
    if client.None? {
      return Reply(500, "something went wrong with client fetching", None);
    }
    if !id.Str? || FindService(db.services, id.s).None? {
      return Reply(500, "request creation failed", None);
    }
    db.requests := db.requests + [ServiceRequest(newId, client.value.id, id.s, Pending, now)];
    return Reply(200, "Service Request created", None);
  }

  /** Without a client record, whatever the caller's role, the projects route answers 404
      and the requests route 500. */
  lemma NoClientRecord(user: Payload, clients: seq<Client>, projects: seq<Project>, requests: seq<ServiceRequest>)
    requires forall i :: 0 <= i < |clients| ==> clients[i].userId != user.id
    ensures ListClientProjects(Some(user), clients, projects).status == 404
    ensures ListClientRequests(Some(user), clients, requests).status == 500
  {
  }

  /** The request gate is what keeps the client routes to clients: an authenticated caller
      of another role gets 403 on any path under /api/client. */
  lemma {:induction false} ClientApiGated(path: string, token: Option<string>, verify: string -> Option<Payload>)
    requires StartsWith(path, "/api/client")
    requires Claims(token, verify).Some?
    ensures Middleware(path, token, verify) == Next ==> Claims(token, verify).value.role == CLIENT
  {
    assert "/api/" + Segment(CLIENT) == "/api/client";
    if Claims(token, verify).value.role != CLIENT {
      OtherRoleApiForbidden(path, token, verify, CLIENT);
    }
  }
}
