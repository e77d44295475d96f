/** The relational store behind the route handlers, as in-memory tables. Records
    are values; the store is one object whose tables the mutating handlers
    (register, message create/update, project status update, service request
    create) replace. Identifiers are generated by the store and passed in. */
module Store {
  import opened Common

  datatype User = User(id: Id, email: string, password: string, role: Role)
  datatype Client = Client(id: Id, userId: Id, name: string)
  datatype Employee = Employee(id: Id, userId: Id, name: string, joinedDate: int)
  datatype Project = Project(id: Id, name: string, status: string, clientId: Id)

  /** The values of the store's project status enumeration. */
  const ProjectStatuses: set<string> := {"PLANNING", "DEVELOPMENT", "TESTING", "DEPLOYMENT", "DELIVERED"}
  /** A row of the project-assignment table: employee `employeeId` works on `projectId`. */
  datatype Assignment = Assignment(employeeId: Id, projectId: Id)
  datatype Service = Service(id: Id, name: string)
  datatype ServiceRequest = ServiceRequest(id: Id, clientId: Id, serviceId: Id, status: string, createdAt: int)
  /** A directed message; `createdAt` is a timestamp as an integer. */
  datatype Message = Message(id: Id, senderId: Id, receiverId: Id, message: string, read: bool, createdAt: int)

  /** A user as the messaging queries select it: id, email, role and profile names. */
  datatype Contact = Contact(id: Id, email: string, role: Option<Role>,
                             employeeName: Option<string>, clientName: Option<string>)

  ghost predicate UniqueEmails(users: seq<User>) {
    forall i, j :: 0 <= i < j < |users| ==> users[i].email != users[j].email
  }

  ghost predicate UniqueUserIds(users: seq<User>) {
    forall i, j :: 0 <= i < j < |users| ==> users[i].id != users[j].id
  }

  ghost predicate UniqueProjectIds(projects: seq<Project>) {
    forall i, j :: 0 <= i < j < |projects| ==> projects[i].id != projects[j].id
  }

  ghost predicate UniqueMessageIds(messages: seq<Message>) {
    forall i, j :: 0 <= i < j < |messages| ==> messages[i].id != messages[j].id
  }

  /** `findUnique({where: {email}})` on the user table. */
  function FindUserByEmail(users: seq<User>, email: string): (r: Option<User>)
    ensures r.Some? ==> r.value in users && r.value.email == email
    ensures r.None? <==> forall i :: 0 <= i < |users| ==> users[i].email != email
  {
    if users == [] then None
    else if users[0].email == email then Some(users[0])
    else FindUserByEmail(users[1..], email)
  }

  /** `findUnique({where: {id}})` on the user table. */
  function FindUserById(users: seq<User>, id: Id): (r: Option<User>)
    ensures r.Some? ==> r.value in users && r.value.id == id
    ensures r.None? <==> forall i :: 0 <= i < |users| ==> users[i].id != id
  {
    if users == [] then None
    else if users[0].id == id then Some(users[0])
    else FindUserById(users[1..], id)
  }

  /** `findUnique({where: {id}})` on the message table. */
  function FindMessage(messages: seq<Message>, id: Id): (r: Option<Message>)
    ensures r.Some? ==> r.value in messages && r.value.id == id
    ensures r.None? <==> forall i :: 0 <= i < |messages| ==> messages[i].id != id
  {
    if messages == [] then None
    else if messages[0].id == id then Some(messages[0])
    else FindMessage(messages[1..], id)
  }

  /** `findUnique({where: {user_id}})` on the client table. */
  function FindClientOf(clients: seq<Client>, userId: Id): (r: Option<Client>)
    ensures r.Some? ==> r.value in clients && r.value.userId == userId
    ensures r.None? <==> forall i :: 0 <= i < |clients| ==> clients[i].userId != userId
  {
    if clients == [] then None
    else if clients[0].userId == userId then Some(clients[0])
    else FindClientOf(clients[1..], userId)
  }

  /** `findUnique({where: {user_id}})` on the employee table. */
  function FindEmployeeOf(employees: seq<Employee>, userId: Id): (r: Option<Employee>)
    ensures r.Some? ==> r.value in employees && r.value.userId == userId
    ensures r.None? <==> forall i :: 0 <= i < |employees| ==> employees[i].userId != userId
  {
    if employees == [] then None
    else if employees[0].userId == userId then Some(employees[0])
    else FindEmployeeOf(employees[1..], userId)
  }

  /** The service with the given id, if any. */
  function FindService(services: seq<Service>, id: Id): (r: Option<Service>)
    ensures r.Some? ==> r.value in services && r.value.id == id
    ensures r.None? <==> forall i :: 0 <= i < |services| ==> services[i].id != id
  {
    if services == [] then None
    else if services[0].id == id then Some(services[0])
    else FindService(services[1..], id)
  }

  /** The project with the given id, if any. */
  function FindProject(projects: seq<Project>, id: Id): (r: Option<Project>)
    ensures r.Some? ==> r.value in projects && r.value.id == id
    ensures r.None? <==> forall i :: 0 <= i < |projects| ==> projects[i].id != id
  {
    if projects == [] then None
    else if projects[0].id == id then Some(projects[0])
    else FindProject(projects[1..], id)
  }

  /** `projects.map(p => p.id === id ? {...p, status} : p)`, the status update shared by
      the admin and employee pages and by the project update route. */
  function WithStatus(projects: seq<Project>, id: Id, status: string): seq<Project> {
    seq(|projects|, i requires 0 <= i < |projects| =>
      if projects[i].id == id then projects[i].(status := status) else projects[i])
  }

  /** Only the status of the projects with that id changes (with unique ids, of the one
      project); length, order and every other field stay, so ids stay unique; applying the
      same update again changes nothing. */
  lemma WithStatusChangesOnlyMatching(projects: seq<Project>, id: Id, status: string)
    ensures |WithStatus(projects, id, status)| == |projects|
    ensures forall i :: 0 <= i < |projects| ==>
      var q := WithStatus(projects, id, status)[i];
      q.id == projects[i].id && q.name == projects[i].name && q.clientId == projects[i].clientId
      && q.status == (if projects[i].id == id then status else projects[i].status)
    ensures WithStatus(WithStatus(projects, id, status), id, status) == WithStatus(projects, id, status)
    ensures (forall i :: 0 <= i < |projects| ==> projects[i].id != id) ==> WithStatus(projects, id, status) == projects
    ensures UniqueProjectIds(projects) ==> UniqueProjectIds(WithStatus(projects, id, status))
  {
  }

  /** `message.update({where: {id}, data: {read}})` applied to the message table. */
  function WithRead(messages: seq<Message>, id: Id, read: bool): seq<Message> {
    seq(|messages|, i requires 0 <= i < |messages| =>
      if messages[i].id == id then messages[i].(read := read) else messages[i])
  }

  /** Setting the read flag touches only that flag of the messages with that id, preserves
      id uniqueness, and repeating it changes nothing. */
  lemma WithReadChangesOnlyRead(messages: seq<Message>, id: Id, read: bool)
    ensures |WithRead(messages, id, read)| == |messages|
    ensures forall i :: 0 <= i < |messages| ==>
      WithRead(messages, id, read)[i] == if messages[i].id == id then messages[i].(read := read) else messages[i]
    ensures WithRead(WithRead(messages, id, read), id, read) == WithRead(messages, id, read)
    ensures UniqueMessageIds(messages) ==> UniqueMessageIds(WithRead(messages, id, read))
  {
  }

  class Database {
    var users: seq<User>
    var clients: seq<Client>
    var employees: seq<Employee>
    var projects: seq<Project>
    var assignments: seq<Assignment>
    var services: seq<Service>
    var requests: seq<ServiceRequest>
    var messages: seq<Message>

    /** The uniqueness constraints the handlers rely on. */
    ghost predicate Valid()
      reads this
    {
      UniqueEmails(users) && UniqueUserIds(users) && UniqueProjectIds(projects) && UniqueMessageIds(messages)
    }

    constructor ()
      ensures Valid()
      ensures users == [] && clients == [] && employees == [] && projects == []
      ensures assignments == [] && services == [] && requests == [] && messages == []
    {
      users, clients, employees, projects := [], [], [], [];
      assignments, services, requests, messages := [], [], [], [];
    }
  }
}
