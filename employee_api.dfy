/** The employee projects route (app/api/employee/projects/route.ts). GET answers the
    projects the calling employee is assigned to, optionally only those with a given
    status; PUT sets a project's status. */
module EmployeeApi {
  import opened Common
  import opened Store
  import opened Gate

  /** The projects of the employee's assignments, in assignment order, restricted to the
      requested status when one is given. An assignment whose project is missing from the
      table contributes nothing. */
  function AssignedProjects(asgs: seq<Assignment>, projects: seq<Project>, employeeId: Id,
                            status: Option<string>): (r: seq<Project>)
    ensures |r| <= |asgs|
    ensures forall i :: 0 <= i < |r| ==> r[i] in projects && (status.Some? ==> r[i].status == status.value)
    ensures forall i :: 0 <= i < |r| ==> exists k :: 0 <= k < |asgs| && asgs[k].employeeId == employeeId
                                                    && asgs[k].projectId == r[i].id
    ensures forall k :: 0 <= k < |asgs| && asgs[k].employeeId == employeeId
                        && FindProject(projects, asgs[k].projectId).Some?
                        && (status.Some? ==> FindProject(projects, asgs[k].projectId).value.status == status.value)
                        ==> FindProject(projects, asgs[k].projectId).value in r
  {
    if asgs == [] then []
    else
      var rest := AssignedProjects(asgs[..|asgs| - 1], projects, employeeId, status);
      var a := asgs[|asgs| - 1];
      assert forall k :: 0 <= k < |asgs| - 1 ==> asgs[..|asgs| - 1][k] == asgs[k];
      var p := FindProject(projects, a.projectId);
      if a.employeeId == employeeId && p.Some? && (status.Some? ==> p.value.status == status.value)
      then rest + [p.value]
      else rest
  }

  /** The reply of GET: status, message, the projects, and the employee's display name. */
  datatype ProjectsReply = ProjectsReply(status: int, message: string, data: Option<seq<Project>>,
                                         userName: Option<string>)

  /** The `status` query parameter as a filter: absent or empty means no filter. */
  function StatusFilter(param: Option<string>): Option<string> {
    if Present(param) then Some(param.value) else None
  }

  /** GET. The status filter goes into the store query unchecked; a value that is not one of
      the project statuses makes the query throw, before the employee record is looked at. */
  function ListEmployeeProjects(user: Option<Payload>, employees: seq<Employee>, asgs: seq<Assignment>,
                                projects: seq<Project>, statusParam: Option<string>): (r: ProjectsReply)
    ensures user.None? ==> r == ProjectsReply(401, "Unauthorized", None, None)
    ensures user.Some? && user.value.role != EMPLOYEE ==> r == ProjectsReply(403, "Forbidden", None, None)
    ensures r.status in {200, 401, 403, 404, 500}
    ensures r.status == 500 <==>
      user.Some? && user.value.role == EMPLOYEE && StatusFilter(statusParam).Some?
      && StatusFilter(statusParam).value !in ProjectStatuses
    ensures r.status == 500 ==> r == ProjectsReply(500, "Something went wrong", None, None)
    ensures r.status == 404 <==>
      user.Some? && user.value.role == EMPLOYEE && r.status != 500 && FindEmployeeOf(employees, user.value.id).None?
    ensures r.status == 404 ==> r == ProjectsReply(404, "Employee profile not found", None, None)
    ensures r.status == 200 <==>
      user.Some? && user.value.role == EMPLOYEE && FindEmployeeOf(employees, user.value.id).Some?
      && (StatusFilter(statusParam).None? || StatusFilter(statusParam).value in ProjectStatuses)
    ensures r.status == 200 ==>
      var e := FindEmployeeOf(employees, user.value.id).value;
      r.data == Some(AssignedProjects(asgs, projects, e.id, StatusFilter(statusParam)))
      && (r.userName.None? <==> e.name == "")
      && (r.userName.Some? ==> r.userName.value == e.name)
  {
    match user
    case None => ProjectsReply(401, "Unauthorized", None, None)
    case Some(u) =>
      if u.role != EMPLOYEE then ProjectsReply(403, "Forbidden", None, None)
      else
        var filter := StatusFilter(statusParam);
        if filter.Some? && filter.value !in ProjectStatuses then ProjectsReply(500, "Something went wrong", None, None)
        else
          match FindEmployeeOf(employees, u.id)
          case None => ProjectsReply(404, "Employee profile not found", None, None)
          case Some(e) =>
            ProjectsReply(200, "Project fetched for " + u.id,
                          Some(AssignedProjects(asgs, projects, e.id, filter)),
                          if e.name == "" then None else Some(e.name))
  }

  /** An empty `status` parameter filters nothing: the reply is the one without it. */
  lemma EmptyStatusIsNoFilter(user: Option<Payload>, employees: seq<Employee>, asgs: seq<Assignment>,
                              projects: seq<Project>)
    ensures ListEmployeeProjects(user, employees, asgs, projects, Some(""))
            == ListEmployeeProjects(user, employees, asgs, projects, None)
  {
  }

  /** Appending an assignment appends its project, if it qualifies, at the end: the result
      follows assignment order. */
  lemma {:induction false} AssignedProjectsAppend(asgs: seq<Assignment>, a: Assignment, projects: seq<Project>,
                                                  employeeId: Id, status: Option<string>)
    ensures AssignedProjects(asgs + [a], projects, employeeId, status)
            == AssignedProjects(asgs, projects, employeeId, status)
               + (var p := FindProject(projects, a.projectId);
                  if a.employeeId == employeeId && p.Some? && (status.Some? ==> p.value.status == status.value)
                  then [p.value] else [])
  {
    assert (asgs + [a])[..|asgs|] == asgs;
  }

  /** PUT. `parsed` is what the project update schema makes of the body: the project id and
      the new status, or None when the body is invalid. A status that is not one of the
      project statuses, or an id that names no project, makes the update throw: 500.
      Neither the caller nor its assignments are checked. */
  method UpdateProjectStatus(db: Database, parsed: Option<(Id, string)>) returns (reply: Reply<()>)
    requires db.Valid()
    modifies db
    ensures db.Valid()
    ensures db.users == old(db.users) && db.clients == old(db.clients) && db.employees == old(db.employees)
    ensures db.assignments == old(db.assignments) && db.services == old(db.services)
    ensures db.requests == old(db.requests) && db.messages == old(db.messages)
    ensures parsed.None? ==> reply == Reply(400, "Invalid inputs", None) && db.projects == old(db.projects)
    ensures parsed.Some? && parsed.value.1 !in ProjectStatuses ==>
      reply == Reply(500, "Something went wrong", None) && db.projects == old(db.projects)
    ensures parsed.Some? && FindProject(old(db.projects), parsed.value.0).None? ==>
      reply == Reply(500, "Something went wrong", None) && db.projects == old(db.projects)
    ensures reply.status == 200 <==>
      parsed.Some? && parsed.value.1 in ProjectStatuses && FindProject(old(db.projects), parsed.value.0).Some?
    ensures reply.status == 200 ==>
      reply == Reply(200, "Updated successfully", None)
      && db.projects == WithStatus(old(db.projects), parsed.value.0, parsed.value.1)
  {
    if parsed.None? {
      return Reply(400, "Invalid inputs", None);
    }
    var (id, status) := parsed.value;
    if status !in ProjectStatuses || FindProject(db.projects, id).None? {
      return Reply(500, "Something went wrong", None);
    }
    WithStatusChangesOnlyMatching(db.projects, id, status);
    db.projects := WithStatus(db.projects, id, status);
    return Reply(200, "Updated successfully", None);
  }

  /** The route itself checks no role on PUT; the request gate is what keeps it to employees:
      an authenticated caller of another role gets 403 on any path under /api/employee. */
  lemma {:induction false} EmployeeApiGated(path: string, token: Option<string>, verify: string -> Option<Payload>)
    requires StartsWith(path, "/api/employee")
    requires Claims(token, verify).Some?
    ensures Middleware(path, token, verify) == Next ==> Claims(token, verify).value.role == EMPLOYEE
  {
    assert "/api/" + Segment(EMPLOYEE) == "/api/employee";
    if Claims(token, verify).value.role != EMPLOYEE {
      OtherRoleApiForbidden(path, token, verify, EMPLOYEE);
    }
  }
}
