/** The employee dashboard (app/employee/page.tsx): counts over the employee's projects, the
    five most recent ones, and a status change that takes effect only on an ok response. */
module EmployeePage {
  import opened Common
  import opened Seqs
  import opened Store

  /** The status that counts as done. */
  const Delivered := "DELIVERED"

  predicate IsDelivered(p: Project) { p.status == Delivered }
  predicate NotDelivered(p: Project) { p.status != Delivered }

  datatype Counts = Counts(total: nat, delivered: nat, inProgress: int)

  /** `total`, `delivered` and `inProgress = total - delivered`. */
  function DashboardCounts(projects: seq<Project>): (c: Counts)
    ensures c.total == |projects|
    ensures c.delivered == |Filter(projects, IsDelivered)| <= c.total
    ensures 0 <= c.inProgress == |Filter(projects, NotDelivered)|
  {
    var delivered := |Filter(projects, IsDelivered)|;
    FilterComplement(projects, IsDelivered, NotDelivered);
    Counts(|projects|, delivered, |projects| - delivered)
  }

  /** `projects.slice(0, 5)`. */
  function Recent(projects: seq<Project>): (r: seq<Project>)
    ensures r <= projects
    ensures |r| == if |projects| < 5 then |projects| else 5
  {
    if |projects| <= 5 then projects else projects[..5]
  }

  /** The project list of the `Projects` component. */
  class ProjectsList {
    var projects: seq<Project>

    constructor (projects: seq<Project>)
      ensures this.projects == projects
    {
      this.projects := projects;
    }

    /** `changeStatus`: on an ok response the project with that id takes the new status; on a
        failed one the list is left as it was. */
    method ChangeStatus(id: Id, status: string, ok: bool)
      modifies this
      ensures ok ==> projects == WithStatus(old(projects), id, status)
      ensures !ok ==> projects == old(projects)
      ensures |projects| == |old(projects)|
    {
      if !ok {
        return;
      }
      WithStatusChangesOnlyMatching(projects, id, status);
      projects := WithStatus(projects, id, status);
    }
  }
}
