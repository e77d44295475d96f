/** The admin dashboard's client-side state (app/admin/page.tsx): the employee selection and
    search of the create-project dialog, the add-employee candidates of a project, the
    project list's status change, and the user list's delete. Each server call is replaced
    by whether its response was ok. */
module AdminPage {
  import opened Common
  import opened Seqs
  import opened Store

  // ---------------------------------------------------------------- employee selection

  /** `toggleEmployee(id)`: drop every occurrence of `id` when selected, otherwise append it. */
  function Toggled(selected: seq<Id>, id: Id): (r: seq<Id>)
    ensures forall x :: x in r <==> (x in selected) != (x == id)
    // an id not yet selected goes at the end, after the others in their order
    ensures id !in selected ==> r == selected + [id]
    // a selected id is removed as removeSelected removes it
    ensures id in selected ==> r == Removed(selected, id)
  {
    if id in selected then Filter(selected, (x: Id) => x != id) else selected + [id]
  }

  /** `removeSelected(id)`: every id but `id`, in their order. */
  function Removed(selected: seq<Id>, id: Id): (r: seq<Id>)
    ensures forall x :: x in r <==> x in selected && x != id
    ensures id !in selected ==> r == selected
  {
    var r := Filter(selected, (x: Id) => x != id);
    if id !in selected then
      FilterAll(selected, (x: Id) => x != id);
      r
    else r
  }

  /** Removal keeps the order of what remains: an id stays between the ids that were before
      it and the ids that were after it. */
  lemma {:induction false} RemovedKeepsOrder(before: seq<Id>, x: Id, after: seq<Id>, id: Id)
    ensures Removed(before + [x] + after, id)
            == Removed(before, id) + (if x == id then [] else [x]) + Removed(after, id)
  {
    var p := (y: Id) => y != id;
    FilterAppend(before + [x], after, p);
    FilterAppend(before, [x], p);
    FilterSingleton(x, p);
  }

  /** Toggling keeps a selection free of repetitions. */
  lemma {:induction false} ToggledDistinct(selected: seq<Id>, id: Id)
    requires Distinct(selected)
    ensures Distinct(Toggled(selected, id))
  {
    if id in selected {
      FilterDistinct(selected, (x: Id) => x != id);
    }
  }

  /** Toggling twice restores the list when the id was not selected, and restores the set of
      selected ids when it was. */
  lemma {:induction false} ToggleTwice(selected: seq<Id>, id: Id)
    ensures id !in selected ==> Toggled(Toggled(selected, id), id) == selected
    ensures forall x :: x in Toggled(Toggled(selected, id), id) <==> x in selected
  {
    if id !in selected {
      var once := selected + [id];
      FilterAppend(selected, [id], (x: Id) => x != id);
      FilterAll(selected, (x: Id) => x != id);
      assert Filter([id], (x: Id) => x != id) == Filter([], (x: Id) => x != id) + [];
      assert Toggled(once, id) == Filter(once, (x: Id) => x != id);
    }
  }

  // ---------------------------------------------------------------- employee search

  /** An employee as the admin employee list returns it; absent fields are None. */
  datatype EmployeeEntry = EmployeeEntry(id: Id, name: Option<string>, userName: Option<string>,
                                         userEmail: Option<string>, email: Option<string>)

  /** `.filter(Boolean)` on optional strings: the present, non-empty ones, in order. */
  function Texts(fields: seq<Option<string>>): (r: seq<string>)
    ensures |r| <= |fields|
  {
    if fields == [] then []
    else (if Present(fields[0]) then [fields[0].value] else []) + Texts(fields[1..])
  }

  /** `t` is the value of some present field. */
  ghost predicate FromField(fields: seq<Option<string>>, t: string) {
    exists i :: 0 <= i < |fields| && Present(fields[i]) && fields[i].value == t
  }

  /** The texts are exactly the present fields' values: each of those is among them, and
      nothing else is. */
  lemma {:induction false} TextsMembers(fields: seq<Option<string>>)
    ensures forall i :: 0 <= i < |fields| && Present(fields[i]) ==> fields[i].value in Texts(fields)
    ensures forall k :: 0 <= k < |Texts(fields)| ==> FromField(fields, Texts(fields)[k])
  {
    if fields != [] {
      var head := if Present(fields[0]) then [fields[0].value] else [];
      var rest := Texts(fields[1..]);
      TextsMembers(fields[1..]);
      assert Texts(fields) == head + rest;
      forall i | 0 <= i < |fields| && Present(fields[i])
        ensures fields[i].value in Texts(fields)
      {
        if i > 0 {
          assert fields[1..][i - 1] == fields[i];
        }
      }
      forall k | 0 <= k < |Texts(fields)|
        ensures FromField(fields, Texts(fields)[k])
      {
        if k < |head| {
          assert fields[0].value == Texts(fields)[k];
        } else {
          assert Texts(fields)[k] == rest[k - |head|];
          assert FromField(fields[1..], rest[k - |head|]);
          var i :| 0 <= i < |fields[1..]| && Present(fields[1..][i]) && fields[1..][i].value == rest[k - |head|];
          assert fields[i + 1] == fields[1..][i];
        }
      }
    }
  }

  /** The texts of two field lists joined are the texts of the first, then of the second:
      together with the one-field case this fixes the order and the multiplicity. */
  lemma {:induction false} TextsAppend(a: seq<Option<string>>, b: seq<Option<string>>)
    ensures Texts(a + b) == Texts(a) + Texts(b)
    ensures |a| == 1 ==> Texts(a) == if Present(a[0]) then [a[0].value] else []
  {
    if a == [] {
      assert a + b == b;
    } else {
      assert (a + b)[0] == a[0] && (a + b)[1..] == a[1..] + b;
      TextsAppend(a[1..], b);
    }
    if |a| == 1 {
      assert a[1..] == [];
    }
  }

  /** `.join(sep)`. */
  function Join(parts: seq<string>, sep: string): string {
    if parts == [] then ""
    else if |parts| == 1 then parts[0]
    else parts[0] + sep + Join(parts[1..], sep)
  }

  /** Each part of a join occurs in it between some prefix and suffix. */
  lemma {:induction false} JoinSplit(parts: seq<string>, sep: string, k: nat) returns (pre: string, post: string)
    requires k < |parts|
    ensures Join(parts, sep) == pre + parts[k] + post
  {
    if |parts| == 1 {
      pre, post := "", "";
    } else if k == 0 {
      pre, post := "", sep + Join(parts[1..], sep);
    } else {
      var pre', post' := JoinSplit(parts[1..], sep, k - 1);
      pre, post := parts[0] + sep + pre', post';
    }
  }

  /** The search predicate shared by both dialogs: an empty query keeps everything, otherwise
      the lower-cased, space-joined present fields must contain the lower-cased query. */
  predicate Matches(search: string, fields: seq<Option<string>>) {
    search == "" || Contains(ToLower(Join(Texts(fields), " ")), ToLower(search))
  }

  /** A field whose lower-cased text contains the lower-cased query makes the entry match. */
  lemma {:induction false} FieldMatch(search: string, fields: seq<Option<string>>, k: nat)
    requires k < |fields| && Present(fields[k])
    requires Contains(ToLower(fields[k].value), ToLower(search))
    ensures Matches(search, fields)
  {
    var texts := Texts(fields);
    TextsMembers(fields);
    var j :| 0 <= j < |texts| && texts[j] == fields[k].value;
    var pre, post := JoinSplit(texts, " ", j);
    ToLowerAppend(pre + texts[j], post);
    ToLowerAppend(pre, texts[j]);
    ContainsInMiddle(ToLower(pre), ToLower(texts[j]), ToLower(post), ToLower(search));
  }

  /** The fields `filteredEmployees` searches, in its order. */
  function AssignFields(e: EmployeeEntry): seq<Option<string>> {
    [Some(e.id), e.name, e.userName, e.userEmail, e.email]
  }

  /** `filteredEmployees` of the create-project dialog. */
  function FilteredEmployees(employees: seq<EmployeeEntry>, search: string): (r: seq<EmployeeEntry>)
    ensures forall i :: 0 <= i < |r| ==> r[i] in employees && Matches(search, AssignFields(r[i]))
    ensures forall i :: 0 <= i < |employees| && Matches(search, AssignFields(employees[i])) ==> employees[i] in r
  {
    Filter(employees, (e: EmployeeEntry) => Matches(search, AssignFields(e)))
  }

  /** An empty search lists every employee, and an employee whose id contains the query is
      always listed. */
  lemma {:induction false} EmptySearchKeepsAll(employees: seq<EmployeeEntry>, search: string, k: nat)
    ensures FilteredEmployees(employees, "") == employees
    ensures k < |employees| && employees[k].id != "" && Contains(ToLower(employees[k].id), ToLower(search))
            ==> employees[k] in FilteredEmployees(employees, search)
  {
    FilterAll(employees, (e: EmployeeEntry) => Matches("", AssignFields(e)));
    if k < |employees| && employees[k].id != "" && Contains(ToLower(employees[k].id), ToLower(search)) {
      FieldMatch(search, AssignFields(employees[k]), 0);
    }
  }

  /** The fields the add-employee dialog searches, in its order. */
  function CandidateFields(e: EmployeeEntry): seq<Option<string>> {
    [e.userEmail, e.userName, e.email, e.name, Some(e.id)]
  }

  /** Whether some entry has the id: `employees.find(emp => emp.id === id)` is truthy. */
  predicate HasId(entries: seq<EmployeeEntry>, id: Id) {
    exists i :: 0 <= i < |entries| && entries[i].id == id
  }

  /** The add-employee candidates of a project: the matching employees not yet on the project. */
  function AddCandidates(all: seq<EmployeeEntry>, onProject: seq<EmployeeEntry>, search: string)
    : (r: seq<EmployeeEntry>)
    ensures forall i :: 0 <= i < |r| ==> r[i] in all && !HasId(onProject, r[i].id)
    ensures forall i :: 0 <= i < |r| ==> Matches(search, CandidateFields(r[i]))
    ensures forall i :: 0 <= i < |all| && Matches(search, CandidateFields(all[i])) && !HasId(onProject, all[i].id)
                        ==> all[i] in r
  {
    var matching := Filter(all, (e: EmployeeEntry) => Matches(search, CandidateFields(e)));
    Filter(matching, (e: EmployeeEntry) => !HasId(onProject, e.id))
  }

  // ---------------------------------------------------------------- dialogs and lists

  /** The create-project dialog. */
  class AssignModal {
    var employees: seq<EmployeeEntry>
    var name: string
    var selected: seq<Id>
    var loading: bool
    var search: string

    constructor ()
      ensures employees == [] && name == "" && selected == [] && !loading && search == ""
    {
      employees, name, selected, loading, search := [], "", [], false, "";
    }

    method ToggleEmployee(id: Id)
      modifies this
      ensures selected == Toggled(old(selected), id)
      ensures employees == old(employees) && name == old(name) && loading == old(loading) && search == old(search)
    {
      selected := Toggled(selected, id);
    }

    method RemoveSelected(id: Id)
      modifies this
      ensures selected == Removed(old(selected), id)
      ensures employees == old(employees) && name == old(name) && loading == old(loading) && search == old(search)
    {
      selected := Removed(selected, id);
    }

    /** The employees the dialog lists for the current search. */
    function Listed(): (r: seq<EmployeeEntry>)
      reads this
      ensures search == "" ==> r == employees
    {
      EmptySearchKeepsAll(employees, search, 0);
      FilteredEmployees(employees, search)
    }

    /** The submit button is enabled only when not loading, the name is not blank and at
        least one employee is selected. */
    predicate SubmitEnabled()
      reads this
      ensures SubmitEnabled() <==> !loading && !Blank(name) && |selected| > 0
    {
      !(loading || Trim(name) == "" || |selected| == 0)
    }
  }

  /** The project list: a status change takes effect on an ok response only. */
  class ProjectsPanel {
    var projects: seq<Project>

    constructor (projects: seq<Project>)
      ensures this.projects == projects
    {
      this.projects := projects;
    }

    method StatusChange(projectId: Id, newStatus: string, ok: bool)
      modifies this
      ensures ok ==> projects == WithStatus(old(projects), projectId, newStatus)
      ensures !ok ==> projects == old(projects)
    {
      if ok {
        projects := WithStatus(projects, projectId, newStatus);
      }
    }
  }

  /** Whether the user list offers a delete control for `u`: never for an ADMIN. */
  predicate ShowDelete(u: User) {
    u.role != ADMIN
  }

  /** No delete reaches an ADMIN: with unique user ids, the user a delete control belongs to
      has an id no ADMIN of the list has, so Delete keeps every ADMIN. */
  lemma {:induction false} DeleteSparesAdmins(users: seq<User>, u: User)
    requires UniqueUserIds(users) && u in users && ShowDelete(u)
    ensures forall i :: 0 <= i < |users| && users[i].role == ADMIN ==> users[i].id != u.id
  {
    var k :| 0 <= k < |users| && users[k] == u;
    forall i | 0 <= i < |users| && users[i].role == ADMIN
      ensures users[i].id != u.id
    {
      assert i != k;
    }
  }

  /** The user list: a confirmed delete with an ok response removes that user. */
  class UsersList {
    var users: seq<User>

    constructor (users: seq<User>)
      ensures this.users == users
    {
      this.users := users;
    }

    /** `handleDelete(u.id)`, which only the delete control of `u`'s row calls, and that
        control exists only when ShowDelete(u). */
    method Delete(u: User, confirmed: bool, ok: bool)
      requires ShowDelete(u)
      modifies this
      ensures !(confirmed && ok) ==> users == old(users)
      ensures confirmed && ok ==> users == Filter(old(users), (x: User) => x.id != u.id)
      ensures confirmed && ok ==>
        (forall i :: 0 <= i < |users| ==> users[i] in old(users) && users[i].id != u.id)
        && (forall i :: 0 <= i < |old(users)| && old(users)[i].id != u.id ==> old(users)[i] in users)
    {
      if !confirmed {
        return;
      }
      if ok {
        users := Filter(users, (x: User) => x.id != u.id);
      }
    }
  }
}
