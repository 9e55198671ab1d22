/** The project management page of app/projects/page.tsx: its state, the form-to-record
    conversions, the arguments each handler passes to `getProjectList`, and what each
    handler does to the list once its request has settled. The page's state is a value
    here; the class at the end keeps it in separate fields as the component does. */
module ProjectsPage {
  import opened Js
  import opened Models
  import opened Api
  import Records
  import ProjectActions

  /** What the modal submits: one text per field of the project form. */
  datatype Form = Form(name: string, description: string, clientId: string, status: string)

  /** `data.clientId ? Number(data.clientId) : undefined` */
  function FormClientId(text: string): (r: Option<Number>)
    ensures r.None? <==> text == ""
    ensures text == "" || r == Some(ToNumber(text))
  {
    if text == "" then None else Some(ToNumber(text))
  }

  function NewProject(f: Form): (p: ProjectCreate)
    ensures p.name == f.name && p.description == Some(f.description) && p.status == Some(f.status)
    ensures p.clientId == FormClientId(f.clientId)
  {
    ProjectCreate(f.name, Some(f.description), FormClientId(f.clientId), Some(f.status))
  }

  /** The spread of the current project with the four form fields on top. */
  function Edited(current: Project, f: Form): (p: Project)
    ensures p.id == current.id && p.userId == current.userId
    ensures p.createdAt == current.createdAt && p.updatedAt == current.updatedAt
    ensures p.name == f.name && p.description == Some(f.description)
    ensures p.clientId == FormClientId(f.clientId) && p.status == Some(f.status)
  {
    current.(name := f.name, description := Some(f.description), clientId := FormClientId(f.clientId), status := Some(f.status))
  }

  /** A truthy number: neither NaN nor zero. */
  predicate NumberTruthy(n: Number) {
    n.Num? && n.value != 0.0
  }

  /** `clients.find(client => client.id === v)` for a numeric `v`. */
  function FindClientByNumber(clients: seq<Client>, v: real): (r: Option<Client>)
    ensures r.Some? ==> r.value in clients && r.value.id as real == v
    ensures r.None? ==> forall c :: c in clients ==> c.id as real != v
  {
    if clients == [] then None
    else if clients[0].id as real == v then Some(clients[0])
    else FindClientByNumber(clients[1..], v)
  }

  /** The client of `p` when its id is truthy and one of the loaded clients has it. */
  function KnownClient(p: Project, clients: seq<Client>): Option<Client> {
    if p.clientId.Some? && NumberTruthy(p.clientId.value) then FindClientByNumber(clients, p.clientId.value.value)
    else None
  }

  /** The edit form's initial values. */
  function EditFormDefaults(p: Project, clients: seq<Client>): Form {
    Form(
      p.name,
      p.description.GetOr(""),
      match KnownClient(p, clients) case Some(c) => IntToString(c.id) case None => "",
      if Truthy(p.status) then p.status.value else "INACTIVE")
  }

  // ------------------------------------------------------------ page state

  datatype State = State(
    projects: seq<Project>,
    clients: seq<Client>,
    currentProject: Option<Project>,
    searchTerm: string,
    sortField: string,
    sortOrder: string,
    page: int,
    error: Option<string>,
    loading: bool)

  const Initial := State([], [], None, "", "", "asc", 1, None, true)

  function ProjectId(p: Project): int { p.id }

  /** The arguments of the mount effect's `getProjectList` call. */
  function MountArgs(st: State): ListArgs {
    ListArgs(PageNumber(st.page), Some(st.searchTerm), Some(st.sortField), Some(st.sortOrder), None)
  }

  /** A settled project list request, from the mount effect or any handler. */
  function ReceiveProjects(st: State, o: Outcome<seq<Project>>): State {
    match o
    case Returned(data, _) => st.(projects := data, loading := false)
    case Thrown(message, _) => st.(error := Some(message), loading := false)
  }

  /** The settled `getAll` of the mount effect; it leaves `loading` alone. */
  function ReceiveClients(st: State, o: Outcome<seq<Client>>): State {
    match o
    case Returned(data, _) => st.(clients := data)
    case Thrown(message, _) => st.(error := Some(message))
  }

  /** The table's edit and delete buttons. */
  function Select(st: State, p: Project): State {
    st.(currentProject := Some(p))
  }

  /** `handleCreateProject` once `createProject(NewProject(f))` settled; a rejection
      escapes the handler and leaves the list as it was. */
  function Create(st: State, o: Outcome<Project>): State {
    match o
    case Returned(d, _) => st.(projects := Records.Append(st.projects, d))
    case Thrown(_, _) => st
  }

  /** The request `handleEditProject` sends, if any. */
  function EditRequest(st: State, f: Form): Option<Request> {
    if st.currentProject.None? then None
    else Some(ProjectActions.UpdateRequest(Edited(st.currentProject.value, f)))
  }

  /** `handleEditProject` once the update settled: the returned project replaces every
      entry with its id. */
  function Edit(st: State, o: Outcome<Project>): State {
    if st.currentProject.None? then st
    else match o
      case Returned(d, _) => st.(projects := Records.ReplaceById(st.projects, ProjectId, d))
      case Thrown(_, _) => st
  }

  function DeleteRequest(st: State): Option<Request> {
    if st.currentProject.None? then None
    else Some(ProjectActions.DeleteRequest(st.currentProject.value))
  }

  /** `handleDeleteProject` once the delete settled: entries with the current project's id go. */
  function Delete(st: State, o: Outcome<Project>): State {
    if st.currentProject.None? then st
    else match o
      case Returned(_, _) => st.(projects := Records.RemoveById(st.projects, ProjectId, st.currentProject.value.id))
      case Thrown(_, _) => st
  }

  /** `handleSearch`: the term is kept, and the request carries neither sort field nor order. */
  function Search(st: State, query: string): (State, ListArgs) {
    (st.(searchTerm := query), ListArgs(PageNumber(st.page), Some(query), None, None, None))
  }

  function Sort(st: State, column: string, direction: string): (State, ListArgs) {
    (st.(sortField := column, sortOrder := direction),
     ListArgs(PageNumber(st.page), Some(st.searchTerm), Some(column), Some(direction), None))
  }

  /** `handlePageChange` asks for the new page but does not record it. */
  function PageChange(st: State, newPage: int): (State, ListArgs) {
    (st, ListArgs(PageNumber(newPage), Some(st.searchTerm), Some(st.sortField), Some(st.sortOrder), None))
  }

  // ------------------------------------------------------------ properties

  /** On mount the page asks for page 1 with 10 items, unsorted and unfiltered. */
  lemma MountQuery()
    ensures ListParams(MountArgs(Initial)) == Some([Param("page", "1"), Param("pageSize", "10")])
  {
    var args := MountArgs(Initial);
    assert IntToString(1) == "1" && IntToString(10) == "10";
    assert PageString(args.page) == Some("1");
    assert args.numberOfItems.GetOr(10) == 10;
    assert !Truthy(args.searchQuery) && !Truthy(args.sortField);
    assert ListParams(args).value == [Param("page", "1"), Param("pageSize", "10")] + [] + [];
    assert [Param("page", "1"), Param("pageSize", "10")] + [] + [] == [Param("page", "1"), Param("pageSize", "10")];
  }

  /** A created project is added at the end and nothing else changes; a failed create changes nothing. */
  lemma CreateAppends(st: State, d: Project, r: bool, m: string)
    ensures Create(st, Returned(d, r)) == st.(projects := st.projects + [d])
    ensures Create(st, Thrown(m, r)) == st
  {
  }

  /** An edit keeps the length of the list, puts the returned project at the entries with
      its id and keeps all other entries; without a current project it does nothing. */
  lemma EditReplaces(st: State, d: Project, r: bool)
    requires st.currentProject.Some?
    ensures var after := Edit(st, Returned(d, r)).projects;
      |after| == |st.projects| &&
      forall i :: 0 <= i < |after| ==> after[i] == if st.projects[i].id == d.id then d else st.projects[i]
  {
  }

  lemma NoCurrentProjectNoChange(st: State, f: Form, o: Outcome<Project>)
    requires st.currentProject.None?
    ensures EditRequest(st, f) == None && DeleteRequest(st) == None
    ensures Edit(st, o) == st && Delete(st, o) == st
  {
  }

  /** A delete keeps exactly the entries with another id. */
  lemma DeleteRemoves(st: State, d: Project, r: bool)
    requires st.currentProject.Some?
    ensures var after := Delete(st, Returned(d, r)).projects;
      (forall i :: 0 <= i < |after| ==> after[i] in st.projects && after[i].id != st.currentProject.value.id) &&
      (forall i :: 0 <= i < |st.projects| && st.projects[i].id != st.currentProject.value.id ==> st.projects[i] in after)
  {
  }

  /** Creating a project with a new id, then selecting and deleting it, gives the list back. */
  lemma CreateSelectDelete(st: State, d: Project, r: bool, o: Project, r2: bool)
    requires forall i :: 0 <= i < |st.projects| ==> st.projects[i].id != d.id
    ensures Delete(Select(Create(st, Returned(d, r)), d), Returned(o, r2)).projects == st.projects
  {
    Records.CreateThenDelete(st.projects, ProjectId, d);
  }

  /** Submitting the edit form unchanged keeps the project, except that a missing
      description becomes '', a missing status 'INACTIVE', and a client id that names no
      loaded client is dropped. */
  lemma {:induction false} EditFormRoundTrip(p: Project, clients: seq<Client>)
    ensures Edited(p, EditFormDefaults(p, clients)) ==
      p.(description := Some(p.description.GetOr("")),
         status := Some(if Truthy(p.status) then p.status.value else "INACTIVE"),
         clientId := if KnownClient(p, clients).Some? then p.clientId else None)
  {
    match KnownClient(p, clients)
    case Some(c) => ToNumberOfIntToString(c.id);
    case None =>
  }

  /** The page number of a page change is not kept, so the next search goes back to the old page. */
  lemma PageChangeForgetsPage(st: State, newPage: int, query: string)
    ensures PageChange(st, newPage).0 == st
    ensures PageChange(st, newPage).1.page == PageNumber(newPage)
    ensures Search(PageChange(st, newPage).0, query).1.page == PageNumber(st.page)
  {
  }

  /** A search request is never sorted, while the stored sort comes back with the next page change. */
  lemma {:induction false} SearchDropsSort(st: State, query: string, newPage: int)
    ensures var q := ListParams(Search(st, query).1).value;
      !HasParam(q, "sortField") && !HasParam(q, "sortOrder") && (HasParam(q, "search") <==> query != "")
    ensures var q := ListParams(PageChange(Search(st, query).0, newPage).1).value;
      HasParam(q, "sortField") <==> st.sortField != ""
  {
    ListParamsShape(Search(st, query).1);
    ListParamsShape(PageChange(Search(st, query).0, newPage).1);
  }

  /** With an expired session the mutations throw, so the list is left as it was. */
  lemma UnauthorizedMutationsKeepList(st: State, body: Project)
    ensures Create(st, ProjectActions.CreateProject(Response(401, body))) == st
    ensures Edit(st, ProjectActions.UpdateProject(Response(401, body))) == st
    ensures Delete(st, ProjectActions.DeleteProject(Response(401, body))) == st
  {
  }

  // ------------------------------------------------------------ the component

  class ProjectManagement {
    var projects: seq<Project>
    var clients: seq<Client>
    var currentProject: Option<Project>
    var searchTerm: string
    var sortField: string
    var sortOrder: string
    var page: int
    var error: Option<string>
    var loading: bool

    function Snapshot(): State
      reads this
    {
      State(projects, clients, currentProject, searchTerm, sortField, sortOrder, page, error, loading)
    }

    constructor ()
      ensures Snapshot() == Initial
    {
      projects, clients, currentProject := [], [], None;
      searchTerm, sortField, sortOrder, page := "", "", "asc", 1;
      error, loading := None, true;
    }

    method OnProjects(o: Outcome<seq<Project>>)
      modifies this
      ensures Snapshot() == ReceiveProjects(old(Snapshot()), o)
    {
      match o
      case Returned(data, _) =>
        projects := data;
        loading := false;
      case Thrown(message, _) =>
        error := Some(message);
        loading := false;
    }

    method OnClients(o: Outcome<seq<Client>>)
      modifies this
      ensures Snapshot() == ReceiveClients(old(Snapshot()), o)
    {
      match o
      case Returned(data, _) =>
        clients := data;
      case Thrown(message, _) =>
        error := Some(message);
    }

    method OnSelect(p: Project)
      modifies this
      ensures Snapshot() == Select(old(Snapshot()), p)
    {
      currentProject := Some(p);
    }

    method HandleCreateProject(f: Form, o: Outcome<Project>) returns (sent: Request)
      modifies this
      ensures sent == ProjectActions.CreateRequest(NewProject(f))
      ensures Snapshot() == Create(old(Snapshot()), o)
    {
      sent := ProjectActions.CreateRequest(NewProject(f));
      if o.Returned? {
        projects := projects + [o.value];
      }
    }

    method HandleEditProject(f: Form, o: Outcome<Project>) returns (sent: Option<Request>)
      modifies this
      ensures sent == EditRequest(old(Snapshot()), f)
      ensures Snapshot() == Edit(old(Snapshot()), o)
    {
      if currentProject.None? {
        return None;
      }
      sent := Some(ProjectActions.UpdateRequest(Edited(currentProject.value, f)));
      if o.Returned? {
        projects := Records.ReplaceById(projects, ProjectId, o.value);
      }
    }

    method HandleDeleteProject(o: Outcome<Project>) returns (sent: Option<Request>)
      modifies this
      ensures sent == DeleteRequest(old(Snapshot()))
      ensures Snapshot() == Delete(old(Snapshot()), o)
    {
      if currentProject.None? {
        return None;
      }
      sent := Some(ProjectActions.DeleteRequest(currentProject.value));
      if o.Returned? {
        projects := Records.RemoveById(projects, ProjectId, currentProject.value.id);
      }
    }

    method HandleSearch(query: string) returns (args: ListArgs)
      modifies this
      ensures (Snapshot(), args) == Search(old(Snapshot()), query)
    {
      searchTerm := query;
      args := ListArgs(PageNumber(page), Some(query), None, None, None);
    }

    method HandleSort(column: string, direction: string) returns (args: ListArgs)
      modifies this
      ensures (Snapshot(), args) == Sort(old(Snapshot()), column, direction)
    {
      args := ListArgs(PageNumber(page), Some(searchTerm), Some(column), Some(direction), None);
      sortField, sortOrder := column, direction;
    }

    /** Changes nothing: the requested page is not stored. */
    method HandlePageChange(newPage: int) returns (args: ListArgs)
      ensures args == PageChange(Snapshot(), newPage).1
    {
      args := ListArgs(PageNumber(newPage), Some(searchTerm), Some(sortField), Some(sortOrder), None);
    }
  }
}
