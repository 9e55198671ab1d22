/** The client management page of app/clients/page.tsx: the form-to-record conversions,
    the arguments its handlers pass to `getClientList`, and what each handler does to the
    list once its request has settled. The page's state is a value here; the class at
    the end keeps it in separate fields as the component does. */
module ClientsPage {
  import opened Js
  import opened Models
  import opened Api
  import Records
  import ClientActions

  /** What the modal submits: one text per field of the client form. */
  datatype Form = Form(name: string, email: string, phone: string, address: string)

  function NewClient(f: Form): ClientCreate {
    ClientCreate(f.name, f.email, f.phone, f.address)
  }

  /** The spread of the current client with the four form fields on top. */
  function Edited(current: Client, f: Form): (c: Client)
    ensures c.id == current.id
    ensures c.name == f.name && c.email == f.email && c.phone == f.phone && c.address == f.address
  {
    current.(name := f.name, email := f.email, phone := f.phone, address := f.address)
  }

  /** The edit form's initial values. */
  function EditFormDefaults(c: Client): Form {
    Form(c.name, c.email, c.phone, c.address)
  }

  // ------------------------------------------------------------ page state

  datatype State = State(clients: seq<Client>, currentClient: Option<Client>, error: Option<string>, loading: bool)

  const Initial := State([], None, None, true)

  function ClientId(c: Client): int { c.id }

  /** The mount effect calls `getClientList()` with no arguments at all. */
  const MountArgs := ListArgs(NoPage, None, None, None, None)

  /** `handleSearch` passes the query where the page number belongs. */
  function SearchArgs(query: string): ListArgs {
    ListArgs(PageText(query), None, None, None, None)
  }

  /** `handleSort` passes the column as the page and the direction as the search text. */
  function SortArgs(column: string, direction: string): ListArgs {
    ListArgs(PageText(column), Some(direction), None, None, None)
  }

  /** A settled client list request. */
  function ReceiveClients(st: State, o: Outcome<seq<Client>>): State {
    match o
    case Returned(data, _) => st.(clients := data, loading := false)
    case Thrown(message, _) => st.(error := Some(message), loading := false)
  }

  function Select(st: State, c: Client): State {
    st.(currentClient := Some(c))
  }

  /** `handleCreateClient` once `create(NewClient(f))` settled; a rejection escapes the handler. */
  function Create(st: State, o: Outcome<Client>): State {
    match o
    case Returned(d, _) => st.(clients := Records.Append(st.clients, d))
    case Thrown(_, _) => st
  }

  function EditRequest(env: Option<string>, st: State, f: Form): Option<Request> {
    if st.currentClient.None? then None
    else Some(ClientActions.UpdateRequest(env, Edited(st.currentClient.value, f)))
  }

  /** `handleEditClient` once the update settled: the returned client replaces every entry with its id. */
  function Edit(st: State, o: Outcome<Client>): State {
    if st.currentClient.None? then st
    else match o
      case Returned(d, _) => st.(clients := Records.ReplaceById(st.clients, ClientId, d))
      case Thrown(_, _) => st
  }

  function DeleteRequest(env: Option<string>, st: State): Option<Request> {
    if st.currentClient.None? then None
    else Some(ClientActions.RemoveRequest(env, st.currentClient.value))
  }

  /** `handleDeleteClient` once the removal settled: entries with the current client's id go. */
  function Delete(st: State, o: Outcome<()>): State {
    if st.currentClient.None? then st
    else match o
      case Returned(_, _) => st.(clients := Records.RemoveById(st.clients, ClientId, st.currentClient.value.id))
      case Thrown(_, _) => st
  }

  // ------------------------------------------------------------ properties

  /** The initial fetch never sends a request: it ends on the error path with the
      `toString` failure, whatever the server would have answered. */
  lemma MountEndsInError(env: Option<string>, response: Response<seq<Client>>)
    ensures ClientActions.ListRequest(env, MountArgs) == None
    ensures ReceiveClients(Initial, ClientActions.GetClientList(MountArgs, response)) ==
      Initial.(error := Some(UndefinedPageMessage), loading := false)
  {
  }

  /** A search sends the query as the page and no search parameter at all. */
  lemma {:induction false} SearchSendsQueryAsPage(query: string)
    ensures ListParams(SearchArgs(query)) == Some([Param("page", query), Param("pageSize", "10")])
    ensures !HasParam(ListParams(SearchArgs(query)).value, "search")
  {
    ListParamsShape(SearchArgs(query));
    assert IntToString(10) == "10";
    assert [Param("page", query), Param("pageSize", "10")] + [] + [] == [Param("page", query), Param("pageSize", "10")];
  }

  /** A sort sends the column as the page and the direction as the search text; it never
      sends a sort field. */
  lemma {:induction false} SortSendsColumnAsPage(column: string, direction: string)
    ensures var q := ListParams(SortArgs(column, direction)).value;
      q[0] == Param("page", column) && !HasParam(q, "sortField") && !HasParam(q, "sortOrder") &&
      (HasParam(q, "search") <==> direction != "") &&
      (direction != "" ==> q[2] == Param("search", direction))
  {
    ListParamsShape(SortArgs(column, direction));
  }

  /** An edit keeps the current client's id and puts the returned client at the entries with its id. */
  lemma EditReplaces(st: State, d: Client, r: bool)
    requires st.currentClient.Some?
    ensures var after := Edit(st, Returned(d, r)).clients;
      |after| == |st.clients| &&
      forall i :: 0 <= i < |after| ==> after[i] == if st.clients[i].id == d.id then d else st.clients[i]
  {
  }

  /** Submitting the edit form unchanged gives the client back, so its update request carries it as it was. */
  lemma EditFormRoundTrip(env: Option<string>, st: State)
    requires st.currentClient.Some?
    ensures Edited(st.currentClient.value, EditFormDefaults(st.currentClient.value)) == st.currentClient.value
    ensures EditRequest(env, st, EditFormDefaults(st.currentClient.value)) ==
      Some(ClientActions.UpdateRequest(env, st.currentClient.value))
  {
  }

  lemma NoCurrentClientNoChange(env: Option<string>, st: State, f: Form, o: Outcome<Client>, u: Outcome<()>)
    requires st.currentClient.None?
    ensures EditRequest(env, st, f) == None && DeleteRequest(env, st) == None
    ensures Edit(st, o) == st && Delete(st, u) == st
  {
  }

  /** A delete keeps exactly the entries with another id. */
  lemma DeleteRemoves(st: State, r: bool)
    requires st.currentClient.Some?
    ensures var after := Delete(st, Returned((), r)).clients;
      (forall i :: 0 <= i < |after| ==> after[i] in st.clients && after[i].id != st.currentClient.value.id) &&
      (forall i :: 0 <= i < |st.clients| && st.clients[i].id != st.currentClient.value.id ==> st.clients[i] in after)
  {
  }

  /** Creating a client with a new id, then selecting and deleting it, gives the list back. */
  lemma CreateSelectDelete(st: State, d: Client, r: bool, r2: bool)
    requires forall i :: 0 <= i < |st.clients| ==> st.clients[i].id != d.id
    ensures Delete(Select(Create(st, Returned(d, r)), d), Returned((), r2)).clients == st.clients
  {
    Records.CreateThenDelete(st.clients, ClientId, d);
  }

  /** With an expired session every mutation throws 'Unauthorized' after the redirect,
      so the list is left as it was. */
  lemma UnauthorizedMutationsKeepList(st: State, body: Client)
    ensures Create(st, ClientActions.Create(Response(401, body))) == st
    ensures Edit(st, ClientActions.Update(Response(401, body))) == st
    ensures Delete(st, ClientActions.Remove(Response(401, ()))) == st
  {
  }

  // ------------------------------------------------------------ the component

  class ClientManagement {
    var clients: seq<Client>
    var currentClient: Option<Client>
    var error: Option<string>
    var loading: bool

    function Snapshot(): State
      reads this
    {
      State(clients, currentClient, error, loading)
    }

    constructor ()
      ensures Snapshot() == Initial
    {
      clients, currentClient, error, loading := [], None, None, true;
    }

    method OnClients(o: Outcome<seq<Client>>)
      modifies this
      ensures Snapshot() == ReceiveClients(old(Snapshot()), o)
    {
      match o
      case Returned(data, _) =>
        clients := data;
        loading := false;
      case Thrown(message, _) =>
        error := Some(message);
        loading := false;
    }

    method OnSelect(c: Client)
      modifies this
      ensures Snapshot() == Select(old(Snapshot()), c)
    {
      currentClient := Some(c);
    }

    method HandleCreateClient(env: Option<string>, f: Form, o: Outcome<Client>) returns (sent: Request)
      modifies this
      ensures sent == ClientActions.CreateRequest(env, NewClient(f))
      ensures Snapshot() == Create(old(Snapshot()), o)
    {
      sent := ClientActions.CreateRequest(env, NewClient(f));
      if o.Returned? {
        clients := clients + [o.value];
      }
    }

    method HandleEditClient(env: Option<string>, f: Form, o: Outcome<Client>) returns (sent: Option<Request>)
      modifies this
      ensures sent == EditRequest(env, old(Snapshot()), f)
      ensures Snapshot() == Edit(old(Snapshot()), o)
    {
      if currentClient.None? {
        return None;
      }
      sent := Some(ClientActions.UpdateRequest(env, Edited(currentClient.value, f)));
      if o.Returned? {
        clients := Records.ReplaceById(clients, ClientId, o.value);
      }
    }

    method HandleDeleteClient(env: Option<string>, o: Outcome<()>) returns (sent: Option<Request>)
      modifies this
      ensures sent == DeleteRequest(env, old(Snapshot()))
      ensures Snapshot() == Delete(old(Snapshot()), o)
    {
      if currentClient.None? {
        return None;
      }
      sent := Some(ClientActions.RemoveRequest(env, currentClient.value));
      if o.Returned? {
        clients := Records.RemoveById(clients, ClientId, currentClient.value.id);
      }
    }
  }
}
