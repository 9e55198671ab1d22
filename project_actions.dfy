/** app/actions/project.ts. The list uses the configured API base; create, update and
    delete send to the hard-wired local server and have no 401 branch. */
module ProjectActions {
  import opened Js
  import opened Models
  import opened Api

  const View := "/project"
  const LocalProjects := "http://localhost:4000/project"

  /** The list's failure message is the one of the client list. */
  const ListFailure := "Failed to fetch client list"

  function ListRequest(env: Option<string>, args: ListArgs): (r: Option<Request>)
    ensures r.None? <==> args.page == NoPage
    ensures r.Some? ==>
      r.value.verb == GET && r.value.url == ApiUrl(env) + View &&
      r.value.body == NoBody && Some(r.value.query) == ListParams(args)
  {
    match ListParams(args)
    case None => None
    case Some(q) => Some(Request(GET, ApiUrl(env) + View, q, NoBody))
  }

  /** `getProjectList`'s result, checked as the client list is. */
  function GetProjectList(args: ListArgs, response: Response<seq<Project>>): (o: Outcome<seq<Project>>)
    ensures args.page == NoPage ==> o == Thrown(UndefinedPageMessage, false)
    ensures o.redirected <==> args.page != NoPage && response.Response? && response.status == 401
    ensures o.Returned? <==> args.page != NoPage && response.Response? && (response.status == 401 || IsOk(response.status))
    ensures o.Returned? ==> o.value == (if response.status == 401 then [] else response.body)
    ensures o.Thrown? && args.page != NoPage && response.Response? ==> o.message == ListFailure
  {
    if args.page == NoPage then Thrown(UndefinedPageMessage, false)
    else ListOutcome(response, [], ListFailure)
  }

  function CreateRequest(p: ProjectCreate): Request {
    Request(POST, LocalProjects, [], NewProjectBody(p))
  }

  function UpdateRequest(p: Project): Request {
    Request(PUT, LocalProjects + "/" + IntToString(p.id), [], ProjectBody(p))
  }

  /** Delete names the project only in its body. */
  function DeleteRequest(p: Project): Request {
    Request(DELETE, LocalProjects, [], ProjectBody(p))
  }

  /** `createProject`, `updateProject`, `deleteProject`: every non-OK status throws the
      action's message and nothing redirects. */
  function CreateProject(response: Response<Project>): (o: Outcome<Project>)
    ensures !o.redirected
    ensures o.Returned? <==> response.Response? && IsOk(response.status)
    ensures o.Returned? ==> o.value == response.body
    ensures response.Response? && !IsOk(response.status) ==> o == Thrown("Failed to create project", false)
  {
    PlainOutcome(response, "Failed to create project")
  }

  function UpdateProject(response: Response<Project>): (o: Outcome<Project>)
    ensures !o.redirected
    ensures o.Returned? <==> response.Response? && IsOk(response.status)
    ensures o.Returned? ==> o.value == response.body
    ensures response.Response? && !IsOk(response.status) ==> o == Thrown("Failed to update project", false)
  {
    PlainOutcome(response, "Failed to update project")
  }

  /** The parsed body of the delete response is returned, whatever it holds. */
  function DeleteProject<T>(response: Response<T>): (o: Outcome<T>)
    ensures !o.redirected
    ensures o.Returned? <==> response.Response? && IsOk(response.status)
    ensures o.Returned? ==> o.value == response.body
    ensures response.Response? && !IsOk(response.status) ==> o == Thrown("Failed to delete project", false)
  {
    PlainOutcome(response, "Failed to delete project")
  }

  // ------------------------------------------------------------ properties

  /** An expired session is an ordinary failure for the mutations: no redirect to '/login'. */
  lemma UnauthorizedMutationsThrow(body: Project)
    ensures CreateProject(Response(401, body)) == Thrown("Failed to create project", false)
    ensures UpdateProject(Response(401, body)) == Thrown("Failed to update project", false)
    ensures DeleteProject(Response(401, body)) == Thrown("Failed to delete project", false)
  {
  }

  /** The list goes to the same server as the mutations exactly when the configured base
      is the default one. */
  lemma ListAndCreateShareServerOnlyByDefault(env: Option<string>, args: ListArgs, p: ProjectCreate)
    requires args.page != NoPage
    ensures ListRequest(env, args).value.url == CreateRequest(p).url <==> ApiUrl(env) == DefaultApiUrl
  {
    var a := ApiUrl(env);
    if a + View == DefaultApiUrl + View {
      assert |a| == |DefaultApiUrl|;
      assert a == (a + View)[..|a|];
      assert DefaultApiUrl == (DefaultApiUrl + View)[..|DefaultApiUrl|];
    }
    assert LocalProjects == DefaultApiUrl + View;
  }

  /** Delete goes to the collection URL, where create goes, and never to the item URL update uses. */
  lemma DeleteTargetsCollection(p: Project, q: ProjectCreate)
    ensures DeleteRequest(p).url == CreateRequest(q).url
    ensures DeleteRequest(p).url != UpdateRequest(p).url
  {
    assert |UpdateRequest(p).url| > |LocalProjects|;
  }
}
