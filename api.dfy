/** What the action modules app/actions/client.ts and app/actions/project.ts share:
    a request as a value, the query builder for the paged lists, and the way a
    response becomes a result, a thrown error or a redirect to the login page. */
module Api {
  import opened Js
  import opened Models

  datatype Method = GET | POST | PUT | DELETE

  datatype Param = Param(name: string, value: string)

  /** A request body, before `JSON.stringify`. */
  datatype Body =
    | NoBody
    | ClientBody(client: Client)
    | NewClientBody(newClient: ClientCreate)
    | ProjectBody(project: Project)
    | NewProjectBody(newProject: ProjectCreate)

  /** A request as `fetch` receives it; the bearer token header is left out. */
  datatype Request = Request(verb: Method, url: string, query: seq<Param>, body: Body)

  const DefaultApiUrl := "http://localhost:4000"

  /** `process.env.API_URL || "http://localhost:4000"` */
  function ApiUrl(env: Option<string>): string {
    if Truthy(env) then env.value else DefaultApiUrl
  }

  // ------------------------------------------------------------ the list query

  /** The `page` argument as it is passed: a number, a string, or nothing. */
  datatype PageArg = PageNumber(n: int) | PageText(s: string) | NoPage

  /** The arguments of `getClientList` / `getProjectList`; `None` is an argument
      left out (or `undefined`), which selects the parameter's default. */
  datatype ListArgs = ListArgs(
    page: PageArg,
    searchQuery: Option<string>,
    sortField: Option<string>,
    sortOrder: Option<string>,
    numberOfItems: Option<int>)

  /** `page.toString()`; on `undefined` it throws. */
  function PageString(p: PageArg): Option<string> {
    match p
    case PageNumber(n) => Some(IntToString(n))
    case PageText(s) => Some(s)
    case NoPage => None
  }

  /** The query parameters in the order they are appended, or `None` when
      `page.toString()` throws before any request is made. */
  function ListParams(args: ListArgs): Option<seq<Param>> {
    match PageString(args.page)
    case None => None
    case Some(page) =>
      Some([Param("page", page), Param("pageSize", IntToString(args.numberOfItems.GetOr(10)))]
        + (if Truthy(args.searchQuery) then [Param("search", args.searchQuery.value)] else [])
        + (if Truthy(args.sortField)
           then [Param("sortField", args.sortField.value), Param("sortOrder", args.sortOrder.GetOr("asc"))]
           else []))
  }

  predicate HasParam(q: seq<Param>, name: string) {
    exists i :: 0 <= i < |q| && q[i].name == name
  }

  /** `url.searchParams`: the query of a URL under construction. */
  class SearchParams {
    var entries: seq<Param>

    constructor ()
      ensures entries == []
    {
      entries := [];
    }

    method Append(name: string, value: string)
      modifies this
      ensures entries == old(entries) + [Param(name, value)]
    {
      entries := entries + [Param(name, value)];
    }
  }

  /** The append sequence at the top of both list functions. */
  method BuildListQuery(args: ListArgs) returns (query: Option<seq<Param>>)
    ensures query == ListParams(args)
  {
    var page := PageString(args.page);
    if page.None? {
      return None;
    }
    var params := new SearchParams();
    params.Append("page", page.value);
    params.Append("pageSize", IntToString(args.numberOfItems.GetOr(10)));
    ghost var head := params.entries;
    assert head == [Param("page", page.value), Param("pageSize", IntToString(args.numberOfItems.GetOr(10)))];
    if Truthy(args.searchQuery) {
      params.Append("search", args.searchQuery.value);
    }
    ghost var middle := params.entries;
    assert middle == head + (if Truthy(args.searchQuery) then [Param("search", args.searchQuery.value)] else []);
    if Truthy(args.sortField) {
      params.Append("sortField", args.sortField.value);
      params.Append("sortOrder", args.sortOrder.GetOr("asc"));
      assert params.entries == middle + [Param("sortField", args.sortField.value), Param("sortOrder", args.sortOrder.GetOr("asc"))];
    } else {
      assert params.entries == middle + [];
    }
    assert ListParams(args) == Some(params.entries);
    query := Some(params.entries);
  }

  /** The query starts with page then pageSize (10 unless given); `search` is there iff
      the search text is non-empty; `sortField` and `sortOrder` come together, iff the
      sort field is non-empty, and the order defaults to 'asc'. */
  lemma ListParamsShape(args: ListArgs)
    requires args.page != NoPage
    ensures ListParams(args).Some?
    ensures var q := ListParams(args).value;
      2 <= |q| <= 5 &&
      q[0] == Param("page", PageString(args.page).value) &&
      q[1] == Param("pageSize", IntToString(args.numberOfItems.GetOr(10))) &&
      (HasParam(q, "search") <==> Truthy(args.searchQuery)) &&
      (HasParam(q, "sortField") <==> Truthy(args.sortField)) &&
      (HasParam(q, "sortOrder") <==> Truthy(args.sortField)) &&
      (Truthy(args.sortField) ==> q[|q| - 1] == Param("sortOrder", args.sortOrder.GetOr("asc")))
  {
    var q := ListParams(args).value;
    var tail := (if Truthy(args.searchQuery) then [Param("search", args.searchQuery.value)] else [])
      + (if Truthy(args.sortField)
         then [Param("sortField", args.sortField.value), Param("sortOrder", args.sortOrder.GetOr("asc"))]
         else []);
    assert q == [q[0], q[1]] + tail;
    if HasParam(q, "search") {
      var i :| 0 <= i < |q| && q[i].name == "search";
      assert i >= 2;
    }
    if HasParam(q, "sortField") {
      var i :| 0 <= i < |q| && q[i].name == "sortField";
      assert i >= 2;
    }
    if HasParam(q, "sortOrder") {
      var i :| 0 <= i < |q| && q[i].name == "sortOrder";
      assert i >= 2;
    }
    if Truthy(args.searchQuery) {
      assert q[2].name == "search";
    }
    if Truthy(args.sortField) {
      assert q[|q| - 2].name == "sortField";
    }
  }

  /** Without a page argument the builder throws, so no request is made. */
  lemma MissingPageThrows(args: ListArgs)
    requires args.page == NoPage
    ensures ListParams(args) == None
  {
  }

  // ------------------------------------------------------------ outcomes

  /** What `fetch` resolved to: a response (its body already parsed) or a rejection. */
  datatype Response<T> = Response(status: int, body: T) | NetworkError(message: string)

  /** `response.ok` */
  predicate IsOk(status: int) {
    200 <= status <= 299
  }

  /** The action's result: a returned value or a thrown error, and whether the page
      was sent to '/login' on the way. */
  datatype Outcome<T> = Returned(value: T, redirected: bool) | Thrown(message: string, redirected: bool)

  /** The message `page.toString()` throws with when `page` is `undefined`. */
  const UndefinedPageMessage := "Cannot read properties of undefined (reading 'toString')"

  /** The list-style checks: 401 sends the page to '/login' and returns `empty`;
      any other non-OK status throws `failure`; OK returns the body. */
  function ListOutcome<T>(r: Response<T>, empty: T, failure: string): (o: Outcome<T>)
    ensures o.redirected <==> r.Response? && r.status == 401
    ensures o.Thrown? <==> r.NetworkError? || (r.status != 401 && !IsOk(r.status))
    ensures r.Response? && IsOk(r.status) ==> o == Returned(r.body, false)
    ensures r.Response? && r.status == 401 ==> o == Returned(empty, true)
  {
    match r
    case NetworkError(m) => Thrown(m, false)
    case Response(status, body) =>
      if status == 401 then Returned(empty, true)
      else if !IsOk(status) then Thrown(failure, false)
      else Returned(body, false)
  }

  /** The mutation-style checks with a 401 branch: 401 redirects and throws 'Unauthorized'. */
  function GuardedOutcome<T>(r: Response<T>, failure: string): (o: Outcome<T>)
    ensures o.redirected <==> r.Response? && r.status == 401
    ensures o.Returned? <==> r.Response? && IsOk(r.status)
    ensures r.Response? && r.status == 401 ==> o == Thrown("Unauthorized", true)
    ensures r.Response? && IsOk(r.status) ==> o == Returned(r.body, false)
    ensures r.Response? && r.status != 401 && !IsOk(r.status) ==> o == Thrown(failure, false)
  {
    match r
    case NetworkError(m) => Thrown(m, false)
    case Response(status, body) =>
      if status == 401 then Thrown("Unauthorized", true)
      else if !IsOk(status) then Thrown(failure, false)
      else Returned(body, false)
  }

  /** The checks without a 401 branch: every non-OK status, 401 included, throws. */
  function PlainOutcome<T>(r: Response<T>, failure: string): (o: Outcome<T>)
    ensures !o.redirected
    ensures o.Returned? <==> r.Response? && IsOk(r.status)
    ensures r.Response? && !IsOk(r.status) ==> o == Thrown(failure, false)
    ensures r.Response? && IsOk(r.status) ==> o == Returned(r.body, false)
  {
    match r
    case NetworkError(m) => Thrown(m, false)
    case Response(status, body) =>
      if !IsOk(status) then Thrown(failure, false) else Returned(body, false)
  }
}
