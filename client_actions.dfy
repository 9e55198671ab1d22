/** app/actions/client.ts: each action is the request it sends and the outcome it
    makes of the response. All five use the configured API base. */
module ClientActions {
  import opened Js
  import opened Models
  import opened Api

  const View := "/client"
  const ListFailure := "Failed to fetch client list"

  /** The request `getClientList` sends, or none when `page.toString()` throws first. */
  function ListRequest(env: Option<string>, args: ListArgs): (r: Option<Request>)
    ensures r.None? <==> args.page == NoPage
    ensures r.Some? ==>
      r.value.verb == GET && r.value.url == ApiUrl(env) + View &&
      r.value.body == NoBody && Some(r.value.query) == ListParams(args)
  {
    match ListParams(args)
    case None => None
    case Some(q) => Some(Request(GET, ApiUrl(env) + View, q, NoBody))
  }

  /** `getClientList`'s result: without a page it throws before any request; a 401
      redirects to '/login' and yields no clients; any other non-OK status throws. */
  function GetClientList(args: ListArgs, response: Response<seq<Client>>): (o: Outcome<seq<Client>>)
    ensures args.page == NoPage ==> o == Thrown(UndefinedPageMessage, false)
    ensures o.redirected <==> args.page != NoPage && response.Response? && response.status == 401
    ensures o.Returned? <==> args.page != NoPage && response.Response? && (response.status == 401 || IsOk(response.status))
    ensures o.Returned? ==> o.value == (if response.status == 401 then [] else response.body)
    ensures o.Thrown? && args.page != NoPage && response.Response? ==> o.message == ListFailure
  {
    if args.page == NoPage then Thrown(UndefinedPageMessage, false)
    else ListOutcome(response, [], ListFailure)
  }

  function ItemUrl(env: Option<string>, id: int): string {
    ApiUrl(env) + View + "/" + IntToString(id)
  }

  function CreateRequest(env: Option<string>, c: ClientCreate): Request {
    Request(POST, ApiUrl(env) + View, [], NewClientBody(c))
  }

  function UpdateRequest(env: Option<string>, c: Client): Request {
    Request(PUT, ItemUrl(env, c.id), [], ClientBody(c))
  }

  function RemoveRequest(env: Option<string>, c: Client): Request {
    Request(DELETE, ItemUrl(env, c.id), [], NoBody)
  }

  function GetAllRequest(env: Option<string>): Request {
    Request(GET, ApiUrl(env) + View + "/all", [], NoBody)
  }

  /** `create`, `update` and `remove`: a 401 redirects and throws 'Unauthorized'; any
      other non-OK status throws the action's own message; OK returns the body. */
  function Create(response: Response<Client>): (o: Outcome<Client>)
    ensures o.redirected <==> response.Response? && response.status == 401
    ensures o.Returned? <==> response.Response? && IsOk(response.status)
    ensures o.Returned? ==> o.value == response.body
    ensures response.Response? && response.status != 401 && !IsOk(response.status) ==> o == Thrown("Failed to create client", false)
  {
    GuardedOutcome(response, "Failed to create client")
  }

  function Update(response: Response<Client>): (o: Outcome<Client>)
    ensures o.redirected <==> response.Response? && response.status == 401
    ensures o.Returned? <==> response.Response? && IsOk(response.status)
    ensures o.Returned? ==> o.value == response.body
    ensures response.Response? && response.status != 401 && !IsOk(response.status) ==> o == Thrown("Failed to update client", false)
  {
    GuardedOutcome(response, "Failed to update client")
  }

  /** `remove` resolves to nothing; its response body is not read. */
  function Remove(response: Response<()>): (o: Outcome<()>)
    ensures o.redirected <==> response.Response? && response.status == 401
    ensures o.Returned? <==> response.Response? && IsOk(response.status)
    ensures response.Response? && response.status != 401 && !IsOk(response.status) ==> o == Thrown("Failed to delete client", false)
  {
    GuardedOutcome(response, "Failed to delete client")
  }

  /** `getAll` checks the response as `getClientList` does, with the same message. */
  function GetAll(response: Response<seq<Client>>): (o: Outcome<seq<Client>>)
    ensures o.redirected <==> response.Response? && response.status == 401
    ensures o.Returned? <==> response.Response? && (response.status == 401 || IsOk(response.status))
    ensures o.Returned? ==> o.value == (if response.status == 401 then [] else response.body)
    ensures response.Response? && response.status != 401 && !IsOk(response.status) ==> o == Thrown(ListFailure, false)
  {
    ListOutcome(response, [], ListFailure)
  }

  // ------------------------------------------------------------ properties

  /** Update and remove address the same item URL, and distinct ids address distinct URLs. */
  lemma ItemUrlsIdentifyClients(env: Option<string>, c: Client, d: Client)
    ensures UpdateRequest(env, c).url == RemoveRequest(env, c).url
    ensures c.id != d.id ==> UpdateRequest(env, c).url != UpdateRequest(env, d).url
  {
    var prefix := ApiUrl(env) + View + "/";
    assert ItemUrl(env, c.id)[|prefix|..] == IntToString(c.id);
    assert ItemUrl(env, d.id)[|prefix|..] == IntToString(d.id);
    IntegerTextOfIntToString(c.id);
    IntegerTextOfIntToString(d.id);
  }

  /** '/client/all' is never the URL of a single client: "all" is not the text of an id. */
  lemma GetAllIsNoItem(env: Option<string>, c: Client)
    ensures GetAllRequest(env).url != UpdateRequest(env, c).url
  {
    var prefix := ApiUrl(env) + View + "/";
    assert GetAllRequest(env).url[|prefix|..] == "all";
    assert ItemUrl(env, c.id)[|prefix|..] == IntToString(c.id);
    IntegerTextOfIntToString(c.id);
    assert IntegerText("all") == None;
  }

  /** Called without arguments, `getClientList` sends nothing and rejects, whatever the server would say. */
  lemma ListWithoutPageRejects(env: Option<string>, response: Response<seq<Client>>)
    ensures var args := ListArgs(NoPage, None, None, None, None);
      ListRequest(env, args) == None &&
      GetClientList(args, response) == Thrown(UndefinedPageMessage, false)
  {
  }
}
