/** The network as the client sees it: a scripted sequence of replies that
    `fetch` hands out one per call, and a ghost log of every request made. */
module Http {
  import opened Wrappers
  import Json

  /** A response body: either not JSON (`res.json()` rejects) or a JSON object. */
  datatype Body = NotJson | JsonObject(fields: map<string, Json.Value>)

  datatype Response = Response(status: int, statusText: string, body: Body) {
    /** `Response.ok`. */
    predicate Ok() { 200 <= status <= 299 }
  }

  /** One call of `fetch`: a response, or a rejected promise (network failure). */
  datatype Reply = Delivered(response: Response) | NetworkFailure

  /** A request path below the backend's base URL: the path name and the query
      parameters in order (the structure `URL.searchParams` gives the path). */
  datatype Path = Path(pathname: string, query: seq<(string, string)>)

  /** An `Authorization` header value: `Basic` carries the user and password
      that are base64-encoded into the header, `Bearer` the token. */
  datatype Authorization = Basic(user: string, password: string) | Bearer(token: string)

  /** The endpoint a request goes to. */
  datatype Target =
    | Api(path: Path, payload: Option<map<string, Json.Value>>) // `${BASE_URL}${path}` through apiFetch; a POST carries its JSON body
    | SessionInit                                      // POST /session/init
    | SessionRefresh(refreshToken: string)             // POST /session/refresh
    | AuthRefresh(refreshToken: string)                // POST /auth/refresh (AuthClient)
    | Absolute(url: string)                            // a caller-supplied URL
    | JiraMyself(baseUrl: string, auth: Authorization) // GET <baseUrl>/rest/api/3/myself

  datatype Request = Request(target: Target, headers: map<string, string>)

  /** `{ "Content-Type": "application/json" }`, the headers of the JSON endpoints. */
  function JsonHeaders(): map<string, string> {
    map["Content-Type" := "application/json"]
  }

  /** A reply whose body the caller reads: ok status and a JSON object body,
      so neither the status check nor `res.json()` throws. */
  predicate OkJson(rep: Reply) {
    rep.Delivered? && rep.response.Ok() && rep.response.body.JsonObject?
  }

  predicate IsApi(r: Request) { r.target.Api? }

  /** Number of business requests (those sent through `apiFetch`) in a log. */
  function ApiCalls(log: seq<Request>): (n: nat)
    ensures n <= |log|
  {
    if log == [] then 0 else ApiCalls(log[..|log| - 1]) + (if IsApi(log[|log| - 1]) then 1 else 0)
  }

  /** A business request that is a POST, carrying a JSON body. */
  predicate IsPost(r: Request) { r.target.Api? && r.target.payload.Some? }

  /** Number of business POST requests in a log. */
  function Posts(log: seq<Request>): (n: nat)
    ensures n <= ApiCalls(log)
  {
    if log == [] then 0 else Posts(log[..|log| - 1]) + (if IsPost(log[|log| - 1]) then 1 else 0)
  }

  /** Number of refresh-endpoint requests in a log. */
  function RefreshCalls(log: seq<Request>): (n: nat)
    ensures n <= |log|
  {
    if log == [] then 0
    else RefreshCalls(log[..|log| - 1]) + (if log[|log| - 1].target.SessionRefresh? then 1 else 0)
  }

  lemma CountsSnoc(log: seq<Request>, x: Request)
    ensures ApiCalls(log + [x]) == ApiCalls(log) + (if IsApi(x) then 1 else 0)
    ensures RefreshCalls(log + [x]) == RefreshCalls(log) + (if x.target.SessionRefresh? then 1 else 0)
    ensures Posts(log + [x]) == Posts(log) + (if IsPost(x) then 1 else 0)
  {
    assert (log + [x])[..|log|] == log;
  }

  /** `after` extends `before` with requests none of which is a business request. */
  ghost predicate NoApiAdded(before: seq<Request>, after: seq<Request>) {
    before <= after && ApiCalls(after) == ApiCalls(before) && Posts(after) == Posts(before)
  }

  lemma {:induction false} CountsAppend(a: seq<Request>, b: seq<Request>)
    ensures ApiCalls(a + b) == ApiCalls(a) + ApiCalls(b)
    ensures RefreshCalls(a + b) == RefreshCalls(a) + RefreshCalls(b)
    ensures Posts(a + b) == Posts(a) + Posts(b)
    decreases |b|
  {
    if b == [] {
      assert a + b == a;
    } else {
      var b' := b[..|b| - 1];
      assert (a + b)[..|a + b| - 1] == a + b';
      assert (a + b)[|a + b| - 1] == b[|b| - 1];
      CountsAppend(a, b');
    }
  }

  /** A log extended by a business request, and then by anything, counts one more business request at least. */
  lemma ApiCallsGrow(a: seq<Request>, b: seq<Request>)
    requires a < b && IsApi(b[|a|])
    ensures ApiCalls(b) >= ApiCalls(a) + 1
  {
    var x := b[|a|];
    var c := b[|a| + 1..];
    assert b == (a + [x]) + c;
    CountsSnoc(a, x);
    CountsAppend(a + [x], c);
  }

  /** A log only grows: an entry already made stays where it is. */
  lemma PrefixKeeps(a: seq<Request>, b: seq<Request>, i: nat)
    requires a <= b && i < |a|
    ensures b[i] == a[i]
  {
  }

  class Network {
    /** The replies `fetch` hands out, in order: the `i`-th call receives the
        `i`-th; an exhausted script models a network that no longer answers. */
    const script: seq<Reply>
    /** Number of replies handed out so far. */
    var served: nat
    /** Every request made so far, in order. */
    ghost var sent: seq<Request>

    constructor (script: seq<Reply>)
      ensures this.script == script && served == 0 && sent == []
    {
      this.script := script;
      served := 0;
      sent := [];
    }

    /** The reply the `i`-th call of `fetch` receives. */
    function At(i: nat): Reply {
      if i < |script| then script[i] else NetworkFailure
    }

    /** The reply the next `fetch` will receive. */
    function Next(): Reply
      reads this
    {
      At(served)
    }

    /** The reply the `i`-th next `fetch` will receive. */
    function Peek(i: nat): Reply
      reads this
    {
      At(served + i)
    }

    /** `fetch(request)`. */
    method Fetch(req: Request) returns (r: Reply)
      modifies this
      ensures r == old(Next())
      ensures served == old(served) + 1
      ensures sent == old(sent) + [req]
    {
      r := Next();
      served := served + 1;
      sent := sent + [req];
    }
  }
}
