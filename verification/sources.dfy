/** Per-environment request construction and the concatenation of every
    environment's fetch result into one flat event list. The HTTP exchange
    and the JSON parsing are not modelled: a fetch result is `Some(events)`
    on success and `None` where the job gets nil back. */
module Sources {
  import opened Options
  import opened Events

  /** One entry of the environments configuration. */
  datatype Environment = Environment(
    name: string,
    host: string,
    port: string,
    user: string,
    password: string,
    path: Option<string>)

  datatype Credentials = Credentials(user: string, password: string)

  /** The GET request sent to one environment; `auth` is present when basic
      authentication is applied. */
  datatype Request = Request(url: string, auth: Option<Credentials>)

  const Scheme: string := "http://"
  const Endpoint: string := "/events"

  /** The API base of an environment: scheme, host, port and path, where a
      missing path is the empty string. */
  function ApiBase(env: Environment): (api: string)
    ensures |api| == |Scheme| + |env.host| + 1 + |env.port| + |env.path.GetOr("")|
    ensures api[..|Scheme|] == Scheme
    ensures api[|Scheme|..|Scheme| + |env.host|] == env.host
    ensures api[|Scheme| + |env.host|] == ':'
    ensures api[|Scheme| + |env.host| + 1..|Scheme| + |env.host| + 1 + |env.port|] == env.port
    ensures api[|api| - |env.path.GetOr("")|..] == env.path.GetOr("")
  {
    var path := if env.path.None? then "" else env.path.value;
    Scheme + env.host + ":" + env.port + path
  }

  /** Basic authentication is used only when user and password are both non-empty. */
  function UsesBasicAuth(env: Environment): (b: bool)
    ensures b <==> |env.user| > 0 && |env.password| > 0
  {
    env.user != [] && env.password != []
  }

  /** The request for one environment: the events endpoint under its API base. */
  function RequestFor(env: Environment): (r: Request)
    ensures |r.url| == |ApiBase(env)| + |Endpoint|
    ensures r.url[..|ApiBase(env)|] == ApiBase(env)
    ensures r.url[|ApiBase(env)|..] == Endpoint
    ensures r.auth.Some? <==> env.user != [] && env.password != []
    ensures r.auth.Some? ==> r.auth.value == Credentials(env.user, env.password)
  {
    var auth := if UsesBasicAuth(env) then Some(Credentials(env.user, env.password)) else None;
    Request(ApiBase(env) + Endpoint, auth)
  }

  /** The events a fetch result contributes: none when it failed. */
  function Contribution(result: Option<seq<Event>>): (events: seq<Event>)
  {
    result.GetOr([])
  }

  /** Concatenates the fetch results in configuration order; a failed fetch
      contributes nothing. */
  function FanIn(results: seq<Option<seq<Event>>>): (events: seq<Event>)
    ensures forall e :: e in events <==>
              exists i :: 0 <= i < |results| && results[i].Some? && e in results[i].value
  {
    if results == [] then []
    else Contribution(results[0]) + FanIn(results[1..])
  }

  /** Fetches every configured environment in order through `fetch`, which
      stands for the HTTP GET plus the JSON parse. */
  function FetchAll(envs: seq<Environment>, fetch: Request -> Option<seq<Event>>): (results: seq<Option<seq<Event>>>)
    ensures |results| == |envs|
    ensures forall i :: 0 <= i < |envs| ==> results[i] == fetch(RequestFor(envs[i]))
  {
    if envs == [] then []
    else [fetch(RequestFor(envs[0]))] + FetchAll(envs[1..], fetch)
  }

  /** The number of events the successful fetches returned. */
  function TotalEvents(results: seq<Option<seq<Event>>>): (n: nat)
  {
    if results == [] then 0
    else (if results[0].Some? then |results[0].value| else 0) + TotalEvents(results[1..])
  }

  /** Fan-in distributes over splitting the configuration. */
  lemma {:induction false} FanInAppend(a: seq<Option<seq<Event>>>, b: seq<Option<seq<Event>>>)
    ensures FanIn(a + b) == FanIn(a) + FanIn(b)
  {
    if a == [] {
      assert a + b == b;
    } else {
      assert (a + b)[1..] == a[1..] + b;
      FanInAppend(a[1..], b);
    }
  }

  /** A failed environment contributes zero events wherever it sits; a
      successful one contributes exactly its events, in their order. */
  lemma FanInAround(a: seq<Option<seq<Event>>>, r: Option<seq<Event>>, b: seq<Option<seq<Event>>>)
    ensures r.None? ==> FanIn(a + [r] + b) == FanIn(a) + FanIn(b)
    ensures r.Some? ==> FanIn(a + [r] + b) == FanIn(a) + r.value + FanIn(b)
  {
    FanInAppend(a + [r], b);
    FanInAppend(a, [r]);
    assert FanIn([r]) == Contribution(r) + FanIn([]);
  }

  /** The flat list holds exactly as many events as the successful fetches returned. */
  lemma {:induction false} FanInLength(results: seq<Option<seq<Event>>>)
    ensures |FanIn(results)| == TotalEvents(results)
  {
    if results != [] {
      FanInLength(results[1..]);
    }
  }

  /** Without a successful fetch there are no events. */
  lemma {:induction false} FanInAllFailed(results: seq<Option<seq<Event>>>)
    requires forall i :: 0 <= i < |results| ==> results[i].None?
    ensures FanIn(results) == []
  {
    if results != [] {
      FanInAllFailed(results[1..]);
    }
  }
}
