/** The dashboard's client for the cost-allocation endpoint
    (frontend/src/services/opencostApi.ts): the base URL and the query parameters
    `getAllocation` sends. */
module Client {
  import opened Wrappers
  import opened Deployment
  import opened Routes

  /** Whether `s` ends with `t` (`String.prototype.endsWith`). */
  predicate EndsWith(s: string, t: string) {
    |t| <= |s| && s[|s| - |t|..] == t
  }

  /** A JavaScript truthy text: present and not empty. */
  predicate Truthy(s: Option<string>) {
    s.Some? && s.value != ""
  }

  /** `root`: the configured URL if set, the local backend when the page is served
      from `localhost`, and otherwise the page's own origin (the empty prefix). */
  function Root(envUrl: Option<string>, isBrowser: bool, hostname: string): (root: string)
    ensures Truthy(envUrl) ==> root == envUrl.value
    ensures !Truthy(envUrl) ==> (root == "http://localhost:3001" <==> isBrowser && hostname == "localhost")
    ensures !Truthy(envUrl) && !(isBrowser && hostname == "localhost") ==> root == ""
  {
    var isLocal := isBrowser && hostname == "localhost";
    if Truthy(envUrl) then envUrl.value
    else if isLocal then "http://localhost:3001" else ""
  }

  /** `API_BASE_URL`: the root with `/api` appended unless it already ends so. */
  function ApiBase(root: string): (base: string)
    ensures EndsWith(base, "/api")
    ensures EndsWith(root, "/api") ==> base == root
    ensures !EndsWith(root, "/api") ==> |base| == |root| + 4 && base[..|root|] == root
  {
    if EndsWith(root, "/api") then root
    else
      var base := root + "/api";
      assert base[|base| - 4..] == "/api";
      base
  }

  /** Normalising twice is normalising once. */
  lemma ApiBaseIdempotent(root: string)
    ensures ApiBase(ApiBase(root)) == ApiBase(root)
  {
  }

  /** The base is the root itself or the root with `/api` appended, nothing else. */
  lemma ApiBaseExtendsRoot(root: string)
    ensures ApiBase(root) == root || ApiBase(root) == root + "/api"
    ensures ApiBase(root) == root <==> EndsWith(root, "/api")
  {
    if !EndsWith(root, "/api") {
      var base := ApiBase(root);
      assert base == base[..|root|] + base[|root|..];
      assert base[|root|..] == "/api";
    }
  }

  /** The three deployments the comments in the client describe: the local
      development server, a page served next to its backend, and a configured
      backend. */
  lemma BaseUrls(envUrl: Option<string>, isBrowser: bool, hostname: string)
    ensures !Truthy(envUrl) && isBrowser && hostname == "localhost" ==>
      ApiBase(Root(envUrl, isBrowser, hostname)) == "http://localhost:3001/api"
    ensures !Truthy(envUrl) && !(isBrowser && hostname == "localhost") ==>
      ApiBase(Root(envUrl, isBrowser, hostname)) == "/api"
    ensures envUrl == Some("https://backend.onrender.com") ==>
      ApiBase(Root(envUrl, isBrowser, hostname)) == "https://backend.onrender.com/api"
  {
    var root := Root(envUrl, isBrowser, hostname);
    if root == "http://localhost:3001" || root == "https://backend.onrender.com" {
      AppendsApi(root);
    }
  }

  /** A root not ending in `i` gets `/api` appended. */
  lemma AppendsApi(root: string)
    requires |root| > 0 && root[|root| - 1] != 'i'
    ensures ApiBase(root) == root + "/api"
  {
    NotApiSuffix(root);
    ApiBaseExtendsRoot(root);
  }

  /** A text whose last character is not `i` does not end with `/api`. */
  lemma NotApiSuffix(s: string)
    requires |s| > 0 && s[|s| - 1] != 'i'
    ensures !EndsWith(s, "/api")
  {
    if |s| >= 4 {
      assert s[|s| - 4..][3] == s[|s| - 1];
    }
  }

  /** The parameters a caller passes to `getAllocation`. */
  datatype AllocationParams = AllocationParams(window: string, aggregate: string, step: Option<string>,
                                               resolution: Option<string>)

  /** The `queryParams` object: each key maps to a value, which may be `undefined`. */
  type QueryParams = map<string, Option<string>>

  /** What the server sees of a parameter: axios leaves out keys whose value is
      `undefined`. */
  function Sent(qp: QueryParams, key: string): (p: Option<string>)
    ensures p.Some? <==> key in qp && qp[key].Some?
    ensures p.Some? ==> p == qp[key]
  {
    if key in qp then qp[key] else None
  }

  /** The query string a `queryParams` object produces, as the handlers read it. */
  function Delivered(qp: QueryParams): Query {
    Query(Sent(qp, "window"), Sent(qp, "resolution"), Sent(qp, "aggregate"), Sent(qp, "step"))
  }

  /** The query a call asks for: window and aggregate always, the resolution when
      given, and the step only when it is truthy. */
  function Requested(params: AllocationParams): Query {
    Query(Some(params.window), params.resolution, Some(params.aggregate),
          if Truthy(params.step) then params.step else None)
  }

  /** `getAllocation`'s construction of `queryParams`, before the request. */
  method BuildQueryParams(params: AllocationParams) returns (qp: QueryParams)
    ensures "window" in qp && qp["window"] == Some(params.window)
    ensures "aggregate" in qp && qp["aggregate"] == Some(params.aggregate)
    ensures "resolution" in qp && qp["resolution"] == params.resolution
    ensures "step" in qp <==> Truthy(params.step)
    ensures qp.Keys <= {"window", "aggregate", "resolution", "step"}
    ensures Delivered(qp) == Requested(params)
  {
    qp := map["window" := Some(params.window), "aggregate" := Some(params.aggregate),
              "resolution" := params.resolution];
    if Truthy(params.step) {
      qp := qp["step" := params.step];
    }
  }

  /** The client never sends an empty step, so both deployments read the same step
      from it; with a non-empty window and aggregate they derive the same request. */
  lemma DeploymentsAgreeOnClientQueries(params: AllocationParams)
    ensures Requested(params).step != Some("")
    ensures AllocationRequest(LocalServer, Requested(params)).step ==
            AllocationRequest(Serverless, Requested(params)).step
    ensures params.window != "" && params.aggregate != "" ==>
      AllocationRequest(LocalServer, Requested(params)) == AllocationRequest(Serverless, Requested(params))
  {
  }

  /** A call without a step gets the one-day step on both deployments. */
  lemma MissingStepMeansOneDay(v: Variant, params: AllocationParams)
    requires !Truthy(params.step)
    ensures AllocationRequest(v, Requested(params)).step == "86400"
  {
  }
}
