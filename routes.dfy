/** The request handlers around the two pipelines: `/api/metrics` with its mock
    fallback (backend/src/index.ts:299-314; api/index.ts:198-202) and
    `/api/cost-allocation` with its parameter defaults (backend/src/index.ts:316-330;
    api/index.ts:204-209). */
module Routes {
  import opened Wrappers
  import opened Deployment
  import opened Window
  import opened Metrics
  import opened Costs
  import opened History

  /** `req.query` of a cost-allocation request: each parameter absent (`undefined`)
      or present as text, possibly empty. */
  datatype Query = Query(window: Option<string>, resolution: Option<string>, aggregate: Option<string>, step: Option<string>)

  /** `req.query.p as string || d`: absent and empty both fall back to `d`. */
  function OrDefault(p: Option<string>, d: string): (r: string)
    ensures r == d || (p.Some? && r == p.value)
    ensures r == d <==> p.None? || p.value == "" || p.value == d
  {
    if p.Some? && p.value != "" then p.value else d
  }

  /** A JavaScript default parameter: only an absent argument falls back to `d`. */
  function DefaultParam(p: Option<string>, d: string): (r: string)
    ensures p.Some? ==> r == p.value
    ensures p.None? ==> r == d
  {
    match p
    case None => d
    case Some(s) => s
  }

  /** The pipeline arguments each handler derives from the query string. */
  function AllocationRequest(v: Variant, q: Query): (r: Request)
    ensures r.accumulate <==> q.resolution == Some("Entire window")
    ensures v == LocalServer ==>
      && r.window == OrDefault(q.window, "7d")
      && r.aggregate == OrDefault(q.aggregate, "namespace")
      && r.step == OrDefault(q.step, "86400")
    ensures v == Serverless ==>
      && r.window == DefaultParam(q.window, "7d")
      && r.aggregate == DefaultParam(q.aggregate, "namespace")
      && r.step == DefaultParam(q.step, "86400")
  {
    match v
    case LocalServer =>
      var resolution := OrDefault(q.resolution, "Daily");
      Request(OrDefault(q.window, "7d"), resolution == "Entire window",
              OrDefault(q.aggregate, "namespace"), OrDefault(q.step, "86400"))
    case Serverless =>
      Request(DefaultParam(q.window, "7d"), q.resolution == Some("Entire window"),
              DefaultParam(q.aggregate, "namespace"), DefaultParam(q.step, "86400"))
  }

  /** A query without parameters asks both deployments for the same thing: daily
      rows of the last week, by namespace, one-day step. */
  lemma BareQueryDefaults(v: Variant)
    ensures AllocationRequest(v, Query(None, None, None, None)) == Request("7d", false, "namespace", "86400")
  {
  }

  /** An empty parameter is where the deployments part: the local server replaces
      it by the default, the serverless function passes it through. */
  lemma EmptyParameterDiffers(q: Query)
    requires q.window == Some("") && q.step == Some("")
    ensures AllocationRequest(LocalServer, q).window == "7d"
    ensures AllocationRequest(LocalServer, q).step == "86400"
    ensures AllocationRequest(Serverless, q).window == ""
    ensures !StepUsable(AllocationRequest(Serverless, q))
  {
  }

  /** Prometheus is asked with a usable step exactly when the step is absent (or,
      on the local server, empty), or `parseInt` reads it as a positive number. */
  lemma StepUsableIff(v: Variant, q: Query)
    ensures StepUsable(AllocationRequest(v, q)) <==>
      || q.step.None?
      || (v == LocalServer && q.step == Some(""))
      || (q.step.Some? && ParseInt(q.step.value).Some? && ParseInt(q.step.value).value > 0)
  {
    DefaultStepParses();
  }

  /** The rows `/api/cost-allocation` answers with. */
  function CostAllocation(v: Variant, configured: bool, q: Query, outcome: QueryOutcome, today: int,
                          draws: seq<seq<real>>): (rows: seq<DailyCost>)
    requires outcome.Answered? ==> Supplied(AllocationRequest(v, q), outcome.cpu, today, draws)
    ensures v == Serverless && !configured ==> rows == []
    ensures !StepUsable(AllocationRequest(v, q)) ==> rows == []
    ensures outcome.QueryFailed? ==> rows == []
  {
    History.History(v, configured, AllocationRequest(v, q), outcome, today, draws)
  }

  /** The fallback list of `/api/metrics`. */
  const MockCarbonData: seq<MetricData> := [
    MetricData("default", 120.0, 45.0, 12.50),
    MetricData("kube-system", 50.0, 18.0, 5.20),
    MetricData("analytics", 350.0, 130.0, 45.00)
  ]

  /** The `/api/metrics` body: the local server also says where the data came from
      (its `timestamp` is left out). */
  datatype MetricsBody = MetricsBody(data: seq<MetricData>, source: Option<string>)

  /** `if (metrics.length === 0) metrics = mockCarbonData`. The local server's
      `metrics === mockCarbonData` is true exactly when the fallback was taken, since
      a fetched list is always a fresh array. */
  function MetricsRoute(v: Variant, fetched: seq<MetricData>): (b: MetricsBody)
    ensures |b.data| > 0
    ensures fetched != [] ==> b.data == fetched
    ensures fetched == [] ==> b.data == MockCarbonData
    ensures v == LocalServer ==> (b.source == Some("Mock") <==> fetched == [])
    ensures v == LocalServer ==> (b.source == Some("Prometheus") <==> fetched != [])
    ensures v == Serverless ==> b.source.None?
  {
    var mock := |fetched| == 0;
    var data := if mock then MockCarbonData else fetched;
    match v
    case LocalServer => MetricsBody(data, Some(if mock then "Mock" else "Prometheus"))
    case Serverless => MetricsBody(data, None)
  }

  /** Without `PROMETHEUS_URL` the serverless `/api/metrics` always serves the mock
      list. */
  lemma UnconfiguredServesMock(outcome: MetricsOutcome)
    ensures MetricsRoute(Serverless, Metrics.Metrics(Serverless, false, outcome)).data == MockCarbonData
  {
  }

  /** The mock list replaces the pipeline's answer exactly when the pipeline
      returned early or had nothing to report; otherwise its rows are served as
      they are. */
  lemma MockWhenNothingReported(v: Variant, configured: bool, outcome: MetricsOutcome)
    ensures var b := MetricsRoute(v, Metrics.Metrics(v, configured, outcome));
      if || !Metrics.Proceeds(v, configured, outcome)
         || (&& outcome.cpu == []
             && Capacity(outcome.capacity) <= 0.0
             && (v == LocalServer ==> outcome.mem == []))
      then b.data == MockCarbonData
      else b.data == Metrics.Metrics(v, configured, outcome) && |b.data| > 0
  {
    MetricsEmptyIff(v, configured, outcome);
  }
}
