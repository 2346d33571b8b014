/** `fetchPrometheusHistory` end to end (backend/src/index.ts:37-201;
    api/index.ts:18-138): resolve the window, materialise the real rows, backfill
    the missing days, stably sort by date, and optionally collapse to one row per
    group key. The two range queries are an input, answered or failed. */
module History {
  import opened Records
  import opened Sorting
  import opened Money
  import opened Costs
  import opened Window
  import opened Series
  import opened Materialise
  import opened Backfill
  import opened Deployment
  import opened Accumulate

  /** The query-string arguments of the pipeline. */
  datatype Request = Request(window: string, accumulate: bool, aggregate: string, step: string)

  /** What the two `query_range` calls produced: a thrown error, or the CPU and
      memory results. */
  datatype QueryOutcome = QueryFailed | Answered(cpu: seq<PromSeries>, mem: seq<PromSeries>)

  /** `new Date(ts * 1000).toISOString()` throws a RangeError beyond 8.64e15 ms
      either side of the epoch. */
  predicate Representable(ts: int) {
    -8_640_000_000_000 <= ts <= 8_640_000_000_000
  }

  predicate AllRepresentable(times: seq<int>) {
    forall i :: 0 <= i < |times| ==> Representable(times[i])
  }

  function ResolvedOf(q: Request): Resolved {
    ResolveWindow(q.window, q.step)
  }

  /** Prometheus answers a range query only for a positive step. `parseInt` gives
      NaN for a step without leading digits, which is sent as the text `NaN`; that
      and a zero or negative step make both requests fail, and the `catch` returns
      `[]`. */
  predicate StepUsable(q: Request) {
    var step := ResolvedOf(q).step;
    step.Some? && step.value > 0
  }

  /** The keys the backfill uses. */
  function BackfillKeys(q: Request, cpu: seq<PromSeries>): seq<string> {
    ActiveKeys(ObservedKeys(cpu, q.aggregate))
  }

  /** One variance per active key for every day of the window. */
  predicate Supplied(q: Request, cpu: seq<PromSeries>, today: int, draws: seq<seq<real>>) {
    Drawn(WindowDays(today, ResolvedOf(q).requiredDays), BackfillKeys(q, cpu), draws)
  }

  /** The materialised real rows. */
  function RealPart(q: Request, cpu: seq<PromSeries>, mem: seq<PromSeries>): seq<DailyCost>
    requires StepUsable(q)
  {
    RealRows(Observed(cpu, mem, q.aggregate, ResolvedOf(q).step.value), SortedTimes(ObservedTimes(cpu)), ObservedKeys(cpu, q.aggregate))
  }

  /** The synthetic rows appended after the real ones. */
  function SyntheticPart(q: Request, cpu: seq<PromSeries>, mem: seq<PromSeries>, today: int, draws: seq<seq<real>>): seq<DailyCost>
    requires StepUsable(q) && Supplied(q, cpu, today, draws)
  {
    Synthetic(WindowDays(today, ResolvedOf(q).requiredDays), q.window, DatesOf(RealPart(q, cpu, mem)), BackfillKeys(q, cpu), draws)
  }

  /** `dailyCosts` just before the sort. */
  function Unsorted(q: Request, cpu: seq<PromSeries>, mem: seq<PromSeries>, today: int, draws: seq<seq<real>>): seq<DailyCost>
    requires StepUsable(q) && Supplied(q, cpu, today, draws)
  {
    RealPart(q, cpu, mem) + SyntheticPart(q, cpu, mem, today, draws)
  }

  /** `(a, b) => a.date.localeCompare(b.date)` is a total preorder. */
  lemma RowDateLeTotalPreorder()
    ensures TotalPreorder(RowDateLe)
  {
  }

  /** `dailyCosts` after the in-place sort. */
  function Daily(q: Request, cpu: seq<PromSeries>, mem: seq<PromSeries>, today: int, draws: seq<seq<real>>): seq<DailyCost>
    requires StepUsable(q) && Supplied(q, cpu, today, draws)
  {
    RowDateLeTotalPreorder();
    SortBy(Unsorted(q, cpu, mem, today, draws), RowDateLe)
  }

  /** Whether the pipeline gets past every early return and every throw. */
  predicate Proceeds(v: Variant, configured: bool, outcome: QueryOutcome) {
    && !(v == Serverless && !configured)
    && outcome.Answered?
    && AllRepresentable(SortedTimes(ObservedTimes(outcome.cpu)))
  }

  /** The rows `fetchPrometheusHistory` resolves to. `configured` is whether
      `PROMETHEUS_URL` is set; the local server always has one. */
  function History(v: Variant, configured: bool, q: Request, outcome: QueryOutcome, today: int,
                   draws: seq<seq<real>>): seq<DailyCost>
    requires outcome.Answered? ==> Supplied(q, outcome.cpu, today, draws)
  {
    if !StepUsable(q) || !Proceeds(v, configured, outcome) then []
    else
      var daily := Daily(q, outcome.cpu, outcome.mem, today, draws);
      if q.accumulate then Accumulated(v, q.window, daily) else daily
  }

  /** The pipeline as the handler runs it, stage by stage. */
  method FetchHistory(v: Variant, configured: bool, q: Request, outcome: QueryOutcome, today: int,
                      draws: seq<seq<real>>) returns (out: seq<DailyCost>)
    requires outcome.Answered? ==> Supplied(q, outcome.cpu, today, draws)
    ensures out == History(v, configured, q, outcome, today, draws)
    ensures v == Serverless && !configured ==> out == []
    ensures !StepUsable(q) ==> out == []
    ensures outcome.QueryFailed? ==> out == []
    ensures outcome.Answered? && !AllRepresentable(SortedTimes(ObservedTimes(outcome.cpu))) ==> out == []
  {
    if v == Serverless && !configured {
      return [];
    }
    var w := ResolveWindow(q.window, q.step);
    if w.step.None? || w.step.value <= 0 {
      return [];
    }
    if outcome.QueryFailed? {
      return [];
    }
    var cpu, mem := outcome.cpu, outcome.mem;
    var keys, times := CollectKeysAndTimes(cpu, q.aggregate);
    var ordered := SortedTimes(times);
    if !AllRepresentable(ordered) {
      return [];
    }
    var rows := Materialise.Materialise(Observed(cpu, mem, q.aggregate, w.step.value), ordered, keys);
    rows := Backfill.Backfill(rows, q.window, w.requiredDays, today, ActiveKeys(keys), draws);
    RowDateLeTotalPreorder();
    rows := SortBy(rows, RowDateLe);
    if q.accumulate {
      out := Accumulate.Accumulate(v, q.window, rows);
    } else {
      out := rows;
    }
  }

  /** The daily list is sorted by date, is a permutation of the real rows followed
      by the synthetic rows, and keeps the relative order of rows of equal date. */
  lemma DailyOrdered(v: Variant, configured: bool, q: Request, outcome: QueryOutcome, today: int,
                     draws: seq<seq<real>>)
    requires StepUsable(q) && !q.accumulate
    requires Proceeds(v, configured, outcome) && Supplied(q, outcome.cpu, today, draws)
    ensures var r := History(v, configured, q, outcome, today, draws);
      var before := Unsorted(q, outcome.cpu, outcome.mem, today, draws);
      && SortedBy(r, RowDateLe)
      && multiset(r) == multiset(before)
      && forall z :: TiedWith(r, RowDateLe, z) == TiedWith(before, RowDateLe, z)
  {
    RowDateLeTotalPreorder();
    var before := Unsorted(q, outcome.cpu, outcome.mem, today, draws);
    forall z ensures TiedWith(SortBy(before, RowDateLe), RowDateLe, z) == TiedWith(before, RowDateLe, z) {
      SortStable(before, RowDateLe, z);
    }
  }

  /** Membership in the daily list is membership in the rows before the sort. */
  lemma InDaily(q: Request, cpu: seq<PromSeries>, mem: seq<PromSeries>, today: int, draws: seq<seq<real>>, r: DailyCost)
    requires StepUsable(q) && Supplied(q, cpu, today, draws)
    ensures r in Daily(q, cpu, mem, today, draws) <==> r in RealPart(q, cpu, mem) || r in SyntheticPart(q, cpu, mem, today, draws)
  {
    RowDateLeTotalPreorder();
    var before := Unsorted(q, cpu, mem, today, draws);
    assert multiset(Daily(q, cpu, mem, today, draws)) == multiset(before);
    assert r in Daily(q, cpu, mem, today, draws) <==> r in multiset(before);
  }

  /** Outside `24h`, every day of the window has at least one row once the daily
      list is returned, whatever the series held. */
  lemma EveryWindowDayCovered(v: Variant, configured: bool, q: Request, outcome: QueryOutcome, today: int,
                              draws: seq<seq<real>>, day: int)
    requires StepUsable(q) && !q.accumulate && q.window != "24h"
    requires Proceeds(v, configured, outcome) && Supplied(q, outcome.cpu, today, draws)
    requires day in WindowDays(today, ResolvedOf(q).requiredDays)
    ensures exists r :: r in History(v, configured, q, outcome, today, draws) && r.date == Day(day)
  {
    var cpu, mem := outcome.cpu, outcome.mem;
    var observed := RealPart(q, cpu, mem);
    if Day(day) in DatesOf(observed) {
      var r :| r in observed && r.date == Day(day);
      InDaily(q, cpu, mem, today, draws, r);
    } else {
      var keys := BackfillKeys(q, cpu);
      SyntheticCovers(WindowDays(today, ResolvedOf(q).requiredDays), q.window, DatesOf(observed), keys, draws, day, keys[0]);
      var r :| r in SyntheticPart(q, cpu, mem, today, draws) && r.date == Day(day) && r.namespace == keys[0];
      InDaily(q, cpu, mem, today, draws, r);
    }
  }

  /** Coverage is decided per date, not per key: on a day that has any real row, a
      key without a real row of its own that day gets no row at all. */
  lemma CoverageIsPerDate(v: Variant, configured: bool, q: Request, outcome: QueryOutcome, today: int,
                          draws: seq<seq<real>>, day: int, k: string)
    requires StepUsable(q) && !q.accumulate
    requires Proceeds(v, configured, outcome) && Supplied(q, outcome.cpu, today, draws)
    requires exists r :: r in RealPart(q, outcome.cpu, outcome.mem) && r.date == Day(day)
    requires forall r :: r in RealPart(q, outcome.cpu, outcome.mem) ==> !(r.date == Day(day) && r.namespace == k)
    ensures forall r :: r in History(v, configured, q, outcome, today, draws) ==> !(r.date == Day(day) && r.namespace == k)
  {
    var cpu, mem := outcome.cpu, outcome.mem;
    var observed := RealPart(q, cpu, mem);
    forall r | r in History(v, configured, q, outcome, today, draws)
      ensures !(r.date == Day(day) && r.namespace == k)
    {
      InDaily(q, cpu, mem, today, draws, r);
      if r in SyntheticPart(q, cpu, mem, today, draws) {
        SyntheticSound(WindowDays(today, ResolvedOf(q).requiredDays), q.window, DatesOf(observed), BackfillKeys(q, cpu), draws, r);
      }
    }
  }

  /** A `24h` window returns only real rows, reordered. */
  lemma HourlyWindowIsRealOnly(v: Variant, configured: bool, q: Request, outcome: QueryOutcome, today: int,
                               draws: seq<seq<real>>)
    requires StepUsable(q) && !q.accumulate && q.window == "24h"
    requires Proceeds(v, configured, outcome) && Supplied(q, outcome.cpu, today, draws)
    ensures multiset(History(v, configured, q, outcome, today, draws)) == multiset(RealPart(q, outcome.cpu, outcome.mem))
  {
    var cpu, mem := outcome.cpu, outcome.mem;
    NoBackfillFor24h(WindowDays(today, ResolvedOf(q).requiredDays), DatesOf(RealPart(q, cpu, mem)), BackfillKeys(q, cpu), draws);
    assert Unsorted(q, cpu, mem, today, draws) == RealPart(q, cpu, mem);
    RowDateLeTotalPreorder();
  }

  /** With no CPU series at all, a `7d` window yields 21 synthetic rows: each of the
      seven days up to today, once for each default key. */
  lemma NoSeriesWeek(v: Variant, configured: bool, q: Request, mem: seq<PromSeries>, today: int, draws: seq<seq<real>>)
    requires StepUsable(q) && !q.accumulate && q.window == "7d"
    requires Proceeds(v, configured, Answered([], mem)) && Supplied(q, [], today, draws)
    ensures var r := History(v, configured, q, Answered([], mem), today, draws);
      && |r| == 21
      && forall d :: d in r ==> d.namespace in DefaultKeys && d.date.Day? && today - 6 <= d.date.day <= today
  {
    var days := WindowDays(today, 7);
    var observed := RealPart(q, [], mem);
    assert SortedTimes(ObservedTimes([])) == [];
    assert observed == [];
    assert BackfillKeys(q, []) == DefaultKeys;
    assert DatesOf(observed) == {};
    SyntheticCountAllMissing(days, q.window, {}, DefaultKeys, draws);
    RowDateLeTotalPreorder();
    var r := History(v, configured, q, Answered([], mem), today, draws);
    forall d | d in r ensures d.namespace in DefaultKeys && d.date.Day? && today - 6 <= d.date.day <= today {
      InDaily(q, [], mem, today, draws, d);
      SyntheticSound(days, q.window, {}, DefaultKeys, draws, d);
    }
  }

  /** With no CPU series, the rows before the sort are the backfill of every day of
      the window for the default keys. */
  lemma NoSeriesUnsorted(q: Request, mem: seq<PromSeries>, today: int, draws: seq<seq<real>>)
    requires StepUsable(q) && Supplied(q, [], today, draws)
    ensures Unsorted(q, [], mem, today, draws)
      == Synthetic(WindowDays(today, ResolvedOf(q).requiredDays), q.window, {}, DefaultKeys, draws)
  {
    assert SortedTimes(ObservedTimes([])) == [];
    assert RealPart(q, [], mem) == [];
    assert BackfillKeys(q, []) == DefaultKeys;
    assert DatesOf([]) == {};
  }

  /** With no CPU series, the keys of the daily list are the default keys. */
  lemma NoSeriesDailyKeys(q: Request, mem: seq<PromSeries>, today: int, draws: seq<seq<real>>)
    requires StepUsable(q) && q.window != "24h" && Supplied(q, [], today, draws)
    ensures forall k :: k in KeysOf(Daily(q, [], mem, today, draws)) <==> k in DefaultKeys
  {
    var days := WindowDays(today, ResolvedOf(q).requiredDays);
    assert today == days[|days| - 1] && Missing(q.window, {}, today);
    var synth := Synthetic(days, q.window, {}, DefaultKeys, draws);
    NoSeriesUnsorted(q, mem, today, draws);
    assert SyntheticPart(q, [], mem, today, draws) == synth;
    var daily := Daily(q, [], mem, today, draws);
    forall k ensures k in KeysOf(daily) <==> k in DefaultKeys {
      if k in DefaultKeys {
        SyntheticCovers(days, q.window, {}, DefaultKeys, draws, today, k);
        var d :| d in synth && d.date == Day(today) && d.namespace == k;
        InDaily(q, [], mem, today, draws, d);
      }
      if k in KeysOf(daily) {
        var d :| d in daily && d.namespace == k;
        InDaily(q, [], mem, today, draws, d);
        SyntheticSound(days, q.window, {}, DefaultKeys, draws, d);
      }
    }
  }

  /** A list of distinct keys made of the default keys holds all three once. */
  lemma DefaultKeysOnce(ks: seq<string>)
    requires Distinct(ks) && forall k :: k in ks <==> k in DefaultKeys
    ensures |ks| == 3
  {
    assert Distinct(DefaultKeys);
    DistinctCard(ks);
    DistinctCard(DefaultKeys);
    assert (set x | x in ks) == (set x | x in DefaultKeys);
  }

  /** One row of the accumulated answer for a daily list whose key `i` has the sums
      of a fully backfilled week. */
  lemma WeekRow(daily: seq<DailyCost>, days: seq<int>, draws: seq<seq<real>>, i: nat)
    requires |days| == 7 && Drawn(days, DefaultKeys, draws) && InBand(draws)
    requires i < |KeysOf(daily)| && KeysOf(daily)[i] in DefaultKeys
    requires var k := KeysOf(daily)[i];
      SumRows(RowsOf(daily, k)) == SumRows(RowsOf(Synthetic(days, "7d", {}, DefaultKeys, draws), k))
    ensures var r := Accumulated(LocalServer, "7d", daily);
      && |r| == |KeysOf(daily)| && r[i].namespace == KeysOf(daily)[i]
      && r[i].date == Total("7d") && r[i].gpuCost == 0.0 && r[i].pvCost == 0.0
      && 7.0 * BaseCost(r[i].namespace) * 0.8 <= r[i].totalCost <= 7.0 * BaseCost(r[i].namespace) * 1.2
  {
    var k := KeysOf(daily)[i];
    AccumulatedLocalRow("7d", daily, i);
    WeekKeySums(days, draws, k);
    WeekTotalRounded(k, SumRows(RowsOf(daily, k)));
  }

  /** Accumulating a daily list whose keys are the default keys and whose per-key
      sums are those of a fully backfilled week. */
  lemma WeekAccumulated(daily: seq<DailyCost>, days: seq<int>, draws: seq<seq<real>>)
    requires |days| == 7 && Drawn(days, DefaultKeys, draws) && InBand(draws)
    requires forall k :: k in KeysOf(daily) <==> k in DefaultKeys
    requires forall k :: SumRows(RowsOf(daily, k)) == SumRows(RowsOf(Synthetic(days, "7d", {}, DefaultKeys, draws), k))
    ensures var r := Accumulated(LocalServer, "7d", daily);
      && |r| == 3
      && (forall k :: k in DefaultKeys <==> exists i :: 0 <= i < 3 && r[i].namespace == k)
      && forall i :: 0 <= i < 3 ==>
           && r[i].date == Total("7d") && r[i].gpuCost == 0.0 && r[i].pvCost == 0.0
           && 7.0 * BaseCost(r[i].namespace) * 0.8 <= r[i].totalCost <= 7.0 * BaseCost(r[i].namespace) * 1.2
  {
    var r := Accumulated(LocalServer, "7d", daily);
    var keys := KeysOf(daily);
    DefaultKeysOnce(keys);
    WeekRow(daily, days, draws, 0);
    assert |r| == 3;
    forall i | 0 <= i < 3
      ensures && r[i].namespace == keys[i] && r[i].date == Total("7d") && r[i].gpuCost == 0.0 && r[i].pvCost == 0.0
              && 7.0 * BaseCost(r[i].namespace) * 0.8 <= r[i].totalCost <= 7.0 * BaseCost(r[i].namespace) * 1.2
    {
      WeekRow(daily, days, draws, i);
    }
    forall k ensures k in DefaultKeys <==> exists i :: 0 <= i < 3 && r[i].namespace == k {
      if k in DefaultKeys {
        var i :| 0 <= i < |keys| && keys[i] == k;
        assert r[i].namespace == k;
      }
    }
  }

  /** On the local server, the `Entire window` answer for a `7d` window with no CPU
      series has one row per default key: the sums of its seven synthetic days, with
      nothing for GPU and storage and a total between 0.8 and 1.2 times seven days of
      the key's base cost. */
  lemma NoSeriesWeekEntireWindow(configured: bool, q: Request, mem: seq<PromSeries>, today: int, draws: seq<seq<real>>)
    requires StepUsable(q) && q.accumulate && q.window == "7d"
    requires Proceeds(LocalServer, configured, Answered([], mem)) && Supplied(q, [], today, draws) && InBand(draws)
    ensures var r := History(LocalServer, configured, q, Answered([], mem), today, draws);
      && |r| == 3
      && (forall k :: k in DefaultKeys <==> exists i :: 0 <= i < 3 && r[i].namespace == k)
      && forall i :: 0 <= i < 3 ==>
           && r[i].date == Total("7d") && r[i].gpuCost == 0.0 && r[i].pvCost == 0.0
           && 7.0 * BaseCost(r[i].namespace) * 0.8 <= r[i].totalCost <= 7.0 * BaseCost(r[i].namespace) * 1.2
  {
    var outcome := Answered([], mem);
    var q' := q.(accumulate := false);
    assert ResolvedOf(q') == ResolvedOf(q);
    var days := WindowDays(today, 7);
    var daily := History(LocalServer, configured, q', outcome, today, draws);
    assert daily == Daily(q', [], mem, today, draws);
    NoSeriesDailyKeys(q', mem, today, draws);
    NoSeriesUnsorted(q, mem, today, draws);
    var synth := Synthetic(days, "7d", {}, DefaultKeys, draws);
    forall k ensures SumRows(RowsOf(daily, k)) == SumRows(RowsOf(synth, k)) {
      EntireWindowSumsDailyRows(LocalServer, configured, q, outcome, today, draws, k);
    }
    WeekAccumulated(daily, days, draws);
  }

  /** The `Entire window` answer is the accumulate step applied to the daily answer,
      and each key's sums do not depend on how the sort ordered the rows. */
  lemma EntireWindowSumsDailyRows(v: Variant, configured: bool, q: Request, outcome: QueryOutcome, today: int,
                                  draws: seq<seq<real>>, k: string)
    requires StepUsable(q) && q.accumulate
    requires Proceeds(v, configured, outcome) && Supplied(q, outcome.cpu, today, draws)
    ensures var daily := History(v, configured, q.(accumulate := false), outcome, today, draws);
      && History(v, configured, q, outcome, today, draws) == Accumulated(v, q.window, daily)
      && SumRows(RowsOf(daily, k)) == SumRows(RowsOf(Unsorted(q, outcome.cpu, outcome.mem, today, draws), k))
  {
    var q' := q.(accumulate := false);
    var cpu, mem := outcome.cpu, outcome.mem;
    assert ResolvedOf(q') == ResolvedOf(q);
    assert Daily(q', cpu, mem, today, draws) == Daily(q, cpu, mem, today, draws);
    RowDateLeTotalPreorder();
    var before := Unsorted(q, cpu, mem, today, draws);
    RowsOfPerm(Daily(q, cpu, mem, today, draws), before, k);
    SumRowsPerm(RowsOf(Daily(q, cpu, mem, today, draws), k), RowsOf(before, k));
  }
}
