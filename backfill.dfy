/** The backfill stage: synthetic rows for the calendar days of the window that have
    no real row at all (backend/src/index.ts:119-156; api/index.ts:83-111). */
module Backfill {
  import opened Money
  import opened Costs
  import opened Records

  /** The group keys used when no CPU series carried one. */
  const DefaultKeys: seq<string> := ["kube-system", "default", "prometheus"]

  /** `activeNamespaces`: the observed keys, or the defaults when none were seen. */
  function ActiveKeys(observed: seq<string>): (ks: seq<string>)
    ensures |ks| > 0
    ensures |observed| > 0 ==> ks == observed
  {
    if |observed| > 0 then observed else DefaultKeys
  }

  function BaseCost(ns: string): real {
    if ns == "kube-system" then 0.05 else 0.02
  }

  /** A synthetic row for `day` and key `ns`, given the draw `v` of
      `0.8 + Math.random() * 0.4`. */
  function SyntheticRow(day: int, ns: string, v: real): DailyCost {
    var cpu := Round4(BaseCost(ns) * 0.7 * v);
    var ram := Round4(BaseCost(ns) * 0.3 * v);
    DailyCost(Day(day), ns, cpu, 0.0, ram, 0.0, Round4(cpu + ram))
  }

  /** The rows of one missing day, one per key, drawing `vs` in order. */
  function RowsForDay(day: int, keys: seq<string>, vs: seq<real>): seq<DailyCost>
    requires |vs| >= |keys|
  {
    if keys == [] then []
    else RowsForDay(day, keys[..|keys| - 1], vs) + [SyntheticRow(day, keys[|keys| - 1], vs[|keys| - 1])]
  }

  /** The loop's date keys `today - i` for `i = requiredDays - 1` down to `0`. */
  function WindowDays(today: int, requiredDays: nat): (days: seq<int>)
    ensures |days| == requiredDays
    ensures forall k :: 0 <= k < requiredDays ==> days[k] == today - requiredDays + 1 + k
  {
    seq(requiredDays, k => today - requiredDays + 1 + k)
  }

  /** `existingDates`: the dates of the rows present before the loop starts. */
  function DatesOf(rows: seq<DailyCost>): (ds: set<DateKey>)
    ensures forall d :: d in ds <==> exists r :: r in rows && r.date == d
  {
    set r | r in rows :: r.date
  }

  /** `!existingDates.has(dateKey) && windowStr !== '24h'` */
  predicate Missing(windowStr: string, existing: set<DateKey>, day: int) {
    Day(day) !in existing && windowStr != "24h"
  }

  /** Enough draws: one variance per key for each day of `days`. */
  predicate Drawn(days: seq<int>, keys: seq<string>, draws: seq<seq<real>>) {
    |draws| >= |days| && forall i :: 0 <= i < |days| ==> |draws[i]| >= |keys|
  }

  /** The synthetic rows for `days`; on the `i`-th day the `j`-th key uses the
      variance `draws[i][j]`. */
  function Synthetic(days: seq<int>, windowStr: string, existing: set<DateKey>, keys: seq<string>,
                     draws: seq<seq<real>>): seq<DailyCost>
    requires Drawn(days, keys, draws)
  {
    if days == [] then []
    else
      (if Missing(windowStr, existing, days[0]) then RowsForDay(days[0], keys, draws[0]) else [])
      + Synthetic(days[1..], windowStr, existing, keys, draws[1..])
  }

  /** The inner `activeNamespaces.forEach` of one missing day. */
  method AppendDay(out: seq<DailyCost>, dateKey: int, keys: seq<string>, vs: seq<real>) returns (out': seq<DailyCost>)
    requires |vs| >= |keys|
    ensures out' == out + RowsForDay(dateKey, keys, vs)
  {
    out' := out;
    var j := 0;
    while j < |keys|
      invariant 0 <= j <= |keys|
      invariant out' == out + RowsForDay(dateKey, keys[..j], vs)
    {
      RowsForDayStep(dateKey, keys, vs, j);
      out' := out' + [SyntheticRow(dateKey, keys[j], vs[j])];
      j := j + 1;
    }
    assert keys[..j] == keys;
  }

  /** The backfill loop appending to `dailyCosts`. */
  method Backfill(rows: seq<DailyCost>, windowStr: string, requiredDays: nat, today: int,
                  keys: seq<string>, draws: seq<seq<real>>) returns (out: seq<DailyCost>)
    requires Drawn(WindowDays(today, requiredDays), keys, draws)
    ensures out == rows + Synthetic(WindowDays(today, requiredDays), windowStr, DatesOf(rows), keys, draws)
  {
    var existing := DatesOf(rows);
    ghost var days := WindowDays(today, requiredDays);
    out := rows;
    var i := requiredDays - 1;
    while i >= 0
      invariant -1 <= i <= requiredDays - 1
      invariant out + Synthetic(days[requiredDays - 1 - i..], windowStr, existing, keys, draws[requiredDays - 1 - i..])
             == rows + Synthetic(days, windowStr, existing, keys, draws)
    {
      var k := requiredDays - 1 - i;
      var dateKey := today - i;
      ghost var before := out;
      if Day(dateKey) !in existing && windowStr != "24h" {
        out := AppendDay(out, dateKey, keys, draws[k]);
      }
      BackfillStep(rows, before, out, days, windowStr, existing, keys, draws, k);
      i := i - 1;
    }
  }

  /** One more key appends its synthetic row. */
  lemma RowsForDayStep(day: int, keys: seq<string>, vs: seq<real>, j: nat)
    requires |vs| >= |keys| && j < |keys|
    ensures RowsForDay(day, keys[..j + 1], vs) == RowsForDay(day, keys[..j], vs) + [SyntheticRow(day, keys[j], vs[j])]
  {
    var front := keys[..j + 1];
    assert front[..j] == keys[..j] && front[j] == keys[j];
  }

  /** The synthetic rows from the `k`-th day on are that day's rows, if it is
      missing, and then those from the next day on. */
  lemma SyntheticStep(days: seq<int>, windowStr: string, existing: set<DateKey>, keys: seq<string>,
                      draws: seq<seq<real>>, k: nat)
    requires Drawn(days, keys, draws) && k < |days|
    ensures Drawn(days[k..], keys, draws[k..]) && Drawn(days[k + 1..], keys, draws[k + 1..])
    ensures Synthetic(days[k..], windowStr, existing, keys, draws[k..])
      == (if Missing(windowStr, existing, days[k]) then RowsForDay(days[k], keys, draws[k]) else [])
         + Synthetic(days[k + 1..], windowStr, existing, keys, draws[k + 1..])
  {
    assert days[k..][0] == days[k] && days[k..][1..] == days[k + 1..];
    assert draws[k..][0] == draws[k] && draws[k..][1..] == draws[k + 1..];
    assert forall i :: 0 <= i < |days[k..]| ==> draws[k..][i] == draws[k + i];
  }

  /** The backfill loop's invariant survives one day. */
  lemma BackfillStep(rows: seq<DailyCost>, before: seq<DailyCost>, after: seq<DailyCost>, days: seq<int>,
                     windowStr: string, existing: set<DateKey>, keys: seq<string>, draws: seq<seq<real>>, k: nat)
    requires Drawn(days, keys, draws) && k < |days|
    requires before + Synthetic(days[k..], windowStr, existing, keys, draws[k..])
          == rows + Synthetic(days, windowStr, existing, keys, draws)
    requires after == before + (if Missing(windowStr, existing, days[k]) then RowsForDay(days[k], keys, draws[k]) else [])
    ensures Drawn(days[k + 1..], keys, draws[k + 1..])
    ensures after + Synthetic(days[k + 1..], windowStr, existing, keys, draws[k + 1..])
         == rows + Synthetic(days, windowStr, existing, keys, draws)
  {
    SyntheticStep(days, windowStr, existing, keys, draws, k);
  }

  /** No synthetic row is ever added for a `24h` window. */
  lemma {:induction false} NoBackfillFor24h(days: seq<int>, existing: set<DateKey>, keys: seq<string>, draws: seq<seq<real>>)
    requires Drawn(days, keys, draws)
    ensures Synthetic(days, "24h", existing, keys, draws) == []
  {
    if days != [] {
      NoBackfillFor24h(days[1..], existing, keys, draws[1..]);
    }
  }

  lemma {:induction false} RowsForDaySound(day: int, keys: seq<string>, vs: seq<real>, r: DailyCost)
    requires |vs| >= |keys| && r in RowsForDay(day, keys, vs)
    ensures r.date == Day(day) && r.namespace in keys
    ensures exists i :: 0 <= i < |keys| && r == SyntheticRow(day, keys[i], vs[i])
  {
    var init := keys[..|keys| - 1];
    if r in RowsForDay(day, init, vs) {
      RowsForDaySound(day, init, vs, r);
      var i :| 0 <= i < |init| && r == SyntheticRow(day, init[i], vs[i]);
      assert keys[i] == init[i];
    } else {
      assert r == SyntheticRow(day, keys[|keys| - 1], vs[|keys| - 1]);
    }
  }

  lemma {:induction false} RowsForDayComplete(day: int, keys: seq<string>, vs: seq<real>, k: string)
    requires |vs| >= |keys| && k in keys
    ensures exists r :: r in RowsForDay(day, keys, vs) && r.date == Day(day) && r.namespace == k
  {
    var n := |keys|;
    if k == keys[n - 1] {
      var r := SyntheticRow(day, keys[n - 1], vs[n - 1]);
      assert r in RowsForDay(day, keys, vs);
    } else {
      assert keys == keys[..n - 1] + [keys[n - 1]];
      RowsForDayComplete(day, keys[..n - 1], vs, k);
    }
  }

  lemma RowsForDayLength(day: int, keys: seq<string>, vs: seq<real>)
    requires |vs| >= |keys|
    ensures |RowsForDay(day, keys, vs)| == |keys|
  {
  }

  /** Synthetic rows only go to missing days, one per active key, and each is the
      synthetic row of its key for a variance that was drawn. */
  lemma {:induction false} SyntheticSound(days: seq<int>, windowStr: string, existing: set<DateKey>,
                                          keys: seq<string>, draws: seq<seq<real>>, r: DailyCost)
    requires Drawn(days, keys, draws)
    requires r in Synthetic(days, windowStr, existing, keys, draws)
    ensures r.date.Day? && r.date.day in days && Missing(windowStr, existing, r.date.day)
    ensures r.namespace in keys
    ensures exists i, j :: 0 <= i < |days| && 0 <= j < |keys| && r == SyntheticRow(days[i], keys[j], draws[i][j])
  {
    var head := if Missing(windowStr, existing, days[0]) then RowsForDay(days[0], keys, draws[0]) else [];
    if r in head {
      RowsForDaySound(days[0], keys, draws[0], r);
      var j :| 0 <= j < |keys| && r == SyntheticRow(days[0], keys[j], draws[0][j]);
    } else {
      SyntheticSound(days[1..], windowStr, existing, keys, draws[1..], r);
      var i, j :| 0 <= i < |days| - 1 && 0 <= j < |keys| && r == SyntheticRow(days[1..][i], keys[j], draws[1..][i][j]);
      assert r == SyntheticRow(days[i + 1], keys[j], draws[i + 1][j]);
    }
  }

  /** Every missing day gets a row for every active key. */
  lemma {:induction false} SyntheticCovers(days: seq<int>, windowStr: string, existing: set<DateKey>,
                                           keys: seq<string>, draws: seq<seq<real>>, day: int, k: string)
    requires Drawn(days, keys, draws)
    requires day in days && Missing(windowStr, existing, day) && k in keys
    ensures exists r :: r in Synthetic(days, windowStr, existing, keys, draws) && r.date == Day(day) && r.namespace == k
  {
    if day == days[0] {
      RowsForDayComplete(day, keys, draws[0], k);
    } else {
      SyntheticCovers(days[1..], windowStr, existing, keys, draws[1..], day, k);
    }
  }

  /** With every day missing, each day contributes exactly one row per key. */
  lemma {:induction false} SyntheticCountAllMissing(days: seq<int>, windowStr: string, existing: set<DateKey>,
                                                    keys: seq<string>, draws: seq<seq<real>>)
    requires Drawn(days, keys, draws)
    requires forall d :: d in days ==> Missing(windowStr, existing, d)
    ensures |Synthetic(days, windowStr, existing, keys, draws)| == |days| * |keys|
  {
    if days != [] {
      var rest := Synthetic(days[1..], windowStr, existing, keys, draws[1..]);
      assert Missing(windowStr, existing, days[0]);
      assert Synthetic(days, windowStr, existing, keys, draws) == RowsForDay(days[0], keys, draws[0]) + rest;
      RowsForDayLength(days[0], keys, draws[0]);
      SyntheticCountAllMissing(days[1..], windowStr, existing, keys, draws[1..]);
      MulStep(|days| - 1, |keys|);
    }
  }

  lemma MulStep(n: nat, m: nat)
    ensures (n + 1) * m == m + n * m
  {
  }

  /** `Round4(f * v)` for a draw `v` in `[0.8, 1.2)` lies between the rounded ends
      of the band. */
  lemma BandRound(f: real, v: real)
    requires f >= 0.0 && 0.8 <= v < 1.2
    ensures Round4(f * 0.8) <= Round4(f * v) <= Round4(f * 1.2)
  {
    assert f * v - f * 0.8 == f * (v - 0.8);
    assert f * 1.2 - f * v == f * (1.2 - v);
    assert f * (1.2 - v) >= 0.0 by {
      var d := 1.2 - v;
      assert d > 0.0;
    }
    Round4Monotone(f * 0.8, f * v);
    Round4Monotone(f * v, f * 1.2);
  }

  /** A synthetic row's components stay within the variance band around the base
      rate, and so does its total: between 0.8 and 1.2 times the base cost. */
  lemma SyntheticRowBounds(day: int, ns: string, v: real)
    requires 0.8 <= v < 1.2
    ensures var r := SyntheticRow(day, ns, v);
      && r.gpuCost == 0.0 && r.pvCost == 0.0 && r.totalCost == Round4(r.cpuCost + r.ramCost)
      && BaseCost(ns) * 0.56 <= r.cpuCost <= BaseCost(ns) * 0.84
      && BaseCost(ns) * 0.24 <= r.ramCost <= BaseCost(ns) * 0.36
      && BaseCost(ns) * 0.8 <= r.totalCost <= BaseCost(ns) * 1.2
  {
    if ns == "kube-system" {
      KubeSystemBounds(v);
    } else {
      OtherKeyBounds(v);
    }
  }

  lemma KubeSystemBounds(v: real)
    requires 0.8 <= v < 1.2
    ensures 0.028 <= Round4(0.05 * 0.7 * v) <= 0.042
    ensures 0.012 <= Round4(0.05 * 0.3 * v) <= 0.018
    ensures 0.04 <= Round4(Round4(0.05 * 0.7 * v) + Round4(0.05 * 0.3 * v)) <= 0.06
  {
    BandRound(0.035, v);
    BandRound(0.015, v);
    Round4Exact(280); Round4Exact(420); Round4Exact(120); Round4Exact(180);
    var s := Round4(0.05 * 0.7 * v) + Round4(0.05 * 0.3 * v);
    Round4Monotone(0.04, s);
    Round4Monotone(s, 0.06);
    Round4Exact(400); Round4Exact(600);
  }

  lemma OtherKeyBounds(v: real)
    requires 0.8 <= v < 1.2
    ensures 0.0112 <= Round4(0.02 * 0.7 * v) <= 0.0168
    ensures 0.0048 <= Round4(0.02 * 0.3 * v) <= 0.0072
    ensures 0.016 <= Round4(Round4(0.02 * 0.7 * v) + Round4(0.02 * 0.3 * v)) <= 0.024
  {
    BandRound(0.014, v);
    BandRound(0.006, v);
    Round4Exact(112); Round4Exact(168); Round4Exact(48); Round4Exact(72);
    var s := Round4(0.02 * 0.7 * v) + Round4(0.02 * 0.3 * v);
    Round4Monotone(0.016, s);
    Round4Monotone(s, 0.024);
    Round4Exact(160); Round4Exact(240);
  }

  /** Every draw `0.8 + Math.random() * 0.4` lies in `[0.8, 1.2)`. */
  predicate InBand(draws: seq<seq<real>>) {
    forall i, j :: 0 <= i < |draws| && 0 <= j < |draws[i]| ==> 0.8 <= draws[i][j] < 1.2
  }

  /** With distinct keys, a missing day gives each key exactly one row. */
  lemma {:induction false} RowsOfDay(day: int, keys: seq<string>, vs: seq<real>, j: nat)
    requires |vs| >= |keys| && Distinct(keys) && j < |keys|
    ensures RowsOf(RowsForDay(day, keys, vs), keys[j]) == [SyntheticRow(day, keys[j], vs[j])]
  {
    var init, last := keys[..|keys| - 1], keys[|keys| - 1];
    var front := RowsForDay(day, init, vs);
    var row := SyntheticRow(day, last, vs[|keys| - 1]);
    assert RowsForDay(day, keys, vs) == front + [row];
    assert (front + [row])[..|front|] == front;
    if j == |keys| - 1 {
      assert keys[j] !in init;
      forall d | d in front ensures d.namespace != keys[j] {
        RowsForDaySound(day, init, vs, d);
      }
      RowsOfAbsent(front, keys[j]);
    } else {
      assert keys[j] == init[j] && last != keys[j];
      RowsOfDay(day, init, vs, j);
    }
  }

  lemma InBandTail(draws: seq<seq<real>>)
    requires InBand(draws) && draws != []
    ensures InBand(draws[1..])
  {
    forall i, m | 0 <= i < |draws[1..]| && 0 <= m < |draws[1..][i]| ensures 0.8 <= draws[1..][i][m] < 1.2 {
      assert draws[1..][i] == draws[i + 1];
    }
  }

  lemma DrawnTail(days: seq<int>, keys: seq<string>, draws: seq<seq<real>>)
    requires Drawn(days, keys, draws) && days != []
    ensures Drawn(days[1..], keys, draws[1..])
  {
    forall i | 0 <= i < |days[1..]| ensures |draws[1..][i]| >= |keys| {
      assert draws[1..][i] == draws[i + 1];
    }
  }

  /** On a missing first day, the rows of `keys[j]` are its one row of that day
      followed by its rows of the later days. */
  lemma SyntheticKeyRows(days: seq<int>, windowStr: string, existing: set<DateKey>,
                         keys: seq<string>, draws: seq<seq<real>>, j: nat)
    requires Drawn(days, keys, draws) && Distinct(keys) && j < |keys|
    requires days != [] && Missing(windowStr, existing, days[0])
    ensures Drawn(days[1..], keys, draws[1..])
    ensures RowsOf(Synthetic(days, windowStr, existing, keys, draws), keys[j])
      == [SyntheticRow(days[0], keys[j], draws[0][j])]
         + RowsOf(Synthetic(days[1..], windowStr, existing, keys, draws[1..]), keys[j])
  {
    DrawnTail(days, keys, draws);
    var head := RowsForDay(days[0], keys, draws[0]);
    var rest := Synthetic(days[1..], windowStr, existing, keys, draws[1..]);
    assert Synthetic(days, windowStr, existing, keys, draws) == head + rest;
    RowsOfAppend(head, rest, keys[j]);
    RowsOfDay(days[0], keys, draws[0], j);
  }

  /** On a missing first day, the key `keys[j]` adds its one row of that day to its
      sums over the later days. */
  lemma SyntheticKeyHead(days: seq<int>, windowStr: string, existing: set<DateKey>,
                         keys: seq<string>, draws: seq<seq<real>>, j: nat)
    requires Drawn(days, keys, draws) && Distinct(keys) && j < |keys|
    requires days != [] && Missing(windowStr, existing, days[0])
    ensures Drawn(days[1..], keys, draws[1..])
    ensures var k := keys[j];
      SumRows(RowsOf(Synthetic(days, windowStr, existing, keys, draws), k))
      == AddRow(SumRows(RowsOf(Synthetic(days[1..], windowStr, existing, keys, draws[1..]), k)),
                SyntheticRow(days[0], k, draws[0][j]))
  {
    SyntheticKeyRows(days, windowStr, existing, keys, draws, j);
    SumRowsCons(SyntheticRow(days[0], keys[j], draws[0][j]),
                RowsOf(Synthetic(days[1..], windowStr, existing, keys, draws[1..]), keys[j]));
  }

  lemma SumRowsCons(row: DailyCost, later: seq<DailyCost>)
    ensures SumRows([row] + later) == AddRow(SumRows(later), row)
  {
    SumRowsAppend([row], later);
    assert SumRows([row]) == AddRow(Zero, row);
  }

  /** When every day of `days` is missing, the key `keys[j]` gets one synthetic row
      per day: nothing for GPU and storage, and a total between `0.8` and `1.2` times
      its base cost for each day. */
  lemma {:induction false} SyntheticKeySums(days: seq<int>, windowStr: string, existing: set<DateKey>,
                                            keys: seq<string>, draws: seq<seq<real>>, j: nat)
    requires Drawn(days, keys, draws) && InBand(draws) && Distinct(keys) && j < |keys|
    requires forall d :: d in days ==> Missing(windowStr, existing, d)
    ensures var s := SumRows(RowsOf(Synthetic(days, windowStr, existing, keys, draws), keys[j]));
      && s.gpu == 0.0 && s.pv == 0.0
      && |days| as real * (BaseCost(keys[j]) * 0.8) <= s.total <= |days| as real * (BaseCost(keys[j]) * 1.2)
  {
    if days != [] {
      var k := keys[j];
      SyntheticKeyHead(days, windowStr, existing, keys, draws, j);
      InBandTail(draws);
      SyntheticKeySums(days[1..], windowStr, existing, keys, draws[1..], j);
      SyntheticRowBounds(days[0], k, draws[0][j]);
      var n := |days[1..]| as real;
      assert |days| as real == n + 1.0;
      assert (n + 1.0) * (BaseCost(k) * 0.8) == n * (BaseCost(k) * 0.8) + BaseCost(k) * 0.8;
      assert (n + 1.0) * (BaseCost(k) * 1.2) == n * (BaseCost(k) * 1.2) + BaseCost(k) * 1.2;
    }
  }

  /** A key's week of synthetic sums keeps its band once rounded to four decimals. */
  lemma WeekTotalRounded(k: string, s: Sums)
    requires k in DefaultKeys && s.gpu == 0.0 && s.pv == 0.0
    requires 7.0 * (BaseCost(k) * 0.8) <= s.total <= 7.0 * (BaseCost(k) * 1.2)
    ensures Round4(s.gpu) == 0.0 && Round4(s.pv) == 0.0
    ensures 7.0 * BaseCost(k) * 0.8 <= Round4(s.total) <= 7.0 * BaseCost(k) * 1.2
  {
    Round4Exact(0);
    assert 0.0 == 0 as real / 10000.0;
    Round4Monotone(7.0 * (BaseCost(k) * 0.8), s.total);
    Round4Monotone(s.total, 7.0 * (BaseCost(k) * 1.2));
    if k == "kube-system" {
      Round4Exact(2800);
      Round4Exact(4200);
    } else {
      Round4Exact(1120);
      Round4Exact(1680);
    }
  }

  /** A fully backfilled week gives each default key seven rows whose total lies
      between 0.8 and 1.2 times seven days of its base cost. */
  lemma WeekKeySums(days: seq<int>, draws: seq<seq<real>>, k: string)
    requires |days| == 7 && Drawn(days, DefaultKeys, draws) && InBand(draws) && k in DefaultKeys
    ensures var s := SumRows(RowsOf(Synthetic(days, "7d", {}, DefaultKeys, draws), k));
      s.gpu == 0.0 && s.pv == 0.0 && 7.0 * (BaseCost(k) * 0.8) <= s.total <= 7.0 * (BaseCost(k) * 1.2)
  {
    assert Distinct(DefaultKeys);
    assert forall d :: d in days ==> Missing("7d", {}, d);
    var j :| 0 <= j < 3 && DefaultKeys[j] == k;
    SyntheticKeySums(days, "7d", {}, DefaultKeys, draws, j);
  }
}
