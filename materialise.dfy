/** The materialisation stage: one cost row per (timestamp, group key) pair with
    non-zero usage, timestamps outermost and ascending, keys in first-seen order
    (backend/src/index.ts:88-117; api/index.ts:60-81). */
module Materialise {
  import opened Money
  import opened Costs
  import opened Series
  import opened Sorting

  /** The answered range queries plus the parameters the stage reads. */
  datatype Observed = Observed(cpu: seq<PromSeries>, mem: seq<PromSeries>, aggregate: string, step: int)

  /** `new Date(ts * 1000).toISOString().split('T')[0]` as a UTC day number: the
      floor of `ts / 86400` (Dafny's `/` floors for a positive divisor). */
  function DayOf(ts: int): int {
    ts / 86400
  }

  /** $0.05 per core-hour, from CPU core-seconds. */
  function CpuCost(cpuSeconds: real): real {
    cpuSeconds / 3600.0 * 0.05
  }

  /** $0.005 per GB-hour, from average bytes held over one step. */
  function RamCost(memBytes: real, step: int): real {
    memBytes / 1073741824.0 * 0.005 * (step as real / 3600.0)
  }

  /** A real row: the components are rounded, and the total is the rounded sum of
      the unrounded components. */
  function CostRow(ts: int, ns: string, cpu: real, ram: real): DailyCost {
    DailyCost(Day(DayOf(ts)), ns, Round4(cpu), 0.0, Round4(ram), 0.0, Round4(cpu + ram))
  }

  function CpuAt(o: Observed, ts: int, ns: string): real {
    CpuCost(FindValue(o.cpu, o.aggregate, ns, ts))
  }

  function RamAt(o: Observed, ts: int, ns: string): real {
    RamCost(FindValue(o.mem, o.aggregate, ns, ts), o.step)
  }

  /** `cpuCost > 0 || ramCost > 0` */
  predicate Billable(o: Observed, ts: int, ns: string) {
    CpuAt(o, ts, ns) > 0.0 || RamAt(o, ts, ns) > 0.0
  }

  function RowAt(o: Observed, ts: int, ns: string): DailyCost {
    CostRow(ts, ns, CpuAt(o, ts, ns), RamAt(o, ts, ns))
  }

  /** The rows pushed for one timestamp (the inner `namespaces.forEach`). */
  function RowsAt(o: Observed, ts: int, keys: seq<string>): seq<DailyCost> {
    if keys == [] then []
    else
      var k := keys[|keys| - 1];
      RowsAt(o, ts, keys[..|keys| - 1]) + (if Billable(o, ts, k) then [RowAt(o, ts, k)] else [])
  }

  /** The rows pushed for the timestamps `times`, in order. */
  function RealRows(o: Observed, times: seq<int>, keys: seq<string>): seq<DailyCost> {
    if times == [] then []
    else RealRows(o, times[..|times| - 1], keys) + RowsAt(o, times[|times| - 1], keys)
  }

  /** The nested `forEach` loops that push the real rows into `dailyCosts`. */
  method Materialise(o: Observed, times: seq<int>, keys: seq<string>) returns (rows: seq<DailyCost>)
    ensures rows == RealRows(o, times, keys)
  {
    rows := [];
    var i := 0;
    while i < |times|
      invariant 0 <= i <= |times|
      invariant rows == RealRows(o, times[..i], keys)
    {
      rows := PushRowsAt(rows, o, times[i], keys);
      assert times[..i + 1][..i] == times[..i];
      i := i + 1;
    }
    assert times[..i] == times;
  }

  /** The inner `namespaces.forEach` for one timestamp. */
  method PushRowsAt(rows: seq<DailyCost>, o: Observed, ts: int, keys: seq<string>) returns (rows': seq<DailyCost>)
    ensures rows' == rows + RowsAt(o, ts, keys)
  {
    rows' := rows;
    var j := 0;
    while j < |keys|
      invariant 0 <= j <= |keys|
      invariant rows' == rows + RowsAt(o, ts, keys[..j])
    {
      var ns := keys[j];
      var cpuCost := CpuCost(FindValue(o.cpu, o.aggregate, ns, ts));
      var ramCost := RamCost(FindValue(o.mem, o.aggregate, ns, ts), o.step);
      RowsAtStep(o, ts, keys, j);
      if cpuCost > 0.0 || ramCost > 0.0 {
        rows' := rows' + [CostRow(ts, ns, cpuCost, ramCost)];
      }
      j := j + 1;
    }
    assert keys[..j] == keys;
  }

  /** One more key pushes its row exactly when the key is billable. */
  lemma RowsAtStep(o: Observed, ts: int, keys: seq<string>, j: nat)
    requires j < |keys|
    ensures RowsAt(o, ts, keys[..j + 1])
      == RowsAt(o, ts, keys[..j]) + (if Billable(o, ts, keys[j]) then [RowAt(o, ts, keys[j])] else [])
  {
    var front := keys[..j + 1];
    assert front[..j] == keys[..j] && front[j] == keys[j];
  }

  lemma {:induction false} RowsAtSound(o: Observed, ts: int, keys: seq<string>, r: DailyCost)
    requires r in RowsAt(o, ts, keys)
    ensures exists k :: k in keys && Billable(o, ts, k) && r == RowAt(o, ts, k)
  {
    var init := keys[..|keys| - 1];
    if r in RowsAt(o, ts, init) {
      RowsAtSound(o, ts, init, r);
      var k :| k in init && Billable(o, ts, k) && r == RowAt(o, ts, k);
      assert k in keys;
    } else {
      assert keys[|keys| - 1] in keys;
    }
  }

  lemma {:induction false} RowsAtComplete(o: Observed, ts: int, keys: seq<string>, k: string)
    requires k in keys && Billable(o, ts, k)
    ensures RowAt(o, ts, k) in RowsAt(o, ts, keys)
  {
    var init := keys[..|keys| - 1];
    if k != keys[|keys| - 1] {
      assert keys == init + [keys[|keys| - 1]];
      RowsAtComplete(o, ts, init, k);
    }
  }

  /** Every real row is the row of an observed (timestamp, key) pair with non-zero
      usage: nothing is zero-filled. */
  lemma {:induction false} RealRowsSound(o: Observed, times: seq<int>, keys: seq<string>, r: DailyCost)
    requires r in RealRows(o, times, keys)
    ensures exists t, k :: t in times && k in keys && Billable(o, t, k) && r == RowAt(o, t, k)
  {
    var init := times[..|times| - 1];
    var last := times[|times| - 1];
    if r in RealRows(o, init, keys) {
      RealRowsSound(o, init, keys, r);
      var t, k :| t in init && k in keys && Billable(o, t, k) && r == RowAt(o, t, k);
      assert t in times;
    } else {
      RowsAtSound(o, last, keys, r);
      var k :| k in keys && Billable(o, last, k) && r == RowAt(o, last, k);
      assert last in times;
    }
  }

  /** Every observed (timestamp, key) pair with non-zero usage has its row: nothing
      billable is dropped. */
  lemma {:induction false} RealRowsComplete(o: Observed, times: seq<int>, keys: seq<string>, t: int, k: string)
    requires t in times && k in keys && Billable(o, t, k)
    ensures RowAt(o, t, k) in RealRows(o, times, keys)
  {
    var init := times[..|times| - 1];
    var last := times[|times| - 1];
    if t == last {
      RowsAtComplete(o, last, keys, k);
    } else {
      assert times == init + [last];
      RealRowsComplete(o, init, keys, t, k);
    }
  }

  /** When the timestamps ascend, the real rows already ascend by date. */
  lemma {:induction false} RealRowsSorted(o: Observed, times: seq<int>, keys: seq<string>)
    requires forall i, j :: 0 <= i < j < |times| ==> times[i] <= times[j]
    ensures SortedBy(RealRows(o, times, keys), RowDateLe)
  {
    if times != [] {
      var init := times[..|times| - 1];
      var last := times[|times| - 1];
      RealRowsSorted(o, init, keys);
      var a := RealRows(o, init, keys);
      var b := RowsAt(o, last, keys);
      forall x | x in a ensures x.date.Day? && x.date.day <= DayOf(last) {
        RealRowsSound(o, init, keys, x);
        var t, k :| t in init && k in keys && Billable(o, t, k) && x == RowAt(o, t, k);
        var i :| 0 <= i < |init| && init[i] == t;
        assert times[i] <= times[|times| - 1];
      }
      forall y | y in b ensures y.date == Day(DayOf(last)) {
        RowsAtSound(o, last, keys, y);
      }
      var r := a + b;
      forall i, j | 0 <= i < j < |r| ensures RowDateLe(r[i], r[j]) {
        if j < |a| {
          assert r[i] == a[i] && r[j] == a[j];
        } else if i >= |a| {
          assert r[i] in b && r[j] in b;
        } else {
          assert r[i] in a && r[j] in b;
        }
      }
    }
  }

  /** A real row's total is within rounding distance of the sum of its rounded
      components (gpu and pv are always 0). */
  lemma RowTotalNearSum(ts: int, ns: string, cpu: real, ram: real)
    ensures var d := CostRow(ts, ns, cpu, ram);
      && d.gpuCost == 0.0 && d.pvCost == 0.0
      && d.cpuCost + d.ramCost - 0.00015 <= d.totalCost <= d.cpuCost + d.ramCost + 0.00015
  {
  }

  /** ...but not equal to it: two components each rounding to 0 can have a total
      that rounds to 0.0001. */
  lemma TotalIsNotSumOfRounded()
    ensures var d := CostRow(0, "default", 0.00004, 0.00004);
      d.cpuCost == 0.0 && d.ramCost == 0.0 && d.totalCost == 0.0001
  {
    assert Nearest(0.00004 * 10000.0) == 0;
    assert Nearest((0.00004 + 0.00004) * 10000.0) == 1;
  }
}
