/** The accumulate step of "Entire window" requests: one summed row per group key
    (backend/src/index.ts:161-193; api/index.ts:115-131). */
module Accumulate {
  import opened Money
  import opened Records
  import opened Costs
  import opened Deployment

  /** The accumulator a key starts from. The local server starts from zeros; the
      serverless copy spreads the key's first row and zeroes only cpu, ram and total,
      so that row's gpu and pv survive. */
  function Seed(v: Variant, windowStr: string, d: DailyCost): DailyCost {
    match v
    case LocalServer => DailyCost(Total(windowStr), d.namespace, 0.0, 0.0, 0.0, 0.0, 0.0)
    case Serverless => d.(date := Total(windowStr), cpuCost := 0.0, ramCost := 0.0, totalCost := 0.0)
  }

  /** The `+=` updates: all five fields locally, only cpu, ram and total serverless. */
  function AddInto(v: Variant, acc: DailyCost, d: DailyCost): DailyCost {
    match v
    case LocalServer =>
      acc.(cpuCost := acc.cpuCost + d.cpuCost, gpuCost := acc.gpuCost + d.gpuCost,
           ramCost := acc.ramCost + d.ramCost, pvCost := acc.pvCost + d.pvCost,
           totalCost := acc.totalCost + d.totalCost)
    case Serverless =>
      acc.(cpuCost := acc.cpuCost + d.cpuCost, ramCost := acc.ramCost + d.ramCost,
           totalCost := acc.totalCost + d.totalCost)
  }

  /** The `aggregated` record after the rows `rows`. */
  function Fold(v: Variant, windowStr: string, rows: seq<DailyCost>): (r: Record<string, DailyCost>)
    ensures r.Valid()
  {
    if rows == [] then Empty()
    else
      var prev := Fold(v, windowStr, rows[..|rows| - 1]);
      var d := rows[|rows| - 1];
      prev.Put(d.namespace, AddInto(v, prev.GetOr(d.namespace, Seed(v, windowStr, d)), d))
  }

  /** The final `toFixed(4)` pass: all five fields locally, cpu, ram and total serverless. */
  function Finish(v: Variant, acc: DailyCost): DailyCost {
    match v
    case LocalServer =>
      acc.(cpuCost := Round4(acc.cpuCost), gpuCost := Round4(acc.gpuCost), ramCost := Round4(acc.ramCost),
           pvCost := Round4(acc.pvCost), totalCost := Round4(acc.totalCost))
    case Serverless =>
      acc.(cpuCost := Round4(acc.cpuCost), ramCost := Round4(acc.ramCost), totalCost := Round4(acc.totalCost))
  }

  function Accumulated(v: Variant, windowStr: string, rows: seq<DailyCost>): seq<DailyCost> {
    var r := Fold(v, windowStr, rows);
    seq(|r.order|, i requires 0 <= i < |r.order| => Finish(v, r.vals[r.order[i]]))
  }

  /** The accumulate step: the `forEach` filling `aggregated`, then
      `Object.values(aggregated).map(...)`. */
  method Accumulate(v: Variant, windowStr: string, rows: seq<DailyCost>) returns (out: seq<DailyCost>)
    ensures out == Accumulated(v, windowStr, rows)
  {
    var aggregated := Aggregate(v, windowStr, rows);
    out := FinishAll(v, aggregated.Values());
    AccumulatedByIndex(v, windowStr, rows, out);
  }

  /** The `forEach` filling `aggregated`. */
  method Aggregate(v: Variant, windowStr: string, rows: seq<DailyCost>) returns (aggregated: Record<string, DailyCost>)
    ensures aggregated == Fold(v, windowStr, rows)
  {
    aggregated := Empty();
    var i := 0;
    while i < |rows|
      invariant 0 <= i <= |rows|
      invariant aggregated == Fold(v, windowStr, rows[..i])
    {
      var d := rows[i];
      var acc := if d.namespace in aggregated.vals then aggregated.vals[d.namespace] else Seed(v, windowStr, d);
      FoldPrefixStep(v, windowStr, rows, i);
      aggregated := aggregated.Put(d.namespace, AddInto(v, acc, d));
      i := i + 1;
    }
    assert rows[..i] == rows;
  }

  /** A sequence holding the rounded accumulators in key order is the result. */
  lemma AccumulatedByIndex(v: Variant, windowStr: string, rows: seq<DailyCost>, out: seq<DailyCost>)
    requires var r := Fold(v, windowStr, rows);
      && |out| == |r.order|
      && forall m :: 0 <= m < |out| ==> out[m] == Finish(v, r.vals[r.order[m]])
    ensures out == Accumulated(v, windowStr, rows)
  {
  }

  /** One more row updates the accumulator of its key. */
  lemma FoldPrefixStep(v: Variant, windowStr: string, rows: seq<DailyCost>, i: nat)
    requires i < |rows|
    ensures var prev, d := Fold(v, windowStr, rows[..i]), rows[i];
      Fold(v, windowStr, rows[..i + 1]) == prev.Put(d.namespace, AddInto(v, prev.GetOr(d.namespace, Seed(v, windowStr, d)), d))
  {
    PrefixStep(rows, i);
  }

  /** The final `.map(...)` rounding each accumulator. */
  method FinishAll(v: Variant, values: seq<DailyCost>) returns (out: seq<DailyCost>)
    ensures |out| == |values|
    ensures forall m :: 0 <= m < |values| ==> out[m] == Finish(v, values[m])
  {
    out := [];
    var j := 0;
    while j < |values|
      invariant 0 <= j <= |values|
      invariant |out| == j
      invariant forall m :: 0 <= m < j ==> out[m] == Finish(v, values[m])
    {
      out := out + [Finish(v, values[j])];
      j := j + 1;
    }
  }

  /** What the accumulator of key `k` holds once the rows are folded in: the sums `s`
      of the key's rows, with gpu and pv from its first row `first` serverless. */
  function Expected(v: Variant, windowStr: string, k: string, s: Sums, first: DailyCost): DailyCost {
    match v
    case LocalServer => DailyCost(Total(windowStr), k, s.cpu, s.gpu, s.ram, s.pv, s.total)
    case Serverless => DailyCost(Total(windowStr), k, s.cpu, first.gpuCost, s.ram, first.pvCost, s.total)
  }

  lemma {:induction false} FoldOrder(v: Variant, windowStr: string, rows: seq<DailyCost>)
    ensures Fold(v, windowStr, rows).order == Tally(rows).order
    ensures forall k :: k in Fold(v, windowStr, rows).vals <==> k in Tally(rows).vals
  {
    KeysInOrder(Fold(v, windowStr, rows));
    KeysInOrder(Tally(rows));
    if rows != [] {
      var init := rows[..|rows| - 1];
      FoldOrder(v, windowStr, init);
    }
  }

  lemma {:induction false} FoldValue(v: Variant, windowStr: string, rows: seq<DailyCost>, k: string)
    requires k in Tally(rows).vals
    ensures k in Fold(v, windowStr, rows).vals && |RowsOf(rows, k)| > 0
    ensures Fold(v, windowStr, rows).vals[k] == Expected(v, windowStr, k, Tally(rows).vals[k], RowsOf(rows, k)[0])
  {
    var init := rows[..|rows| - 1];
    var d := rows[|rows| - 1];
    FoldOrder(v, windowStr, init);
    if k == d.namespace && k in Tally(init).vals {
      FoldValue(v, windowStr, init, k);
      FoldStepKnown(v, windowStr, rows, k);
    } else if k == d.namespace {
      NoTallyNoRows(init, k);
      FoldStepNew(v, windowStr, rows, k);
    } else {
      FoldValue(v, windowStr, init, k);
      FoldStepOther(v, windowStr, rows, k);
    }
  }

  /** The last row belongs to a key already seen. */
  lemma FoldStepKnown(v: Variant, windowStr: string, rows: seq<DailyCost>, k: string)
    requires rows != [] && k == rows[|rows| - 1].namespace
    requires var init := rows[..|rows| - 1];
      && k in Tally(init).vals && k in Fold(v, windowStr, init).vals && |RowsOf(init, k)| > 0
      && Fold(v, windowStr, init).vals[k] == Expected(v, windowStr, k, Tally(init).vals[k], RowsOf(init, k)[0])
    ensures k in Fold(v, windowStr, rows).vals && |RowsOf(rows, k)| > 0
    ensures Fold(v, windowStr, rows).vals[k] == Expected(v, windowStr, k, Tally(rows).vals[k], RowsOf(rows, k)[0])
  {
    var init := rows[..|rows| - 1];
    var d := rows[|rows| - 1];
    var first := RowsOf(init, k)[0];
    assert RowsOf(rows, k) == RowsOf(init, k) + [d];
    assert RowsOf(rows, k)[0] == first;
    var s0 := Tally(init).vals[k];
    assert Tally(rows).vals[k] == AddRow(s0, d);
    var f0 := Fold(v, windowStr, init);
    assert f0.GetOr(k, Seed(v, windowStr, d)) == Expected(v, windowStr, k, s0, first);
    assert Fold(v, windowStr, rows).vals[k] == AddInto(v, Expected(v, windowStr, k, s0, first), d);
    AddIntoExpected(v, windowStr, k, s0, first, d);
  }

  lemma AddIntoExpected(v: Variant, windowStr: string, k: string, s: Sums, first: DailyCost, d: DailyCost)
    ensures AddInto(v, Expected(v, windowStr, k, s, first), d) == Expected(v, windowStr, k, AddRow(s, d), first)
  {
  }

  /** The last row is the first of its key. */
  lemma FoldStepNew(v: Variant, windowStr: string, rows: seq<DailyCost>, k: string)
    requires rows != [] && k == rows[|rows| - 1].namespace
    requires var init := rows[..|rows| - 1];
      k !in Tally(init).vals && k !in Fold(v, windowStr, init).vals && RowsOf(init, k) == []
    ensures k in Fold(v, windowStr, rows).vals && |RowsOf(rows, k)| > 0
    ensures Fold(v, windowStr, rows).vals[k] == Expected(v, windowStr, k, Tally(rows).vals[k], RowsOf(rows, k)[0])
  {
    var init := rows[..|rows| - 1];
    var d := rows[|rows| - 1];
    assert RowsOf(rows, k) == [d];
    assert Tally(rows).vals[k] == AddRow(Zero, d);
    assert Fold(v, windowStr, rows).vals[k] == AddInto(v, Seed(v, windowStr, d), d);
  }

  /** The last row belongs to another key. */
  lemma FoldStepOther(v: Variant, windowStr: string, rows: seq<DailyCost>, k: string)
    requires rows != [] && k != rows[|rows| - 1].namespace
    requires var init := rows[..|rows| - 1];
      && k in Tally(init).vals && k in Fold(v, windowStr, init).vals && |RowsOf(init, k)| > 0
      && Fold(v, windowStr, init).vals[k] == Expected(v, windowStr, k, Tally(init).vals[k], RowsOf(init, k)[0])
    ensures k in Fold(v, windowStr, rows).vals && |RowsOf(rows, k)| > 0
    ensures Fold(v, windowStr, rows).vals[k] == Expected(v, windowStr, k, Tally(rows).vals[k], RowsOf(rows, k)[0])
  {
    var init := rows[..|rows| - 1];
    assert RowsOf(rows, k) == RowsOf(init, k);
  }

  /** The `i`-th accumulated row is the rounded accumulator of the `i`-th key. */
  lemma AccumulatedAt(v: Variant, windowStr: string, rows: seq<DailyCost>, i: nat)
    requires i < |KeysOf(rows)|
    ensures |Accumulated(v, windowStr, rows)| == |KeysOf(rows)|
    ensures var k := KeysOf(rows)[i];
      && |RowsOf(rows, k)| > 0
      && Accumulated(v, windowStr, rows)[i]
         == Finish(v, Expected(v, windowStr, k, SumRows(RowsOf(rows, k)), RowsOf(rows, k)[0]))
  {
    FoldOrder(v, windowStr, rows);
    TallyKeys(rows);
    var t := Tally(rows);
    KeysInOrder(t);
    var k := KeysOf(rows)[i];
    assert k in t.vals;
    TallyIsSumOfKey(rows, k);
    FoldValue(v, windowStr, rows, k);
  }

  /** Accumulating yields one row per distinct group key, in first-seen order, dated
      `Total (<window>)`, each field the rounded sum of that key's daily rows (the
      local server). */
  lemma AccumulatedLocal(windowStr: string, rows: seq<DailyCost>)
    ensures var out := Accumulated(LocalServer, windowStr, rows);
      && |out| == |KeysOf(rows)|
      && forall i :: 0 <= i < |out| ==>
           var k := KeysOf(rows)[i];
           var s := SumRows(RowsOf(rows, k));
           out[i] == DailyCost(Total(windowStr), k, Round4(s.cpu), Round4(s.gpu), Round4(s.ram), Round4(s.pv), Round4(s.total))
  {
    var out := Accumulated(LocalServer, windowStr, rows);
    FoldOrder(LocalServer, windowStr, rows);
    TallyKeys(rows);
    forall i | 0 <= i < |out|
      ensures var k := KeysOf(rows)[i];
        var s := SumRows(RowsOf(rows, k));
        out[i] == DailyCost(Total(windowStr), k, Round4(s.cpu), Round4(s.gpu), Round4(s.ram), Round4(s.pv), Round4(s.total))
    {
      AccumulatedAt(LocalServer, windowStr, rows, i);
    }
  }

  /** The `i`-th accumulated row of the local server, one field at a time. */
  lemma AccumulatedLocalRow(windowStr: string, rows: seq<DailyCost>, i: nat)
    requires i < |KeysOf(rows)|
    ensures var r := Accumulated(LocalServer, windowStr, rows);
      var k := KeysOf(rows)[i];
      var s := SumRows(RowsOf(rows, k));
      && |r| == |KeysOf(rows)| && r[i].namespace == k && r[i].date == Total(windowStr)
      && r[i].gpuCost == Round4(s.gpu) && r[i].pvCost == Round4(s.pv) && r[i].totalCost == Round4(s.total)
  {
    AccumulatedLocal(windowStr, rows);
  }

  /** The serverless copy sums and rounds only cpu, ram and total; gpu and pv are
      those of the key's first daily row. */
  lemma AccumulatedServerless(windowStr: string, rows: seq<DailyCost>)
    ensures var out := Accumulated(Serverless, windowStr, rows);
      && |out| == |KeysOf(rows)|
      && forall i :: 0 <= i < |out| ==>
           var k := KeysOf(rows)[i];
           var s := SumRows(RowsOf(rows, k));
           && |RowsOf(rows, k)| > 0
           && out[i] == DailyCost(Total(windowStr), k, Round4(s.cpu), RowsOf(rows, k)[0].gpuCost,
                                  Round4(s.ram), RowsOf(rows, k)[0].pvCost, Round4(s.total))
  {
    var out := Accumulated(Serverless, windowStr, rows);
    FoldOrder(Serverless, windowStr, rows);
    TallyKeys(rows);
    forall i | 0 <= i < |out|
      ensures var k := KeysOf(rows)[i];
        var s := SumRows(RowsOf(rows, k));
        && |RowsOf(rows, k)| > 0
        && out[i] == DailyCost(Total(windowStr), k, Round4(s.cpu), RowsOf(rows, k)[0].gpuCost,
                               Round4(s.ram), RowsOf(rows, k)[0].pvCost, Round4(s.total))
    {
      AccumulatedAt(Serverless, windowStr, rows, i);
    }
  }
}
