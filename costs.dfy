/** The `DailyCost` row every layer exchanges, its date labels, and the group-by-key
    sums that the accumulate step and the allocation table both compute. */
module Costs {
  import opened Records

  /** A row's `date`: a UTC calendar day (`YYYY-MM-DD`, here its day number since
      1970-01-01) or the label `Total (<window>)` of an accumulated row. */
  datatype DateKey = Day(day: int) | Total(window: string)

  /** `a.date.localeCompare(b.date) <= 0`: days compare chronologically and every
      `YYYY-MM-DD` label sorts before a `Total (...)` label (digits before letters). */
  predicate DateLe(a: DateKey, b: DateKey) {
    match (a, b)
    case (Day(x), Day(y)) => x <= y
    case (Day(_), Total(_)) => true
    case (Total(_), Day(_)) => false
    case (Total(_), Total(_)) => true
  }

  /** `DailyCost` of frontend/src/types.ts; `namespace` holds the group key. */
  datatype DailyCost = DailyCost(
    date: DateKey, namespace: string,
    cpuCost: real, gpuCost: real, ramCost: real, pvCost: real, totalCost: real)

  predicate RowDateLe(a: DailyCost, b: DailyCost) {
    DateLe(a.date, b.date)
  }

  /** Running totals of the five cost fields. */
  datatype Sums = Sums(cpu: real, gpu: real, ram: real, pv: real, total: real)

  const Zero := Sums(0.0, 0.0, 0.0, 0.0, 0.0)

  function AddRow(s: Sums, d: DailyCost): Sums {
    Sums(s.cpu + d.cpuCost, s.gpu + d.gpuCost, s.ram + d.ramCost, s.pv + d.pvCost, s.total + d.totalCost)
  }

  function Plus(a: Sums, b: Sums): Sums {
    Sums(a.cpu + b.cpu, a.gpu + b.gpu, a.ram + b.ram, a.pv + b.pv, a.total + b.total)
  }

  /** Field-by-field sum over `rows`. */
  function SumRows(rows: seq<DailyCost>): Sums {
    if rows == [] then Zero else AddRow(SumRows(rows[..|rows| - 1]), rows[|rows| - 1])
  }

  /** The rows whose group key is `k`, in order. */
  function RowsOf(rows: seq<DailyCost>, k: string): (r: seq<DailyCost>)
    ensures forall d :: d in r <==> d in rows && d.namespace == k
  {
    if rows == [] then []
    else RowsOf(rows[..|rows| - 1], k) + (if rows[|rows| - 1].namespace == k then [rows[|rows| - 1]] else [])
  }

  lemma {:induction false} SumRowsAppend(a: seq<DailyCost>, b: seq<DailyCost>)
    ensures SumRows(a + b) == Plus(SumRows(a), SumRows(b))
  {
    if b == [] {
      assert a + b == a;
    } else {
      SumRowsAppend(a, b[..|b| - 1]);
      assert (a + b)[..|a + b| - 1] == a + b[..|b| - 1];
    }
  }

  lemma SumRowsRemove(s: seq<DailyCost>, j: nat)
    requires j < |s|
    ensures SumRows(s) == AddRow(SumRows(s[..j] + s[j + 1..]), s[j])
  {
    var head, tail := s[..j], s[j + 1..];
    var front := head + [s[j]];
    SplitAround(s, j);
    SumRowsAppend(front, tail);
    assert SumRows(front) == AddRow(SumRows(head), s[j]);
    SumRowsAppend(head, tail);
    AddRowLast(SumRows(head), SumRows(tail), s[j]);
  }

  /** Adding a row before or after another sum gives the same total. */
  lemma AddRowLast(h: Sums, t: Sums, d: DailyCost)
    ensures Plus(AddRow(h, d), t) == AddRow(Plus(h, t), d)
  {
  }

  /** Sums may be added in any order. */
  lemma PlusSwap(a: Sums, b: Sums, c: Sums)
    ensures Plus(Plus(a, b), c) == Plus(Plus(a, c), b)
  {
  }

  /** The field sums do not depend on the order of the rows. */
  lemma {:induction false} SumRowsPerm(a: seq<DailyCost>, b: seq<DailyCost>)
    requires multiset(a) == multiset(b)
    ensures SumRows(a) == SumRows(b)
    decreases |a|
  {
    if a == [] {
      assert |b| == |multiset(b)| == 0;
    } else {
      var x := a[|a| - 1];
      assert x in multiset(b);
      var j :| 0 <= j < |b| && b[j] == x;
      var rest := b[..j] + b[j + 1..];
      assert b == b[..j] + [x] + b[j + 1..];
      assert multiset(b) == multiset(b[..j]) + multiset{x} + multiset(b[j + 1..]);
      assert multiset(rest) == multiset(b[..j]) + multiset(b[j + 1..]);
      assert a == a[..|a| - 1] + [x];
      assert multiset(a) == multiset(a[..|a| - 1]) + multiset{x};
      assert multiset(rest) == multiset(b) - multiset{x};
      assert multiset(a[..|a| - 1]) == multiset(a) - multiset{x};
      SumRowsPerm(a[..|a| - 1], rest);
      SumRowsRemove(b, j);
    }
  }

  lemma {:induction false} RowsOfCount(rows: seq<DailyCost>, k: string, x: DailyCost)
    ensures multiset(RowsOf(rows, k))[x] == if x.namespace == k then multiset(rows)[x] else 0
  {
    if rows != [] {
      RowsOfCount(rows[..|rows| - 1], k, x);
      assert rows == rows[..|rows| - 1] + [rows[|rows| - 1]];
    }
  }

  lemma RowsOfSnoc(rows: seq<DailyCost>, d: DailyCost, k: string)
    ensures RowsOf(rows + [d], k) == RowsOf(rows, k) + (if d.namespace == k then [d] else [])
  {
    assert (rows + [d])[..|rows|] == rows;
  }

  /** Selecting a key's rows distributes over concatenation. */
  lemma {:induction false} RowsOfAppend(a: seq<DailyCost>, b: seq<DailyCost>, k: string)
    ensures RowsOf(a + b, k) == RowsOf(a, k) + RowsOf(b, k)
  {
    if b == [] {
      assert a + b == a;
      assert RowsOf(b, k) == [];
    } else {
      var init, last := b[..|b| - 1], b[|b| - 1];
      var tail := if last.namespace == k then [last] else [];
      assert a + b == (a + init) + [last];
      assert b == init + [last];
      var x, y := RowsOf(a, k), RowsOf(init, k);
      calc {
        RowsOf(a + b, k);
        { RowsOfSnoc(a + init, last, k); }
        RowsOf(a + init, k) + tail;
        { RowsOfAppend(a, init, k); }
        (x + y) + tail;
        x + (y + tail);
        { RowsOfSnoc(init, last, k); }
        x + RowsOf(b, k);
      }
    }
  }

  /** A key no row carries selects nothing. */
  lemma {:induction false} RowsOfAbsent(rows: seq<DailyCost>, k: string)
    requires forall d :: d in rows ==> d.namespace != k
    ensures RowsOf(rows, k) == []
  {
    if rows != [] {
      RowsOfAbsent(rows[..|rows| - 1], k);
    }
  }

  /** Reordering the rows reorders each key's rows the same way. */
  lemma RowsOfPerm(a: seq<DailyCost>, b: seq<DailyCost>, k: string)
    requires multiset(a) == multiset(b)
    ensures multiset(RowsOf(a, k)) == multiset(RowsOf(b, k))
  {
    forall x ensures multiset(RowsOf(a, k))[x] == multiset(RowsOf(b, k))[x] {
      RowsOfCount(a, k, x);
      RowsOfCount(b, k, x);
    }
  }

  /** The distinct group keys of `rows`, in first-seen order. */
  function KeysOf(rows: seq<DailyCost>): (ks: seq<string>)
    ensures Distinct(ks)
    ensures forall k :: k in ks <==> exists d :: d in rows && d.namespace == k
  {
    if rows == [] then []
    else
      var prev := KeysOf(rows[..|rows| - 1]);
      var last := rows[|rows| - 1];
      assert forall d :: d in rows <==> d in rows[..|rows| - 1] || d == last by {
        assert rows == rows[..|rows| - 1] + [last];
      }
      if last.namespace in prev then prev else prev + [last.namespace]
  }

  /** Group-by-key totals in first-seen key order: the `nsTotals` record of the
      allocation table and the per-key sums of the accumulate step. */
  function Tally(rows: seq<DailyCost>): (t: Record<string, Sums>)
    ensures t.Valid()
  {
    if rows == [] then Empty()
    else
      var prev := Tally(rows[..|rows| - 1]);
      var d := rows[|rows| - 1];
      prev.Put(d.namespace, AddRow(prev.GetOr(d.namespace, Zero), d))
  }

  /** One more row updates the tally of its key and the field sums. */
  lemma TallyPrefixStep(rows: seq<DailyCost>, i: nat)
    requires i < |rows|
    ensures var prev, d := Tally(rows[..i]), rows[i];
      Tally(rows[..i + 1]) == prev.Put(d.namespace, AddRow(prev.GetOr(d.namespace, Zero), d))
    ensures SumRows(rows[..i + 1]) == AddRow(SumRows(rows[..i]), rows[i])
  {
    PrefixStep(rows, i);
  }

  lemma {:induction false} TallyKeys(rows: seq<DailyCost>)
    ensures Tally(rows).order == KeysOf(rows)
  {
    if rows != [] {
      var init := rows[..|rows| - 1];
      TallyKeys(init);
      KeysInOrder(Tally(init));
    }
  }

  lemma {:induction false} NoTallyNoRows(rows: seq<DailyCost>, k: string)
    requires k !in Tally(rows).vals
    ensures RowsOf(rows, k) == []
  {
    if rows != [] {
      NoTallyNoRows(rows[..|rows| - 1], k);
    }
  }

  /** Each key's tally is the sum of that key's rows. */
  lemma {:induction false} TallyIsSumOfKey(rows: seq<DailyCost>, k: string)
    requires k in Tally(rows).vals
    ensures Tally(rows).vals[k] == SumRows(RowsOf(rows, k))
  {
    var init := rows[..|rows| - 1];
    var d := rows[|rows| - 1];
    var before := RowsOf(init, k);
    if k in Tally(init).vals {
      TallyIsSumOfKey(init, k);
    } else {
      NoTallyNoRows(init, k);
    }
    if d.namespace == k {
      var r := before + [d];
      assert RowsOf(rows, k) == r;
      assert r[..|r| - 1] == before;
    } else {
      assert RowsOf(rows, k) == before;
    }
  }

  /** The sum of the tallies of the keys in `ks`. */
  function SumTallies(t: Record<string, Sums>, ks: seq<string>): Sums
    requires forall k :: k in ks ==> k in t.vals
  {
    if ks == [] then Zero else Plus(SumTallies(t, ks[..|ks| - 1]), t.vals[ks[|ks| - 1]])
  }

  lemma {:induction false} SumTalliesFrame(t: Record<string, Sums>, u: Record<string, Sums>, ks: seq<string>)
    requires forall k :: k in ks ==> k in t.vals && k in u.vals && t.vals[k] == u.vals[k]
    ensures SumTallies(t, ks) == SumTallies(u, ks)
  {
    if ks != [] {
      SumTalliesFrame(t, u, ks[..|ks| - 1]);
    }
  }

  /** Adding `delta` to the tally of one listed key adds `delta` to the sum. */
  lemma {:induction false} SumTalliesBump(t: Record<string, Sums>, ks: seq<string>, k: string, v: Sums, delta: Sums)
    requires Distinct(ks) && k in ks
    requires forall j :: j in ks ==> j in t.vals
    requires t.vals[k] == v
    ensures SumTallies(Record(t.order, t.vals[k := Plus(v, delta)]), ks) == Plus(SumTallies(t, ks), delta)
  {
    var u := Record(t.order, t.vals[k := Plus(v, delta)]);
    var init := ks[..|ks| - 1];
    var last := ks[|ks| - 1];
    if last == k {
      assert k !in init;
      SumTalliesFrame(t, u, init);
    } else {
      SumTalliesBump(t, init, k, v, delta);
    }
  }

  lemma {:induction false} SumTalliesAppend(t: Record<string, Sums>, ks: seq<string>, k: string)
    requires forall j :: j in ks ==> j in t.vals
    requires k in t.vals
    ensures SumTallies(t, ks + [k]) == Plus(SumTallies(t, ks), t.vals[k])
  {
    assert (ks + [k])[..|ks|] == ks;
  }

  /** Recording one more row adds that row to the sum of all tallies. */
  lemma TallyStep(t: Record<string, Sums>, d: DailyCost)
    requires t.Valid()
    ensures forall k :: k in t.order ==> k in t.vals
    ensures var u := t.Put(d.namespace, AddRow(t.GetOr(d.namespace, Zero), d));
      && (forall k :: k in u.order ==> k in u.vals)
      && SumTallies(u, u.order) == AddRow(SumTallies(t, t.order), d)
  {
    KeysInOrder(t);
    var u := t.Put(d.namespace, AddRow(t.GetOr(d.namespace, Zero), d));
    KeysInOrder(u);
    if d.namespace in t.vals {
      TallyStepKnown(t, d);
    } else {
      TallyStepNew(t, d);
    }
  }

  lemma TallyStepKnown(t: Record<string, Sums>, d: DailyCost)
    requires t.Valid() && d.namespace in t.vals
    requires forall k :: k in t.order <==> k in t.vals
    ensures SumTallies(Record(t.order, t.vals[d.namespace := AddRow(t.vals[d.namespace], d)]), t.order)
         == AddRow(SumTallies(t, t.order), d)
  {
    var delta := Sums(d.cpuCost, d.gpuCost, d.ramCost, d.pvCost, d.totalCost);
    assert AddRow(t.vals[d.namespace], d) == Plus(t.vals[d.namespace], delta);
    SumTalliesBump(t, t.order, d.namespace, t.vals[d.namespace], delta);
  }

  lemma TallyStepNew(t: Record<string, Sums>, d: DailyCost)
    requires t.Valid() && d.namespace !in t.vals
    requires forall k :: k in t.order <==> k in t.vals
    ensures SumTallies(Record(t.order + [d.namespace], t.vals[d.namespace := AddRow(Zero, d)]), t.order + [d.namespace])
         == AddRow(SumTallies(t, t.order), d)
  {
    var u := Record(t.order + [d.namespace], t.vals[d.namespace := AddRow(Zero, d)]);
    SumTalliesFrame(t, u, t.order);
    SumTalliesAppend(u, t.order, d.namespace);
  }

  /** The grand total over all rows equals the sum of the per-key totals. */
  lemma {:induction false} GrandTotalIsSumOfTallies(rows: seq<DailyCost>)
    ensures forall k :: k in Tally(rows).order ==> k in Tally(rows).vals
    ensures SumRows(rows) == SumTallies(Tally(rows), Tally(rows).order)
  {
    KeysInOrder(Tally(rows));
    if rows != [] {
      var init := rows[..|rows| - 1];
      GrandTotalIsSumOfTallies(init);
      TallyStep(Tally(init), rows[|rows| - 1]);
    }
  }
}
