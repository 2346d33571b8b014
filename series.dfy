/** The range-query result shape (`data.data.result`): series with a label map and
    `[timestamp, value]` samples, and the lookups the history pipeline runs over it
    (backend/src/index.ts:72-88; api/index.ts:45-60). Sample values arrive already
    parsed by `parseFloat`. */
module Series {
  import opened Wrappers
  import opened Records
  import opened Sorting

  datatype Sample = Sample(ts: int, value: real)

  datatype PromSeries = PromSeries(metric: map<string, string>, values: seq<Sample>)

  /** `d.metric[aggregate]`; an absent label reads as "" since both are falsy and
      neither can equal a group key, which is always truthy. */
  function Label(s: PromSeries, aggregate: string): string {
    if aggregate in s.metric then s.metric[aggregate] else ""
  }

  /** `data.find(d => d.metric[aggregate] === ns)`, as an index. */
  function FindSeries(data: seq<PromSeries>, aggregate: string, ns: string): (r: Option<nat>)
    ensures r.Some? ==> r.value < |data| && Label(data[r.value], aggregate) == ns
    ensures r.Some? ==> forall j :: 0 <= j < r.value ==> Label(data[j], aggregate) != ns
    ensures r.None? ==> forall j :: 0 <= j < |data| ==> Label(data[j], aggregate) != ns
  {
    if data == [] then None
    else if Label(data[0], aggregate) == ns then Some(0)
    else match FindSeries(data[1..], aggregate, ns)
      case None => None
      case Some(i) => Some(i + 1)
  }

  /** `series.values.find(p => p[0] === time)`, as an index. */
  function FindPoint(values: seq<Sample>, ts: int): (r: Option<nat>)
    ensures r.Some? ==> r.value < |values| && values[r.value].ts == ts
    ensures r.Some? ==> forall j :: 0 <= j < r.value ==> values[j].ts != ts
    ensures r.None? ==> forall j :: 0 <= j < |values| ==> values[j].ts != ts
  {
    if values == [] then None
    else if values[0].ts == ts then Some(0)
    else match FindPoint(values[1..], ts)
      case None => None
      case Some(i) => Some(i + 1)
  }

  /** `i` is the first series labelled `ns`. */
  predicate FirstLabelled(data: seq<PromSeries>, aggregate: string, ns: string, i: int) {
    0 <= i < |data| && Label(data[i], aggregate) == ns
    && forall k :: 0 <= k < i ==> Label(data[k], aggregate) != ns
  }

  /** `j` is the first sample at `ts`. */
  predicate FirstSample(values: seq<Sample>, ts: int, j: int) {
    0 <= j < |values| && values[j].ts == ts
    && forall m :: 0 <= m < j ==> values[m].ts != ts
  }

  /** `findValue`: the value at `ts` in the first series labelled `ns`, else 0. */
  function FindValue(data: seq<PromSeries>, aggregate: string, ns: string, ts: int): (v: real)
    ensures v != 0.0 ==>
      exists i, j :: 0 <= i < |data| && 0 <= j < |data[i].values| &&
        Label(data[i], aggregate) == ns && data[i].values[j] == Sample(ts, v)
    ensures (forall i :: 0 <= i < |data| ==> Label(data[i], aggregate) != ns) ==> v == 0.0
  {
    match FindSeries(data, aggregate, ns)
    case None => 0.0
    case Some(i) =>
      match FindPoint(data[i].values, ts)
      case None => 0.0
      case Some(j) => data[i].values[j].value
  }

  /** When `i` is the first series labelled `ns`, `findValue` reads that series
      alone: the value of its first sample at `ts`, or 0 when it has none. */
  lemma FindValueFirst(data: seq<PromSeries>, aggregate: string, ns: string, ts: int, i: nat)
    requires FirstLabelled(data, aggregate, ns, i)
    ensures forall j :: FirstSample(data[i].values, ts, j) ==>
      FindValue(data, aggregate, ns, ts) == data[i].values[j].value
    ensures (forall j :: 0 <= j < |data[i].values| ==> data[i].values[j].ts != ts) ==>
      FindValue(data, aggregate, ns, ts) == 0.0
  {
    assert FindSeries(data, aggregate, ns) == Some(i);
    forall j | FirstSample(data[i].values, ts, j) ensures FindPoint(data[i].values, ts) == Some(j) {
    }
  }

  /** Only the first series with a given label is consulted: a later series with the
      same label is never read, even where the first one has no sample. */
  lemma FirstSeriesShadowsLater(ns: string, aggregate: string, ts: int, v: real)
    requires ns != "" && v != 0.0
    ensures var data := [PromSeries(map[aggregate := ns], []), PromSeries(map[aggregate := ns], [Sample(ts, v)])];
      FindValue(data, aggregate, ns, ts) == 0.0
  {
  }

  /** The group keys: the truthy labels of the CPU series, once each, in first-seen
      order (the `namespaces` Set). */
  function ObservedKeys(cpu: seq<PromSeries>, aggregate: string): (ks: seq<string>)
    ensures Distinct(ks)
    ensures forall k :: k in ks <==> k != "" && exists i :: 0 <= i < |cpu| && Label(cpu[i], aggregate) == k
  {
    if cpu == [] then []
    else
      var init := cpu[..|cpu| - 1];
      var prev := ObservedKeys(init, aggregate);
      var l := Label(cpu[|cpu| - 1], aggregate);
      assert forall i :: 0 <= i < |init| ==> init[i] == cpu[i];
      if l != "" && l !in prev then prev + [l] else prev
  }

  /** `acc` extended by the timestamps of `values` not yet in it, in order. */
  function AddTimes(acc: seq<int>, values: seq<Sample>): (r: seq<int>)
    ensures Distinct(acc) ==> Distinct(r)
    ensures forall t :: t in r <==> t in acc || exists j :: 0 <= j < |values| && values[j].ts == t
  {
    if values == [] then acc
    else
      var init := values[..|values| - 1];
      var prev := AddTimes(acc, init);
      var t := values[|values| - 1].ts;
      assert forall j :: 0 <= j < |init| ==> init[j] == values[j];
      if t in prev then prev else prev + [t]
  }

  /** The timestamps of every CPU series, labelled or not, once each, in first-seen
      order (the `timestamps` Set). */
  function ObservedTimes(cpu: seq<PromSeries>): (ts: seq<int>)
    ensures Distinct(ts)
    ensures forall t :: t in ts <==> exists i, j :: 0 <= i < |cpu| && 0 <= j < |cpu[i].values| && cpu[i].values[j].ts == t
  {
    if cpu == [] then []
    else
      var init := cpu[..|cpu| - 1];
      assert forall i :: 0 <= i < |init| ==> init[i] == cpu[i];
      AddTimes(ObservedTimes(init), cpu[|cpu| - 1].values)
  }

  /** One pass over the CPU series filling the `namespaces` and `timestamps` Sets. */
  method CollectKeysAndTimes(cpu: seq<PromSeries>, aggregate: string) returns (keys: seq<string>, times: seq<int>)
    ensures keys == ObservedKeys(cpu, aggregate)
    ensures times == ObservedTimes(cpu)
  {
    keys, times := [], [];
    var i := 0;
    while i < |cpu|
      invariant 0 <= i <= |cpu|
      invariant keys == ObservedKeys(cpu[..i], aggregate)
      invariant times == ObservedTimes(cpu[..i])
    {
      var l := Label(cpu[i], aggregate);
      if l != "" && l !in keys {
        keys := keys + [l];
      }
      var vs := cpu[i].values;
      var j := 0;
      while j < |vs|
        invariant 0 <= j <= |vs|
        invariant times == AddTimes(ObservedTimes(cpu[..i]), vs[..j])
      {
        if vs[j].ts !in times {
          times := times + [vs[j].ts];
        }
        assert vs[..j + 1][..j] == vs[..j];
        j := j + 1;
      }
      assert vs[..j] == vs;
      assert cpu[..i + 1][..i] == cpu[..i];
      i := i + 1;
    }
    assert cpu[..i] == cpu;
  }

  predicate IntLe(a: int, b: int) {
    a <= b
  }

  lemma IntLeTotalPreorder()
    ensures TotalPreorder(IntLe)
  {
  }

  /** `Array.from(timestamps).sort()`: the observed timestamps in ascending order.
      JavaScript compares them as strings, which agrees with numeric order for
      epoch seconds of equal width. */
  function SortedTimes(times: seq<int>): (r: seq<int>)
    ensures multiset(r) == multiset(times)
    ensures forall i, j :: 0 <= i < j < |r| ==> r[i] <= r[j]
  {
    IntLeTotalPreorder();
    var r := SortBy(times, IntLe);
    assert forall i, j :: 0 <= i < j < |r| ==> IntLe(r[i], r[j]);
    r
  }
}
