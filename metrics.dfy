/** `fetchPrometheusMetrics` (backend/src/index.ts:205-293; api/index.ts:140-194):
    per-namespace energy, carbon and cost from the instant CPU query, an "(Idle)" row
    for unallocated capacity, and (local server only) a memory surcharge. */
module Metrics {
  import opened Wrappers
  import opened Money
  import opened Records
  import opened Deployment

  /** One instant-query sample: its `namespace` label ("" when absent) and its
      value as `parseFloat` reads it. */
  datatype Instant = Instant(name: string, value: real)

  /** `MetricData` of the response. */
  datatype MetricData = MetricData(namespace: string, energyUsage: real, carbonEmission: real, cost: real)

  /** What the instant queries produced: a thrown error, or the CPU and memory
      results and the capacity sample (`result[0]?.value[1]`, absent when the
      result is empty). */
  datatype MetricsOutcome = MetricsFailed | MetricsAnswered(cpu: seq<Instant>, mem: seq<Instant>, capacity: Option<real>)

  const IdleKey := "(Idle)"

  /** `result.metric.namespace || 'unknown'` */
  function KeyOf(s: Instant): string {
    if s.name == "" then "unknown" else s.name
  }

  /** 4 W per busy core. */
  function Energy(cores: real): real {
    cores * 4.0
  }

  /** 475 gCO2 per kWh. */
  function Carbon(energy: real): real {
    energy / 1000.0 * 475.0
  }

  /** $0.05 per core. */
  function CoreCost(cores: real): real {
    cores * 0.05
  }

  /** $0.005 per GB of memory. */
  function MemoryCost(bytes: real): real {
    bytes / 1073741824.0 * 0.005
  }

  function Blank(ns: string): MetricData {
    MetricData(ns, 0.0, 0.0, 0.0)
  }

  /** The three `+=` of one CPU sample. */
  function AddCpu(m: MetricData, cores: real): MetricData {
    m.(energyUsage := m.energyUsage + Energy(cores),
       carbonEmission := m.carbonEmission + Carbon(Energy(cores)),
       cost := m.cost + CoreCost(cores))
  }

  /** `metricsMap` after the CPU `forEach`. */
  function CpuMap(cpu: seq<Instant>): (m: Record<string, MetricData>)
    ensures m.Valid()
  {
    if cpu == [] then Empty()
    else
      var prev := CpuMap(cpu[..|cpu| - 1]);
      var k := KeyOf(cpu[|cpu| - 1]);
      prev.Put(k, AddCpu(prev.GetOr(k, Blank(k)), cpu[|cpu| - 1].value))
  }

  /** `totalAllocatedCores` after the CPU `forEach`. */
  function Allocated(cpu: seq<Instant>): real {
    if cpu == [] then 0.0 else Allocated(cpu[..|cpu| - 1]) + cpu[|cpu| - 1].value
  }

  /** `totalCores`: the capacity sample, or 0 when there is none. */
  function Capacity(c: Option<real>): real {
    match c
    case None => 0.0
    case Some(x) => x
  }

  /** `Math.max(0, totalCores - totalAllocatedCores)` */
  function IdleCores(capacity: real, busy: real): (idle: real)
    ensures idle >= 0.0 && idle >= capacity - busy
    ensures idle == 0.0 || idle == capacity - busy
  {
    if capacity - busy > 0.0 then capacity - busy else 0.0
  }

  /** The "(Idle)" entry: 2 W per idle core, and the core price. The local server
      rounds it as it stores it; the serverless copy stores it unrounded. */
  function IdleRow(v: Variant, idle: real): MetricData {
    var energy := idle * 2.0;
    match v
    case LocalServer => MetricData(IdleKey, Round2(energy), Round2(Carbon(energy)), Round4(CoreCost(idle)))
    case Serverless => MetricData(IdleKey, energy, Carbon(energy), CoreCost(idle))
  }

  /** `metricsMap` once the "(Idle)" entry is stored: `if (idleCores > 0)` it
      replaces whatever entry that key had. */
  function AfterIdle(v: Variant, cpu: seq<Instant>, capacity: Option<real>): (r: Record<string, MetricData>)
    ensures r.Valid()
  {
    var m := CpuMap(cpu);
    var idle := IdleCores(Capacity(capacity), Allocated(cpu));
    if idle > 0.0 then m.Put(IdleKey, IdleRow(v, idle)) else m
  }

  /** The `cost +=` of one memory sample. */
  function AddMemory(m: MetricData, bytes: real): MetricData {
    m.(cost := m.cost + MemoryCost(bytes))
  }

  /** `metricsMap` after the memory `forEach` of the local server, from `base`. */
  function MemMap(base: Record<string, MetricData>, mem: seq<Instant>): (r: Record<string, MetricData>)
    requires base.Valid()
    ensures r.Valid()
  {
    if mem == [] then base
    else
      var prev := MemMap(base, mem[..|mem| - 1]);
      var k := KeyOf(mem[|mem| - 1]);
      prev.Put(k, AddMemory(prev.GetOr(k, Blank(k)), mem[|mem| - 1].value))
  }

  /** The final `map`: energy and carbon to two decimals, cost to four. */
  function Finish(m: MetricData): MetricData {
    MetricData(m.namespace, Round2(m.energyUsage), Round2(m.carbonEmission), Round4(m.cost))
  }

  /** `metricsMap` just before the final `map`. */
  function Built(v: Variant, cpu: seq<Instant>, mem: seq<Instant>, capacity: Option<real>): (r: Record<string, MetricData>)
    ensures r.Valid()
  {
    if v == LocalServer then MemMap(AfterIdle(v, cpu, capacity), mem) else AfterIdle(v, cpu, capacity)
  }

  /** Whether the function gets past the configuration check and the queries. */
  predicate Proceeds(v: Variant, configured: bool, outcome: MetricsOutcome) {
    !(v == Serverless && !configured) && outcome.MetricsAnswered?
  }

  /** What `fetchPrometheusMetrics` resolves to. */
  function Metrics(v: Variant, configured: bool, outcome: MetricsOutcome): seq<MetricData> {
    if !Proceeds(v, configured, outcome) then []
    else
      var r := Built(v, outcome.cpu, outcome.mem, outcome.capacity);
      seq(|r.order|, i requires 0 <= i < |r.order| => Finish(r.vals[r.order[i]]))
  }

  /** The CPU `forEach`: the record and the `totalAllocatedCores` accumulator. */
  method CpuPass(cpu: seq<Instant>) returns (metricsMap: Record<string, MetricData>, totalAllocatedCores: real)
    ensures metricsMap == CpuMap(cpu) && totalAllocatedCores == Allocated(cpu)
  {
    metricsMap := Empty();
    totalAllocatedCores := 0.0;
    var i := 0;
    while i < |cpu|
      invariant 0 <= i <= |cpu|
      invariant metricsMap == CpuMap(cpu[..i])
      invariant totalAllocatedCores == Allocated(cpu[..i])
    {
      var ns := KeyOf(cpu[i]);
      var cpuCores := cpu[i].value;
      totalAllocatedCores := totalAllocatedCores + cpuCores;
      var entry := if ns in metricsMap.vals then metricsMap.vals[ns] else Blank(ns);
      metricsMap := metricsMap.Put(ns, AddCpu(entry, cpuCores));
      assert cpu[..i + 1][..i] == cpu[..i];
      i := i + 1;
    }
    assert cpu[..i] == cpu;
  }

  /** The memory `forEach` of the local server. */
  method MemoryPass(m: Record<string, MetricData>, mem: seq<Instant>) returns (metricsMap: Record<string, MetricData>)
    requires m.Valid()
    ensures metricsMap == MemMap(m, mem)
  {
    metricsMap := m;
    var j := 0;
    while j < |mem|
      invariant 0 <= j <= |mem|
      invariant metricsMap == MemMap(m, mem[..j])
    {
      var ns := KeyOf(mem[j]);
      var entry := if ns in metricsMap.vals then metricsMap.vals[ns] else Blank(ns);
      metricsMap := metricsMap.Put(ns, AddMemory(entry, mem[j].value));
      assert mem[..j + 1][..j] == mem[..j];
      j := j + 1;
    }
    assert mem[..j] == mem;
  }

  /** The function as written: the passes over a mutable record, the idle row, then
      `Object.values(...).map(...)`. */
  method FetchMetrics(v: Variant, configured: bool, outcome: MetricsOutcome) returns (out: seq<MetricData>)
    ensures out == Metrics(v, configured, outcome)
    ensures !Proceeds(v, configured, outcome) ==> out == []
  {
    if v == Serverless && !configured {
      return [];
    }
    if outcome.MetricsFailed? {
      return [];
    }
    var totalCores := Capacity(outcome.capacity);
    var metricsMap, totalAllocatedCores := CpuPass(outcome.cpu);
    var idleCores := IdleCores(totalCores, totalAllocatedCores);
    if idleCores > 0.0 {
      metricsMap := metricsMap.Put(IdleKey, IdleRow(v, idleCores));
    }
    assert metricsMap == AfterIdle(v, outcome.cpu, outcome.capacity);
    if v == LocalServer {
      metricsMap := MemoryPass(metricsMap, outcome.mem);
    }
    var built := Built(v, outcome.cpu, outcome.mem, outcome.capacity);
    assert metricsMap == built;
    out := FinishAll(metricsMap.Values());
    assert |out| == |built.order|;
    assert forall i :: 0 <= i < |out| ==> out[i] == Finish(built.vals[built.order[i]]);
  }

  /** The final `.map(...)`: each entry rounded for output. */
  method FinishAll(values: seq<MetricData>) returns (out: seq<MetricData>)
    ensures |out| == |values|
    ensures forall m :: 0 <= m < |values| ==> out[m] == Finish(values[m])
  {
    out := [];
    var k := 0;
    while k < |values|
      invariant 0 <= k <= |values|
      invariant |out| == k
      invariant forall m :: 0 <= m < k ==> out[m] == Finish(values[m])
    {
      out := out + [Finish(values[k])];
      k := k + 1;
    }
  }

  /** The cores reported for key `k`. */
  function CoresOf(cpu: seq<Instant>, k: string): real {
    if cpu == [] then 0.0
    else CoresOf(cpu[..|cpu| - 1], k) + (if KeyOf(cpu[|cpu| - 1]) == k then cpu[|cpu| - 1].value else 0.0)
  }

  /** The bytes reported for key `k`. */
  function BytesOf(mem: seq<Instant>, k: string): real {
    if mem == [] then 0.0
    else BytesOf(mem[..|mem| - 1], k) + (if KeyOf(mem[|mem| - 1]) == k then mem[|mem| - 1].value else 0.0)
  }

  predicate Reports(samples: seq<Instant>, k: string) {
    exists i :: 0 <= i < |samples| && KeyOf(samples[i]) == k
  }

  /** The CPU pass has an entry exactly for the keys some sample reports, holding
      the energy, carbon and cost of that key's total cores. */
  lemma {:induction false} CpuMapEntry(cpu: seq<Instant>, k: string)
    ensures k in CpuMap(cpu).vals <==> Reports(cpu, k)
    ensures k in CpuMap(cpu).vals ==>
      var c := CoresOf(cpu, k);
      CpuMap(cpu).vals[k] == MetricData(k, Energy(c), Carbon(Energy(c)), CoreCost(c))
    ensures k !in CpuMap(cpu).vals ==> CoresOf(cpu, k) == 0.0
  {
    if cpu != [] {
      var init := cpu[..|cpu| - 1];
      var s := cpu[|cpu| - 1];
      var prev := CpuMap(init);
      CpuMapEntry(init, k);
      ReportsSnoc(cpu, k);
      assert CpuMap(cpu).vals == prev.vals[KeyOf(s) := AddCpu(prev.GetOr(KeyOf(s), Blank(KeyOf(s))), s.value)];
      assert CoresOf(cpu, k) == CoresOf(init, k) + (if KeyOf(s) == k then s.value else 0.0);
      if KeyOf(s) == k {
        CpuEntryStep(k, CoresOf(init, k), s.value);
      }
    }
  }

  /** The entry of `c` cores, after one more sample of `x` cores, is the entry of
      `c + x` cores. */
  lemma CpuEntryStep(k: string, c: real, x: real)
    ensures AddCpu(MetricData(k, Energy(c), Carbon(Energy(c)), CoreCost(c)), x)
         == MetricData(k, Energy(c + x), Carbon(Energy(c + x)), CoreCost(c + x))
    ensures Blank(k) == MetricData(k, Energy(0.0), Carbon(Energy(0.0)), CoreCost(0.0))
  {
  }

  /** A key is reported by some sample exactly when it is reported before the last
      one or by the last one. */
  lemma ReportsSnoc(samples: seq<Instant>, k: string)
    requires samples != []
    ensures Reports(samples, k) <==>
      Reports(samples[..|samples| - 1], k) || KeyOf(samples[|samples| - 1]) == k
  {
    var init := samples[..|samples| - 1];
    if Reports(samples, k) && KeyOf(samples[|samples| - 1]) != k {
      var i :| 0 <= i < |samples| && KeyOf(samples[i]) == k;
      assert init[i] == samples[i];
    }
    if Reports(init, k) {
      var i :| 0 <= i < |init| && KeyOf(init[i]) == k;
      assert samples[i] == init[i];
    }
  }

  /** The memory pass adds each key's memory cost to its entry, creating entries
      for keys with memory but no CPU sample, and changes nothing else. */
  lemma MemMapEntry(base: Record<string, MetricData>, mem: seq<Instant>, k: string)
    requires base.Valid()
    ensures k in MemMap(base, mem).vals <==> k in base.vals || Reports(mem, k)
    ensures k in MemMap(base, mem).vals ==>
      MemMap(base, mem).vals[k] == AddMemory(base.GetOr(k, Blank(k)), BytesOf(mem, k))
  {
    MemMapKeys(base, mem, k);
    if k in MemMap(base, mem).vals {
      MemMapValue(base, mem, k);
    }
  }

  lemma {:induction false} MemMapKeys(base: Record<string, MetricData>, mem: seq<Instant>, k: string)
    requires base.Valid()
    ensures k in MemMap(base, mem).vals <==> k in base.vals || Reports(mem, k)
  {
    if mem != [] {
      var init := mem[..|mem| - 1];
      var s := mem[|mem| - 1];
      var prev := MemMap(base, init);
      MemMapKeys(base, init, k);
      ReportsSnoc(mem, k);
      assert MemMap(base, mem).vals == prev.vals[KeyOf(s) := AddMemory(prev.GetOr(KeyOf(s), Blank(KeyOf(s))), s.value)];
    }
  }

  lemma AddMemoryTwice(e: MetricData, a: real, b: real)
    ensures AddMemory(AddMemory(e, a), b) == AddMemory(e, a + b)
  {
  }

  lemma {:induction false} MemMapValue(base: Record<string, MetricData>, mem: seq<Instant>, k: string)
    requires base.Valid() && k in MemMap(base, mem).vals
    ensures MemMap(base, mem).vals[k] == AddMemory(base.GetOr(k, Blank(k)), BytesOf(mem, k))
  {
    if mem == [] {
      assert BytesOf(mem, k) == 0.0;
    } else {
      var init := mem[..|mem| - 1];
      var last := mem[|mem| - 1];
      var prev := MemMap(base, init);
      var e := base.GetOr(k, Blank(k));
      MemMapKeys(base, init, k);
      if KeyOf(last) == k {
        if k in prev.vals {
          MemMapValue(base, init, k);
        } else {
          assert forall i :: 0 <= i < |init| ==> init[i] == mem[i];
          BytesOfUnreported(init, k);
          assert e == Blank(k);
        }
        assert prev.GetOr(k, Blank(k)) == AddMemory(e, BytesOf(init, k));
        AddMemoryTwice(e, BytesOf(init, k), last.value);
      } else {
        MemMapValue(base, init, k);
      }
    }
  }

  /** The entry of an ordinary key (not "(Idle)"): energy and carbon of its cores,
      and the price of its cores plus, on the local server only, of its memory. */
  lemma KeyEntry(v: Variant, cpu: seq<Instant>, mem: seq<Instant>, capacity: Option<real>, k: string)
    requires k != IdleKey
    ensures k in Built(v, cpu, mem, capacity).vals <==> Reports(cpu, k) || (v == LocalServer && Reports(mem, k))
    ensures k in Built(v, cpu, mem, capacity).vals ==>
      var c := CoresOf(cpu, k);
      var extra := if v == LocalServer then MemoryCost(BytesOf(mem, k)) else 0.0;
      Built(v, cpu, mem, capacity).vals[k] == MetricData(k, Energy(c), Carbon(Energy(c)), CoreCost(c) + extra)
  {
    CpuMapEntry(cpu, k);
    var m := AfterIdle(v, cpu, capacity);
    assert k in m.vals <==> k in CpuMap(cpu).vals;
    assert k in m.vals ==> m.vals[k] == CpuMap(cpu).vals[k];
    if v == LocalServer {
      MemMapEntry(m, mem, k);
    }
  }

  /** With no series labelled "(Idle)", the "(Idle)" row is present exactly when the
      capacity exceeds the allocated cores, and both deployments then report the
      same rounded row: the local server's early rounding is absorbed by the final
      one. */
  lemma IdleEntry(v: Variant, cpu: seq<Instant>, mem: seq<Instant>, capacity: Option<real>)
    requires !Reports(cpu, IdleKey) && !Reports(mem, IdleKey)
    ensures IdleKey in Built(v, cpu, mem, capacity).vals <==> Capacity(capacity) - Allocated(cpu) > 0.0
    ensures Capacity(capacity) - Allocated(cpu) > 0.0 ==>
      Finish(Built(v, cpu, mem, capacity).vals[IdleKey]) == IdleFinished(Capacity(capacity) - Allocated(cpu))
  {
    var excess := Capacity(capacity) - Allocated(cpu);
    var b := Built(v, cpu, mem, capacity);
    IdleStored(v, cpu, mem, capacity);
    assert IdleCores(Capacity(capacity), Allocated(cpu)) > 0.0 <==> excess > 0.0;
    if excess > 0.0 {
      assert b.vals[IdleKey] == IdleRow(v, excess);
      IdleRounding(v, excess);
    }
  }

  /** The stored "(Idle)" entry, before the final rounding. */
  lemma IdleStored(v: Variant, cpu: seq<Instant>, mem: seq<Instant>, capacity: Option<real>)
    requires !Reports(cpu, IdleKey) && !Reports(mem, IdleKey)
    ensures var idle := IdleCores(Capacity(capacity), Allocated(cpu));
      && (IdleKey in Built(v, cpu, mem, capacity).vals <==> idle > 0.0)
      && (idle > 0.0 ==> Built(v, cpu, mem, capacity).vals[IdleKey] == IdleRow(v, idle))
  {
    CpuMapEntry(cpu, IdleKey);
    var idle := IdleCores(Capacity(capacity), Allocated(cpu));
    var m := AfterIdle(v, cpu, capacity);
    assert IdleKey in m.vals <==> idle > 0.0;
    assert idle > 0.0 ==> m.vals[IdleKey] == IdleRow(v, idle);
    if v == LocalServer {
      MemMapEntry(m, mem, IdleKey);
      BytesOfUnreported(mem, IdleKey);
      if idle > 0.0 {
        assert AddMemory(IdleRow(v, idle), 0.0) == IdleRow(v, idle);
      }
    }
  }

  /** The reported "(Idle)" row: 2 W per idle core and the core price, rounded once. */
  function IdleFinished(idle: real): MetricData {
    MetricData(IdleKey, Round2(idle * 2.0), Round2(Carbon(idle * 2.0)), Round4(CoreCost(idle)))
  }

  /** Rounding the idle row on storage and again on output is rounding it once. */
  lemma IdleRounding(v: Variant, idle: real)
    ensures Finish(IdleRow(v, idle)) == IdleFinished(idle)
  {
    if v == LocalServer {
      Round2Idempotent(idle * 2.0);
      Round2Idempotent(Carbon(idle * 2.0));
      Round4Idempotent(CoreCost(idle));
    }
  }

  lemma {:induction false} BytesOfUnreported(mem: seq<Instant>, k: string)
    requires !Reports(mem, k)
    ensures BytesOf(mem, k) == 0.0
  {
    if mem != [] {
      var init := mem[..|mem| - 1];
      assert forall i :: 0 <= i < |init| ==> init[i] == mem[i];
      BytesOfUnreported(init, k);
    }
  }

  /** The result is empty exactly when the function returned early or had nothing
      to report: no CPU sample, no positive capacity and, on the local server, no
      memory sample. */
  lemma MetricsEmptyIff(v: Variant, configured: bool, outcome: MetricsOutcome)
    ensures Metrics(v, configured, outcome) == [] <==>
      || !Proceeds(v, configured, outcome)
      || (&& outcome.cpu == []
          && Capacity(outcome.capacity) <= 0.0
          && (v == LocalServer ==> outcome.mem == []))
  {
    if Proceeds(v, configured, outcome) {
      var cpu, mem, capacity := outcome.cpu, outcome.mem, outcome.capacity;
      var b := Built(v, cpu, mem, capacity);
      KeysInOrder(b);
      if cpu != [] {
        var k := KeyOf(cpu[|cpu| - 1]);
        CpuMapEntry(cpu, k);
        BuiltKeeps(v, cpu, mem, capacity, k);
      } else if Capacity(capacity) > 0.0 {
        BuiltKeeps(v, cpu, mem, capacity, IdleKey);
      } else if v == LocalServer && mem != [] {
        var k := KeyOf(mem[|mem| - 1]);
        MemMapEntry(AfterIdle(v, cpu, capacity), mem, k);
      }
    }
  }

  /** A key of the CPU pass, or "(Idle)" once stored, stays in the record. */
  lemma BuiltKeeps(v: Variant, cpu: seq<Instant>, mem: seq<Instant>, capacity: Option<real>, k: string)
    requires k in CpuMap(cpu).vals || (k == IdleKey && IdleCores(Capacity(capacity), Allocated(cpu)) > 0.0)
    ensures k in Built(v, cpu, mem, capacity).vals
  {
    var m := AfterIdle(v, cpu, capacity);
    assert k in m.vals;
    if v == LocalServer {
      MemMapEntry(m, mem, k);
    }
  }
}
