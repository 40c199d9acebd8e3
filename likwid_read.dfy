/**
 * The read callback of the LIKWID plugin (likwid_plugin_read,
 * c/likwid.c:559-731). Phase 1 runs through the measured values group by
 * group, hardware thread by thread and metric by metric, in that order;
 * each value is filtered and then submitted at once, or summed into a
 * per-core slot or a FLOPS slot. Phase 2 submits and clears the per-core
 * slots, phase 3 the FLOPS slots.
 *
 * The loops are specified here by one fold over the list of samples in
 * loop order, which makes the effect on every accumulator slot a property
 * of that list alone (FoldSlot).
 */
module LikwidRead {
  import opened Util
  import opened Floats
  import opened LikwidMetrics

  /** The plugin state the read callback consults but does not change. */
  datatype View = View(
    groups: seq<Group>,
    normalize: bool,
    summarizeFlops: bool,
    summarizePerCore: bool,
    flopsName: string,
    hwThreads: seq<int>,
    socketThreads: seq<int>,
    coreIndices: seq<int>,
    coreIds: seq<int>,
    numCores: nat)

  /**
   * The thread-to-core tables as _init_likwid leaves them: per-core
   * summation has one core index below numCores per thread and no more
   * cores than threads; without it there are no cores.
   */
  predicate WellFormed(v: View) {
    |v.coreIds| == v.numCores &&
    (v.summarizePerCore ==>
       |v.coreIndices| == |v.hwThreads| && v.numCores <= |v.hwThreads| &&
       forall c :: 0 <= c < |v.coreIndices| ==> 0 <= v.coreIndices[c] < v.numCores) &&
    (!v.summarizePerCore ==> v.numCores == 0)
  }

  /** perCoreValues: one slot per core for every metric of every group. */
  predicate CoreShaped(v: View, pc: seq<seq<seq<real>>>) {
    |pc| == |v.groups| &&
    forall g :: 0 <= g < |pc| ==>
      |pc[g]| == |v.groups[g].metrics| &&
      forall m :: 0 <= m < |pc[g]| ==> |pc[g][m]| == v.numCores
  }

  /** flopsValues: one slot per hardware thread while FLOPS are summarized, else none. */
  predicate FlopsShaped(v: View, flops: seq<real>) {
    |flops| == if v.summarizeFlops then |v.hwThreads| else 0
  }

  /** The accumulators and the submissions so far. */
  datatype Acc = Acc(flops: seq<real>, perCore: seq<seq<seq<real>>>, out: seq<Submission>)

  /** One measured value: group, thread and metric index, and what perfmon returned. */
  datatype Sample = Sample(g: nat, c: nat, m: nat, v: Float)

  /** An accumulator slot: flopsValues[i], or perCoreValues of metric m of group g at core k. */
  datatype Slot = FlopsSlot(i: int) | CoreSlot(g: nat, m: nat, k: int)

  /** Where one sample goes. */
  datatype Route = Skip | Submit(s: Submission) | Into(slot: Slot, v: real)

  /** The name a metric is submitted under: FLOPS metrics take the normalized name while normalization is on. */
  function SubmitName(v: View, metric: Metric): string {
    if metric.xFlops > 0 && v.normalize then v.flopsName else metric.name
  }

  /** Does a sample lie inside the plugin's tables? Those from ReadSamples always do. */
  predicate InRange(v: View, x: Sample) {
    x.g < |v.groups| && x.m < |v.groups[x.g].metrics| && x.c < |v.hwThreads| &&
    (v.summarizePerCore ==> x.c < |v.coreIndices|)
  }

  /**
   * The body of the phase-1 loop for one sample: the filter of Admit, then
   * FLOPS metrics go to their thread's (or core's) FLOPS slot while FLOPS
   * are summarized, other values to their core's slot under per-core
   * summation, and the rest are submitted for their hardware thread.
   */
  function RouteOf(v: View, x: Sample, time: nat): (r: Route)
    ensures r.Submit? ==> InRange(v, x) && r.s.time == time && r.s.cpu == v.hwThreads[x.c] && !v.summarizePerCore
    ensures r.Into? && r.slot.FlopsSlot? ==>
              InRange(v, x) && v.summarizeFlops && v.groups[x.g].metrics[x.m].xFlops > 0 &&
              r.slot.i == if v.summarizePerCore then v.coreIndices[x.c] else x.c
    ensures r.Into? && r.slot.CoreSlot? ==>
              InRange(v, x) && v.summarizePerCore &&
              !(v.summarizeFlops && v.groups[x.g].metrics[x.m].xFlops > 0) &&
              r.slot == CoreSlot(x.g, x.m, v.coreIndices[x.c])
    ensures InRange(v, x) ==>
              (r.Skip? <==> Admit(v.groups[x.g].metrics[x.m], HasSocketData(v.socketThreads, x.c), v.normalize, x.v).None?)
    ensures r.Submit? ==>
              var metric := v.groups[x.g].metrics[x.m];
              r.s == Submission(MeasurementName(metric), SubmitName(v, metric), v.hwThreads[x.c],
                                Admit(metric, HasSocketData(v.socketThreads, x.c), v.normalize, x.v).value, time)
    ensures r.Into? ==> r.v == Admit(v.groups[x.g].metrics[x.m], HasSocketData(v.socketThreads, x.c), v.normalize, x.v).value
  {
    if !InRange(v, x) then Skip
    else
      var metric := v.groups[x.g].metrics[x.m];
      match Admit(metric, HasSocketData(v.socketThreads, x.c), v.normalize, x.v)
      case None => Skip
      case Some(value) =>
        if metric.xFlops > 0 && v.summarizeFlops then
          Into(FlopsSlot(if v.summarizePerCore then v.coreIndices[x.c] else x.c), value)
        else if v.summarizePerCore then
          Into(CoreSlot(x.g, x.m, v.coreIndices[x.c]), value)
        else
          Submit(Submission(MeasurementName(metric), SubmitName(v, metric), v.hwThreads[x.c], value, time))
  }

  predicate HasSlot(a: Acc, s: Slot) {
    match s
    case FlopsSlot(i) => 0 <= i < |a.flops|
    case CoreSlot(g, m, k) => g < |a.perCore| && m < |a.perCore[g]| && 0 <= k < |a.perCore[g][m]|
  }

  function SlotValue(a: Acc, s: Slot): real {
    if !HasSlot(a, s) then Empty
    else match s
      case FlopsSlot(i) => a.flops[i]
      case CoreSlot(g, m, k) => a.perCore[g][m][k]
  }

  /** Accumulators with the same number of slots everywhere. */
  predicate SameShape(a: Acc, b: Acc) {
    |a.flops| == |b.flops| && |a.perCore| == |b.perCore| &&
    forall g :: 0 <= g < |a.perCore| ==>
      |a.perCore[g]| == |b.perCore[g]| &&
      forall m :: 0 <= m < |a.perCore[g]| ==> |a.perCore[g][m]| == |b.perCore[g][m]|
  }

  /** Writes one slot; the write of a slot outside the arrays never happens and changes nothing. */
  function Store(a: Acc, s: Slot, value: real): (r: Acc)
    ensures SameShape(a, r) && r.out == a.out
    ensures HasSlot(a, s) ==> SlotValue(r, s) == value
    ensures forall t :: t != s ==> SlotValue(r, t) == SlotValue(a, t)
  {
    if !HasSlot(a, s) then a
    else match s
      case FlopsSlot(i) => a.(flops := a.flops[i := value])
      case CoreSlot(g, m, k) => a.(perCore := a.perCore[g := a.perCore[g][m := a.perCore[g][m][k := value]]])
  }

  /** One route taken: a submission goes through _submit_value, a value into its slot. */
  function Step(a: Acc, r: Route): Acc {
    match r
    case Skip => a
    case Submit(s) => a.(out := a.out + Dispatch(s))
    case Into(s, value) => Store(a, s, Accumulate(SlotValue(a, s), value))
  }

  /** Phase 1 over samples xs in order. */
  function Fold(v: View, a: Acc, xs: seq<Sample>, time: nat): (r: Acc)
    ensures SameShape(a, r)
  {
    if |xs| == 0 then a
    else Step(Fold(v, a, xs[..|xs| - 1], time), RouteOf(v, xs[|xs| - 1], time))
  }

  /** The values routed into slot s, in order. */
  function RoutedTo(v: View, xs: seq<Sample>, s: Slot, time: nat): seq<real> {
    if |xs| == 0 then []
    else
      var r := RouteOf(v, xs[|xs| - 1], time);
      RoutedTo(v, xs[..|xs| - 1], s, time) + (if r.Into? && r.slot == s then [r.v] else [])
  }

  /** The submissions phase 1 hands to collectd, in order. */
  function Submitted(v: View, xs: seq<Sample>, time: nat): (out: seq<Submission>)
    ensures forall s :: s in out ==> s.value != Empty && s.time == time && !v.summarizePerCore
  {
    if |xs| == 0 then []
    else
      var r := RouteOf(v, xs[|xs| - 1], time);
      Submitted(v, xs[..|xs| - 1], time) + (if r.Submit? then Dispatch(r.s) else [])
  }

  /**
   * Every slot that starts empty ends holding the values routed into it,
   * accumulated in loop order: the first overwrites the sentinel, the
   * others add.
   */
  lemma {:induction false} FoldSlot(v: View, a: Acc, xs: seq<Sample>, s: Slot, time: nat)
    requires HasSlot(a, s) && SlotValue(a, s) == Empty
    ensures SlotValue(Fold(v, a, xs, time), s) == AccumulateAll(RoutedTo(v, xs, s, time))
  {
    if |xs| > 0 {
      var n := |xs| - 1;
      FoldSlot(v, a, xs[..n], s, time);
      var before := Fold(v, a, xs[..n], time);
      assert HasSlot(before, s);
      var vs := RoutedTo(v, xs[..n], s, time);
      var r := RouteOf(v, xs[n], time);
      if r.Into? && r.slot == s {
        assert (vs + [r.v])[..|vs|] == vs;
      } else {
        assert vs + [] == vs;
      }
    }
  }

  /** Phase 1 submits exactly the values routed to collectd directly, in order. */
  lemma {:induction false} FoldOut(v: View, a: Acc, xs: seq<Sample>, time: nat)
    ensures Fold(v, a, xs, time).out == a.out + Submitted(v, xs, time)
  {
    if |xs| > 0 {
      FoldOut(v, a, xs[..|xs| - 1], time);
    }
  }

  /** A slot no sample is routed into receives nothing. */
  lemma {:induction false} NothingRouted(v: View, xs: seq<Sample>, s: Slot, time: nat)
    requires forall i :: 0 <= i < |xs| ==> !(RouteOf(v, xs[i], time).Into? && RouteOf(v, xs[i], time).slot == s)
    ensures RoutedTo(v, xs, s, time) == []
  {
    if |xs| > 0 {
      NothingRouted(v, xs[..|xs| - 1], s, time);
    }
  }

  /** The samples of one thread of group g: metrics 0 to count - 1, read from perfmon's last results for event set gid. */
  function ThreadSamples(gid: int, g: nat, c: nat, count: nat, measure: (int, nat, nat) -> Float): (xs: seq<Sample>)
    ensures |xs| == count
    ensures forall i :: 0 <= i < |xs| ==> xs[i] == Sample(g, c, i, measure(gid, i, c))
  {
    if count == 0 then [] else ThreadSamples(gid, g, c, count - 1, measure) + [Sample(g, c, count - 1, measure(gid, count - 1, c))]
  }

  /** The samples of group g for threads 0 to threads - 1. */
  function GroupSamples(gid: int, g: nat, count: nat, threads: nat, measure: (int, nat, nat) -> Float): (xs: seq<Sample>)
    ensures forall i :: 0 <= i < |xs| ==> xs[i].g == g && xs[i].c < threads && xs[i].m < count
  {
    if threads == 0 then []
    else GroupSamples(gid, g, count, threads - 1, measure) + ThreadSamples(gid, g, threads - 1, count, measure)
  }

  /** Only groups with an event set whose counters could be set up are measured. */
  predicate Measured(v: View, g: nat, setupCounters: int -> bool)
    requires g < |v.groups|
  {
    v.groups[g].id >= 0 && setupCounters(v.groups[g].id)
  }

  /** The samples of groups 0 to count - 1, in the order of the read loops. */
  function ReadSamples(v: View, count: nat, setupCounters: int -> bool, measure: (int, nat, nat) -> Float): (xs: seq<Sample>)
    requires count <= |v.groups|
    ensures forall i :: 0 <= i < |xs| ==>
              xs[i].g < count && xs[i].m < |v.groups[xs[i].g].metrics| && xs[i].c < |v.hwThreads|
  {
    if count == 0 then []
    else
      var g := count - 1;
      ReadSamples(v, g, setupCounters, measure) +
      (if Measured(v, g, setupCounters) then GroupSamples(v.groups[g].id, g, |v.groups[g].metrics|, |v.hwThreads|, measure) else [])
  }

  /** Fold over two lists in turn. */
  lemma {:induction false} FoldAppend(v: View, a: Acc, xs: seq<Sample>, ys: seq<Sample>, time: nat)
    ensures Fold(v, a, xs + ys, time) == Fold(v, Fold(v, a, xs, time), ys, time)
  {
    hide RouteOf;
    if |ys| == 0 {
      assert xs + ys == xs;
    } else {
      var n := |ys| - 1;
      assert (xs + ys)[..|xs + ys| - 1] == xs + ys[..n];
      FoldAppend(v, a, xs, ys[..n], time);
    }
  }

  lemma NoSamples(v: View, a: Acc, gid: int, g: nat, count: nat, setupCounters: int -> bool, measure: (int, nat, nat) -> Float, time: nat)
    ensures Fold(v, a, [], time) == a && GroupSamples(gid, g, count, 0, measure) == [] && ReadSamples(v, 0, setupCounters, measure) == []
  {
  }

  lemma GroupSamplesStep(gid: int, g: nat, count: nat, threads: nat, measure: (int, nat, nat) -> Float)
    ensures GroupSamples(gid, g, count, threads + 1, measure) ==
            GroupSamples(gid, g, count, threads, measure) + ThreadSamples(gid, g, threads, count, measure)
  {
  }

  lemma ReadSamplesStep(v: View, g: nat, setupCounters: int -> bool, measure: (int, nat, nat) -> Float)
    requires g < |v.groups|
    ensures ReadSamples(v, g + 1, setupCounters, measure) ==
            if Measured(v, g, setupCounters)
            then ReadSamples(v, g, setupCounters, measure) + GroupSamples(v.groups[g].id, g, |v.groups[g].metrics|, |v.hwThreads|, measure)
            else ReadSamples(v, g, setupCounters, measure)
  {
    assert ReadSamples(v, g, setupCounters, measure) + [] == ReadSamples(v, g, setupCounters, measure);
  }

  lemma ShapeKept(v: View, a: Acc, b: Acc)
    requires SameShape(a, b) && CoreShaped(v, a.perCore) && FlopsShaped(v, a.flops)
    ensures CoreShaped(v, b.perCore) && FlopsShaped(v, b.flops)
  {
  }

  /** A value that passes the three filters is admitted, scaled when normalized and positive. */
  lemma AdmitPasses(metric: Metric, hasSocketData: bool, normalize: bool, x: Float)
    requires (metric.perCpu || hasSocketData) && x.Fin? && !Above(x.r, metric.maxValue)
    ensures Admit(metric, hasSocketData, normalize, x) ==
            if metric.xFlops > 1 && normalize && x.r > 0.0 then Some(x.r * metric.xFlops as real) else Some(x.r)
  {
  }

  /** The filter at the top of the phase-1 loop body (c/likwid.c:611-647). */
  method AdmitSample(metric: Metric, hasSocketData: bool, normalize: bool, x: Float) returns (value: Option<real>)
    ensures value == Admit(metric, hasSocketData, normalize, x)
  {
    if !metric.perCpu && !hasSocketData {
      return None;
    }
    if !IsFinite(x) {
      return None;
    }
    var r := x.r;
    if Above(r, metric.maxValue) {
      return None;
    }
    if metric.xFlops > 0 && normalize && metric.xFlops > 1 && r > 0.0 {
      r := r * metric.xFlops as real;
    }
    AdmitPasses(metric, hasSocketData, normalize, x);
    assert r == if metric.xFlops > 1 && normalize && x.r > 0.0 then x.r * metric.xFlops as real else x.r;
    return Some(r);
  }

  /** The body of the phase-1 loops for one measured value (c/likwid.c:601-682). */
  method TakeSample(v: View, a: Acc, x: Sample, time: nat) returns (b: Acc)
    requires WellFormed(v) && InRange(v, x) && CoreShaped(v, a.perCore) && FlopsShaped(v, a.flops)
    ensures b == Step(a, RouteOf(v, x, time))
  {
    b := a;
    var metric := v.groups[x.g].metrics[x.m];
    var admitted := AdmitSample(metric, HasSocketData(v.socketThreads, x.c), v.normalize, x.v);
    if admitted.None? {
      return;
    }
    var value := admitted.value;
    var name := metric.name;
    if metric.xFlops > 0 {
      if v.normalize {
        name := v.flopsName;
      }
      if v.summarizeFlops {
        var idx := x.c;
        if v.summarizePerCore {
          idx := v.coreIndices[x.c];
        }
        assert RouteOf(v, x, time) == Into(FlopsSlot(idx), value);
        assert HasSlot(a, FlopsSlot(idx));
        if a.flops[idx] == Empty {
          b := a.(flops := a.flops[idx := value]);
        } else {
          b := a.(flops := a.flops[idx := a.flops[idx] + value]);
        }
        return;
      }
    }
    if v.summarizePerCore {
      var k := v.coreIndices[x.c];
      assert RouteOf(v, x, time) == Into(CoreSlot(x.g, x.m, k), value);
      assert HasSlot(a, CoreSlot(x.g, x.m, k));
      var slots := a.perCore[x.g][x.m];
      if slots[k] == Empty {
        slots := slots[k := value];
      } else {
        slots := slots[k := slots[k] + value];
      }
      b := a.(perCore := a.perCore[x.g := a.perCore[x.g][x.m := slots]]);
    } else {
      b := a.(out := a.out + Dispatch(Submission(MeasurementName(metric), name, v.hwThreads[x.c], value, time)));
    }
  }

  /** The metric loop for thread c of group g. */
  method ReadThread(v: View, a: Acc, gid: int, g: nat, c: nat, measure: (int, nat, nat) -> Float, time: nat) returns (b: Acc)
    requires WellFormed(v) && g < |v.groups| && c < |v.hwThreads| && CoreShaped(v, a.perCore) && FlopsShaped(v, a.flops)
    ensures b == Fold(v, a, ThreadSamples(gid, g, c, |v.groups[g].metrics|, measure), time)
  {
    b := a;
    var m := 0;
    while m < |v.groups[g].metrics|
      invariant 0 <= m <= |v.groups[g].metrics|
      invariant b == Fold(v, a, ThreadSamples(gid, g, c, m, measure), time)
    {
      ShapeKept(v, a, b);
      var x := Sample(g, c, m, measure(gid, m, c));
      b := TakeSample(v, b, x, time);
      assert (ThreadSamples(gid, g, c, m, measure) + [x])[..m] == ThreadSamples(gid, g, c, m, measure);
      m := m + 1;
    }
  }

  /** The thread loop for group g. */
  method ReadGroup(v: View, a: Acc, g: nat, measure: (int, nat, nat) -> Float, time: nat) returns (b: Acc)
    requires WellFormed(v) && g < |v.groups| && CoreShaped(v, a.perCore) && FlopsShaped(v, a.flops)
    ensures b == Fold(v, a, GroupSamples(v.groups[g].id, g, |v.groups[g].metrics|, |v.hwThreads|, measure), time)
  {
    hide Fold, GroupSamples, ThreadSamples, ReadSamples;
    var gid := v.groups[g].id;
    var count := |v.groups[g].metrics|;
    b := a;
    var c := 0;
    NoSamples(v, a, gid, g, count, x => true, measure, time);
    while c < |v.hwThreads|
      invariant 0 <= c <= |v.hwThreads|
      invariant b == Fold(v, a, GroupSamples(gid, g, count, c, measure), time)
    {
      ShapeKept(v, a, b);
      b := ReadThread(v, b, gid, g, c, measure, time);
      FoldAppend(v, a, GroupSamples(gid, g, count, c, measure), ThreadSamples(gid, g, c, count, measure), time);
      GroupSamplesStep(gid, g, count, c, measure);
      c := c + 1;
    }
  }

  /** Phase 1: the group loop; groups without an event set or whose counters fail to set up are passed over. */
  method ReadGroups(v: View, a: Acc, setupCounters: int -> bool, measure: (int, nat, nat) -> Float, time: nat) returns (b: Acc)
    requires WellFormed(v) && CoreShaped(v, a.perCore) && FlopsShaped(v, a.flops)
    ensures b == Fold(v, a, ReadSamples(v, |v.groups|, setupCounters, measure), time)
  {
    hide Fold, GroupSamples, ThreadSamples, ReadSamples;
    b := a;
    var g := 0;
    NoSamples(v, a, 0, 0, 0, setupCounters, measure, time);
    while g < |v.groups|
      invariant 0 <= g <= |v.groups|
      invariant b == Fold(v, a, ReadSamples(v, g, setupCounters, measure), time)
    {
      var gid := v.groups[g].id;
      if gid >= 0 && setupCounters(gid) {
        ShapeKept(v, a, b);
        b := ReadGroup(v, b, g, measure, time);
        FoldAppend(v, a, ReadSamples(v, g, setupCounters, measure),
                   GroupSamples(gid, g, |v.groups[g].metrics|, |v.hwThreads|, measure), time);
      }
      ReadSamplesStep(v, g, setupCounters, measure);
      g := g + 1;
    }
  }

  /** perCoreValues of one group: one slot per core for each of its metrics. */
  predicate GroupShaped(v: View, g: nat, pcg: seq<seq<real>>) {
    g < |v.groups| && |pcg| == |v.groups[g].metrics| &&
    forall m :: 0 <= m < |pcg| ==> |pcg[m]| == v.numCores
  }

  /** Phase 2 passes over FLOPS metrics while FLOPS are summarized: their values went to the FLOPS slots. */
  predicate Skipped(v: View, g: nat, m: nat)
    requires g < |v.groups| && m < |v.groups[g].metrics|
  {
    v.groups[g].metrics[m].xFlops > 0 && v.summarizeFlops
  }

  /** Phase 2 for core c of group g, metrics 0 to count - 1. */
  function CoreOut(v: View, pcg: seq<seq<real>>, g: nat, c: nat, count: nat, time: nat): (out: seq<Submission>)
    requires WellFormed(v) && GroupShaped(v, g, pcg) && count <= |pcg| && c < v.numCores
    ensures forall s :: s in out ==> s.value != Empty && s.time == time && s.cpu == v.coreIds[c]
  {
    if count == 0 then []
    else
      var m := count - 1;
      var metric := v.groups[g].metrics[m];
      CoreOut(v, pcg, g, c, m, time) +
      (if Skipped(v, g, m) then []
       else Dispatch(Submission(MeasurementName(metric), SubmitName(v, metric), v.coreIds[c], pcg[m][c], time)))
  }

  /** Phase 2 for group g, cores 0 to cores - 1. */
  function GroupCoresOut(v: View, pcg: seq<seq<real>>, g: nat, cores: nat, time: nat): (out: seq<Submission>)
    requires WellFormed(v) && GroupShaped(v, g, pcg) && cores <= v.numCores
    ensures forall s :: s in out ==> s.value != Empty && s.time == time
  {
    if cores == 0 then [] else GroupCoresOut(v, pcg, g, cores - 1, time) + CoreOut(v, pcg, g, cores - 1, |pcg|, time)
  }

  /** Phase 2, groups 0 to count - 1: every per-core slot not passed over goes through _submit_value. */
  function PerCoreOut(v: View, pc: seq<seq<seq<real>>>, count: nat, time: nat): (out: seq<Submission>)
    requires WellFormed(v) && CoreShaped(v, pc) && count <= |pc|
    ensures forall s :: s in out ==> s.value != Empty && s.time == time
  {
    if count == 0 then []
    else
      assert GroupShaped(v, count - 1, pc[count - 1]);
      PerCoreOut(v, pc, count - 1, time) + GroupCoresOut(v, pc[count - 1], count - 1, v.numCores, time)
  }

  /**
   * The slots of group g after phase 2 reached core c, metric mm: those
   * before it in loop order are cleared, unless passed over; the others
   * are as they were.
   */
  predicate ClearedUpTo(v: View, g: nat, before: seq<seq<real>>, after: seq<seq<real>>, c: nat, mm: nat)
    requires GroupShaped(v, g, before)
  {
    GroupShaped(v, g, after) &&
    forall m, k :: 0 <= m < |before| && 0 <= k < v.numCores ==>
      after[m][k] == if !Skipped(v, g, m) && (k < c || (k == c && m < mm)) then Empty else before[m][k]
  }

  /** Phase 2 output for a core depends only on that core's slots. */
  lemma {:induction false} CoreOutColumn(v: View, a: seq<seq<real>>, b: seq<seq<real>>, g: nat, c: nat, count: nat, time: nat)
    requires WellFormed(v) && GroupShaped(v, g, a) && GroupShaped(v, g, b) && count <= |a| && c < v.numCores
    requires forall m :: 0 <= m < count ==> a[m][c] == b[m][c]
    ensures CoreOut(v, a, g, c, count, time) == CoreOut(v, b, g, c, count, time)
  {
    if count > 0 {
      CoreOutColumn(v, a, b, g, c, count - 1, time);
    }
  }

  lemma CoreOutNone(v: View, pcg: seq<seq<real>>, g: nat, c: nat, time: nat)
    requires WellFormed(v) && GroupShaped(v, g, pcg) && c < v.numCores
    ensures CoreOut(v, pcg, g, c, 0, time) == []
  {
  }

  lemma CoreOutStep(v: View, pcg: seq<seq<real>>, g: nat, c: nat, m: nat, time: nat)
    requires WellFormed(v) && GroupShaped(v, g, pcg) && m < |pcg| && c < v.numCores
    ensures var metric := v.groups[g].metrics[m];
            CoreOut(v, pcg, g, c, m + 1, time) == CoreOut(v, pcg, g, c, m, time) +
              (if Skipped(v, g, m) then []
               else Dispatch(Submission(MeasurementName(metric), SubmitName(v, metric), v.coreIds[c], pcg[m][c], time)))
  {
  }

  /** The metric loop of phase 2 for core c of group g (c/likwid.c:688-707). */
  method SubmitCore(v: View, pcg: seq<seq<real>>, g: nat, c: nat, time: nat) returns (out: seq<Submission>, after: seq<seq<real>>)
    requires WellFormed(v) && GroupShaped(v, g, pcg) && c < v.numCores
    ensures out == CoreOut(v, pcg, g, c, |pcg|, time)
    ensures GroupShaped(v, g, after)
    ensures forall m, k :: 0 <= m < |pcg| && 0 <= k < v.numCores ==>
              after[m][k] == if !Skipped(v, g, m) && k == c then Empty else pcg[m][k]
  {
    hide CoreOut;
    CoreOutNone(v, pcg, g, c, time);
    out := [];
    after := pcg;
    var m := 0;
    while m < |pcg|
      invariant 0 <= m <= |pcg|
      invariant out == CoreOut(v, pcg, g, c, m, time)
      invariant GroupShaped(v, g, after)
      invariant forall m', k :: 0 <= m' < |pcg| && 0 <= k < v.numCores ==>
                  after[m'][k] == if !Skipped(v, g, m') && k == c && m' < m then Empty else pcg[m'][k]
    {
      CoreOutStep(v, pcg, g, c, m, time);
      var metric := v.groups[g].metrics[m];
      if !(metric.xFlops > 0 && v.summarizeFlops) {
        var name := metric.name;
        if metric.xFlops > 0 && v.normalize {
          name := v.flopsName;
        }
        out := out + Dispatch(Submission(MeasurementName(metric), name, v.coreIds[c], after[m][c], time));
        after := after[m := after[m][c := Empty]];
      }
      m := m + 1;
    }
  }

  /** The core loop of phase 2 for group g. */
  method SubmitGroupCores(v: View, pcg: seq<seq<real>>, g: nat, time: nat) returns (out: seq<Submission>, after: seq<seq<real>>)
    requires WellFormed(v) && GroupShaped(v, g, pcg)
    ensures out == GroupCoresOut(v, pcg, g, v.numCores, time)
    ensures ClearedUpTo(v, g, pcg, after, v.numCores, 0)
  {
    out := [];
    after := pcg;
    var c := 0;
    while c < v.numCores
      invariant 0 <= c <= v.numCores
      invariant out == GroupCoresOut(v, pcg, g, c, time)
      invariant ClearedUpTo(v, g, pcg, after, c, 0)
    {
      CoreOutColumn(v, after, pcg, g, c, |pcg|, time);
      var more;
      more, after := SubmitCore(v, after, g, c, time);
      out := out + more;
      c := c + 1;
    }
  }

  lemma GroupOfShaped(v: View, pc: seq<seq<seq<real>>>, g: nat)
    requires CoreShaped(v, pc) && g < |pc|
    ensures GroupShaped(v, g, pc[g])
  {
  }

  lemma PerCoreOutStep(v: View, pc: seq<seq<seq<real>>>, g: nat, time: nat)
    requires WellFormed(v) && CoreShaped(v, pc) && g < |pc|
    ensures GroupShaped(v, g, pc[g])
    ensures PerCoreOut(v, pc, g + 1, time) == PerCoreOut(v, pc, g, time) + GroupCoresOut(v, pc[g], g, v.numCores, time)
  {
  }

  lemma PerCoreOutNone(v: View, pc: seq<seq<seq<real>>>, time: nat)
    requires WellFormed(v) && CoreShaped(v, pc)
    ensures PerCoreOut(v, pc, 0, time) == []
  {
  }

  lemma ReplaceGroupShaped(v: View, pc: seq<seq<seq<real>>>, g: nat, pcg: seq<seq<real>>)
    requires CoreShaped(v, pc) && g < |pc| && GroupShaped(v, g, pcg)
    ensures CoreShaped(v, pc[g := pcg])
  {
  }

  /** Phase 2: submit the per-core sums and clear their slots (c/likwid.c:685-710). */
  method SubmitPerCore(v: View, pc: seq<seq<seq<real>>>, time: nat) returns (out: seq<Submission>, after: seq<seq<seq<real>>>)
    requires WellFormed(v) && CoreShaped(v, pc)
    ensures out == PerCoreOut(v, pc, |pc|, time)
    ensures CoreShaped(v, after)
    ensures forall g :: 0 <= g < |pc| ==> GroupShaped(v, g, pc[g]) && ClearedUpTo(v, g, pc[g], after[g], v.numCores, 0)
  {
    hide PerCoreOut, CoreShaped, GroupShaped, ClearedUpTo, GroupCoresOut;
    PerCoreOutNone(v, pc, time);
    out := [];
    after := pc;
    var g := 0;
    while g < |pc|
      invariant 0 <= g <= |pc|
      invariant out == PerCoreOut(v, pc, g, time)
      invariant CoreShaped(v, after) && |after| == |pc|
      invariant forall g' :: 0 <= g' < g ==> GroupShaped(v, g', pc[g']) && ClearedUpTo(v, g', pc[g'], after[g'], v.numCores, 0)
      invariant forall g' :: g <= g' < |pc| ==> after[g'] == pc[g']
    {
      PerCoreOutStep(v, pc, g, time);
      var more, cleared := SubmitGroupCores(v, pc[g], g, time);
      out := out + more;
      ReplaceGroupShaped(v, after, g, cleared);
      after := after[g := cleared];
      g := g + 1;
    }
  }

  /** The number of FLOPS slots phase 3 submits: one per core under per-core summation, else one per thread. */
  function FlopsCount(v: View): nat {
    if v.summarizePerCore then v.numCores else |v.hwThreads|
  }

  /** The CPU a FLOPS slot is submitted for: the core id, or the thread's APIC id. */
  function FlopsCpu(v: View, i: nat): int
    requires WellFormed(v) && i < FlopsCount(v)
  {
    if v.summarizePerCore then v.coreIds[i] else v.hwThreads[i]
  }

  /** Phase 3, slots 0 to count - 1: the summed FLOPS per CPU under the normalized name. */
  function FlopsOut(v: View, flops: seq<real>, count: nat, time: nat): (out: seq<Submission>)
    requires WellFormed(v) && count <= FlopsCount(v) && count <= |flops|
    ensures forall s :: s in out ==> s.value != Empty && s.time == time && s.measurement == "likwid_cpu" && s.metric == v.flopsName
  {
    if count == 0 then []
    else FlopsOut(v, flops, count - 1, time) + Dispatch(Submission("likwid_cpu", v.flopsName, FlopsCpu(v, count - 1), flops[count - 1], time))
  }

  lemma FlopsOutNone(v: View, flops: seq<real>, time: nat)
    requires WellFormed(v)
    ensures FlopsOut(v, flops, 0, time) == []
  {
  }

  lemma FlopsOutStep(v: View, flops: seq<real>, i: nat, time: nat)
    requires WellFormed(v) && i < FlopsCount(v) && i < |flops|
    ensures FlopsOut(v, flops, i + 1, time) ==
            FlopsOut(v, flops, i, time) + Dispatch(Submission("likwid_cpu", v.flopsName, FlopsCpu(v, i), flops[i], time))
  {
  }

  /** Phase 3: submit the summed FLOPS and clear their slots (c/likwid.c:712-728). */
  method SubmitFlops(v: View, flops: seq<real>, time: nat) returns (out: seq<Submission>, after: seq<real>)
    requires WellFormed(v) && v.summarizeFlops && FlopsShaped(v, flops)
    ensures out == FlopsOut(v, flops, FlopsCount(v), time)
    ensures |after| == |flops|
    ensures forall i :: 0 <= i < |flops| ==> after[i] == if i < FlopsCount(v) then Empty else flops[i]
  {
    var count := |v.hwThreads|;
    if v.summarizePerCore {
      count := v.numCores;
    }
    hide FlopsOut;
    FlopsOutNone(v, flops, time);
    out := [];
    after := flops;
    var i := 0;
    while i < count
      invariant 0 <= i <= count == FlopsCount(v) <= |flops|
      invariant out == FlopsOut(v, flops, i, time)
      invariant |after| == |flops|
      invariant forall j :: 0 <= j < |flops| ==> after[j] == if j < i then Empty else flops[j]
    {
      FlopsOutStep(v, flops, i, time);
      var cpu := if v.summarizePerCore then v.coreIds[i] else v.hwThreads[i];
      out := out + Dispatch(Submission("likwid_cpu", v.flopsName, cpu, after[i], time));
      after := after[i := Empty];
      i := i + 1;
    }
  }

  /** Every FLOPS slot holds the sentinel. */
  predicate FlopsEmpty(flops: seq<real>) {
    forall i :: 0 <= i < |flops| ==> flops[i] == Empty
  }

  /** Every per-core slot holds the sentinel. */
  predicate CoresEmpty(pc: seq<seq<seq<real>>>) {
    forall g, m, k :: 0 <= g < |pc| && 0 <= m < |pc[g]| && 0 <= k < |pc[g][m]| ==> pc[g][m][k] == Empty
  }

  lemma EmptyCoresEqual(v: View, p: seq<seq<seq<real>>>, q: seq<seq<seq<real>>>)
    requires CoreShaped(v, p) && CoreShaped(v, q) && CoresEmpty(p) && CoresEmpty(q)
    ensures p == q
  {
    forall g | 0 <= g < |p|
      ensures p[g] == q[g]
    {
      forall m | 0 <= m < |p[g]|
        ensures p[g][m] == q[g][m]
      {
      }
    }
  }

  /**
   * Starting from empty accumulators, phase 1 leaves the FLOPS slots beyond
   * those phase 3 submits and the per-core slots phase 2 passes over empty:
   * no value is ever routed there.
   */
  lemma UnusedSlotsStayEmpty(v: View, a: Acc, xs: seq<Sample>, time: nat)
    requires WellFormed(v) && CoreShaped(v, a.perCore) && FlopsShaped(v, a.flops)
    requires FlopsEmpty(a.flops) && CoresEmpty(a.perCore)
    ensures var b := Fold(v, a, xs, time);
            CoreShaped(v, b.perCore) && FlopsShaped(v, b.flops) &&
            (forall i :: FlopsCount(v) <= i < |b.flops| ==> b.flops[i] == Empty) &&
            (forall g, m, k :: 0 <= g < |b.perCore| && 0 <= m < |b.perCore[g]| && 0 <= k < |b.perCore[g][m]| && Skipped(v, g, m) ==>
               b.perCore[g][m][k] == Empty)
  {
    var b := Fold(v, a, xs, time);
    ShapeKept(v, a, b);
    forall i | FlopsCount(v) <= i < |b.flops|
      ensures b.flops[i] == Empty
    {
      FoldSlot(v, a, xs, FlopsSlot(i), time);
      NothingRouted(v, xs, FlopsSlot(i), time);
    }
    forall g, m, k | 0 <= g < |b.perCore| && 0 <= m < |b.perCore[g]| && 0 <= k < |b.perCore[g][m]| && Skipped(v, g, m)
      ensures b.perCore[g][m][k] == Empty
    {
      FoldSlot(v, a, xs, CoreSlot(g, m, k), time);
      NothingRouted(v, xs, CoreSlot(g, m, k), time);
    }
  }

  /**
   * Everything one read submits, phases 1 to 3 in order. No submission
   * carries the sentinel, and all carry the read's timestamp.
   */
  function ReadOut(v: View, flops: seq<real>, pc: seq<seq<seq<real>>>, setupCounters: int -> bool,
                   measure: (int, nat, nat) -> Float, time: nat): (out: seq<Submission>)
    requires WellFormed(v) && CoreShaped(v, pc) && FlopsShaped(v, flops)
    ensures forall s :: s in out ==> s.value != Empty && s.time == time
  {
    var a := Acc(flops, pc, []);
    var b := Fold(v, a, ReadSamples(v, |v.groups|, setupCounters, measure), time);
    ShapeKept(v, a, b);
    FoldOut(v, a, ReadSamples(v, |v.groups|, setupCounters, measure), time);
    b.out +
    (if v.summarizePerCore then PerCoreOut(v, b.perCore, |b.perCore|, time) else []) +
    (if v.summarizeFlops then FlopsOut(v, b.flops, FlopsCount(v), time) else [])
  }

  /**
   * The three phases of one read, from empty accumulators: the result is
   * ReadOut, and every slot is back to the sentinel afterwards.
   */
  method ReadAll(v: View, flops: seq<real>, pc: seq<seq<seq<real>>>, setupCounters: int -> bool,
                 measure: (int, nat, nat) -> Float, time: nat)
    returns (out: seq<Submission>, flops': seq<real>, pc': seq<seq<seq<real>>>)
    requires WellFormed(v) && CoreShaped(v, pc) && FlopsShaped(v, flops) && FlopsEmpty(flops) && CoresEmpty(pc)
    ensures out == ReadOut(v, flops, pc, setupCounters, measure, time)
    ensures flops' == flops && pc' == pc
  {
    hide ReadOut, Fold, ReadSamples, PerCoreOut, FlopsOut, ClearedUpTo, RouteOf;
    var a := Acc(flops, pc, []);
    var b := ReadGroups(v, a, setupCounters, measure, time);
    UnusedSlotsStayEmpty(v, a, ReadSamples(v, |v.groups|, setupCounters, measure), time);
    ReadOutPhases(v, flops, pc, setupCounters, measure, time);
    out, flops', pc' := b.out, b.flops, b.perCore;
    if v.summarizePerCore {
      var more;
      more, pc' := SubmitPerCore(v, pc', time);
      out := out + more;
      ClearedAreEmpty(v, b.perCore, pc');
    } else {
      out := out + [];
    }
    EmptyCoresEqual(v, pc', pc);
    if v.summarizeFlops {
      var more;
      more, flops' := SubmitFlops(v, flops', time);
      out := out + more;
    } else {
      out := out + [];
    }
  }

  /** ReadOut is the three phases applied to the result of the fold. */
  lemma ReadOutPhases(v: View, flops: seq<real>, pc: seq<seq<seq<real>>>, setupCounters: int -> bool,
                      measure: (int, nat, nat) -> Float, time: nat)
    requires WellFormed(v) && CoreShaped(v, pc) && FlopsShaped(v, flops)
    ensures var b := Fold(v, Acc(flops, pc, []), ReadSamples(v, |v.groups|, setupCounters, measure), time);
            CoreShaped(v, b.perCore) && FlopsShaped(v, b.flops) &&
            ReadOut(v, flops, pc, setupCounters, measure, time) ==
              b.out +
              (if v.summarizePerCore then PerCoreOut(v, b.perCore, |b.perCore|, time) else []) +
              (if v.summarizeFlops then FlopsOut(v, b.flops, FlopsCount(v), time) else [])
  {
    hide Fold, ReadSamples, PerCoreOut, FlopsOut;
    ShapeKept(v, Acc(flops, pc, []), Fold(v, Acc(flops, pc, []), ReadSamples(v, |v.groups|, setupCounters, measure), time));
  }

  /** After phase 2 every per-core slot is the sentinel, given the slots it passes over already were. */
  lemma ClearedAreEmpty(v: View, before: seq<seq<seq<real>>>, after: seq<seq<seq<real>>>)
    requires CoreShaped(v, before) && CoreShaped(v, after)
    requires forall g :: 0 <= g < |before| ==> GroupShaped(v, g, before[g]) && ClearedUpTo(v, g, before[g], after[g], v.numCores, 0)
    requires forall g, m, k :: 0 <= g < |before| && 0 <= m < |before[g]| && 0 <= k < |before[g][m]| && Skipped(v, g, m) ==>
               before[g][m][k] == Empty
    ensures CoresEmpty(after)
  {
    forall g, m, k | 0 <= g < |after| && 0 <= m < |after[g]| && 0 <= k < |after[g][m]|
      ensures after[g][m][k] == Empty
    {
      assert ClearedUpTo(v, g, before[g], after[g], v.numCores, 0);
    }
  }

  /** Routing of two lists in turn. */
  lemma {:induction false} RoutedToAppend(v: View, xs: seq<Sample>, ys: seq<Sample>, s: Slot, time: nat)
    ensures RoutedTo(v, xs + ys, s, time) == RoutedTo(v, xs, s, time) + RoutedTo(v, ys, s, time)
  {
    hide RouteOf;
    if |ys| == 0 {
      assert xs + ys == xs;
    } else {
      var n := |ys| - 1;
      assert (xs + ys)[..|xs + ys| - 1] == xs + ys[..n];
      RoutedToAppend(v, xs, ys[..n], s, time);
    }
  }

  /** Samples of other groups or other metrics never reach a per-core slot. */
  lemma {:induction false} OtherSamplesMissSlot(v: View, xs: seq<Sample>, g: nat, m: nat, k: int, time: nat)
    requires forall i :: 0 <= i < |xs| ==> xs[i].g != g || xs[i].m != m
    ensures RoutedTo(v, xs, CoreSlot(g, m, k), time) == []
  {
    NothingRouted(v, xs, CoreSlot(g, m, k), time);
  }

  /**
   * The values of metric m of group g that per-core summation adds into
   * core k: the admitted values of threads 0 to threads - 1 whose core
   * index is k, in thread order.
   */
  function CoreInputs(v: View, g: nat, m: nat, k: int, threads: nat, measure: (int, nat, nat) -> Float): seq<real>
    requires WellFormed(v) && v.summarizePerCore && g < |v.groups| && m < |v.groups[g].metrics| && threads <= |v.hwThreads|
  {
    if threads == 0 then []
    else
      var c := threads - 1;
      var value := Admit(v.groups[g].metrics[m], HasSocketData(v.socketThreads, c), v.normalize, measure(v.groups[g].id, m, c));
      CoreInputs(v, g, m, k, c, measure) + (if v.coreIndices[c] == k && value.Some? then [value.value] else [])
  }

  lemma RoutedToOne(v: View, x: Sample, s: Slot, time: nat)
    ensures RoutedTo(v, [x], s, time) ==
            var r := RouteOf(v, x, time); if r.Into? && r.slot == s then [r.v] else []
  {
    assert [x][..0] == [];
  }

  /** Under per-core summation a value of a metric phase 2 does not pass over goes to its thread's core slot, if admitted. */
  lemma CoreRoute(v: View, x: Sample, time: nat)
    requires WellFormed(v) && v.summarizePerCore && InRange(v, x) && !Skipped(v, x.g, x.m)
    ensures var a := Admit(v.groups[x.g].metrics[x.m], HasSocketData(v.socketThreads, x.c), v.normalize, x.v);
            RouteOf(v, x, time) == if a.Some? then Into(CoreSlot(x.g, x.m, v.coreIndices[x.c]), a.value) else Skip
  {
  }

  lemma ThreadFeedsCore(v: View, g: nat, m: nat, k: int, c: nat, measure: (int, nat, nat) -> Float, time: nat)
    requires WellFormed(v) && v.summarizePerCore && g < |v.groups| && m < |v.groups[g].metrics| && c < |v.hwThreads|
    requires !Skipped(v, g, m)
    ensures var xs := ThreadSamples(v.groups[g].id, g, c, |v.groups[g].metrics|, measure);
            var value := Admit(v.groups[g].metrics[m], HasSocketData(v.socketThreads, c), v.normalize, measure(v.groups[g].id, m, c));
            RoutedTo(v, xs, CoreSlot(g, m, k), time) == if v.coreIndices[c] == k && value.Some? then [value.value] else []
  {
    hide RoutedTo, RouteOf, ThreadSamples, Admit;
    var slot := CoreSlot(g, m, k);
    var xs := ThreadSamples(v.groups[g].id, g, c, |v.groups[g].metrics|, measure);
    var front, back := xs[..m], xs[m + 1..];
    assert xs == front + [xs[m]] + back;
    OtherSamplesMissSlot(v, front, g, m, k, time);
    OtherSamplesMissSlot(v, back, g, m, k, time);
    RoutedToAppend(v, front + [xs[m]], back, slot, time);
    RoutedToAppend(v, front, [xs[m]], slot, time);
    RoutedToOne(v, xs[m], slot, time);
    CoreRoute(v, xs[m], time);
  }

  lemma {:induction false} GroupFeedsCore(v: View, g: nat, m: nat, k: int, threads: nat, measure: (int, nat, nat) -> Float, time: nat)
    requires WellFormed(v) && v.summarizePerCore && g < |v.groups| && m < |v.groups[g].metrics| && threads <= |v.hwThreads|
    requires !Skipped(v, g, m)
    ensures RoutedTo(v, GroupSamples(v.groups[g].id, g, |v.groups[g].metrics|, threads, measure), CoreSlot(g, m, k), time) ==
            CoreInputs(v, g, m, k, threads, measure)
  {
    hide RoutedTo, RouteOf, ThreadSamples, Admit;
    if threads > 0 {
      var gid, count := v.groups[g].id, |v.groups[g].metrics|;
      GroupFeedsCore(v, g, m, k, threads - 1, measure, time);
      RoutedToAppend(v, GroupSamples(gid, g, count, threads - 1, measure), ThreadSamples(gid, g, threads - 1, count, measure),
                     CoreSlot(g, m, k), time);
      ThreadFeedsCore(v, g, m, k, threads - 1, measure, time);
    } else {
      NothingRouted(v, [], CoreSlot(g, m, k), time);
    }
  }

  lemma {:induction false} ReadFeedsCore(v: View, count: nat, g: nat, m: nat, k: int, setupCounters: int -> bool,
                                         measure: (int, nat, nat) -> Float, time: nat)
    requires WellFormed(v) && v.summarizePerCore && count <= |v.groups| && g < |v.groups| && m < |v.groups[g].metrics|
    requires !Skipped(v, g, m)
    ensures RoutedTo(v, ReadSamples(v, count, setupCounters, measure), CoreSlot(g, m, k), time) ==
            if g < count && Measured(v, g, setupCounters) then CoreInputs(v, g, m, k, |v.hwThreads|, measure) else []
  {
    hide *;
    if count > 0 {
      var h := count - 1;
      ReadFeedsCore(v, h, g, m, k, setupCounters, measure, time);
      ReadSamplesStep(v, h, setupCounters, measure);
      if Measured(v, h, setupCounters) {
        var ys := GroupSamples(v.groups[h].id, h, |v.groups[h].metrics|, |v.hwThreads|, measure);
        RoutedToAppend(v, ReadSamples(v, h, setupCounters, measure), ys, CoreSlot(g, m, k), time);
        if h == g {
          GroupFeedsCore(v, g, m, k, |v.hwThreads|, measure, time);
        } else {
          OtherSamplesMissSlot(v, ys, g, m, k, time);
        }
      }
    } else {
      NothingRouted(v, [], CoreSlot(g, m, k), time);
      NoSamples(v, Acc([], [], []), 0, 0, 0, setupCounters, measure, time);
    }
  }

  /**
   * Per-core summation: after phase 1 the slot of metric m of group g at
   * core k holds the admitted values of exactly the threads with core index
   * k, accumulated in thread order; it stays empty when the group is not
   * measured or no such value was admitted.
   */
  lemma PerCoreSlotSums(v: View, flops: seq<real>, pc: seq<seq<seq<real>>>, g: nat, m: nat, k: nat,
                        setupCounters: int -> bool, measure: (int, nat, nat) -> Float, time: nat)
    requires WellFormed(v) && v.summarizePerCore && CoreShaped(v, pc) && CoresEmpty(pc)
    requires g < |v.groups| && m < |v.groups[g].metrics| && k < v.numCores && !Skipped(v, g, m)
    ensures var b := Fold(v, Acc(flops, pc, []), ReadSamples(v, |v.groups|, setupCounters, measure), time);
            SlotValue(b, CoreSlot(g, m, k)) ==
            if Measured(v, g, setupCounters) then AccumulateAll(CoreInputs(v, g, m, k, |v.hwThreads|, measure)) else Empty
  {
    var xs := ReadSamples(v, |v.groups|, setupCounters, measure);
    FoldSlot(v, Acc(flops, pc, []), xs, CoreSlot(g, m, k), time);
    ReadFeedsCore(v, |v.groups|, g, m, k, setupCounters, measure, time);
  }
}
