/**
 * _setupGroups (c/likwid.c:183-323): every named group gets its perfmon
 * event set and its metrics; every metric its FLOPS factor, its per-CPU
 * flag and its outlier bound. FLOPS normalization is a flag that the loop
 * itself can switch off, so the metrics are set up as a fold over a small
 * state: that flag and the number of FLOPS metrics seen. perfmon's
 * answers (perfmon_addEventSet, perfmon_getMetricName) are parameters.
 */
module LikwidSetup {
  import opened Util
  import opened LikwidMetrics

  /** What the metric setup reads from the configuration and _init_likwid. */
  datatype MetricConfig = MetricConfig(perSocket: seq<string>, flopsName: string, counterLimit: nat, maxValues: seq<MaxValue>)

  /** normalizeFlops as the loop has left it, and numFlopMetrics. */
  datatype SetupState = SetupState(normalize: bool, flopMetrics: nat)

  /** The setup of one metric (c/likwid.c:231-293). */
  function SetupMetric(cfg: MetricConfig, st: SetupState, name: string): (Metric, SetupState) {
    var f := FlopsFactor(st.normalize, cfg.flopsName, name);
    (Metric(name, f.xFlops, IsMetricPerCpu(cfg.perSocket, name), MaxValueFor(cfg.counterLimit, cfg.maxValues, name)),
     SetupState(f.normalize, st.flopMetrics + if f.counted then 1 else 0))
  }

  /**
   * The metric loop of one group, in order. Each metric keeps its name,
   * is per CPU exactly when no per-socket name matches it, and has the
   * bound of MaxValueFor; only names starting with "flops" other than the
   * normalized name get a factor, and only while normalization is on; once
   * off, it stays off, and the count of FLOPS metrics never falls.
   */
  function SetupMetrics(cfg: MetricConfig, st: SetupState, names: seq<string>): (r: (seq<Metric>, SetupState))
    ensures |r.0| == |names|
    ensures forall i :: 0 <= i < |names| ==>
              r.0[i].name == names[i] && r.0[i].perCpu == IsMetricPerCpu(cfg.perSocket, names[i]) &&
              r.0[i].maxValue == MaxValueFor(cfg.counterLimit, cfg.maxValues, names[i])
    ensures forall i :: 0 <= i < |names| && r.0[i].xFlops > 0 ==>
              st.normalize && StartsWith(names[i], "flops") && names[i] != cfg.flopsName && r.0[i].xFlops in {1, 2, 4}
    ensures r.1.normalize ==> st.normalize
    ensures r.1.flopMetrics >= st.flopMetrics
    ensures !st.normalize ==> r.1 == st && forall i :: 0 <= i < |names| ==> r.0[i].xFlops == 0
  {
    if |names| == 0 then ([], st)
    else
      var n := |names| - 1;
      var (ms, mid) := SetupMetrics(cfg, st, names[..n]);
      var (metric, after) := SetupMetric(cfg, mid, names[n]);
      FlopsFactorByName(mid.normalize, cfg.flopsName, names[n]);
      (ms + [metric], after)
  }

  /** Names that start with "flops". */
  function FlopsNames(names: seq<string>): nat {
    if |names| == 0 then 0
    else FlopsNames(names[..|names| - 1]) + if StartsWith(names[|names| - 1], "flops") then 1 else 0
  }

  /**
   * Without a metric named like the normalized FLOPS metric, normalization
   * stays on and every metric whose name starts with "flops" is counted.
   */
  lemma {:induction false} AllFlopsCounted(cfg: MetricConfig, st: SetupState, names: seq<string>)
    requires st.normalize && cfg.flopsName !in names
    ensures SetupMetrics(cfg, st, names).1 == SetupState(true, st.flopMetrics + FlopsNames(names))
  {
    if |names| > 0 {
      var n := |names| - 1;
      assert forall i :: 0 <= i < n ==> names[..n][i] == names[i];
      AllFlopsCounted(cfg, st, names[..n]);
      FlopsFactorByName(true, cfg.flopsName, names[n]);
    }
  }

  /** The setup of one configured group (c/likwid.c:195-298). */
  function SetupGroup(cfg: MetricConfig, st: SetupState, grp: Group,
                      addEventSet: string -> int, metricNames: int -> seq<string>): (Group, SetupState) {
    match grp.name
    case None => (grp.(id := -1), st)
    case Some(n) =>
      var gid := addEventSet(n);
      if gid < 0 then (grp.(id := -2), st)
      else
        var names := metricNames(gid);
        if |names| == 0 then (grp.(id := gid, metrics := []), st)
        else
          var (ms, after) := SetupMetrics(cfg, st, names);
          (grp.(id := gid, metrics := ms), after)
  }

  /**
   * The group loop, in order. An unnamed group gets id -1, a group perfmon
   * refuses id -2, and the others their event set and the metrics perfmon
   * names for it; group names do not change.
   */
  function SetupGroups(cfg: MetricConfig, st: SetupState, groups: seq<Group>,
                       addEventSet: string -> int, metricNames: int -> seq<string>): (r: (seq<Group>, SetupState))
    ensures |r.0| == |groups|
    ensures forall g :: 0 <= g < |groups| ==>
              r.0[g].name == groups[g].name &&
              (r.0[g].id == -1 <==> groups[g].name.None?) &&
              (r.0[g].id == -2 <==> groups[g].name.Some? && addEventSet(groups[g].name.value) < 0) &&
              (r.0[g].id >= 0 ==> r.0[g].id == addEventSet(groups[g].name.value) &&
                                  |r.0[g].metrics| == |metricNames(r.0[g].id)| &&
                                  forall m :: 0 <= m < |r.0[g].metrics| ==> r.0[g].metrics[m].name == metricNames(r.0[g].id)[m]) &&
              (r.0[g].id < 0 ==> r.0[g].metrics == groups[g].metrics)
    ensures r.1.normalize ==> st.normalize
    ensures r.1.flopMetrics >= st.flopMetrics
  {
    if |groups| == 0 then ([], st)
    else
      var n := |groups| - 1;
      var (gs, mid) := SetupGroups(cfg, st, groups[..n], addEventSet, metricNames);
      var (grp, after) := SetupGroup(cfg, mid, groups[n], addEventSet, metricNames);
      (gs + [grp], after)
  }

  /** The loop over the MaxValues entries for one metric (c/likwid.c:288-293). */
  method MaxValueLoop(counterLimit: nat, entries: seq<MaxValue>, name: string) returns (maxValue: Option<real>)
    ensures maxValue == MaxValueFor(counterLimit, entries, name)
  {
    if counterLimit != 0 {
      maxValue := Some(counterLimit as real);
    } else {
      maxValue := None;
    }
    var i := 0;
    while i < |entries|
      invariant 0 <= i <= |entries|
      invariant maxValue == MaxValueFor(counterLimit, entries[..i], name)
    {
      assert entries[..i + 1][..i] == entries[..i];
      if StrncmpEqual(name, entries[i].prefix, |entries[i].prefix|) {
        maxValue := Some(entries[i].limit);
      }
      i := i + 1;
    }
    assert entries[..i] == entries;
  }

  /** The body of the metric loop for one metric (c/likwid.c:232-293). */
  method SetupOne(cfg: MetricConfig, st: SetupState, name: string) returns (metric: Metric, after: SetupState)
    ensures (metric, after) == SetupMetric(cfg, st, name)
  {
    hide StrncmpEqual, IsMetricPerCpu, MaxValueFor;
    var normalize := st.normalize;
    var flopMetrics := st.flopMetrics;
    var perCpu := IsMetricPerCpu(cfg.perSocket, name);
    var xFlops := 0;
    if normalize && StrncmpEqual("flops", name, 5) {
      flopMetrics := flopMetrics + 1;
      if cfg.flopsName == name {
        normalize := false;
        xFlops := 0;
      } else if |name| >= 8 && StrncmpEqual("dp", name[6..], 2) {
        xFlops := 2;
      } else if |name| >= 9 && StrncmpEqual("avx", name[6..], 3) {
        xFlops := 4;
      } else {
        xFlops := 1;
      }
    }
    var maxValue := MaxValueLoop(cfg.counterLimit, cfg.maxValues, name);
    metric := Metric(name, xFlops, perCpu, maxValue);
    after := SetupState(normalize, flopMetrics);
  }

  lemma SetupMetricsStep(cfg: MetricConfig, st: SetupState, names: seq<string>, m: nat)
    requires m < |names|
    ensures var (ms, mid) := SetupMetrics(cfg, st, names[..m]);
            var (metric, after) := SetupMetric(cfg, mid, names[m]);
            SetupMetrics(cfg, st, names[..m + 1]) == (ms + [metric], after)
  {
    assert names[..m + 1][..m] == names[..m];
  }

  /** The metric loop of one group (c/likwid.c:231-294). */
  method SetupMetricsLoop(cfg: MetricConfig, st: SetupState, names: seq<string>) returns (metrics: seq<Metric>, after: SetupState)
    ensures (metrics, after) == SetupMetrics(cfg, st, names)
  {
    hide SetupMetrics, SetupMetric;
    metrics, after := [], st;
    assert names[..0] == [];
    SetupMetricsNone(cfg, st);
    var m := 0;
    while m < |names|
      invariant 0 <= m <= |names|
      invariant (metrics, after) == SetupMetrics(cfg, st, names[..m])
    {
      SetupMetricsStep(cfg, st, names, m);
      var metric;
      metric, after := SetupOne(cfg, after, names[m]);
      metrics := metrics + [metric];
      m := m + 1;
    }
    assert names[..m] == names;
  }

  lemma SetupMetricsNone(cfg: MetricConfig, st: SetupState)
    ensures SetupMetrics(cfg, st, []) == ([], st)
  {
  }

  /** The group loop of _setupGroups (c/likwid.c:195-298). */
  method SetupGroupsLoop(cfg: MetricConfig, st: SetupState, groups: seq<Group>,
                         addEventSet: string -> int, metricNames: int -> seq<string>)
    returns (result: seq<Group>, after: SetupState)
    ensures (result, after) == SetupGroups(cfg, st, groups, addEventSet, metricNames)
  {
    result := [];
    after := st;
    var g := 0;
    while g < |groups|
      invariant 0 <= g <= |groups|
      invariant (result, after) == SetupGroups(cfg, st, groups[..g], addEventSet, metricNames)
    {
      assert groups[..g + 1][..g] == groups[..g];
      var grp := groups[g];
      if grp.name.Some? {
        var gid := addEventSet(grp.name.value);
        if gid < 0 {
          grp := grp.(id := -2);
        } else {
          grp := grp.(id := gid);
          var names := metricNames(gid);
          if |names| == 0 {
            grp := grp.(metrics := []);
          } else {
            var metrics;
            metrics, after := SetupMetricsLoop(cfg, after, names);
            grp := grp.(metrics := metrics);
          }
        }
      } else {
        grp := grp.(id := -1);
      }
      result := result + [grp];
      g := g + 1;
    }
    assert groups[..g] == groups;
  }

  /** Fresh per-core slots: the sentinel for every core of every metric of every group. */
  function PerCoreSlots(groups: seq<Group>, numCores: nat): (pc: seq<seq<seq<real>>>)
    ensures |pc| == |groups|
    ensures forall g :: 0 <= g < |pc| ==>
              |pc[g]| == |groups[g].metrics| &&
              forall m :: 0 <= m < |pc[g]| ==> |pc[g][m]| == numCores && forall k :: 0 <= k < numCores ==> pc[g][m][k] == Empty
  {
    seq(|groups|, g requires 0 <= g < |groups| => seq(|groups[g].metrics|, m => seq(numCores, k => Empty)))
  }
}
