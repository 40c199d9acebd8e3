/**
 * The per-metric decisions of the LIKWID plugin (c/likwid.c): which
 * measurement a metric belongs to, its FLOPS multiplier, its outlier
 * bound, and what happens to one measured value. Strings are C strings
 * without their terminating NUL.
 */
module LikwidMetrics {
  import opened Util
  import opened Floats
  import CdTime

  /** A metric of a group after setup (metric_t without its per-core array). */
  datatype Metric = Metric(name: string, xFlops: nat, perCpu: bool, maxValue: Option<real>)

  /**
   * A metric group (metric_group_t): id is the perfmon event set, -1 for a
   * group without a name and -2 for one perfmon refused.
   */
  datatype Group = Group(id: int, name: Option<string>, metrics: seq<Metric>)

  /** A MaxValues entry: values of metrics whose name starts with prefix are bounded by limit. */
  datatype MaxValue = MaxValue(prefix: string, limit: real)

  /** One value handed to collectd (_submit_value's arguments). */
  datatype Submission = Submission(measurement: string, metric: string, cpu: int, value: real, time: nat)

  /** The sentinel of an empty accumulator slot. */
  const Empty: real := -1.0

  /** _isMetricPerCPU: a metric is per socket when a per-socket name agrees with it on the first six characters. */
  function IsMetricPerCpu(perSocket: seq<string>, metric: string): (r: bool)
    ensures r <==> forall i :: 0 <= i < |perSocket| ==> !StrncmpEqual(perSocket[i], metric, 6)
  {
    if |perSocket| == 0 then true
    else IsMetricPerCpu(perSocket[..|perSocket| - 1], metric) && !StrncmpEqual(perSocket[|perSocket| - 1], metric, 6)
  }

  /** The same decision in terms of the six-character prefixes of the names. */
  lemma PerCpuByPrefix(perSocket: seq<string>, metric: string)
    ensures IsMetricPerCpu(perSocket, metric) <==> forall p :: p in perSocket ==> Take(p, 6) != Take(metric, 6)
  {
    forall i | 0 <= i < |perSocket| {
      StrncmpEqualIsTake(perSocket[i], metric, 6);
    }
  }

  /** _hasSocketData: the thread is one of those chosen to report per-socket metrics. */
  function HasSocketData(socketThreads: seq<int>, thread: int): (r: bool)
    ensures r <==> thread in socketThreads
  {
    if |socketThreads| == 0 then false
    else HasSocketData(socketThreads[..|socketThreads| - 1], thread) || socketThreads[|socketThreads| - 1] == thread
  }

  /** _getMeasurementName. */
  function MeasurementName(m: Metric): (r: string)
    ensures r == "likwid_cpu" || r == "likwid_socket"
  {
    if m.perCpu then "likwid_cpu" else "likwid_socket"
  }

  /** The measurement name tells per-CPU metrics from per-socket ones. */
  lemma MeasurementNameSeparates(a: Metric, b: Metric)
    ensures MeasurementName(a) == MeasurementName(b) <==> a.perCpu == b.perCpu
  {
    assert "likwid_cpu" != "likwid_socket" by { assert "likwid_cpu"[7] != "likwid_socket"[7]; }
  }

  /**
   * The FLOPS handling of one metric during setup: its multiplier, the
   * normalization flag afterwards, and whether it counts as a FLOPS metric.
   */
  datatype FlopsSetup = FlopsSetup(xFlops: nat, normalize: bool, counted: bool)

  function FlopsFactor(normalize: bool, normalizedName: string, name: string): FlopsSetup {
    if normalize && StrncmpEqual("flops", name, 5) then
      if normalizedName == name then FlopsSetup(0, false, true)
      else if |name| >= 8 && StrncmpEqual("dp", name[6..], 2) then FlopsSetup(2, true, true)
      else if |name| >= 9 && StrncmpEqual("avx", name[6..], 3) then FlopsSetup(4, true, true)
      else FlopsSetup(1, true, true)
    else
      FlopsSetup(0, normalize, false)
  }

  /**
   * The FLOPS multiplier by the metric's name: only names starting with
   * "flops" count, and only while normalization is on; the normalized name
   * itself gets 0 and switches normalization off; "dp" at offset 6 doubles,
   * "avx" at offset 6 quadruples, anything else is single precision.
   */
  lemma FlopsFactorByName(normalize: bool, normalizedName: string, name: string)
    ensures var f := FlopsFactor(normalize, normalizedName, name);
            (f.counted <==> normalize && StartsWith(name, "flops")) &&
            (!f.counted ==> f.xFlops == 0 && f.normalize == normalize) &&
            (f.counted && name == normalizedName ==> f.xFlops == 0 && !f.normalize) &&
            (f.counted && name != normalizedName ==>
               f.normalize &&
               f.xFlops == if |name| >= 8 && name[6..8] == "dp" then 2
                           else if |name| >= 9 && name[6..9] == "avx" then 4
                           else 1)
  {
    StrncmpPrefix(name, "flops");
    StrncmpEqualIsTake("flops", name, 5);
    assert Take("flops", 5) == "flops";
    if |name| >= 8 {
      StrncmpEqualIsTake("dp", name[6..], 2);
      assert Take("dp", 2) == "dp";
      assert Take(name[6..], 2) == name[6..8];
    }
    if |name| >= 9 {
      StrncmpEqualIsTake("avx", name[6..], 3);
      assert Take("avx", 3) == "avx";
      assert Take(name[6..], 3) == name[6..9];
    }
  }

  /**
   * counterLimit for a counter of width w (0 when the width is unknown):
   * 2^(w+1) - 1, computed on uint64_t, so w + 1 must stay below 64.
   */
  function CounterLimit(width: nat): (limit: nat)
    requires width < 63
    ensures width == 0 <==> limit == 0
    ensures width > 0 ==> limit < CdTime.Two64 && limit >= CdTime.Pow2(width) && limit + 1 == 2 * CdTime.Pow2(width)
  {
    CdTime.Pow2Below64(width + 1);
    if width > 0 then CdTime.Pow2(width + 1) - 1 else 0
  }

  /** The bound a metric starts with: counterLimit if known, else DBL_MAX (None). */
  function DefaultMax(counterLimit: nat): Option<real> {
    if counterLimit != 0 then Some(counterLimit as real) else None
  }

  /** The outlier bound after the MaxValues entries: every entry whose name is a prefix of the metric's overrides it. */
  function MaxValueFor(counterLimit: nat, entries: seq<MaxValue>, name: string): Option<real> {
    if |entries| == 0 then DefaultMax(counterLimit)
    else
      var e := entries[|entries| - 1];
      if StrncmpEqual(name, e.prefix, |e.prefix|) then Some(e.limit)
      else MaxValueFor(counterLimit, entries[..|entries| - 1], name)
  }

  /** With no entry naming a prefix of the metric, the bound stays the default. */
  lemma {:induction false} NoMatchKeepsDefault(counterLimit: nat, entries: seq<MaxValue>, name: string)
    requires forall i :: 0 <= i < |entries| ==> !StartsWith(name, entries[i].prefix)
    ensures MaxValueFor(counterLimit, entries, name) == DefaultMax(counterLimit)
  {
    if |entries| > 0 {
      var n := |entries| - 1;
      StrncmpPrefix(name, entries[n].prefix);
      NoMatchKeepsDefault(counterLimit, entries[..n], name);
    }
  }

  /** The last entry whose name is a prefix of the metric's wins. */
  lemma {:induction false} LastMatchWins(counterLimit: nat, entries: seq<MaxValue>, name: string, i: nat)
    requires i < |entries| && StartsWith(name, entries[i].prefix)
    requires forall k :: i < k < |entries| ==> !StartsWith(name, entries[k].prefix)
    ensures MaxValueFor(counterLimit, entries, name) == Some(entries[i].limit)
  {
    var n := |entries| - 1;
    StrncmpPrefix(name, entries[n].prefix);
    if i < n {
      var init := entries[..n];
      assert init[i] == entries[i];
      LastMatchWins(counterLimit, init, name, i);
    }
  }

  /** Values above the bound are outliers; no finite double exceeds DBL_MAX. */
  predicate Above(v: real, maxValue: Option<real>) {
    maxValue.Some? && v > maxValue.value
  }

  /**
   * The filter of the read loop for one measured value of a metric on a
   * thread: None when it is skipped, else the value to use, multiplied by
   * the FLOPS factor when normalization is on.
   */
  function Admit(metric: Metric, hasSocketData: bool, normalize: bool, v: Float): (r: Option<real>)
    ensures r.Some? <==> (metric.perCpu || hasSocketData) && v.Fin? && !Above(v.r, metric.maxValue)
    ensures r.Some? && metric.xFlops > 1 && normalize && v.r > 0.0 ==> r.value == v.r * metric.xFlops as real
    ensures r.Some? && !(metric.xFlops > 1 && normalize && v.r > 0.0) ==> r.value == v.r
  {
    if !metric.perCpu && !hasSocketData then None
    else if !IsFinite(v) then None
    else if Above(v.r, metric.maxValue) then None
    else if metric.xFlops > 0 && normalize && metric.xFlops > 1 && v.r > 0.0 then Some(v.r * metric.xFlops as real)
    else Some(v.r)
  }

  /** One value into an accumulator slot: the first overwrites the sentinel, later ones add. */
  function Accumulate(slot: real, v: real): real {
    if slot == Empty then v else slot + v
  }

  /** A slot after accumulating vs in order, starting empty. */
  function AccumulateAll(vs: seq<real>): real {
    if |vs| == 0 then Empty else Accumulate(AccumulateAll(vs[..|vs| - 1]), vs[|vs| - 1])
  }

  function Sum(vs: seq<real>): real {
    if |vs| == 0 then 0.0 else Sum(vs[..|vs| - 1]) + vs[|vs| - 1]
  }

  /** For non-negative values a slot holds their sum, and stays empty only when no value arrived. */
  lemma {:induction false} AccumulateSums(vs: seq<real>)
    requires forall i :: 0 <= i < |vs| ==> vs[i] >= 0.0
    ensures AccumulateAll(vs) == if |vs| == 0 then Empty else Sum(vs)
    ensures |vs| > 0 ==> AccumulateAll(vs) >= 0.0
  {
    if |vs| > 0 {
      AccumulateSums(vs[..|vs| - 1]);
    }
  }

  /** _submit_value: what reaches collectd for one submission; exactly the sentinel is dropped. */
  function Dispatch(s: Submission): (r: seq<Submission>)
    ensures r == [] <==> s.value == Empty
    ensures r != [] ==> r == [s]
  {
    if s.value == Empty then [] else [s]
  }
}
