/**
 * The LIKWID plugin's global state (c/likwid.c:83-160) as one object, and
 * the callbacks collectd invokes on it: config (once per key), init, read
 * (repeatedly) and notify. perfmon and the CPU topology are parameters:
 * the topology's hardware threads, perfmon's event set ids, metric names,
 * counter setup results and measured values.
 */
module LikwidPlugin {
  import opened Util
  import opened Floats
  import opened LikwidMetrics
  import opened LikwidConfig
  import opened LikwidTopology
  import opened LikwidSetup
  import opened LikwidRead
  import CdTime

  /** One hardware thread of the topology: its APIC id, package (socket) id and core id. */
  datatype HwThread = HwThread(apicId: int, packageId: int, coreId: int)

  function ApicIds(threads: seq<HwThread>): (r: seq<int>)
    ensures |r| == |threads| && forall i :: 0 <= i < |threads| ==> r[i] == threads[i].apicId
  {
    seq(|threads|, i requires 0 <= i < |threads| => threads[i].apicId)
  }

  function PackageIds(threads: seq<HwThread>): (r: seq<int>)
    ensures |r| == |threads| && forall i :: 0 <= i < |threads| ==> r[i] == threads[i].packageId
  {
    seq(|threads|, i requires 0 <= i < |threads| => threads[i].packageId)
  }

  function CoreIdsOf(threads: seq<HwThread>): (r: seq<int>)
    ensures |r| == |threads| && forall i :: 0 <= i < |threads| ==> r[i] == threads[i].coreId
  {
    seq(|threads|, i requires 0 <= i < |threads| => threads[i].coreId)
  }

  /** The timestamp of a read: now plus one measurement time per group, on uint64_t. */
  function ReadTime(now: nat, mTimeCd: nat, numGroups: nat): (t: nat)
    ensures t < CdTime.Two64
  {
    CdTime.U64(now + CdTime.U64(mTimeCd * numGroups))
  }

  lemma ReadTimeIs(now: nat, mTimeCd: nat, numGroups: nat)
    ensures ReadTime(now, mTimeCd, numGroups) == CdTime.U64(now + CdTime.U64(mTimeCd * numGroups))
  {
  }

  /** likwid_plugin_notify's effect on plugin_disabled. */
  function NotifyEffect(disabled: bool, plugin: Option<string>, message: string): bool {
    if plugin.None? || StrncmpEqual(plugin.value, "likwid", 6) then
      if StrncmpEqual(message, "rstCtrs", 7) then disabled
      else if StrncmpEqual(message, "disable", 7) then true
      else if StrncmpEqual(message, "enable", 6) then false
      else disabled
    else disabled
  }

  /**
   * Notifications for this plugin (no plugin named, or one whose name
   * starts with "likwid") disable reading on a message starting with
   * "disable" and enable it on one starting with "enable"; everything
   * else, "rstCtrs" included, leaves the flag as it is.
   */
  lemma NotifyByPrefix(disabled: bool, plugin: Option<string>, message: string)
    ensures var forUs := plugin.None? || StartsWith(plugin.value, "likwid");
            NotifyEffect(disabled, plugin, message) ==
            if forUs && StartsWith(message, "disable") then true
            else if forUs && StartsWith(message, "enable") then false
            else disabled
  {
    if plugin.Some? {
      StrncmpPrefix(plugin.value, "likwid");
    }
    StrncmpPrefix(message, "rstCtrs");
    StrncmpPrefix(message, "disable");
    StrncmpPrefix(message, "enable");
    if StartsWith(message, "rstCtrs") {
      assert message[6] == 's';
      assert !StartsWith(message, "disable") && !StartsWith(message, "enable");
    }
    if StartsWith(message, "disable") {
      assert !StartsWith(message, "enable") by { assert message[0] == 'd'; }
    }
  }

  /** Fresh accumulators, all sentinels, fit whatever groups the setup produced. */
  lemma FreshSlotsValid(v: View, groups: seq<Group>, normalize: bool, summarizeFlops: bool)
    requires WellFormed(v)
    ensures var w := v.(groups := groups, normalize := normalize, summarizeFlops := summarizeFlops);
            var flops := if summarizeFlops then seq(|v.hwThreads|, _ => Empty) else [];
            WellFormed(w) && CoreShaped(w, PerCoreSlots(groups, v.numCores)) && FlopsShaped(w, flops) &&
            FlopsEmpty(flops) && CoresEmpty(PerCoreSlots(groups, v.numCores))
  {
  }

  /** The thread-to-core tables do not depend on the groups. */
  lemma WellFormedWithGroups(v: View, groups: seq<Group>, normalize: bool)
    requires WellFormed(v)
    ensures WellFormed(v.(groups := groups, normalize := normalize))
  {
  }

  class Plugin {
    var disabled: bool
    var accessMode: int
    var mTimeSec: int
    var mTimeNsec: int
    var mTimeCd: nat
    var verbose: int
    var normalizeFlops: bool
    var summarizeFlops: bool
    var flopsName: string
    var flopsValues: seq<real>
    var maxValues: seq<MaxValue>
    var counterLimit: nat
    var groups: seq<Group>
    /** The perCoreValues arrays of the metrics: group, metric, core. */
    var perCoreValues: seq<seq<seq<real>>>
    var hwThreads: seq<int>
    var socketThreads: seq<int>
    var perSocketMetrics: seq<string>
    var summarizePerCore: bool
    var numCores: nat
    var coreIndices: seq<int>
    var coreIds: seq<int>

    /** The state the configuration callback writes. */
    function Config(): Settings
      reads this`normalizeFlops, this`flopsName, this`accessMode, this`mTimeSec, this`mTimeNsec,
            this`summarizePerCore, this`verbose, this`groups, this`perSocketMetrics, this`maxValues
    {
      Settings(normalizeFlops, flopsName, accessMode, mTimeSec, mTimeNsec, summarizePerCore, verbose,
               groups, perSocketMetrics, maxValues)
    }

    /** The state the read callback consults. */
    function State(): View
      reads this`groups, this`normalizeFlops, this`summarizeFlops, this`summarizePerCore, this`flopsName,
            this`hwThreads, this`socketThreads, this`coreIndices, this`coreIds, this`numCores
    {
      View(groups, normalizeFlops, summarizeFlops, summarizePerCore, flopsName, hwThreads, socketThreads,
           coreIndices, coreIds, numCores)
    }

    /**
     * The thread-to-core tables of _init_likwid: with per-core summation on,
     * each thread holds its core's index (threads share an index exactly
     * when they share a core) and coreIds lists the cores in order of first
     * appearance; with it off, the tables stay empty.
     */
    predicate CoreTables(threads: seq<HwThread>, numSockets: nat, coresPerSocket: nat)
      reads this`summarizePerCore, this`numCores, this`coreIds, this`coreIndices
    {
      && (summarizePerCore ==>
            numCores == coresPerSocket * numSockets && |coreIds| == numCores && |coreIndices| == |threads| &&
            |Cores(CoreIdsOf(threads))| <= numCores &&
            (forall k :: 0 <= k < |threads| ==> coreIndices[k] == CoreIndex(CoreIdsOf(threads), k)) &&
            coreIds[..|Cores(CoreIdsOf(threads))|] == Cores(CoreIdsOf(threads)))
      && (summarizePerCore ==> forall a, b :: 0 <= a < |threads| && 0 <= b < |threads| ==>
            (coreIndices[a] == coreIndices[b] <==> threads[a].coreId == threads[b].coreId))
      && (!summarizePerCore ==> numCores == 0 && coreIds == [] && coreIndices == [])
    }

    /** Before init: no topology, no accumulators. */
    predicate Unstarted()
      reads this`summarizeFlops, this`flopsValues, this`perCoreValues, this`numCores, this`coreIds, this`coreIndices
    {
      !summarizeFlops && flopsValues == [] && perCoreValues == [] && numCores == 0 && coreIds == [] && coreIndices == []
    }

    lemma StateFields()
      ensures State() == View(groups, normalizeFlops, summarizeFlops, summarizePerCore, flopsName, hwThreads,
                              socketThreads, coreIndices, coreIds, numCores)
    {
    }

    lemma UnstartedMeans()
      requires Unstarted()
      ensures !summarizeFlops && flopsValues == [] && perCoreValues == [] && numCores == 0 && coreIds == [] &&
              coreIndices == []
    {
    }

    /**
     * Between reads: the thread-to-core tables are consistent, every
     * accumulator has its slots, and every slot holds the sentinel.
     */
    predicate Valid()
      reads this`groups, this`normalizeFlops, this`summarizeFlops, this`summarizePerCore, this`flopsName,
            this`hwThreads, this`socketThreads, this`coreIndices, this`coreIds, this`numCores,
            this`flopsValues, this`perCoreValues
    {
      WellFormed(State()) && CoreShaped(State(), perCoreValues) && FlopsShaped(State(), flopsValues) &&
      FlopsEmpty(flopsValues) && CoresEmpty(perCoreValues)
    }

    /** The static initial values. */
    constructor()
      ensures Config() == InitialSettings() && Unstarted()
      ensures !disabled && mTimeCd == 0 && counterLimit == 0 && hwThreads == [] && socketThreads == []
    {
      disabled := false;
      accessMode := 0;
      mTimeSec, mTimeNsec := 10, 0;
      mTimeCd := 0;
      verbose := 1;
      normalizeFlops := false;
      summarizeFlops := false;
      flopsName := "flops_any";
      flopsValues := [];
      maxValues := [];
      counterLimit := 0;
      groups := [];
      perCoreValues := [];
      hwThreads := [];
      socketThreads := [];
      perSocketMetrics := [];
      summarizePerCore := false;
      numCores := 0;
      coreIndices := [];
      coreIds := [];
    }

    /** likwid_plugin_config (c/likwid.c:777-940). */
    method Configure(key: string, value: string, strtod: string -> real) returns (status: int)
      modifies this`normalizeFlops, this`flopsName, this`accessMode, this`mTimeSec, this`mTimeNsec,
               this`summarizePerCore, this`verbose, this`groups, this`perSocketMetrics, this`maxValues
      ensures Config() == ApplyConfig(old(Config()), key, value, strtod).settings
      ensures status == ApplyConfig(old(Config()), key, value, strtod).status
    {
      hide EqualIgnoringCase, Atoi, GroupSlots, Tokens, ParseMaxValues, Trunc, StrncmpEqual;
      status := 0;
      if EqualIgnoringCase(key, "NormalizeFlops") {
        normalizeFlops := true;
        flopsName := value;
      } else if EqualIgnoringCase(key, "AccessMode") {
        accessMode := Atoi(value);
      } else if EqualIgnoringCase(key, "Mtime") {
        var seconds := strtod(value);
        mTimeSec := Trunc(seconds);
        mTimeNsec := Trunc((seconds - mTimeSec as real) * 1_000_000_000.0);
      } else if EqualIgnoringCase(key, "PerCore") {
        summarizePerCore := true;
      } else if EqualIgnoringCase(key, "Verbose") {
        verbose := Atoi(value);
      } else if EqualIgnoringCase(key, "Groups") {
        groups := NameGroups(value);
      } else if EqualIgnoringCase(key, "PerSocketMetrics") {
        perSocketMetrics := Tokens(value, ',');
      } else if EqualIgnoringCase(key, "MaxValues") {
        if |value| == 0 {
          status := 1;
        } else {
          var ok;
          maxValues, ok := ReadMaxValues(Tokens(value, ','), strtod);
          if !ok {
            status := 1;
          }
        }
      } else {
        status := -1;
      }
    }

    /** The socket loop of _init_likwid (c/likwid.c:380-408). */
    method InitThreads(threads: seq<HwThread>, numSockets: nat)
      modifies this`hwThreads, this`socketThreads
      requires numSockets >= 1
      ensures hwThreads == ApicIds(threads)
      ensures socketThreads == SocketThreads(PackageIds(threads), numSockets).threads
    {
      hwThreads := ApicIds(threads);
      var indices, count := SelectSocketThreads(PackageIds(threads), numSockets);
      socketThreads := indices[..count];
    }

    /** The per-core tables of _init_likwid (c/likwid.c:410-450). */
    method InitCores(threads: seq<HwThread>, numSockets: nat, threadsPerCore: nat, coresPerSocket: nat)
      modifies this`summarizePerCore, this`numCores, this`coreIndices, this`coreIds
      requires numCores == 0 && coreIds == [] && coreIndices == []
      requires summarizePerCore && threadsPerCore != 1 ==>
                 |Cores(CoreIdsOf(threads))| <= coresPerSocket * numSockets <= |threads|
      ensures summarizePerCore == (old(summarizePerCore) && threadsPerCore != 1)
      ensures CoreTables(threads, numSockets, coresPerSocket)
    {
      if !summarizePerCore || threadsPerCore == 1 {
        summarizePerCore := false;
      } else {
        numCores := coresPerSocket * numSockets;
        var indexArray, idArray := AssignCoreIndices(CoreIdsOf(threads), numCores);
        coreIndices := indexArray[..];
        coreIds := idArray[..];
        forall a, b | 0 <= a < |threads| && 0 <= b < |threads|
          ensures coreIndices[a] == coreIndices[b] <==> threads[a].coreId == threads[b].coreId
        {
          SameIndexSameCore(CoreIdsOf(threads), a, b);
        }
      }
    }

    /**
     * _init_likwid (c/likwid.c:357-460): the monitored threads, the thread
     * that reports the per-socket metrics of each socket, the thread-to-core
     * tables if per-core summation stays on, and the counter limit.
     */
    method Init(threads: seq<HwThread>, numSockets: nat, threadsPerCore: nat, coresPerSocket: nat, counterWidth: nat)
      modifies this`hwThreads, this`socketThreads, this`summarizePerCore, this`numCores, this`coreIndices,
               this`coreIds, this`counterLimit
      requires Unstarted() && numSockets >= 1 && counterWidth < 63
      requires summarizePerCore && threadsPerCore != 1 ==>
                 |Cores(CoreIdsOf(threads))| <= coresPerSocket * numSockets <= |threads|
      ensures hwThreads == ApicIds(threads)
      ensures socketThreads == SocketThreads(PackageIds(threads), numSockets).threads
      ensures summarizePerCore == (old(summarizePerCore) && threadsPerCore != 1)
      ensures CoreTables(threads, numSockets, coresPerSocket)
      ensures counterLimit == if counterWidth > 0 then CounterLimit(counterWidth) else old(counterLimit)
      ensures WellFormed(State())
    {
      InitThreads(threads, numSockets);
      InitCores(threads, numSockets, threadsPerCore, coresPerSocket);
      if counterWidth > 0 {
        counterLimit := CounterLimit(counterWidth);
      }
    }

    /** The group loop of _setupGroups (c/likwid.c:195-298); answers numFlopMetrics. */
    method SetupEventSets(addEventSet: string -> int, metricNames: int -> seq<string>) returns (flopMetrics: nat)
      modifies this`groups, this`normalizeFlops
      ensures (groups, SetupState(normalizeFlops, flopMetrics)) ==
              SetupGroups(MetricConfig(perSocketMetrics, flopsName, counterLimit, maxValues),
                          SetupState(old(normalizeFlops), 0), old(groups), addEventSet, metricNames)
    {
      hide SetupGroups;
      var cfg := MetricConfig(perSocketMetrics, flopsName, counterLimit, maxValues);
      var st;
      groups, st := SetupGroupsLoop(cfg, SetupState(normalizeFlops, 0), groups, addEventSet, metricNames);
      normalizeFlops := st.normalize;
      flopMetrics := st.flopMetrics;
    }

    /**
     * The accumulators _setupGroups allocates (c/likwid.c:264-279, 302-319):
     * a per-core slot for every metric, and a per-thread FLOPS slot once
     * more than one FLOPS metric is normalized, all holding the sentinel.
     */
    method AllocateSlots(flopMetrics: nat)
      modifies this`perCoreValues, this`summarizeFlops, this`flopsValues
      requires WellFormed(State()) && !summarizeFlops && flopsValues == []
      ensures perCoreValues == PerCoreSlots(groups, numCores)
      ensures summarizeFlops == (flopMetrics > 1)
      ensures flopsValues == if summarizeFlops then seq(|hwThreads|, _ => Empty) else []
      ensures Valid()
    {
      hide PerCoreSlots, WellFormed, CoreShaped, FlopsShaped, FlopsEmpty, CoresEmpty;
      perCoreValues := PerCoreSlots(groups, numCores);
      if flopMetrics > 1 {
        summarizeFlops := true;
        flopsValues := seq(|hwThreads|, _ => Empty);
      }
      FreshSlotsValid(old(State()), groups, normalizeFlops, summarizeFlops);
    }

    /** _setupGroups (c/likwid.c:183-323): the event sets and metrics, then the accumulators. */
    method SetupAllGroups(addEventSet: string -> int, metricNames: int -> seq<string>)
      modifies this`groups, this`normalizeFlops, this`perCoreValues, this`summarizeFlops, this`flopsValues
      requires WellFormed(State()) && !summarizeFlops && flopsValues == []
      ensures var r := SetupGroups(MetricConfig(perSocketMetrics, flopsName, counterLimit, maxValues),
                                   SetupState(old(normalizeFlops), 0), old(groups), addEventSet, metricNames);
              groups == r.0 && normalizeFlops == r.1.normalize && summarizeFlops == (r.1.flopMetrics > 1)
      ensures Valid()
    {
      hide *;
      StateFields();
      ghost var initialized := State();
      var flopMetrics := SetupEventSets(addEventSet, metricNames);
      StateFields();
      WellFormedWithGroups(initialized, groups, normalizeFlops);
      AllocateSlots(flopMetrics);
    }

    /**
     * likwid_plugin_init (c/likwid.c:733-744): the measurement time in
     * cdtime_t, then _init_likwid and _setupGroups. Threads on one core
     * share one per-core slot, and threads on different cores do not.
     */
    method Start(threads: seq<HwThread>, numSockets: nat, threadsPerCore: nat, coresPerSocket: nat, counterWidth: nat,
                 addEventSet: string -> int, metricNames: int -> seq<string>) returns (status: int)
      modifies this`mTimeCd, this`hwThreads, this`socketThreads, this`summarizePerCore, this`numCores,
               this`coreIndices, this`coreIds, this`counterLimit, this`groups, this`normalizeFlops,
               this`perCoreValues, this`summarizeFlops, this`flopsValues
      requires Unstarted() && numSockets >= 1 && counterWidth < 63
      requires summarizePerCore && threadsPerCore != 1 ==>
                 |Cores(CoreIdsOf(threads))| <= coresPerSocket * numSockets <= |threads|
      ensures status == 0 && Valid()
      ensures mTimeCd == CdTime.FromTimespec(mTimeSec, mTimeNsec)
      ensures hwThreads == ApicIds(threads)
      ensures socketThreads == SocketThreads(PackageIds(threads), numSockets).threads
      ensures summarizePerCore == (old(summarizePerCore) && threadsPerCore != 1)
      ensures CoreTables(threads, numSockets, coresPerSocket)
      ensures counterLimit == if counterWidth > 0 then CounterLimit(counterWidth) else old(counterLimit)
      ensures var r := SetupGroups(MetricConfig(perSocketMetrics, flopsName, counterLimit, maxValues),
                                   SetupState(old(normalizeFlops), 0), old(groups), addEventSet, metricNames);
              groups == r.0 && normalizeFlops == r.1.normalize && summarizeFlops == (r.1.flopMetrics > 1)
    {
      hide *;
      UnstartedMeans();
      mTimeCd := CdTime.FromTimespec(mTimeSec, mTimeNsec);
      Init(threads, numSockets, threadsPerCore, coresPerSocket, counterWidth);
      SetupAllGroups(addEventSet, metricNames);
      status := 0;
    }

    /**
     * likwid_plugin_read (c/likwid.c:559-731): nothing while disabled;
     * otherwise the submissions of ReadOut at now plus one measurement time
     * per group. The accumulators are filled and put back to the sentinel
     * within the call, so the plugin's state is the same after it.
     */
    method Read(now: nat, setupCounters: int -> bool, measure: (int, nat, nat) -> Float) returns (out: seq<Submission>)
      requires Valid()
      ensures out == if disabled then []
                     else ReadOut(State(), flopsValues, perCoreValues, setupCounters, measure,
                                  ReadTime(now, mTimeCd, |groups|))
    {
      hide ReadOut, ReadTime, StrncmpEqual, EqualIgnoringCase;
      if disabled {
        return [];
      }
      var time := CdTime.U64(now + CdTime.U64(mTimeCd * |groups|));
      assert time == ReadTime(now, mTimeCd, |groups|) by { ReadTimeIs(now, mTimeCd, |groups|); }
      var flops, perCore;
      out, flops, perCore := ReadAll(State(), flopsValues, perCoreValues, setupCounters, measure, time);
    }

    /** likwid_plugin_notify (c/likwid.c:755-769); resetting the counters is perfmon's and not modelled. */
    method Notify(plugin: Option<string>, message: string)
      modifies this`disabled
      ensures disabled == NotifyEffect(old(disabled), plugin, message)
    {
      hide StrncmpEqual;
      if plugin.None? || StrncmpEqual(plugin.value, "likwid", 6) {
        if StrncmpEqual(message, "rstCtrs", 7) {
        } else if StrncmpEqual(message, "disable", 7) {
          disabled := true;
        } else if StrncmpEqual(message, "enable", 6) {
          disabled := false;
        }
      }
    }
  }
}
