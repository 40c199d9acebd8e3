/**
 * The module-level state of the InfluxDB writer (python/influx_write.py) and
 * the callbacks that change it: `_collect`, `_prepare_metrics`, `_send`,
 * `write`, `flush`, and the PerCore option of `set_config`. Each method is
 * proved against a pure function of InfluxBatch, InfluxPrepare or this
 * module; the lemmas at the end are about those functions.
 */
module InfluxEngine {
  import opened Util
  import opened Floats
  import opened OrderedDict
  import opened InfluxBatch
  import opened InfluxPrepare

  // ---------------------------------------------------------------------
  // _getInteger and the PerCore option
  // ---------------------------------------------------------------------

  /**
   * _getInteger: int() of the text, or else the single leading ASCII digit
   * that the pattern \d matches at the start, or None.
   */
  function GetInteger(s: string): (r: Option<int>)
    ensures ParseInt(s).Some? ==> r == ParseInt(s)
    ensures |s| > 0 && IsDigit(s[0]) ==> r.Some?
    ensures r.None? <==> ParseInt(s).None? && !(|s| > 0 && IsDigit(s[0]))
  {
    match ParseInt(s)
    case Some(n) => Some(n)
    case None => if |s| > 0 && IsDigit(s[0]) then Some(DigitValue(s[0])) else None
  }

  /** The digits at the start of s. */
  function LeadingDigits(s: string): (d: string)
    ensures AllDigits(d) && |d| <= |s| && d == s[..|d|]
    ensures |d| < |s| ==> !IsDigit(s[|d|])
    decreases |s|
  {
    if |s| > 0 && IsDigit(s[0]) then [s[0]] + LeadingDigits(s[1..]) else []
  }

  /** _getInteger as its comment describes it: int() of the text, or else the whole number at its start. */
  function GetIntegerCorrected(s: string): (r: Option<int>)
    ensures ParseInt(s).Some? ==> r == ParseInt(s)
    ensures r.None? <==> ParseInt(s).None? && !(|s| > 0 && IsDigit(s[0]))
  {
    match ParseInt(s)
    case Some(n) => Some(n)
    case None =>
      var d := LeadingDigits(s);
      if |d| > 0 then Some(DecimalValue(d)) else None
  }

  /** A number followed by text that int() refuses: it ends with no space and does not go on with a digit. */
  predicate NumberThenText(n: nat, rest: string) {
    |rest| > 0 && !IsDigit(rest[0]) && !IsSpace(rest[|rest| - 1])
  }

  lemma NumberThenTextIsNoInt(n: nat, rest: string)
    requires NumberThenText(n, rest)
    ensures ParseInt(NatToString(n) + rest).None?
    ensures LeadingDigits(NatToString(n) + rest) == NatToString(n)
  {
    hide Strip, TrimmedOf;
    var d := NatToString(n);
    var s := d + rest;
    assert s[0] == d[0] && s[|s| - 1] == rest[|rest| - 1];
    StripUnchanged(s);
    assert !AllDigits(s) by { assert s[|d|] == rest[0]; }
    var l := LeadingDigits(s);
    assert forall i :: 0 <= i < |d| ==> s[i] == d[i];
    assert l == s[..|l|] == d;
  }

  /**
   * The fallback of _getInteger keeps only the first digit: for a number of
   * two or more digits followed by text ("12x"), it reads the first digit
   * (1) instead of the number.
   */
  lemma GetIntegerReadsOneDigit(n: nat, rest: string)
    requires n >= 10 && NumberThenText(n, rest)
    ensures GetInteger(NatToString(n) + rest) == Some(DigitValue(NatToString(n)[0]))
    ensures GetInteger(NatToString(n) + rest) != Some(n)
  {
    NumberThenTextIsNoInt(n, rest);
    assert (NatToString(n) + rest)[0] == NatToString(n)[0];
  }

  /** The corrected fallback reads the whole number at the start of the text. */
  lemma GetIntegerCorrectedReadsNumber(n: nat, rest: string)
    requires NumberThenText(n, rest)
    ensures GetIntegerCorrected(NatToString(n) + rest) == Some(n)
  {
    NumberThenTextIsNoInt(n, rest);
  }

  /** A plain decimal numeral reads back as its value, in both versions. */
  lemma GetIntegerOfNumeral(n: nat)
    ensures GetInteger(NatToString(n)) == Some(n)
    ensures GetIntegerCorrected(NatToString(n)) == Some(n)
  {
  }

  /** The state of the PerCore loop: per_core_plugins, per_core_avg_plugins, and whether v[1] raised. */
  datatype PerCore = PerCore(plugins: seq<string>, avgPlugins: seq<string>, raised: bool)

  /** The plugin name of a PerCore entry: the text before the first colon. */
  function EntryPlugin(value: string): string {
    SplitOn(value, ':')[0]
  }

  /** Whether a PerCore entry has a mode after a colon (v[1] exists). */
  predicate HasMode(value: string) {
    |SplitOn(value, ':')| >= 2
  }

  /** One entry: the plugin is appended, then v[1] raises or, when it is "avg", the plugin is also averaged. */
  function PerCoreStep(p: PerCore, value: string): PerCore {
    var v := SplitOn(value, ':');
    var plugins := p.plugins + [v[0]];
    if |v| < 2 then PerCore(plugins, p.avgPlugins, true)
    else if v[1] == "avg" then PerCore(plugins, p.avgPlugins + [v[0]], false)
    else PerCore(plugins, p.avgPlugins, false)
  }

  /** The loop over the entries, which an exception ends. */
  function PerCoreLoop(p: PerCore, values: seq<string>): PerCore
    decreases |values|
  {
    if |values| == 0 then p
    else
      var q := PerCoreLoop(p, values[..|values| - 1]);
      if q.raised then q else PerCoreStep(q, values[|values| - 1])
  }

  /**
   * The PerCore branch of set_config when _setHWThreadMapping reports
   * `mappingOk`: per_core_avg_plugins starts again from [], per_core_plugins
   * keeps what earlier PerCore options added.
   */
  function ConfigurePerCoreSpec(cfg: Config, values: seq<string>, mappingOk: bool): (Config, bool) {
    if !mappingOk then (cfg, false)
    else
      var r := PerCoreLoop(PerCore(cfg.perCorePlugins, [], false), values);
      (cfg.(perCorePlugins := r.plugins, perCoreAvgPlugins := r.avgPlugins), r.raised)
  }

  // ---------------------------------------------------------------------
  // The writer's state and its transitions
  // ---------------------------------------------------------------------

  /** The globals batch, batch_count, batch_derive and currentTimestamp. */
  datatype WriterState = WriterState(batch: Batch, batchCount: int, derive: map<string, ValueList>, currentTimestamp: int)

  /** After a call: the new state, whether _send was called, and whether an exception left the call. */
  datatype WriteResult = WriteResult(state: WriterState, sent: bool, raised: bool)

  function InitialState(): WriterState {
    WriterState([], 0, map[], 0)
  }

  /**
   * _send with `delivered` standing for the outcome of the connection and of
   * write_points. An exception of _prepare_metrics leaves the batch and
   * keeps the baselines it advanced; no points, or points delivered, empty
   * the batch; otherwise the batch stays for the next attempt.
   */
  function SendSpec(cfg: Config, s: WriterState, delivered: bool): (WriterState, bool) {
    var p := Prepare(cfg, s.batch, s.derive);
    var s1 := s.(derive := p.derive);
    if p.raised then (s1, true)
    else if |p.points| == 0 || delivered then (s1.(batch := [], batchCount := 0), false)
    else (s1, false)
  }

  /** The last step of write: collect while batch_count <= cache_size, counting the value lists that were added. */
  function CollectSpec(cfg: Config, s: WriterState, vl: ValueList, sent: bool): WriteResult {
    match cfg.cacheSize
    case None => WriteResult(s, sent, true)
    case Some(c) =>
      if s.batchCount <= c then
        var (b, outcome) := Collect(cfg, s.batch, vl);
        WriteResult(s.(batch := b, batchCount := if outcome == Added then s.batchCount + 1 else s.batchCount), sent, outcome == Raised)
      else
        WriteResult(s, sent, false)
  }

  /**
   * write: nothing without an InfluxDB client; otherwise the second of the
   * value list becomes the current timestamp, a change of second with at
   * least batch_size entries sends first, and then the value list is
   * collected. A batch_size or cache_size of None raises TypeError where it
   * is compared.
   */
  function WriteSpec(cfg: Config, s: WriterState, vl: ValueList, delivered: bool): WriteResult {
    if !cfg.clientAvailable then WriteResult(s, false, false)
    else
      var t := TruncSeconds(vl.time);
      var s1 := s.(currentTimestamp := t);
      if s.currentTimestamp == 0 || s.currentTimestamp == t then CollectSpec(cfg, s1, vl, false)
      else
        match cfg.batchSize
        case None => WriteResult(s1, false, true)
        case Some(bs) =>
          if s.batchCount < bs then CollectSpec(cfg, s1, vl, false)
          else
            var (s2, raised) := SendSpec(cfg, s1, delivered);
            if raised then WriteResult(s2, true, true) else CollectSpec(cfg, s2, vl, true)
  }

  // ---------------------------------------------------------------------
  // The writer
  // ---------------------------------------------------------------------

  class Writer {
    var cfg: Config
    var batch: Batch
    var batchCount: int
    var derive: map<string, ValueList>
    var currentTimestamp: int

    function Current(): WriterState
      reads this
    {
      WriterState(batch, batchCount, derive, currentTimestamp)
    }

    constructor(cfg: Config)
      ensures this.cfg == cfg && Current() == InitialState()
    {
      this.cfg := cfg;
      batch := [];
      batchCount := 0;
      derive := map[];
      currentTimestamp := 0;
    }

    /** _collect: the reversed scan for a same-group entry and the element-wise sum are loops over the bucket. */
    method Collect(vl: ValueList) returns (outcome: CollectOutcome)
      modifies this
      ensures (batch, outcome) == InfluxBatch.Collect(cfg, old(batch), vl)
      ensures cfg == old(cfg) && batchCount == old(batchCount) && derive == old(derive) && currentTimestamp == old(currentTimestamp)
    {
      if vl.plugin == [] {
        return NoPlugin;
      }
      var tag := vl.pluginInstance;
      var v := vl;
      var perCore := IsPerCore(cfg, vl);
      if perCore {
        var core := CoreTag(cfg.coreMapping, tag);
        if core.None? {
          return Raised;
        }
        tag := core.value;
        v := vl.(pluginInstance := tag);
      }
      assert InfluxBatch.Collect(cfg, batch, vl) == Store(batch, v, tag, perCore);
      var tags: Option<Dict<string, Bucket>> := Get(batch, v.plugin);
      if tags.None? {
        batch := Put(batch, v.plugin, [(tag, [v])]);
        return Added;
      }
      var bucket: Option<Bucket> := Get(tags.value, tag);
      if bucket.None? {
        batch := Put(batch, v.plugin, Put(tags.value, tag, [v]));
        return Added;
      }
      var entries: Bucket := bucket.value;
      if perCore {
        var i := FindGroup(entries, v);
        if i.Some? {
          var stored := entries[i.value];
          var values, raised := AddInto(stored.values, v.values);
          batch := Put(batch, v.plugin, Put(tags.value, tag, entries[i.value := stored.(values := values)]));
          return if raised then Raised else Merged;
        }
      }
      batch := Put(batch, v.plugin, Put(tags.value, tag, entries + [v]));
      return Added;
    }

    /** The reversed scan of _collect: the last entry of the bucket with v's type, type instance and second. */
    method FindGroup(entries: Bucket, v: ValueList) returns (r: Option<nat>)
      ensures r == LastMatch(entries, v)
    {
      var time := TruncSeconds(v.time);
      var i := |entries|;
      while i > 0
        invariant 0 <= i <= |entries|
        invariant forall j :: i <= j < |entries| ==> !SameGroup(entries[j], v)
      {
        i := i - 1;
        var stored := entries[i];
        if stored.typeName == v.typeName && stored.typeInstance == v.typeInstance && TruncSeconds(stored.time) == time {
          return Some(i);
        }
      }
      return None;
    }

    /**
     * `vlStored.values[idx] += valueList.values[idx]` for every index of the
     * stored values; IndexError when the added values run out first, with
     * the sums made so far kept.
     */
    method AddInto(stored: seq<Float>, added: seq<Float>) returns (values: seq<Float>, raised: bool)
      ensures values == MergeValues(stored, added)
      ensures raised <==> |added| < |stored|
    {
      values, raised := stored, false;
      var idx := 0;
      while idx < |values|
        invariant 0 <= idx <= |values| == |stored|
        invariant idx <= |added|
        invariant forall k :: 0 <= k < idx ==> values[k] == Add(stored[k], added[k])
        invariant forall k :: idx <= k < |values| ==> values[k] == stored[k]
      {
        if idx >= |added| {
          raised := true;
          break;
        }
        values := values[idx := Add(values[idx], added[idx])];
        idx := idx + 1;
      }
    }

    /** The innermost loop body of _prepare_metrics: value midx of vl, at second `time`. */
    method AddValue(m: string, vl: ValueList, midx: nat, time: int,
                    points: seq<Point>, lastTime: int, fields: map<string, Float>, tags: map<string, string>, counterId: Option<string>)
      returns (points': seq<Point>, lastTime': int, fields': map<string, Float>, counterId': Option<string>, raised: bool)
      requires midx < |vl.values| && time == TruncSeconds(vl.time)
      ensures Walk(points', derive, lastTime', fields', tags, counterId', raised) ==
        Apply(ValueAction(cfg, m, vl, midx, derive), m, time, CounterId(vl), Walk(points, derive, lastTime, fields, tags, counterId, false))
    {
      points', lastTime', fields', counterId', raised := points, lastTime, fields, counterId, false;
      var value := vl.values[midx];
      if Dropped(value) {
        return;
      }
      if vl.typeName !in cfg.datasets {
        raised := true;
        return;
      }
      var ds := cfg.datasets[vl.typeName];
      var fieldName := FieldName(vl, ds, midx);
      if m in cfg.perCoreAvgPlugins {
        if cfg.threadsPerCore == 0 {
          raised := true;
          return;
        }
        value := DivPos(value, cfg.threadsPerCore as real);
      }
      if cfg.storeRates {
        if midx >= |ds| {
          raised := true;
          return;
        }
        if ds[midx].kind == Derive || ds[midx].kind == Counter {
          var id := CounterId(vl);
          if id !in derive {
            counterId' := Some(id);
            return;
          }
          var prev := derive[id];
          var diffTime := time - TruncSeconds(prev.time);
          if diffTime <= 0 {
            counterId' := Some(id);
            return;
          }
          if midx >= |prev.values| {
            raised := true;
            return;
          }
          value := DivPos(Sub(value, prev.values[midx]), diffTime as real);
          counterId' := Some(id);
        }
      }
      if time == lastTime {
        fields' := fields[fieldName := value];
      } else {
        if |fields| > 0 {
          points' := points + [Point(m, lastTime, tags, fields)];
        }
        fields' := map[fieldName := value];
      }
      lastTime' := time;
    }

    /** One value list of a bucket: its tags, its values, and its new baseline. */
    method PrepareValueList(m: string, tag: string, vl: ValueList,
                            points: seq<Point>, lastTime: int, fields: map<string, Float>, tags: map<string, string>, counterId: Option<string>)
      returns (points': seq<Point>, lastTime': int, fields': map<string, Float>, tags': map<string, string>, counterId': Option<string>, raised: bool)
      modifies this
      ensures cfg == old(cfg) && batch == old(batch) && batchCount == old(batchCount) && currentTimestamp == old(currentTimestamp)
      ensures Walk(points', derive, lastTime', fields', tags', counterId', raised) ==
        ValueListStep(cfg, m, tag, vl, Walk(points, old(derive), lastTime, fields, tags, counterId, false))
    {
      hide ValueAction, AddField, Apply, TruncSeconds;
      points', lastTime', fields', raised := points, lastTime, fields, false;
      counterId' := None;
      tags' := PointTags(m, tag, vl.host);
      if |vl.values| == 0 {
        return;
      }
      var time := TruncSeconds(vl.time);
      ghost var start := Walk(points', derive, lastTime', fields', tags', counterId', false);
      ghost var acts := Actions(cfg, m, vl, derive);
      ghost var f := ApplyFn(m, time, CounterId(vl));
      var midx := 0;
      while midx < |vl.values| && !raised
        invariant midx <= |vl.values|
        invariant unchanged(this)
        invariant Walk(points', derive, lastTime', fields', tags', counterId', raised) == Fold(f, acts[..midx], start)
      {
        points', lastTime', fields', counterId', raised := AddValue(m, vl, midx, time, points', lastTime', fields', tags', counterId');
        FoldAppend(f, acts[..midx], acts[midx], start);
        assert acts[..midx + 1] == acts[..midx] + [acts[midx]];
        midx := midx + 1;
      }
      ApplyStops(m, time, CounterId(vl));
      FoldRest(f, acts, midx, start);
      if !raised && counterId'.Some? && counterId'.value != [] {
        derive := derive[counterId'.value := vl];
      }
    }

    /** One bucket: a fresh open point, the value lists in order, then the open point is emitted. */
    method PrepareBucket(m: string, tag: string, bucket: Bucket,
                         points: seq<Point>, lastTime: int, fields: map<string, Float>, tags: map<string, string>, counterId: Option<string>)
      returns (points': seq<Point>, lastTime': int, fields': map<string, Float>, tags': map<string, string>, counterId': Option<string>, raised: bool)
      modifies this
      ensures cfg == old(cfg) && batch == old(batch) && batchCount == old(batchCount) && currentTimestamp == old(currentTimestamp)
      ensures Walk(points', derive, lastTime', fields', tags', counterId', raised) ==
        BucketStep(cfg, m, tag, bucket, Walk(points, old(derive), lastTime, fields, tags, counterId, false))
    {
      hide ValueListStep;
      points', lastTime', fields', tags', counterId', raised := points, -1, map[], tags, counterId, false;
      ghost var start := Walk(points', derive, lastTime', fields', tags', counterId', false);
      ghost var f := ListFn(cfg, m, tag);
      var li := 0;
      while li < |bucket| && !raised
        invariant li <= |bucket|
        invariant cfg == old(cfg) && batch == old(batch) && batchCount == old(batchCount) && currentTimestamp == old(currentTimestamp)
        invariant Walk(points', derive, lastTime', fields', tags', counterId', raised) == Fold(f, bucket[..li], start)
      {
        points', lastTime', fields', tags', counterId', raised := PrepareValueList(m, tag, bucket[li], points', lastTime', fields', tags', counterId');
        FoldAppend(f, bucket[..li], bucket[li], start);
        assert bucket[..li + 1] == bucket[..li] + [bucket[li]];
        li := li + 1;
      }
      ListStops(cfg, m, tag);
      FoldRest(f, bucket, li, start);
      if !raised && |fields'| > 0 {
        points' := points' + [Point(m, lastTime', tags', fields')];
      }
    }

    /** _prepare_metrics: the points of the whole batch, and batch_derive advanced in place. */
    method PrepareMetrics() returns (points: seq<Point>, raised: bool)
      modifies this
      ensures cfg == old(cfg) && batch == old(batch) && batchCount == old(batchCount) && currentTimestamp == old(currentTimestamp)
      ensures Prepared(points, derive, raised) == Prepare(cfg, batch, old(derive))
    {
      points, raised := [], false;
      var lastTime, fields, tags, counterId := -1, map[], map[], None;
      ghost var start := InitialWalk(derive);
      ghost var f := PluginFn(cfg);
      var pi := 0;
      while pi < |batch| && !raised
        invariant pi <= |batch|
        invariant cfg == old(cfg) && batch == old(batch) && batchCount == old(batchCount) && currentTimestamp == old(currentTimestamp)
        invariant Walk(points, derive, lastTime, fields, tags, counterId, raised) == Fold(f, batch[..pi], start)
      {
        var measurement := batch[pi].0;
        var buckets := batch[pi].1;
        ghost var before := Walk(points, derive, lastTime, fields, tags, counterId, raised);
        ghost var g := TagFn(cfg, measurement);
        var ti := 0;
        while ti < |buckets| && !raised
          invariant ti <= |buckets|
          invariant cfg == old(cfg) && batch == old(batch) && batchCount == old(batchCount) && currentTimestamp == old(currentTimestamp)
          invariant Walk(points, derive, lastTime, fields, tags, counterId, raised) == Fold(g, buckets[..ti], before)
        {
          points, lastTime, fields, tags, counterId, raised := PrepareBucket(measurement, buckets[ti].0, buckets[ti].1, points, lastTime, fields, tags, counterId);
          FoldAppend(g, buckets[..ti], buckets[ti], before);
          assert buckets[..ti + 1] == buckets[..ti] + [buckets[ti]];
          ti := ti + 1;
        }
        TagStops(cfg, measurement);
        FoldRest(g, buckets, ti, before);
        FoldAppend(f, batch[..pi], batch[pi], start);
        assert batch[..pi + 1] == batch[..pi] + [batch[pi]];
        pi := pi + 1;
      }
      PluginStops(cfg);
      FoldRest(f, batch, pi, start);
    }

    /** _send, with `delivered` for the outcome of the connection and of write_points; returns the points it offered. */
    method Send(delivered: bool) returns (points: seq<Point>, raised: bool)
      modifies this
      ensures cfg == old(cfg)
      ensures (Current(), raised) == SendSpec(cfg, old(Current()), delivered)
      ensures points == Prepare(cfg, old(batch), old(derive)).points
    {
      points, raised := PrepareMetrics();
      if raised {
        return;
      }
      if |points| == 0 {
        batch := [];
        batchCount := 0;
        return;
      }
      if delivered {
        batch := [];
        batchCount := 0;
      }
    }

    /** flush: a send regardless of the batch size. */
    method Flush(delivered: bool) returns (raised: bool)
      modifies this
      ensures cfg == old(cfg)
      ensures (Current(), raised) == SendSpec(cfg, old(Current()), delivered)
    {
      var _, r := Send(delivered);
      raised := r;
    }

    /** write, with `delivered` for the outcome of the send it may make. */
    method Write(vl: ValueList, delivered: bool) returns (sent: bool, raised: bool)
      modifies this
      ensures cfg == old(cfg)
      ensures WriteResult(Current(), sent, raised) == WriteSpec(cfg, old(Current()), vl, delivered)
    {
      sent, raised := false, false;
      if !cfg.clientAvailable {
        return;
      }
      var vlTime := TruncSeconds(vl.time);
      if currentTimestamp == 0 {
        currentTimestamp := vlTime;
      }
      if currentTimestamp != vlTime {
        currentTimestamp := vlTime;
        if cfg.batchSize.None? {
          raised := true;
          return;
        }
        if batchCount >= cfg.batchSize.value {
          sent := true;
          var _, r := Send(delivered);
          if r {
            raised := true;
            return;
          }
        }
      }
      if cfg.cacheSize.None? {
        raised := true;
        return;
      }
      if batchCount <= cfg.cacheSize.value {
        var outcome := Collect(vl);
        if outcome == Added {
          batchCount := batchCount + 1;
        }
        raised := outcome == Raised;
      }
    }

    /** The PerCore branch of set_config; `mappingOk` is what _setHWThreadMapping returned. */
    method ConfigurePerCore(values: seq<string>, mappingOk: bool) returns (raised: bool)
      modifies this
      ensures (cfg, raised) == ConfigurePerCoreSpec(old(cfg), values, mappingOk)
      ensures Current() == old(Current())
    {
      raised := false;
      if !mappingOk {
        return;
      }
      cfg := cfg.(perCoreAvgPlugins := []);
      var i := 0;
      while i < |values|
        invariant 0 <= i <= |values|
        invariant Current() == old(Current())
        invariant cfg == old(cfg).(perCorePlugins := cfg.perCorePlugins, perCoreAvgPlugins := cfg.perCoreAvgPlugins)
        invariant PerCoreLoop(PerCore(old(cfg).perCorePlugins, [], false), values[..i]) == PerCore(cfg.perCorePlugins, cfg.perCoreAvgPlugins, false)
      {
        assert values[..i + 1][..i] == values[..i];
        var v := SplitOn(values[i], ':');
        cfg := cfg.(perCorePlugins := cfg.perCorePlugins + [v[0]]);
        if |v| < 2 {
          raised := true;
          PerCoreLoopStops(PerCore(old(cfg).perCorePlugins, [], false), values, i + 1);
          return;
        }
        if v[1] == "avg" {
          cfg := cfg.(perCoreAvgPlugins := cfg.perCoreAvgPlugins + [v[0]]);
        }
        i := i + 1;
      }
      assert values[..i] == values;
    }
  }

  /** Once an entry has raised, the later entries are not looked at. */
  lemma {:induction false} PerCoreLoopStops(p: PerCore, values: seq<string>, k: nat)
    requires k <= |values| && PerCoreLoop(p, values[..k]).raised
    ensures PerCoreLoop(p, values) == PerCoreLoop(p, values[..k])
    decreases |values|
  {
    if k < |values| {
      var init := values[..|values| - 1];
      assert init[..k] == values[..k];
      PerCoreLoopStops(p, init, k);
    } else {
      assert values[..k] == values;
    }
  }

  // ---------------------------------------------------------------------
  // Properties of the writer
  // ---------------------------------------------------------------------

  /** batch_count is the number of value lists in the batch, and the batch has no duplicate keys. */
  predicate Consistent(s: WriterState) {
    WellFormed(s.batch) && s.batchCount == TotalEntries(s.batch)
  }

  lemma CollectSpecConsistent(cfg: Config, s: WriterState, vl: ValueList, sent: bool)
    requires Consistent(s)
    ensures Consistent(CollectSpec(cfg, s, vl, sent).state)
  {
    if cfg.cacheSize.Some? && s.batchCount <= cfg.cacheSize.value {
      CollectCounts(cfg, s.batch, vl);
      CollectFrame(cfg, s.batch, vl, vl.plugin, vl.pluginInstance);
    }
  }

  /**
   * write counts a value list exactly when _collect added one, and _send
   * resets batch and batch_count together: batch_count always equals the
   * number of cached value lists.
   */
  lemma WriteKeepsConsistent(cfg: Config, s: WriterState, vl: ValueList, delivered: bool)
    requires Consistent(s)
    ensures Consistent(WriteSpec(cfg, s, vl, delivered).state)
    ensures Consistent(SendSpec(cfg, s, delivered).0)
  {
    hide Prepare, CollectSpec, Collect;
    var t := TruncSeconds(vl.time);
    var s1 := s.(currentTimestamp := t);
    CollectSpecConsistent(cfg, s1, vl, false);
    CollectSpecConsistent(cfg, SendSpec(cfg, s1, delivered).0, vl, true);
  }

  /** At most cache_size + 1 value lists are counted; none while cache_size is negative. */
  predicate WithinCache(cfg: Config, s: WriterState) {
    s.batchCount >= 0 && (cfg.cacheSize.Some? ==> s.batchCount == 0 || s.batchCount <= cfg.cacheSize.value + 1)
  }

  lemma WriteKeepsWithinCache(cfg: Config, s: WriterState, vl: ValueList, delivered: bool)
    requires WithinCache(cfg, s)
    ensures WithinCache(cfg, WriteSpec(cfg, s, vl, delivered).state)
    ensures WithinCache(cfg, SendSpec(cfg, s, delivered).0)
  {
  }

  /**
   * write calls _send exactly when the client is there, a timestamp was set
   * before, the new value list is from another second, and at least
   * batch_size value lists are counted.
   */
  lemma WriteSendsWhen(cfg: Config, s: WriterState, vl: ValueList, delivered: bool)
    ensures WriteSpec(cfg, s, vl, delivered).sent <==>
      && cfg.clientAvailable
      && s.currentTimestamp != 0
      && s.currentTimestamp != TruncSeconds(vl.time)
      && cfg.batchSize.Some?
      && s.batchCount >= cfg.batchSize.value
  {
  }

  /**
   * With a client, the second of the value list becomes currentTimestamp,
   * whatever else happens; without one nothing changes. Baselines are never
   * removed.
   */
  lemma WriteTracksTimestamp(cfg: Config, s: WriterState, vl: ValueList, delivered: bool)
    ensures var r := WriteSpec(cfg, s, vl, delivered);
      && (cfg.clientAvailable ==> r.state.currentTimestamp == TruncSeconds(vl.time))
      && (!cfg.clientAvailable ==> r == WriteResult(s, false, false))
      && s.derive.Keys <= r.state.derive.Keys
  {
    PreparedPointsAreGood(cfg, s.batch, s.derive);
  }

  /**
   * _send empties batch and batch_count when no point was built or the
   * points were delivered, and keeps both when delivery failed or
   * _prepare_metrics raised; in every case batch_derive holds the advanced
   * baselines and loses no key, and currentTimestamp is untouched.
   */
  lemma SendOutcome(cfg: Config, s: WriterState, delivered: bool)
    ensures var (s', raised) := SendSpec(cfg, s, delivered);
      var p := Prepare(cfg, s.batch, s.derive);
      && raised == p.raised
      && s'.derive == p.derive
      && s.derive.Keys <= s'.derive.Keys
      && s'.currentTimestamp == s.currentTimestamp
      && (!raised && (delivered || |p.points| == 0) ==> s'.batch == [] && s'.batchCount == 0)
      && (raised || (!delivered && |p.points| > 0) ==> s'.batch == s.batch && s'.batchCount == s.batchCount)
  {
    PreparedPointsAreGood(cfg, s.batch, s.derive);
  }

  /**
   * A batch_size that _getInteger cannot read (no number at its start) makes
   * every write at a new second raise before anything is sent or collected.
   * The corrected reading gives None on the same text, so it raises there too.
   */
  lemma UnreadableBatchSize(cfg: Config, s: WriterState, vl: ValueList, delivered: bool, text: string)
    requires cfg.batchSize == GetInteger(text) && cfg.clientAvailable
    requires ParseInt(text).None? && (|text| == 0 || !IsDigit(text[0]))
    requires s.currentTimestamp != 0 && s.currentTimestamp != TruncSeconds(vl.time)
    ensures GetIntegerCorrected(text) == GetInteger(text) == None
    ensures var r := WriteSpec(cfg, s, vl, delivered);
      r.raised && !r.sent && r.state == s.(currentTimestamp := TruncSeconds(vl.time))
  {
  }

  // ---------------------------------------------------------------------
  // Properties of the PerCore option
  // ---------------------------------------------------------------------

  /** Every averaged plugin is also a per-core plugin. */
  predicate AvgArePerCore(p: PerCore) {
    forall x :: x in p.avgPlugins ==> x in p.plugins
  }

  /**
   * Each entry appends its plugin name, so per_core_plugins grows by one
   * name per entry read, and the averaged plugins stay among the per-core
   * ones.
   */
  lemma {:induction false} PerCoreLoopGrows(p: PerCore, values: seq<string>)
    requires AvgArePerCore(p)
    ensures var r := PerCoreLoop(p, values);
      && AvgArePerCore(r)
      && |p.plugins| <= |r.plugins| <= |p.plugins| + |values|
      && (!r.raised ==> |r.plugins| == |p.plugins| + |values|)
      && r.plugins[..|p.plugins|] == p.plugins
      && forall k :: |p.plugins| <= k < |r.plugins| ==> r.plugins[k] == EntryPlugin(values[k - |p.plugins|])
    decreases |values|
  {
    if |values| > 0 {
      var init := values[..|values| - 1];
      PerCoreLoopGrows(p, init);
      var q := PerCoreLoop(p, init);
      if !q.raised {
        var r := PerCoreStep(q, values[|values| - 1]);
        assert r.plugins[..|q.plugins|] == q.plugins;
        assert r.plugins[..|p.plugins|] == q.plugins[..|p.plugins|];
      }
    }
  }

  /**
   * The option raises exactly when an entry has no colon; the first such
   * entry is the last one read, and its plugin name has been appended.
   */
  lemma {:induction false} PerCoreLoopRaises(p: PerCore, values: seq<string>)
    requires !p.raised
    ensures var r := PerCoreLoop(p, values);
      && (r.raised <==> exists k :: 0 <= k < |values| && !HasMode(values[k]))
      && (!r.raised ==> |r.plugins| == |p.plugins| + |values|)
      && (r.raised ==> |p.plugins| < |r.plugins| <= |p.plugins| + |values| && !HasMode(values[|r.plugins| - |p.plugins| - 1]))
    decreases |values|
  {
    if |values| > 0 {
      var n := |values| - 1;
      var init := values[..n];
      PerCoreLoopRaises(p, init);
      var q := PerCoreLoop(p, init);
      var r := PerCoreLoop(p, values);
      if q.raised {
        var k :| 0 <= k < |init| && !HasMode(init[k]);
        assert values[k] == init[k];
        assert values[|q.plugins| - |p.plugins| - 1] == init[|q.plugins| - |p.plugins| - 1];
      } else {
        assert forall k :: 0 <= k < n ==> values[k] == init[k];
        assert r.raised <==> !HasMode(values[n]);
      }
    }
  }
}
