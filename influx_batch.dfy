/**
 * The batch store of the InfluxDB writer (python/influx_write.py): collectd
 * value lists grouped by plugin and plugin instance, in arrival order, and
 * `_collect`, which appends a value list to its bucket or, for per-core
 * plugins, adds it into an entry of the same second.
 */
module InfluxBatch {
  import opened Util
  import opened Floats
  import opened OrderedDict

  /** A collectd value list as the Python plugin API presents it. */
  datatype ValueList = ValueList(
    host: string,
    plugin: string,
    pluginInstance: string,
    typeName: string,
    typeInstance: string,
    time: real,
    values: seq<Float>)

  /** The data source kinds of collectd's types.db. */
  datatype DsKind = Gauge | Derive | Counter | Absolute

  /** One entry of collectd.get_dataset(type): the value's name and kind. */
  datatype DataSource = DataSource(name: string, kind: DsKind)

  /**
   * The writer's configuration after set_config, plus what it learns from
   * outside: `datasets` stands for collectd.get_dataset (a type that is
   * missing raises), `coreMapping` and `threadsPerCore` for the
   * likwid-topology query, `clientAvailable` for a successful import of
   * InfluxDBClient. The batch and cache sizes are what _getInteger made of
   * the configured text, None when it found no number.
   */
  datatype Config = Config(
    batchSize: Option<int>,
    cacheSize: Option<int>,
    storeRates: bool,
    perCorePlugins: seq<string>,
    perCoreAvgPlugins: seq<string>,
    threadsPerCore: nat,
    coreMapping: seq<string>,
    datasets: map<string, seq<DataSource>>,
    clientAvailable: bool)

  type Bucket = seq<ValueList>

  /** batch[plugin][tag]: both levels are insertion-ordered dictionaries. */
  type Batch = Dict<string, Dict<string, Bucket>>

  predicate WellFormed(b: Batch) {
    Unique(b) && forall i :: 0 <= i < |b| ==> Unique(b[i].1)
  }

  /** Python's int(t) for a float: truncation toward zero. */
  function TruncSeconds(t: real): (s: int)
    ensures t >= 0.0 ==> s as real <= t < s as real + 1.0
    ensures t < 0.0 ==> s as real - 1.0 < t <= s as real
  {
    if t >= 0.0 then t.Floor else -((-t).Floor)
  }

  /** The bucket batch[plugin][tag], or [] when there is none. */
  function BucketOf(b: Batch, plugin: string, tag: string): Bucket {
    match Get(b, plugin)
    case None => []
    case Some(tags) =>
      match Get(tags, tag)
      case None => []
      case Some(bucket) => bucket
  }

  /** Number of value lists cached in the batch. */
  function TagEntries(tags: Dict<string, Bucket>): nat {
    if |tags| == 0 then 0 else TagEntries(tags[..|tags| - 1]) + |tags[|tags| - 1].1|
  }

  function TotalEntries(b: Batch): nat {
    if |b| == 0 then 0 else TotalEntries(b[..|b| - 1]) + TagEntries(b[|b| - 1].1)
  }

  /** A value list goes through the per-core path when it has a plugin instance and its plugin is listed. */
  predicate IsPerCore(cfg: Config, vl: ValueList) {
    vl.pluginInstance != [] && vl.plugin in cfg.perCorePlugins
  }

  /** coreMapping[int(tag)]: int() may fail, and a negative index counts from the end of the list. */
  function CoreTag(mapping: seq<string>, instance: string): Option<string> {
    match ParseInt(instance)
    case None => None
    case Some(i) =>
      if 0 <= i < |mapping| then Some(mapping[i])
      else if -|mapping| <= i < 0 then Some(mapping[|mapping| + i])
      else None
  }

  /** Two value lists of one per-core bucket are summed when type, type instance and second agree. */
  predicate SameGroup(stored: ValueList, vl: ValueList) {
    stored.typeName == vl.typeName
    && stored.typeInstance == vl.typeInstance
    && TruncSeconds(stored.time) == TruncSeconds(vl.time)
  }

  /** The last entry of the bucket in the same group as vl (the reversed scan of _collect). */
  function LastMatch(bucket: Bucket, vl: ValueList): (r: Option<nat>)
    ensures r.Some? ==> r.value < |bucket| && SameGroup(bucket[r.value], vl)
    ensures r.Some? ==> forall j :: r.value < j < |bucket| ==> !SameGroup(bucket[j], vl)
    ensures r.None? ==> forall j :: 0 <= j < |bucket| ==> !SameGroup(bucket[j], vl)
  {
    if |bucket| == 0 then None
    else if SameGroup(bucket[|bucket| - 1], vl) then Some(|bucket| - 1)
    else LastMatch(bucket[..|bucket| - 1], vl)
  }

  /**
   * `stored[idx] += added[idx]` for every index of stored; the indices that
   * added does not have are left alone (the source raises IndexError there).
   */
  function MergeValues(stored: seq<Float>, added: seq<Float>): (r: seq<Float>)
    ensures |r| == |stored|
    ensures forall i :: 0 <= i < |stored| && i < |added| ==> r[i] == Add(stored[i], added[i])
    ensures forall i :: |added| <= i < |stored| ==> r[i] == stored[i]
  {
    seq(|stored|, i requires 0 <= i < |stored| => if i < |added| then Add(stored[i], added[i]) else stored[i])
  }

  /** What _collect did: appended a new entry, summed into an entry, refused a value list without plugin, or raised. */
  datatype CollectOutcome = Added | Merged | NoPlugin | Raised

  /** Put vl into batch[vl.plugin][tag], summing into a same-group entry when perCore holds. */
  function Store(b: Batch, vl: ValueList, tag: string, perCore: bool): (Batch, CollectOutcome) {
    match Get(b, vl.plugin)
    case None => (Put(b, vl.plugin, [(tag, [vl])]), Added)
    case Some(tags) =>
      match Get(tags, tag)
      case None => (Put(b, vl.plugin, Put(tags, tag, [vl])), Added)
      case Some(bucket) =>
        match (if perCore then LastMatch(bucket, vl) else None)
        case None => (Put(b, vl.plugin, Put(tags, tag, bucket + [vl])), Added)
        case Some(i) =>
          var stored := bucket[i];
          var summed := bucket[i := stored.(values := MergeValues(stored.values, vl.values))];
          (Put(b, vl.plugin, Put(tags, tag, summed)),
           if |vl.values| < |stored.values| then Raised else Merged)
  }

  /**
   * _collect (python/influx_write.py:149-194). For a per-core value list
   * the plugin instance is first replaced by its core from coreMapping; a
   * plugin instance that is no index of coreMapping raises before the batch
   * is touched. A per-core merge with too few values raises after summing
   * the values that are there.
   */
  function Collect(cfg: Config, b: Batch, vl: ValueList): (Batch, CollectOutcome) {
    if vl.plugin == [] then
      (b, NoPlugin)
    else if IsPerCore(cfg, vl) then
      match CoreTag(cfg.coreMapping, vl.pluginInstance)
      case None => (b, Raised)
      case Some(core) => Store(b, vl.(pluginInstance := core), core, true)
    else
      Store(b, vl, vl.pluginInstance, false)
  }

  /** The plugin and tag of the bucket that Collect writes to. */
  function TargetTag(cfg: Config, vl: ValueList): Option<string> {
    if IsPerCore(cfg, vl) then CoreTag(cfg.coreMapping, vl.pluginInstance) else Some(vl.pluginInstance)
  }

  // ---------------------------------------------------------------------
  // Properties of Collect
  // ---------------------------------------------------------------------

  lemma BucketOfPut(b: Batch, plugin: string, tags: Dict<string, Bucket>, p: string, t: string)
    requires Unique(b)
    ensures BucketOf(Put(b, plugin, tags), p, t) ==
      if p == plugin then (match Get(tags, t) case None => [] case Some(bk) => bk) else BucketOf(b, p, t)
  {
    GetPut(b, plugin, tags, p);
  }

  lemma BucketOfPutTag(b: Batch, plugin: string, tags: Dict<string, Bucket>, tag: string, bucket: Bucket, p: string, t: string)
    requires WellFormed(b) && Get(b, plugin) == Some(tags)
    ensures BucketOf(Put(b, plugin, Put(tags, tag, bucket)), p, t) ==
      if p == plugin && t == tag then bucket else BucketOf(b, p, t)
  {
    BucketOfPut(b, plugin, Put(tags, tag, bucket), p, t);
    var i := Find(b, plugin).value;
    assert Unique(tags) by { assert tags == b[i].1; }
    GetPut(tags, tag, bucket, t);
  }

  lemma BucketOfNewPlugin(b: Batch, plugin: string, tag: string, vl: ValueList, p: string, t: string)
    requires WellFormed(b) && Get(b, plugin) == None
    ensures BucketOf(Put(b, plugin, [(tag, [vl])]), p, t) ==
      if p == plugin && t == tag then [vl] else BucketOf(b, p, t)
  {
    BucketOfPut(b, plugin, [(tag, [vl])], p, t);
    var one: Dict<string, Bucket> := [(tag, [vl])];
    if p == plugin && t != tag {
      assert one[0].0 != t;
      assert Get(one, t) == None;
    } else if p == plugin {
      assert Get(one, t) == Some([vl]);
    }
  }

  lemma StorePreservesWellFormed(b: Batch, vl: ValueList, tag: string, perCore: bool)
    requires WellFormed(b)
    ensures WellFormed(Store(b, vl, tag, perCore).0)
  {
    var r := Store(b, vl, tag, perCore).0;
    match Get(b, vl.plugin)
    case None =>
    case Some(tags) =>
      var i := Find(b, vl.plugin).value;
      assert Unique(tags) by { assert tags == b[i].1; }
      forall j | 0 <= j < |r|
        ensures Unique(r[j].1)
      {
        if j != i { assert r[j] == b[j]; }
      }
  }

  /**
   * Collect changes at most the one bucket it targets: every other bucket,
   * and the order of the plugins already present, are unchanged; the batch
   * stays well formed.
   */
  lemma {:induction false} CollectFrame(cfg: Config, b: Batch, vl: ValueList, p: string, t: string)
    requires WellFormed(b)
    ensures WellFormed(Collect(cfg, b, vl).0)
    ensures !(p == vl.plugin && TargetTag(cfg, vl) == Some(t)) ==> BucketOf(Collect(cfg, b, vl).0, p, t) == BucketOf(b, p, t)
    ensures |Collect(cfg, b, vl).0| >= |b|
    ensures forall i :: 0 <= i < |b| ==> Collect(cfg, b, vl).0[i].0 == b[i].0
  {
    if vl.plugin != [] && TargetTag(cfg, vl).Some? {
      var tag := TargetTag(cfg, vl).value;
      var v := if IsPerCore(cfg, vl) then vl.(pluginInstance := tag) else vl;
      assert Collect(cfg, b, vl) == Store(b, v, tag, IsPerCore(cfg, vl));
      StorePreservesWellFormed(b, v, tag, IsPerCore(cfg, vl));
      match Get(b, v.plugin)
      case None =>
        BucketOfNewPlugin(b, v.plugin, tag, v, p, t);
      case Some(tags) =>
        var bucket := BucketOf(b, v.plugin, tag);
        match Get(tags, tag)
        case None =>
          BucketOfPutTag(b, v.plugin, tags, tag, [v], p, t);
        case Some(bk) =>
          var perCore := IsPerCore(cfg, vl);
          match (if perCore then LastMatch(bk, v) else None)
          case None =>
            BucketOfPutTag(b, v.plugin, tags, tag, bk + [v], p, t);
          case Some(i) =>
            var summed := bk[i := bk[i].(values := MergeValues(bk[i].values, v.values))];
            BucketOfPutTag(b, v.plugin, tags, tag, summed, p, t);
    }
  }

  /**
   * Outside the per-core path, a value list with a plugin is appended at the
   * end of batch[plugin][plugin instance], which is created when missing,
   * and Collect reports Added; without a plugin the batch is unchanged.
   */
  lemma CollectAppends(cfg: Config, b: Batch, vl: ValueList)
    requires WellFormed(b) && !IsPerCore(cfg, vl)
    ensures vl.plugin == [] ==> Collect(cfg, b, vl) == (b, NoPlugin)
    ensures vl.plugin != [] ==> Collect(cfg, b, vl).1 == Added
    ensures vl.plugin != [] ==>
      BucketOf(Collect(cfg, b, vl).0, vl.plugin, vl.pluginInstance) == BucketOf(b, vl.plugin, vl.pluginInstance) + [vl]
  {
    if vl.plugin != [] {
      var tag := vl.pluginInstance;
      match Get(b, vl.plugin)
      case None =>
        BucketOfNewPlugin(b, vl.plugin, tag, vl, vl.plugin, tag);
      case Some(tags) =>
        match Get(tags, tag)
        case None =>
          BucketOfPutTag(b, vl.plugin, tags, tag, [vl], vl.plugin, tag);
        case Some(bk) =>
          BucketOfPutTag(b, vl.plugin, tags, tag, bk + [vl], vl.plugin, tag);
    }
  }

  /**
   * On the per-core path the value list lands in the bucket of its core,
   * carrying the core as plugin instance. If that bucket holds an entry of
   * the same type, type instance and second, the last such entry has the new
   * values added element-wise, the bucket keeps its length, and Collect does
   * not report Added (Raised when the new list is shorter). Otherwise the
   * value list is appended and Collect reports Added.
   */
  lemma CollectPerCore(cfg: Config, b: Batch, vl: ValueList, core: string)
    requires WellFormed(b) && vl.plugin != [] && IsPerCore(cfg, vl)
    requires CoreTag(cfg.coreMapping, vl.pluginInstance) == Some(core)
    ensures var (b', outcome) := Collect(cfg, b, vl);
      var old_ := BucketOf(b, vl.plugin, core);
      var new_ := BucketOf(b', vl.plugin, core);
      match LastMatch(old_, vl)
      case None =>
        outcome == Added && new_ == old_ + [vl.(pluginInstance := core)]
      case Some(i) =>
        && outcome == (if |vl.values| < |old_[i].values| then Raised else Merged)
        && |new_| == |old_|
        && new_[i] == old_[i].(values := MergeValues(old_[i].values, vl.values))
        && forall j :: 0 <= j < |old_| && j != i ==> new_[j] == old_[j]
  {
    var v := vl.(pluginInstance := core);
    assert forall s: ValueList :: SameGroup(s, v) == SameGroup(s, vl);
    LastMatchIgnoresInstance(BucketOf(b, vl.plugin, core), vl, v);
    match Get(b, v.plugin)
    case None =>
      BucketOfNewPlugin(b, v.plugin, core, v, v.plugin, core);
    case Some(tags) =>
      match Get(tags, core)
      case None =>
        BucketOfPutTag(b, v.plugin, tags, core, [v], v.plugin, core);
      case Some(bk) =>
        match LastMatch(bk, v)
        case None =>
          BucketOfPutTag(b, v.plugin, tags, core, bk + [v], v.plugin, core);
        case Some(i) =>
          var summed := bk[i := bk[i].(values := MergeValues(bk[i].values, v.values))];
          BucketOfPutTag(b, v.plugin, tags, core, summed, v.plugin, core);
  }

  lemma {:induction false} LastMatchIgnoresInstance(bucket: Bucket, vl: ValueList, v: ValueList)
    requires forall s: ValueList :: SameGroup(s, v) == SameGroup(s, vl)
    ensures LastMatch(bucket, vl) == LastMatch(bucket, v)
  {
    if |bucket| > 0 {
      LastMatchIgnoresInstance(bucket[..|bucket| - 1], vl, v);
    }
  }

  /** Summing two per-core value lists gives the same values in either order of arrival. */
  lemma MergeCommutes(a: seq<Float>, b: seq<Float>)
    requires |a| == |b|
    ensures MergeValues(a, b) == MergeValues(b, a)
  {
    forall i | 0 <= i < |a|
      ensures MergeValues(a, b)[i] == MergeValues(b, a)[i]
    {
      AddCommutes(a[i], b[i]);
    }
  }

  // ---------------------------------------------------------------------
  // Counting entries: Collect adds one entry exactly when it reports Added
  // ---------------------------------------------------------------------

  lemma {:induction false} TagEntriesUpdate(tags: Dict<string, Bucket>, i: nat, tag: string, bucket: Bucket)
    requires i < |tags|
    ensures TagEntries(tags[i := (tag, bucket)]) + |tags[i].1| == TagEntries(tags) + |bucket|
    decreases |tags|
  {
    var n := |tags| - 1;
    var u := tags[i := (tag, bucket)];
    if i < n {
      assert u[..n] == tags[..n][i := (tag, bucket)];
      TagEntriesUpdate(tags[..n], i, tag, bucket);
    } else {
      assert u[..n] == tags[..n];
    }
  }

  lemma TagEntriesAppend(tags: Dict<string, Bucket>, tag: string, bucket: Bucket)
    ensures TagEntries(tags + [(tag, bucket)]) == TagEntries(tags) + |bucket|
  {
    assert (tags + [(tag, bucket)])[..|tags|] == tags;
  }

  lemma TagEntriesPut(tags: Dict<string, Bucket>, tag: string, bucket: Bucket)
    ensures TagEntries(Put(tags, tag, bucket)) ==
      TagEntries(tags) + |bucket| - (match Get(tags, tag) case None => 0 case Some(old_) => |old_|)
  {
    match Find(tags, tag)
    case None => TagEntriesAppend(tags, tag, bucket);
    case Some(i) => TagEntriesUpdate(tags, i, tag, bucket);
  }

  lemma {:induction false} TotalEntriesUpdate(b: Batch, i: nat, plugin: string, tags: Dict<string, Bucket>)
    requires i < |b|
    ensures TotalEntries(b[i := (plugin, tags)]) + TagEntries(b[i].1) == TotalEntries(b) + TagEntries(tags)
    decreases |b|
  {
    var n := |b| - 1;
    var u := b[i := (plugin, tags)];
    if i < n {
      assert u[..n] == b[..n][i := (plugin, tags)];
      TotalEntriesUpdate(b[..n], i, plugin, tags);
    } else {
      assert u[..n] == b[..n];
    }
  }

  lemma TotalEntriesPut(b: Batch, plugin: string, tags: Dict<string, Bucket>)
    ensures TotalEntries(Put(b, plugin, tags)) ==
      TotalEntries(b) + TagEntries(tags) - (match Get(b, plugin) case None => 0 case Some(old_) => TagEntries(old_))
  {
    match Find(b, plugin)
    case None =>
      assert (b + [(plugin, tags)])[..|b|] == b;
    case Some(i) =>
      TotalEntriesUpdate(b, i, plugin, tags);
  }

  /** The batch grows by one value list exactly when Collect reports Added; otherwise its size is unchanged. */
  lemma CollectCounts(cfg: Config, b: Batch, vl: ValueList)
    ensures TotalEntries(Collect(cfg, b, vl).0) == TotalEntries(b) + (if Collect(cfg, b, vl).1 == Added then 1 else 0)
  {
    if vl.plugin != [] && TargetTag(cfg, vl).Some? {
      var tag := TargetTag(cfg, vl).value;
      var v := if IsPerCore(cfg, vl) then vl.(pluginInstance := tag) else vl;
      assert Collect(cfg, b, vl) == Store(b, v, tag, IsPerCore(cfg, vl));
      match Get(b, v.plugin)
      case None =>
        TotalEntriesPut(b, v.plugin, [(tag, [v])]);
        assert TagEntries([(tag, [v])]) == 1 by { TagEntriesAppend([], tag, [v]); }
      case Some(tags) =>
        match Get(tags, tag)
        case None =>
          TagEntriesPut(tags, tag, [v]);
          TotalEntriesPut(b, v.plugin, Put(tags, tag, [v]));
        case Some(bk) =>
          match (if IsPerCore(cfg, vl) then LastMatch(bk, v) else None)
          case None =>
            TagEntriesPut(tags, tag, bk + [v]);
            TotalEntriesPut(b, v.plugin, Put(tags, tag, bk + [v]));
          case Some(i) =>
            var summed := bk[i := bk[i].(values := MergeValues(bk[i].values, v.values))];
            TagEntriesPut(tags, tag, summed);
            TotalEntriesPut(b, v.plugin, Put(tags, tag, summed));
    }
  }
}
