/**
 * `_prepare_metrics` of python/influx_write.py as a specification: the walk
 * over batch[plugin][tag][value list][value] that turns the cached value
 * lists into InfluxDB points, derives rates from the stored baselines and
 * advances those baselines. Each loop level is a fold over a prefix, so that
 * the loops of InfluxEngine can be proved against it step by step.
 */
module InfluxPrepare {
  import opened Util
  import opened Floats
  import opened OrderedDict
  import opened InfluxBatch

  /** One point handed to write_points: measurement, whole second, tags and fields. */
  datatype Point = Point(measurement: string, time: int, tags: map<string, string>, fields: map<string, Float>)

  /** The tag key under which the plugin instance is stored. */
  function TagKey(measurement: string): string {
    if EndsWith(measurement, "cpu") || EndsWith(measurement, "_socket") then "cpu"
    else if measurement == "nvml" || StartsWith(measurement, "gpu") then "gpu"
    else measurement
  }

  /** The tags of a point: the host, and the plugin instance when there is one. */
  function PointTags(measurement: string, tag: string, host: string): (t: map<string, string>)
    ensures "hostname" in t && t.Keys <= {"hostname", TagKey(measurement)}
    ensures tag != [] ==> TagKey(measurement) in t && t[TagKey(measurement)] == tag
    ensures tag == [] || TagKey(measurement) != "hostname" ==> t["hostname"] == host
    ensures tag == [] ==> t.Keys == {"hostname"}
  {
    var t := map["hostname" := host];
    if tag != [] then t[TagKey(measurement) := tag] else t
  }

  /** The type instance, or the type when the type instance is empty. */
  function MetricName(vl: ValueList): string {
    if vl.typeInstance == [] then vl.typeName else vl.typeInstance
  }

  /**
   * The field name of value midx: the metric name for a single value; for
   * several values the data source name and the metric name joined by "_",
   * or the metric name and the index when the data set has no entry midx.
   */
  function FieldName(vl: ValueList, ds: seq<DataSource>, midx: nat): string {
    if |vl.values| <= 1 then MetricName(vl)
    else if midx < |ds| then ds[midx].name + "_" + MetricName(vl)
    else MetricName(vl) + NatToString(midx)
  }

  /** The key of a value list in batch_derive: plugin and type, then the instances when present. */
  function CounterId(vl: ValueList): string {
    vl.plugin + vl.typeName + vl.pluginInstance + vl.typeInstance
  }

  /** Values dropped before anything else: NaN and positive infinity (negative infinity passes). */
  predicate Dropped(v: Float) {
    v.NaN? || v.PosInf?
  }

  /**
   * The local state of the walk: points built so far, batch_derive, the
   * second and the fields of the open point, the tags of the current value
   * list, the counter identifier once it is set, and whether an exception
   * has stopped the walk.
   */
  datatype Walk = Walk(
    points: seq<Point>,
    derive: map<string, ValueList>,
    lastTime: int,
    fields: map<string, Float>,
    tags: map<string, string>,
    counterId: Option<string>,
    raised: bool)

  /** Adds a field at second `time`: joins the open point in the same second, else emits the open point and opens a new one. */
  function AddField(w: Walk, measurement: string, time: int, name: string, value: Float): Walk {
    if time == w.lastTime then
      w.(fields := w.fields[name := value])
    else
      var points := if |w.fields| > 0 then w.points + [Point(measurement, w.lastTime, w.tags, w.fields)] else w.points;
      w.(points := points, fields := map[name := value], lastTime := time)
  }

  /** What one value does to the walk. */
  datatype Action =
    | Skip                                      // `continue`: dropped value, no baseline yet, or no time elapsed
    | Fail                                      // an exception leaves _prepare_metrics
    | MarkCounter                               // the counter identifier is set, and nothing else
    | Emit(name: string, value: Float, counter: bool)  // a field is added; `counter` when it is a rate

  /**
   * The decision for value midx of vl in measurement m, given the baselines:
   * a missing data set, threads_per_core 0 for an averaged plugin, a data
   * set too short for the rate check, or a baseline with too few values
   * raise. Without StoreRates an emitted value is never NaN or +inf.
   */
  function ValueAction(cfg: Config, m: string, vl: ValueList, midx: nat, derive: map<string, ValueList>): (a: Action)
    requires midx < |vl.values|
    ensures Dropped(vl.values[midx]) ==> a == Skip
    ensures a.Emit? && !cfg.storeRates ==> !Dropped(a.value) && !a.counter
    ensures a.MarkCounter? ==> cfg.storeRates
  {
    var v := vl.values[midx];
    if Dropped(v) then Skip
    else if vl.typeName !in cfg.datasets then Fail
    else
      var ds := cfg.datasets[vl.typeName];
      var name := FieldName(vl, ds, midx);
      var avg := m in cfg.perCoreAvgPlugins;
      if avg && cfg.threadsPerCore == 0 then Fail
      else
        var value := if avg then DivPos(v, cfg.threadsPerCore as real) else v;
        if !cfg.storeRates then Emit(name, value, false)
        else if midx >= |ds| then Fail
        else if ds[midx].kind != Derive && ds[midx].kind != Counter then Emit(name, value, false)
        else
          var id := CounterId(vl);
          if id !in derive then MarkCounter
          else
            var prev := derive[id];
            var dt := TruncSeconds(vl.time) - TruncSeconds(prev.time);
            if dt <= 0 then MarkCounter
            else if midx >= |prev.values| then Fail
            else Emit(name, DivPos(Sub(value, prev.values[midx]), dt as real), true)
  }

  /** The decisions for all values of vl; within one value list the baselines do not change. */
  function Actions(cfg: Config, m: string, vl: ValueList, derive: map<string, ValueList>): (acts: seq<Action>)
    ensures |acts| == |vl.values|
  {
    seq(|vl.values|, i requires 0 <= i < |vl.values| => ValueAction(cfg, m, vl, i, derive))
  }

  /** The body of the innermost loop once the decision is made; nothing happens after an exception. */
  function Apply(a: Action, m: string, time: int, id: string, w: Walk): Walk {
    if w.raised then w
    else
      match a
      case Skip => w
      case Fail => w.(raised := true)
      case MarkCounter => w.(counterId := Some(id))
      case Emit(name, value, counter) =>
        AddField(if counter then w.(counterId := Some(id)) else w, m, time, name, value)
  }

  /** A loop over xs with body f, from the walk w: the body applied to each element in order. */
  function Fold<T>(f: (Walk, T) -> Walk, xs: seq<T>, w: Walk): Walk
    decreases |xs|
  {
    if |xs| == 0 then w else f(Fold(f, xs[..|xs| - 1], w), xs[|xs| - 1])
  }

  /** The body of the innermost loop, at the second `time` of the value list with identifier `id`. */
  function ApplyFn(m: string, time: int, id: string): (Walk, Action) -> Walk {
    (v: Walk, a: Action) => Apply(a, m, time, id, v)
  }

  /** The innermost loop: the decisions applied in order. */
  function ApplyAll(acts: seq<Action>, m: string, time: int, id: string, w: Walk): Walk {
    Fold(ApplyFn(m, time, id), acts, w)
  }

  /** The tags and the counter identifier are reset for each value list. */
  function StartValueList(m: string, tag: string, vl: ValueList, w: Walk): Walk {
    w.(tags := PointTags(m, tag, vl.host), counterId := None)
  }

  /** After the values: a value list that set a counter identifier becomes its new baseline. */
  function EndValueList(vl: ValueList, w: Walk): Walk {
    if !w.raised && w.counterId.Some? && w.counterId.value != [] then w.(derive := w.derive[w.counterId.value := vl]) else w
  }

  /** The body of the value-list loop. */
  function ValueListStep(cfg: Config, m: string, tag: string, vl: ValueList, w: Walk): Walk {
    if w.raised then w
    else
      var w0 := StartValueList(m, tag, vl, w);
      if |vl.values| == 0 then w0
      else EndValueList(vl, ApplyAll(Actions(cfg, m, vl, w0.derive), m, TruncSeconds(vl.time), CounterId(vl), w0))
  }

  function ListFn(cfg: Config, m: string, tag: string): (Walk, ValueList) -> Walk {
    (v: Walk, vl: ValueList) => ValueListStep(cfg, m, tag, vl, v)
  }

  /** The loop over the value lists of one bucket. */
  function ListsFold(cfg: Config, m: string, tag: string, bucket: Bucket, w: Walk): Walk {
    Fold(ListFn(cfg, m, tag), bucket, w)
  }

  /** Each bucket starts with no open point at second -1. */
  function StartBucket(w: Walk): Walk {
    w.(lastTime := -1, fields := map[])
  }

  /** The open point, if any, is emitted at the end of the bucket. */
  function EndBucket(m: string, w: Walk): Walk {
    if !w.raised && |w.fields| > 0 then w.(points := w.points + [Point(m, w.lastTime, w.tags, w.fields)]) else w
  }

  /** The body of the loop over the buckets of measurement m. */
  function BucketStep(cfg: Config, m: string, tag: string, bucket: Bucket, w: Walk): Walk {
    if w.raised then w
    else EndBucket(m, ListsFold(cfg, m, tag, bucket, StartBucket(w)))
  }

  function TagFn(cfg: Config, m: string): (Walk, (string, Bucket)) -> Walk {
    (v: Walk, e: (string, Bucket)) => BucketStep(cfg, m, e.0, e.1, v)
  }

  /** The loop over the buckets of measurement m. */
  function TagsFold(cfg: Config, m: string, tags: Dict<string, Bucket>, w: Walk): Walk {
    Fold(TagFn(cfg, m), tags, w)
  }

  function PluginFn(cfg: Config): (Walk, (string, Dict<string, Bucket>)) -> Walk {
    (v: Walk, e: (string, Dict<string, Bucket>)) => TagsFold(cfg, e.0, e.1, v)
  }

  /** The outer loop, over the plugins of the batch. */
  function PluginsFold(cfg: Config, b: Batch, w: Walk): Walk {
    Fold(PluginFn(cfg), b, w)
  }

  function InitialWalk(derive: map<string, ValueList>): Walk {
    Walk([], derive, -1, map[], map[], None, false)
  }

  /** What _prepare_metrics returns and leaves behind: the points, the new batch_derive, and whether it raised. */
  datatype Prepared = Prepared(points: seq<Point>, derive: map<string, ValueList>, raised: bool)

  function Prepare(cfg: Config, b: Batch, derive: map<string, ValueList>): Prepared {
    var w := PluginsFold(cfg, b, InitialWalk(derive));
    Prepared(w.points, w.derive, w.raised)
  }

  // ---------------------------------------------------------------------
  // Invariants of the walk
  // ---------------------------------------------------------------------

  /** Whether a field value is one that the walk drops on input. */
  predicate ValidFields(fields: map<string, Float>) {
    forall f :: f in fields ==> !Dropped(fields[f])
  }

  /** Every point has fields and a hostname tag, and its tag keys come from its measurement; without rates no field is NaN or +inf. */
  predicate PointOk(cfg: Config, p: Point) {
    && |p.fields| > 0
    && "hostname" in p.tags
    && p.tags.Keys <= {"hostname", TagKey(p.measurement)}
    && (!cfg.storeRates ==> ValidFields(p.fields))
  }

  predicate PointsOk(cfg: Config, points: seq<Point>) {
    forall i :: 0 <= i < |points| ==> PointOk(cfg, points[i])
  }

  /** The open point of measurement m would be a good point. */
  predicate OpenOk(cfg: Config, m: string, w: Walk) {
    && (|w.fields| > 0 ==> "hostname" in w.tags && w.tags.Keys <= {"hostname", TagKey(m)})
    && (!cfg.storeRates ==> ValidFields(w.fields))
  }

  /** Consecutive points from index s on have different seconds. */
  ghost predicate NeighboursDiffer(ps: seq<Point>, s: nat) {
    forall j, k :: s <= j < k < |ps| && k == j + 1 ==> ps[j].time != ps[k].time
  }

  /**
   * The points of ps from index s on are good points of measurement m, and
   * no two consecutive ones share a second.
   */
  ghost predicate BucketPoints(cfg: Config, m: string, ps: seq<Point>, s: nat)
    decreases |ps|
  {
    |ps| <= s ||
    var n := |ps| - 1;
    && BucketPoints(cfg, m, ps[..n], s)
    && PointOk(cfg, ps[n])
    && ps[n].measurement == m
    && (n > s ==> ps[n - 1].time != ps[n].time)
  }

  lemma {:induction false} BucketPointsMeaning(cfg: Config, m: string, ps: seq<Point>, s: nat)
    requires BucketPoints(cfg, m, ps, s)
    ensures forall k :: s <= k < |ps| ==> PointOk(cfg, ps[k]) && ps[k].measurement == m
    ensures NeighboursDiffer(ps, s)
    decreases |ps|
  {
    if |ps| > s {
      var n := |ps| - 1;
      BucketPointsMeaning(cfg, m, ps[..n], s);
    }
  }

  /**
   * What the walk keeps within one bucket of measurement m that started with
   * s points and the baseline keys `keys`: the earlier points are untouched,
   * the points of this bucket satisfy BucketPoints, the open point would be
   * a good point, and once a point is emitted the open point has another
   * second; baselines are only added or replaced.
   */
  ghost predicate BucketInv(cfg: Config, m: string, s: nat, keys: set<string>, w: Walk) {
    && s <= |w.points|
    && BucketPoints(cfg, m, w.points, s)
    && OpenOk(cfg, m, w)
    && (|w.points| > s ==> |w.fields| > 0 && w.points[|w.points| - 1].time != w.lastTime)
    && keys <= w.derive.Keys
  }

  lemma AddFieldInv(cfg: Config, m: string, s: nat, keys: set<string>, w: Walk, time: int, name: string, value: Float)
    requires BucketInv(cfg, m, s, keys, w)
    requires "hostname" in w.tags && w.tags.Keys <= {"hostname", TagKey(m)}
    requires !cfg.storeRates ==> !Dropped(value)
    ensures BucketInv(cfg, m, s, keys, AddField(w, m, time, name, value))
    ensures AddField(w, m, time, name, value).points[..|w.points|] == w.points
  {
    var r := AddField(w, m, time, name, value);
    if time != w.lastTime && |w.fields| > 0 {
      var p := Point(m, w.lastTime, w.tags, w.fields);
      assert r.points == w.points + [p];
      assert r.points[..|w.points|] == w.points;
    }
  }

  /** Without StoreRates an emitted value is never NaN or +inf. */
  predicate ActionOk(cfg: Config, a: Action) {
    a.Emit? && !cfg.storeRates ==> !Dropped(a.value)
  }

  /** The points of a are the first points of b. */
  ghost predicate Prefix(a: seq<Point>, b: seq<Point>) {
    |a| <= |b| && b[..|a|] == a
  }

  lemma PrefixTrans(a: seq<Point>, b: seq<Point>, c: seq<Point>)
    requires Prefix(a, b) && Prefix(b, c)
    ensures Prefix(a, c)
  {
    assert c[..|a|] == c[..|b|][..|a|];
  }

  lemma MarkInv(cfg: Config, m: string, s: nat, keys: set<string>, id: string, w: Walk)
    requires BucketInv(cfg, m, s, keys, w)
    ensures BucketInv(cfg, m, s, keys, w.(counterId := Some(id)))
  {
  }

  lemma RaiseInv(cfg: Config, m: string, s: nat, keys: set<string>, w: Walk)
    requires BucketInv(cfg, m, s, keys, w)
    ensures BucketInv(cfg, m, s, keys, w.(raised := true))
  {
  }

  lemma EmitInv(cfg: Config, m: string, s: nat, keys: set<string>, name: string, value: Float, counter: bool, time: int, id: string, w: Walk)
    requires !cfg.storeRates ==> !Dropped(value)
    requires BucketInv(cfg, m, s, keys, w) && !w.raised
    requires "hostname" in w.tags && w.tags.Keys <= {"hostname", TagKey(m)}
    ensures var r := Apply(Emit(name, value, counter), m, time, id, w);
      BucketInv(cfg, m, s, keys, r) && r.tags == w.tags && Prefix(w.points, r.points)
  {
    var w1 := if counter then w.(counterId := Some(id)) else w;
    MarkInv(cfg, m, s, keys, id, w);
    AddFieldInv(cfg, m, s, keys, w1, time, name, value);
  }

  lemma ApplyInv(cfg: Config, m: string, s: nat, keys: set<string>, a: Action, time: int, id: string, w: Walk)
    requires ActionOk(cfg, a)
    requires BucketInv(cfg, m, s, keys, w)
    requires "hostname" in w.tags && w.tags.Keys <= {"hostname", TagKey(m)}
    ensures var r := Apply(a, m, time, id, w);
      BucketInv(cfg, m, s, keys, r) && r.tags == w.tags && Prefix(w.points, r.points)
  {
    if !w.raised {
      match a
      case Skip =>
      case Fail =>
        RaiseInv(cfg, m, s, keys, w);
      case MarkCounter =>
        MarkInv(cfg, m, s, keys, id, w);
      case Emit(name, value, counter) =>
        EmitInv(cfg, m, s, keys, name, value, counter, time, id, w);
    }
  }

  /** A property that every step keeps holds after the loop. */
  lemma {:induction false} FoldKeeps<T>(f: (Walk, T) -> Walk, inv: Walk -> bool, xs: seq<T>, w: Walk)
    requires inv(w)
    requires forall v: Walk, x: T :: x in xs && inv(v) ==> inv(f(v, x))
    ensures inv(Fold(f, xs, w))
    decreases |xs|
  {
    if |xs| > 0 {
      var init := xs[..|xs| - 1];
      assert forall x :: x in init ==> x in xs;
      FoldKeeps(f, inv, init, w);
    }
  }

  /**
   * Once the walk has raised, the rest of a loop leaves it alone: the loop
   * over xs stopped after k elements gives the walk of the whole loop.
   */
  lemma {:induction false} FoldRest<T>(f: (Walk, T) -> Walk, xs: seq<T>, k: nat, w: Walk)
    requires k <= |xs|
    requires k == |xs| || Fold(f, xs[..k], w).raised
    requires forall v: Walk, x: T :: v.raised ==> f(v, x) == v
    ensures Fold(f, xs, w) == Fold(f, xs[..k], w)
    decreases |xs|
  {
    if k < |xs| {
      var init := xs[..|xs| - 1];
      assert init[..k] == xs[..k];
      FoldRest(f, init, k, w);
    } else {
      assert xs[..k] == xs;
    }
  }

  lemma ApplyStops(m: string, time: int, id: string)
    ensures forall v: Walk, a: Action :: v.raised ==> ApplyFn(m, time, id)(v, a) == v
  {
  }

  lemma ListStops(cfg: Config, m: string, tag: string)
    ensures forall v: Walk, vl: ValueList :: v.raised ==> ListFn(cfg, m, tag)(v, vl) == v
  {
  }

  lemma TagStops(cfg: Config, m: string)
    ensures forall v: Walk, e: (string, Bucket) :: v.raised ==> TagFn(cfg, m)(v, e) == v
  {
  }

  lemma PluginStops(cfg: Config)
    ensures forall v: Walk, e: (string, Dict<string, Bucket>) :: v.raised ==> PluginFn(cfg)(v, e) == v
  {
    forall v: Walk, e: (string, Dict<string, Bucket>) | v.raised
      ensures PluginFn(cfg)(v, e) == v
    {
      TagStops(cfg, e.0);
      FoldRest(TagFn(cfg, e.0), e.1, 0, v);
    }
  }

  /** One more element is one more step. */
  lemma FoldAppend<T>(f: (Walk, T) -> Walk, xs: seq<T>, x: T, w: Walk)
    ensures Fold(f, xs + [x], w) == f(Fold(f, xs, w), x)
  {
    assert (xs + [x])[..|xs|] == xs;
  }

  lemma ApplyAllInv(cfg: Config, m: string, s: nat, keys: set<string>, acts: seq<Action>, time: int, id: string, w: Walk)
    requires forall a :: a in acts ==> ActionOk(cfg, a)
    requires BucketInv(cfg, m, s, keys, w)
    requires "hostname" in w.tags && w.tags.Keys <= {"hostname", TagKey(m)}
    ensures var r := ApplyAll(acts, m, time, id, w);
      BucketInv(cfg, m, s, keys, r) && r.tags == w.tags && Prefix(w.points, r.points)
  {
    var f := ApplyFn(m, time, id);
    var inv := (v: Walk) => BucketInv(cfg, m, s, keys, v) && v.tags == w.tags && Prefix(w.points, v.points);
    forall v: Walk, a: Action | a in acts && inv(v)
      ensures inv(f(v, a))
    {
      ApplyInv(cfg, m, s, keys, a, time, id, v);
      PrefixTrans(w.points, v.points, f(v, a).points);
    }
    FoldKeeps(f, inv, acts, w);
  }

  lemma ActionsOk(cfg: Config, m: string, vl: ValueList, derive: map<string, ValueList>)
    ensures forall a :: a in Actions(cfg, m, vl, derive) ==> ActionOk(cfg, a)
  {
  }

  lemma EndValueListInv(cfg: Config, m: string, s: nat, keys: set<string>, vl: ValueList, w: Walk)
    requires BucketInv(cfg, m, s, keys, w)
    ensures BucketInv(cfg, m, s, keys, EndValueList(vl, w)) && EndValueList(vl, w).points == w.points
  {
  }

  lemma ValueListStepInv(cfg: Config, m: string, s: nat, keys: set<string>, tag: string, vl: ValueList, w: Walk)
    requires BucketInv(cfg, m, s, keys, w)
    ensures var r := ValueListStep(cfg, m, tag, vl, w);
      BucketInv(cfg, m, s, keys, r) && Prefix(w.points, r.points)
  {
    if !w.raised {
      var start := StartValueList(m, tag, vl, w);
      assert BucketInv(cfg, m, s, keys, start);
      if |vl.values| > 0 {
        var acts := Actions(cfg, m, vl, start.derive);
        ActionsOk(cfg, m, vl, start.derive);
        ApplyAllInv(cfg, m, s, keys, acts, TruncSeconds(vl.time), CounterId(vl), start);
        EndValueListInv(cfg, m, s, keys, vl, ApplyAll(acts, m, TruncSeconds(vl.time), CounterId(vl), start));
      }
    }
  }

  lemma ListsFoldInv(cfg: Config, m: string, s: nat, keys: set<string>, tag: string, bucket: Bucket, w: Walk)
    requires BucketInv(cfg, m, s, keys, w)
    ensures var r := ListsFold(cfg, m, tag, bucket, w);
      BucketInv(cfg, m, s, keys, r) && Prefix(w.points, r.points)
  {
    var f := ListFn(cfg, m, tag);
    var inv := (v: Walk) => BucketInv(cfg, m, s, keys, v) && Prefix(w.points, v.points);
    forall v: Walk, vl: ValueList | vl in bucket && inv(v)
      ensures inv(f(v, vl))
    {
      ValueListStepInv(cfg, m, s, keys, tag, vl, v);
      PrefixTrans(w.points, v.points, f(v, vl).points);
    }
    FoldKeeps(f, inv, bucket, w);
  }

  lemma EndBucketInv(cfg: Config, m: string, s: nat, keys: set<string>, w: Walk)
    requires BucketInv(cfg, m, s, keys, w)
    ensures var r := EndBucket(m, w);
      BucketPoints(cfg, m, r.points, s) && Prefix(w.points, r.points) && keys <= r.derive.Keys
  {
    var r := EndBucket(m, w);
    if !w.raised && |w.fields| > 0 {
      assert r.points[..|w.points|] == w.points;
    }
  }

  /** The walk over one bucket keeps the invariant it starts with and ends with the open point emitted. */
  lemma BucketStepPoints(cfg: Config, m: string, tag: string, bucket: Bucket, w: Walk)
    ensures var r := BucketStep(cfg, m, tag, bucket, w);
      Prefix(w.points, r.points) && BucketPoints(cfg, m, r.points, |w.points|) && w.derive.Keys <= r.derive.Keys
  {
    if !w.raised {
      var s := |w.points|;
      var keys := w.derive.Keys;
      var w0 := StartBucket(w);
      assert BucketInv(cfg, m, s, keys, w0);
      ListsFoldInv(cfg, m, s, keys, tag, bucket, w0);
      var l := ListsFold(cfg, m, tag, bucket, w0);
      EndBucketInv(cfg, m, s, keys, l);
      PrefixTrans(w.points, l.points, EndBucket(m, l).points);
    }
  }

  /** Good points followed by the points of a bucket are good points. */
  lemma PointsAfterBucket(cfg: Config, m: string, ps: seq<Point>, qs: seq<Point>)
    requires PointsOk(cfg, ps) && Prefix(ps, qs) && BucketPoints(cfg, m, qs, |ps|)
    ensures PointsOk(cfg, qs)
    ensures forall k :: |ps| <= k < |qs| ==> qs[k].measurement == m
    ensures NeighboursDiffer(qs, |ps|)
  {
    BucketPointsMeaning(cfg, m, qs, |ps|);
    assert forall k :: 0 <= k < |ps| ==> qs[k] == ps[k];
  }

  /**
   * One bucket keeps every earlier point and baseline key, and the points it
   * adds are good points of measurement m of which no two consecutive ones
   * share a second.
   */
  lemma BucketStepInv(cfg: Config, m: string, tag: string, bucket: Bucket, w: Walk)
    requires PointsOk(cfg, w.points)
    ensures var r := BucketStep(cfg, m, tag, bucket, w);
      && Prefix(w.points, r.points)
      && PointsOk(cfg, r.points)
      && (forall k :: |w.points| <= k < |r.points| ==> r.points[k].measurement == m)
      && NeighboursDiffer(r.points, |w.points|)
      && w.derive.Keys <= r.derive.Keys
  {
    BucketStepPoints(cfg, m, tag, bucket, w);
    PointsAfterBucket(cfg, m, w.points, BucketStep(cfg, m, tag, bucket, w).points);
  }

  /** The walk over all buckets of one plugin and over all plugins keeps the points good and only grows them. */
  ghost predicate WalkInv(cfg: Config, w0: Walk, w: Walk) {
    && Prefix(w0.points, w.points)
    && PointsOk(cfg, w.points)
    && w0.derive.Keys <= w.derive.Keys
  }

  lemma TagsFoldInv(cfg: Config, m: string, tags: Dict<string, Bucket>, w: Walk)
    requires PointsOk(cfg, w.points)
    ensures WalkInv(cfg, w, TagsFold(cfg, m, tags, w))
  {
    var f := TagFn(cfg, m);
    var inv := (v: Walk) => WalkInv(cfg, w, v);
    forall v: Walk, e: (string, Bucket) | e in tags && inv(v)
      ensures inv(f(v, e))
    {
      BucketStepInv(cfg, m, e.0, e.1, v);
      PrefixTrans(w.points, v.points, f(v, e).points);
    }
    FoldKeeps(f, inv, tags, w);
  }

  lemma PluginsFoldInv(cfg: Config, b: Batch, w: Walk)
    requires PointsOk(cfg, w.points)
    ensures WalkInv(cfg, w, PluginsFold(cfg, b, w))
  {
    var f := PluginFn(cfg);
    var inv := (v: Walk) => WalkInv(cfg, w, v);
    forall v: Walk, e: (string, Dict<string, Bucket>) | e in b && inv(v)
      ensures inv(f(v, e))
    {
      TagsFoldInv(cfg, e.0, e.1, v);
      PrefixTrans(w.points, v.points, f(v, e).points);
    }
    FoldKeeps(f, inv, b, w);
  }

  /**
   * Every point of _prepare_metrics has at least one field and a hostname
   * tag, its only other tag key is the one TagKey gives for its
   * measurement, and without StoreRates none of its fields is NaN or +inf.
   * Baselines are never removed from batch_derive.
   */
  lemma PreparedPointsAreGood(cfg: Config, b: Batch, derive: map<string, ValueList>)
    ensures var r := Prepare(cfg, b, derive);
      PointsOk(cfg, r.points) && derive.Keys <= r.derive.Keys
  {
    PluginsFoldInv(cfg, b, InitialWalk(derive));
  }

  // ---------------------------------------------------------------------
  // The rate rule, and why a retried batch loses its rates
  // ---------------------------------------------------------------------

  /** A single-value counter of a plugin that is not averaged, with store rates on. */
  predicate SingleCounter(cfg: Config, m: string, vl: ValueList) {
    && cfg.storeRates
    && |vl.values| == 1
    && !Dropped(vl.values[0])
    && vl.typeName in cfg.datasets
    && |cfg.datasets[vl.typeName]| >= 1
    && cfg.datasets[vl.typeName][0].kind in {Derive, Counter}
    && m !in cfg.perCoreAvgPlugins
    && CounterId(vl) != []
  }

  /**
   * At the start of a bucket, a single-value counter without a baseline
   * yields no field and becomes the baseline; with a baseline from an
   * earlier second it yields the field (value - previous) / (seconds
   * apart); with a baseline from the same second or later it yields no
   * field. In every case it becomes the new baseline.
   */
  lemma SingleValueStep(cfg: Config, m: string, tag: string, vl: ValueList, w: Walk)
    requires |vl.values| == 1 && !w.raised
    ensures ValueListStep(cfg, m, tag, vl, w) ==
      EndValueList(vl, Apply(ValueAction(cfg, m, vl, 0, w.derive), m, TruncSeconds(vl.time), CounterId(vl), StartValueList(m, tag, vl, w)))
  {
    var acts := Actions(cfg, m, vl, w.derive);
    assert acts == [ValueAction(cfg, m, vl, 0, w.derive)];
    FoldAppend(ApplyFn(m, TruncSeconds(vl.time), CounterId(vl)), [], acts[0], StartValueList(m, tag, vl, w));
  }

  lemma RateRule(cfg: Config, m: string, tag: string, vl: ValueList, w: Walk)
    requires SingleCounter(cfg, m, vl) && !w.raised
    requires CounterId(vl) in w.derive ==> |w.derive[CounterId(vl)].values| >= 1
    ensures var r := ValueListStep(cfg, m, tag, vl, StartBucket(w));
      var id := CounterId(vl);
      && !r.raised
      && r.derive == w.derive[id := vl]
      && r.points == w.points
      && (id !in w.derive ==> r.fields == map[])
      && (id in w.derive ==>
            var prev := w.derive[id];
            var dt := TruncSeconds(vl.time) - TruncSeconds(prev.time);
            if dt <= 0 then r.fields == map[]
            else r.fields == map[MetricName(vl) := DivPos(Sub(vl.values[0], prev.values[0]), dt as real)])
  {
    var id := CounterId(vl);
    var a := ValueAction(cfg, m, vl, 0, w.derive);
    SingleValueStep(cfg, m, tag, vl, StartBucket(w));
    if id in w.derive && TruncSeconds(vl.time) - TruncSeconds(w.derive[id].time) > 0 {
      var prev := w.derive[id];
      var dt := TruncSeconds(vl.time) - TruncSeconds(prev.time);
      assert FieldName(vl, cfg.datasets[vl.typeName], 0) == MetricName(vl);
      assert a == Emit(MetricName(vl), DivPos(Sub(vl.values[0], prev.values[0]), dt as real), true);
    } else {
      assert a == MarkCounter;
    }
  }

  /** A bucket of one value list. */
  function OneBatch(m: string, tag: string, vl: ValueList): Batch {
    [(m, [(tag, [vl])])]
  }

  lemma PrepareOne(cfg: Config, m: string, tag: string, vl: ValueList, derive: map<string, ValueList>)
    ensures Prepare(cfg, OneBatch(m, tag, vl), derive).points ==
      EndBucket(m, ValueListStep(cfg, m, tag, vl, StartBucket(InitialWalk(derive)))).points
    ensures Prepare(cfg, OneBatch(m, tag, vl), derive).derive ==
      ValueListStep(cfg, m, tag, vl, StartBucket(InitialWalk(derive))).derive
    ensures Prepare(cfg, OneBatch(m, tag, vl), derive).raised ==
      ValueListStep(cfg, m, tag, vl, StartBucket(InitialWalk(derive))).raised
  {
    var b := OneBatch(m, tag, vl);
    var w := InitialWalk(derive);
    FoldAppend(PluginFn(cfg), [], b[0], w);
    FoldAppend(TagFn(cfg, m), [], (tag, [vl]), w);
    FoldAppend(ListFn(cfg, m, tag), [], vl, StartBucket(w));
  }

  /**
   * _prepare_metrics advances batch_derive even when the points are not
   * delivered: a batch holding one counter reading from a later second than
   * its baseline yields a rate point, but preparing the same batch again
   * (the retry after a failed write) yields no point at all, because the
   * reading has become its own baseline.
   */
  lemma RetryLosesRate(cfg: Config, m: string, tag: string, vl: ValueList, derive: map<string, ValueList>)
    requires SingleCounter(cfg, m, vl)
    requires CounterId(vl) in derive
    requires |derive[CounterId(vl)].values| >= 1
    requires TruncSeconds(derive[CounterId(vl)].time) < TruncSeconds(vl.time)
    ensures var first := Prepare(cfg, OneBatch(m, tag, vl), derive);
      && !first.raised
      && |first.points| == 1
      && first.points[0].fields.Keys == {MetricName(vl)}
      && Prepare(cfg, OneBatch(m, tag, vl), first.derive).points == []
  {
    var w := InitialWalk(derive);
    PrepareOne(cfg, m, tag, vl, derive);
    RateRule(cfg, m, tag, vl, w);
    var first := Prepare(cfg, OneBatch(m, tag, vl), derive);
    var w2 := InitialWalk(first.derive);
    PrepareOne(cfg, m, tag, vl, first.derive);
    RateRule(cfg, m, tag, vl, w2);
  }

  /** A value list whose values are all NaN or +inf sets no field and no baseline. */
  lemma DroppedValuesAddNothing(cfg: Config, m: string, tag: string, vl: ValueList, w: Walk)
    requires !w.raised
    requires forall i :: 0 <= i < |vl.values| ==> Dropped(vl.values[i])
    ensures ValueListStep(cfg, m, tag, vl, w) == StartValueList(m, tag, vl, w)
  {
    var w0 := StartValueList(m, tag, vl, w);
    if |vl.values| > 0 {
      SkipsChangeNothing(Actions(cfg, m, vl, w0.derive), m, TruncSeconds(vl.time), CounterId(vl), w0);
    }
  }

  lemma {:induction false} SkipsChangeNothing(acts: seq<Action>, m: string, time: int, id: string, w: Walk)
    requires forall i :: 0 <= i < |acts| ==> acts[i] == Skip
    ensures ApplyAll(acts, m, time, id, w) == w
  {
    if |acts| > 0 {
      SkipsChangeNothing(acts[..|acts| - 1], m, time, id, w);
    }
  }

  /** The field names of a multi-value list are distinct where the data set names them distinctly. */
  lemma FieldNamesDistinct(vl: ValueList, ds: seq<DataSource>, i: nat, j: nat)
    requires |vl.values| > 1 && i != j
    requires i < |ds| && j < |ds| ==> ds[i].name != ds[j].name
    requires i < |ds| <==> j < |ds|
    ensures FieldName(vl, ds, i) != FieldName(vl, ds, j)
  {
    var a := FieldName(vl, ds, i);
    var b := FieldName(vl, ds, j);
    var name := MetricName(vl);
    if i < |ds| {
      assert |a| == |ds[i].name| + 1 + |name| && |b| == |ds[j].name| + 1 + |name|;
      if |ds[i].name| == |ds[j].name| {
        assert a[..|ds[i].name|] == ds[i].name;
        assert b[..|ds[j].name|] == ds[j].name;
      }
    } else {
      assert a[|name|..] == NatToString(i);
      assert b[|name|..] == NatToString(j);
    }
  }

  // ---------------------------------------------------------------------
  // Point grouping
  // ---------------------------------------------------------------------

  /**
   * A single-value gauge of a plugin that is not averaged: StoreRates is
   * off, or its data source is neither a derive nor a counter.
   */
  predicate SingleGauge(cfg: Config, m: string, vl: ValueList) {
    && |vl.values| == 1
    && !Dropped(vl.values[0])
    && vl.typeName in cfg.datasets
    && m !in cfg.perCoreAvgPlugins
    && (cfg.storeRates ==> |cfg.datasets[vl.typeName]| >= 1 && cfg.datasets[vl.typeName][0].kind !in {Derive, Counter})
  }

  /**
   * A single gauge adds its value under its metric name at its second,
   * after the tags are rebuilt from its host; it sets no baseline.
   */
  lemma GaugeStep(cfg: Config, m: string, tag: string, vl: ValueList, w: Walk)
    requires SingleGauge(cfg, m, vl) && !w.raised
    ensures ValueListStep(cfg, m, tag, vl, w) ==
      AddField(StartValueList(m, tag, vl, w), m, TruncSeconds(vl.time), MetricName(vl), vl.values[0])
  {
    SingleValueStep(cfg, m, tag, vl, w);
    assert FieldName(vl, cfg.datasets[vl.typeName], 0) == MetricName(vl);
    assert ValueAction(cfg, m, vl, 0, w.derive) == Emit(MetricName(vl), vl.values[0], false);
  }

  /**
   * The fields of value lists read in one second, one value each: each
   * metric name with the value of the last list that has it; a list with
   * no values adds nothing.
   */
  function GaugeFields(bucket: Bucket): map<string, Float>
    decreases |bucket|
  {
    if |bucket| == 0 then map[]
    else
      var vl := bucket[|bucket| - 1];
      var rest := GaugeFields(bucket[..|bucket| - 1]);
      if |vl.values| == 0 then rest else rest[MetricName(vl) := vl.values[0]]
  }

  /** A name is a field exactly when some list has it. */
  lemma {:induction false} GaugeFieldsKeys(bucket: Bucket, k: string)
    requires forall i :: 0 <= i < |bucket| ==> |bucket[i].values| > 0
    ensures k in GaugeFields(bucket) <==> exists i :: 0 <= i < |bucket| && MetricName(bucket[i]) == k
    decreases |bucket|
  {
    if |bucket| > 0 {
      var n := |bucket| - 1;
      var init := bucket[..n];
      GaugeFieldsKeys(init, k);
      if exists i :: 0 <= i < |bucket| && MetricName(bucket[i]) == k {
        var i :| 0 <= i < |bucket| && MetricName(bucket[i]) == k;
        if i < n {
          assert init[i] == bucket[i];
        }
      }
    }
  }

  /** The value of a field is that of the last list with its name. */
  lemma {:induction false} GaugeFieldsLastWins(bucket: Bucket, j: nat)
    requires forall i :: 0 <= i < |bucket| ==> |bucket[i].values| > 0
    requires j < |bucket| && forall i :: j < i < |bucket| ==> MetricName(bucket[i]) != MetricName(bucket[j])
    ensures MetricName(bucket[j]) in GaugeFields(bucket)
    ensures GaugeFields(bucket)[MetricName(bucket[j])] == bucket[j].values[0]
    decreases |bucket|
  {
    var n := |bucket| - 1;
    if j < n {
      var init := bucket[..n];
      assert init[j] == bucket[j];
      forall i | j < i < |init|
        ensures MetricName(init[i]) != MetricName(init[j])
      {
        assert init[i] == bucket[i];
      }
      GaugeFieldsLastWins(init, j);
    }
  }

  /**
   * Gauges of one bucket read in the same second t give one open point at t
   * holding GaugeFields, with the tags of the last list, and no point yet.
   */
  lemma {:induction false} SameSecondFold(cfg: Config, m: string, tag: string, bucket: Bucket, t: int, w: Walk)
    requires |bucket| > 0 && !w.raised
    requires forall i :: 0 <= i < |bucket| ==> SingleGauge(cfg, m, bucket[i]) && TruncSeconds(bucket[i].time) == t
    ensures ListsFold(cfg, m, tag, bucket, StartBucket(w)) ==
      w.(lastTime := t, fields := GaugeFields(bucket), tags := PointTags(m, tag, bucket[|bucket| - 1].host), counterId := None)
    decreases |bucket|
  {
    var n := |bucket| - 1;
    var vl := bucket[n];
    var init := bucket[..n];
    FoldAppend(ListFn(cfg, m, tag), init, vl, StartBucket(w));
    assert init + [vl] == bucket;
    if n == 0 {
      GaugeStep(cfg, m, tag, vl, StartBucket(w));
    } else {
      SameSecondFold(cfg, m, tag, init, t, w);
      var v := ListsFold(cfg, m, tag, init, StartBucket(w));
      GaugeStep(cfg, m, tag, vl, v);
    }
  }

  /**
   * Point grouping: gauges of one series read in the same second give
   * exactly one point at that second, holding every metric name of the
   * bucket with the value of the last list that has it.
   */
  lemma SameSecondOnePoint(cfg: Config, m: string, tag: string, bucket: Bucket, t: int, w: Walk)
    requires |bucket| > 0 && !w.raised
    requires forall i :: 0 <= i < |bucket| ==> SingleGauge(cfg, m, bucket[i]) && TruncSeconds(bucket[i].time) == t
    ensures var r := BucketStep(cfg, m, tag, bucket, w);
      && !r.raised && r.derive == w.derive
      && r.points == w.points + [Point(m, t, PointTags(m, tag, bucket[|bucket| - 1].host), GaugeFields(bucket))]
  {
    SameSecondFold(cfg, m, tag, bucket, t, w);
    var last := bucket[|bucket| - 1];
    assert MetricName(last) in GaugeFields(bucket);
  }

  /**
   * Two gauges of one series in the same second share one point, and on an
   * equal metric name the second value overwrites the first.
   */
  lemma TwoGaugesSameSecond(cfg: Config, m: string, tag: string, vl1: ValueList, vl2: ValueList, w: Walk)
    requires SingleGauge(cfg, m, vl1) && SingleGauge(cfg, m, vl2) && !w.raised
    requires TruncSeconds(vl1.time) == TruncSeconds(vl2.time)
    ensures var r := BucketStep(cfg, m, tag, [vl1, vl2], w);
      var fields := map[MetricName(vl1) := vl1.values[0]][MetricName(vl2) := vl2.values[0]];
      && !r.raised && r.derive == w.derive
      && r.points == w.points + [Point(m, TruncSeconds(vl1.time), PointTags(m, tag, vl2.host), fields)]
      && (MetricName(vl1) == MetricName(vl2) ==> fields == map[MetricName(vl2) := vl2.values[0]])
      && (MetricName(vl1) != MetricName(vl2) ==> fields.Keys == {MetricName(vl1), MetricName(vl2)})
  {
    hide BucketStep, ListsFold, PointTags, Fold, ValueListStep, AddField, TruncSeconds;
    var b := [vl1, vl2];
    assert forall i :: 0 <= i < |b| ==> SingleGauge(cfg, m, b[i]) && TruncSeconds(b[i].time) == TruncSeconds(vl1.time) by {
      assert b[0] == vl1 && b[1] == vl2;
    }
    SameSecondOnePoint(cfg, m, tag, b, TruncSeconds(vl1.time), w);
    assert b[..1] == [vl1];
    assert [vl1][..0] == [];
    var fields := map[MetricName(vl1) := vl1.values[0]][MetricName(vl2) := vl2.values[0]];
    assert GaugeFields([vl1]) == map[MetricName(vl1) := vl1.values[0]];
    assert GaugeFields(b) == fields;
    if MetricName(vl1) == MetricName(vl2) {
      assert fields == map[MetricName(vl2) := vl2.values[0]];
    }
  }

  /**
   * Two gauges of one series in different seconds give two points, each at
   * its own second with its own field. The point of the first second is
   * emitted once the second list has rebuilt the tags, so both points carry
   * the host of the second list.
   */
  lemma TwoGaugesNewSecond(cfg: Config, m: string, tag: string, vl1: ValueList, vl2: ValueList, w: Walk)
    requires SingleGauge(cfg, m, vl1) && SingleGauge(cfg, m, vl2) && !w.raised
    requires TruncSeconds(vl1.time) != TruncSeconds(vl2.time)
    ensures var r := BucketStep(cfg, m, tag, [vl1, vl2], w);
      var tags := PointTags(m, tag, vl2.host);
      && !r.raised && r.derive == w.derive
      && r.points == w.points + [Point(m, TruncSeconds(vl1.time), tags, map[MetricName(vl1) := vl1.values[0]]),
                                 Point(m, TruncSeconds(vl2.time), tags, map[MetricName(vl2) := vl2.values[0]])]
  {
    hide ValueListStep, PointTags, TruncSeconds, SingleGauge;
    var f := ListFn(cfg, m, tag);
    var w0 := StartBucket(w);
    FoldAppend(f, [], vl1, w0);
    FoldAppend(f, [vl1], vl2, w0);
    assert [vl1] + [vl2] == [vl1, vl2];
    GaugeStep(cfg, m, tag, vl1, w0);
    var w1 := Fold(f, [vl1], w0);
    GaugeStep(cfg, m, tag, vl2, w1);
  }

  // ---------------------------------------------------------------------
  // Per-core averages
  // ---------------------------------------------------------------------

  /** A single value of a plugin in per_core_avg_plugins that is not a rate. */
  predicate SingleAvgGauge(cfg: Config, m: string, vl: ValueList) {
    && |vl.values| == 1
    && !Dropped(vl.values[0])
    && vl.typeName in cfg.datasets
    && m in cfg.perCoreAvgPlugins
    && (cfg.storeRates ==> |cfg.datasets[vl.typeName]| >= 1 && cfg.datasets[vl.typeName][0].kind !in {Derive, Counter})
  }

  /**
   * An averaged plugin reports its value divided by threads_per_core, under
   * its metric name at its second; it sets no baseline.
   */
  lemma AvgGaugeStep(cfg: Config, m: string, tag: string, vl: ValueList, w: Walk)
    requires SingleAvgGauge(cfg, m, vl) && cfg.threadsPerCore > 0 && !w.raised
    ensures ValueListStep(cfg, m, tag, vl, w) ==
      AddField(StartValueList(m, tag, vl, w), m, TruncSeconds(vl.time), MetricName(vl),
               DivPos(vl.values[0], cfg.threadsPerCore as real))
  {
    SingleValueStep(cfg, m, tag, vl, w);
    assert FieldName(vl, cfg.datasets[vl.typeName], 0) == MetricName(vl);
    assert ValueAction(cfg, m, vl, 0, w.derive) == Emit(MetricName(vl), DivPos(vl.values[0], cfg.threadsPerCore as real), false);
  }

  /**
   * With threads_per_core 0 the division raises ZeroDivisionError for any
   * value of an averaged plugin that is not dropped, rate or not: the walk
   * stops with no point added and no baseline moved.
   */
  lemma AvgWithoutThreadsRaises(cfg: Config, m: string, tag: string, vl: ValueList, w: Walk)
    requires |vl.values| == 1 && !Dropped(vl.values[0]) && vl.typeName in cfg.datasets
    requires m in cfg.perCoreAvgPlugins && cfg.threadsPerCore == 0 && !w.raised
    ensures var r := ValueListStep(cfg, m, tag, vl, w);
      r.raised && r.points == w.points && r.derive == w.derive
  {
    SingleValueStep(cfg, m, tag, vl, w);
    assert ValueAction(cfg, m, vl, 0, w.derive) == Fail;
  }

  /** A single-value counter of an averaged plugin, with StoreRates on and threads_per_core set. */
  predicate SingleAvgCounter(cfg: Config, m: string, vl: ValueList) {
    && cfg.storeRates
    && |vl.values| == 1
    && !Dropped(vl.values[0])
    && vl.typeName in cfg.datasets
    && |cfg.datasets[vl.typeName]| >= 1
    && cfg.datasets[vl.typeName][0].kind in {Derive, Counter}
    && m in cfg.perCoreAvgPlugins
    && cfg.threadsPerCore > 0
    && CounterId(vl) != []
  }

  /**
   * The rate of an averaged counter: the value is divided by
   * threads_per_core before the baseline is subtracted, but the baseline
   * stored in batch_derive is the value list as received, undivided.
   */
  lemma AvgRateRule(cfg: Config, m: string, tag: string, vl: ValueList, w: Walk)
    requires SingleAvgCounter(cfg, m, vl) && !w.raised
    requires CounterId(vl) in w.derive && |w.derive[CounterId(vl)].values| >= 1
    requires TruncSeconds(w.derive[CounterId(vl)].time) < TruncSeconds(vl.time)
    ensures var r := ValueListStep(cfg, m, tag, vl, StartBucket(w));
      var prev := w.derive[CounterId(vl)];
      var dt := TruncSeconds(vl.time) - TruncSeconds(prev.time);
      && !r.raised
      && r.points == w.points
      && r.derive == w.derive[CounterId(vl) := vl]
      && r.fields == map[MetricName(vl) := DivPos(Sub(DivPos(vl.values[0], cfg.threadsPerCore as real), prev.values[0]), dt as real)]
  {
    var prev := w.derive[CounterId(vl)];
    var dt := TruncSeconds(vl.time) - TruncSeconds(prev.time);
    SingleValueStep(cfg, m, tag, vl, StartBucket(w));
    assert FieldName(vl, cfg.datasets[vl.typeName], 0) == MetricName(vl);
    assert ValueAction(cfg, m, vl, 0, w.derive) ==
      Emit(MetricName(vl), DivPos(Sub(DivPos(vl.values[0], cfg.threadsPerCore as real), prev.values[0]), dt as real), true);
  }

  /**
   * Because the baseline is undivided, an averaged counter that did not
   * change reports a negative rate whenever threads_per_core is 2 or more:
   * the averaged reading is compared with the raw one.
   */
  lemma AvgRateOfUnchangedCounter(cfg: Config, m: string, tag: string, vl: ValueList, w: Walk, x: real)
    requires SingleAvgCounter(cfg, m, vl) && !w.raised && cfg.threadsPerCore >= 2
    requires CounterId(vl) in w.derive && |w.derive[CounterId(vl)].values| >= 1
    requires TruncSeconds(w.derive[CounterId(vl)].time) < TruncSeconds(vl.time)
    requires vl.values[0] == Fin(x) && w.derive[CounterId(vl)].values[0] == Fin(x) && x > 0.0
    ensures var r := ValueListStep(cfg, m, tag, vl, StartBucket(w));
      MetricName(vl) in r.fields && r.fields[MetricName(vl)].Fin? && r.fields[MetricName(vl)].r < 0.0
  {
    var prev := w.derive[CounterId(vl)];
    var dt := TruncSeconds(vl.time) - TruncSeconds(prev.time);
    var t := cfg.threadsPerCore as real;
    AvgRateRule(cfg, m, tag, vl, w);
    var avg := DivPos(Fin(x), t);
    assert avg.r * t == x;
    assert avg.r < x;
    var d := Sub(avg, Fin(x));
    assert d == Fin(avg.r - x);
    var rate := DivPos(d, dt as real);
    assert rate.r * (dt as real) == avg.r - x;
  }
}
