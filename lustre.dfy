/**
 * The Lustre bandwidth plugin (python/lustre_bw.py). For every mounted
 * Lustre file system it reads the client's stats (and optionally
 * extents_stats) file, parses it into metric name -> number, and dispatches
 * for every metric the change since the previous read divided by the time
 * between the reads.
 *
 * The /proc files, the `ls` discovery of file systems, Python's float() and
 * the clock are inputs: file contents come as functions from path to text
 * (None where the file cannot be opened), float() as a function from token
 * to number (None where it raises ValueError), and the iteration order of a
 * Python 2 dict, which the language leaves unspecified, as a function that
 * lists a map's keys.
 */
module Lustre {
  import opened Util
  import opened RecheckCounter

  /** The stats lines whose second word is kept under their first word (_KEY_MAPPING). */
  const KeyMapping: seq<string> := ["open", "close", "fsync", "create", "seek"]

  /** Every key _parseLustreStats can produce. */
  const StatsKeys: set<string> :=
    {"read_requests", "read_bw", "write_requests", "write_bw", "open", "close", "fsync", "create", "seek"}

  /** The first word of the stats line a key is read from. */
  function SourceWord(k: string): string {
    if k == "read_requests" || k == "read_bw" then "read_bytes"
    else if k == "write_requests" || k == "write_bw" then "write_bytes"
    else k
  }

  /** The position, among the line's words, of the number a key is read from. */
  function SourcePos(k: string): nat {
    if k == "read_bw" || k == "write_bw" then 6 else 1
  }

  /**
   * A stats line (as words) that makes _parseLustreStats raise: a line of
   * blanks has no first word (IndexError), and a recognised line may lack
   * the words it reads (IndexError) or hold one float() refuses (ValueError).
   */
  predicate BadStatsLine(w: seq<string>, toReal: string -> Option<real>) {
    || |w| == 0
    || ((w[0] == "read_bytes" || w[0] == "write_bytes") && (|w| < 7 || toReal(w[1]).None? || toReal(w[6]).None?))
    || (w[0] in KeyMapping && (|w| < 2 || toReal(w[1]).None?))
  }

  /** One line of _parseLustreStats; None when it raises. */
  function StatsLine(acc: map<string, real>, w: seq<string>, toReal: string -> Option<real>): (r: Option<map<string, real>>)
    ensures r.None? <==> BadStatsLine(w, toReal)
  {
    if |w| == 0 then None
    else if w[0] == "read_bytes" then
      if |w| < 2 || toReal(w[1]).None? || |w| < 7 || toReal(w[6]).None? then None
      else Some(acc["read_requests" := toReal(w[1]).value]["read_bw" := toReal(w[6]).value])
    else if w[0] == "write_bytes" then
      if |w| < 2 || toReal(w[1]).None? || |w| < 7 || toReal(w[6]).None? then None
      else Some(acc["write_requests" := toReal(w[1]).value]["write_bw" := toReal(w[6]).value])
    else if w[0] in KeyMapping then
      if |w| < 2 || toReal(w[1]).None? then None
      else Some(acc[w[0] := toReal(w[1]).value])
    else Some(acc)
  }

  /** _parseLustreStats over its non-empty lines, in order. */
  function StatsLines(lines: seq<string>, toReal: string -> Option<real>): Option<map<string, real>>
    decreases |lines|
  {
    if |lines| == 0 then Some(map[])
    else
      match StatsLines(lines[..|lines| - 1], toReal)
      case None => None
      case Some(acc) => StatsLine(acc, Words(lines[|lines| - 1]), toReal)
  }

  /** _parseLustreStats: the stats text as a map, or None when it raises. */
  function ParseStats(text: string, toReal: string -> Option<real>): Option<map<string, real>> {
    StatsLines(Lines(text), toReal)
  }

  /** The line begins with the given word. */
  predicate Leads(line: string, word: string) {
    |Words(line)| > 0 && Words(line)[0] == word
  }

  /** The index of the last line that begins with word, or -1. */
  function LastLine(lines: seq<string>, word: string): (i: int)
    ensures -1 <= i < |lines|
    ensures i >= 0 ==> Leads(lines[i], word)
    ensures forall j :: i < j < |lines| ==> !Leads(lines[j], word)
    decreases |lines|
  {
    if |lines| == 0 then -1
    else if Leads(lines[|lines| - 1], word) then |lines| - 1
    else LastLine(lines[..|lines| - 1], word)
  }

  /** The stats keys a line (as words) sets: those whose source word it begins with. */
  predicate Sets(w: seq<string>, k: string) {
    k in StatsKeys && |w| > 0 && w[0] == SourceWord(k)
  }

  /** A good line sets its keys from the words at their positions and leaves every other key alone. */
  lemma StatsLineStep(acc: map<string, real>, w: seq<string>, toReal: string -> Option<real>, k: string)
    requires !BadStatsLine(w, toReal)
    ensures var m := StatsLine(acc, w, toReal).value;
      && (Sets(w, k) ==> k in m && |w| > SourcePos(k) && toReal(w[SourcePos(k)]) == Some(m[k]))
      && (!Sets(w, k) ==> (k in m <==> k in acc) && (k in acc ==> m[k] == acc[k]))
  {
  }

  /** _parseLustreStats raises exactly when one of its lines is bad. */
  lemma {:induction false} StatsLinesRaise(lines: seq<string>, toReal: string -> Option<real>)
    ensures StatsLines(lines, toReal).None? <==> exists i :: 0 <= i < |lines| && BadStatsLine(Words(lines[i]), toReal)
    decreases |lines|
  {
    if |lines| > 0 {
      var init := lines[..|lines| - 1];
      StatsLinesRaise(init, toReal);
      if exists i :: 0 <= i < |init| && BadStatsLine(Words(init[i]), toReal) {
        var i :| 0 <= i < |init| && BadStatsLine(Words(init[i]), toReal);
        assert lines[i] == init[i];
      } else {
        forall i | 0 <= i < |lines| - 1
          ensures !BadStatsLine(Words(lines[i]), toReal)
        {
          assert lines[i] == init[i];
        }
      }
    }
  }

  /**
   * When _parseLustreStats does not raise it holds exactly the keys whose
   * source line occurs, each with the number at its position in the last
   * such line: read_requests and read_bw are words 1 and 6 of the last
   * read_bytes line, write_requests and write_bw those of the last
   * write_bytes line, and open, close, fsync, create and seek word 1 of the
   * last line they begin; every other line is ignored.
   */
  lemma {:induction false} StatsLinesValues(lines: seq<string>, toReal: string -> Option<real>)
    ensures StatsLines(lines, toReal).Some? ==>
      var m := StatsLines(lines, toReal).value;
      && (forall k :: k in m <==> k in StatsKeys && LastLine(lines, SourceWord(k)) >= 0)
      && (forall k :: k in m ==> |Words(lines[LastLine(lines, SourceWord(k))])| > SourcePos(k) &&
                                 toReal(Words(lines[LastLine(lines, SourceWord(k))])[SourcePos(k)]) == Some(m[k]))
    decreases |lines|
  {
    if |lines| > 0 && StatsLines(lines, toReal).Some? {
      var init := lines[..|lines| - 1];
      var w := Words(lines[|lines| - 1]);
      StatsLinesValues(init, toReal);
      var acc := StatsLines(init, toReal).value;
      var m := StatsLine(acc, w, toReal).value;
      forall k
        ensures k in m <==> k in StatsKeys && LastLine(lines, SourceWord(k)) >= 0
        ensures k in m ==> |Words(lines[LastLine(lines, SourceWord(k))])| > SourcePos(k) &&
                           toReal(Words(lines[LastLine(lines, SourceWord(k))])[SourcePos(k)]) == Some(m[k])
      {
        StatsLineStep(acc, w, toReal, k);
        var l := LastLine(init, SourceWord(k));
        if Sets(w, k) {
          assert LastLine(lines, SourceWord(k)) == |lines| - 1;
        } else {
          if k in StatsKeys {
            assert LastLine(lines, SourceWord(k)) == l;
          }
          if l >= 0 {
            assert lines[l] == init[l];
          }
        }
      }
    }
  }

  // extents_stats

  /** The key of the reads (or writes) column of an extents_stats row. */
  function ReadKey(w: seq<string>): string
    requires |w| == 11
  {
    "read_" + w[0] + "-" + w[2]
  }

  function WriteKey(w: seq<string>): string
    requires |w| == 11
  {
    "write_" + w[0] + "-" + w[2]
  }

  /**
   * One line of _parseLustreExtendsStats: a row of 11 words adds the reads
   * column (word 4) and then the writes column (word 8), each when positive.
   * A word float() refuses ends the line's processing where it occurs.
   */
  function ExtentsLine(acc: map<string, real>, w: seq<string>, toReal: string -> Option<real>): (r: map<string, real>)
    ensures forall k :: k in r && k !in acc ==> |w| == 11 && (k == ReadKey(w) || k == WriteKey(w))
    ensures |w| == 11 && toReal(w[4]).Some? && toReal(w[4]).value > 0.0 ==> ReadKey(w) in r && r[ReadKey(w)] == toReal(w[4]).value
    ensures |w| == 11 && toReal(w[4]).Some? && toReal(w[8]).Some? && toReal(w[8]).value > 0.0 ==>
      WriteKey(w) in r && r[WriteKey(w)] == toReal(w[8]).value
  {
    if |w| != 11 then acc
    else
      match toReal(w[4])
      case None => acc
      case Some(rd) =>
        var acc1 := if rd > 0.0 then acc[ReadKey(w) := rd] else acc;
        match toReal(w[8])
        case None => acc1
        case Some(wr) => if wr > 0.0 then acc1[WriteKey(w) := wr] else acc1
  }

  function ExtentsLines(lines: seq<string>, toReal: string -> Option<real>): map<string, real>
    decreases |lines|
  {
    if |lines| == 0 then map[]
    else ExtentsLine(ExtentsLines(lines[..|lines| - 1], toReal), Words(lines[|lines| - 1]), toReal)
  }

  /** _parseLustreExtendsStats; it never raises. */
  function ParseExtents(text: string, toReal: string -> Option<real>): map<string, real> {
    ExtentsLines(Lines(text), toReal)
  }

  /** The row w contributes the value v under key k. */
  predicate Contributes(w: seq<string>, k: string, v: real, toReal: string -> Option<real>) {
    && |w| == 11
    && toReal(w[4]).Some?
    && v > 0.0
    && ((k == ReadKey(w) && toReal(w[4]).value == v) || (k == WriteKey(w) && toReal(w[8]) == Some(v)))
  }

  /**
   * Every entry of _parseLustreExtendsStats is a positive reads or writes
   * column of some row of 11 words, and every positive column of such a row
   * whose reads column float() accepts has an entry.
   */
  lemma {:induction false} ExtentsLinesSpec(lines: seq<string>, toReal: string -> Option<real>)
    ensures forall k :: k in ExtentsLines(lines, toReal) ==>
      exists i :: 0 <= i < |lines| && Contributes(Words(lines[i]), k, ExtentsLines(lines, toReal)[k], toReal)
    ensures forall i, k, v :: 0 <= i < |lines| && Contributes(Words(lines[i]), k, v, toReal) ==> k in ExtentsLines(lines, toReal)
    decreases |lines|
  {
    hide Words;
    if |lines| > 0 {
      var init := lines[..|lines| - 1];
      var w := Words(lines[|lines| - 1]);
      var acc := ExtentsLines(init, toReal);
      var m := ExtentsLine(acc, w, toReal);
      ExtentsLinesSpec(init, toReal);
      if |w| == 11 {
        ReadWriteKeysDiffer(w);
      }
      forall k | k in m
        ensures exists i :: 0 <= i < |lines| && Contributes(Words(lines[i]), k, m[k], toReal)
      {
        if |w| == 11 && toReal(w[4]).Some? && ((k == ReadKey(w) && toReal(w[4]).value > 0.0) ||
                                               (k == WriteKey(w) && toReal(w[8]).Some? && toReal(w[8]).value > 0.0)) {
          assert Contributes(Words(lines[|lines| - 1]), k, m[k], toReal);
        } else {
          assert k in acc && m[k] == acc[k];
          var i :| 0 <= i < |init| && Contributes(Words(init[i]), k, acc[k], toReal);
          assert lines[i] == init[i];
        }
      }
      forall i, k, v | 0 <= i < |lines| && Contributes(Words(lines[i]), k, v, toReal)
        ensures k in m
      {
        if i < |init| {
          assert lines[i] == init[i];
        }
      }
    }
  }

  lemma ReadWriteKeysDiffer(w: seq<string>)
    requires |w| == 11
    ensures ReadKey(w) != WriteKey(w)
  {
    assert ReadKey(w)[0] != WriteKey(w)[0];
  }

  // Publishing one parsed file.

  /** One dispatched value list: plugin lustre_<fsname>, type_instance metric, and the rate. */
  datatype Dispatch = Dispatch(plugin: string, metric: string, value: real)

  /** The previous values after publishing, what was dispatched, and whether ZeroDivisionError was raised. */
  datatype Published = Published(previous: map<string, real>, sent: seq<Dispatch>, raised: bool)

  function PluginName(fsName: string): string {
    "lustre_<" + fsName + ">"
  }

  /** The change of a metric since the previous read; the value itself when there is no previous one. */
  function Delta(previous: map<string, real>, metrics: map<string, real>, k: string): real
    requires k in metrics
  {
    if k in previous then metrics[k] - previous[k] else metrics[k]
  }

  /** _publishLustreMetrics, visiting the metrics in the given order. */
  function PublishSpec(plugin: string, previous: map<string, real>, metrics: map<string, real>, order: seq<string>,
                       interval: real): Published
    requires forall k :: k in order ==> k in metrics
    decreases |order|
  {
    if |order| == 0 then Published(previous, [], false)
    else
      var r := PublishSpec(plugin, previous, metrics, order[..|order| - 1], interval);
      var k := order[|order| - 1];
      if r.raised then r
      else
        var delta := Delta(r.previous, metrics, k);
        var prev := r.previous[k := metrics[k]];
        if delta < 0.0 then Published(prev, r.sent, false)
        else if interval == 0.0 then Published(prev, r.sent, true)
        else Published(prev, r.sent + [Dispatch(plugin, k, delta / interval)], false)
  }

  predicate Distinct(order: seq<string>) {
    forall i, j :: 0 <= i < j < |order| ==> order[i] != order[j]
  }

  /** The order lists each key of the map once, as Python's dict.keys() does. */
  predicate KeyOrder(order: seq<string>, m: map<string, real>) {
    Distinct(order) && (forall k :: k in order ==> k in m) && (forall k :: k in m ==> k in order)
  }

  /** The last metric of a distinct order is not among the earlier ones, and the order is those plus it. */
  lemma LastIsNew(order: seq<string>)
    requires |order| > 0 && Distinct(order)
    ensures order[|order| - 1] !in order[..|order| - 1]
    ensures Distinct(order[..|order| - 1])
    ensures forall x :: x in order <==> x in order[..|order| - 1] || x == order[|order| - 1]
  {
    var init := order[..|order| - 1];
    forall i | 0 <= i < |init|
      ensures init[i] != order[|order| - 1]
    {
      assert init[i] == order[i];
    }
    forall x | x in order
      ensures x in init || x == order[|order| - 1]
    {
      var i :| 0 <= i < |order| && order[i] == x;
      if i < |init| {
        assert init[i] == x;
      }
    }
  }

  /** Publishing in order overwrites the previous value of each metric it passes, and raises only on a zero interval. */
  lemma {:induction false} PublishPrefixPrevious(plugin: string, previous: map<string, real>, metrics: map<string, real>,
                                           order: seq<string>, interval: real)
    requires forall k :: k in order ==> k in metrics
    requires Distinct(order)
    ensures var r := PublishSpec(plugin, previous, metrics, order, interval);
      && (r.raised ==> interval == 0.0 && exists k :: k in order && Delta(previous, metrics, k) >= 0.0)
      && (!r.raised ==> interval != 0.0 || forall k :: k in order ==> Delta(previous, metrics, k) < 0.0)
      && (!r.raised ==> forall k :: k in previous || k in order <==> k in r.previous)
      && (!r.raised ==> forall k :: k in r.previous ==> r.previous[k] == if k in order then metrics[k] else previous[k])
    decreases |order|
  {
    if |order| > 0 {
      var init := order[..|order| - 1];
      var k := order[|order| - 1];
      LastIsNew(order);
      PublishPrefixPrevious(plugin, previous, metrics, init, interval);
      var r := PublishSpec(plugin, previous, metrics, init, interval);
      if !r.raised {
        assert Delta(r.previous, metrics, k) == Delta(previous, metrics, k);
      }
    }
  }

  /** Unfolding the last metric: the previous value is overwritten and a rate is appended when the change is not negative. */
  lemma PublishLast(plugin: string, previous: map<string, real>, metrics: map<string, real>, order: seq<string>, interval: real)
    requires forall k :: k in order ==> k in metrics
    requires Distinct(order) && |order| > 0
    ensures var init := order[..|order| - 1];
      var k := order[|order| - 1];
      var r := PublishSpec(plugin, previous, metrics, init, interval);
      var r' := PublishSpec(plugin, previous, metrics, order, interval);
      && (forall x :: x in order <==> x in init || x == k)
      && k !in init && Distinct(init)
      && (!r'.raised ==> !r.raised)
      && (!r'.raised ==> r'.sent == if Delta(previous, metrics, k) >= 0.0 && interval != 0.0 then r.sent + [Dispatch(plugin, k, Delta(previous, metrics, k) / interval)] else r.sent)
      && (!r'.raised && Delta(previous, metrics, k) >= 0.0 ==> interval != 0.0)
  {
    LastIsNew(order);
    var init := order[..|order| - 1];
    assert forall x :: x in init ==> x in metrics;
    PublishPrefixPrevious(plugin, previous, metrics, init, interval);
    var r := PublishSpec(plugin, previous, metrics, init, interval);
    if !r.raised {
      assert Delta(r.previous, metrics, order[|order| - 1]) == Delta(previous, metrics, order[|order| - 1]);
    }
  }

  /** Publishing in order dispatches only metrics it passes that did not decrease, each with its rate. */
  lemma {:induction false} PublishSentRates(plugin: string, previous: map<string, real>, metrics: map<string, real>,
                                            order: seq<string>, interval: real)
    requires forall k :: k in order ==> k in metrics
    requires Distinct(order)
    ensures var r := PublishSpec(plugin, previous, metrics, order, interval);
      !r.raised ==> forall j :: 0 <= j < |r.sent| ==>
        && r.sent[j].plugin == plugin
        && r.sent[j].metric in order
        && Delta(previous, metrics, r.sent[j].metric) >= 0.0
        && interval != 0.0 && r.sent[j].value == Delta(previous, metrics, r.sent[j].metric) / interval
    decreases |order|
  {
    if |order| > 0 {
      var init := order[..|order| - 1];
      PublishLast(plugin, previous, metrics, order, interval);
      PublishSentRates(plugin, previous, metrics, init, interval);
      var r := PublishSpec(plugin, previous, metrics, init, interval);
      var r' := PublishSpec(plugin, previous, metrics, order, interval);
      if !r'.raised {
        forall j | 0 <= j < |r'.sent|
          ensures r'.sent[j].plugin == plugin && r'.sent[j].metric in order
          ensures Delta(previous, metrics, r'.sent[j].metric) >= 0.0
          ensures interval != 0.0 && r'.sent[j].value == Delta(previous, metrics, r'.sent[j].metric) / interval
        {
          if j < |r.sent| {
            assert r'.sent[j] == r.sent[j];
          }
        }
      }
    }
  }

  /** Publishing in order dispatches every metric it passes that did not decrease. */
  lemma {:induction false} PublishSentAll(plugin: string, previous: map<string, real>, metrics: map<string, real>,
                                          order: seq<string>, interval: real)
    requires forall k :: k in order ==> k in metrics
    requires Distinct(order)
    ensures var r := PublishSpec(plugin, previous, metrics, order, interval);
      !r.raised ==> forall k :: k in order && Delta(previous, metrics, k) >= 0.0 ==>
        exists j :: 0 <= j < |r.sent| && r.sent[j].metric == k
    decreases |order|
  {
    if |order| > 0 {
      var init := order[..|order| - 1];
      var k := order[|order| - 1];
      PublishLast(plugin, previous, metrics, order, interval);
      PublishSentAll(plugin, previous, metrics, init, interval);
      var r := PublishSpec(plugin, previous, metrics, init, interval);
      var r' := PublishSpec(plugin, previous, metrics, order, interval);
      if !r'.raised {
        forall x | x in order && Delta(previous, metrics, x) >= 0.0
          ensures exists j :: 0 <= j < |r'.sent| && r'.sent[j].metric == x
        {
          if x == k {
            assert r'.sent[|r'.sent| - 1].metric == x;
          } else {
            var j :| 0 <= j < |r.sent| && r.sent[j].metric == x;
            assert r'.sent[j] == r.sent[j];
          }
        }
      }
    }
  }

  /** Publishing in order dispatches each metric at most once. */
  lemma {:induction false} PublishSentOnce(plugin: string, previous: map<string, real>, metrics: map<string, real>,
                                           order: seq<string>, interval: real)
    requires forall k :: k in order ==> k in metrics
    requires Distinct(order)
    ensures var r := PublishSpec(plugin, previous, metrics, order, interval);
      !r.raised ==> forall i, j :: 0 <= i < j < |r.sent| ==> r.sent[i].metric != r.sent[j].metric
    decreases |order|
  {
    if |order| > 0 {
      var init := order[..|order| - 1];
      PublishLast(plugin, previous, metrics, order, interval);
      PublishSentOnce(plugin, previous, metrics, init, interval);
      PublishSentRates(plugin, previous, metrics, init, interval);
    }
  }

  /**
   * _publishLustreMetrics over all the metrics of a file, in any order,
   * raises ZeroDivisionError exactly when no time has passed since the
   * previous read and some metric did not decrease; otherwise every
   * previous value is overwritten by the current one.
   */
  lemma PublishPrevious(fsName: string, previous: map<string, real>, metrics: map<string, real>, order: seq<string>,
                        interval: real)
    requires KeyOrder(order, metrics)
    ensures var r := PublishSpec(PluginName(fsName), previous, metrics, order, interval);
      && (r.raised <==> interval == 0.0 && exists k :: k in metrics && Delta(previous, metrics, k) >= 0.0)
      && (!r.raised ==> r.previous == previous + metrics)
  {
    PublishPrefixPrevious(PluginName(fsName), previous, metrics, order, interval);
    var r := PublishSpec(PluginName(fsName), previous, metrics, order, interval);
    if !r.raised {
      assert r.previous.Keys == (previous + metrics).Keys;
    }
  }

  /**
   * When it does not raise, _publishLustreMetrics dispatches exactly the
   * metrics that did not decrease, once each, under plugin lustre_<fsname>
   * with their change divided by the interval.
   */
  lemma PublishSent(fsName: string, previous: map<string, real>, metrics: map<string, real>, order: seq<string>,
                    interval: real)
    requires KeyOrder(order, metrics)
    ensures var r := PublishSpec(PluginName(fsName), previous, metrics, order, interval);
      && (!r.raised ==> forall j :: 0 <= j < |r.sent| ==>
            && r.sent[j].plugin == PluginName(fsName)
            && r.sent[j].metric in metrics
            && Delta(previous, metrics, r.sent[j].metric) >= 0.0
            && interval != 0.0 && r.sent[j].value == Delta(previous, metrics, r.sent[j].metric) / interval)
      && (!r.raised ==> forall k :: k in metrics && Delta(previous, metrics, k) >= 0.0 ==>
            exists j :: 0 <= j < |r.sent| && r.sent[j].metric == k)
      && (!r.raised ==> forall i, j :: 0 <= i < j < |r.sent| ==> r.sent[i].metric != r.sent[j].metric)
  {
    PublishSentRates(PluginName(fsName), previous, metrics, order, interval);
    PublishSentAll(PluginName(fsName), previous, metrics, order, interval);
    PublishSentOnce(PluginName(fsName), previous, metrics, order, interval);
  }

  // File systems.

  /** One file system: the four consecutive fsInfo slots (path, name, enabled, previous values). */
  datatype FsEntry = FsEntry(path: string, name: string, enabled: bool, previous: map<string, real>)

  /**
   * The name _setupLustreFiles gives the file system at a path holding a
   * '/': the text between the last '/' and the last '-', empty when that
   * '-' comes first. None when the path has no '-': the code then calls
   * fsPath.len(), which raises AttributeError.
   */
  function FsName(path: string): (r: Option<string>)
    requires RFind(path, '/') >= 0
    ensures r.None? <==> '-' !in path
    ensures r.Some? ==> '/' !in r.value
    ensures r.Some? && RFind(path, '-') > RFind(path, '/') ==>
      path == path[..RFind(path, '/') + 1] + r.value + path[RFind(path, '-')..]
    ensures r.Some? && RFind(path, '-') < RFind(path, '/') ==> r.value == []
  {
    var slash := RFind(path, '/');
    var dash := RFind(path, '-');
    if dash == -1 then None
    else
      var name := Slice(path, slash + 1, dash);
      assert forall i :: 0 <= i < |name| ==> name[i] == path[slash + 1 + i];
      Some(name)
  }

  /** _setupLustreFiles passes over empty paths and paths without a '/'. */
  predicate Accepted(path: string) {
    path != [] && RFind(path, '/') >= 0
  }

  function AcceptedPaths(paths: seq<string>): (r: seq<string>)
    ensures forall p :: p in r ==> Accepted(p)
    ensures forall i :: 0 <= i < |r| ==> Accepted(r[i])
    decreases |paths|
  {
    if |paths| == 0 then []
    else
      var init := AcceptedPaths(paths[..|paths| - 1]);
      if Accepted(paths[|paths| - 1]) then init + [paths[|paths| - 1]] else init
  }

  /** One path of the loop of _setupLustreFiles: an accepted path without a '-' raises, otherwise adds its file system. */
  function SetupStep(r: (seq<FsEntry>, bool), p: string): (seq<FsEntry>, bool) {
    if r.1 || !Accepted(p) then r
    else
      match FsName(p)
      case None => (r.0, true)
      case Some(name) => (r.0 + [FsEntry(p, name, false, map[])], false)
  }

  /** The path loop of _setupLustreFiles: the new fsInfo, and whether it raised on the way. */
  function SetupEntries(paths: seq<string>): (r: (seq<FsEntry>, bool))
    decreases |paths|
  {
    if |paths| == 0 then ([], false)
    else SetupStep(SetupEntries(paths[..|paths| - 1]), paths[|paths| - 1])
  }

  /** One more path of the loop of _setupLustreFiles. */
  lemma SetupEntriesStep(paths: seq<string>, i: nat)
    requires i < |paths|
    ensures SetupEntries(paths[..i + 1]) == SetupStep(SetupEntries(paths[..i]), paths[i])
  {
    assert paths[..i + 1][..i] == paths[..i];
  }

  /**
   * The path loop raises exactly when an accepted path has no '-'; otherwise
   * each accepted path adds, in order, one file system (its four slots): the
   * path, its name, disabled, and no previous values.
   */
  lemma {:induction false} SetupEntriesSpec(paths: seq<string>)
    ensures SetupEntries(paths).1 <==> exists p :: p in AcceptedPaths(paths) && '-' !in p
    ensures !SetupEntries(paths).1 ==>
      && |SetupEntries(paths).0| == |AcceptedPaths(paths)|
      && forall i :: 0 <= i < |AcceptedPaths(paths)| ==>
           var p := AcceptedPaths(paths)[i];
           SetupEntries(paths).0[i] == FsEntry(p, FsName(p).value, false, map[])
    decreases |paths|
  {
    if |paths| > 0 {
      var init := paths[..|paths| - 1];
      var p := paths[|paths| - 1];
      SetupEntriesSpec(init);
      var a := AcceptedPaths(init);
      assert forall q :: q in AcceptedPaths(paths) <==> q in a || (Accepted(p) && q == p);
    }
  }

  /** What the plugin reads from outside: file contents by path, Python's float(), and the key order of a dict. */
  datatype Env = Env(
    stats: string -> Option<string>,
    extents: string -> Option<string>,
    toReal: string -> Option<real>,
    keyOrder: map<string, real> -> seq<string>)

  /** dict.keys() lists only keys of the dict. */
  ghost predicate EnvOk(env: Env) {
    forall m: map<string, real>, k :: k in env.keyOrder(m) ==> k in m
  }

  /** dict.keys() lists every key of the dict once. */
  ghost predicate KeyOrders(env: Env) {
    forall m: map<string, real> :: KeyOrder(env.keyOrder(m), m)
  }

  lemma KeyOrdersOk(env: Env)
    requires KeyOrders(env)
    ensures EnvOk(env)
  {
    forall m: map<string, real>, k | k in env.keyOrder(m)
      ensures k in m
    {
      assert KeyOrder(env.keyOrder(m), m);
    }
  }

  /** The globals _setPrevValues changes, and whether it raised. */
  datatype PrevState = PrevState(entries: seq<FsEntry>, enabled: bool, timePrev: real, raised: bool)

  /** What _setPrevValues does to one file system: its new entry, whether its stats file was readable, whether it raised. */
  datatype Seeded = Seeded(entry: FsEntry, readable: bool, raised: bool)

  /** One file system in _setPrevValues: a readable stats file enables it and seeds its previous values. */
  function SeedEntry(e: FsEntry, env: Env): Seeded {
    if e.path == [] then Seeded(e, false, false)
    else
      match env.stats(e.path + "/stats")
      case None => Seeded(e.(enabled := false), false, false)
      case Some(text) =>
        match ParseStats(text, env.toReal)
        case None => Seeded(e.(enabled := true), true, true)
        case Some(m) => Seeded(e.(enabled := true, previous := e.previous + m), true, false)
  }

  /** A line without the separator splits into itself, and followed by the separator into itself and "". */
  lemma {:induction false} SplitOnLine(body: string, sep: char)
    requires sep !in body
    ensures SplitOn(body, sep) == [body]
    ensures SplitOn(body + [sep], sep) == [body, []]
    decreases |body|
  {
    if |body| > 0 {
      SplitOnLine(body[1..], sep);
      assert body[0] != sep && [body[0]] + body[1..] == body;
      assert (body + [sep])[1..] == body[1..] + [sep];
    }
  }

  /**
   * The extents_stats part of _setPrevValues parses the one line that
   * readline returns: "" when "w+" has truncated a regular file, or the
   * first line of the proc file ("disabled" or the snapshot_time header).
   * Merging its parse into the previous values adds nothing whenever that
   * line, with or without its newline, is not a row of 11 words.
   */
  lemma SeedExtentsAddsNothing(previous: map<string, real>, body: string, terminated: bool, toReal: string -> Option<real>)
    requires '\n' !in body && |Words(body)| != 11
    ensures previous + ParseExtents(if terminated then body + "\n" else body, toReal) == previous
  {
    SplitOnLine(body, '\n');
    var lines := Lines(if terminated then body + "\n" else body);
    assert lines == NonEmpty([body]) by {
      if terminated {
        assert NonEmpty([body, []]) == NonEmpty([body]);
      }
    }
    if body == [] {
      assert lines == [];
    } else {
      assert lines == [body];
      assert ExtentsLines(lines, toReal) == ExtentsLine(map[], Words(body), toReal);
    }
  }

  /** The globals after one file system of _setPrevValues: a readable one sets enabled, one that parses sets time_prev. */
  function PrevStep(r: PrevState, e: FsEntry, env: Env, now: real): PrevState {
    var s := SeedEntry(e, env);
    PrevState(r.entries + [s.entry], r.enabled || s.readable, if s.readable && !s.raised then now else r.timePrev, s.raised)
  }

  /** _setPrevValues over the file systems; once it has raised, the rest are untouched. */
  function SetPrevValues(es: seq<FsEntry>, env: Env, enabled: bool, timePrev: real, now: real): (r: PrevState)
    ensures |r.entries| == |es|
    ensures forall i :: 0 <= i < |es| ==> r.entries[i].path == es[i].path && r.entries[i].name == es[i].name
    decreases |es|
  {
    if |es| == 0 then PrevState([], enabled, timePrev, false)
    else
      var r := SetPrevValues(es[..|es| - 1], env, enabled, timePrev, now);
      if r.raised then r.(entries := r.entries + [es[|es| - 1]])
      else PrevStep(r, es[|es| - 1], env, now)
  }

  /** The plugin's globals. */
  datatype LustreState = LustreState(
    fsInfo: seq<FsEntry>,
    enabled: bool,
    numReads: int,
    recheckLimit: int,
    timePrev: real,
    extentsStats: bool)

  /** _setupLustreFiles: the new globals and whether it raised. */
  function SetupSpec(s: LustreState, paths: seq<string>, env: Env, now: real): (LustreState, bool) {
    var (es, raised) := SetupEntries(paths);
    if raised then (s.(fsInfo := es), true)
    else if |es| == 0 then (s.(fsInfo := [], enabled := false), false)
    else
      var p := SetPrevValues(es, env, s.enabled, s.timePrev, now);
      (s.(fsInfo := p.entries, enabled := p.enabled, timePrev := p.timePrev), p.raised)
  }

  /** Whether fsInfo holds a file system at the path. */
  function Monitored(path: string, es: seq<FsEntry>): bool
    decreases |es|
  {
    if |es| == 0 then false else es[0].path == path || Monitored(path, es[1..])
  }

  /** _haveNewFS: the paths are scanned in order for one that fsInfo does not hold. */
  function HaveNewFS(paths: seq<string>, es: seq<FsEntry>): bool
    decreases |paths|
  {
    if |paths| == 0 then false
    else if !Monitored(paths[0], es) then true
    else HaveNewFS(paths[1..], es)
  }

  lemma {:induction false} MonitoredIff(path: string, es: seq<FsEntry>)
    ensures Monitored(path, es) <==> exists i :: 0 <= i < |es| && es[i].path == path
    decreases |es|
  {
    if |es| > 0 {
      MonitoredIff(path, es[1..]);
      if exists i :: 0 <= i < |es[1..]| && es[1..][i].path == path {
        var i :| 0 <= i < |es[1..]| && es[1..][i].path == path;
        assert es[i + 1].path == path;
      }
      if exists i :: 0 <= i < |es| && es[i].path == path {
        var i :| 0 <= i < |es| && es[i].path == path;
        if i > 0 {
          assert es[1..][i - 1].path == path;
        }
      }
    }
  }

  /** _haveNewFS is true exactly when some listed path is not the path of any file system in fsInfo. */
  lemma {:induction false} HaveNewFSIff(paths: seq<string>, es: seq<FsEntry>)
    ensures HaveNewFS(paths, es) <==> exists p :: p in paths && forall i :: 0 <= i < |es| ==> es[i].path != p
    decreases |paths|
  {
    if |paths| > 0 {
      MonitoredIff(paths[0], es);
      HaveNewFSIff(paths[1..], es);
      if exists p :: p in paths && forall i :: 0 <= i < |es| ==> es[i].path != p {
        var p :| p in paths && forall i :: 0 <= i < |es| ==> es[i].path != p;
        if p != paths[0] {
          assert p in paths[1..];
        }
      }
      if !Monitored(paths[0], es) {
        assert paths[0] in paths;
      } else if HaveNewFS(paths[1..], es) {
        var p :| p in paths[1..] && forall i :: 0 <= i < |es| ==> es[i].path != p;
        assert p in paths;
      }
    }
  }

  // One read.

  /** A file system after a read, what was dispatched for it, and whether it raised. */
  datatype EntryRead = EntryRead(entry: FsEntry, sent: seq<Dispatch>, raised: bool)

  /** The previous values a file's metrics are published against, and the result. */
  function PublishInto(e: FsEntry, metrics: map<string, real>, env: Env, interval: real): EntryRead
    requires EnvOk(env)
  {
    var p := PublishSpec(PluginName(e.name), e.previous, metrics, env.keyOrder(metrics), interval);
    EntryRead(e.(previous := p.previous), p.sent, p.raised)
  }

  /**
   * The body of the file-system loop of lustre_plugin_read: the stats file
   * is parsed and published (a parse error raises), then, when
   * extents_stats is on, the extents_stats file.
   */
  function ReadEntry(e: FsEntry, extentsStats: bool, env: Env, interval: real): (r: EntryRead)
    requires EnvOk(env)
    ensures r.entry == e.(previous := r.entry.previous)
    ensures !e.enabled || e.path == [] ==> r == EntryRead(e, [], false)
  {
    if !e.enabled || e.path == [] then EntryRead(e, [], false)
    else
      var r1 :=
        match env.stats(e.path + "/stats")
        case None => EntryRead(e, [], false)
        case Some(text) =>
          match ParseStats(text, env.toReal)
          case None => EntryRead(e, [], true)
          case Some(m) => PublishInto(e, m, env, interval);
      if r1.raised || !extentsStats then r1
      else
        match env.extents(e.path + "/extents_stats")
        case None => r1
        case Some(text) =>
          var r2 := PublishInto(r1.entry, ParseExtents(text, env.toReal), env, interval);
          EntryRead(r2.entry, r1.sent + r2.sent, r2.raised)
  }

  /** The metrics a readable file contributes to the previous values; none when it cannot be read. */
  function StatsOf(e: FsEntry, env: Env): map<string, real> {
    match env.stats(e.path + "/stats")
    case None => map[]
    case Some(text) => match ParseStats(text, env.toReal) case None => map[] case Some(m) => m
  }

  function ExtentsOf(e: FsEntry, extentsStats: bool, env: Env): map<string, real> {
    if !extentsStats then map[]
    else match env.extents(e.path + "/extents_stats") case None => map[] case Some(text) => ParseExtents(text, env.toReal)
  }

  /**
   * A read that does not raise leaves an enabled file system with its
   * previous values overwritten by everything read from its stats file and
   * then its extents_stats file.
   */
  lemma ReadEntryPrevious(e: FsEntry, extentsStats: bool, env: Env, interval: real)
    requires KeyOrders(env)
    ensures EnvOk(env)
    ensures var r := ReadEntry(e, extentsStats, env, interval);
      e.enabled && e.path != [] && !r.raised ==>
        r.entry.previous == e.previous + StatsOf(e, env) + ExtentsOf(e, extentsStats, env)
  {
    hide ParseStats, ParseExtents, PublishInto;
    KeyOrdersOk(env);
    if e.enabled && e.path != [] {
      var r1 :=
        match env.stats(e.path + "/stats")
        case None => EntryRead(e, [], false)
        case Some(text) =>
          match ParseStats(text, env.toReal)
          case None => EntryRead(e, [], true)
          case Some(m) => PublishInto(e, m, env, interval);
      PublishIntoPrevious(e, StatsOf(e, env), env, interval);
      if !r1.raised && extentsStats {
        PublishIntoPrevious(r1.entry, ExtentsOf(e, extentsStats, env), env, interval);
      }
    }
  }

  /** Publishing without a raise overwrites the previous values with the metrics published. */
  lemma PublishIntoPrevious(e: FsEntry, metrics: map<string, real>, env: Env, interval: real)
    requires KeyOrders(env)
    ensures EnvOk(env)
    ensures var r := PublishInto(e, metrics, env, interval);
            r.entry == e.(previous := r.entry.previous) &&
            (!r.raised ==> r.entry.previous == e.previous + metrics)
  {
    KeyOrdersOk(env);
    assert KeyOrder(env.keyOrder(metrics), metrics);
    PublishPrevious(e.name, e.previous, metrics, env.keyOrder(metrics), interval);
  }

  /** The file systems after the loop, everything dispatched, and whether it raised. */
  datatype EntriesRead = EntriesRead(entries: seq<FsEntry>, sent: seq<Dispatch>, raised: bool)

  /** The file-system loop of lustre_plugin_read; once it has raised, the rest are untouched. */
  function ReadEntries(es: seq<FsEntry>, extentsStats: bool, env: Env, interval: real): (r: EntriesRead)
    requires EnvOk(env)
    ensures |r.entries| == |es|
    ensures forall i :: 0 <= i < |es| ==> r.entries[i] == es[i].(previous := r.entries[i].previous)
    decreases |es|
  {
    if |es| == 0 then EntriesRead([], [], false)
    else
      var r := ReadEntries(es[..|es| - 1], extentsStats, env, interval);
      var e := es[|es| - 1];
      if r.raised then EntriesRead(r.entries + [e], r.sent, true)
      else
        var x := ReadEntry(e, extentsStats, env, interval);
        EntriesRead(r.entries + [x.entry], r.sent + x.sent, x.raised)
  }

  /** Once the loop has raised at file system k, the later ones are kept as they were. */
  lemma ReadEntriesRest(es: seq<FsEntry>, extentsStats: bool, env: Env, interval: real, k: nat)
    requires EnvOk(env)
    requires k <= |es|
    requires k == |es| || ReadEntries(es[..k], extentsStats, env, interval).raised
    ensures var r := ReadEntries(es[..k], extentsStats, env, interval);
            ReadEntries(es, extentsStats, env, interval) == EntriesRead(r.entries + es[k..], r.sent, r.raised)
  {
    hide ReadEntry, ReadEntries;
    var r := ReadEntries(es[..k], extentsStats, env, interval);
    var j := k;
    assert es[k..j] == [];
    while j < |es|
      invariant k <= j <= |es|
      invariant ReadEntries(es[..j], extentsStats, env, interval) == EntriesRead(r.entries + es[k..j], r.sent, r.raised)
    {
      ReadEntriesStep(es, extentsStats, env, interval, j);
      assert es[k..j + 1] == es[k..j] + [es[j]];
      j := j + 1;
    }
    assert es[..j] == es;
  }


  /** What a read dispatched, the new globals, and whether it raised. */
  datatype LustreRead = LustreRead(state: LustreState, sent: seq<Dispatch>, raised: bool)

  /**
   * lustre_plugin_read with the recheck counter corrected: num_reads is
   * reset whenever it reaches recheck_limit, also when the recheck found a
   * new file system and set the plugin up again.
   */
  function ReadSpec(s: LustreState, paths: seq<string>, env: Env, now: real): LustreRead
    requires EnvOk(env)
  {
    var n := NextCount(s.numReads, s.recheckLimit);
    if s.numReads + 1 == s.recheckLimit && HaveNewFS(paths, s.fsInfo) then
      var (st, raised) := SetupSpec(s.(numReads := n), paths, env, now);
      LustreRead(st, [], raised)
    else
      var s1 := s.(numReads := n);
      if !s1.enabled then LustreRead(s1, [], false)
      else
        var r := ReadEntries(s1.fsInfo, s1.extentsStats, env, now - s1.timePrev);
        if r.raised then LustreRead(s1.(fsInfo := r.entries), r.sent, true)
        else LustreRead(s1.(fsInfo := r.entries, timePrev := now), r.sent, false)
  }

  /**
   * A read moves num_reads on as NextCount says. A recheck that finds a new
   * file system sets the plugin up again and dispatches nothing. Any other
   * read keeps every file system's path, name and enabled flag, and, unless
   * it raised, moves time_prev to now.
   */
  lemma ReadBookkeeping(s: LustreState, paths: seq<string>, env: Env, now: real)
    requires EnvOk(env)
    ensures var r := ReadSpec(s, paths, env, now);
      && r.state.numReads == NextCount(s.numReads, s.recheckLimit)
      && r.state.recheckLimit == s.recheckLimit && r.state.extentsStats == s.extentsStats
      && (s.numReads + 1 == s.recheckLimit && HaveNewFS(paths, s.fsInfo) ==> r.sent == [])
      && (!(s.numReads + 1 == s.recheckLimit && HaveNewFS(paths, s.fsInfo)) ==>
            && |r.state.fsInfo| == |s.fsInfo|
            && (forall i :: 0 <= i < |s.fsInfo| ==> r.state.fsInfo[i] == s.fsInfo[i].(previous := r.state.fsInfo[i].previous))
            && r.state.enabled == s.enabled
            && (s.enabled && !r.raised ==> r.state.timePrev == now)
            && (r.raised ==> r.state.timePrev == s.timePrev))
  {
  }

  // num_reads as written.

  /**
   * num_reads after a read as written: a recheck that finds a new file
   * system returns before the reset, so num_reads stays at recheck_limit.
   */
  function NextCountAsWritten(numReads: int, limit: int, newFs: bool): (n: int)
    ensures n == 0 || n == numReads + 1
  {
    if numReads + 1 == limit && !newFs then 0 else numReads + 1
  }

  /** num_reads as written after reads whose rechecks would find a new file system as newFs says. */
  function CountAfterAsWritten(limit: int, start: int, newFs: seq<bool>): int
    decreases |newFs|
  {
    if |newFs| == 0 then start
    else NextCountAsWritten(CountAfterAsWritten(limit, start, newFs[..|newFs| - 1]), limit, newFs[|newFs| - 1])
  }

  /**
   * As written, once a recheck has found a new file system, num_reads has
   * passed recheck_limit and only grows: no later read rechecks again.
   */
  lemma {:induction false} RechecksStopAsWritten(limit: int, newFs: seq<bool>)
    ensures CountAfterAsWritten(limit, limit, newFs) == limit + |newFs|
    ensures forall k :: 0 <= k < |newFs| ==> CountAfterAsWritten(limit, limit, newFs[..k]) + 1 != limit
    decreases |newFs|
  {
    if |newFs| > 0 {
      var init := newFs[..|newFs| - 1];
      RechecksStopAsWritten(limit, init);
      forall k | 0 <= k < |newFs|
        ensures CountAfterAsWritten(limit, limit, newFs[..k]) + 1 != limit
      {
        if k < |init| {
          assert newFs[..k] == init[..k];
        } else {
          assert newFs[..k] == init;
        }
      }
    }
  }

  /**
   * With recheck_limit 2, a second read that finds a new file system leaves
   * num_reads at 2 as written, and the rechecks stop; corrected, it is back
   * at 0 and the next recheck comes two reads later.
   */
  lemma RecheckStuck()
    ensures CountAfterAsWritten(2, 0, [false, true]) == 2
    ensures NextCount(NextCount(0, 2), 2) == 0
  {
    assert [false, true][..1] == [false];
  }

  // Loops that stop at an exception.

  /** Once publishing has raised at metric k, the later metrics are not visited. */
  lemma {:induction false} PublishRest(plugin: string, previous: map<string, real>, metrics: map<string, real>,
                                       order: seq<string>, interval: real, k: nat)
    requires forall x :: x in order ==> x in metrics
    requires k <= |order|
    requires k == |order| || PublishSpec(plugin, previous, metrics, order[..k], interval).raised
    ensures PublishSpec(plugin, previous, metrics, order, interval) == PublishSpec(plugin, previous, metrics, order[..k], interval)
    decreases |order|
  {
    if k < |order| {
      var init := order[..|order| - 1];
      assert init[..k] == order[..k];
      PublishRest(plugin, previous, metrics, init, interval, k);
    } else {
      assert order[..k] == order;
    }
  }

  /** Once the path loop of _setupLustreFiles has raised at path k, the later paths are not visited. */
  lemma {:induction false} SetupEntriesRest(paths: seq<string>, k: nat)
    requires k <= |paths|
    requires k == |paths| || SetupEntries(paths[..k]).1
    ensures SetupEntries(paths) == SetupEntries(paths[..k])
    decreases |paths|
  {
    if k < |paths| {
      var init := paths[..|paths| - 1];
      assert init[..k] == paths[..k];
      SetupEntriesRest(init, k);
    } else {
      assert paths[..k] == paths;
    }
  }

  /** Once _setPrevValues has raised at file system k, the later ones are kept as they were. */
  /** One more file system of _setPrevValues. */
  lemma SetPrevValuesStep(es: seq<FsEntry>, env: Env, enabled: bool, timePrev: real, now: real, i: nat)
    requires i < |es|
    ensures var r := SetPrevValues(es[..i], env, enabled, timePrev, now);
            SetPrevValues(es[..i + 1], env, enabled, timePrev, now) ==
              if r.raised then r.(entries := r.entries + [es[i]]) else PrevStep(r, es[i], env, now)
  {
    assert es[..i + 1][..i] == es[..i];
  }

  /** One more file system of the loop of lustre_plugin_read. */
  lemma ReadEntriesStep(es: seq<FsEntry>, extentsStats: bool, env: Env, interval: real, i: nat)
    requires EnvOk(env)
    requires i < |es|
    ensures var r := ReadEntries(es[..i], extentsStats, env, interval);
            var x := ReadEntry(es[i], extentsStats, env, interval);
            ReadEntries(es[..i + 1], extentsStats, env, interval) ==
              if r.raised then EntriesRead(r.entries + [es[i]], r.sent, true)
              else EntriesRead(r.entries + [x.entry], r.sent + x.sent, x.raised)
  {
    assert es[..i + 1][..i] == es[..i];
  }

  /** Replacing the element just after a prefix. */
  lemma ReplaceAfter(done: seq<FsEntry>, rest: seq<FsEntry>, x: FsEntry)
    requires |rest| > 0
    ensures (done + rest)[|done| := x] == done + [x] + rest[1..]
  {
    assert (done + rest)[|done| := x] == done + [x] + rest[1..];
  }

  lemma SetPrevValuesRest(es: seq<FsEntry>, env: Env, enabled: bool, timePrev: real, now: real, k: nat)
    requires k <= |es|
    requires k == |es| || SetPrevValues(es[..k], env, enabled, timePrev, now).raised
    ensures var r := SetPrevValues(es[..k], env, enabled, timePrev, now);
            SetPrevValues(es, env, enabled, timePrev, now) == r.(entries := r.entries + es[k..])
  {
    hide SeedEntry, SetPrevValues;
    var r := SetPrevValues(es[..k], env, enabled, timePrev, now);
    var j := k;
    assert es[k..j] == [];
    while j < |es|
      invariant k <= j <= |es|
      invariant SetPrevValues(es[..j], env, enabled, timePrev, now) == r.(entries := r.entries + es[k..j])
    {
      SetPrevValuesStep(es, env, enabled, timePrev, now, j);
      assert es[k..j + 1] == es[k..j] + [es[j]];
      j := j + 1;
    }
    assert es[..j] == es;
  }


  /** The plugin's globals; one object per plugin instance. */
  class LustrePlugin {
    var fsInfo: seq<FsEntry>
    var enabled: bool
    var numReads: int
    var recheckLimit: int
    var timePrev: real
    var extentsStats: bool

    function Current(): LustreState
      reads this
    {
      LustreState(fsInfo, enabled, numReads, recheckLimit, timePrev, extentsStats)
    }

    /** The globals at load time, with recheck_limit and extents_stats from the configuration. */
    constructor(recheckLimit: int, extentsStats: bool)
      ensures Current() == LustreState([], false, 0, recheckLimit, 0.0, extentsStats)
    {
      fsInfo := [];
      enabled := false;
      numReads := 0;
      this.recheckLimit := recheckLimit;
      timePrev := 0.0;
      this.extentsStats := extentsStats;
    }

    /** _setupLustreFiles, which lustre_plugin_initialize calls; paths is what _getLustreFileSystemPaths returns. */
    method Setup(paths: seq<string>, env: Env, now: real) returns (raised: bool)
      modifies this
      ensures (Current(), raised) == SetupSpec(old(Current()), paths, env, now)
    {
      raised := ScanPaths(paths);
      if raised {
        return;
      }
      if |fsInfo| == 0 {
        enabled := false;
        return;
      }
      raised := SeedPrevious(env, now);
    }

    /** The path loop of _setupLustreFiles, which rebuilds fsInfo. */
    method ScanPaths(paths: seq<string>) returns (raised: bool)
      modifies this
      ensures (fsInfo, raised) == SetupEntries(paths)
      ensures enabled == old(enabled) && numReads == old(numReads) && recheckLimit == old(recheckLimit)
      ensures timePrev == old(timePrev) && extentsStats == old(extentsStats)
    {
      fsInfo := [];
      raised := false;
      var i := 0;
      assert SetupEntries(paths[..0]) == ([], false);
      hide SetupEntries;
      while i < |paths| && !raised
        invariant 0 <= i <= |paths|
        invariant (fsInfo, raised) == SetupEntries(paths[..i])
        invariant enabled == old(enabled) && numReads == old(numReads) && recheckLimit == old(recheckLimit)
        invariant timePrev == old(timePrev) && extentsStats == old(extentsStats)
      {
        SetupEntriesStep(paths, i);
        var p := paths[i];
        if p != [] {
          var slash := RFind(p, '/');
          if slash != -1 {
            var dash := RFind(p, '-');
            if dash == -1 {
              raised := true;
            } else {
              fsInfo := fsInfo + [FsEntry(p, Slice(p, slash + 1, dash), false, map[])];
            }
          }
        }
        i := i + 1;
      }
      SetupEntriesRest(paths, i);
    }

    /** _setPrevValues; the extents_stats write-enable is left out. */
    method SeedPrevious(env: Env, now: real) returns (raised: bool)
      modifies this
      ensures var p := SetPrevValues(old(fsInfo), env, old(enabled), old(timePrev), now);
              fsInfo == p.entries && enabled == p.enabled && timePrev == p.timePrev && raised == p.raised
      ensures numReads == old(numReads) && recheckLimit == old(recheckLimit) && extentsStats == old(extentsStats)
    {
      ghost var start := fsInfo;
      ghost var enabled0, timePrev0 := enabled, timePrev;
      raised := false;
      var i := 0;
      assert SetPrevValues(start[..0], env, enabled0, timePrev0, now) == PrevState([], enabled0, timePrev0, false);
      hide SeedEntry, SetPrevValues;
      while i < |fsInfo| && !raised
        invariant 0 <= i <= |start| == |fsInfo|
        invariant var p := SetPrevValues(start[..i], env, enabled0, timePrev0, now);
                  fsInfo == p.entries + start[i..] && enabled == p.enabled && timePrev == p.timePrev && raised == p.raised
        invariant numReads == old(numReads) && recheckLimit == old(recheckLimit) && extentsStats == old(extentsStats)
      {
        ghost var p := SetPrevValues(start[..i], env, enabled0, timePrev0, now);
        SetPrevValuesStep(start, env, enabled0, timePrev0, now, i);
        ReplaceAfter(p.entries, start[i..], SeedEntry(start[i], env).entry);
        assert start[i..][1..] == start[i + 1..];
        raised := SeedOne(i, env, now);
        i := i + 1;
      }
      SetPrevValuesRest(start, env, enabled0, timePrev0, now, i);
      assert start[i..] == [] || raised;
    }

    /** One iteration of the loop of _setPrevValues. */
    method SeedOne(i: nat, env: Env, now: real) returns (raised: bool)
      requires i < |fsInfo|
      modifies this
      ensures var s := SeedEntry(old(fsInfo)[i], env);
              && fsInfo == old(fsInfo)[i := s.entry] && raised == s.raised
              && enabled == (old(enabled) || s.readable)
              && timePrev == if s.readable && !s.raised then now else old(timePrev)
      ensures numReads == old(numReads) && recheckLimit == old(recheckLimit) && extentsStats == old(extentsStats)
    {
      hide ParseStats;
      raised := false;
      var e := fsInfo[i];
      if e.path != [] {
        var text := env.stats(e.path + "/stats");
        if text.None? {
          fsInfo := fsInfo[i := e.(enabled := false)];
        } else {
          enabled := true;
          fsInfo := fsInfo[i := e.(enabled := true)];
          var m := ParseStats(text.value, env.toReal);
          if m.None? {
            raised := true;
          } else {
            fsInfo := fsInfo[i := e.(enabled := true, previous := e.previous + m.value)];
            timePrev := now;
          }
        }
      }
    }

    /** _publishLustreMetrics for the file system at idx, visiting the metrics in the given order. */
    method Publish(idx: nat, metrics: map<string, real>, order: seq<string>, timestamp: real, ghost interval: real)
      returns (sent: seq<Dispatch>, raised: bool)
      requires idx < |fsInfo|
      requires forall k :: k in order ==> k in metrics
      requires interval == timestamp - timePrev
      modifies this
      ensures var p := PublishSpec(PluginName(old(fsInfo)[idx].name), old(fsInfo)[idx].previous, metrics, order, interval);
        && fsInfo == old(fsInfo)[idx := old(fsInfo)[idx].(previous := p.previous)]
        && sent == p.sent && raised == p.raised
      ensures enabled == old(enabled) && numReads == old(numReads) && recheckLimit == old(recheckLimit)
      ensures timePrev == old(timePrev) && extentsStats == old(extentsStats)
    {
      var fsName := "<" + fsInfo[idx].name + ">";
      var plugin := "lustre_" + fsName;
      assert plugin == PluginName(fsInfo[idx].name);
      ghost var e := fsInfo[idx];
      var dt := timestamp - timePrev;
      sent, raised := [], false;
      var i := 0;
      while i < |order| && !raised
        invariant 0 <= i <= |order|
        invariant var p := PublishSpec(plugin, e.previous, metrics, order[..i], interval);
                  fsInfo == old(fsInfo)[idx := e.(previous := p.previous)] && sent == p.sent && raised == p.raised
        invariant enabled == old(enabled) && numReads == old(numReads) && recheckLimit == old(recheckLimit)
        invariant timePrev == old(timePrev) && extentsStats == old(extentsStats)
      {
        assert order[..i + 1][..i] == order[..i];
        var metric := order[i];
        var previous := fsInfo[idx].previous;
        var currValue;
        if metric in previous {
          currValue := metrics[metric] - previous[metric];
        } else {
          currValue := metrics[metric];
        }
        fsInfo := fsInfo[idx := fsInfo[idx].(previous := previous[metric := metrics[metric]])];
        if currValue >= 0.0 {
          if dt == 0.0 {
            raised := true;
          } else {
            sent := sent + [Dispatch(plugin, metric, currValue / dt)];
          }
        }
        i := i + 1;
      }
      PublishRest(plugin, e.previous, metrics, order, interval, i);
    }

    /** lustre_plugin_read, with num_reads reset after every recheck; paths is what _getLustreFileSystemPaths returns. */
    method Read(paths: seq<string>, env: Env, now: real) returns (sent: seq<Dispatch>, raised: bool)
      requires EnvOk(env)
      modifies this
      ensures LustreRead(Current(), sent, raised) == ReadSpec(old(Current()), paths, env, now)
    {
      hide SetupSpec, ReadEntries;
      numReads := numReads + 1;
      if numReads == recheckLimit {
        if HaveNewFS(paths, fsInfo) {
          numReads := 0;
          raised := Setup(paths, env, now);
          return [], raised;
        }
        numReads := 0;
      }
      if !enabled {
        return [], false;
      }
      var timestamp := now;
      sent, raised := ReadAll(env, timestamp, timestamp - timePrev);
      if raised {
        return;
      }
      timePrev := timestamp;
    }

    /** The file-system loop of lustre_plugin_read, at the given time. */
    method ReadAll(env: Env, timestamp: real, ghost interval: real) returns (sent: seq<Dispatch>, raised: bool)
      requires EnvOk(env)
      requires interval == timestamp - timePrev
      modifies this
      ensures var r := ReadEntries(old(fsInfo), extentsStats, env, interval);
              fsInfo == r.entries && sent == r.sent && raised == r.raised
      ensures enabled == old(enabled) && numReads == old(numReads) && recheckLimit == old(recheckLimit)
      ensures timePrev == old(timePrev) && extentsStats == old(extentsStats)
    {
      ghost var start := fsInfo;
      sent, raised := [], false;
      var i := 0;
      assert ReadEntries(start[..0], extentsStats, env, interval) == EntriesRead([], [], false);
      hide ReadEntry, ReadEntries, EnvOk;
      while i < |fsInfo| && !raised
        invariant 0 <= i <= |start| == |fsInfo|
        invariant var r := ReadEntries(start[..i], extentsStats, env, interval);
                  fsInfo == r.entries + start[i..] && sent == r.sent && raised == r.raised
        invariant enabled == old(enabled) && numReads == old(numReads) && recheckLimit == old(recheckLimit)
        invariant timePrev == old(timePrev) && extentsStats == old(extentsStats)
      {
        ghost var r := ReadEntries(start[..i], extentsStats, env, interval);
        ReadEntriesStep(start, extentsStats, env, interval, i);
        ReplaceAfter(r.entries, start[i..], ReadEntry(start[i], extentsStats, env, interval).entry);
        assert start[i..][1..] == start[i + 1..];
        var here;
        here, raised := ReadOne(i, env, timestamp, interval);
        sent := sent + here;
        i := i + 1;
      }
      ReadEntriesRest(start, extentsStats, env, interval, i);
      assert ReadEntries(start, extentsStats, env, interval) == EntriesRead(fsInfo, sent, raised);
    }

    /** The body of the file-system loop of lustre_plugin_read, for the file system at i. */
    method ReadOne(i: nat, env: Env, timestamp: real, ghost interval: real) returns (here: seq<Dispatch>, raised: bool)
      requires EnvOk(env)
      requires i < |fsInfo|
      requires interval == timestamp - timePrev
      modifies this
      ensures var x := ReadEntry(old(fsInfo)[i], extentsStats, env, interval);
              fsInfo == old(fsInfo)[i := x.entry] && here == x.sent && raised == x.raised
      ensures enabled == old(enabled) && numReads == old(numReads) && recheckLimit == old(recheckLimit)
      ensures timePrev == old(timePrev) && extentsStats == old(extentsStats)
    {
      hide ParseStats, ParseExtents;
      var e := fsInfo[i];
      here, raised := [], false;
      if e.enabled && e.path != [] {
        var text := env.stats(e.path + "/stats");
        if text.Some? {
          var m := ParseStats(text.value, env.toReal);
          if m.None? {
            raised := true;
          } else {
            here, raised := Publish(i, m.value, env.keyOrder(m.value), timestamp, interval);
          }
        }
        if !raised && extentsStats {
          var text2 := env.extents(e.path + "/extents_stats");
          if text2.Some? {
            var x := ParseExtents(text2.value, env.toReal);
            var more;
            more, raised := Publish(i, x, env.keyOrder(x), timestamp, interval);
            here := here + more;
          }
        }
      }
    }

    /** lustre_plugin_notify with the message "check" at severity okay. */
    method NotifyCheck(paths: seq<string>, env: Env, now: real) returns (raised: bool)
      modifies this
      ensures !HaveNewFS(paths, old(fsInfo)) ==> Current() == old(Current()).(numReads := 0) && !raised
      ensures HaveNewFS(paths, old(fsInfo)) ==>
        var r := SetupSpec(old(Current()), paths, env, now);
        raised == r.1 && Current() == if r.1 then r.0 else r.0.(numReads := 0)
    {
      raised := false;
      if HaveNewFS(paths, fsInfo) {
        raised := Setup(paths, env, now);
        if raised {
          return;
        }
      }
      numReads := 0;
    }
  }
}
