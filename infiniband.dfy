/**
 * The InfiniBand bandwidth plugin (python/ib_bw.py). Every read sums the
 * receive and transmit data counters of all known ports (each counts
 * 4-byte words), notices 32-bit saturated counters, and turns the change
 * of the two totals since the previous read into one bandwidth value.
 *
 * The counter files, the device discovery (find/ls), the perfquery reset,
 * the clock and collectd's dispatch are outside the model: a read takes the
 * discovered port paths, the counter files' contents per port and the
 * timestamp as inputs, and returns the bandwidth it would dispatch.
 */
module InfiniBand {
  import opened Util
  import opened RecheckCounter

  /** A 32-bit port counter that has stopped counting reads as this value. */
  const CounterMax: real := 4294967295.0

  /** sys.maxsize on a 64-bit Python: the initial baselines. */
  const MaxSize: int := 0x7FFF_FFFF_FFFF_FFFF

  /** The contents of a port's two counter files; None where the file cannot be read (IOError). */
  datatype PortReading = PortReading(rcv: Option<real>, xmit: Option<real>)

  /** _read_counter: the counter, or the sentinel -1 when the file cannot be read. */
  function ReadCounter(file: Option<real>): real {
    match file
    case Some(c) => c
    case None => -1.0
  }

  /** The local accumulators of a read: recv, send and overflow. */
  datatype Totals = Totals(recv: real, send: real, overflow: bool)

  const Zero := Totals(0.0, 0.0, false)

  /** One iteration of the port loop. */
  function PortStep(t: Totals, p: PortReading): Totals {
    var c := ReadCounter(p.rcv);
    if c == -1.0 then t
    else
      var t1 := if c == CounterMax then t.(overflow := true) else t.(recv := t.recv + c * 4.0);
      match p.xmit
      case None => t1
      case Some(x) => t1.(overflow := t1.overflow || x == CounterMax, send := t1.send + x * 4.0)
  }

  /** The port loop run over ports from the accumulators t. */
  function AccumulateFrom(t: Totals, reading: string -> PortReading, ports: seq<string>): Totals
    decreases |ports|
  {
    if |ports| == 0 then t
    else PortStep(AccumulateFrom(t, reading, ports[..|ports| - 1]), reading(ports[|ports| - 1]))
  }

  function Accumulate(reading: string -> PortReading, ports: seq<string>): Totals {
    AccumulateFrom(Zero, reading, ports)
  }

  // What each port contributes, stated port by port.

  /** The receive counter could not be read (or read -1): the port is passed over. */
  predicate Skipped(p: PortReading) {
    ReadCounter(p.rcv) == -1.0
  }

  function RecvOf(p: PortReading): real {
    if Skipped(p) || ReadCounter(p.rcv) == CounterMax then 0.0 else 4.0 * ReadCounter(p.rcv)
  }

  function SendOf(p: PortReading): real {
    if Skipped(p) || p.xmit.None? then 0.0 else 4.0 * p.xmit.value
  }

  predicate Overflows(p: PortReading) {
    !Skipped(p) && (ReadCounter(p.rcv) == CounterMax || p.xmit == Some(CounterMax))
  }

  function RecvSum(reading: string -> PortReading, ports: seq<string>): real
    decreases |ports|
  {
    if |ports| == 0 then 0.0 else RecvSum(reading, ports[..|ports| - 1]) + RecvOf(reading(ports[|ports| - 1]))
  }

  function SendSum(reading: string -> PortReading, ports: seq<string>): real
    decreases |ports|
  {
    if |ports| == 0 then 0.0 else SendSum(reading, ports[..|ports| - 1]) + SendOf(reading(ports[|ports| - 1]))
  }

  predicate AnyOverflow(reading: string -> PortReading, ports: seq<string>) {
    exists i :: 0 <= i < |ports| && Overflows(reading(ports[i]))
  }

  /**
   * The port loop adds four times every readable receive counter that has not
   * saturated and four times every readable transmit counter (saturated or
   * not), and overflows exactly when some readable port shows a saturated
   * counter.
   */
  lemma {:induction false} AccumulateFromIsSums(t: Totals, reading: string -> PortReading, ports: seq<string>)
    ensures AccumulateFrom(t, reading, ports)
         == Totals(t.recv + RecvSum(reading, ports), t.send + SendSum(reading, ports), t.overflow || AnyOverflow(reading, ports))
    decreases |ports|
  {
    if |ports| > 0 {
      var init := ports[..|ports| - 1];
      var last := ports[|ports| - 1];
      AccumulateFromIsSums(t, reading, init);
      if AnyOverflow(reading, init) {
        var i :| 0 <= i < |init| && Overflows(reading(init[i]));
        assert ports[i] == init[i];
      }
      if AnyOverflow(reading, ports) {
        var i :| 0 <= i < |ports| && Overflows(reading(ports[i]));
        if i < |init| {
          assert ports[i] == init[i];
        }
      }
      if Overflows(reading(last)) {
        assert ports[|ports| - 1] == last;
      }
    }
  }

  lemma AccumulateIsSums(reading: string -> PortReading, ports: seq<string>)
    ensures Accumulate(reading, ports) == Totals(RecvSum(reading, ports), SendSum(reading, ports), AnyOverflow(reading, ports))
  {
    AccumulateFromIsSums(Zero, reading, ports);
  }

  /** The ports whose receive counter can be read. */
  function Readable(reading: string -> PortReading, ports: seq<string>): (r: seq<string>)
    ensures forall q :: q in r ==> q in ports && !Skipped(reading(q))
    decreases |ports|
  {
    if |ports| == 0 then []
    else
      var init := Readable(reading, ports[..|ports| - 1]);
      if Skipped(reading(ports[|ports| - 1])) then init else init + [ports[|ports| - 1]]
  }

  /** A port whose receive counter cannot be read contributes to neither total nor to the overflow flag. */
  lemma {:induction false} SkippedPortsIgnored(reading: string -> PortReading, ports: seq<string>)
    ensures Accumulate(reading, ports) == Accumulate(reading, Readable(reading, ports))
    decreases |ports|
  {
    if |ports| > 0 {
      var init := ports[..|ports| - 1];
      var last := ports[|ports| - 1];
      SkippedPortsIgnored(reading, init);
      if !Skipped(reading(last)) {
        var r := Readable(reading, init) + [last];
        assert r[..|r| - 1] == Readable(reading, init);
      }
    }
  }

  /** Running the loop over a + b is running it over a, then over b. */
  lemma {:induction false} AccumulateConcat(t: Totals, reading: string -> PortReading, a: seq<string>, b: seq<string>)
    ensures AccumulateFrom(t, reading, a + b) == AccumulateFrom(AccumulateFrom(t, reading, a), reading, b)
    decreases |b|
  {
    if |b| > 0 {
      assert (a + b)[..|a + b| - 1] == a + b[..|b| - 1];
      assert (a + b)[|a + b| - 1] == b[|b| - 1];
      AccumulateConcat(t, reading, a, b[..|b| - 1]);
    } else {
      assert a + b == a;
    }
  }

  /** Listing every port twice doubles both totals. */
  lemma AccumulateTwice(reading: string -> PortReading, ports: seq<string>)
    ensures var t := Accumulate(reading, ports);
            Accumulate(reading, ports + ports) == Totals(2.0 * t.recv, 2.0 * t.send, t.overflow)
  {
    AccumulateConcat(Zero, reading, ports, ports);
    AccumulateFromIsSums(Accumulate(reading, ports), reading, ports);
    AccumulateIsSums(reading, ports);
  }

  // Port discovery.

  /**
   * _setupIBfiles as written: the ports it finds are appended to ibPortList,
   * which is never cleared.
   */
  function RediscoverAsWritten(ports: seq<string>, found: seq<string>): (r: seq<string>)
    ensures |r| == |ports| + |found|
  {
    ports + found
  }

  /** Port discovery as evidently intended: the list holds the ports found by the latest discovery. */
  function Rediscover(ports: seq<string>, found: seq<string>): (r: seq<string>)
    ensures forall q :: q in r <==> q in found
  {
    found
  }

  /** Rediscovering an unchanged system keeps the port list, hence every later total. */
  lemma RediscoverIsStable(reading: string -> PortReading, ports: seq<string>)
    ensures Accumulate(reading, Rediscover(ports, ports)) == Accumulate(reading, ports)
  {
  }

  /** Rediscovering an unchanged system as written doubles the totals. */
  lemma RediscoverAsWrittenDoubles(reading: string -> PortReading, ports: seq<string>)
    ensures var t := Accumulate(reading, ports);
            Accumulate(reading, RediscoverAsWritten(ports, ports)) == Totals(2.0 * t.recv, 2.0 * t.send, t.overflow)
  {
    AccumulateTwice(reading, ports);
  }

  // The plugin's globals and one read.

  datatype IbState = IbState(
    ports: seq<string>,
    enabled: bool,
    numReads: int,
    recheckLimit: int,
    recvPrev: real,
    sendPrev: real,
    timePrev: real)

  /** What a read dispatches (bw), the new globals, and whether it raised ZeroDivisionError. */
  datatype ReadResult = ReadResult(state: IbState, bw: Option<real>, raised: bool)

  function InitialState(recheckLimit: int): IbState {
    IbState([], false, 0, recheckLimit, MaxSize as real, MaxSize as real, 0.0)
  }

  /** ib_plugin_initialize: found is None when the device directory does not exist. */
  function InitializeSpec(s: IbState, found: Option<seq<string>>): (r: IbState)
    ensures r.enabled <==> found.Some?
    ensures found.Some? ==> r.ports == found.value
    ensures r.numReads == s.numReads && r.recvPrev == s.recvPrev && r.sendPrev == s.sendPrev && r.timePrev == s.timePrev
  {
    match found
    case None => s.(enabled := false)
    case Some(ps) => s.(ports := Rediscover(s.ports, ps), enabled := true)
  }

  /** The recheck at the start of ib_plugin_read, with the discovery given by rediscover. */
  function Recheck(s: IbState, newPorts: seq<string>): IbState {
    var n := NextCount(s.numReads, s.recheckLimit);
    if s.numReads + 1 == s.recheckLimit then s.(ports := newPorts, numReads := n) else s.(numReads := n)
  }

  /** The rest of ib_plugin_read once the recheck is done. */
  function Sample(s: IbState, reading: string -> PortReading, timestamp: real): (r: ReadResult)
    ensures r.state.ports == s.ports && r.state.enabled == s.enabled && r.state.numReads == s.numReads
    ensures !s.enabled ==> r == ReadResult(s, None, false)
    ensures s.enabled && Accumulate(reading, s.ports).overflow ==>
      r == ReadResult(s.(recvPrev := 0.0, sendPrev := 0.0, timePrev := timestamp), None, false)
    ensures var t := Accumulate(reading, s.ports);
      s.enabled && !t.overflow ==>
        && (r.raised <==> t.recv >= s.recvPrev && t.send >= s.sendPrev && timestamp == s.timePrev)
        && (r.bw.Some? <==> t.recv >= s.recvPrev && t.send >= s.sendPrev && timestamp != s.timePrev)
        && (r.bw.Some? ==> r.bw.value * (timestamp - s.timePrev) == (t.recv - s.recvPrev) + (t.send - s.sendPrev))
        && (!r.raised ==> r.state == s.(recvPrev := t.recv, sendPrev := t.send, timePrev := timestamp))
        && (r.raised ==> r.state == s)
  {
    if !s.enabled then ReadResult(s, None, false)
    else
      var t := Accumulate(reading, s.ports);
      if t.overflow then ReadResult(s.(recvPrev := 0.0, sendPrev := 0.0, timePrev := timestamp), None, false)
      else
        var next := s.(recvPrev := t.recv, sendPrev := t.send, timePrev := timestamp);
        if t.recv >= s.recvPrev && t.send >= s.sendPrev then
          if timestamp == s.timePrev then ReadResult(s, None, true)
          else ReadResult(next, Some((t.recv - s.recvPrev + t.send - s.sendPrev) / (timestamp - s.timePrev)), false)
        else ReadResult(next, None, false)
  }

  /** ib_plugin_read, with the corrected port discovery. */
  function ReadSpec(s: IbState, found: seq<string>, reading: string -> PortReading, timestamp: real): ReadResult {
    Sample(Recheck(s, Rediscover(s.ports, found)), reading, timestamp)
  }

  /** ib_plugin_read as written. */
  function ReadAsWritten(s: IbState, found: seq<string>, reading: string -> PortReading, timestamp: real): ReadResult {
    Sample(Recheck(s, RediscoverAsWritten(s.ports, found)), reading, timestamp)
  }

  /**
   * One read moves num_reads on as NextCount says and looks the ports up
   * again exactly when num_reads reaches recheck_limit; time_prev is updated
   * unless the read raised, and then nothing but num_reads (and the ports)
   * changed.
   */
  lemma ReadBookkeeping(s: IbState, found: seq<string>, reading: string -> PortReading, timestamp: real)
    ensures var r := ReadSpec(s, found, reading, timestamp);
      && r.state.numReads == NextCount(s.numReads, s.recheckLimit)
      && r.state.ports == (if s.numReads + 1 == s.recheckLimit then found else s.ports)
      && r.state.enabled == s.enabled
      && (s.enabled && !r.raised ==> r.state.timePrev == timestamp)
      && (r.raised ==> r.state.recvPrev == s.recvPrev && r.state.sendPrev == s.sendPrev && r.state.timePrev == s.timePrev)
  {
  }

  /**
   * The baselines start at sys.maxsize, so the first read after start-up
   * dispatches nothing unless its receive total reaches sys.maxsize.
   */
  lemma FirstReadSilent(recheckLimit: int, found: Option<seq<string>>, rediscovered: seq<string>,
                        reading: string -> PortReading, timestamp: real)
    requires var s := InitializeSpec(InitialState(recheckLimit), found);
             Accumulate(reading, Recheck(s, Rediscover(s.ports, rediscovered)).ports).recv < MaxSize as real
    ensures ReadSpec(InitializeSpec(InitialState(recheckLimit), found), rediscovered, reading, timestamp).bw == None
  {
  }

  /**
   * The port list appended to: one port whose counters have not moved since
   * the previous read (4 bytes each way), and a recheck due. As written the
   * second listing of the port doubles both totals and a bandwidth of 8
   * bytes per second is dispatched; with the list replaced it is 0.
   */
  lemma RecheckSpike()
    ensures var s := IbState(["mlx5_0/ports/1"], true, 0, 1, 4.0, 4.0, 1.0);
            var reading := (q: string) => PortReading(Some(1.0), Some(1.0));
            && ReadAsWritten(s, ["mlx5_0/ports/1"], reading, 2.0).bw == Some(8.0)
            && ReadSpec(s, ["mlx5_0/ports/1"], reading, 2.0).bw == Some(0.0)
  {
    var s := IbState(["mlx5_0/ports/1"], true, 0, 1, 4.0, 4.0, 1.0);
    var reading := (q: string) => PortReading(Some(1.0), Some(1.0));
    var one := Accumulate(reading, ["mlx5_0/ports/1"]);
    assert one == Totals(4.0, 4.0, false);
    AccumulateTwice(reading, ["mlx5_0/ports/1"]);
  }

  /** The plugin's globals; one object per plugin instance. */
  class IbPlugin {
    var ports: seq<string>
    var enabled: bool
    var numReads: int
    var recheckLimit: int
    var recvPrev: real
    var sendPrev: real
    var timePrev: real

    function Current(): IbState
      reads this
    {
      IbState(ports, enabled, numReads, recheckLimit, recvPrev, sendPrev, timePrev)
    }

    constructor(recheckLimit: int)
      ensures Current() == InitialState(recheckLimit)
    {
      ports := [];
      enabled := false;
      numReads := 0;
      this.recheckLimit := recheckLimit;
      recvPrev := MaxSize as real;
      sendPrev := MaxSize as real;
      timePrev := 0.0;
    }

    /** ib_plugin_initialize; the perfquery lookup and counter reset are left out. */
    method Initialize(found: Option<seq<string>>)
      modifies this
      ensures Current() == InitializeSpec(old(Current()), found)
    {
      if found.Some? {
        ports := Rediscover(ports, found.value);
        enabled := true;
      } else {
        enabled := false;
      }
    }

    /** ib_plugin_notify with the message "check" at severity okay. */
    method NotifyCheck(found: seq<string>)
      modifies this
      ensures Current() == old(Current()).(ports := found, numReads := 0)
    {
      ports := Rediscover(ports, found);
      numReads := 0;
    }

    /** ib_plugin_read: found is what a recheck would discover, reading the counter files per port. */
    method Read(found: seq<string>, reading: string -> PortReading, timestamp: real) returns (bw: Option<real>, raised: bool)
      modifies this
      ensures ReadResult(Current(), bw, raised) == ReadSpec(old(Current()), found, reading, timestamp)
    {
      numReads := numReads + 1;
      if numReads == recheckLimit {
        ports := Rediscover(ports, found);
        numReads := 0;
      }
      if !enabled {
        return None, false;
      }
      var recv, send, overflow := 0.0, 0.0, false;
      var i := 0;
      while i < |ports|
        invariant 0 <= i <= |ports|
        invariant Totals(recv, send, overflow) == Accumulate(reading, ports[..i])
      {
        var p := reading(ports[i]);
        var c := ReadCounter(p.rcv);
        if c != -1.0 {
          if c == CounterMax {
            overflow := true;
          } else {
            recv := recv + c * 4.0;
          }
          if p.xmit.Some? {
            var x := p.xmit.value;
            if x == CounterMax {
              overflow := true;
            }
            send := send + x * 4.0;
          }
        }
        assert ports[..i + 1][..i] == ports[..i];
        i := i + 1;
      }
      assert ports[..i] == ports;
      bw, raised := None, false;
      if overflow {
        recvPrev, sendPrev := 0.0, 0.0;
      } else {
        if recv >= recvPrev && send >= sendPrev {
          if timestamp == timePrev {
            return None, true;
          }
          bw := Some((recv - recvPrev + send - sendPrev) / (timestamp - timePrev));
        }
        recvPrev, sendPrev := recv, send;
      }
      timePrev := timestamp;
    }
  }
}
