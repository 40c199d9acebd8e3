/**
 * The two topology loops of the LIKWID plugin's initialisation
 * (_init_likwid, c/likwid.c:380-450): choosing one hardware thread per
 * socket to report per-socket metrics, and numbering the physical cores
 * so that hardware-thread values can be summed per core.
 */
module LikwidTopology {
  import opened Util

  /**
   * The selection loop as written (c/likwid.c:388-408): a thread is new when
   * no selected thread INDEX equals its package id; the loop stops once
   * numSockets threads are selected.
   */
  function SocketThreadsAsWritten(packages: seq<int>, numSockets: nat): seq<nat> {
    if |packages| == 0 then []
    else
      var i := |packages| - 1;
      var sel := SocketThreadsAsWritten(packages[..i], numSockets);
      if |sel| == numSockets || packages[i] in sel then sel else sel + [i]
  }

  /**
   * Two sockets with two threads each, numbered socket 1 first: the loop as
   * written picks both threads of socket 1 and none of socket 0.
   */
  lemma SocketThreadsAsWrittenRepeatsSocket()
    ensures SocketThreadsAsWritten([1, 1, 0, 0], 2) == [0, 1]
    ensures [1, 1, 0, 0][0] == [1, 1, 0, 0][1]
  {
    assert [1, 1, 0, 0][..3] == [1, 1, 0];
    assert [1, 1, 0][..2] == [1, 1];
    assert [1, 1][..1] == [1];
    assert [1][..0] == [];
  }

  /** The chosen threads (socketThreadIndices) and, beside each, its socket. */
  datatype Selection = Selection(threads: seq<nat>, sockets: seq<int>)

  /**
   * The selection with the comparison the loop intends: a thread is new
   * when no chosen thread is on its socket.
   */
  function SocketThreads(packages: seq<int>, numSockets: nat): (r: Selection)
    ensures |r.threads| == |r.sockets| <= numSockets
    ensures forall s :: 0 <= s < |r.threads| ==> r.threads[s] < |packages| && packages[r.threads[s]] == r.sockets[s]
  {
    if |packages| == 0 then Selection([], [])
    else
      var i := |packages| - 1;
      var r := SocketThreads(packages[..i], numSockets);
      if |r.threads| == numSockets || packages[i] in r.sockets then r
      else Selection(r.threads + [i], r.sockets + [packages[i]])
  }

  lemma SocketThreadsStep(packages: seq<int>, numSockets: nat, i: nat)
    requires i < |packages|
    ensures var r := SocketThreads(packages[..i], numSockets);
            SocketThreads(packages[..i + 1], numSockets) ==
              if |r.threads| == numSockets || packages[i] in r.sockets then r
              else Selection(r.threads + [i], r.sockets + [packages[i]])
  {
    assert packages[..i + 1][..i] == packages[..i];
  }

  predicate Distinct(xs: seq<int>) {
    forall s, t :: 0 <= s < t < |xs| ==> xs[s] != xs[t]
  }

  /** Unless the selection is full, every thread's socket is among the chosen sockets. */
  predicate Covers(r: Selection, packages: seq<int>, numSockets: nat) {
    |r.threads| < numSockets ==> forall i :: 0 <= i < |packages| ==> packages[i] in r.sockets
  }

  /** No earlier thread is on the socket of a chosen thread. */
  predicate FirstOfSocket(r: Selection, packages: seq<int>)
    requires |r.threads| == |r.sockets|
    requires forall s :: 0 <= s < |r.threads| ==> r.threads[s] < |packages|
  {
    forall s :: 0 <= s < |r.threads| ==> r.sockets[s] !in packages[..r.threads[s]]
  }

  /** The chosen threads are on distinct sockets. */
  lemma {:induction false} SocketThreadsDistinct(packages: seq<int>, numSockets: nat)
    ensures Distinct(SocketThreads(packages, numSockets).sockets)
  {
    if |packages| > 0 {
      var n := |packages| - 1;
      SocketThreadsDistinct(packages[..n], numSockets);
      var r0 := SocketThreads(packages[..n], numSockets);
      var r := SocketThreads(packages, numSockets);
      if |r0.threads| == numSockets || packages[n] in r0.sockets {
        assert r == r0;
      } else {
        assert r.sockets == r0.sockets + [packages[n]];
        forall s, t | 0 <= s < t < |r.sockets|
          ensures r.sockets[s] != r.sockets[t]
        {
          assert r.sockets[s] == r0.sockets[s];
          if t == |r0.sockets| {
            assert r0.sockets[s] in r0.sockets;
          } else {
            assert r.sockets[t] == r0.sockets[t];
          }
        }
      }
    }
  }

  /** Unless numSockets threads were chosen, every thread's socket has one. */
  lemma {:induction false} SocketThreadsComplete(packages: seq<int>, numSockets: nat)
    ensures Covers(SocketThreads(packages, numSockets), packages, numSockets)
  {
    if |packages| > 0 {
      var n := |packages| - 1;
      SocketThreadsComplete(packages[..n], numSockets);
      var r0 := SocketThreads(packages[..n], numSockets);
      var r := SocketThreads(packages, numSockets);
      if |r.threads| < numSockets {
        forall i | 0 <= i < |packages|
          ensures packages[i] in r.sockets
        {
          if i < n {
            assert packages[..n][i] == packages[i];
          }
        }
      }
    }
  }

  /** Each chosen thread is the first thread of its socket. */
  lemma {:induction false} SocketThreadsFirst(packages: seq<int>, numSockets: nat)
    ensures FirstOfSocket(SocketThreads(packages, numSockets), packages)
  {
    if |packages| > 0 {
      var n := |packages| - 1;
      var init := packages[..n];
      SocketThreadsFirst(init, numSockets);
      var r0 := SocketThreads(init, numSockets);
      var r := SocketThreads(packages, numSockets);
      forall s | 0 <= s < |r0.threads|
        ensures packages[..r0.threads[s]] == init[..r0.threads[s]]
      {
      }
      if r != r0 {
        SocketThreadsComplete(init, numSockets);
        assert packages[..n] == init;
      }
    }
  }

  /** Once numSockets threads are chosen, later threads change nothing (the loop's break). */
  lemma SocketThreadsFull(packages: seq<int>, numSockets: nat, i: nat)
    requires i <= |packages|
    requires |SocketThreads(packages[..i], numSockets).threads| == numSockets
    ensures SocketThreads(packages, numSockets) == SocketThreads(packages[..i], numSockets)
  {
    var j := i;
    while j < |packages|
      invariant i <= j <= |packages|
      invariant SocketThreads(packages[..j], numSockets) == SocketThreads(packages[..i], numSockets)
    {
      SocketThreadsStep(packages, numSockets, j);
      j := j + 1;
    }
    assert packages[..j] == packages;
  }

  /** The inner search of the selection loop: is some chosen thread on this socket? */
  method OnChosenSocket(indices: array<nat>, count: nat, packages: seq<int>, socketId: int, ghost r: Selection)
    returns (found: bool)
    requires count == |r.threads| == |r.sockets| && count <= indices.Length
    requires forall s :: 0 <= s < count ==> indices[s] == r.threads[s] < |packages| && packages[r.threads[s]] == r.sockets[s]
    ensures found <==> socketId in r.sockets
  {
    found := false;
    var s := 0;
    while s < count
      invariant 0 <= s <= count
      invariant socketId !in r.sockets[..s]
    {
      if packages[indices[s]] == socketId {
        found := true;
        return;
      }
      assert r.sockets[..s + 1] == r.sockets[..s] + [r.sockets[s]];
      s := s + 1;
    }
    assert r.sockets[..s] == r.sockets;
  }

  /**
   * The selection loop of _init_likwid, with the intended comparison: fills
   * socketThreadIndices and returns how many entries it set.
   */
  method SelectSocketThreads(packages: seq<int>, numSockets: nat) returns (indices: array<nat>, count: nat)
    requires numSockets >= 1
    ensures fresh(indices) && indices.Length == numSockets
    ensures count <= numSockets && indices[..count] == SocketThreads(packages, numSockets).threads
  {
    indices := new nat[numSockets];
    count := 0;
    var i := 0;
    while i < |packages|
      invariant 0 <= i <= |packages| && count < numSockets
      invariant indices[..count] == SocketThreads(packages[..i], numSockets).threads
    {
      count := ConsiderThread(indices, count, packages, numSockets, i);
      if count == numSockets {
        SocketThreadsFull(packages, numSockets, i + 1);
        return;
      }
      i := i + 1;
    }
    assert packages[..i] == packages;
  }

  /** One iteration of the selection loop: thread i is chosen when no chosen thread is on its socket. */
  method ConsiderThread(indices: array<nat>, count: nat, packages: seq<int>, numSockets: nat, i: nat) returns (next: nat)
    requires i < |packages| && count < numSockets == indices.Length
    requires indices[..count] == SocketThreads(packages[..i], numSockets).threads
    modifies indices
    ensures next <= numSockets && indices[..next] == SocketThreads(packages[..i + 1], numSockets).threads
  {
    ghost var r := SocketThreads(packages[..i], numSockets);
    SocketThreadsStep(packages, numSockets, i);
    assert forall s :: 0 <= s < count ==> indices[s] == r.threads[s];
    hide SocketThreads;
    var found := OnChosenSocket(indices, count, packages, packages[i], r);
    next := count;
    if !found {
      indices[count] := i;
      next := count + 1;
      assert indices[..next] == r.threads + [i];
    }
  }

  /** Number of threads on core c. */
  function Occurrences(ids: seq<int>, c: int): (n: nat)
    ensures n > 0 <==> c in ids
  {
    if |ids| == 0 then 0
    else Occurrences(ids[..|ids| - 1], c) + (if ids[|ids| - 1] == c then 1 else 0)
  }

  /** The physical cores, each once, in the order of their first thread. */
  function Cores(ids: seq<int>): (cs: seq<int>)
    ensures forall i, j :: 0 <= i < j < |cs| ==> cs[i] != cs[j]
    ensures forall x :: x in cs <==> x in ids
  {
    if |ids| == 0 then []
    else
      var cs := Cores(ids[..|ids| - 1]);
      assert ids == ids[..|ids| - 1] + [ids[|ids| - 1]];
      if ids[|ids| - 1] in cs then cs else cs + [ids[|ids| - 1]]
  }

  function IndexOf(cs: seq<int>, x: int): (k: nat)
    requires x in cs
    ensures k < |cs| && cs[k] == x && x !in cs[..k]
  {
    if cs[0] == x then 0 else 1 + IndexOf(cs[1..], x)
  }

  /** The per-core array index of thread k: its core's position among the cores. */
  function CoreIndex(ids: seq<int>, k: nat): (idx: nat)
    requires k < |ids|
    ensures idx < |Cores(ids)|
  {
    IndexOf(Cores(ids), ids[k])
  }

  /** Threads share an index exactly when they share a core. */
  lemma SameIndexSameCore(ids: seq<int>, a: nat, b: nat)
    requires a < |ids| && b < |ids|
    ensures CoreIndex(ids, a) == CoreIndex(ids, b) <==> ids[a] == ids[b]
  {
    var cs := Cores(ids);
    if CoreIndex(ids, a) == CoreIndex(ids, b) {
      assert cs[CoreIndex(ids, a)] == ids[a];
    }
  }

  /** The cores of a prefix of the threads come first among all the cores. */
  lemma CoresPrefix(ids: seq<int>, i: nat)
    requires i <= |ids|
    ensures Cores(ids[..i]) <= Cores(ids)
  {
    var j := i;
    while j < |ids|
      invariant i <= j <= |ids|
      invariant Cores(ids[..i]) <= Cores(ids[..j])
    {
      CoresStep(ids, j);
      j := j + 1;
    }
    assert ids[..j] == ids;
  }

  lemma CoresStep(ids: seq<int>, i: nat)
    requires i < |ids|
    ensures Cores(ids[..i + 1]) == if ids[i] in ids[..i] then Cores(ids[..i]) else Cores(ids[..i]) + [ids[i]]
  {
    assert ids[..i + 1][..i] == ids[..i];
  }

  /** Indices are handed out 0, 1, 2, ... in the order of each core's first thread. */
  lemma NewCoreGetsNextIndex(ids: seq<int>, k: nat)
    requires k < |ids| && ids[k] !in ids[..k]
    ensures CoreIndex(ids, k) == |Cores(ids[..k])|
  {
    CoresStep(ids, k);
    CoresPrefix(ids, k + 1);
    var n := |Cores(ids[..k])|;
    var cs := Cores(ids);
    assert cs[n] == ids[k];
  }

  /**
   * coreIds as the loop writes it (c/likwid.c:438-443): the id of a core is
   * stored only when a later thread shares that core, so a core with a
   * single thread leaves its slot unset (None).
   */
  function CoreIdsAsWritten(ids: seq<int>): (r: seq<Option<int>>)
    ensures |r| == |Cores(ids)|
  {
    var cs := Cores(ids);
    seq(|cs|, k requires 0 <= k < |cs| => if Occurrences(ids, cs[k]) >= 2 then Some(cs[k]) else None)
  }

  /** A core with one thread next to a core with two: the first core's id is never stored. */
  lemma CoreIdsAsWrittenMissesSingleThreadCore()
    ensures Cores([5, 7, 7]) == [5, 7]
    ensures CoreIdsAsWritten([5, 7, 7])[0] == None
  {
    assert [5, 7, 7][..2] == [5, 7];
    assert [5, 7][..1] == [5];
    assert [5][..0] == [];
    assert Occurrences([5, 7, 7], 5) == 1;
  }

  /** The inner loop of the core numbering: every later thread on thread i's core gets index current. */
  method MarkCore(coreIndices: array<int>, ids: seq<int>, i: nat, current: int)
    requires coreIndices.Length == |ids| && i < |ids|
    modifies coreIndices
    ensures forall k :: 0 <= k < |ids| ==>
              coreIndices[k] == if i < k && ids[k] == ids[i] then current else old(coreIndices[k])
  {
    var j := i + 1;
    while j < |ids|
      invariant i < j <= |ids|
      invariant forall k :: 0 <= k < |ids| ==>
                  coreIndices[k] == if i < k < j && ids[k] == ids[i] then current else old(coreIndices[k])
    {
      if ids[i] == ids[j] {
        coreIndices[j] := current;
      }
      j := j + 1;
    }
  }

  /** The state of coreIndices after the numbering loop has looked at the first i threads. */
  ghost predicate Numbered(ids: seq<int>, coreIndices: seq<int>, i: nat) {
    i <= |ids| && |coreIndices| == |ids| &&
    forall k :: 0 <= k < |ids| ==> coreIndices[k] == if ids[k] in ids[..i] then CoreIndex(ids, k) else -1
  }

  /** A thread is still unnumbered exactly when its core was not seen before it. */
  lemma NumberedUnset(ids: seq<int>, coreIndices: seq<int>, i: nat)
    requires i < |ids| && Numbered(ids, coreIndices, i)
    ensures coreIndices[i] == -1 <==> ids[i] !in ids[..i]
  {
  }

  /** A thread whose core was seen before changes nothing. */
  lemma NumberedSeen(ids: seq<int>, coreIndices: seq<int>, i: nat)
    requires i < |ids| && Numbered(ids, coreIndices, i) && ids[i] in ids[..i]
    ensures Numbered(ids, coreIndices, i + 1)
  {
    assert ids[..i + 1] == ids[..i] + [ids[i]];
  }

  /** The first thread of a core numbers it and every later thread on it. */
  lemma NumberedNew(ids: seq<int>, before: seq<int>, after: seq<int>, i: nat)
    requires i < |ids| && Numbered(ids, before, i) && ids[i] !in ids[..i]
    requires |after| == |ids|
    requires forall k :: 0 <= k < |ids| ==>
               after[k] == if k == i || (i < k && ids[k] == ids[i]) then |Cores(ids[..i])| else before[k]
    ensures Numbered(ids, after, i + 1)
  {
    NewCoreGetsNextIndex(ids, i);
    assert ids[..i + 1] == ids[..i] + [ids[i]];
  }

  /**
   * The core numbering loop of _init_likwid, storing each core's id when its
   * first thread is seen: thread k gets CoreIndex(ids, k), and coreIds lists
   * the cores in index order.
   */
  method AssignCoreIndices(ids: seq<int>, numCores: nat) returns (coreIndices: array<int>, coreIds: array<int>)
    requires |Cores(ids)| <= numCores
    ensures fresh(coreIndices) && fresh(coreIds)
    ensures coreIndices.Length == |ids| && coreIds.Length == numCores
    ensures forall k :: 0 <= k < |ids| ==> coreIndices[k] == CoreIndex(ids, k)
    ensures coreIds[..|Cores(ids)|] == Cores(ids)
  {
    coreIndices := new int[|ids|](_ => -1);
    coreIds := new int[numCores];
    var current := 0;
    var i := 0;
    while i < |ids|
      invariant 0 <= i <= |ids|
      invariant current == |Cores(ids[..i])| <= numCores
      invariant Numbered(ids, coreIndices[..], i)
      invariant coreIds != coreIndices && coreIds[..current] == Cores(ids[..i])
    {
      current := NumberThread(coreIndices, coreIds, ids, i, current);
      i := i + 1;
    }
    assert ids[..i] == ids;
  }

  /** One iteration of the numbering loop: thread i numbers its core if it is the core's first thread. */
  method NumberThread(coreIndices: array<int>, coreIds: array<int>, ids: seq<int>, i: nat, current: nat) returns (next: nat)
    requires i < |ids| == coreIndices.Length && |Cores(ids)| <= coreIds.Length && coreIds != coreIndices
    requires current == |Cores(ids[..i])| <= coreIds.Length && Numbered(ids, coreIndices[..], i)
    requires coreIds[..current] == Cores(ids[..i])
    modifies coreIndices, coreIds
    ensures next == |Cores(ids[..i + 1])| <= coreIds.Length && Numbered(ids, coreIndices[..], i + 1)
    ensures coreIds[..next] == Cores(ids[..i + 1])
  {
    hide Cores, CoreIndex, Numbered;
    CoresStep(ids, i);
    CoresPrefix(ids, i + 1);
    ghost var before := coreIndices[..];
    NumberedUnset(ids, before, i);
    next := current;
    if coreIndices[i] == -1 {
      coreIndices[i] := current;
      coreIds[current] := ids[i];
      ghost var ids0 := coreIds[..];
      MarkCore(coreIndices, ids, i, current);
      assert coreIds[..] == ids0;
      NumberedNew(ids, before, coreIndices[..], i);
      next := current + 1;
    } else {
      NumberedSeen(ids, before, i);
    }
  }
}
