/**
 * The recheck counter shared by the Lustre and InfiniBand plugins: every
 * read increments num_reads, and when it reaches recheck_limit the plugin
 * looks for its devices or file systems again and starts counting from 0.
 */
module RecheckCounter {

  /** num_reads after one more read: reset to 0 exactly when it reaches recheck_limit. */
  function NextCount(numReads: int, limit: int): (n: int)
    ensures n == 0 <==> numReads + 1 == limit || numReads == -1
    ensures n != 0 ==> n == numReads + 1
  {
    if numReads + 1 == limit then 0 else numReads + 1
  }

  /** num_reads after k reads from the start. */
  function CountAfter(limit: int, k: nat): int {
    if k == 0 then 0 else NextCount(CountAfter(limit, k - 1), limit)
  }

  /** Before the first recheck, num_reads counts the reads. */
  lemma {:induction false} CountAfterBelow(limit: int, r: nat)
    requires r < limit
    ensures CountAfter(limit, r) == r
  {
    if r > 0 {
      CountAfterBelow(limit, r - 1);
    }
  }

  /** With a positive recheck_limit L, num_reads repeats every L reads. */
  lemma {:induction false} CountAfterPeriodic(limit: int, k: nat)
    requires limit > 0
    ensures CountAfter(limit, k + limit) == CountAfter(limit, k)
  {
    if k == 0 {
      CountAfterBelow(limit, limit - 1);
    } else {
      CountAfterPeriodic(limit, k - 1);
      assert k + limit - 1 == (k - 1) + limit;
    }
  }

  /** With a positive recheck_limit L, num_reads stays in [0, L). */
  lemma {:induction false} CountAfterRange(limit: int, k: nat)
    requires limit > 0
    ensures 0 <= CountAfter(limit, k) < limit
  {
    if k > 0 {
      CountAfterRange(limit, k - 1);
    }
  }

  /**
   * With a positive recheck_limit L, read k rechecks (num_reads reaches L)
   * exactly when it leaves num_reads at 0.
   */
  lemma RecheckWhenZero(limit: int, k: nat)
    requires limit > 0 && k > 0
    ensures CountAfter(limit, k - 1) + 1 == limit <==> CountAfter(limit, k) == 0
  {
    CountAfterRange(limit, k - 1);
  }

  /**
   * With a positive recheck_limit L, num_reads after q * L + r reads (r < L)
   * is r: by the lemma above, the plugin rechecks on every L-th read and on
   * no other.
   */
  lemma {:induction false} RecheckPeriod(limit: int, q: nat, r: nat)
    requires 0 <= r < limit
    ensures CountAfter(limit, q * limit + r) == r
  {
    if q == 0 {
      CountAfterBelow(limit, r);
    } else {
      var k0 := (q - 1) * limit + r;
      assert q * limit + r == k0 + limit;
      RecheckPeriod(limit, q - 1, r);
      CountAfterPeriodic(limit, k0);
    }
  }

  /** With recheck_limit 0 (the default) or below, num_reads only grows and no read rechecks. */
  lemma {:induction false} NoRecheck(limit: int, k: nat)
    requires limit <= 0
    ensures CountAfter(limit, k) == k
  {
    if k > 0 {
      NoRecheck(limit, k - 1);
    }
  }
}
