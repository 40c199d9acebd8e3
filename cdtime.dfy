/**
 * collectd's time type as the LIKWID plugin's test build defines it
 * (c/likwid.c:21-33): cdtime_t is an unsigned 64-bit count of 2^-30
 * seconds. Every C conversion to cdtime_t reduces modulo 2^64, and the
 * shifts are multiplications and divisions by powers of two.
 */
module CdTime {

  const Two29: nat := 0x2000_0000
  const Two30: nat := 0x4000_0000
  const Two34: nat := 0x4_0000_0000
  const Two64: nat := 0x1_0000_0000_0000_0000
  const NsPerSec: nat := 1_000_000_000

  /** A conversion to uint64_t (cdtime_t). */
  function U64(x: int): (r: nat)
    ensures r < Two64
    ensures 0 <= x < Two64 ==> r == x
  {
    x % Two64
  }

  function Pow2(k: nat): (p: nat)
    ensures p >= 1
  {
    if k == 0 then 1 else 2 * Pow2(k - 1)
  }

  /** C's | on unsigned integers, bit by bit from the lowest. */
  function BitOr(a: nat, b: nat): nat
    decreases a + b
  {
    if a == 0 then b
    else if b == 0 then a
    else 2 * BitOr(a / 2, b / 2) + (if a % 2 == 1 || b % 2 == 1 then 1 else 0)
  }

  /** Or-ing a value below 2^k into a multiple of 2^k adds it. */
  lemma {:induction false} BitOrShifted(q: nat, lo: nat, k: nat)
    requires lo < Pow2(k)
    ensures BitOr(q * Pow2(k), lo) == q * Pow2(k) + lo
  {
    if k > 0 && q > 0 && lo > 0 {
      var half := q * Pow2(k - 1);
      assert q * Pow2(k) == 2 * half;
      BitOrShifted(q, lo / 2, k - 1);
    }
  }

  lemma Pow2Is30()
    ensures Pow2(30) == Two30
  {
    assert Pow2(10) == 1024;
    assert Pow2(20) == 1024 * 1024;
  }

  lemma {:induction false} Pow2Add(a: nat, b: nat)
    ensures Pow2(a + b) == Pow2(a) * Pow2(b)
  {
    if b > 0 {
      Pow2Add(a, b - 1);
      assert Pow2(a + b) == 2 * Pow2(a + b - 1);
    }
  }

  /** Every power of two up to 2^63 fits in a uint64_t. */
  lemma Pow2Below64(k: nat)
    requires k < 64
    ensures Pow2(k) < Two64
  {
    Pow2Is30();
    Pow2Add(30, 30);
    Pow2Add(60, 3);
    assert Pow2(3) == 8;
    Pow2Grows(k, 63);
  }

  lemma {:induction false} Pow2Grows(a: nat, b: nat)
    requires a <= b
    ensures Pow2(a) <= Pow2(b)
  {
    if a < b {
      Pow2Grows(a, b - 1);
    }
  }

  /** TIME_T_TO_CDTIME_T: whole seconds shifted left by 30. */
  function FromTime(t: int): nat {
    U64(U64(t) * Two30)
  }

  /** CDTIME_T_TO_TIME_T: add half a second, then shift right by 30, rounding to the nearest second. */
  function ToTime(c: nat): int
    requires c < Two64
  {
    U64(c + Two29) / Two30
  }

  /**
   * NS_TO_CDTIME_T: whole seconds shifted left by 30, or-ed with the
   * remaining nanoseconds scaled to 2^-30 seconds and rounded.
   */
  function FromNs(ns: int): nat {
    var n := U64(ns);
    BitOr(U64(n / NsPerSec * Two30), (n % NsPerSec * Two30 + NsPerSec / 2) / NsPerSec)
  }

  /** TIMESPEC_TO_CDTIME_T for a timespec {sec, nsec}. */
  function FromTimespec(sec: int, nsec: int): nat {
    FromNs(U64(U64(NsPerSec * U64(sec)) + U64(nsec)))
  }

  /** Whole seconds survive the round trip through cdtime_t for every time before 2^34 seconds. */
  lemma TimeRoundTrip(t: int)
    requires 0 <= t < Two34
    ensures FromTime(t) == t * Two30
    ensures ToTime(FromTime(t)) == t
  {
    assert t * Two30 < Two64;
    assert (t * Two30 + Two29) / Two30 == t;
  }

  /** A multiple of 2^30 reduced modulo 2^64 is still a multiple of 2^30. */
  lemma ShiftWraps(q: nat)
    ensures U64(q * Two30) == q % Two34 * Two30
  {
    var t, r := q / Two34, q % Two34;
    calc {
      q * Two30;
      (t * Two34 + r) * Two30;
      { assert Two34 * Two30 == Two64; }
      t * Two64 + r * Two30;
    }
    assert r * Two30 < Two64 by {
      assert r <= Two34 - 1;
      MulLeft(r, Two34 - 1, Two30);
    }
    ModOfMultiplePlus(t, r * Two30, Two64);
  }

  lemma MulLeft(a: nat, b: nat, c: nat)
    requires a <= b
    ensures a * c <= b * c
  {
  }

  /** Adding a multiple of m does not change a remainder already below m. */
  lemma ModOfMultiplePlus(t: nat, x: nat, m: nat)
    requires 0 <= x < m
    ensures (t * m + x) % m == x
  {
    var a := t * m + x;
    var k, r := a / m, a % m;
    assert a == k * m + r;
    if t > k {
      MulLeft(1, t - k, m);
      assert false;
    } else if t < k {
      MulLeft(1, k - t, m);
      assert false;
    }
  }

  /** The rounded nanosecond part of NS_TO_CDTIME_T stays below 2^30. */
  lemma FractionFits(n: nat)
    ensures (n % NsPerSec * Two30 + NsPerSec / 2) / NsPerSec < Two30
  {
    var f := n % NsPerSec;
    assert f <= NsPerSec - 1;
    assert f * Two30 <= (NsPerSec - 1) * Two30;
  }

  /**
   * In NS_TO_CDTIME_T the two halves never share a bit, so the | is a +:
   * the result is the whole seconds (modulo 2^34) in the upper bits plus
   * the rounded fraction in the lower 30 bits.
   */
  lemma NsOrIsPlus(ns: int)
    ensures var n := U64(ns);
            FromNs(ns) == n / NsPerSec % Two34 * Two30 + (n % NsPerSec * Two30 + NsPerSec / 2) / NsPerSec
  {
    var n := U64(ns);
    var lo := (n % NsPerSec * Two30 + NsPerSec / 2) / NsPerSec;
    FractionFits(n);
    ShiftWraps(n / NsPerSec);
    Pow2Is30();
    BitOrShifted(n / NsPerSec % Two34, lo, 30);
  }

  /** A whole number of seconds in nanoseconds converts as those seconds do. */
  lemma WholeSecondsAgree(s: nat)
    requires s < Two34
    ensures FromNs(s * NsPerSec) == FromTime(s)
  {
    var n := s * NsPerSec;
    assert n < Two64;
    assert n / NsPerSec == s && n % NsPerSec == 0;
    NsOrIsPlus(n);
    TimeRoundTrip(s);
  }
}
