/**
 * Small building blocks shared by the collectd plugin models: an Option type,
 * Python and C string operations on `seq<char>`, and Python 3's
 * insertion-ordered dictionary.
 */
module Util {

  datatype Option<T> = None | Some(value: T)

  /**
   * The six ASCII whitespace characters: those C's isspace accepts in the C
   * locale and Python 2's str.split() and str.strip() remove. Python 3's str
   * methods also remove \x1c-\x1f, U+0085, U+00A0 and the other Unicode
   * spaces, which this predicate leaves out.
   */
  predicate IsSpace(c: char) {
    c == ' ' || c == '\t' || c == '\n' || c == '\r' || c as int == 11 || c as int == 12
  }

  predicate IsDigit(c: char) {
    '0' <= c <= '9'
  }

  predicate AllDigits(s: string) {
    forall i :: 0 <= i < |s| ==> IsDigit(s[i])
  }

  function DigitValue(c: char): nat
    requires IsDigit(c)
  {
    c as int - '0' as int
  }

  /** The number written by a string of decimal digits, most significant digit first. */
  function DecimalValue(s: string): nat
    requires AllDigits(s)
  {
    if |s| == 0 then 0 else 10 * DecimalValue(s[..|s| - 1]) + DigitValue(s[|s| - 1])
  }

  function DigitChar(d: nat): (c: char)
    requires d < 10
    ensures IsDigit(c) && DigitValue(c) == d
  {
    ('0' as int + d) as char
  }

  /** Python's str(n) for a non-negative int: the decimal digits of n, which read back as n. */
  function NatToString(n: nat): (s: string)
    ensures |s| > 0 && AllDigits(s)
    ensures DecimalValue(s) == n
  {
    if n < 10 then
      [DigitChar(n)]
    else
      var prefix := NatToString(n / 10);
      var s := prefix + [DigitChar(n % 10)];
      assert s[..|s| - 1] == prefix;
      s
  }

  predicate StartsWith(s: string, prefix: string) {
    |prefix| <= |s| && s[..|prefix|] == prefix
  }

  predicate EndsWith(s: string, suffix: string) {
    |suffix| <= |s| && s[|s| - |suffix|..] == suffix
  }

  /** r is s[a..b] for some a <= b, with only whitespace before a and from b on. */
  predicate TrimmedOf(s: string, r: string) {
    exists a, b :: 0 <= a <= b <= |s| && r == s[a..b] &&
      (forall i :: 0 <= i < a ==> IsSpace(s[i])) && (forall i :: b <= i < |s| ==> IsSpace(s[i]))
  }

  lemma TrimmedOfWhole(s: string)
    ensures TrimmedOf(s, s)
  {
    assert s[0..|s|] == s;
  }

  lemma TrimmedOfDropFirst(s: string, r: string)
    requires |s| > 0 && IsSpace(s[0]) && TrimmedOf(s[1..], r)
    ensures TrimmedOf(s, r)
  {
    var t := s[1..];
    var a, b :| 0 <= a <= b <= |t| && r == t[a..b] &&
      (forall i :: 0 <= i < a ==> IsSpace(t[i])) && (forall i :: b <= i < |t| ==> IsSpace(t[i]));
    assert r == s[a + 1..b + 1];
    forall i | 0 <= i < a + 1
      ensures IsSpace(s[i])
    {
      if i > 0 { assert s[i] == t[i - 1]; }
    }
    forall i | b + 1 <= i < |s|
      ensures IsSpace(s[i])
    {
      assert s[i] == t[i - 1];
    }
  }

  lemma TrimmedOfDropLast(s: string, r: string)
    requires |s| > 0 && IsSpace(s[|s| - 1]) && TrimmedOf(s[..|s| - 1], r)
    ensures TrimmedOf(s, r)
  {
    var t := s[..|s| - 1];
    var a, b :| 0 <= a <= b <= |t| && r == t[a..b] &&
      (forall i :: 0 <= i < a ==> IsSpace(t[i])) && (forall i :: b <= i < |t| ==> IsSpace(t[i]));
    assert r == s[a..b];
    forall i | 0 <= i < a
      ensures IsSpace(s[i])
    {
      assert s[i] == t[i];
    }
    forall i | b <= i < |s|
      ensures IsSpace(s[i])
    {
      if i < |t| { assert s[i] == t[i]; }
    }
  }

  /**
   * Python's str.strip() with no argument (ASCII whitespace): s with its
   * leading and trailing whitespace removed, so that the result neither
   * starts nor ends with whitespace.
   */
  function Strip(s: string): (r: string)
    ensures |r| <= |s|
    ensures |r| > 0 ==> !IsSpace(r[0]) && !IsSpace(r[|r| - 1])
    ensures TrimmedOf(s, r)
    decreases |s|
  {
    if |s| > 0 && IsSpace(s[0]) then
      var r := Strip(s[1..]);
      TrimmedOfDropFirst(s, r);
      r
    else if |s| > 0 && IsSpace(s[|s| - 1]) then
      var r := Strip(s[..|s| - 1]);
      TrimmedOfDropLast(s, r);
      r
    else
      TrimmedOfWhole(s);
      s
  }

  /** A text that neither starts nor ends with whitespace is its own strip. */
  lemma StripUnchanged(s: string)
    requires |s| > 0 ==> !IsSpace(s[0]) && !IsSpace(s[|s| - 1])
    ensures Strip(s) == s
  {
  }

  /**
   * Python's int(s) on a str, restricted to ASCII: surrounding whitespace
   * (IsSpace), an optional sign and at least one ASCII digit give the number,
   * and every other text is None, standing for ValueError. Python 3's int()
   * also reads underscores between digits ("1_000"), non-ASCII decimal digits
   * and numerals padded with Unicode whitespace; here those give None.
   */
  function ParseInt(s: string): (r: Option<int>)
    ensures AllDigits(s) && |s| > 0 ==> r == Some(DecimalValue(s))
  {
    var t := Strip(s);
    var negative := |t| > 0 && t[0] == '-';
    var digits := if |t| > 0 && (t[0] == '-' || t[0] == '+') then t[1..] else t;
    if |digits| > 0 && AllDigits(digits) then
      var n: int := DecimalValue(digits);
      Some(if negative then -n else n)
    else
      None
  }

  /** Index of the last occurrence of c in s, or -1 (Python's str.rfind for one character). */
  function RFind(s: string, c: char): (r: int)
    ensures -1 <= r < |s|
    ensures r >= 0 ==> s[r] == c && forall i :: r < i < |s| ==> s[i] != c
    ensures r == -1 ==> forall i :: 0 <= i < |s| ==> s[i] != c
  {
    if |s| == 0 then -1
    else if s[|s| - 1] == c then |s| - 1
    else RFind(s[..|s| - 1], c)
  }

  /** Python's slice s[lo:hi] for non-negative bounds: both are clamped to |s|, and an empty range gives "". */
  function Slice(s: string, lo: nat, hi: nat): (r: string)
    ensures lo < hi <= |s| ==> r == s[lo..hi]
    ensures hi <= lo ==> r == []
  {
    var l := if lo < |s| then lo else |s|;
    var h := if hi < |s| then hi else |s|;
    if l < h then s[l..h] else []
  }

  /** Python's s.split(sep) for a one-character separator. */
  function SplitOn(s: string, sep: char): (parts: seq<string>)
    ensures |parts| > 0
    decreases |s|
  {
    if |s| == 0 then
      [[]]
    else
      var rest := SplitOn(s[1..], sep);
      if s[0] == sep then [[]] + rest else [[s[0]] + rest[0]] + rest[1..]
  }

  /** The inverse of SplitOn: the parts joined by the separator. */
  function Join(parts: seq<string>, sep: char): string
    requires |parts| > 0
  {
    if |parts| == 1 then parts[0] else parts[0] + [sep] + Join(parts[1..], sep)
  }

  lemma {:induction false} JoinSplitOn(s: string, sep: char)
    ensures Join(SplitOn(s, sep), sep) == s
    ensures forall k, i :: 0 <= k < |SplitOn(s, sep)| && 0 <= i < |SplitOn(s, sep)[k]| ==> SplitOn(s, sep)[k][i] != sep
    decreases |s|
  {
    if |s| > 0 {
      var rest := SplitOn(s[1..], sep);
      JoinSplitOn(s[1..], sep);
      if s[0] == sep {
        assert SplitOn(s, sep) == [[]] + rest;
        assert ([[]] + rest)[1..] == rest;
        assert s == [sep] + s[1..];
      } else {
        var parts := [[s[0]] + rest[0]] + rest[1..];
        assert SplitOn(s, sep) == parts;
        if |rest| == 1 {
          assert Join(parts, sep) == [s[0]] + rest[0];
        } else {
          assert parts[1..] == rest[1..];
          assert Join(rest, sep) == rest[0] + [sep] + Join(rest[1..], sep);
        }
        assert s == [s[0]] + s[1..];
        forall k, i | 0 <= k < |parts| && 0 <= i < |parts[k]|
          ensures parts[k][i] != sep
        {
          if k == 0 {
            if i > 0 { assert parts[0][i] == rest[0][i - 1]; }
          } else {
            assert parts[k] == rest[k];
          }
        }
      }
    }
  }

  /** The non-empty strings of ss, in order (Python's filter(None, ss)). */
  function NonEmpty(ss: seq<string>): (r: seq<string>)
    ensures |r| <= |ss|
    ensures forall i :: 0 <= i < |r| ==> r[i] != [] && r[i] in ss
    ensures forall s :: s in ss && s != [] ==> s in r
  {
    if |ss| == 0 then []
    else if ss[0] == [] then NonEmpty(ss[1..])
    else [ss[0]] + NonEmpty(ss[1..])
  }

  /**
   * filter(None, ...) keeps the order and the multiplicity of what it keeps:
   * it works element by element, and NonEmpty's own contract settles one
   * element ([x] gives [x] when x is non-empty and [] otherwise).
   */
  lemma {:induction false} NonEmptyConcat(a: seq<string>, b: seq<string>)
    ensures NonEmpty(a + b) == NonEmpty(a) + NonEmpty(b)
    decreases |a|
  {
    if |a| == 0 {
      assert a + b == b;
    } else {
      assert (a + b)[0] == a[0];
      assert (a + b)[1..] == a[1..] + b;
      NonEmptyConcat(a[1..], b);
    }
  }

  /** The lines of a text that the plugins look at: text.split('\n') without the empty ones. */
  function Lines(text: string): seq<string> {
    NonEmpty(SplitOn(text, '\n'))
  }

  /** C's strtok over a one-character delimiter: the maximal non-empty runs between delimiters. */
  function Tokens(s: string, delim: char): seq<string> {
    NonEmpty(SplitOn(s, delim))
  }

  /** Number of leading characters of s that are not whitespace. */
  function RunLength(s: string): (n: nat)
    ensures n <= |s|
    ensures forall i :: 0 <= i < n ==> !IsSpace(s[i])
    ensures n < |s| ==> IsSpace(s[n])
  {
    if |s| == 0 || IsSpace(s[0]) then 0 else 1 + RunLength(s[1..])
  }

  /** Python's str.split() with no argument: the maximal runs of non-whitespace characters. */
  function Words(s: string): (words: seq<string>)
    decreases |s|
  {
    if |s| == 0 then []
    else if IsSpace(s[0]) then Words(s[1..])
    else
      var n := RunLength(s);
      [s[..n]] + Words(s[n..])
  }

  /** The words joined with nothing between them. */
  function Concat(ws: seq<string>): string
    decreases |ws|
  {
    if |ws| == 0 then [] else ws[0] + Concat(ws[1..])
  }

  /** s with every whitespace character removed. */
  function NoSpaces(s: string): string
    decreases |s|
  {
    if |s| == 0 then [] else (if IsSpace(s[0]) then [] else [s[0]]) + NoSpaces(s[1..])
  }

  predicate Blank(s: string) {
    forall i :: 0 <= i < |s| ==> IsSpace(s[i])
  }

  lemma {:induction false} NoSpacesOfRun(s: string, n: nat)
    requires n <= |s|
    requires forall i :: 0 <= i < n ==> !IsSpace(s[i])
    ensures NoSpaces(s) == s[..n] + NoSpaces(s[n..])
    decreases n
  {
    if n > 0 {
      NoSpacesOfRun(s[1..], n - 1);
      assert s[1..][n - 1..] == s[n..];
      assert s[..n] == [s[0]] + s[1..][..n - 1];
    }
  }

  /**
   * The words of split() are non-empty, hold no whitespace, and together
   * hold every other character of s in order.
   */
  lemma {:induction false} WordsAreWords(s: string)
    ensures forall k :: 0 <= k < |Words(s)| ==> Words(s)[k] != []
    ensures forall k, i :: 0 <= k < |Words(s)| && 0 <= i < |Words(s)[k]| ==> !IsSpace(Words(s)[k][i])
    ensures Concat(Words(s)) == NoSpaces(s)
    decreases |s|
  {
    if |s| > 0 {
      if IsSpace(s[0]) {
        WordsAreWords(s[1..]);
      } else {
        var n := RunLength(s);
        WordsAreWords(s[n..]);
        assert Words(s) == [s[..n]] + Words(s[n..]);
        assert ([s[..n]] + Words(s[n..]))[1..] == Words(s[n..]);
        NoSpacesOfRun(s, n);
      }
    }
  }

  /** split() gives no word exactly when s is all whitespace. */
  lemma {:induction false} WordsOfBlank(s: string)
    ensures Words(s) == [] <==> Blank(s)
    decreases |s|
  {
    if |s| > 0 {
      WordsOfBlank(s[1..]);
      if IsSpace(s[0]) {
        if Blank(s[1..]) {
          forall i | 0 <= i < |s|
            ensures IsSpace(s[i])
          {
            if i > 0 { assert s[i] == s[1..][i - 1]; }
          }
        } else {
          var i :| 0 <= i < |s[1..]| && !IsSpace(s[1..][i]);
          assert !IsSpace(s[i + 1]);
        }
      }
    }
  }

  lemma {:induction false} RunLengthOfRun(w: string, rest: string)
    requires forall i :: 0 <= i < |w| ==> !IsSpace(w[i])
    requires rest == [] || IsSpace(rest[0])
    ensures RunLength(w + rest) == |w|
    decreases |w|
  {
    if |w| == 0 {
      assert w + rest == rest;
    } else {
      assert (w + rest)[0] == w[0];
      assert (w + rest)[1..] == w[1..] + rest;
      RunLengthOfRun(w[1..], rest);
    }
  }

  /**
   * split() takes the maximal runs in order: after leading whitespace g, a
   * run w that ends at whitespace or at the end of the text is the first
   * word, and the words of the rest follow.
   */
  lemma {:induction false} WordsLeadingRun(g: string, w: string, rest: string)
    requires Blank(g) && |w| > 0 && forall i :: 0 <= i < |w| ==> !IsSpace(w[i])
    requires rest == [] || IsSpace(rest[0])
    ensures Words(g + w + rest) == [w] + Words(rest)
    decreases |g|
  {
    var s := g + w + rest;
    if |g| > 0 {
      assert s[0] == g[0];
      assert s[1..] == g[1..] + w + rest;
      WordsLeadingRun(g[1..], w, rest);
    } else {
      assert s == w + rest;
      assert s[0] == w[0];
      RunLengthOfRun(w, rest);
      assert s[..|w|] == w && s[|w|..] == rest;
    }
  }

  /** Number of occurrences of c in s. */
  function Count(s: string, c: char): (n: nat)
    ensures n <= |s|
  {
    if |s| == 0 then 0 else Count(s[..|s| - 1], c) + (if s[|s| - 1] == c then 1 else 0)
  }

  /** C's strncmp(a, b, n) == 0 on NUL-terminated strings a and b, character by character. */
  function StrncmpEqual(a: string, b: string, n: nat): bool
    decreases n
  {
    if n == 0 then true
    else if |a| == 0 || |b| == 0 then |a| == 0 && |b| == 0
    else a[0] == b[0] && StrncmpEqual(a[1..], b[1..], n - 1)
  }

  function Take(s: string, n: nat): string {
    if n <= |s| then s[..n] else s
  }

  /** strncmp(a, b, n) == 0 exactly when the first n characters (or the whole strings, if shorter) agree. */
  lemma {:induction false} StrncmpEqualIsTake(a: string, b: string, n: nat)
    ensures StrncmpEqual(a, b, n) <==> Take(a, n) == Take(b, n)
    decreases n
  {
    if n > 0 && |a| > 0 && |b| > 0 {
      StrncmpEqualIsTake(a[1..], b[1..], n - 1);
      assert Take(a, n) == [a[0]] + Take(a[1..], n - 1);
      assert Take(b, n) == [b[0]] + Take(b[1..], n - 1);
      if Take(a, n) == Take(b, n) {
        assert Take(a, n)[0] == Take(b, n)[0];
        assert Take(a, n)[1..] == Take(a[1..], n - 1);
        assert Take(b, n)[1..] == Take(b[1..], n - 1);
      }
    }
  }

  /** strncmp(s, p, strlen(p)) == 0 exactly when p is a prefix of s. */
  lemma StrncmpPrefix(s: string, p: string)
    ensures StrncmpEqual(s, p, |p|) <==> StartsWith(s, p)
  {
    StrncmpEqualIsTake(s, p, |p|);
  }

  /** C's strcasecmp(a, b) == 0 for ASCII letters. */
  function LowerAscii(c: char): char {
    if 'A' <= c <= 'Z' then (c as int + 32) as char else c
  }

  predicate EqualIgnoringCase(a: string, b: string) {
    |a| == |b| && forall i :: 0 <= i < |a| ==> LowerAscii(a[i]) == LowerAscii(b[i])
  }

  /** Count read from the front. */
  lemma {:induction false} CountFront(s: string, c: char)
    requires |s| > 0
    ensures Count(s, c) == (if s[0] == c then 1 else 0) + Count(s[1..], c)
  {
    if |s| > 1 {
      var n := |s| - 1;
      CountFront(s[..n], c);
      assert s[..n][1..] == s[1..][..n - 1];
    }
  }

  /** Splitting on a separator gives one more part than there are separators. */
  lemma {:induction false} SplitOnCount(s: string, sep: char)
    ensures |SplitOn(s, sep)| == Count(s, sep) + 1
    decreases |s|
  {
    if |s| > 0 {
      SplitOnCount(s[1..], sep);
      CountFront(s, sep);
    }
  }

  /** strtok never yields more tokens than one plus the number of delimiters. */
  lemma TokensFit(s: string, delim: char)
    ensures |Tokens(s, delim)| <= Count(s, delim) + 1
  {
    SplitOnCount(s, delim);
  }
}

/**
 * Python 3's dict: keys are unique and iteration follows insertion order;
 * assigning to an existing key keeps its position, a new key goes to the end.
 */
module OrderedDict {
  import opened Util

  type Dict<K, V> = seq<(K, V)>

  predicate Unique<K(==), V>(d: Dict<K, V>) {
    forall i, j :: 0 <= i < j < |d| ==> d[i].0 != d[j].0
  }

  function Keys<K, V>(d: Dict<K, V>): (ks: seq<K>)
    ensures |ks| == |d| && forall i :: 0 <= i < |d| ==> ks[i] == d[i].0
  {
    if |d| == 0 then [] else Keys(d[..|d| - 1]) + [d[|d| - 1].0]
  }

  /** Position of key k, if present. */
  function Find<K(==), V>(d: Dict<K, V>, k: K): (r: Option<nat>)
    ensures r.Some? ==> r.value < |d| && d[r.value].0 == k
    ensures r.None? <==> forall i :: 0 <= i < |d| ==> d[i].0 != k
  {
    if |d| == 0 then None
    else if d[|d| - 1].0 == k then Some(|d| - 1)
    else Find(d[..|d| - 1], k)
  }

  predicate HasKey<K(==), V>(d: Dict<K, V>, k: K) {
    Find(d, k).Some?
  }

  function Get<K(==), V>(d: Dict<K, V>, k: K): Option<V> {
    match Find(d, k)
    case None => None
    case Some(i) => Some(d[i].1)
  }

  /** d[k] = v */
  function Put<K(==), V>(d: Dict<K, V>, k: K, v: V): (r: Dict<K, V>)
    ensures Unique(d) ==> Unique(r)
    ensures HasKey(d, k) ==> |r| == |d|
    ensures !HasKey(d, k) ==> r == d + [(k, v)]
    ensures forall i :: 0 <= i < |d| ==> r[i].0 == d[i].0
  {
    match Find(d, k)
    case Some(i) => d[i := (k, v)]
    case None => d + [(k, v)]
  }

  lemma FindUnique<K, V>(d: Dict<K, V>, k: K, i: nat)
    requires Unique(d) && i < |d| && d[i].0 == k
    ensures Find(d, k) == Some(i)
  {
  }

  /** After d[k] = v, k maps to v and every other key keeps its value. */
  lemma GetPut<K, V>(d: Dict<K, V>, k: K, v: V, k': K)
    requires Unique(d)
    ensures Get(Put(d, k, v), k') == if k' == k then Some(v) else Get(d, k')
  {
    var r := Put(d, k, v);
    match Find(d, k')
    case None =>
      if k' == k {
        FindUnique(r, k, |d|);
      }
    case Some(j) =>
      FindUnique(r, k', j);
  }
}
