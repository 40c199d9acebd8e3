/**
 * The configuration callback of the LIKWID plugin (likwid_plugin_config,
 * c/likwid.c:777-940): C library conversions (atoi, the truncating casts
 * of Mtime, strchr), the comma-separated lists, and the effect of one
 * key/value pair on the plugin's settings. strtod is not modelled: its
 * result for a string is a parameter.
 */
module LikwidConfig {
  import opened Util
  import opened LikwidMetrics

  /** Number of leading whitespace characters (isspace in the C locale). */
  function LeadingSpaces(s: string): (n: nat)
    ensures n <= |s|
    ensures forall i :: 0 <= i < n ==> IsSpace(s[i])
    ensures n < |s| ==> !IsSpace(s[n])
  {
    if |s| == 0 || !IsSpace(s[0]) then 0 else 1 + LeadingSpaces(s[1..])
  }

  /** Number of leading decimal digits. */
  function DigitRun(s: string): (n: nat)
    ensures n <= |s| && AllDigits(s[..n])
    ensures n < |s| ==> !IsDigit(s[n])
  {
    if |s| == 0 || !IsDigit(s[0]) then 0
    else
      var n := 1 + DigitRun(s[1..]);
      assert s[..n] == [s[0]] + s[1..][..n - 1];
      n
  }

  /**
   * C's atoi: leading whitespace, an optional sign, then the longest run of
   * digits; no digits read as 0. (Overflow is undefined in C and not modelled.)
   */
  function Atoi(s: string): int {
    var t := s[LeadingSpaces(s)..];
    var digits := if |t| > 0 && (t[0] == '-' || t[0] == '+') then t[1..] else t;
    var v: int := DecimalValue(digits[..DigitRun(digits)]);
    if |t| > 0 && t[0] == '-' then -v else v
  }

  /** atoi reads back what a decimal number prints as, with or without a minus sign. */
  lemma AtoiReadsDecimal(n: nat)
    ensures Atoi(NatToString(n)) == n
    ensures Atoi("-" + NatToString(n)) == -(n as int)
  {
    var d := NatToString(n);
    assert !IsSpace(d[0]) && !IsSpace('-');
    assert DigitRun(d) == |d|;
    assert d[..|d|] == d;
    assert ("-" + d)[1..] == d;
  }

  /** C's conversion of a double to an integer type: truncation toward zero. */
  function Trunc(x: real): (r: int)
    ensures x >= 0.0 ==> 0 <= r && r as real <= x < r as real + 1.0
    ensures x < 0.0 ==> r <= 0 && r as real - 1.0 < x <= r as real
  {
    if x >= 0.0 then x.Floor else -((-x).Floor)
  }

  /** Mtime: the seconds and nanoseconds of the measurement time per group. */
  function MtimeOf(seconds: real): (int, int) {
    var sec := Trunc(seconds);
    (sec, Trunc((seconds - sec as real) * 1_000_000_000.0))
  }

  /** A non-negative Mtime splits into whole seconds and fewer than 10^9 nanoseconds, losing less than a nanosecond. */
  lemma MtimeSplits(seconds: real)
    requires seconds >= 0.0
    ensures var (sec, nsec) := MtimeOf(seconds);
            0 <= nsec < 1_000_000_000 &&
            (sec * 1_000_000_000 + nsec) as real <= seconds * 1_000_000_000.0 < (sec * 1_000_000_000 + nsec + 1) as real
  {
  }

  /** The number of list entries the C code allocates for a comma-separated value: one more than its commas. */
  function SlotCount(value: string): (n: nat)
    ensures n == Count(value, ',') + 1
    ensures n >= |Tokens(value, ',')|
  {
    TokensFit(value, ',');
    Count(value, ',') + 1
  }

  /**
   * The list entries as written for PerSocketMetrics and MaxValues: strtok
   * skips empty entries, so an empty value or two adjacent commas allocate
   * more entries than are filled, and the rest are read uninitialized.
   */
  lemma UnfilledSlots()
    ensures SlotCount("a,,b") == 3 && Tokens("a,,b", ',') == ["a", "b"]
    ensures SlotCount("") == 1 && Tokens("", ',') == []
  {
    assert "a,,b"[1..] == ",,b" && ",,b"[1..] == ",b" && ",b"[1..] == "b" && "b"[1..] == "";
    assert SplitOn("", ',') == [[]];
    assert SplitOn("b", ',') == [['b'] + []] + [];
    assert ['b'] + [] == "b";
    assert SplitOn("b", ',') == ["b"];
    assert SplitOn(",b", ',') == ["", "b"];
    assert SplitOn(",,b", ',') == ["", "", "b"];
    assert SplitOn("a,,b", ',') == [['a'] + ""] + ["", "b"];
    assert ['a'] + "" == "a";
    assert SplitOn("a,,b", ',') == ["a", "", "b"];
    assert "a,,b"[..3] == "a,," && "a,,"[..2] == "a," && "a,"[..1] == "a" && "a"[..0] == "";
  }

  /** The counting loop of the Groups, PerSocketMetrics and MaxValues keys. */
  method CountSlots(value: string) returns (n: nat)
    ensures n == SlotCount(value)
  {
    n := 1;
    var i := 0;
    while i < |value|
      invariant 0 <= i <= |value|
      invariant n == Count(value[..i], ',') + 1
    {
      assert value[..i + 1][..i] == value[..i];
      if value[i] == ',' {
        n := n + 1;
      }
      i := i + 1;
    }
    assert value[..i] == value;
  }

  /**
   * The metric groups after the Groups key: one unnamed group per slot, then
   * the names from strtok in order; slots beyond the names stay unnamed.
   */
  function GroupSlots(value: string): (groups: seq<Group>)
    ensures |groups| == SlotCount(value)
  {
    var names := Tokens(value, ',');
    seq(SlotCount(value), i requires 0 <= i < SlotCount(value) => Group(-1, if i < |names| then Some(names[i]) else None, []))
  }

  /** Every name strtok finds lands in its own slot, in order; no group has an id or metrics yet. */
  lemma GroupNamesInOrder(value: string)
    ensures var groups := GroupSlots(value);
            var names := Tokens(value, ',');
            |names| <= |groups| &&
            (forall i :: 0 <= i < |names| ==> groups[i].name == Some(names[i])) &&
            (forall i :: |names| <= i < |groups| ==> groups[i].name == None) &&
            (forall i :: 0 <= i < |groups| ==> groups[i].id == -1 && groups[i].metrics == [])
  {
  }

  /** The loops of the Groups key: initialize every slot, then store the names strtok returns. */
  method NameGroups(value: string) returns (groups: seq<Group>)
    ensures groups == GroupSlots(value)
  {
    hide SplitOn, SlotCount;
    var n := CountSlots(value);
    var slots := new Group[n](_ => Group(-1, None, []));
    var names := Tokens(value, ',');
    var i := 0;
    while i < |names|
      invariant 0 <= i <= |names| <= n
      invariant forall k :: 0 <= k < n ==> slots[k] == Group(-1, if k < i then Some(names[k]) else None, [])
    {
      slots[i] := Group(-1, Some(names[i]), []);
      i := i + 1;
    }
    groups := slots[..];
    ghost var spec := GroupSlots(value);
    assert forall k :: 0 <= k < n ==> groups[k] == spec[k];
  }

  /** strchr: the first position of c in s. */
  function Strchr(s: string, c: char): (r: Option<nat>)
    ensures r.None? <==> c !in s
    ensures r.Some? ==> r.value < |s| && s[r.value] == c && c !in s[..r.value]
  {
    if |s| == 0 then None
    else if s[0] == c then Some(0)
    else match Strchr(s[1..], c)
      case None => None
      case Some(k) => assert s[..k + 1] == [s[0]] + s[1..][..k]; Some(k + 1)
  }

  /** One MaxValues entry "name:value": the name before the first colon, strtod of what follows it. */
  function Entry(token: string, strtod: string -> real): (e: MaxValue)
    requires ':' in token
    ensures ':' !in e.prefix && e.prefix + [':'] <= token
  {
    var k := Strchr(token, ':').value;
    assert token[..k + 1] == token[..k] + [':'];
    MaxValue(token[..k], strtod(token[k + 1..]))
  }

  /** The MaxValues entries read so far, and whether every token had a colon. */
  datatype MaxParse = MaxParse(entries: seq<MaxValue>, ok: bool)

  /**
   * The MaxValues loop: each token becomes an entry; the first token
   * without a colon ends the loop with an error, keeping the entries before it.
   */
  function ParseMaxValues(tokens: seq<string>, strtod: string -> real): (r: MaxParse)
    ensures r.ok ==> |r.entries| == |tokens|
    ensures !r.ok ==> |r.entries| < |tokens| && ':' !in tokens[|r.entries|]
    ensures forall i :: 0 <= i < |r.entries| ==> ':' in tokens[i] && r.entries[i] == Entry(tokens[i], strtod)
  {
    if |tokens| == 0 then MaxParse([], true)
    else
      var n := |tokens| - 1;
      var p := ParseMaxValues(tokens[..n], strtod);
      if !p.ok then p
      else if ':' !in tokens[n] then MaxParse(p.entries, false)
      else MaxParse(p.entries + [Entry(tokens[n], strtod)], true)
  }

  /** The loop succeeds exactly when every token has a colon. */
  lemma MaxValuesOk(tokens: seq<string>, strtod: string -> real)
    ensures ParseMaxValues(tokens, strtod).ok <==> forall i :: 0 <= i < |tokens| ==> ':' in tokens[i]
  {
  }

  /** The tokenizing loop of the MaxValues key, stopping at the first token without a colon. */
  method ReadMaxValues(tokens: seq<string>, strtod: string -> real) returns (entries: seq<MaxValue>, ok: bool)
    ensures MaxParse(entries, ok) == ParseMaxValues(tokens, strtod)
  {
    entries := [];
    var i := 0;
    while i < |tokens|
      invariant 0 <= i <= |tokens|
      invariant MaxParse(entries, true) == ParseMaxValues(tokens[..i], strtod)
    {
      assert tokens[..i + 1][..i] == tokens[..i];
      var sep := Strchr(tokens[i], ':');
      if sep.None? {
        assert tokens[..i + 1] == tokens[..i] + [tokens[i]];
        SkipRest(tokens, strtod, i + 1);
        return entries, false;
      }
      entries := entries + [MaxValue(tokens[i][..sep.value], strtod(tokens[i][sep.value + 1..]))];
      i := i + 1;
    }
    assert tokens[..i] == tokens;
    ok := true;
  }

  /** After the first failing token the result no longer changes. */
  lemma {:induction false} SkipRest(tokens: seq<string>, strtod: string -> real, i: nat)
    requires i <= |tokens| && !ParseMaxValues(tokens[..i], strtod).ok
    ensures ParseMaxValues(tokens, strtod) == ParseMaxValues(tokens[..i], strtod)
  {
    if i < |tokens| {
      var n := |tokens| - 1;
      assert tokens[..n][..i] == tokens[..i];
      SkipRest(tokens[..n], strtod, i);
    } else {
      assert tokens[..i] == tokens;
    }
  }

  /** The settings the configuration callback writes. */
  datatype Settings = Settings(
    normalizeFlops: bool,
    flopsName: string,
    accessMode: int,
    mTimeSec: int,
    mTimeNsec: int,
    summarizePerCore: bool,
    verbose: int,
    groups: seq<Group>,
    perSocketMetrics: seq<string>,
    maxValues: seq<MaxValue>)

  /** The values of the static variables before any configuration. */
  function InitialSettings(): Settings {
    Settings(false, "flops_any", 0, 10, 0, false, 1, [], [], [])
  }

  /** The keys likwid_plugin_config knows, compared ignoring case. */
  predicate KnownKey(key: string) {
    EqualIgnoringCase(key, "NormalizeFlops") || EqualIgnoringCase(key, "AccessMode") ||
    EqualIgnoringCase(key, "Mtime") || EqualIgnoringCase(key, "PerCore") ||
    EqualIgnoringCase(key, "Verbose") || EqualIgnoringCase(key, "Groups") ||
    EqualIgnoringCase(key, "PerSocketMetrics") || EqualIgnoringCase(key, "MaxValues")
  }

  datatype ConfigResult = ConfigResult(settings: Settings, status: int)

  /**
   * One call of likwid_plugin_config: the new settings and the status
   * (0 accepted, 1 a bad MaxValues value, -1 an unknown key). The per-socket
   * names and the MaxValues entries are stored without unfilled slots.
   */
  function ApplyConfig(s: Settings, key: string, value: string, strtod: string -> real): ConfigResult {
    if EqualIgnoringCase(key, "NormalizeFlops") then ConfigResult(s.(normalizeFlops := true, flopsName := value), 0)
    else if EqualIgnoringCase(key, "AccessMode") then ConfigResult(s.(accessMode := Atoi(value)), 0)
    else if EqualIgnoringCase(key, "Mtime") then
      var t := MtimeOf(strtod(value));
      ConfigResult(s.(mTimeSec := t.0, mTimeNsec := t.1), 0)
    else if EqualIgnoringCase(key, "PerCore") then ConfigResult(s.(summarizePerCore := true), 0)
    else if EqualIgnoringCase(key, "Verbose") then ConfigResult(s.(verbose := Atoi(value)), 0)
    else if EqualIgnoringCase(key, "Groups") then ConfigResult(s.(groups := GroupSlots(value)), 0)
    else if EqualIgnoringCase(key, "PerSocketMetrics") then ConfigResult(s.(perSocketMetrics := Tokens(value, ',')), 0)
    else if EqualIgnoringCase(key, "MaxValues") then
      if |value| == 0 then ConfigResult(s, 1)
      else
        var p := ParseMaxValues(Tokens(value, ','), strtod);
        ConfigResult(s.(maxValues := p.entries), if p.ok then 0 else 1)
    else ConfigResult(s, -1)
  }

  /**
   * The status: -1 exactly for an unknown key, which changes nothing; 1 only
   * for MaxValues with an empty value or an entry without a colon; else 0.
   */
  lemma ConfigStatus(s: Settings, key: string, value: string, strtod: string -> real)
    ensures var r := ApplyConfig(s, key, value, strtod);
            (r.status == -1 <==> !KnownKey(key)) &&
            (r.status == -1 ==> r.settings == s) &&
            (r.status == 1 <==>
               (EqualIgnoringCase(key, "MaxValues") && (|value| == 0 || exists t :: t in Tokens(value, ',') && ':' !in t))) &&
            r.status in {-1, 0, 1}
  {
    hide GroupSlots, MtimeOf, Atoi;
    var r := ApplyConfig(s, key, value, strtod);
    if EqualIgnoringCase(key, "MaxValues") {
      // the other known keys have other lengths
      assert |key| == 9;
      if |value| > 0 {
        var toks := Tokens(value, ',');
        var p := ParseMaxValues(toks, strtod);
        MaxValuesOk(toks, strtod);
        if !p.ok {
          assert toks[|p.entries|] in toks;
        }
      }
    }
  }

  /**
   * PerSocketMetrics as intended: exactly the names strtok finds are stored,
   * each non-empty and without a comma, and there are at most as many as
   * the slots the C code counts.
   */
  lemma PerSocketMetricsFilled(s: Settings, key: string, value: string, strtod: string -> real)
    requires EqualIgnoringCase(key, "PerSocketMetrics")
    ensures var r := ApplyConfig(s, key, value, strtod);
            r.status == 0 && r.settings == s.(perSocketMetrics := Tokens(value, ',')) &&
            |r.settings.perSocketMetrics| <= SlotCount(value) &&
            forall i :: 0 <= i < |r.settings.perSocketMetrics| ==>
              r.settings.perSocketMetrics[i] != [] && ',' !in r.settings.perSocketMetrics[i]
  {
    PerSocketBranch(s, key, value, strtod);
    TokensHaveNoSeparator(value, ',');
    assert |Tokens(value, ',')| <= SlotCount(value);
  }

  lemma PerSocketBranch(s: Settings, key: string, value: string, strtod: string -> real)
    requires EqualIgnoringCase(key, "PerSocketMetrics")
    ensures ApplyConfig(s, key, value, strtod) == ConfigResult(s.(perSocketMetrics := Tokens(value, ',')), 0)
  {
    hide Tokens, GroupSlots, MtimeOf, Atoi, ParseMaxValues;
    // the other known keys have other lengths
    assert |key| == 16;
  }

  /** The tokens strtok yields are non-empty and hold no separator. */
  lemma TokensHaveNoSeparator(value: string, c: char)
    ensures forall i :: 0 <= i < |Tokens(value, c)| ==> Tokens(value, c)[i] != [] && c !in Tokens(value, c)[i]
  {
    var parts := SplitOn(value, c);
    var toks := Tokens(value, c);
    JoinSplitOn(value, c);
    forall i | 0 <= i < |toks|
      ensures c !in toks[i]
    {
      assert toks[i] in parts;
      var k :| 0 <= k < |parts| && parts[k] == toks[i];
    }
  }

  lemma EqualIgnoringCaseTransitive(a: string, b: string, c: string)
    requires EqualIgnoringCase(a, b) && EqualIgnoringCase(b, c)
    ensures EqualIgnoringCase(a, c)
  {
  }

  /** Keys are case-insensitive: keys that differ only in the case of letters have the same effect. */
  lemma KeysIgnoreCase(s: Settings, key: string, key': string, value: string, strtod: string -> real)
    requires EqualIgnoringCase(key, key')
    ensures ApplyConfig(s, key, value, strtod) == ApplyConfig(s, key', value, strtod)
  {
    forall k | k in ["NormalizeFlops", "AccessMode", "Mtime", "PerCore", "Verbose", "Groups", "PerSocketMetrics", "MaxValues"]
      ensures EqualIgnoringCase(key, k) <==> EqualIgnoringCase(key', k)
    {
      if EqualIgnoringCase(key, k) {
        EqualIgnoringCaseTransitive(key', key, k);
      }
      if EqualIgnoringCase(key', k) {
        EqualIgnoringCaseTransitive(key, key', k);
      }
    }
  }
}
