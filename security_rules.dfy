/**
 * The risk engine of the validation service: flags are matched by prefix
 * against a forbidden table and a warning table, targets are sorted into safe
 * test targets, IPv4 addresses or prefixes (unsafe when they overlap a blocked
 * range) and domain names, and a clamped weighted score, a risk level, an
 * `allowed` verdict and a recommendation follow.
 */
module Security {
  import opened Text
  import opened Ipv4

  /** One row of a flag table: a flag prefix and the reason reported for it. */
  datatype FlagRule = FlagRule(flag: string, reason: string)

  /** A flag of the command that starts with a table row's flag. */
  datatype FlagHit = FlagHit(flag: string, reason: string)

  const ForbiddenFlags: seq<FlagRule> := [
    FlagRule("--script", "Script execution not allowed"),
    FlagRule("-sC", "Default script execution not allowed"),
    FlagRule("-oN", "File output not allowed"),
    FlagRule("-oX", "XML output not allowed"),
    FlagRule("-oG", "Grepable output not allowed"),
    FlagRule("-oA", "All format output not allowed"),
    FlagRule("--stylesheet", "Stylesheet loading not allowed"),
    FlagRule("--osscan-guess", "Aggressive OS detection not allowed"),
    FlagRule("--badsum", "Invalid checksum scanning not allowed"),
    FlagRule("-T5", "Insane timing template not allowed (may cause network issues)")
  ]

  const WarningFlags: seq<FlagRule> := [
    FlagRule("-A", "Aggressive scan (OS detection, version detection, script scanning, traceroute)"),
    FlagRule("-sS", "SYN stealth scan (requires root privileges)"),
    FlagRule("-sU", "UDP scan (slow and resource intensive)"),
    FlagRule("-O", "OS detection (requires root privileges)"),
    FlagRule("-T4", "Aggressive timing (may be detected by IDS/IPS)"),
    FlagRule("--traceroute", "Traceroute enabled"),
    FlagRule("-sV", "Service version detection"),
    FlagRule("-p-", "Scanning all 65535 ports (very slow)")
  ]

  /** Multicast and reserved space. */
  const UnsafeRanges: seq<string> := ["224.0.0.0/4", "240.0.0.0/4"]

  const SafeTestTargets: seq<string> := ["scanme.nmap.org", "scanme.org"]

  /** The severity each kind of finding carries in the evaluation. */
  const ViolationSeverity := "critical"
  const WarningSeverity := "warning"
  const UnsafeTargetSeverity := "high"

  // ---- the flag tables as dictionaries ----

  function Keys(table: seq<FlagRule>): seq<string>
  {
    seq(|table|, i requires 0 <= i < |table| => table[i].flag)
  }

  /** `table[key]`, or None when the key is absent. */
  function Lookup(table: seq<FlagRule>, key: string): Option<string>
    decreases |table|
  {
    if |table| == 0 then None
    else if table[0].flag == key then Some(table[0].reason)
    else Lookup(table[1..], key)
  }

  /** `table[rule.flag] = rule.reason`: an existing key keeps its place, a new one goes last. */
  function SetReason(table: seq<FlagRule>, rule: FlagRule): (r: seq<FlagRule>)
    decreases |table|
  {
    if |table| == 0 then [rule]
    else if table[0].flag == rule.flag then [rule] + table[1..]
    else [table[0]] + SetReason(table[1..], rule)
  }

  /** `table.update(custom)`, the custom rows applied in order. */
  function UpdateTable(table: seq<FlagRule>, custom: seq<FlagRule>): seq<FlagRule>
    decreases |custom|
  {
    if |custom| == 0 then table else UpdateTable(SetReason(table, custom[0]), custom[1..])
  }

  lemma {:induction false} SetReasonLookup(table: seq<FlagRule>, rule: FlagRule, key: string)
    ensures Lookup(SetReason(table, rule), key) == if key == rule.flag then Some(rule.reason) else Lookup(table, key)
    ensures |Keys(table)| <= |Keys(SetReason(table, rule))| && Keys(table) == Keys(SetReason(table, rule))[..|table|]
    decreases |table|
  {
    if |table| > 0 && table[0].flag != rule.flag {
      SetReasonLookup(table[1..], rule, key);
    }
    SetReasonKeys(table, rule);
  }

  /** Setting a reason keeps every existing key in its place. */
  lemma {:induction false} SetReasonKeys(table: seq<FlagRule>, rule: FlagRule)
    ensures |table| <= |SetReason(table, rule)|
    ensures forall i :: 0 <= i < |table| ==> SetReason(table, rule)[i].flag == table[i].flag
    ensures Keys(table) == Keys(SetReason(table, rule))[..|table|]
    decreases |table|
  {
    if |table| > 0 && table[0].flag != rule.flag {
      SetReasonKeys(table[1..], rule);
      var r := SetReason(table, rule);
      assert r[1..] == SetReason(table[1..], rule);
      forall i | 0 <= i < |table|
        ensures r[i].flag == table[i].flag
      {
        if i > 0 {
          assert r[i] == r[1..][i - 1];
        }
      }
    }
  }

  /** The last reason `custom` gives for a key. */
  function LastReason(custom: seq<FlagRule>, key: string): Option<string>
    decreases |custom|
  {
    if |custom| == 0 then None
    else if custom[|custom| - 1].flag == key then Some(custom[|custom| - 1].reason)
    else LastReason(custom[..|custom| - 1], key)
  }

  /**
   * Dictionary update: a key given by the custom rows takes the last reason they
   * give it, every other key keeps its reason, and the original keys keep their
   * places at the front.
   */
  lemma {:induction false} UpdateTableLookup(table: seq<FlagRule>, custom: seq<FlagRule>, key: string)
    ensures Lookup(UpdateTable(table, custom), key) ==
      match LastReason(custom, key) case Some(r) => Some(r) case None => Lookup(table, key)
    ensures |table| <= |UpdateTable(table, custom)| && Keys(table) == Keys(UpdateTable(table, custom))[..|table|]
    decreases |custom|
  {
    if |custom| > 0 {
      var t1 := SetReason(table, custom[0]);
      SetReasonLookup(table, custom[0], key);
      UpdateTableLookup(t1, custom[1..], key);
      LastReasonSplit(custom, key);
      var u := UpdateTable(t1, custom[1..]);
      assert |Keys(table)| == |table| && |Keys(t1)| == |t1|;
      assert Keys(table) == Keys(t1)[..|table|];
      assert Keys(t1) == Keys(u)[..|t1|];
      assert Keys(u)[..|t1|][..|table|] == Keys(u)[..|table|];
    }
  }

  lemma {:induction false} LastReasonSplit(custom: seq<FlagRule>, key: string)
    requires |custom| > 0
    ensures LastReason(custom, key) ==
      match LastReason(custom[1..], key)
      case Some(r) => Some(r)
      case None => if custom[0].flag == key then Some(custom[0].reason) else None
    decreases |custom|
  {
    if |custom| > 1 && custom[|custom| - 1].flag != key {
      var init := custom[..|custom| - 1];
      LastReasonSplit(init, key);
      assert init[1..] == custom[1..][..|custom[1..]| - 1];
      assert init[0] == custom[0];
    }
  }

  // ---- flags ----

  /** The hits of one flag against a table, in table order. */
  function RuleHits(flag: string, table: seq<FlagRule>): seq<FlagHit>
    decreases |table|
  {
    if |table| == 0 then []
    else
      var last := table[|table| - 1];
      RuleHits(flag, table[..|table| - 1]) +
      (if StartsWith(flag, last.flag) then [FlagHit(flag, last.reason)] else [])
  }

  /** One hit per (flag, row) pair where the flag starts with the row's flag, flags outermost. */
  function FlagHits(flags: seq<string>, table: seq<FlagRule>): seq<FlagHit>
    decreases |flags|
  {
    if |flags| == 0 then []
    else FlagHits(flags[..|flags| - 1], table) + RuleHits(flags[|flags| - 1], table)
  }

  predicate Matches(flag: string, table: seq<FlagRule>)
  {
    exists j :: 0 <= j < |table| && StartsWith(flag, table[j].flag)
  }

  lemma {:induction false} RuleHitsEmptyIff(flag: string, table: seq<FlagRule>)
    ensures |RuleHits(flag, table)| == 0 <==> !Matches(flag, table)
    decreases |table|
  {
    if |table| > 0 {
      var init := table[..|table| - 1];
      RuleHitsEmptyIff(flag, init);
      if Matches(flag, init) {
        var j :| 0 <= j < |init| && StartsWith(flag, init[j].flag);
        assert table[j] == init[j];
      }
      if Matches(flag, table) && !Matches(flag, init) {
        var j :| 0 <= j < |table| && StartsWith(flag, table[j].flag);
        assert j == |table| - 1;
      }
    }
  }

  /** There is no hit exactly when no flag starts with any row's flag. */
  lemma {:induction false} FlagHitsEmptyIff(flags: seq<string>, table: seq<FlagRule>)
    ensures |FlagHits(flags, table)| == 0 <==> forall i :: 0 <= i < |flags| ==> !Matches(flags[i], table)
    decreases |flags|
  {
    if |flags| > 0 {
      var init := flags[..|flags| - 1];
      FlagHitsEmptyIff(init, table);
      RuleHitsEmptyIff(flags[|flags| - 1], table);
      assert forall i :: 0 <= i < |init| ==> init[i] == flags[i];
    }
  }

  /** No row's flag is a prefix of another row's flag. */
  predicate PrefixFree(table: seq<FlagRule>)
  {
    forall i, j :: 0 <= i < |table| && 0 <= j < |table| && i != j ==> !StartsWith(table[i].flag, table[j].flag)
  }

  /** `b` is not a prefix of `a` as far as place `k` shows: `b` reaches it and `a` stops short of it or differs there. */
  predicate DifferAt(a: string, b: string, k: nat)
  {
    k < |b| && (k >= |a| || a[k] != b[k])
  }

  /** A table is prefix-free when any two of its flags already part within their first four characters. */
  lemma PrefixFreeByEarlyDifference(table: seq<FlagRule>)
    requires forall i, j :: 0 <= i < |table| && 0 <= j < |table| && i != j ==>
      DifferAt(table[i].flag, table[j].flag, 1) || DifferAt(table[i].flag, table[j].flag, 2) || DifferAt(table[i].flag, table[j].flag, 3)
    ensures PrefixFree(table)
  {
    forall i, j | 0 <= i < |table| && 0 <= j < |table| && i != j
      ensures !StartsWith(table[i].flag, table[j].flag)
    {
      var a, b := table[i].flag, table[j].flag;
      if StartsWith(a, b) {
        forall k | 0 <= k < |b| ensures a[k] == b[k] {
          assert a[..|b|][k] == a[k];
        }
      }
    }
  }

  /** Both built-in tables are prefix-free, so each matching flag is reported once. */
  lemma BuiltInTablesPrefixFree()
    ensures PrefixFree(ForbiddenFlags) && PrefixFree(WarningFlags)
  {
    PrefixFreeByEarlyDifference(ForbiddenFlags);
    PrefixFreeByEarlyDifference(WarningFlags);
  }

  /** The number of flags that start with some row's flag. */
  function MatchedFlags(flags: seq<string>, table: seq<FlagRule>): nat
    decreases |flags|
  {
    if |flags| == 0 then 0
    else MatchedFlags(flags[..|flags| - 1], table) + (if Matches(flags[|flags| - 1], table) then 1 else 0)
  }

  lemma PrefixFreeInit(table: seq<FlagRule>)
    requires |table| > 0 && PrefixFree(table)
    ensures PrefixFree(table[..|table| - 1])
  {
    var init := table[..|table| - 1];
    forall i, j | 0 <= i < |init| && 0 <= j < |init| && i != j
      ensures !StartsWith(init[i].flag, init[j].flag)
    {
      assert init[i] == table[i] && init[j] == table[j];
    }
  }

  lemma MatchesInit(flag: string, table: seq<FlagRule>)
    requires |table| > 0
    ensures Matches(flag, table) <==>
      Matches(flag, table[..|table| - 1]) || StartsWith(flag, table[|table| - 1].flag)
  {
    var init := table[..|table| - 1];
    if Matches(flag, init) {
      var j :| 0 <= j < |init| && StartsWith(flag, init[j].flag);
      assert table[j] == init[j];
    }
    if Matches(flag, table) {
      var j :| 0 <= j < |table| && StartsWith(flag, table[j].flag);
      if j < |init| {
        assert table[j] == init[j];
      }
    }
  }

  lemma {:induction false} RuleHitsAtMostOne(flag: string, table: seq<FlagRule>)
    requires PrefixFree(table)
    ensures |RuleHits(flag, table)| == if Matches(flag, table) then 1 else 0
    decreases |table|
  {
    if |table| > 0 {
      var init := table[..|table| - 1];
      var last := table[|table| - 1];
      PrefixFreeInit(table);
      RuleHitsAtMostOne(flag, init);
      MatchesInit(flag, table);
      if Matches(flag, init) && StartsWith(flag, last.flag) {
        var j :| 0 <= j < |init| && StartsWith(flag, init[j].flag);
        // both row flags are prefixes of the same flag, so one is a prefix of the other
        assert table[j] == init[j];
        PrefixesNest(flag, init[j].flag, last.flag);
        assert false;
      }
    }
  }

  lemma PrefixesNest(s: string, p: string, q: string)
    requires StartsWith(s, p) && StartsWith(s, q)
    ensures StartsWith(p, q) || StartsWith(q, p)
  {
    if |q| <= |p| {
      assert p[..|q|] == s[..|p|][..|q|] == s[..|q|];
    } else {
      assert q[..|p|] == s[..|q|][..|p|] == s[..|p|];
    }
  }

  /** With a prefix-free table every flag yields at most one hit, so the hits count the matching flags. */
  lemma {:induction false} PrefixFreeHitCount(flags: seq<string>, table: seq<FlagRule>)
    requires PrefixFree(table)
    ensures |FlagHits(flags, table)| == MatchedFlags(flags, table)
    decreases |flags|
  {
    if |flags| > 0 {
      PrefixFreeHitCount(flags[..|flags| - 1], table);
      RuleHitsAtMostOne(flags[|flags| - 1], table);
    }
  }

  /** The shared loop of `check_forbidden_flags` and `check_warning_flags`. */
  method CollectHits(flags: seq<string>, table: seq<FlagRule>) returns (hits: seq<FlagHit>)
    ensures hits == FlagHits(flags, table)
  {
    hits := [];
    var i := 0;
    while i < |flags|
      invariant 0 <= i <= |flags|
      invariant hits == FlagHits(flags[..i], table)
    {
      var j := 0;
      while j < |table|
        invariant 0 <= j <= |table|
        invariant hits == FlagHits(flags[..i], table) + RuleHits(flags[i], table[..j])
      {
        assert table[..j + 1][..j] == table[..j];
        if StartsWith(flags[i], table[j].flag) {
          hits := hits + [FlagHit(flags[i], table[j].reason)];
        }
        j := j + 1;
      }
      assert table[..j] == table;
      assert flags[..i + 1][..i] == flags[..i];
      i := i + 1;
    }
    assert flags[..i] == flags;
  }

  // ---- targets ----

  /** `target.lower()` is one of the safe test targets, lower-cased. */
  predicate IsSafeTestTarget(target: string)
  {
    exists i :: 0 <= i < |SafeTestTargets| && Lower(target) == Lower(SafeTestTargets[i])
  }

  /** Regex `$`: the end of the text, or just before a final newline. */
  predicate AtEnd(s: string)
  {
    |s| == 0 || s == "\n"
  }

  /** Optional `/` with one or two digits, then `$`. */
  predicate PrefixTail(s: string)
  {
    AtEnd(s) ||
    (|s| > 0 && s[0] == '/' &&
     var m := Span(s[1..], IsDigit);
     1 <= m <= 2 && AtEnd(s[1 + m..]))
  }

  /** `(\d{1,3}\.){k}\d{1,3}(\/\d{1,2})?$` matched at the start of `s`. */
  predicate DottedFrom(s: string, k: nat)
    decreases k
  {
    var n := Span(s, IsDigit);
    1 <= n <= 3 &&
    if k > 0 then n < |s| && s[n] == '.' && DottedFrom(s[n + 1..], k - 1)
    else PrefixTail(s[n..])
  }

  /** The target pattern `^(\d{1,3}\.){3}\d{1,3}(\/\d{1,2})?$`. */
  predicate IpShaped(target: string)
  {
    DottedFrom(target, 3)
  }

  /**
   * `is_ip_in_unsafe_range`: the reason for the first blocked range the target's
   * network overlaps, or None, which stands for both "overlaps none" and the
   * ValueError of an unparsable target or range.
   */
  function UnsafeRangeOf(ranges: seq<string>, ip: string): Option<string>
  {
    var net :=
      if Contains(ip, "/") then ParseNetwork(ip, false)
      else if ParseAddress(ip).Some? then ParseNetwork(ip + "/32", false)
      else None;
    match net
    case None => None
    case Some(n) => FirstOverlap(n, ranges)
  }

  function FirstOverlap(n: Network, ranges: seq<string>): Option<string>
    requires ValidNetwork(n)
    decreases |ranges|
  {
    if |ranges| == 0 then None
    else match ParseNetwork(ranges[0], true)
      case None => None
      case Some(blocked) =>
        if Overlaps(n, blocked) then Some("Target in restricted range: " + ranges[0])
        else FirstOverlap(n, ranges[1..])
  }

  datatype TargetStatus = SafeTestTarget | Allowed | DomainAllowed
  datatype Verdict = Safe(status: TargetStatus) | Unsafe(reason: string)

  datatype SafeTarget = SafeTarget(target: string, status: TargetStatus)
  datatype UnsafeTarget = UnsafeTarget(target: string, reason: string)

  function ClassifyTarget(ranges: seq<string>, target: string): Verdict
  {
    if IsSafeTestTarget(target) then Safe(SafeTestTarget)
    else if IpShaped(target) then
      match UnsafeRangeOf(ranges, target)
      case Some(reason) => Unsafe(reason)
      case None => Safe(Allowed)
    else Safe(DomainAllowed)
  }

  /** The unsafe targets, in order, under a given classification. */
  function UnsafeOf(targets: seq<string>, verdict: string -> Verdict): seq<UnsafeTarget>
    decreases |targets|
  {
    if |targets| == 0 then []
    else
      var t := targets[|targets| - 1];
      UnsafeOf(targets[..|targets| - 1], verdict) +
      match verdict(t)
      case Unsafe(reason) => [UnsafeTarget(t, reason)]
      case Safe(_) => []
  }

  /** The safe targets with their status, in order, under a given classification. */
  function SafeOf(targets: seq<string>, verdict: string -> Verdict): seq<SafeTarget>
    decreases |targets|
  {
    if |targets| == 0 then []
    else
      var t := targets[|targets| - 1];
      SafeOf(targets[..|targets| - 1], verdict) +
      match verdict(t)
      case Unsafe(_) => []
      case Safe(status) => [SafeTarget(t, status)]
  }

  function UnsafeTargets(ranges: seq<string>, targets: seq<string>): seq<UnsafeTarget>
  {
    UnsafeOf(targets, t => ClassifyTarget(ranges, t))
  }

  function SafeTargets(ranges: seq<string>, targets: seq<string>): seq<SafeTarget>
  {
    SafeOf(targets, t => ClassifyTarget(ranges, t))
  }

  /** The loop of `check_targets`: each target goes to one list or the other, in order. */
  method SortTargets(targets: seq<string>, verdict: string -> Verdict) returns (unsafe: seq<UnsafeTarget>, safe: seq<SafeTarget>)
    ensures unsafe == UnsafeOf(targets, verdict)
    ensures safe == SafeOf(targets, verdict)
  {
    unsafe, safe := [], [];
    var i := 0;
    while i < |targets|
      invariant 0 <= i <= |targets|
      invariant unsafe == UnsafeOf(targets[..i], verdict)
      invariant safe == SafeOf(targets[..i], verdict)
    {
      var t := targets[i];
      assert targets[..i + 1][..i] == targets[..i];
      match verdict(t) {
        case Unsafe(reason) =>
          unsafe := unsafe + [UnsafeTarget(t, reason)];
        case Safe(status) =>
          safe := safe + [SafeTarget(t, status)];
      }
      i := i + 1;
    }
    assert targets[..i] == targets;
  }

  /** Every target lands in exactly one of the two lists. */
  lemma {:induction false} Partitioned(targets: seq<string>, verdict: string -> Verdict)
    ensures |UnsafeOf(targets, verdict)| + |SafeOf(targets, verdict)| == |targets|
    ensures |UnsafeOf(targets, verdict)| == 0 <==> forall i :: 0 <= i < |targets| ==> verdict(targets[i]).Safe?
    decreases |targets|
  {
    if |targets| > 0 {
      var init := targets[..|targets| - 1];
      Partitioned(init, verdict);
      assert forall i :: 0 <= i < |init| ==> init[i] == targets[i];
    }
  }

  lemma TargetsPartitioned(ranges: seq<string>, targets: seq<string>)
    ensures |UnsafeTargets(ranges, targets)| + |SafeTargets(ranges, targets)| == |targets|
    ensures |UnsafeTargets(ranges, targets)| == 0 <==>
      forall i :: 0 <= i < |targets| ==> ClassifyTarget(ranges, targets[i]).Safe?
  {
    Partitioned(targets, t => ClassifyTarget(ranges, t));
  }

  lemma SlashFourSplit(addr: string)
    requires '/' !in addr
    ensures SplitOn(addr + "/4", '/') == [addr, "4"]
  {
    assert addr + "/4" == addr + ['/'] + "4";
    SplitOnCons(addr, "4", '/');
    SplitOnNone("4", '/');
  }

  lemma ZerosSplit(octet: string)
    requires '.' !in octet
    ensures SplitOn(octet + ".0.0.0", '.') == [octet, "0", "0", "0"]
  {
    assert octet + ".0.0.0" == octet + ['.'] + "0.0.0";
    assert "0.0.0" == "0" + ['.'] + "0.0";
    assert "0.0" == "0" + ['.'] + "0";
    SplitOnNone("0", '.');
    SplitOnCons("0", "0", '.');
    SplitOnCons("0", "0.0", '.');
    SplitOnCons(octet, "0.0.0", '.');
  }

  /** The two built-in first octets, 224 and 240, with the address they start. */
  predicate HighOctet(y: char, z: char, hi: nat)
  {
    (y == '2' && z == '4' && hi == 0xE000_0000) || (y == '4' && z == '0' && hi == 0xF000_0000)
  }

  lemma HighAddress(y: char, z: char, hi: nat)
    requires HighOctet(y, z, hi)
    ensures ParseAddress(['2', y, z] + ".0.0.0") == Some(hi)
  {
    var octet := ['2', y, z];
    ZerosSplit(octet);
    DigitsValue3('2', y, z);
    DigitsValue1('0');
    assert AllDigits(octet) && AllDigits("0");
    assert ParseOctet(octet) == Some(hi / 0x100_0000);
    assert ParseOctet("0") == Some(0);
  }

  lemma ParseSlashFour(y: char, z: char, hi: nat)
    requires HighOctet(y, z, hi)
    ensures ParseNetwork(['2', y, z] + ".0.0.0" + "/4", true) == Some(Network(hi, 4))
  {
    var addr := ['2', y, z] + ".0.0.0";
    SlashFourSplit(addr);
    HighAddress(y, z, hi);
    DigitsValue1('4');
    assert AllDigits("4");
    assert ParsePrefix("4") == Some(4);
    HighAligned(y, z, hi);
  }

  /** 224.0.0.0 and 240.0.0.0 have no host bits set under a /4 mask. */
  lemma HighAligned(y: char, z: char, hi: nat)
    requires HighOctet(y, z, hi)
    ensures Masked(hi, 4) == hi
  {
    Pow2Values();
    var k := if y == '2' then 14 else 15;
    TimesIsProduct(k, 0x1000_0000);
    QuotUnique(hi, 0x1000_0000, k);
  }

  lemma MulticastRangeParses()
    ensures ParseNetwork("224.0.0.0/4", true) == Some(Network(0xE000_0000, 4))
  {
    ParseSlashFour('2', '4', 0xE000_0000);
    assert "224.0.0.0/4" == ['2', '2', '4'] + ".0.0.0" + "/4";
  }

  lemma ReservedRangeParses()
    ensures ParseNetwork("240.0.0.0/4", true) == Some(Network(0xF000_0000, 4))
  {
    ParseSlashFour('4', '0', 0xF000_0000);
    assert "240.0.0.0/4" == ['2', '4', '0'] + ".0.0.0" + "/4";
  }

  /** The built-in ranges, parsed: 224.0.0.0/4 and 240.0.0.0/4. */
  lemma BuiltInRangesParse()
    ensures ParseNetwork(UnsafeRanges[0], true) == Some(Network(0xE000_0000, 4))
    ensures ParseNetwork(UnsafeRanges[1], true) == Some(Network(0xF000_0000, 4))
  {
    MulticastRangeParses();
    ReservedRangeParses();
  }

  /** A target block no larger than a /4 is blocked exactly when it starts at 224.0.0.0 or above. */
  lemma SmallBlockBlocked(n: Network, m: Network, r: Network)
    requires ValidNetwork(n) && n.prefix > 4
    requires m == Network(0xE000_0000, 4) && r == Network(0xF000_0000, 4)
    requires ValidNetwork(m) && ValidNetwork(r) && BlockSize(4) == 0x1000_0000
    requires Broadcast(n) < 0x1_0000_0000
    ensures (Overlaps(n, m) || Overlaps(n, r)) <==> Broadcast(n) >= 0xE000_0000
  {
    OverlapsIffShorterContains(n, m);
    OverlapsIffShorterContains(n, r);
    InNetworkRange(n.base, m);
    InNetworkRange(n.base, r);
    if n.base < m.base {
      NestedBlocks(m, n);
    }
  }

  /** A target block at least as large as a /4 is blocked exactly when it reaches 224.0.0.0. */
  lemma LargeBlockBlocked(n: Network, m: Network, r: Network)
    requires ValidNetwork(n) && n.prefix <= 4
    requires m == Network(0xE000_0000, 4) && r == Network(0xF000_0000, 4)
    requires ValidNetwork(m) && ValidNetwork(r) && BlockSize(4) == 0x1000_0000
    requires Broadcast(n) < 0x1_0000_0000
    ensures (Overlaps(n, m) || Overlaps(n, r)) <==> Broadcast(n) >= 0xE000_0000
  {
    OverlapsIffShorterContains(n, m);
    OverlapsIffShorterContains(n, r);
    InNetworkRange(m.base, n);
    InNetworkRange(r.base, n);
    if m.base < n.base {
      NestedBlocks(n, m);
      if r.base < n.base {
        NestedBlocks(n, r);
      }
    }
  }

  /**
   * With the built-in ranges, a target network is blocked exactly when its
   * highest address is at least 224.0.0.0: the two blocked /4 blocks together
   * cover 224.0.0.0 to 255.255.255.255.
   */
  lemma BlockedIffReachesMulticast(n: Network)
    requires ValidNetwork(n) && Broadcast(n) < 0x1_0000_0000
    ensures FirstOverlap(n, UnsafeRanges).Some? <==> Broadcast(n) >= 0xE000_0000
  {
    var m, r := Network(0xE000_0000, 4), Network(0xF000_0000, 4);
    BuiltInRangesParse();
    FirstOverlapPair(n, UnsafeRanges[0], UnsafeRanges[1], m, r);
    assert UnsafeRanges == [UnsafeRanges[0], UnsafeRanges[1]];
    Pow2Values();
    if n.prefix <= 4 {
      LargeBlockBlocked(n, m, r);
    } else {
      SmallBlockBlocked(n, m, r);
    }
  }

  /** Two well-formed blocked ranges: blocked exactly when either one overlaps. */
  lemma FirstOverlapPair(n: Network, a: string, b: string, na: Network, nb: Network)
    requires ValidNetwork(n)
    requires ParseNetwork(a, true) == Some(na) && ParseNetwork(b, true) == Some(nb)
    ensures FirstOverlap(n, [a, b]).Some? <==> Overlaps(n, na) || Overlaps(n, nb)
  {
    FirstOverlapHead(n, [a, b], na);
    assert [a, b][1..] == [b];
    FirstOverlapHead(n, [b], nb);
    assert [b][1..] == [];
  }

  lemma FirstOverlapHead(n: Network, ranges: seq<string>, blocked: Network)
    requires ValidNetwork(n) && |ranges| > 0
    requires ParseNetwork(ranges[0], true) == Some(blocked)
    ensures FirstOverlap(n, ranges).Some? <==> Overlaps(n, blocked) || FirstOverlap(n, ranges[1..]).Some?
  {
  }

  // ---- the evaluation ----

  datatype RiskLevel = Low | Medium | High | Critical

  function LevelOf(score: int): RiskLevel
  {
    if score >= 70 then Critical
    else if score >= 40 then High
    else if score >= 20 then Medium
    else Low
  }

  const BlockAdvice := "BLOCK: Command contains forbidden elements and should not be executed."
  const CautionAdvice := "CAUTION: Command has high risk factors. Review carefully before execution."
  const WarningAdvice := "WARNING: Command has some risk factors. Proceed with caution."
  const AllowAdvice := "ALLOW: Command appears safe to execute."

  /** The four advice texts differ already in their lengths. */
  lemma AdviceDistinct()
    ensures BlockAdvice != CautionAdvice && BlockAdvice != WarningAdvice && BlockAdvice != AllowAdvice
    ensures CautionAdvice != WarningAdvice && CautionAdvice != AllowAdvice && WarningAdvice != AllowAdvice
  {
    assert |BlockAdvice| == 70 && |CautionAdvice| == 74;
    assert |WarningAdvice| == 61 && |AllowAdvice| == 39;
  }

  function Recommendation(level: RiskLevel, allowed: bool): string
  {
    if !allowed then BlockAdvice
    else if level == Critical || level == High then CautionAdvice
    else if level == Medium then WarningAdvice
    else AllowAdvice
  }

  datatype Evaluation = Evaluation(
    allowed: bool,
    riskScore: int,
    riskLevel: RiskLevel,
    riskFactors: seq<string>,
    violations: seq<FlagHit>,
    warnings: seq<FlagHit>,
    unsafeTargets: seq<UnsafeTarget>,
    safeTargets: seq<SafeTarget>,
    recommendation: string)

  function Min(a: int, b: int): int { if a <= b then a else b }
  function Max(a: int, b: int): int { if a >= b then a else b }

  /** The weighted sum before clamping: 40 per violation, 10 per warning, 30 per unsafe target. */
  function RawScore(violations: nat, warnings: nat, unsafe: nat): int
  {
    violations * 40 + warnings * 10 + unsafe * 30
  }

  /** The names of the non-empty finding lists, in a fixed order. */
  function RiskFactors(violated: bool, warned: bool, unsafe: bool): seq<string>
  {
    var none: seq<string> := [];
    var withViolations := if violated then none + ["forbidden_flags"] else none;
    var withWarnings := if warned then withViolations + ["warning_flags"] else withViolations;
    if unsafe then withWarnings + ["unsafe_targets"] else withWarnings
  }

  /** The score, risk factors, level, verdict and advice that follow from the three checks. */
  function Assemble(violations: seq<FlagHit>, warnings: seq<FlagHit>, unsafe: seq<UnsafeTarget>, safe: seq<SafeTarget>): Evaluation
  {
    var score := Max(0, Min(100, RawScore(|violations|, |warnings|, |unsafe|)));
    var factors := RiskFactors(|violations| > 0, |warnings| > 0, |unsafe| > 0);
    var allowed := |violations| == 0 && |unsafe| == 0;
    var level := LevelOf(score);
    Evaluation(allowed, score, level, factors, violations, warnings, unsafe, safe, Recommendation(level, allowed))
  }

  /** `evaluate_command` against a forbidden table and a list of blocked ranges. */
  function Evaluate(table: seq<FlagRule>, ranges: seq<string>, flags: seq<string>, targets: seq<string>): Evaluation
  {
    Assemble(FlagHits(flags, table), FlagHits(flags, WarningFlags), UnsafeTargets(ranges, targets), SafeTargets(ranges, targets))
  }

  /**
   * A command is allowed exactly when no flag starts with a forbidden flag and no
   * target is classified unsafe; warnings never block.
   */
  lemma AllowedIff(table: seq<FlagRule>, ranges: seq<string>, flags: seq<string>, targets: seq<string>)
    ensures Evaluate(table, ranges, flags, targets).allowed <==>
      (forall i :: 0 <= i < |flags| ==> !Matches(flags[i], table)) &&
      (forall i :: 0 <= i < |targets| ==> ClassifyTarget(ranges, targets[i]).Safe?)
  {
    FlagHitsEmptyIff(flags, table);
    TargetsPartitioned(ranges, targets);
  }

  /** The score is the weighted sum capped at 100, and the level follows the score's bands. */
  lemma ScoreAndLevel(violations: seq<FlagHit>, warnings: seq<FlagHit>, unsafe: seq<UnsafeTarget>, safe: seq<SafeTarget>)
    ensures var e := Assemble(violations, warnings, unsafe, safe);
      0 <= e.riskScore <= 100 &&
      e.riskScore == Min(100, RawScore(|e.violations|, |e.warnings|, |e.unsafeTargets|)) &&
      (e.riskLevel == Critical <==> e.riskScore >= 70) &&
      (e.riskLevel == High <==> 40 <= e.riskScore < 70) &&
      (e.riskLevel == Medium <==> 20 <= e.riskScore < 40) &&
      (e.riskLevel == Low <==> e.riskScore < 20)
  {
  }

  /**
   * A blocked command always scores at least 30, so it is never `low`; a single
   * forbidden flag already makes it `high`.
   */
  lemma BlockedIsNeverLow(violations: seq<FlagHit>, warnings: seq<FlagHit>, unsafe: seq<UnsafeTarget>, safe: seq<SafeTarget>)
    ensures var e := Assemble(violations, warnings, unsafe, safe);
      (!e.allowed ==> e.riskScore >= 30 && e.riskLevel != Low) &&
      (|e.violations| > 0 ==> e.riskLevel == High || e.riskLevel == Critical)
  {
  }

  /** BLOCK exactly for blocked commands; otherwise CAUTION, WARNING or ALLOW by level. */
  lemma RecommendationBands(violations: seq<FlagHit>, warnings: seq<FlagHit>, unsafe: seq<UnsafeTarget>, safe: seq<SafeTarget>)
    ensures var e := Assemble(violations, warnings, unsafe, safe);
      (e.recommendation == BlockAdvice <==> !e.allowed) &&
      (e.allowed && e.riskScore >= 40 ==> e.recommendation == CautionAdvice) &&
      (e.allowed && 20 <= e.riskScore < 40 ==> e.recommendation == WarningAdvice) &&
      (e.allowed && e.riskScore < 20 ==> e.recommendation == AllowAdvice)
  {
    var e := Assemble(violations, warnings, unsafe, safe);
    assert e.riskLevel == LevelOf(e.riskScore);
    assert e.recommendation == Recommendation(e.riskLevel, e.allowed);
    RecommendationCases(e.riskLevel, e.allowed);
  }

  lemma RecommendationCases(level: RiskLevel, allowed: bool)
    ensures Recommendation(level, allowed) == BlockAdvice <==> !allowed
    ensures allowed && (level == Critical || level == High) ==> Recommendation(level, allowed) == CautionAdvice
    ensures allowed && level == Medium ==> Recommendation(level, allowed) == WarningAdvice
    ensures allowed && level == Low ==> Recommendation(level, allowed) == AllowAdvice
  {
    AdviceDistinct();
  }

  /** The risk factors name exactly the non-empty finding lists, in a fixed order. */
  lemma RiskFactorsListed(violations: seq<FlagHit>, warnings: seq<FlagHit>, unsafe: seq<UnsafeTarget>, safe: seq<SafeTarget>)
    ensures var e := Assemble(violations, warnings, unsafe, safe);
      |e.riskFactors| == (if |e.violations| > 0 then 1 else 0) + (if |e.warnings| > 0 then 1 else 0)
                          + (if |e.unsafeTargets| > 0 then 1 else 0) &&
      ("forbidden_flags" in e.riskFactors <==> |e.violations| > 0) &&
      ("warning_flags" in e.riskFactors <==> |e.warnings| > 0) &&
      ("unsafe_targets" in e.riskFactors <==> |e.unsafeTargets| > 0)
  {
    RiskFactorsNamed(|violations| > 0, |warnings| > 0, |unsafe| > 0);
  }

  lemma RiskFactorsNamed(violated: bool, warned: bool, unsafe: bool)
    ensures var f := RiskFactors(violated, warned, unsafe);
      |f| == (if violated then 1 else 0) + (if warned then 1 else 0) + (if unsafe then 1 else 0) &&
      ("forbidden_flags" in f <==> violated) &&
      ("warning_flags" in f <==> warned) &&
      ("unsafe_targets" in f <==> unsafe)
  {
    var a, b, c := "forbidden_flags", "warning_flags", "unsafe_targets";
    assert |a| == 15 && |b| == 13 && |c| == 14;
    var f := RiskFactors(violated, warned, unsafe);
    assert forall x :: x in f ==> (x == a && violated) || (x == b && warned) || (x == c && unsafe);
  }

  /** The rules engine with its per-instance copies of the forbidden table and the blocked ranges. */
  class SecurityRules {
    var forbiddenFlags: seq<FlagRule>
    var unsafeRanges: seq<string>

    /** Custom rows update a copy of the forbidden table; custom ranges extend a copy of the range list. */
    constructor (customForbiddenFlags: seq<FlagRule>, customUnsafeRanges: seq<string>)
      ensures forbiddenFlags == UpdateTable(ForbiddenFlags, customForbiddenFlags)
      ensures unsafeRanges == UnsafeRanges + customUnsafeRanges
    {
      forbiddenFlags := UpdateTable(ForbiddenFlags, customForbiddenFlags);
      unsafeRanges := UnsafeRanges + customUnsafeRanges;
    }

    method CheckForbiddenFlags(flags: seq<string>) returns (violations: seq<FlagHit>)
      ensures violations == FlagHits(flags, forbiddenFlags)
    {
      violations := CollectHits(flags, forbiddenFlags);
    }

    /** Warnings use the built-in table, whatever the instance was configured with. */
    method CheckWarningFlags(flags: seq<string>) returns (warnings: seq<FlagHit>)
      ensures warnings == FlagHits(flags, WarningFlags)
    {
      warnings := CollectHits(flags, WarningFlags);
    }

    method CheckTargets(targets: seq<string>) returns (unsafe: seq<UnsafeTarget>, safe: seq<SafeTarget>)
      ensures unsafe == UnsafeTargets(unsafeRanges, targets)
      ensures safe == SafeTargets(unsafeRanges, targets)
    {
      var ranges := unsafeRanges;
      unsafe, safe := SortTargets(targets, t => ClassifyTarget(ranges, t));
    }

    /** `evaluate_command`: the three checks, then the score, level, verdict and advice. */
    method EvaluateCommand(flags: seq<string>, targets: seq<string>) returns (e: Evaluation)
      ensures e == Evaluate(forbiddenFlags, unsafeRanges, flags, targets)
    {
      var violations := CheckForbiddenFlags(flags);
      var warnings := CheckWarningFlags(flags);
      var unsafe, safe := CheckTargets(targets);
      assert Evaluate(forbiddenFlags, unsafeRanges, flags, targets) == Assemble(violations, warnings, unsafe, safe);
      var score := Max(0, Min(100, RawScore(|violations|, |warnings|, |unsafe|)));
      var factors := [];
      if |violations| > 0 { factors := factors + ["forbidden_flags"]; }
      if |warnings| > 0 { factors := factors + ["warning_flags"]; }
      if |unsafe| > 0 { factors := factors + ["unsafe_targets"]; }
      assert factors == RiskFactors(|violations| > 0, |warnings| > 0, |unsafe| > 0);
      var allowed := |violations| == 0 && |unsafe| == 0;
      var level := LevelOf(score);
      e := Evaluation(allowed, score, level, factors, violations, warnings, unsafe, safe, Recommendation(level, allowed));
      assert e == Assemble(violations, warnings, unsafe, safe);
    }
  }
}
