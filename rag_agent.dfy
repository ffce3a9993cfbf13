/**
 * The deterministic command builder of the knowledge-graph agent: it reads
 * a natural-language request, picks a scan type, a target, a port
 * specification and extra options by keyword and by fixed patterns, and
 * assembles one nmap command line together with its warnings.
 *
 * The patterns are hand-written matchers that follow Python's `re`
 * backtracking order for the one fixed pattern each stands for. Character
 * classes are ASCII (`\d`, `\w`, `\s` and `str.lower()`).
 */
module RagAgent {
  import opened Text
  import Classify

  function Min(a: nat, b: nat): nat { if a <= b then a else b }

  // ---------------------------------------------------------------- scan type

  /** Keyword groups, tried in order; the first group with a keyword in the request decides. */
  const ScanPatterns: seq<(seq<string>, string)> := [
    (["udp"], "-sU"),
    (["syn", "stealth", "furtif"], "-sS"),
    (["tcp", "connect"], "-sT"),
    (["version", "service", "détection de service"], "-sV"),
    (["os", "operating system", "système d'exploitation"], "-O"),
    (["aggressif", "aggressive", "complet"], "-A"),
    (["ping", "host discovery"], "-sn"),
    (["null"], "-sN"),
    (["fin"], "-sF"),
    (["xmas", "christmas"], "-sX"),
    (["ack"], "-sA")
  ]

  const DefaultScan := "-sS"

  /** The first keyword group from `i` on that has a keyword in `q`. */
  function FirstScanGroup(q: string, i: nat): (r: Option<nat>)
    requires i <= |ScanPatterns|
    ensures r.Some? ==> i <= r.value < |ScanPatterns| && Classify.AnyIn(q, ScanPatterns[r.value].0)
    ensures forall k :: i <= k < (if r.Some? then r.value else |ScanPatterns|) ==> !Classify.AnyIn(q, ScanPatterns[k].0)
    decreases |ScanPatterns| - i
  {
    if i == |ScanPatterns| then None
    else if Classify.AnyIn(q, ScanPatterns[i].0) then Some(i)
    else FirstScanGroup(q, i + 1)
  }

  /** `_detect_scan_type` on the lower-cased request. */
  function DetectScanType(q: string): string
  {
    match FirstScanGroup(q, 0)
    case Some(k) => ScanPatterns[k].1
    case None => DefaultScan
  }

  /** The scan type is the flag of the earliest group with a keyword in the request. */
  lemma ScanTypeFirstHit(q: string, k: nat)
    requires k < |ScanPatterns| && Classify.AnyIn(q, ScanPatterns[k].0)
    requires forall j :: 0 <= j < k ==> !Classify.AnyIn(q, ScanPatterns[j].0)
    ensures DetectScanType(q) == ScanPatterns[k].1
  {
  }

  /** Without any keyword of any group the scan is a SYN scan. */
  lemma ScanTypeDefault(q: string)
    requires forall j :: 0 <= j < |ScanPatterns| ==> !Classify.AnyIn(q, ScanPatterns[j].0)
    ensures DetectScanType(q) == DefaultScan
  {
  }

  /** Every result is one of the flags of the table. */
  lemma ScanTypeFromTable(q: string)
    ensures exists k :: 0 <= k < |ScanPatterns| && DetectScanType(q) == ScanPatterns[k].1
  {
    var f := FirstScanGroup(q, 0);
    if f.None? {
      assert DetectScanType(q) == ScanPatterns[1].1;
    }
  }

  /** A request that mentions UDP always gets a UDP scan, whatever else it says. */
  lemma UdpAlwaysWins(q: string)
    requires Contains(q, "udp")
    ensures DetectScanType(q) == "-sU"
  {
    assert ScanPatterns[0].0[0] == "udp";
    ScanTypeFirstHit(q, 0);
  }

  /**
   * "os" is a substring of "host", so the OS-detection group (tried before
   * the ping group) always claims a request for "host discovery": such a
   * request never gets a ping scan.
   */
  lemma HostDiscoveryNeverPings(q: string)
    requires Contains(q, "host discovery")
    ensures DetectScanType(q) != "-sn"
  {
    var i := ContainsWitness(q, "host discovery");
    assert q[i..][..14] == "host discovery";
    assert q[i + 1..][..2] == q[i..][..14][1..3] == "os";
    ContainsAt(q, "os", i + 1);
    assert ScanPatterns[4].0[0] == "os";
    var f := FirstScanGroup(q, 0);
    assert f.Some? && f.value <= 4;
  }

  // ---------------------------------------------------------------- target

  const DefaultTarget := "scanme.nmap.org"

  predicate IsAlnum(c: char) { IsLetter(c) || IsDigit(c) }

  predicate IsLabelChar(c: char) { IsAlnum(c) || c == '-' }

  /** Length of the maximal run of characters satisfying `p` from position `x`. */
  function RunAt(s: string, x: nat, p: char -> bool): (n: nat)
    ensures x + n <= |s| || n == 0
    ensures forall k :: x <= k < x + n ==> p(s[k])
    ensures x + n < |s| ==> !p(s[x + n])
    decreases |s| - x
  {
    if x < |s| && p(s[x]) then 1 + RunAt(s, x + 1, p) else 0
  }

  /** A run that is exactly `n` long is what `RunAt` measures. */
  lemma {:induction false} RunAtExact(s: string, x: nat, n: nat, p: char -> bool)
    requires x + n <= |s|
    requires forall k :: x <= k < x + n ==> p(s[k])
    requires x + n == |s| || !p(s[x + n])
    ensures RunAt(s, x, p) == n
    decreases n
  {
    if n > 0 {
      RunAtExact(s, x + 1, n - 1, p);
    }
  }

  /** `\b` at `x` when the character before `x` is a word character. */
  predicate EndsWord(s: string, x: nat)
  {
    x == |s| || (x < |s| && !IsWordChar(s[x]))
  }

  /** `\b` at `i` when the character at `i` is a word character. */
  predicate OpensWord(s: string, i: nat)
  {
    i == 0 || (i <= |s| && !IsWordChar(s[i - 1]))
  }

  /**
   * `(?:\d{1,3}\.){k}` from `p`. A dot must follow the digits, so each octet
   * takes its whole run of digits, which must be one to three long.
   */
  function Octets(s: string, p: nat, k: nat): (r: Option<nat>)
    ensures r.Some? ==> p + 2 * k <= r.value <= |s|
    ensures r.Some? && k > 0 ==> p < |s| && IsDigit(s[p]) && s[r.value - 1] == '.'
    decreases k
  {
    if k == 0 then (if p <= |s| then Some(p) else None)
    else
      var d := RunAt(s, p, IsDigit);
      if 1 <= d <= 3 && p + d < |s| && s[p + d] == '.' then Octets(s, p + d + 1, k - 1) else None
  }

  /** `\d{m}\b` after the dash at `x`, for `m` digits, then fewer, down to one. */
  function DashDigits(s: string, x: nat, m: nat): (r: Option<nat>)
    ensures r.Some? ==> x + 2 <= r.value <= |s| && EndsWord(s, r.value)
    decreases m
  {
    if m == 0 then None
    else if EndsWord(s, x + 1 + m) then Some(x + 1 + m)
    else DashDigits(s, x, m - 1)
  }

  /** `(?:-\d{1,3})?\b` at `x`: the range suffix is tried first, then nothing. */
  function DashEnd(s: string, x: nat): (r: Option<nat>)
    ensures r.Some? ==> x <= r.value <= |s| && EndsWord(s, r.value)
  {
    var viaDash := if x < |s| && s[x] == '-' then DashDigits(s, x, Min(3, RunAt(s, x + 1, IsDigit))) else None;
    if viaDash.Some? then viaDash
    else if EndsWord(s, x) then Some(x)
    else None
  }

  /** `\d{n}` after the slash at `q` and what follows it, for `n` digits, then fewer. */
  function SlashDigits(s: string, q: nat, n: nat): (r: Option<nat>)
    ensures r.Some? ==> q < r.value <= |s| && EndsWord(s, r.value)
    decreases n
  {
    if n == 0 then None
    else
      var rest := DashEnd(s, q + 1 + n);
      if rest.Some? then rest else SlashDigits(s, q, n - 1)
  }

  /** `(?:\/\d{1,2})?(?:-\d{1,3})?\b` at `q`: the prefix length is tried first. */
  function SlashEnd(s: string, q: nat): (r: Option<nat>)
    ensures r.Some? ==> q <= r.value <= |s| && EndsWord(s, r.value)
  {
    var viaSlash := if q < |s| && s[q] == '/' then SlashDigits(s, q, Min(2, RunAt(s, q + 1, IsDigit))) else None;
    if viaSlash.Some? then viaSlash else DashEnd(s, q)
  }

  /** The last octet `\d{d}` at `p` and what follows it, for `d` digits, then fewer. */
  function LastOctet(s: string, p: nat, d: nat): (r: Option<nat>)
    ensures r.Some? ==> p < r.value <= |s| && EndsWord(s, r.value)
    decreases d
  {
    if d == 0 then None
    else
      var rest := SlashEnd(s, p + d);
      if rest.Some? then rest else LastOctet(s, p, d - 1)
  }

  /** `\b(?:\d{1,3}\.){3}\d{1,3}(?:\/\d{1,2})?(?:-\d{1,3})?\b` at `i`: the end of the match. */
  function IpAt(s: string, i: nat): (r: Option<nat>)
    ensures r.Some? ==> i < r.value <= |s| && IsDigit(s[i]) && OpensWord(s, i) && EndsWord(s, r.value)
  {
    if !OpensWord(s, i) then None
    else match Octets(s, i, 3)
      case Some(p) => LastOctet(s, p, Min(3, RunAt(s, p, IsDigit)))
      case None => None
  }

  /**
   * Ends of one `[a-zA-Z0-9](?:[a-zA-Z0-9-]{0,61}[a-zA-Z0-9])?\.` at `p`,
   * in the order the matcher tries them: the inner group with its longest
   * middle first, then without the inner group.
   */
  function LabelEnds(s: string, p: nat): (r: seq<nat>)
    ensures |r| > 0 ==> p < |s| && IsAlnum(s[p])
    ensures forall k :: 0 <= k < |r| ==> p + 2 <= r[k] <= |s| && s[r[k] - 1] == '.'
  {
    if p < |s| && IsAlnum(s[p]) then
      InnerEnds(s, p, Min(61, RunAt(s, p + 1, IsLabelChar)))
        + (if p + 1 < |s| && s[p + 1] == '.' then [p + 2] else [])
    else []
  }

  /** Label ends with `j` middle characters, then fewer, down to none. */
  function InnerEnds(s: string, p: nat, j: nat): (r: seq<nat>)
    ensures forall k :: 0 <= k < |r| ==> p + 3 <= r[k] <= |s| && s[r[k] - 1] == '.'
    decreases j
  {
    var fewer := if j == 0 then [] else InnerEnds(s, p, j - 1);
    if p + j + 2 < |s| && IsAlnum(s[p + 1 + j]) && s[p + 2 + j] == '.' then [p + 3 + j] + fewer else fewer
  }

  /** `[a-zA-Z]{n}\b` at `e`, for `n` letters, then fewer, down to two. */
  function TldEnd(s: string, e: nat, n: nat): (r: Option<nat>)
    ensures r.Some? ==> e + 2 <= r.value <= |s| && EndsWord(s, r.value)
    decreases n
  {
    if n < 2 then None
    else if EndsWord(s, e + n) then Some(e + n)
    else TldEnd(s, e, n - 1)
  }

  /** `(?:label\.)+[a-zA-Z]{2,}\b` at `p`: the end of the match. */
  function DomainFrom(s: string, p: nat): (r: Option<nat>)
    requires p <= |s|
    ensures r.Some? ==> p < |s| && IsAlnum(s[p]) && p < r.value <= |s| && EndsWord(s, r.value)
    decreases |s| - p, 1, 0
  {
    TryLabels(s, p, LabelEnds(s, p), 0)
  }

  /**
   * The label ends from index `j` on: after a label the loop first tries
   * another label, then the top-level domain, before giving the label back.
   */
  function TryLabels(s: string, p: nat, ends: seq<nat>, j: nat): (r: Option<nat>)
    requires p <= |s| && j <= |ends|
    requires forall k :: 0 <= k < |ends| ==> p < ends[k] <= |s|
    ensures r.Some? ==> p < r.value <= |s| && EndsWord(s, r.value)
    decreases |s| - p, 0, |ends| - j
  {
    if j == |ends| then None
    else
      var e := ends[j];
      var more := DomainFrom(s, e);
      if more.Some? then more
      else
        var tld := TldEnd(s, e, RunAt(s, e, IsLetter));
        if tld.Some? then tld else TryLabels(s, p, ends, j + 1)
  }

  /** `\b(?:label\.)+[a-zA-Z]{2,}\b` at `i`: the end of the match. */
  function DomainAt(s: string, i: nat): (r: Option<nat>)
    ensures r.Some? ==> i < r.value <= |s| && IsAlnum(s[i]) && OpensWord(s, i) && EndsWord(s, r.value)
  {
    if i <= |s| && OpensWord(s, i) then DomainFrom(s, i) else None
  }

  /** `re.search`: the leftmost position from `i` on where `m` matches, with what it found. */
  function FirstMatch<T>(s: string, i: nat, m: (string, nat) -> Option<T>): (r: Option<(nat, T)>)
    requires i <= |s|
    ensures r.Some? ==> i <= r.value.0 <= |s| && m(s, r.value.0) == Some(r.value.1)
    ensures forall j :: i <= j <= |s| && (r.None? || j < r.value.0) ==> m(s, j).None?
    decreases |s| - i
  {
    if m(s, i).Some? then Some((i, m(s, i).value))
    else if i == |s| then None
    else FirstMatch(s, i + 1, m)
  }

  /**
   * `_extract_target`: the first address-like match, else the first
   * domain-like match, else the default host. The result is never empty and
   * starts with a letter or a digit, so it is never mistaken for a flag.
   */
  function ExtractTarget(text: string): (r: string)
    ensures r == DefaultTarget || (|r| > 0 && IsAlnum(r[0]))
  {
    match FirstMatch(text, 0, IpAt)
    case Some((i, e)) => text[i..e]
    case None =>
      match FirstMatch(text, 0, DomainAt)
      case Some((i, e)) => text[i..e]
      case None => DefaultTarget
  }

  /** Both patterns need a dot, so a request without one always targets the default host. */
  lemma NoDotDefaultTarget(text: string)
    requires forall k :: 0 <= k < |text| ==> text[k] != '.'
    ensures ExtractTarget(text) == DefaultTarget
  {
    forall i: nat | i <= |text|
      ensures IpAt(text, i).None? && DomainAt(text, i).None?
    {
      var o := Octets(text, i, 3);
      if o.Some? {
        assert false;
      }
      if i < |text| && IsAlnum(text[i]) {
        InnerEndsNeedDot(text, i, Min(61, RunAt(text, i + 1, IsLabelChar)));
      }
      assert LabelEnds(text, i) == [];
      assert TryLabels(text, i, [], 0).None?;
      assert DomainFrom(text, i).None?;
    }
  }

  /** Every label end follows a dot. */
  lemma {:induction false} InnerEndsNeedDot(s: string, p: nat, j: nat)
    requires forall k :: 0 <= k < |s| ==> s[k] != '.'
    ensures InnerEnds(s, p, j) == []
    decreases j
  {
    if j > 0 {
      InnerEndsNeedDot(s, p, j - 1);
    }
  }

  /**
   * A dotted quad standing alone (a non-word character or the text edge on
   * each side, and neither a prefix length nor a range after it) is matched
   * whole by the address pattern; with `FirstAddressExtracted` it is the
   * target when no address-like match starts before it.
   */
  lemma StandaloneQuadExtracted(text: string, i: nat, p: nat, d: nat)
    requires i <= |text| && OpensWord(text, i)
    requires Octets(text, i, 3) == Some(p)
    requires 1 <= d <= 3 && p + d <= |text| && RunAt(text, p, IsDigit) == d
    requires p + d == |text| || (text[p + d] != '/' && text[p + d] != '-' && !IsWordChar(text[p + d]))
    ensures IpAt(text, i) == Some(p + d)
  {
    var e := p + d;
    assert DashEnd(text, e) == Some(e) by {
      assert EndsWord(text, e);
    }
    assert SlashEnd(text, e) == Some(e);
    assert LastOctet(text, p, d) == Some(e);
    assert Min(3, RunAt(text, p, IsDigit)) == d;
  }

  /** No address-like match starts before position `i`. */
  predicate NoAddressBefore(text: string, i: nat)
  {
    forall j :: 0 <= j < i ==> IpAt(text, j).None?
  }

  /** The first address-like match is the target. */
  lemma FirstAddressExtracted(text: string, i: nat, e: nat)
    requires i <= |text| && IpAt(text, i) == Some(e)
    requires NoAddressBefore(text, i)
    ensures ExtractTarget(text) == text[i..e]
  {
    FirstMatchAt(text, 0, i, IpAt, e);
  }

  /** The search reports the first position where the matcher succeeds. */
  lemma {:induction false} FirstMatchAt<T>(s: string, from: nat, i: nat, m: (string, nat) -> Option<T>, v: T)
    requires from <= i <= |s| && m(s, i) == Some(v)
    requires forall j :: from <= j < i ==> m(s, j).None?
    ensures FirstMatch(s, from, m) == Some((i, v))
    decreases i - from
  {
    if from < i {
      FirstMatchAt(s, from + 1, i, m, v);
    }
  }

  // ---------------------------------------------------------------- ports

  const TopPorts := "--top-ports 100"
  const AllPorts := "-p-"
  const FastPorts := "-F"

  /** `w` occurs at position `i` of `s`. */
  predicate LitAt(s: string, i: nat, w: string)
  {
    i + |w| <= |s| && s[i..i + |w|] == w
  }

  predicate IsSep(c: char) { c == ',' || IsSpace(c) }

  predicate IsPortChar(c: char) { IsDigit(c) || c == ',' || c == '-' }

  /** An explicit port list: `-p ` and a non-empty run of digits, commas and dashes. */
  predicate PortListSpec(v: string)
  {
    |v| > 3 && v[..3] == "-p " && forall k :: 3 <= k < |v| ==> IsPortChar(v[k])
  }

  /** `re.sub(r'\s+', '', t)`. */
  function DropSpaces(t: string): (r: string)
    ensures |r| <= |t|
    decreases |t|
  {
    if |t| == 0 then ""
    else (if IsSpace(t[0]) then "" else [t[0]]) + DropSpaces(t[1..])
  }

  /** Dropping the spaces keeps every other character and keeps a non-blank head. */
  lemma {:induction false} DropSpacesKeeps(t: string, p: char -> bool)
    requires forall k :: 0 <= k < |t| ==> p(t[k]) || IsSpace(t[k])
    ensures forall k :: 0 <= k < |DropSpaces(t)| ==> p(DropSpaces(t)[k])
    ensures |t| > 0 && !IsSpace(t[0]) ==> |DropSpaces(t)| > 0
    decreases |t|
  {
    if |t| > 0 {
      DropSpacesKeeps(t[1..], p);
    }
  }

  /** `port\s+(\d+)` at `i`, formatted as `-p N`. */
  function SinglePortAt(s: string, i: nat): Option<string>
  {
    if !LitAt(s, i, "port") then None
    else
      var w := RunAt(s, i + 4, IsSpace);
      var d := RunAt(s, i + 4 + w, IsDigit);
      if w >= 1 && d >= 1 then Some("-p " + s[i + 4 + w..i + 4 + w + d]) else None
  }

  /**
   * `ports?\s+` at `i`: where the port numbers start. When an `s` follows
   * `port`, giving it back cannot help, since `\s+` cannot match it.
   */
  function AfterPortWord(s: string, i: nat): (r: Option<nat>)
    ensures r.Some? ==> i + 5 <= r.value <= |s|
  {
    if !LitAt(s, i, "port") then None
    else
      var x := if i + 4 < |s| && s[i + 4] == 's' then i + 5 else i + 4;
      var w := RunAt(s, x, IsSpace);
      if w >= 1 then Some(x + w) else None
  }

  /**
   * `\d+\s*-\s*\d+` at `a`: where the range ends. Every run is taken
   * whole, since giving a character back leaves a digit or a space where
   * the next part cannot start.
   */
  function RangeEnd(s: string, a: nat): (r: Option<nat>)
    ensures r.Some? ==> a < r.value <= |s| && IsDigit(s[a])
    ensures r.Some? ==> forall k :: a <= k < r.value ==> IsPortChar(s[k]) || IsSpace(s[k])
  {
    var d1 := RunAt(s, a, IsDigit);
    var dash := a + d1 + RunAt(s, a + d1, IsSpace);
    if d1 >= 1 && dash < |s| && s[dash] == '-' then
      var b := dash + 1 + RunAt(s, dash + 1, IsSpace);
      var d2 := RunAt(s, b, IsDigit);
      if d2 >= 1 then Some(b + d2) else None
    else None
  }

  /** `ports?\s+(\d+\s*-\s*\d+)` at `i`, formatted as `-p ` and the range without its spaces. */
  function PortRangeAt(s: string, i: nat): Option<string>
  {
    match AfterPortWord(s, i)
    case None => None
    case Some(a) =>
      match RangeEnd(s, a)
      case None => None
      case Some(e) => Some("-p " + DropSpaces(s[a..e]))
  }

  /**
   * `(?:[,\s]+\d+)*` from `x`: each repetition takes its whole run of
   * separators and its whole run of digits, and the loop takes all of them.
   */
  function SepDigits(s: string, x: nat): (r: nat)
    requires x <= |s|
    ensures x <= r <= |s|
    ensures forall k :: x <= k < r ==> IsPortChar(s[k]) || IsSpace(s[k])
    decreases |s| - x
  {
    var l := RunAt(s, x, IsSep);
    var m := RunAt(s, x + l, IsDigit);
    if l >= 1 && m >= 1 then SepDigits(s, x + l + m) else x
  }

  /** `ports?\s+(\d+(?:[,\s]+\d+)+)` at `i`, formatted as `-p ` and the list without its spaces. */
  function PortListAt(s: string, i: nat): Option<string>
  {
    match AfterPortWord(s, i)
    case None => None
    case Some(a) =>
      var d1 := RunAt(s, a, IsDigit);
      if d1 >= 1 then
        var b := SepDigits(s, a + d1);
        if b > a + d1 then Some("-p " + DropSpaces(s[a..b])) else None
      else None
  }

  /** `de\s*(\d+)\s*à\s*(\d+)` at `i`, formatted as `-p A-B`. */
  function FromToAt(s: string, i: nat): Option<string>
  {
    if !LitAt(s, i, "de") then None
    else
      var a := i + 2 + RunAt(s, i + 2, IsSpace);
      var d1 := RunAt(s, a, IsDigit);
      var x := a + d1 + RunAt(s, a + d1, IsSpace);
      if d1 >= 1 && x < |s| && s[x] == 'à' then
        var b := x + 1 + RunAt(s, x + 1, IsSpace);
        var d2 := RunAt(s, b, IsDigit);
        if d2 >= 1 then Some("-p " + s[a..a + d1] + "-" + s[b..b + d2]) else None
      else None
  }

  /**
   * `_extract_ports_explicit` on the lower-cased request: the first pattern
   * that matches anywhere, in pattern order, then the keywords.
   */
  function ExtractPorts(q: string): Option<string>
  {
    var single := FirstMatch(q, 0, SinglePortAt);
    var range := FirstMatch(q, 0, PortRangeAt);
    var list := FirstMatch(q, 0, PortListAt);
    var fromTo := FirstMatch(q, 0, FromToAt);
    if single.Some? then Some(single.value.1)
    else if range.Some? then Some(range.value.1)
    else if list.Some? then Some(list.value.1)
    else if fromTo.Some? then Some(fromTo.value.1)
    else if Contains(q, "common") || Contains(q, "top") then Some(TopPorts)
    else if Contains(q, "all") || Contains(q, "tous") then Some(AllPorts)
    else if Contains(q, "fast") || Contains(q, "rapide") then Some(FastPorts)
    else None
  }

  lemma SinglePortWellFormed(s: string, i: nat)
    requires SinglePortAt(s, i).Some?
    ensures PortListSpec(SinglePortAt(s, i).value)
  {
  }

  lemma PortRangeWellFormed(s: string, i: nat)
    requires PortRangeAt(s, i).Some?
    ensures PortListSpec(PortRangeAt(s, i).value)
  {
    var a := AfterPortWord(s, i).value;
    var e := RangeEnd(s, a).value;
    var t := s[a..e];
    forall k | 0 <= k < |t|
      ensures IsPortChar(t[k]) || IsSpace(t[k])
    {
      assert t[k] == s[a + k];
    }
    DropSpacesKeeps(t, IsPortChar);
  }

  lemma PortListWellFormed(s: string, i: nat)
    requires PortListAt(s, i).Some?
    ensures PortListSpec(PortListAt(s, i).value)
  {
    var a := AfterPortWord(s, i).value;
    var d1 := RunAt(s, a, IsDigit);
    var b := SepDigits(s, a + d1);
    assert PortListAt(s, i) == Some("-p " + DropSpaces(s[a..b]));
    assert forall k :: a <= k < a + d1 ==> IsPortChar(s[k]);
    PortCharsBetween(s, a, b);
    DropSpacesKeeps(s[a..b], IsPortChar);
    PrefixedSpec(DropSpaces(s[a..b]));
  }

  /** A slice of port characters and spaces that starts with a digit. */
  lemma PortCharsBetween(s: string, a: nat, b: nat)
    requires a < b <= |s| && IsDigit(s[a])
    requires forall k :: a <= k < b ==> IsPortChar(s[k]) || IsSpace(s[k])
    ensures var t := s[a..b]; !IsSpace(t[0]) && forall k :: 0 <= k < |t| ==> IsPortChar(t[k]) || IsSpace(t[k])
  {
    var t := s[a..b];
    forall k | 0 <= k < |t|
      ensures IsPortChar(t[k]) || IsSpace(t[k])
    {
      assert t[k] == s[a + k];
    }
  }

  /** `-p ` before a non-empty run of port characters is a port specification. */
  lemma PrefixedSpec(list: string)
    requires |list| > 0 && forall k :: 0 <= k < |list| ==> IsPortChar(list[k])
    ensures PortListSpec("-p " + list)
  {
    var v := "-p " + list;
    assert forall k :: 3 <= k < |v| ==> v[k] == list[k - 3];
  }

  lemma FromToWellFormed(s: string, i: nat)
    requires FromToAt(s, i).Some?
    ensures PortListSpec(FromToAt(s, i).value)
  {
  }

  /**
   * Every port specification is `--top-ports 100`, `-p-`, `-F`, or `-p `
   * followed by digits, commas and dashes only: spaces inside a range or a
   * list are removed.
   */
  lemma PortsWellFormed(q: string)
    ensures var r := ExtractPorts(q);
      r.Some? ==> r.value == TopPorts || r.value == AllPorts || r.value == FastPorts || PortListSpec(r.value)
  {
    var single := FirstMatch(q, 0, SinglePortAt);
    var range := FirstMatch(q, 0, PortRangeAt);
    var list := FirstMatch(q, 0, PortListAt);
    var fromTo := FirstMatch(q, 0, FromToAt);
    if single.Some? {
      SinglePortWellFormed(q, single.value.0);
    } else if range.Some? {
      PortRangeWellFormed(q, range.value.0);
    } else if list.Some? {
      PortListWellFormed(q, list.value.0);
    } else if fromTo.Some? {
      FromToWellFormed(q, fromTo.value.0);
    }
  }

  /**
   * The single-port pattern is tried first and also matches the start of a
   * range written after "port": "port 80-90" yields `-p 80` and the end of
   * the range is lost.
   */
  lemma SinglePortShadowsRange(d1: string, d2: string)
    requires |d1| > 0 && AllDigits(d1) && |d2| > 0 && AllDigits(d2)
    ensures ExtractPorts("port " + d1 + "-" + d2) == Some("-p " + d1)
  {
    var q := "port " + d1 + "-" + d2;
    assert q[..4] == "port";
    RunAtExact(q, 4, 1, IsSpace);
    RunAtExact(q, 5, |d1|, IsDigit);
    assert q[5..5 + |d1|] == d1;
    assert SinglePortAt(q, 0) == Some("-p " + d1);
    FirstMatchAt(q, 0, 0, SinglePortAt, "-p " + d1);
  }

  // ---------------------------------------------------------------- options

  /** Extra options and their keywords, in the order the table is walked. */
  const OptionTable: seq<(string, seq<string>)> := [
    ("-sV", ["version", "service"]),
    ("-O", ["os", "operating system"]),
    ("--traceroute", ["traceroute", "tracert"]),
    ("-F", ["fast", "rapide", "quick"]),
    ("-6", ["ipv6", "v6"]),
    ("-Pn", ["no ping", "skip ping"]),
    ("-n", ["no dns", "skip dns"]),
    ("-v", ["verbose"]),
    ("-vv", ["very verbose", "debug"]),
    ("-sC", ["script", "scripts"])
  ]

  /** Options an aggressive scan already implies. */
  const Redundant: seq<string> := ["-sV", "-O", "-sC"]

  predicate Kept(scanType: string, option: string)
  {
    scanType != "-A" || option !in Redundant
  }

  /** The options of the first `n` table entries that the request selects, in table order. */
  function Chosen(q: string, scanType: string, n: nat): seq<string>
    requires n <= |OptionTable|
  {
    if n == 0 then []
    else
      var (option, keys) := OptionTable[n - 1];
      Chosen(q, scanType, n - 1) + (if Classify.AnyIn(q, keys) && Kept(scanType, option) then [option] else [])
  }

  /** What `list(set(options))` holds; its order is not specified. */
  function OptionsOf(q: string, scanType: string): set<string>
  {
    set o | o in Chosen(q, scanType, |OptionTable|)
  }

  /** `_extract_options`: the table is walked in order and the selection is made a set. */
  method ExtractOptions(q: string, scanType: string) returns (options: set<string>)
    ensures options == OptionsOf(q, scanType)
  {
    var listed: seq<string> := [];
    var i := 0;
    while i < |OptionTable|
      invariant 0 <= i <= |OptionTable|
      invariant listed == Chosen(q, scanType, i)
    {
      var (option, keys) := OptionTable[i];
      if Classify.AnyIn(q, keys) && (scanType != "-A" || option !in Redundant) {
        listed := listed + [option];
      }
      i := i + 1;
    }
    options := set o | o in listed;
  }

  lemma OptionNamesDistinct()
    ensures forall a, b :: 0 <= a < b < |OptionTable| ==> OptionTable[a].0 != OptionTable[b].0
  {
  }

  lemma {:induction false} ChosenAt(q: string, scanType: string, n: nat, k: nat)
    requires k < n <= |OptionTable|
    ensures OptionTable[k].0 in Chosen(q, scanType, n) <==>
              Classify.AnyIn(q, OptionTable[k].1) && Kept(scanType, OptionTable[k].0)
    decreases n
  {
    OptionNamesDistinct();
    if k < n - 1 {
      ChosenAt(q, scanType, n - 1, k);
    } else {
      ChosenOnlyTable(q, scanType, n - 1);
    }
  }

  /** Only table options are ever chosen, each from a table entry before `n`. */
  lemma {:induction false} ChosenOnlyTable(q: string, scanType: string, n: nat)
    requires n <= |OptionTable|
    ensures forall o :: o in Chosen(q, scanType, n) ==> exists k :: 0 <= k < n && OptionTable[k].0 == o
    decreases n
  {
    if n > 0 {
      ChosenOnlyTable(q, scanType, n - 1);
    }
  }

  /**
   * An option is selected exactly when one of its keywords is in the
   * request, except that an aggressive scan never adds `-sV`, `-O` or `-sC`.
   */
  lemma OptionSelected(q: string, scanType: string, k: nat)
    requires k < |OptionTable|
    ensures OptionTable[k].0 in OptionsOf(q, scanType) <==>
              Classify.AnyIn(q, OptionTable[k].1) && (scanType != "-A" || OptionTable[k].0 !in Redundant)
  {
    ChosenAt(q, scanType, |OptionTable|, k);
  }

  /** With an aggressive scan none of the options it implies is added again. */
  lemma AggressiveDropsRedundant(q: string)
    ensures forall o :: o in Redundant ==> o !in OptionsOf(q, "-A")
  {
    ChosenOnlyTable(q, "-A", |OptionTable|);
    forall o | o in Redundant
      ensures o !in OptionsOf(q, "-A")
    {
      if o in OptionsOf(q, "-A") {
        var k :| 0 <= k < |OptionTable| && OptionTable[k].0 == o;
        ChosenAt(q, "-A", |OptionTable|, k);
      }
    }
  }

  // ---------------------------------------------------------------- command

  /** A timing template flag such as `-T3`. */
  predicate IsTiming(x: string)
  {
    |x| == 3 && x[0] == '-' && x[1] == 'T'
  }

  /** Python truthiness of the port specification. */
  predicate HasPorts(ports: Option<string>)
  {
    ports.Some? && ports.value != ""
  }

  /** The timing rule: aggressive first, then stealthy, else normal. */
  function TimingFor(q: string, scanType: string): string
  {
    if Contains(q, "aggressif") || scanType == "-A" then "-T4"
    else if Contains(q, "furtif") || scanType in ["-sN", "-sF", "-sX"] then "-T1"
    else "-T3"
  }

  /** The script argument: omitted for an aggressive scan, quoted when there are several. */
  function ScriptPart(scanType: string, scripts: seq<string>): seq<string>
  {
    if scripts == [] || scanType == "-A" then []
    else if |scripts| == 1 then ["--script " + scripts[0]]
    else ["--script \"" + Join(scripts, ",") + "\""]
  }

  /** `parts` extended by each option that is not already among the parts, in order. */
  function AppendNew(parts: seq<string>, opts: seq<string>): seq<string>
    decreases |opts|
  {
    if |opts| == 0 then parts
    else
      var p := AppendNew(parts, opts[..|opts| - 1]);
      if opts[|opts| - 1] in p then p else p + [opts[|opts| - 1]]
  }

  /**
   * What `AppendNew` keeps: the original parts come first, every option
   * ends up present, nothing else is added, and no added part repeats a
   * part before it.
   */
  lemma {:induction false} AppendNewMeans(base: seq<string>, opts: seq<string>)
    ensures var r := AppendNew(base, opts);
      && |base| <= |r| <= |base| + |opts| && r[..|base|] == base
      && (forall x :: x in r <==> x in base || x in opts)
      && (forall x :: x in r[|base|..] <==> x in opts && x !in base)
      && (forall a, b :: 0 <= b < a < |r| && |base| <= a ==> r[a] != r[b])
    decreases |opts|
  {
    if |opts| > 0 {
      var init := opts[..|opts| - 1];
      var last := opts[|opts| - 1];
      AppendNewMeans(base, init);
      var p := AppendNew(base, init);
      assert opts == init + [last];
      if last !in p {
        var r := p + [last];
        assert r[|base|..] == p[|base|..] + [last];
        assert r[..|base|] == p[..|base|];
      }
    }
  }

  /** The parts of `_build_final_command`, in order. */
  function CommandParts(scanType: string, target: string, ports: Option<string>, options: seq<string>,
                        scripts: seq<string>, q: string): seq<string>
  {
    AppendNew(["nmap", scanType], options) + CommandTail(scanType, target, ports, scripts, q)
  }

  /** `_build_final_command`: the parts are collected in a list and joined with spaces. */
  method BuildFinalCommand(scanType: string, target: string, ports: Option<string>, options: seq<string>,
                           scripts: seq<string>, q: string) returns (command: string)
    ensures command == Join(CommandParts(scanType, target, ports, options, scripts, q), " ")
  {
    var parts := ["nmap"];
    parts := parts + [scanType];
    var i := 0;
    while i < |options|
      invariant 0 <= i <= |options|
      invariant parts == AppendNew(["nmap", scanType], options[..i])
    {
      assert options[..i + 1][..i] == options[..i];
      if options[i] !in parts {
        parts := parts + [options[i]];
      }
      i := i + 1;
    }
    assert options[..|options|] == options;
    ghost var head := parts;
    var timing := "-T3";
    if Contains(q, "aggressif") || scanType == "-A" {
      timing := "-T4";
    } else if Contains(q, "furtif") || scanType in ["-sN", "-sF", "-sX"] {
      timing := "-T1";
    }
    parts := parts + [timing];
    if ports.Some? && ports.value != "" {
      parts := parts + [ports.value];
    }
    if scripts != [] && scanType != "-A" {
      if |scripts| == 1 {
        parts := parts + ["--script " + scripts[0]];
      } else {
        parts := parts + ["--script \"" + Join(scripts, ",") + "\""];
      }
    }
    parts := parts + [target];
    assert parts == head + CommandTail(scanType, target, ports, scripts, q);
    command := Join(parts, " ");
  }

  /**
   * The command reads `nmap`, the scan type, the options not already
   * present, one timing flag, the ports when there are any, the scripts
   * unless the scan is aggressive, and the target last. When no input is
   * itself a timing flag, the timing flag is the only one in the command.
   */
  lemma CommandShape(scanType: string, target: string, ports: Option<string>, options: seq<string>,
                     scripts: seq<string>, q: string)
    requires !IsTiming(scanType) && !IsTiming(target) && (ports.Some? ==> !IsTiming(ports.value))
    requires forall o :: o in options ==> !IsTiming(o)
    ensures var parts := CommandParts(scanType, target, ports, options, scripts, q);
      var n := |AppendNew(["nmap", scanType], options)|;
      && 2 <= n < |parts|
      && |parts| == n + 2 + (if HasPorts(ports) then 1 else 0) + (if scripts != [] && scanType != "-A" then 1 else 0)
      && parts[0] == "nmap" && parts[1] == scanType && parts[|parts| - 1] == target
      && (forall x :: x in parts[2..n] <==> x in options && x != "nmap" && x != scanType)
      && (forall a, b :: 0 <= b < a < n ==> parts[a] != parts[b] || a < 2)
      && parts[n] == TimingFor(q, scanType)
      && (HasPorts(ports) ==> parts[n + 1] == ports.value)
      && (forall k :: 0 <= k < |parts| ==> (IsTiming(parts[k]) <==> k == n))
  {
    var head := AppendNew(["nmap", scanType], options);
    AppendNewMeans(["nmap", scanType], options);
    var tail := CommandTail(scanType, target, ports, scripts, q);
    CommandTailShape(scanType, target, ports, scripts, q);
    var parts := CommandParts(scanType, target, ports, options, scripts, q);
    var n := |head|;
    assert parts == head + tail;
    assert parts[..n] == head;
    assert parts[2..n] == head[2..];
    forall k | 0 <= k < |parts|
      ensures IsTiming(parts[k]) <==> k == n
    {
      if k < n {
        assert parts[k] == head[k];
        assert head[k] in head;
      } else {
        assert parts[k] == tail[k - n];
      }
    }
  }

  /** What follows the scan type and the options: timing, ports, scripts, target. */
  function CommandTail(scanType: string, target: string, ports: Option<string>, scripts: seq<string>, q: string): seq<string>
  {
    [TimingFor(q, scanType)] + (if HasPorts(ports) then [ports.value] else []) + ScriptPart(scanType, scripts) + [target]
  }

  lemma CommandTailShape(scanType: string, target: string, ports: Option<string>, scripts: seq<string>, q: string)
    requires !IsTiming(target) && (ports.Some? ==> !IsTiming(ports.value))
    ensures var t := CommandTail(scanType, target, ports, scripts, q);
      && |t| == 2 + (if HasPorts(ports) then 1 else 0) + (if scripts != [] && scanType != "-A" then 1 else 0)
      && t[0] == TimingFor(q, scanType) && t[|t| - 1] == target
      && (HasPorts(ports) ==> t[1] == ports.value)
      && (forall k :: 0 <= k < |t| ==> (IsTiming(t[k]) <==> k == 0))
  {
    var sp := ScriptPart(scanType, scripts);
    assert forall k :: 0 <= k < |sp| ==> sp[k][1] == '-';
  }

  // ---------------------------------------------------------------- warnings

  const UdpSlowWarning := "Scan UDP sans ports spécifiés → très long"
  const UdpSudoWarning := "Nécessite les privilèges root (sudo)"
  const RootWarning := "Privilèges root requis"
  const AggressiveWarning := "Timing agressif (-T4)"

  /** The warnings of `_generate_warnings`, in the order they are added. */
  function Warnings(scanType: string, ports: Option<string>, q: string): seq<string>
  {
    (if scanType == "-sU" && !HasPorts(ports) then [UdpSlowWarning, UdpSudoWarning] else [])
      + (if scanType in ["-sU", "-sS", "-O"] then [RootWarning] else [])
      + (if Contains(q, "aggressif") then [AggressiveWarning] else [])
  }

  /** `_generate_warnings`: the warnings are appended one check at a time. */
  method GenerateWarnings(scanType: string, ports: Option<string>, q: string) returns (warnings: seq<string>)
    ensures warnings == Warnings(scanType, ports, q)
  {
    warnings := [];
    if scanType == "-sU" && !(ports.Some? && ports.value != "") {
      warnings := warnings + [UdpSlowWarning];
      warnings := warnings + [UdpSudoWarning];
    }
    if scanType in ["-sU", "-sS", "-O"] {
      warnings := warnings + [RootWarning];
    }
    if Contains(q, "aggressif") {
      warnings := warnings + [AggressiveWarning];
    }
  }

  /**
   * Each warning is present exactly when its condition holds, and none is
   * repeated: a UDP scan without ports gets the two UDP warnings, a UDP,
   * SYN or OS scan the privilege warning, and "aggressif" in the request
   * the timing warning.
   */
  lemma WarningsMeaning(scanType: string, ports: Option<string>, q: string)
    ensures var w := Warnings(scanType, ports, q);
      && (UdpSlowWarning in w <==> scanType == "-sU" && !HasPorts(ports))
      && (UdpSudoWarning in w <==> scanType == "-sU" && !HasPorts(ports))
      && (RootWarning in w <==> scanType in ["-sU", "-sS", "-O"])
      && (AggressiveWarning in w <==> Contains(q, "aggressif"))
      && (forall a, b :: 0 <= a < b < |w| ==> w[a] != w[b])
  {
  }

  /**
   * The command builder is called without the request text, so the
   * request seen by the warnings is empty: an aggressive request gets the
   * `-T4` timing flag but never the aggressive-timing warning.
   */
  function WarningsAsCalled(scanType: string, ports: Option<string>): (w: seq<string>)
    ensures AggressiveWarning !in w
    ensures |w| <= 3
  {
    Warnings(scanType, ports, "")
  }

  /** A UDP scan without ports gets exactly the two UDP warnings and the privilege warning. */
  lemma UdpWithoutPortsWarnings(ports: Option<string>)
    requires !HasPorts(ports)
    ensures WarningsAsCalled("-sU", ports) == [UdpSlowWarning, UdpSudoWarning, RootWarning]
  {
  }

  // ---------------------------------------------------------------- whole request

  /** No scan type of the table is a timing flag. */
  lemma ScanTypeNotTiming(q: string)
    ensures !IsTiming(DetectScanType(q))
  {
    ScanTypeFromTable(q);
  }

  /** No port specification is a timing flag. */
  lemma PortsNotTiming(q: string)
    ensures ExtractPorts(q).Some? ==> !IsTiming(ExtractPorts(q).value)
  {
    PortsWellFormed(q);
  }

  /** No selected option is a timing flag. */
  lemma OptionsNotTiming(q: string, scanType: string)
    ensures forall o :: o in OptionsOf(q, scanType) ==> !IsTiming(o)
  {
    ChosenOnlyTable(q, scanType, |OptionTable|);
  }

  /**
   * For a request whose options arrive in any order (the set has none),
   * with the target supplied or extracted: the command has exactly one
   * timing flag, an aggressive scan lists none of the options it implies,
   * and the timing agrees with the scan type.
   */
  lemma RequestCommandShape(text: string, givenTarget: string, kgScripts: seq<string>, options: seq<string>)
    requires !IsTiming(givenTarget)
    requires forall o :: o in options <==> o in OptionsOf(Lower(text), DetectScanType(Lower(text)))
    ensures var q := Lower(text);
      var scanType := DetectScanType(q);
      var target := if givenTarget != "" then givenTarget else ExtractTarget(text);
      var scripts := if Contains(q, "script") then kgScripts else [];
      var parts := CommandParts(scanType, target, ExtractPorts(q), options, scripts, q);
      var n := |AppendNew(["nmap", scanType], options)|;
      && 2 <= n < |parts| && parts[n] == TimingFor(q, scanType)
      && (forall k :: 0 <= k < |parts| ==> (IsTiming(parts[k]) <==> k == n))
      && (scanType == "-A" ==> parts[n] == "-T4" && forall k :: 2 <= k < n ==> parts[k] !in Redundant)
      && (Contains(q, "aggressif") ==> parts[n] == "-T4")
  {
    var q := Lower(text);
    var scanType := DetectScanType(q);
    var target := if givenTarget != "" then givenTarget else ExtractTarget(text);
    var scripts := if Contains(q, "script") then kgScripts else [];
    var ports := ExtractPorts(q);
    ScanTypeNotTiming(q);
    PortsNotTiming(q);
    OptionsNotTiming(q, scanType);
    CommandShape(scanType, target, ports, options, scripts, q);
    if scanType == "-A" {
      AggressiveDropsRedundant(q);
      ImpliedOptionsAbsent(target, ports, options, scripts, q);
    }
  }

  /** Options outside `Redundant` give an aggressive command none of the options it implies. */
  lemma ImpliedOptionsAbsent(target: string, ports: Option<string>, options: seq<string>, scripts: seq<string>, q: string)
    requires forall o :: o in options ==> o !in Redundant
    ensures var parts := CommandParts("-A", target, ports, options, scripts, q);
      var n := |AppendNew(["nmap", "-A"], options)|;
      n <= |parts| && forall k :: 2 <= k < n ==> parts[k] !in Redundant
  {
    var head := AppendNew(["nmap", "-A"], options);
    AppendNewMeans(["nmap", "-A"], options);
    var parts := CommandParts("-A", target, ports, options, scripts, q);
    assert parts[..|head|] == head;
    forall k | 2 <= k < |head|
      ensures parts[k] !in Redundant
    {
      assert parts[k] == head[k] == head[2..][k - 2];
    }
  }
}
