/**
 * The part of Python's `ipaddress` module the risk engine relies on, for IPv4:
 * dotted-quad parsing (no leading zeros, octets up to 255), prefix-length
 * parsing (0..32), `ip_network(..., strict)`, membership and `overlaps`.
 * Addresses are natural numbers below 2^32; a network is an address block in
 * the sense of RFC 4632, section 3.1: a base address whose low `32 - prefix`
 * bits are zero, and the `2^(32 - prefix)` addresses that share its high bits.
 */
module Ipv4 {
  import opened Text

  function Pow2(n: nat): (r: nat)
    ensures r >= 1
  {
    if n == 0 then 1 else 2 * Pow2(n - 1)
  }

  /**
   * `q * s` by repeated addition. Block arithmetic is written with `Times`
   * and `Quot` so that every proof about blocks stays linear.
   */
  function Times(q: nat, s: nat): nat
    decreases q
  {
    if q == 0 then 0 else Times(q - 1, s) + s
  }

  /** `a // s` by repeated subtraction. */
  function Quot(a: nat, s: nat): nat
    requires s > 0
    decreases a
  {
    if a < s then 0 else 1 + Quot(a - s, s)
  }

  lemma {:induction false} TimesAdd(a: nat, b: nat, s: nat)
    ensures Times(a + b, s) == Times(a, s) + Times(b, s)
    decreases a
  {
    if a > 0 {
      TimesAdd(a - 1, b, s);
      assert Times(a + b, s) == Times(a - 1 + b, s) + s;
    }
  }

  lemma {:induction false} TimesIsProduct(q: nat, s: nat)
    ensures Times(q, s) == q * s
    decreases q
  {
    if q > 0 {
      TimesIsProduct(q - 1, s);
      assert (q - 1) * s + s == q * s;
    }
  }

  lemma TimesStrict(q1: nat, q2: nat, s: nat)
    requires q1 < q2
    ensures Times(q1, s) + s <= Times(q2, s)
  {
    TimesAdd(q1 + 1, q2 - q1 - 1, s);
    assert q2 == q1 + 1 + (q2 - q1 - 1);
  }

  lemma {:induction false} QuotBounds(a: nat, s: nat)
    requires s > 0
    ensures Times(Quot(a, s), s) <= a < Times(Quot(a, s), s) + s
    decreases a
  {
    if a >= s {
      QuotBounds(a - s, s);
      var q := Quot(a - s, s);
      assert Times(q + 1, s) == Times(q, s) + s;
    }
  }

  lemma QuotUnique(a: nat, s: nat, q: nat)
    requires s > 0 && Times(q, s) <= a < Times(q, s) + s
    ensures Quot(a, s) == q
  {
    QuotBounds(a, s);
    var d := Quot(a, s);
    if d < q {
      TimesStrict(d, q, s);
    } else if d > q {
      TimesStrict(q, d, s);
    }
  }

  lemma {:induction false} TimesNested(k: nat, m: nat, s: nat)
    ensures Times(k, Times(m, s)) == Times(Times(k, m), s)
    decreases k
  {
    if k > 0 {
      TimesNested(k - 1, m, s);
      TimesAdd(Times(k - 1, m), m, s);
    }
  }

  lemma {:induction false} Pow2Add(m: nat, n: nat)
    ensures Pow2(m + n) == Times(Pow2(m), Pow2(n))
    decreases m
  {
    if m > 0 {
      Pow2Add(m - 1, n);
      assert Pow2(m + n) == 2 * Pow2(m - 1 + n);
      TimesAdd(Pow2(m - 1), Pow2(m - 1), Pow2(n));
    }
  }

  lemma Pow2Values()
    ensures Pow2(4) == 16 && Pow2(8) == 256 && Pow2(16) == 0x1_0000
    ensures Pow2(28) == 0x1000_0000 && Pow2(32) == 0x1_0000_0000
  {
    assert Pow2(4) == 16;
    assert Pow2(8) == 256;
    assert Pow2(12) == 0x1000;
    assert Pow2(16) == 0x1_0000;
    assert Pow2(20) == 0x10_0000;
    assert Pow2(24) == 0x100_0000;
    assert Pow2(28) == 0x1000_0000;
  }

  /** Number of addresses in a block with the given prefix length. */
  function BlockSize(prefix: nat): nat
    requires prefix <= 32
  {
    Pow2(32 - prefix)
  }

  /** `address & netmask`: the address with its host bits cleared. */
  function Masked(a: nat, prefix: nat): nat
    requires prefix <= 32
  {
    Times(Quot(a, BlockSize(prefix)), BlockSize(prefix))
  }

  datatype Network = Network(base: nat, prefix: nat)

  /** A well-formed block: its base has no host bits set. */
  predicate ValidNetwork(n: Network)
  {
    n.prefix <= 32 && Masked(n.base, n.prefix) == n.base
  }

  /** Python's `address in network`. */
  predicate InNetwork(a: nat, n: Network)
    requires n.prefix <= 32
  {
    Masked(a, n.prefix) == n.base
  }

  /** Python's `network.broadcast_address`: the base with every host bit set. */
  function Broadcast(n: Network): nat
    requires n.prefix <= 32
  {
    n.base + BlockSize(n.prefix) - 1
  }

  /** Python's `x.overlaps(y)` for two IPv4 networks, disjunct for disjunct. */
  predicate Overlaps(x: Network, y: Network)
    requires x.prefix <= 32 && y.prefix <= 32
  {
    InNetwork(x.base, y) || InNetwork(Broadcast(x), y)
    || InNetwork(y.base, x) || InNetwork(Broadcast(y), x)
  }

  // ---- arithmetic on blocks ----

  /** With an aligned base, membership is the address range [base, base + size). */
  lemma InNetworkRange(a: nat, n: Network)
    requires ValidNetwork(n)
    ensures InNetwork(a, n) <==> n.base <= a < n.base + BlockSize(n.prefix)
  {
    var s := BlockSize(n.prefix);
    QuotBounds(a, s);
    if n.base <= a < n.base + s {
      QuotUnique(a, s, Quot(n.base, s));
    }
  }

  /** A base aligned to a large block (short prefix) is aligned to every smaller block (longer prefix). */
  lemma AlignedToSmaller(x: nat, short: nat, long: nat)
    requires short <= long <= 32
    requires Masked(x, short) == x
    ensures Masked(x, long) == x
  {
    var big, small := BlockSize(short), BlockSize(long);
    var m := Pow2(long - short);
    assert big == Times(m, small) by {
      Pow2Add(long - short, 32 - long);
      assert (long - short) + (32 - long) == 32 - short;
    }
    var k := Quot(x, big);
    var j := Times(k, m);
    assert x == Times(j, small) by {
      TimesNested(k, m, small);
    }
    QuotUnique(x, small, j);
  }

  /** Two aligned blocks whose sizes are powers of two either nest or are disjoint. */
  lemma {:induction false} OverlapsIffShorterContains(x: Network, y: Network)
    requires ValidNetwork(x) && ValidNetwork(y)
    ensures Overlaps(x, y) <==>
      (if x.prefix <= y.prefix then InNetwork(y.base, x) else InNetwork(x.base, y))
  {
    var sx, sy := BlockSize(x.prefix), BlockSize(y.prefix);
    InNetworkRange(x.base, y);
    InNetworkRange(Broadcast(x), y);
    InNetworkRange(y.base, x);
    InNetworkRange(Broadcast(y), x);
    if x.prefix <= y.prefix {
      if y.base < x.base {
        // y starts below x, so it ends before x starts
        NestedBlocks(x, y);
      }
    } else {
      if x.base < y.base {
        NestedBlocks(y, x);
      }
    }
  }

  /** An aligned base above another block's base lies at or beyond that block's end. */
  lemma NestedBlocks(x: Network, y: Network)
    requires ValidNetwork(x) && ValidNetwork(y) && x.prefix <= y.prefix
    requires y.base < x.base
    ensures y.base + BlockSize(y.prefix) <= x.base
  {
    var sy := BlockSize(y.prefix);
    AlignedToSmaller(x.base, x.prefix, y.prefix);
    var kx, ky := Quot(x.base, sy), Quot(y.base, sy);
    if kx < ky {
      TimesStrict(kx, ky, sy);
    } else if ky < kx {
      TimesStrict(ky, kx, sy);
    }
  }

  // ---- parsing, as ipaddress does it in Python 3.9.5 and later ----

  /** One decimal octet: 1 to 3 ASCII digits, no leading zero, at most 255. */
  function ParseOctet(s: string): (r: Option<nat>)
    ensures r.Some? ==> r.value <= 255
  {
    if |s| == 0 || !AllDigits(s) || |s| > 3 then None
    else if s != "0" && s[0] == '0' then None
    else if DigitsValue(s) > 255 then None
    else Some(DigitsValue(s))
  }

  /** `IPv4Address(s)`: exactly four dot-separated octets. */
  function ParseAddress(s: string): (r: Option<nat>)
    ensures r.Some? ==> r.value < 0x1_0000_0000
  {
    var parts := SplitOn(s, '.');
    if |parts| != 4 then None
    else
      match (ParseOctet(parts[0]), ParseOctet(parts[1]), ParseOctet(parts[2]), ParseOctet(parts[3]))
      case (Some(a), Some(b), Some(c), Some(d)) => Some(((a * 256 + b) * 256 + c) * 256 + d)
      case _ => None
  }

  /** A prefix length in decimal: ASCII digits (leading zeros allowed), value 0..32. */
  function ParsePrefix(s: string): (r: Option<nat>)
    ensures r.Some? ==> r.value <= 32
  {
    if |s| == 0 || !AllDigits(s) || DigitsValue(s) > 32 then None
    else Some(DigitsValue(s))
  }

  /**
   * `ip_network(s, strict)` for IPv4 prefix notation: an address, optionally
   * `/prefix` (32 when absent). A strict parse refuses an address with host
   * bits set; a lax one clears them. `None` stands for the ValueError.
   */
  function ParseNetwork(s: string, strict: bool): (r: Option<Network>)
    ensures r.Some? ==> ValidNetwork(r.value)
  {
    var parts := SplitOn(s, '/');
    if |parts| > 2 then None
    else
      match ParseAddress(parts[0])
      case None => None
      case Some(a) =>
        var p := if |parts| == 2 then ParsePrefix(parts[1]) else Some(32);
        match p
        case None => None
        case Some(len) =>
          if strict && Masked(a, len) != a then None
          else
            MaskedIsAligned(a, len);
            Some(Network(Masked(a, len), len))
  }

  lemma MaskedIsAligned(a: nat, prefix: nat)
    requires prefix <= 32
    ensures Masked(Masked(a, prefix), prefix) == Masked(a, prefix)
  {
    var s := BlockSize(prefix);
    QuotUnique(Times(Quot(a, s), s), s, Quot(a, s));
  }
}
