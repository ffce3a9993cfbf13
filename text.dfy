/**
 * The handful of Python string operations the pipeline is built from, on
 * `seq<char>`: prefix and substring tests, global `str.replace`, `strip`,
 * whitespace `split`, `join`, decimal formatting and parsing, ASCII case
 * folding, and two generic drivers for `re.search` and `re.sub` over a
 * hand-written matcher of one fixed pattern.
 *
 * Character classes follow Python on ASCII text: `\d` is 0-9, `\w` is letters,
 * digits and `_`, `\s` (and `str.isspace`) is tab, LF, VT, FF, CR, the four
 * information separators and space.
 */
module Text {

  datatype Option<T> = None | Some(value: T)

  predicate IsDigit(c: char) { '0' <= c <= '9' }

  predicate IsLetter(c: char) { 'a' <= c <= 'z' || 'A' <= c <= 'Z' }

  predicate IsWordChar(c: char) { IsLetter(c) || IsDigit(c) || c == '_' }

  predicate IsSpace(c: char) { c == ' ' || 9 <= c as int <= 13 || 28 <= c as int <= 31 }

  predicate AllDigits(s: string) { forall i :: 0 <= i < |s| ==> IsDigit(s[i]) }

  /** `str.lower()` on one character, ASCII letters only. */
  function LowerChar(c: char): char
  {
    if 'A' <= c <= 'Z' then (c as int + 32) as char else c
  }

  function Lower(s: string): (r: string)
    ensures |r| == |s|
    ensures forall i :: 0 <= i < |s| ==> r[i] == LowerChar(s[i])
  {
    seq(|s|, i requires 0 <= i < |s| => LowerChar(s[i]))
  }

  predicate StartsWith(s: string, p: string)
  {
    |p| <= |s| && s[..|p|] == p
  }

  /** Appending in two steps is appending the two parts at once. */
  lemma AppendAssoc<T>(a: seq<T>, b: seq<T>, c: seq<T>)
    ensures (a + b) + c == a + (b + c)
  {
  }

  /** Python's `p in s`. */
  predicate Contains(s: string, p: string)
    decreases |s|
  {
    StartsWith(s, p) || (|s| > 0 && Contains(s[1..], p))
  }

  lemma {:induction false} ContainsAt(s: string, p: string, i: nat)
    requires i <= |s| && StartsWith(s[i..], p)
    ensures Contains(s, p)
    decreases i
  {
    if i > 0 {
      assert s[1..][i - 1..] == s[i..];
      ContainsAt(s[1..], p, i - 1);
    }
  }

  lemma {:induction false} ContainsWitness(s: string, p: string) returns (i: nat)
    requires Contains(s, p)
    ensures i <= |s| && StartsWith(s[i..], p)
    decreases |s|
  {
    if StartsWith(s, p) {
      i := 0;
    } else {
      var j := ContainsWitness(s[1..], p);
      assert s[1..][j..] == s[j + 1..];
      i := j + 1;
    }
  }

  lemma ContainsPrefix(a: string, b: string, p: string)
    requires Contains(a, p)
    ensures Contains(a + b, p)
  {
    var i := ContainsWitness(a, p);
    assert (a + b)[i..][..|p|] == a[i..][..|p|];
    ContainsAt(a + b, p, i);
  }

  /** Python's `s.replace(pat, rep)`: every non-overlapping occurrence, scanned left to right. */
  function ReplaceAll(s: string, pat: string, rep: string): string
    requires |pat| > 0
    decreases |s|
  {
    if |s| == 0 then []
    else if StartsWith(s, pat) then rep + ReplaceAll(s[|pat|..], pat, rep)
    else [s[0]] + ReplaceAll(s[1..], pat, rep)
  }

  /** Replacing a substring that does not occur leaves the text unchanged. */
  lemma {:induction false} ReplaceAllAbsent(s: string, pat: string, rep: string)
    requires |pat| > 0 && !Contains(s, pat)
    ensures ReplaceAll(s, pat, rep) == s
    decreases |s|
  {
    if |s| > 0 {
      ReplaceAllAbsent(s[1..], pat, rep);
      assert [s[0]] + s[1..] == s;
    }
  }

  /** Replacing a pattern that occurs changes the text when the replacement differs
      from the pattern in its last character and has the same length. */
  lemma {:induction false} ReplaceAllPresent(s: string, pat: string, rep: string)
    requires |pat| > 0 && |rep| == |pat| && rep[|rep| - 1] != pat[|pat| - 1]
    requires Contains(s, pat)
    ensures ReplaceAll(s, pat, rep) != s
    decreases |s|
  {
    ReplaceAllLength(s, pat, rep);
    if StartsWith(s, pat) {
      assert ReplaceAll(s, pat, rep)[|pat| - 1] == rep[|rep| - 1];
      assert s[|pat| - 1] == pat[|pat| - 1];
    } else {
      ReplaceAllPresent(s[1..], pat, rep);
      assert ReplaceAll(s, pat, rep)[1..] == ReplaceAll(s[1..], pat, rep);
    }
  }

  lemma {:induction false} ReplaceAllLength(s: string, pat: string, rep: string)
    requires |pat| > 0 && |rep| == |pat|
    ensures |ReplaceAll(s, pat, rep)| == |s|
    decreases |s|
  {
    if |s| > 0 {
      if StartsWith(s, pat) {
        ReplaceAllLength(s[|pat|..], pat, rep);
      } else {
        ReplaceAllLength(s[1..], pat, rep);
      }
    }
  }

  /** The first character of a replacement result. */
  lemma ReplaceAllHead(s: string, pat: string, rep: string)
    requires |pat| > 0 && |rep| > 0 && |s| > 0
    ensures StartsWith(s, pat) ==> StartsWith(ReplaceAll(s, pat, rep), rep)
    ensures !StartsWith(s, pat) ==> |ReplaceAll(s, pat, rep)| > 0 && ReplaceAll(s, pat, rep)[0] == s[0]
  {
  }

  /**
   * Rewriting a three-character flag `a b x` into `a b y` removes every occurrence:
   * the flag cannot reappear across a rewritten occurrence, provided `a`, `b`, `x`
   * are distinct and `y` differs from `a` and `x`. This covers `-sS`→`-sT`,
   * `-sA`→`-sT` and the timing steps `-T5`→`-T4`.
   */
  lemma {:induction false} ReplaceFlagRemovesIt(s: string, a: char, b: char, x: char, y: char)
    requires a != b && a != x && b != x && y != x && y != a
    ensures !Contains(ReplaceAll(s, [a, b, x], [a, b, y]), [a, b, x])
    decreases |s|
  {
    var pat, rep := [a, b, x], [a, b, y];
    var r := ReplaceAll(s, pat, rep);
    if |s| == 0 {
      return;
    }
    if StartsWith(s, pat) {
      var rest := ReplaceAll(s[3..], pat, rep);
      ReplaceFlagRemovesIt(s[3..], a, b, x, y);
      assert r == rep + rest;
      assert r[1..][1..] == [y] + rest;
      assert r[1..][1..][1..] == rest;
      assert !StartsWith(r, pat);
      assert !StartsWith(r[1..], pat);
      assert !StartsWith(r[1..][1..], pat);
      assert !Contains(r[1..][1..], pat);
      assert !Contains(r[1..], pat);
    } else {
      var t := s[1..];
      var rest := ReplaceAll(t, pat, rep);
      ReplaceFlagRemovesIt(t, a, b, x, y);
      assert r == [s[0]] + rest;
      assert r[1..] == rest;
      // the flag at the head of r would have to be the flag at the head of s
      if |t| > 0 {
        ReplaceAllHead(t, pat, rep);
        if |t| > 1 {
          ReplaceAllHead(t[1..], pat, rep);
        }
      }
    }
  }

  /**
   * Rewriting `a b x` into `a b y` creates no flag `a b z` with `z` other than
   * `y` that was not there before (`-T4`→`-T3` cannot make a `-T5`).
   */
  lemma {:induction false} ReplaceFlagKeepsOut(s: string, a: char, b: char, x: char, y: char, z: char)
    requires a != b && a != x && b != x && a != y && b != y && a != z && b != z && z != y
    requires !Contains(s, [a, b, z])
    ensures !Contains(ReplaceAll(s, [a, b, x], [a, b, y]), [a, b, z])
    decreases |s|
  {
    var pat, rep, q := [a, b, x], [a, b, y], [a, b, z];
    var r := ReplaceAll(s, pat, rep);
    if |s| == 0 {
      return;
    }
    if StartsWith(s, pat) {
      assert !Contains(s[1..], q);
      assert !Contains(s[1..][1..], q);
      assert !Contains(s[1..][1..][1..], q);
      assert s[1..][1..][1..] == s[3..];
      ReplaceFlagKeepsOut(s[3..], a, b, x, y, z);
      var rest := ReplaceAll(s[3..], pat, rep);
      assert r == rep + rest;
      assert r[1..][1..][1..] == rest;
      assert !StartsWith(r, q);
      assert !StartsWith(r[1..], q);
      assert !StartsWith(r[1..][1..], q);
      assert !Contains(r[1..][1..], q);
      assert !Contains(r[1..], q);
    } else {
      var t := s[1..];
      ReplaceFlagKeepsOut(t, a, b, x, y, z);
      var rest := ReplaceAll(t, pat, rep);
      assert r == [s[0]] + rest;
      assert r[1..] == rest;
      if |t| > 0 {
        ReplaceAllHead(t, pat, rep);
        if |t| > 1 {
          ReplaceAllHead(t[1..], pat, rep);
        }
      }
    }
  }

  /**
   * The first entry of a replacement table, from position `i` on, whose key occurs
   * in `s`: the lookup behind "replace the first flag of the table that is present".
   */
  function FirstPresentFrom(s: string, pairs: seq<(string, string)>, i: nat): (r: Option<nat>)
    requires i <= |pairs|
    ensures r.Some? ==> i <= r.value < |pairs| && Contains(s, pairs[r.value].0)
    ensures forall k :: i <= k < (if r.Some? then r.value else |pairs|) ==> !Contains(s, pairs[k].0)
    decreases |pairs| - i
  {
    if i == |pairs| then None
    else if Contains(s, pairs[i].0) then Some(i)
    else FirstPresentFrom(s, pairs, i + 1)
  }

  /** A substring of a slice is a substring of the whole. */
  lemma ContainsSlice(s: string, i: nat, j: nat, p: string)
    requires i <= j <= |s| && Contains(s[i..j], p)
    ensures Contains(s, p)
  {
    var k := ContainsWitness(s[i..j], p);
    assert s[i..j][k..][..|p|] == s[i + k..][..|p|];
    ContainsAt(s, p, i + k);
  }

  /** Stripping whitespace cannot create a substring. */
  lemma StripContains(s: string, p: string)
    requires Contains(Strip(s), p)
    ensures Contains(s, p)
  {
    StripRightContains(StripLeft(s), p);
    StripLeftContains(s, p);
  }

  lemma StripRightContains(s: string, p: string)
    requires Contains(StripRight(s), p)
    ensures Contains(s, p)
  {
    var r := StripRight(s);
    assert s[0..|r|] == r;
    ContainsSlice(s, 0, |r|, p);
  }

  lemma StripLeftContains(s: string, p: string)
    requires Contains(StripLeft(s), p)
    ensures Contains(s, p)
  {
    var l := StripLeft(s);
    assert s[|s| - |l|..|s|] == l;
    ContainsSlice(s, |s| - |l|, |s|, p);
  }

  /** The run of digits at the head of `x + y` is `x` when `y` does not start with a digit. */
  lemma {:induction false} SpanDigits(x: string, y: string)
    requires AllDigits(x) && (|y| == 0 || !IsDigit(y[0]))
    ensures Span(x + y, IsDigit) == |x|
    decreases |x|
  {
    if |x| > 0 {
      assert (x + y)[1..] == x[1..] + y;
      SpanDigits(x[1..], y);
    }
  }

  function StripLeft(s: string): (r: string)
    ensures |r| <= |s| && r == s[|s| - |r|..]
    ensures |r| > 0 ==> !IsSpace(r[0])
    decreases |s|
  {
    if |s| > 0 && IsSpace(s[0]) then StripLeft(s[1..]) else s
  }

  function StripRight(s: string): (r: string)
    ensures |r| <= |s| && r == s[..|r|]
    ensures |r| > 0 ==> !IsSpace(r[|r| - 1])
    decreases |s|
  {
    if |s| > 0 && IsSpace(s[|s| - 1]) then StripRight(s[..|s| - 1]) else s
  }

  /** Python's `str.strip()`. */
  function Strip(s: string): string
  {
    StripRight(StripLeft(s))
  }

  /** Length of the longest prefix of `s` whose characters all satisfy `p`. */
  function Span(s: string, p: char -> bool): (n: nat)
    ensures n <= |s|
    ensures forall i :: 0 <= i < n ==> p(s[i])
    ensures n < |s| ==> !p(s[n])
    decreases |s|
  {
    if |s| > 0 && p(s[0]) then 1 + Span(s[1..], p) else 0
  }

  /** Length of the longest prefix of `s` holding no separator. */
  function Until(s: string, sep: char -> bool): (n: nat)
    ensures n <= |s|
    ensures forall i :: 0 <= i < n ==> !sep(s[i])
    ensures n < |s| ==> sep(s[n])
    decreases |s|
  {
    if |s| > 0 && !sep(s[0]) then 1 + Until(s[1..], sep) else 0
  }

  /** Maximal runs of characters that are not separators, in order. */
  function SplitBy(s: string, sep: char -> bool): (r: seq<string>)
    ensures forall k :: 0 <= k < |r| ==> |r[k]| > 0 && forall j :: 0 <= j < |r[k]| ==> !sep(r[k][j])
    decreases |s|
  {
    if |s| == 0 then []
    else if sep(s[0]) then SplitBy(s[1..], sep)
    else
      var n := Until(s, sep);
      [s[..n]] + SplitBy(s[n..], sep)
  }

  /** Python's `str.split()` with no separator. */
  function SplitWs(s: string): (r: seq<string>)
  {
    SplitBy(s, IsSpace)
  }

  /** Python's `s.split(c)` with a one-character separator: always at least one part. */
  function SplitOn(s: string, c: char): (r: seq<string>)
    ensures |r| >= 1
    decreases |s|
  {
    if |s| == 0 then [""]
    else
      var rest := SplitOn(s[1..], c);
      if s[0] == c then [""] + rest else [[s[0]] + rest[0]] + rest[1..]
  }

  lemma {:induction false} SplitOnNone(s: string, c: char)
    requires c !in s
    ensures SplitOn(s, c) == [s]
    decreases |s|
  {
    if |s| > 0 {
      SplitOnNone(s[1..], c);
      assert [s[0]] + s[1..] == s;
    }
  }

  lemma {:induction false} SplitOnCons(a: string, b: string, c: char)
    requires c !in a
    ensures SplitOn(a + [c] + b, c) == [a] + SplitOn(b, c)
    decreases |a|
  {
    var s := a + [c] + b;
    if |a| == 0 {
      assert s[1..] == b;
    } else {
      assert s[1..] == a[1..] + [c] + b;
      SplitOnCons(a[1..], b, c);
      assert [a[0]] + a[1..] == a;
    }
  }

  lemma DigitsValue3(x: char, y: char, z: char)
    requires IsDigit(x) && IsDigit(y) && IsDigit(z)
    ensures DigitsValue([x, y, z]) == (x as int - '0' as int) * 100 + (y as int - '0' as int) * 10 + (z as int - '0' as int)
  {
    DigitsValue1(x);
    assert [x, y][..1] == [x];
    assert DigitsValue([x, y]) == DigitsValue([x]) * 10 + (y as int - '0' as int);
    assert [x, y, z][..2] == [x, y];
    assert DigitsValue([x, y, z]) == DigitsValue([x, y]) * 10 + (z as int - '0' as int);
  }

  lemma DigitsValue1(x: char)
    requires IsDigit(x)
    ensures DigitsValue([x]) == x as int - '0' as int
  {
    assert [x][..0] == [];
    assert DigitsValue([x]) == DigitsValue([]) * 10 + (x as int - '0' as int);
  }

  /** Python's `sep.join(parts)`. */
  function Join(parts: seq<string>, sep: string): string
    decreases |parts|
  {
    if |parts| == 0 then ""
    else if |parts| == 1 then parts[0]
    else parts[0] + sep + Join(parts[1..], sep)
  }

  function DigitChar(d: nat): char
    requires d < 10
  {
    ('0' as int + d) as char
  }

  /** `str(n)` for a natural number. */
  function NatToString(n: nat): (r: string)
    ensures |r| > 0 && AllDigits(r)
    decreases n
  {
    if n < 10 then [DigitChar(n)] else NatToString(n / 10) + [DigitChar(n % 10)]
  }

  /** `int(s)` for a string of ASCII digits. */
  function DigitsValue(s: string): nat
    requires AllDigits(s)
    decreases |s|
  {
    if |s| == 0 then 0
    else DigitsValue(s[..|s| - 1]) * 10 + (s[|s| - 1] as int - '0' as int)
  }

  /** Formatting a number and reading it back gives the number. */
  lemma {:induction false} DigitsOfNatToString(n: nat)
    ensures DigitsValue(NatToString(n)) == n
    decreases n
  {
    var r := NatToString(n);
    if n >= 10 {
      DigitsOfNatToString(n / 10);
      assert r[..|r| - 1] == NatToString(n / 10);
    }
  }

  /**
   * `re.search`: the first position, scanning left to right, where the matcher
   * accepts the remaining text. A matcher of a pattern without anchors or
   * look-behind only needs the text from that position on.
   */
  function Search<T>(s: string, m: string -> Option<T>): Option<T>
    decreases |s|
  {
    if m(s).Some? then m(s)
    else if |s| == 0 then None
    else Search(s[1..], m)
  }

  /** A match of `re.sub`'s pattern at the current position: its length and its replacement text. */
  datatype Hit = Hit(len: nat, repl: string)

  /**
   * `re.sub(pattern, repl, s)` for a pattern that never matches the empty string:
   * every non-overlapping match, scanned left to right, replaced by its text.
   * A matcher never reports an empty or overlong match; the guard only makes
   * termination evident.
   */
  function SubAll(s: string, m: string -> Option<Hit>): string
    decreases |s|
  {
    if |s| == 0 then []
    else match m(s)
      case Some(h) =>
        if 0 < h.len <= |s| then h.repl + SubAll(s[h.len..], m)
        else [s[0]] + SubAll(s[1..], m)
      case None => [s[0]] + SubAll(s[1..], m)
  }

  /** `re.sub` leaves a text alone when the pattern matches nowhere in it. */
  lemma {:induction false} SubAllNoMatch(s: string, m: string -> Option<Hit>)
    requires Search(s, m) == None
    ensures SubAll(s, m) == s
    decreases |s|
  {
    if |s| > 0 {
      SubAllNoMatch(s[1..], m);
      assert [s[0]] + s[1..] == s;
    }
  }
}
