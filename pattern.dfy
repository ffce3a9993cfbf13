/**
 * Recognisers for the fixed error-text patterns of the execution report and
 * the correction table. Each of those regular expressions is a chain of
 * literal pieces joined by `.*` (any run of characters other than a newline),
 * optionally with `|` alternatives; they are only ever used as a yes/no
 * `re.search`, case-insensitively.
 */
module Pattern {
  import opened Text

  /** One alternative: literal pieces that must appear in order, with `.*` between them. */
  type Pieces = seq<string>

  /** The pieces match starting exactly at the beginning of `s`. */
  predicate MatchAt(s: string, pieces: Pieces)
    decreases |pieces|, |s|, 0
  {
    |pieces| == 0 ||
    (StartsWith(s, pieces[0]) && GapThen(s[|pieces[0]|..], pieces[1..]))
  }

  /** `.*` followed by the pieces: skip zero or more non-newline characters, then match. */
  predicate GapThen(s: string, pieces: Pieces)
    decreases |pieces|, |s|, 1
  {
    MatchAt(s, pieces) || (|s| > 0 && s[0] != '\n' && GapThen(s[1..], pieces))
  }

  /** `re.search(pieces joined by ".*", s)` is truthy. */
  predicate Found(s: string, pieces: Pieces)
    decreases |s|
  {
    MatchAt(s, pieces) || (|s| > 0 && Found(s[1..], pieces))
  }

  function LowerAll(pieces: Pieces): (r: Pieces)
    ensures |r| == |pieces|
    ensures forall k :: 0 <= k < |pieces| ==> r[k] == Lower(pieces[k])
  {
    seq(|pieces|, k requires 0 <= k < |pieces| => Lower(pieces[k]))
  }

  /** The same search with `re.IGNORECASE` (ASCII letters). */
  predicate FoundIgnoringCase(s: string, pieces: Pieces)
  {
    Found(Lower(s), LowerAll(pieces))
  }

  /** An alternation `a|b|…`: some alternative is found. */
  predicate AnyFoundIgnoringCase(s: string, alts: seq<Pieces>)
  {
    exists k :: 0 <= k < |alts| && FoundIgnoringCase(s, alts[k])
  }

  /** A pattern without `.*` is found exactly when it is a substring. */
  lemma {:induction false} FoundLiteral(s: string, p: string)
    ensures Found(s, [p]) <==> Contains(s, p)
    decreases |s|
  {
    assert [p][1..] == [];
    if StartsWith(s, p) {
      assert GapThen(s[|p|..], []) by { assert MatchAt(s[|p|..], []); }
    }
    if |s| > 0 {
      FoundLiteral(s[1..], p);
    }
  }

  /** `a.*b` is found when `a` occurs and `b` follows it later on the same line. */
  lemma FoundPair(s: string, a: string, b: string, i: nat, k: nat)
    requires i + |a| + k <= |s|
    requires StartsWith(s[i..], a) && StartsWith(s[i + |a| + k..], b)
    requires forall j :: i + |a| <= j < i + |a| + k ==> s[j] != '\n'
    ensures Found(s, [a, b])
  {
    GapSkips(s[i + |a|..], [b], k);
    assert s[i..][|a|..] == s[i + |a|..];
    assert [a, b][1..] == [b];
    FoundFrom(s, [a, b], i);
  }

  lemma {:induction false} GapSkips(s: string, pieces: Pieces, k: nat)
    requires k <= |s| && MatchAt(s[k..], pieces)
    requires forall j :: 0 <= j < k ==> s[j] != '\n'
    ensures GapThen(s, pieces)
    decreases k
  {
    if k > 0 {
      assert s[1..][k - 1..] == s[k..];
      GapSkips(s[1..], pieces, k - 1);
    }
  }

  lemma {:induction false} FoundFrom(s: string, pieces: Pieces, i: nat)
    requires i <= |s| && MatchAt(s[i..], pieces)
    ensures Found(s, pieces)
    decreases i
  {
    if i > 0 {
      assert s[1..][i - 1..] == s[i..];
      FoundFrom(s[1..], pieces, i - 1);
    }
  }
}
