/**
 * The orchestrator's keyword classifier: whether a request is about nmap,
 * and a baseline complexity level that picks the first generator tier.
 * Both look at the lower-cased request text.
 */
module Classify {
  import opened Text

  datatype Level = Easy | Medium | Hard

  const NmapHints: seq<string> := ["nmap", "-sS", "-sU", "-A", "-p", "--open", "udp", "tcp", "scan", "port", "os detect"]

  /** The hints that can occur in lower-cased text. */
  const LowerCaseHints: seq<string> := ["nmap", "-p", "--open", "udp", "tcp", "scan", "port", "os detect"]

  const HardKeywords: seq<string> := ["udp", "all ports", "os detect", "fragment", "bypass", "evasion"]
  const MediumKeywords: seq<string> := ["version", "scripts", "timing", "exclude", "-sV"]

  /** `any(k in t for k in keys)`. */
  predicate AnyIn(t: string, keys: seq<string>)
  {
    exists k :: 0 <= k < |keys| && Contains(t, keys[k])
  }

  datatype Classification = Classification(isNmapRelated: bool, reason: string)

  /** `is_nmap_related`. */
  function IsNmapRelated(text: string): (r: Classification)
    ensures r.reason == (if r.isNmapRelated then "Contient des mots-clés Nmap" else "Aucun mot-clé détecté")
  {
    var hit := AnyIn(Lower(text), NmapHints);
    Classification(hit, if hit then "Contient des mots-clés Nmap" else "Aucun mot-clé détecté")
  }

  /** A level with its confidence in hundredths. */
  datatype Complexity = Complexity(level: Level, confidence: nat)

  /** `baseline_complexity`: hard keywords first, then medium ones, else easy. */
  function BaselineComplexity(text: string): (r: Complexity)
    ensures r.level == Hard <==> r.confidence == 70
    ensures r.level == Medium <==> r.confidence == 60
    ensures r.level == Easy <==> r.confidence == 80
  {
    var t := Lower(text);
    if AnyIn(t, HardKeywords) then Complexity(Hard, 70)
    else if AnyIn(t, MediumKeywords) then Complexity(Medium, 60)
    else Complexity(Easy, 80)
  }

  /** Lower-cased text never contains a pattern with an upper-case letter. */
  lemma LowerHasNoUpper(text: string, p: string, j: nat)
    requires j < |p| && 'A' <= p[j] <= 'Z'
    ensures !Contains(Lower(text), p)
  {
    if Contains(Lower(text), p) {
      var i := ContainsWitness(Lower(text), p);
      assert false;
    }
  }

  /**
   * The hints `-sS`, `-sU` and `-A` never match, so the request is about nmap
   * exactly when one of the other eight hints occurs.
   */
  lemma NmapHintsThatMatch(text: string)
    ensures IsNmapRelated(text).isNmapRelated <==> AnyIn(Lower(text), LowerCaseHints)
  {
    var t := Lower(text);
    LowerHasNoUpper(text, "-sS", 2);
    LowerHasNoUpper(text, "-sU", 2);
    LowerHasNoUpper(text, "-A", 1);
    if AnyIn(t, NmapHints) {
      var k :| 0 <= k < |NmapHints| && Contains(t, NmapHints[k]);
      assert k != 1 && k != 2 && k != 3;
      var m := if k == 0 then 0 else k - 3;
      assert LowerCaseHints[m] == NmapHints[k];
    }
    if AnyIn(t, LowerCaseHints) {
      var m :| 0 <= m < |LowerCaseHints| && Contains(t, LowerCaseHints[m]);
      var k := if m == 0 then 0 else m + 3;
      assert NmapHints[k] == LowerCaseHints[m];
    }
  }

  /**
   * The medium keyword `-sV` never matches: the medium level needs one of the
   * four lower-case medium keywords and none of the hard ones.
   */
  lemma MediumNeedsLowerCaseKeyword(text: string)
    ensures BaselineComplexity(text).level == Medium <==>
      !AnyIn(Lower(text), HardKeywords) && AnyIn(Lower(text), MediumKeywords[..4])
  {
    var t := Lower(text);
    LowerHasNoUpper(text, "-sV", 2);
    if AnyIn(t, MediumKeywords) {
      var k :| 0 <= k < |MediumKeywords| && Contains(t, MediumKeywords[k]);
      assert k < 4 && MediumKeywords[..4][k] == MediumKeywords[k];
    }
    if AnyIn(t, MediumKeywords[..4]) {
      var k :| 0 <= k < 4 && Contains(t, MediumKeywords[..4][k]);
      assert MediumKeywords[k] == MediumKeywords[..4][k];
    }
  }

  /** A request naming UDP is always hard, whatever else it names. */
  lemma UdpIsHard(text: string)
    requires Contains(Lower(text), "udp")
    ensures BaselineComplexity(text) == Complexity(Hard, 70)
  {
    assert Contains(Lower(text), HardKeywords[0]);
  }
}
