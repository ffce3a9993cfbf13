/**
 * Python's `shlex.split(s)`: POSIX-mode tokenising with whitespace splitting
 * and no comment characters. Words are separated by space, tab, carriage
 * return or newline; single quotes take their contents literally; double
 * quotes group their contents, and inside them a backslash escapes only `"`
 * and `\`; outside quotes a backslash escapes any character. A quote left
 * open or a backslash at the very end is a ValueError.
 */
module Shlex {
  import opened Text

  predicate IsShlexSpace(c: char) { c == ' ' || c == '\t' || c == '\r' || c == '\n' }

  datatype LexState = Between | Word | Quote(q: char) | Escape(inDouble: bool)

  datatype LexResult = Tokens(tokens: seq<string>) | LexError(msg: string)

  const NoClosingQuotation := "No closing quotation"
  const NoEscapedCharacter := "No escaped character"

  /** The word being read, if the tokenizer would hand it out now. */
  function Pending(tok: string, quoted: bool): seq<string>
  {
    if tok != "" || quoted then [tok] else []
  }

  /**
   * One pass of `read_token`, carried across tokens: `tok` is the word read so
   * far, `quoted` whether it has met a quote (so an empty word still counts),
   * `acc` the words already handed out.
   */
  function Lex(s: string, st: LexState, tok: string, quoted: bool, acc: seq<string>): LexResult
    decreases |s|
  {
    if |s| == 0 then
      match st
      case Quote(_) => LexError(NoClosingQuotation)
      case Escape(_) => LexError(NoEscapedCharacter)
      case _ => Tokens(acc + Pending(tok, quoted))
    else
      var c, rest := s[0], s[1..];
      match st
      case Between =>
        if IsShlexSpace(c) then Lex(rest, Between, tok, quoted, acc)
        else if c == '\\' then Lex(rest, Escape(false), tok, quoted, acc)
        else if c == '\'' || c == '"' then Lex(rest, Quote(c), tok, true, acc)
        else Lex(rest, Word, tok + [c], quoted, acc)
      case Word =>
        if IsShlexSpace(c) then Lex(rest, Between, "", false, acc + Pending(tok, quoted))
        else if c == '\\' then Lex(rest, Escape(false), tok, quoted, acc)
        else if c == '\'' || c == '"' then Lex(rest, Quote(c), tok, true, acc)
        else Lex(rest, Word, tok + [c], quoted, acc)
      case Quote(q) =>
        if c == q then Lex(rest, Word, tok, quoted, acc)
        else if c == '\\' && q == '"' then Lex(rest, Escape(true), tok, quoted, acc)
        else Lex(rest, Quote(q), tok + [c], quoted, acc)
      case Escape(inDouble) =>
        if inDouble then
          var kept := if c != '\\' && c != '"' then ['\\', c] else [c];
          Lex(rest, Quote('"'), tok + kept, quoted, acc)
        else Lex(rest, Word, tok + [c], quoted, acc)
  }

  /** `shlex.split(s)`. */
  function Split(s: string): LexResult
  {
    Lex(s, Between, "", false, [])
  }

  /** Text with no quote and no backslash. */
  predicate Plain(s: string)
  {
    forall i :: 0 <= i < |s| ==> s[i] != '\'' && s[i] != '"' && s[i] != '\\'
  }

  /** Between words, plain text splits at whitespace. */
  lemma {:induction false} LexBetweenPlain(s: string, acc: seq<string>)
    requires Plain(s)
    ensures Lex(s, Between, "", false, acc) == Tokens(acc + SplitBy(s, IsShlexSpace))
    decreases |s|, 0
  {
    if |s| > 0 {
      assert Plain(s[1..]) by { assert forall i :: 0 <= i < |s[1..]| ==> s[1..][i] == s[i + 1]; }
      if IsShlexSpace(s[0]) {
        LexBetweenPlain(s[1..], acc);
      } else {
        assert "" + [s[0]] == [s[0]];
        LexWordPlain(s[1..], [s[0]], acc);
        UntilStep(s);
      }
    }
  }

  /** Inside a word, plain text extends the word up to the next whitespace. */
  lemma {:induction false} LexWordPlain(s: string, tok: string, acc: seq<string>)
    requires Plain(s) && tok != ""
    ensures var n := Until(s, IsShlexSpace);
      Lex(s, Word, tok, false, acc) == Tokens(acc + [tok + s[..n]] + SplitBy(s[n..], IsShlexSpace))
    decreases |s|, 1
  {
    if |s| == 0 {
      assert tok + s[..0] == tok;
    } else {
      assert Plain(s[1..]) by { assert forall i :: 0 <= i < |s[1..]| ==> s[1..][i] == s[i + 1]; }
      if IsShlexSpace(s[0]) {
        LexBetweenPlain(s[1..], acc + [tok]);
        assert tok + s[..0] == tok;
        assert SplitBy(s, IsShlexSpace) == SplitBy(s[1..], IsShlexSpace);
      } else {
        LexWordPlain(s[1..], tok + [s[0]], acc);
        var m := Until(s[1..], IsShlexSpace);
        assert Until(s, IsShlexSpace) == 1 + m;
        assert tok + [s[0]] + s[1..][..m] == tok + s[..1 + m];
        assert s[1..][m..] == s[1 + m..];
      }
    }
  }

  lemma UntilStep(s: string)
    requires |s| > 0 && !IsShlexSpace(s[0])
    ensures var n := Until(s, IsShlexSpace);
      var m := Until(s[1..], IsShlexSpace);
      n == 1 + m && [s[0]] + s[1..][..m] == s[..n] && s[1..][m..] == s[n..]
  {
  }

  /** Without quotes or backslashes, `shlex.split` is a plain whitespace split. */
  lemma PlainSplit(s: string)
    requires Plain(s)
    ensures Split(s) == Tokens(SplitBy(s, IsShlexSpace))
  {
    LexBetweenPlain(s, []);
  }

  /** A single-quoted stretch is copied verbatim into the word, whatever it holds. */
  lemma {:induction false} SingleQuotedVerbatim(w: string, rest: string, tok: string, acc: seq<string>)
    requires '\'' !in w
    ensures Lex(w + "'" + rest, Quote('\''), tok, true, acc) == Lex(rest, Word, tok + w, true, acc)
    decreases |w|
  {
    if |w| == 0 {
      assert w + "'" + rest == ['\''] + rest;
      assert tok + w == tok;
    } else {
      assert (w + "'" + rest)[1..] == w[1..] + "'" + rest;
      assert '\'' !in w[1..] by { assert forall i :: 0 <= i < |w[1..]| ==> w[1..][i] == w[i + 1]; }
      SingleQuotedVerbatim(w[1..], rest, tok + [w[0]], acc);
      assert tok + [w[0]] + w[1..] == tok + w;
    }
  }

  /** A whole single-quoted word is one token, even an empty one or one holding spaces. */
  lemma SingleQuotedWord(w: string)
    requires '\'' !in w
    ensures Split("'" + w + "'") == Tokens([w])
  {
    assert ("'" + w + "'")[1..] == w + "'" + "";
    SingleQuotedVerbatim(w, "", "", []);
    assert "" + w == w;
  }

  /** A quote that is never closed is a ValueError. */
  lemma {:induction false} UnclosedQuote(w: string, q: char, tok: string, acc: seq<string>)
    requires q == '\'' || q == '"'
    requires q !in w && (q == '"' ==> '\\' !in w)
    ensures Lex(w, Quote(q), tok, true, acc) == LexError(NoClosingQuotation)
    decreases |w|
  {
    if |w| > 0 {
      assert forall i :: 0 <= i < |w[1..]| ==> w[1..][i] == w[i + 1];
      UnclosedQuote(w[1..], q, tok + [w[0]], acc);
    }
  }

  lemma UnclosedSingleQuote(w: string)
    requires '\'' !in w
    ensures Split("'" + w) == LexError(NoClosingQuotation)
  {
    assert ("'" + w)[1..] == w;
    UnclosedQuote(w, '\'', "", []);
  }
}
