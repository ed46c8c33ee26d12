/**
 A declarative, character-level description of Monkey's lexical grammar: which
 stretch of text each token occupies. It is stated with quantifiers over
 characters rather than by scanning, and is shown to agree with the lexer in
 both directions.
 */
module LexicalGrammar {
  import opened Wrappers
  import opened Tokens
  import opened Lexing
  import opened LexerFacts

  /** A token together with the text positions `[start, end)` it was read from. */
  datatype Lexeme = Lexeme(start: nat, token: Token, end: nat)

  /** `s[q..e]` is a non-empty run of characters of class `run` that cannot be extended. */
  predicate IsRun(s: string, q: nat, e: nat, run: Run) {
    q < e <= |s| && (forall k | q <= k < e :: InRun(run, s[k])) && (e == |s| || !InRun(run, s[e]))
  }

  /** The character after `q` exists and is `=`. */
  predicate FollowedByEquals(s: string, q: nat) {
    q + 1 < |s| && s[q + 1] == '='
  }

  /**
   The lexeme `x` is what the lexical grammar reads at `x.start`: the text
   `s[x.start..x.end]` spells the token, a word or a number is not followed by
   another letter or digit, a word is an identifier exactly when it is not a
   keyword, `=` and `!` are not followed by `=`, and an illegal character is
   one that begins no token.
   */
  predicate ReadsToken(s: string, x: Lexeme) {
    var q, t, e := x.start, x.token, x.end;
    q < e <= |s| &&
    if t.Eof? then false
    else if t.Illegal? then e == q + 1 && !StartsToken(s[q])
    else if t.Int? then s[q..e] == t.digits && IsRun(s, q, e, Digits)
    else if t.Ident? then s[q..e] == t.name && IsRun(s, q, e, Letters) && !IsKeywordText(t.name)
    else
      s[q..e] == Literal(t) &&
      (IsKeyword(t) ==> e == |s| || !IsLetter(s[e])) &&
      (t == Assign || t == Bang ==> !FollowedByEquals(s, q))
  }

  /** The text `s` from `p` on is whitespace-separated lexemes `xs` and then only whitespace. */
  predicate Lexes(s: string, p: nat, xs: seq<Lexeme>)
    decreases |xs|
  {
    if xs == [] then
      forall k | p <= k < |s| :: IsWhitespace(s[k])
    else
      BlankUntil(s, p, xs[0].start) && ReadsToken(s, xs[0]) && Lexes(s, xs[0].end, xs[1..])
  }

  /** Whitespace from `p` up to a non-blank character at `q`. */
  predicate BlankUntil(s: string, p: nat, q: nat) {
    p <= q < |s| && !IsWhitespace(s[q]) && forall k | p <= k < q :: IsWhitespace(s[k])
  }

  /** The tokens of a lexeme sequence. */
  function TokensOf(xs: seq<Lexeme>): (ts: seq<Token>)
    ensures |ts| == |xs| && forall i | 0 <= i < |xs| :: ts[i] == xs[i].token
  {
    if xs == [] then [] else [xs[0].token] + TokensOf(xs[1..])
  }

  /** The twelve tokens made of one character that needs no lookahead. */
  predicate IsSymbol(t: Token) {
    t.Plus? || t.Minus? || t.Asterisk? || t.Slash? || t.Lt? || t.Gt? ||
    t.Comma? || t.Semicolon? || t.Lparen? || t.Rparen? || t.Lbrace? || t.Rbrace?
  }

  /** A symbol's one-character text maps back to the symbol. */
  lemma SymbolTokenOfLiteral(t: Token)
    requires IsSymbol(t)
    ensures |Literal(t)| == 1 && SymbolToken(Literal(t)[0]) == Some(t)
  {
  }

  /** A keyword's text is made of letters. */
  lemma KeywordIsLetters(t: Token)
    requires IsKeyword(t)
    ensures forall k | 0 <= k < |Literal(t)| :: IsLetter(Literal(t)[k])
  {
  }

  lemma ReadsWordIsNextToken(l: Lexer, x: Lexeme)
    requires TokenStart(l) == x.start && ReadsToken(l.input, x)
    requires x.token.Ident? || IsKeyword(x.token)
    ensures NextToken(l) == (x.token, l.(position := x.end))
  {
    var s, q, e := l.input, x.start, x.end;
    if IsKeyword(x.token) {
      KeywordIsLetters(x.token);
      assert forall k | q <= k < e :: s[k] == s[q..e][k - q];
      NextTokenWord(l, e);
      LookupIdentLiteralRoundTrip(x.token);
    } else {
      NextTokenWord(l, e);
    }
  }

  lemma ReadsSymbolIsNextToken(l: Lexer, x: Lexeme)
    requires TokenStart(l) == x.start && ReadsToken(l.input, x) && IsSymbol(x.token)
    ensures NextToken(l) == (x.token, l.(position := x.end))
  {
    var s, q := l.input, x.start;
    SymbolTokenOfLiteral(x.token);
    assert s[q] == s[q..x.end][0];
    NextTokenSymbol(l);
  }

  lemma ReadsOperatorIsNextToken(l: Lexer, x: Lexeme)
    requires TokenStart(l) == x.start && ReadsToken(l.input, x)
    requires x.token in {Assign, Eq, Bang, NotEq}
    ensures NextToken(l) == (x.token, l.(position := x.end))
  {
    var s, q := l.input, x.start;
    assert s[q] == s[q..x.end][0];
    if x.token == Eq {
      assert s[q + 1] == s[q..x.end][1];
      NextTokenEq(l);
    } else if x.token == NotEq {
      assert s[q + 1] == s[q..x.end][1];
      NextTokenNotEq(l);
    } else if x.token == Assign {
      NextTokenAssign(l);
    } else {
      NextTokenBang(l);
    }
  }

  /** What the grammar reads is what `next_token` returns (soundness of the grammar). */
  lemma ReadsTokenIsNextToken(s: string, p: nat, x: Lexeme)
    requires BlankUntil(s, p, x.start) && ReadsToken(s, x)
    ensures NextToken(Lexer(s, p)) == (x.token, Lexer(s, x.end))
  {
    var l := Lexer(s, p);
    SkipWhitespaceThrough(l, x.start);
    var t := x.token;
    if t.Illegal? {
      NextTokenIllegal(l);
    } else if t.Int? {
      NextTokenNumber(l, x.end);
    } else if t.Ident? || IsKeyword(t) {
      ReadsWordIsNextToken(l, x);
    } else if IsSymbol(t) {
      ReadsSymbolIsNextToken(l, x);
    } else {
      ReadsOperatorIsNextToken(l, x);
    }
  }

  /** The lexeme `next_token` reads from `l`, as long as it is not `Eof`. */
  function NextLexeme(l: Lexer): (x: Lexeme)
    requires NextToken(l).0 != Eof
    ensures x.token == NextToken(l).0 && x.end == NextToken(l).1.position
  {
    Lexeme(TokenStart(l), NextToken(l).0, NextToken(l).1.position)
  }

  lemma WordIsReadsToken(l: Lexer)
    requires TokenStart(l) < |l.input| && IsLetter(l.input[TokenStart(l)])
    ensures ReadsToken(l.input, NextLexeme(l))
  {
    NextTokenWord(l, ScanWhile(l.input, TokenStart(l), Letters));
  }

  lemma NumberIsReadsToken(l: Lexer)
    requires TokenStart(l) < |l.input| && IsDigit(l.input[TokenStart(l)])
    ensures ReadsToken(l.input, NextLexeme(l))
  {
    NextTokenNumber(l, ScanWhile(l.input, TokenStart(l), Digits));
  }

  lemma OperatorIsReadsToken(l: Lexer)
    requires TokenStart(l) < |l.input| && l.input[TokenStart(l)] in "=!"
    ensures ReadsToken(l.input, NextLexeme(l))
  {
    var s, q := l.input, TokenStart(l);
    if s[q] == '=' && FollowedByEquals(s, q) {
      NextTokenEq(l);
      TwoCharReads(s, q, Eq);
      assert NextLexeme(l) == Lexeme(q, Eq, q + 2);
    } else if s[q] == '=' {
      NextTokenAssign(l);
      OneCharReads(s, q, Assign);
      assert NextLexeme(l) == Lexeme(q, Assign, q + 1);
    } else if FollowedByEquals(s, q) {
      NextTokenNotEq(l);
      TwoCharReads(s, q, NotEq);
      assert NextLexeme(l) == Lexeme(q, NotEq, q + 2);
    } else {
      NextTokenBang(l);
      OneCharReads(s, q, Bang);
      assert NextLexeme(l) == Lexeme(q, Bang, q + 1);
    }
  }

  /** `==` and `!=` are read as two characters. */
  lemma TwoCharReads(s: string, q: nat, t: Token)
    requires q + 1 < |s| && s[q + 1] == '='
    requires (t == Eq && s[q] == '=') || (t == NotEq && s[q] == '!')
    ensures ReadsToken(s, Lexeme(q, t, q + 2))
  {
    assert s[q..q + 2] == [s[q], s[q + 1]];
  }

  /** `=` and `!` not followed by `=` are read as one character. */
  lemma OneCharReads(s: string, q: nat, t: Token)
    requires q < |s| && !FollowedByEquals(s, q)
    requires (t == Assign && s[q] == '=') || (t == Bang && s[q] == '!')
    ensures ReadsToken(s, Lexeme(q, t, q + 1))
  {
    assert s[q..q + 1] == [s[q]];
  }

  lemma SymbolIsReadsToken(l: Lexer)
    requires TokenStart(l) < |l.input| && SymbolToken(l.input[TokenStart(l)]).Some?
    ensures ReadsToken(l.input, NextLexeme(l))
  {
    var s, q := l.input, TokenStart(l);
    var t := SymbolToken(s[q]).value;
    NextTokenSymbol(l);
    SymbolTokenIsSymbol(s[q]);
    SymbolReads(s, q, t);
    assert NextLexeme(l) == Lexeme(q, t, q + 1);
  }

  lemma SymbolTokenIsSymbol(c: char)
    requires SymbolToken(c).Some?
    ensures IsSymbol(SymbolToken(c).value)
  {
  }

  /** A symbol whose text is the character at `q` is read there as one character. */
  lemma SymbolReads(s: string, q: nat, t: Token)
    requires q < |s| && IsSymbol(t) && Literal(t) == [s[q]]
    ensures ReadsToken(s, Lexeme(q, t, q + 1))
  {
    assert s[q..q + 1] == [s[q]];
  }

  /** Whatever `next_token` returns short of `Eof` is a lexeme of the grammar (completeness). */
  lemma NextTokenIsReadsToken(l: Lexer)
    requires NextToken(l).0 != Eof
    ensures BlankUntil(l.input, l.position, TokenStart(l))
    ensures ReadsToken(l.input, NextLexeme(l))
  {
    var s, q := l.input, TokenStart(l);
    if IsLetter(s[q]) {
      WordIsReadsToken(l);
    } else if IsDigit(s[q]) {
      NumberIsReadsToken(l);
    } else if s[q] in "=!" {
      OperatorIsReadsToken(l);
    } else if SymbolToken(s[q]).Some? {
      SymbolIsReadsToken(l);
    } else {
      NextTokenIllegal(l);
    }
  }

  /** The grammar reads at most one lexeme from any position. */
  lemma ReadsTokenIsUnique(s: string, p: nat, x: Lexeme, y: Lexeme)
    requires BlankUntil(s, p, x.start) && ReadsToken(s, x)
    requires BlankUntil(s, p, y.start) && ReadsToken(s, y)
    ensures x == y
  {
    ReadsTokenIsNextToken(s, p, x);
    ReadsTokenIsNextToken(s, p, y);
  }

  /** A text described by the grammar tokenizes to the lexemes' tokens. */
  lemma {:induction false} LexesIsTokenize(s: string, p: nat, xs: seq<Lexeme>)
    requires Lexes(s, p, xs)
    ensures TokenizeFrom(Lexer(s, p)) == TokensOf(xs)
    decreases |xs|
  {
    TokenizeFromStep(Lexer(s, p));
    if xs == [] {
      if p < |s| {
        SkipWhitespaceThrough(Lexer(s, p), |s|);
      }
    } else {
      ReadsTokenIsNextToken(s, p, xs[0]);
      LexesIsTokenize(s, xs[0].end, xs[1..]);
    }
  }

  /** The lexemes the lexer reads from `l`: the grammar's description of its token stream. */
  function LexemesFrom(l: Lexer): (xs: seq<Lexeme>)
    ensures Lexes(l.input, l.position, xs)
    ensures TokensOf(xs) == TokenizeFrom(l)
    decreases |l.input| - l.position
  {
    TokenizeFromStep(l);
    var r := NextToken(l);
    if r.0 == Eof then
      []
    else
      NextTokenIsReadsToken(l);
      var rest := LexemesFrom(Lexer(l.input, r.1.position));
      assert ([NextLexeme(l)] + rest)[1..] == rest;
      [NextLexeme(l)] + rest
  }

  /** A text has at most one description by the grammar from a given position. */
  lemma {:induction false} LexesIsUnique(s: string, p: nat, xs: seq<Lexeme>, ys: seq<Lexeme>)
    requires Lexes(s, p, xs) && Lexes(s, p, ys)
    ensures xs == ys
    decreases |xs|
  {
    if xs != [] && ys != [] {
      ReadsTokenIsUnique(s, p, xs[0], ys[0]);
      LexesIsUnique(s, xs[0].end, xs[1..], ys[1..]);
      assert xs == [xs[0]] + xs[1..] && ys == [ys[0]] + ys[1..];
    }
  }
}
