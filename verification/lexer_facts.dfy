/** Properties of the lexer: how each kind of character is read, and the end of input. */
module LexerFacts {
  import opened Wrappers
  import opened Tokens
  import opened Lexing

  /** The first position at or after the cursor that is not whitespace. */
  function TokenStart(l: Lexer): nat {
    SkipWhitespace(l).position
  }

  /** Skipping whitespace twice is skipping it once. */
  lemma {:induction false} SkipWhitespaceIdempotent(l: Lexer)
    ensures SkipWhitespace(SkipWhitespace(l)) == SkipWhitespace(l)
    decreases |l.input| - l.position
  {
    if l.position < |l.input| && IsWhitespace(l.input[l.position]) {
      SkipWhitespaceIdempotent(ReadChar(l));
    }
  }

  /** Whitespace before a token changes nothing about the token or where the cursor ends up. */
  lemma WhitespaceIsNeverEmitted(l: Lexer)
    ensures NextToken(l) == NextToken(SkipWhitespace(l))
  {
    SkipWhitespaceIdempotent(l);
  }

  /** A maximal run of class `run` starting at `i` ends where `ScanWhile` says. */
  lemma {:induction false} MaximalRunIsScan(s: string, i: nat, e: nat, run: Run)
    requires i <= e <= |s|
    requires forall k | i <= k < e :: InRun(run, s[k])
    requires e == |s| || !InRun(run, s[e])
    ensures ScanWhile(s, i, run) == e
    decreases e - i
  {
    if i < e {
      MaximalRunIsScan(s, i + 1, e, run);
    }
  }

  /** `==` is one `Eq` token that consumes both characters. */
  lemma NextTokenEq(l: Lexer)
    requires TokenStart(l) + 1 < |l.input|
    requires l.input[TokenStart(l)] == '=' && l.input[TokenStart(l) + 1] == '='
    ensures NextToken(l) == (Eq, l.(position := TokenStart(l) + 2))
  {
  }

  /** `=` not followed by `=` is `Assign`. */
  lemma NextTokenAssign(l: Lexer)
    requires TokenStart(l) < |l.input| && l.input[TokenStart(l)] == '='
    requires TokenStart(l) + 1 == |l.input| || l.input[TokenStart(l) + 1] != '='
    ensures NextToken(l) == (Assign, l.(position := TokenStart(l) + 1))
  {
  }

  /** `!=` is one `NotEq` token that consumes both characters. */
  lemma NextTokenNotEq(l: Lexer)
    requires TokenStart(l) + 1 < |l.input|
    requires l.input[TokenStart(l)] == '!' && l.input[TokenStart(l) + 1] == '='
    ensures NextToken(l) == (NotEq, l.(position := TokenStart(l) + 2))
  {
  }

  /** `!` not followed by `=` is `Bang`. */
  lemma NextTokenBang(l: Lexer)
    requires TokenStart(l) < |l.input| && l.input[TokenStart(l)] == '!'
    requires TokenStart(l) + 1 == |l.input| || l.input[TokenStart(l) + 1] != '='
    ensures NextToken(l) == (Bang, l.(position := TokenStart(l) + 1))
  {
  }

  /** Each single-character symbol is its own token and advances the cursor by one. */
  lemma NextTokenSymbol(l: Lexer)
    requires TokenStart(l) < |l.input| && SymbolToken(l.input[TokenStart(l)]).Some?
    ensures NextToken(l).0 == SymbolToken(l.input[TokenStart(l)]).value
    ensures Literal(NextToken(l).0) == [l.input[TokenStart(l)]]
    ensures NextToken(l).1 == l.(position := TokenStart(l) + 1)
  {
  }

  /** A maximal run of letters is looked up whole in the keyword table. */
  lemma NextTokenWord(l: Lexer, e: nat)
    requires TokenStart(l) < e <= |l.input|
    requires forall k | TokenStart(l) <= k < e :: IsLetter(l.input[k])
    requires e == |l.input| || !IsLetter(l.input[e])
    ensures NextToken(l) == (LookupIdent(l.input[TokenStart(l)..e]), l.(position := e))
  {
    MaximalRunIsScan(l.input, TokenStart(l), e, Letters);
  }

  /** A maximal run of digits is an `Int` token carrying exactly that text. */
  lemma NextTokenNumber(l: Lexer, e: nat)
    requires TokenStart(l) < e <= |l.input|
    requires forall k | TokenStart(l) <= k < e :: IsDigit(l.input[k])
    requires e == |l.input| || !IsDigit(l.input[e])
    ensures NextToken(l) == (Int(l.input[TokenStart(l)..e]), l.(position := e))
  {
    MaximalRunIsScan(l.input, TokenStart(l), e, Digits);
  }

  /** Any other character is `Illegal`, and the cursor still moves past it. */
  lemma NextTokenIllegal(l: Lexer)
    requires TokenStart(l) < |l.input| && !StartsToken(l.input[TokenStart(l)])
    ensures NextToken(l) == (Illegal, l.(position := TokenStart(l) + 1))
  {
  }

  /**
   Every token other than `Eof` and `Illegal` spells out exactly the text it
   consumed after the whitespace; `Illegal` consumes one character that
   begins no token.
   */
  lemma NextTokenSpellsItsText(l: Lexer)
    ensures var r := NextToken(l);
      r.0 != Eof && r.0 != Illegal ==> Literal(r.0) == l.input[TokenStart(l)..r.1.position]
    ensures var r := NextToken(l);
      r.0 == Illegal ==> r.1.position == TokenStart(l) + 1 && !StartsToken(l.input[TokenStart(l)])
  {
    var s, q := l.input, TokenStart(l);
    if q < |s| {
      var c := s[q];
      var twoChar := q + 1 < |s| && s[q + 1] == '=';
      if SymbolToken(c).Some? {
        NextTokenSymbol(l);
        OneCharText(s, q);
      } else if c == '=' && twoChar {
        NextTokenEq(l);
        TwoCharText(s, q);
      } else if c == '=' {
        NextTokenAssign(l);
        OneCharText(s, q);
      } else if c == '!' && twoChar {
        NextTokenNotEq(l);
        TwoCharText(s, q);
      } else if c == '!' {
        NextTokenBang(l);
        OneCharText(s, q);
      } else if IsLetter(c) {
        NextTokenWord(l, ScanWhile(s, q, Letters));
      } else if IsDigit(c) {
        NextTokenNumber(l, ScanWhile(s, q, Digits));
      } else {
        NextTokenIllegal(l);
      }
    }
  }

  lemma OneCharText(s: string, q: nat)
    requires q < |s|
    ensures s[q..q + 1] == [s[q]]
  {
  }

  lemma TwoCharText(s: string, q: nat)
    requires q + 1 < |s|
    ensures s[q..q + 2] == [s[q], s[q + 1]]
  {
  }

  /** Once `Eof` has been returned, every further call returns `Eof`. */
  lemma {:induction false} EofForever(l: Lexer, k: nat)
    requires NextToken(l).0 == Eof
    ensures NthToken(l, k) == Eof
    decreases k
  {
    if k > 0 {
      var l' := NextToken(l).1;
      assert SkipWhitespace(l').position >= |l'.input|;
      EofForever(l', k - 1);
    }
  }

  /**
   The precomputed token sequence is exactly what successive calls of
   `next_token` return, with `Eof` forever after it.
   */
  lemma {:induction false} TokenizeIsTheStream(l: Lexer, k: nat)
    ensures NthToken(l, k) == TokenAt(TokenizeFrom(l), k)
    decreases k
  {
    var t, l' := StreamStep(l, k);
    if t != Eof && k > 0 {
      TokenizeIsTheStream(l', k - 1);
      TokenAtStep(t, TokenizeFrom(l'), k);
    }
  }

  /** One call of `next_token`, in the stream and in the precomputed sequence. */
  lemma StreamStep(l: Lexer, k: nat) returns (t: Token, l': Lexer)
    ensures NthToken(l, k) == if k == 0 then t else NthToken(l', k - 1)
    ensures TokenizeFrom(l) == if t == Eof then [] else [t] + TokenizeFrom(l')
    ensures t == Eof ==> NthToken(l, k) == Eof
  {
    t, l' := NextToken(l).0, NextToken(l).1;
    NthTokenStep(l, k, t, l');
    TokenizeFromUnfold(l, t, l');
    if t == Eof {
      EofForever(l, k);
    }
  }

  /** One call of `next_token` in the stream. */
  lemma NthTokenStep(l: Lexer, k: nat, t: Token, l': Lexer)
    requires NextToken(l) == (t, l')
    ensures NthToken(l, k) == if k == 0 then t else NthToken(l', k - 1)
  {
  }

  /** One call of `next_token` in the precomputed sequence. */
  lemma TokenizeFromUnfold(l: Lexer, t: Token, l': Lexer)
    requires NextToken(l) == (t, l')
    ensures TokenizeFrom(l) == if t == Eof then [] else [t] + TokenizeFrom(l')
  {
  }

  lemma TokenAtStep(t: Token, ts: seq<Token>, k: nat)
    requires 0 < k
    ensures TokenAt([t] + ts, k) == TokenAt(ts, k - 1)
  {
  }

  // Stepping through a token stream

  /** `TokenizeFrom` only depends on where the next token starts. */
  lemma TokenizeFromSkipsWhitespace(l: Lexer)
    ensures TokenizeFrom(l) == TokenizeFrom(SkipWhitespace(l))
  {
    WhitespaceIsNeverEmitted(l);
  }

  /** From anywhere inside a stretch of whitespace, skipping ends at the same place. */
  lemma {:induction false} SkipWhitespaceThrough(l: Lexer, m: nat)
    requires l.position <= m <= |l.input|
    requires forall k | l.position <= k < m :: IsWhitespace(l.input[k])
    ensures SkipWhitespace(l) == SkipWhitespace(l.(position := m))
    decreases m - l.position
  {
    if l.position < m {
      SkipWhitespaceThrough(ReadChar(l), m);
    }
  }

  /** One step of `TokenizeFrom`, with the next cursor named by its position. */
  lemma TokenizeFromStep(l: Lexer)
    ensures var r := NextToken(l);
      TokenizeFrom(l) == if r.0 == Eof then [] else [r.0] + TokenizeFrom(Lexer(l.input, r.1.position))
  {
    var r := NextToken(l);
    assert r.1 == Lexer(l.input, r.1.position);
  }
}
