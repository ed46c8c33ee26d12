/**
 Two golden inputs of the parser's tests taken from their source text. Each
 lexeme of the text is shown to be read by the lexical grammar after the blanks
 before it, which fixes the token stream, built back to front from the end of
 the text; the parser then gives the rendering the tests expect.
 */
module GoldenTexts {
  import opened Tokens
  import opened Lexing
  import opened LexicalGrammar
  import opened Ast
  import opened Parsing
  import opened ParserGoldens
  import opened LexerGoldens

  /** The characters of `3 > 5 == false`. */
  predicate ComparisonChars(s: string) {
    |s| == 14 && s[0] == '3' && s[1] == ' ' && s[2] == '>' && s[3] == ' ' && s[4] == '5' && s[5] == ' ' &&
    s[6] == '=' && s[7] == '=' && s[8] == ' ' && s[9] == 'f' && s[10] == 'a' && s[11] == 'l' &&
    s[12] == 's' && s[13] == 'e'
  }

  lemma ComparisonCharsOfText(s: string)
    requires s == "3 > 5 == false"
    ensures ComparisonChars(s)
  {
  }

  /** The expected tokens of `3 > 5 == false`. */
  predicate ComparisonStream(ts: seq<Token>) {
    |ts| == 5 && ts[0] == Int("3") && ts[1] == Gt && ts[2] == Int("5") && ts[3] == Eq && ts[4] == False
  }

  lemma ComparisonStreamOfTokens(ts: seq<Token>)
    requires ts == ComparisonTokens()
    ensures ComparisonStream(ts)
  {
  }

  /** Token 0, read from `3` at 0 after the blanks from 0. */
  lemma ComparisonReads0(s: string)
    requires ComparisonChars(s)
    ensures BlankUntil(s, 0, 0) && ReadsToken(s, Lexeme(0, Int("3"), 1))
  {
    assert s[0..1] == "3";
  }

  lemma ComparisonStep0(s: string, ts: seq<Token>)
    requires BlankUntil(s, 0, 0) && ReadsToken(s, Lexeme(0, Int("3"), 1)) && |ts| == 5 && ts[0] == Int("3")
    requires TokenizeFrom(Lexer(s, 1)) == ts[1..]
    ensures TokenizeFrom(Lexer(s, 0)) == ts[0..]
  {
    TokenizeStep(s, 0, Lexeme(0, Int("3"), 1), ts, 0);
  }

  /** Token 1, read from `>` at 2 after the blanks from 1. */
  lemma ComparisonReads1(s: string)
    requires ComparisonChars(s)
    ensures BlankUntil(s, 1, 2) && ReadsToken(s, Lexeme(2, Gt, 3))
  {
    assert s[2..3] == ">";
  }

  lemma ComparisonStep1(s: string, ts: seq<Token>)
    requires ComparisonChars(s) && |ts| == 5 && ts[1] == Gt
    requires TokenizeFrom(Lexer(s, 3)) == ts[2..]
    ensures TokenizeFrom(Lexer(s, 1)) == ts[1..]
  {
    ComparisonReads1(s);
    TokenizeStep(s, 1, Lexeme(2, Gt, 3), ts, 1);
  }

  /** Token 2, read from `5` at 4 after the blanks from 3. */
  lemma ComparisonReads2(s: string)
    requires ComparisonChars(s)
    ensures BlankUntil(s, 3, 4) && ReadsToken(s, Lexeme(4, Int("5"), 5))
  {
    assert s[4..5] == "5";
  }

  lemma ComparisonStep2(s: string, ts: seq<Token>)
    requires ComparisonChars(s) && |ts| == 5 && ts[2] == Int("5")
    requires TokenizeFrom(Lexer(s, 5)) == ts[3..]
    ensures TokenizeFrom(Lexer(s, 3)) == ts[2..]
  {
    ComparisonReads2(s);
    TokenizeStep(s, 3, Lexeme(4, Int("5"), 5), ts, 2);
  }

  /** Token 3, read from `==` at 6 after the blanks from 5. */
  lemma ComparisonReads3(s: string)
    requires ComparisonChars(s)
    ensures BlankUntil(s, 5, 6) && ReadsToken(s, Lexeme(6, Eq, 8))
  {
    assert s[6..8] == "==";
  }

  lemma ComparisonStep3(s: string, ts: seq<Token>)
    requires ComparisonChars(s) && |ts| == 5 && ts[3] == Eq
    requires TokenizeFrom(Lexer(s, 8)) == ts[4..]
    ensures TokenizeFrom(Lexer(s, 5)) == ts[3..]
  {
    ComparisonReads3(s);
    TokenizeStep(s, 5, Lexeme(6, Eq, 8), ts, 3);
  }

  /** Token 4, read from `false` at 9 after the blanks from 8. */
  lemma ComparisonReads4(s: string)
    requires ComparisonChars(s)
    ensures BlankUntil(s, 8, 9) && ReadsToken(s, Lexeme(9, False, 14))
  {
    assert s[9..14] == "false";
  }

  lemma ComparisonStep4(s: string, ts: seq<Token>)
    requires ComparisonChars(s) && |ts| == 5 && ts[4] == False
    ensures TokenizeFrom(Lexer(s, 8)) == ts[4..]
  {
    ComparisonReads4(s);
    TokenizeAtEnd(s, ts);
    TokenizeStep(s, 8, Lexeme(9, False, 14), ts, 4);
  }

  lemma ComparisonLexed(s: string, ts: seq<Token>)
    requires ComparisonChars(s) && ComparisonStream(ts)
    ensures TokenizeFrom(Lexer(s, 0)) == ts
  {
    ComparisonStep4(s, ts);
    ComparisonStep3(s, ts);
    ComparisonStep2(s, ts);
    ComparisonStep1(s, ts);
    ComparisonReads0(s);
    ComparisonStep0(s, ts);
    assert ts[0..] == ts;
  }

  /** The lexer turns `3 > 5 == false` into the golden token stream. */
  lemma ComparisonTokenizes(s: string, ts: seq<Token>)
    requires s == "3 > 5 == false" && ts == ComparisonTokens()
    ensures Tokenize(s) == ts
  {
    ComparisonCharsOfText(s);
    ComparisonStreamOfTokens(ts);
    ComparisonLexed(s, ts);
  }

  /**
   The text `3 > 5 == false` parses, with no errors, to one statement rendering
   `((3 > 5) == false)`.
   */
  lemma ComparisonFromText(s: string)
    requires s == "3 > 5 == false"
    ensures
      var r := ParseInput(s);
      r.Parsed? && r.errors == [] && |r.program.statements| == 1 &&
      StmtString(r.program.statements[0]) == "((3 > 5) == false)"
  {
    ComparisonTokenizes(s, ComparisonTokens());
    ComparisonChain(Tokenize(s));
  }

  /** The characters of `a + add(b * c) + d`. */
  predicate CallInSumChars(s: string) {
    |s| == 18 && s[0] == 'a' && s[1] == ' ' && s[2] == '+' && s[3] == ' ' && s[4] == 'a' && s[5] == 'd' &&
    s[6] == 'd' && s[7] == '(' && s[8] == 'b' && s[9] == ' ' && s[10] == '*' && s[11] == ' ' &&
    s[12] == 'c' && s[13] == ')' && s[14] == ' ' && s[15] == '+' && s[16] == ' ' && s[17] == 'd'
  }

  lemma CallInSumCharsOfText(s: string)
    requires s == "a + add(b * c) + d"
    ensures CallInSumChars(s)
  {
  }

  /** The expected tokens of `a + add(b * c) + d`. */
  predicate CallInSumStream(ts: seq<Token>) {
    |ts| == 10 && ts[0] == Ident("a") && ts[1] == Plus && ts[2] == Ident("add") && ts[3] == Lparen &&
    ts[4] == Ident("b") && ts[5] == Asterisk && ts[6] == Ident("c") && ts[7] == Rparen && ts[8] == Plus &&
    ts[9] == Ident("d")
  }

  lemma CallInSumStreamOfTokens(ts: seq<Token>)
    requires ts == CallInSumTokens()
    ensures CallInSumStream(ts)
  {
  }

  /** Token 0, read from `a` at 0 after the blanks from 0. */
  lemma CallInSumReads0(s: string)
    requires CallInSumChars(s)
    ensures BlankUntil(s, 0, 0) && ReadsToken(s, Lexeme(0, Ident("a"), 1))
  {
    assert s[0..1] == "a";
  }

  lemma CallInSumStep0(s: string, ts: seq<Token>)
    requires BlankUntil(s, 0, 0) && ReadsToken(s, Lexeme(0, Ident("a"), 1)) && |ts| == 10 && ts[0] == Ident("a")
    requires TokenizeFrom(Lexer(s, 1)) == ts[1..]
    ensures TokenizeFrom(Lexer(s, 0)) == ts[0..]
  {
    TokenizeStep(s, 0, Lexeme(0, Ident("a"), 1), ts, 0);
  }

  /** Token 1, read from `+` at 2 after the blanks from 1. */
  lemma CallInSumReads1(s: string)
    requires CallInSumChars(s)
    ensures BlankUntil(s, 1, 2) && ReadsToken(s, Lexeme(2, Plus, 3))
  {
    assert s[2..3] == "+";
  }

  lemma CallInSumStep1(s: string, ts: seq<Token>)
    requires CallInSumChars(s) && |ts| == 10 && ts[1] == Plus
    requires TokenizeFrom(Lexer(s, 3)) == ts[2..]
    ensures TokenizeFrom(Lexer(s, 1)) == ts[1..]
  {
    CallInSumReads1(s);
    TokenizeStep(s, 1, Lexeme(2, Plus, 3), ts, 1);
  }

  /** Token 2, read from `add` at 4 after the blanks from 3. */
  lemma CallInSumReads2(s: string)
    requires CallInSumChars(s)
    ensures BlankUntil(s, 3, 4) && ReadsToken(s, Lexeme(4, Ident("add"), 7))
  {
    assert s[4..7] == "add";
  }

  lemma CallInSumStep2(s: string, ts: seq<Token>)
    requires CallInSumChars(s) && |ts| == 10 && ts[2] == Ident("add")
    requires TokenizeFrom(Lexer(s, 7)) == ts[3..]
    ensures TokenizeFrom(Lexer(s, 3)) == ts[2..]
  {
    CallInSumReads2(s);
    TokenizeStep(s, 3, Lexeme(4, Ident("add"), 7), ts, 2);
  }

  /** Token 3, read from `(` at 7 after the blanks from 7. */
  lemma CallInSumReads3(s: string)
    requires CallInSumChars(s)
    ensures BlankUntil(s, 7, 7) && ReadsToken(s, Lexeme(7, Lparen, 8))
  {
    assert s[7..8] == "(";
  }

  lemma CallInSumStep3(s: string, ts: seq<Token>)
    requires CallInSumChars(s) && |ts| == 10 && ts[3] == Lparen
    requires TokenizeFrom(Lexer(s, 8)) == ts[4..]
    ensures TokenizeFrom(Lexer(s, 7)) == ts[3..]
  {
    CallInSumReads3(s);
    TokenizeStep(s, 7, Lexeme(7, Lparen, 8), ts, 3);
  }

  /** Token 4, read from `b` at 8 after the blanks from 8. */
  lemma CallInSumReads4(s: string)
    requires CallInSumChars(s)
    ensures BlankUntil(s, 8, 8) && ReadsToken(s, Lexeme(8, Ident("b"), 9))
  {
    assert s[8..9] == "b";
  }

  lemma CallInSumStep4(s: string, ts: seq<Token>)
    requires CallInSumChars(s) && |ts| == 10 && ts[4] == Ident("b")
    requires TokenizeFrom(Lexer(s, 9)) == ts[5..]
    ensures TokenizeFrom(Lexer(s, 8)) == ts[4..]
  {
    CallInSumReads4(s);
    TokenizeStep(s, 8, Lexeme(8, Ident("b"), 9), ts, 4);
  }

  /** Token 5, read from `*` at 10 after the blanks from 9. */
  lemma CallInSumReads5(s: string)
    requires CallInSumChars(s)
    ensures BlankUntil(s, 9, 10) && ReadsToken(s, Lexeme(10, Asterisk, 11))
  {
    assert s[10..11] == "*";
  }

  lemma CallInSumStep5(s: string, ts: seq<Token>)
    requires CallInSumChars(s) && |ts| == 10 && ts[5] == Asterisk
    requires TokenizeFrom(Lexer(s, 11)) == ts[6..]
    ensures TokenizeFrom(Lexer(s, 9)) == ts[5..]
  {
    CallInSumReads5(s);
    TokenizeStep(s, 9, Lexeme(10, Asterisk, 11), ts, 5);
  }

  /** Token 6, read from `c` at 12 after the blanks from 11. */
  lemma CallInSumReads6(s: string)
    requires CallInSumChars(s)
    ensures BlankUntil(s, 11, 12) && ReadsToken(s, Lexeme(12, Ident("c"), 13))
  {
    assert s[12..13] == "c";
  }

  lemma CallInSumStep6(s: string, ts: seq<Token>)
    requires CallInSumChars(s) && |ts| == 10 && ts[6] == Ident("c")
    requires TokenizeFrom(Lexer(s, 13)) == ts[7..]
    ensures TokenizeFrom(Lexer(s, 11)) == ts[6..]
  {
    CallInSumReads6(s);
    TokenizeStep(s, 11, Lexeme(12, Ident("c"), 13), ts, 6);
  }

  /** Token 7, read from `)` at 13 after the blanks from 13. */
  lemma CallInSumReads7(s: string)
    requires CallInSumChars(s)
    ensures BlankUntil(s, 13, 13) && ReadsToken(s, Lexeme(13, Rparen, 14))
  {
    assert s[13..14] == ")";
  }

  lemma CallInSumStep7(s: string, ts: seq<Token>)
    requires CallInSumChars(s) && |ts| == 10 && ts[7] == Rparen
    requires TokenizeFrom(Lexer(s, 14)) == ts[8..]
    ensures TokenizeFrom(Lexer(s, 13)) == ts[7..]
  {
    CallInSumReads7(s);
    TokenizeStep(s, 13, Lexeme(13, Rparen, 14), ts, 7);
  }

  /** Token 8, read from `+` at 15 after the blanks from 14. */
  lemma CallInSumReads8(s: string)
    requires CallInSumChars(s)
    ensures BlankUntil(s, 14, 15) && ReadsToken(s, Lexeme(15, Plus, 16))
  {
    assert s[15..16] == "+";
  }

  lemma CallInSumStep8(s: string, ts: seq<Token>)
    requires CallInSumChars(s) && |ts| == 10 && ts[8] == Plus
    requires TokenizeFrom(Lexer(s, 16)) == ts[9..]
    ensures TokenizeFrom(Lexer(s, 14)) == ts[8..]
  {
    CallInSumReads8(s);
    TokenizeStep(s, 14, Lexeme(15, Plus, 16), ts, 8);
  }

  /** Token 9, read from `d` at 17 after the blanks from 16. */
  lemma CallInSumReads9(s: string)
    requires CallInSumChars(s)
    ensures BlankUntil(s, 16, 17) && ReadsToken(s, Lexeme(17, Ident("d"), 18))
  {
    assert s[17..18] == "d";
  }

  lemma CallInSumStep9(s: string, ts: seq<Token>)
    requires CallInSumChars(s) && |ts| == 10 && ts[9] == Ident("d")
    ensures TokenizeFrom(Lexer(s, 16)) == ts[9..]
  {
    CallInSumReads9(s);
    TokenizeAtEnd(s, ts);
    TokenizeStep(s, 16, Lexeme(17, Ident("d"), 18), ts, 9);
  }

  lemma CallInSumLexed(s: string, ts: seq<Token>)
    requires CallInSumChars(s) && CallInSumStream(ts)
    ensures TokenizeFrom(Lexer(s, 0)) == ts
  {
    CallInSumStep9(s, ts);
    CallInSumStep8(s, ts);
    CallInSumStep7(s, ts);
    CallInSumStep6(s, ts);
    CallInSumStep5(s, ts);
    CallInSumStep4(s, ts);
    CallInSumStep3(s, ts);
    CallInSumStep2(s, ts);
    CallInSumStep1(s, ts);
    CallInSumReads0(s);
    CallInSumStep0(s, ts);
    assert ts[0..] == ts;
  }

  /** The lexer turns `a + add(b * c) + d` into the golden token stream. */
  lemma CallInSumTokenizes(s: string, ts: seq<Token>)
    requires s == "a + add(b * c) + d" && ts == CallInSumTokens()
    ensures Tokenize(s) == ts
  {
    CallInSumCharsOfText(s);
    CallInSumStreamOfTokens(ts);
    CallInSumLexed(s, ts);
  }

  /**
   The text `a + add(b * c) + d` parses, with no errors, to one statement rendering
   `((a + add((b * c), )) + d)`.
   */
  lemma CallInSumFromText(s: string)
    requires s == "a + add(b * c) + d"
    ensures
      var r := ParseInput(s);
      r.Parsed? && r.errors == [] && |r.program.statements| == 1 &&
      StmtString(r.program.statements[0]) == "((a + add((b * c), )) + d)"
  {
    CallInSumTokenizes(s, CallInSumTokens());
    CallInSum(Tokenize(s));
  }
}
