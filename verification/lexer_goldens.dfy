/**
 The lexer's own golden test: the eight-line sample program and the 48 tokens
 its test expects, in order. Each lexeme is shown to be read by the lexical
 grammar after the blanks before it, and the stream is assembled back to front
 from the end of the text.
 */
module LexerGoldens {
  import opened Tokens
  import opened Lexing
  import opened LexerFacts
  import opened LexicalGrammar

  /** A lexeme read after blanks puts its token in front of the stream that follows it. */
  lemma TokenizeStep(s: string, p: nat, x: Lexeme, ts: seq<Token>, k: nat)
    requires BlankUntil(s, p, x.start) && ReadsToken(s, x)
    requires k < |ts| && ts[k] == x.token && TokenizeFrom(Lexer(s, x.end)) == ts[k + 1..]
    ensures TokenizeFrom(Lexer(s, p)) == ts[k..]
  {
    ReadsTokenIsNextToken(s, p, x);
    TokenizeFromStep(Lexer(s, p));
    assert ts[k..] == [ts[k]] + ts[k + 1..];
  }

  /** Nothing is read at the end of the text. */
  lemma TokenizeAtEnd(s: string, ts: seq<Token>)
    ensures TokenizeFrom(Lexer(s, |s|)) == ts[|ts|..]
  {
    TokenizeFromStep(Lexer(s, |s|));
  }

  /** Cutting a concatenation inside its first part. */
  lemma TakeOfConcat<T>(a: seq<T>, b: seq<T>, n: nat)
    requires n <= |a|
    ensures (a + b)[..n] == a[..n]
  {
  }

  /** The last piece of a prefix. */
  lemma LastPiece<T>(s: seq<T>, pre: seq<T>, line: seq<T>)
    requires |pre| + |line| <= |s| && s[..|pre| + |line|] == pre + line
    ensures s[|pre|..|pre| + |line|] == line
  {
    assert s[|pre|..|pre| + |line|] == s[..|pre| + |line|][|pre|..];
  }

  /** The sample program, line by line. */
  function SampleText(): string {
    "let five = 5;\n" +
    "let ten = 10;\n" +
    "let add = fn(x, y) {\n" +
    "x + y;\n" +
    "};\n" +
    "let result = add(five, ten);\n" +
    "!-/*5;\n" +
    "5 < 10 > 5;"
  }

  /** The tokens the test expects, line by line. */
  function SampleTokens(): seq<Token> {
    [Let, Ident("five"), Assign, Int("5"), Semicolon] +
    [Let, Ident("ten"), Assign, Int("10"), Semicolon] +
    [Let, Ident("add"), Assign, Function, Lparen, Ident("x"), Comma, Ident("y"), Rparen, Lbrace] +
    [Ident("x"), Plus, Ident("y"), Semicolon] +
    [Rbrace, Semicolon] +
    [Let, Ident("result"), Assign, Ident("add"), Lparen, Ident("five"), Comma, Ident("ten"),
          Rparen, Semicolon] +
    [Bang, Minus, Slash, Asterisk, Int("5"), Semicolon] +
    [Int("5"), Lt, Int("10"), Gt, Int("5"), Semicolon]
  }

  /** The characters of line 1, `let five = 5;`. */
  predicate SampleChars1(s: string) {
    |s| == 106 && s[0] == 'l' && s[1] == 'e' && s[2] == 't' && s[3] == ' ' && s[4] == 'f' && s[5] == 'i' &&
    s[6] == 'v' && s[7] == 'e' && s[8] == ' ' && s[9] == '=' && s[10] == ' ' && s[11] == '5' &&
    s[12] == ';' && s[13] == '\n'
  }

  lemma SampleText1(s: string)
    requires s == SampleText()
    ensures |s| == 106 && s[0..14] == "let five = 5;\n"
  {
    var a1 := "let five = 5;\n";
    var a2 := a1 + "let ten = 10;\n";
    var a3 := a2 + "let add = fn(x, y) {\n";
    var a4 := a3 + "x + y;\n";
    var a5 := a4 + "};\n";
    var a6 := a5 + "let result = add(five, ten);\n";
    var a7 := a6 + "!-/*5;\n";
    assert s == a7 + "5 < 10 > 5;";
    TakeOfConcat(a7, "5 < 10 > 5;", 14);
    TakeOfConcat(a6, "!-/*5;\n", 14);
    TakeOfConcat(a5, "let result = add(five, ten);\n", 14);
    TakeOfConcat(a4, "};\n", 14);
    TakeOfConcat(a3, "x + y;\n", 14);
    TakeOfConcat(a2, "let add = fn(x, y) {\n", 14);
    TakeOfConcat(a1, "let ten = 10;\n", 14);
    LastPiece(s, "", "let five = 5;\n");
  }

  lemma SampleChars1OfLine(s: string)
    requires |s| == 106 && s[0..14] == "let five = 5;\n"
    ensures SampleChars1(s)
  {
    var line := s[0..14];
    assert s[0] == line[0];
    assert s[1] == line[1];
    assert s[2] == line[2];
    assert s[3] == line[3];
    assert s[4] == line[4];
    assert s[5] == line[5];
    assert s[6] == line[6];
    assert s[7] == line[7];
    assert s[8] == line[8];
    assert s[9] == line[9];
    assert s[10] == line[10];
    assert s[11] == line[11];
    assert s[12] == line[12];
    assert s[13] == line[13];
  }

  /** The characters of line 2, `let ten = 10;`. */
  predicate SampleChars2(s: string) {
    |s| == 106 && s[14] == 'l' && s[15] == 'e' && s[16] == 't' && s[17] == ' ' && s[18] == 't' &&
    s[19] == 'e' && s[20] == 'n' && s[21] == ' ' && s[22] == '=' && s[23] == ' ' && s[24] == '1' &&
    s[25] == '0' && s[26] == ';' && s[27] == '\n'
  }

  lemma SampleText2(s: string)
    requires s == SampleText()
    ensures |s| == 106 && s[14..28] == "let ten = 10;\n"
  {
    var a1 := "let five = 5;\n";
    var a2 := a1 + "let ten = 10;\n";
    var a3 := a2 + "let add = fn(x, y) {\n";
    var a4 := a3 + "x + y;\n";
    var a5 := a4 + "};\n";
    var a6 := a5 + "let result = add(five, ten);\n";
    var a7 := a6 + "!-/*5;\n";
    assert s == a7 + "5 < 10 > 5;";
    TakeOfConcat(a7, "5 < 10 > 5;", 28);
    TakeOfConcat(a6, "!-/*5;\n", 28);
    TakeOfConcat(a5, "let result = add(five, ten);\n", 28);
    TakeOfConcat(a4, "};\n", 28);
    TakeOfConcat(a3, "x + y;\n", 28);
    TakeOfConcat(a2, "let add = fn(x, y) {\n", 28);
    LastPiece(s, a1, "let ten = 10;\n");
  }

  lemma SampleChars2OfLine(s: string)
    requires |s| == 106 && s[14..28] == "let ten = 10;\n"
    ensures SampleChars2(s)
  {
    var line := s[14..28];
    assert s[14] == line[0];
    assert s[15] == line[1];
    assert s[16] == line[2];
    assert s[17] == line[3];
    assert s[18] == line[4];
    assert s[19] == line[5];
    assert s[20] == line[6];
    assert s[21] == line[7];
    assert s[22] == line[8];
    assert s[23] == line[9];
    assert s[24] == line[10];
    assert s[25] == line[11];
    assert s[26] == line[12];
    assert s[27] == line[13];
  }

  /** The characters of line 3, `let add = fn(x, y) {`. */
  predicate SampleChars3(s: string) {
    |s| == 106 && s[28] == 'l' && s[29] == 'e' && s[30] == 't' && s[31] == ' ' && s[32] == 'a' &&
    s[33] == 'd' && s[34] == 'd' && s[35] == ' ' && s[36] == '=' && s[37] == ' ' && s[38] == 'f' &&
    s[39] == 'n' && s[40] == '(' && s[41] == 'x' && s[42] == ',' && s[43] == ' ' && s[44] == 'y' &&
    s[45] == ')' && s[46] == ' ' && s[47] == '{' && s[48] == '\n'
  }

  lemma SampleText3(s: string)
    requires s == SampleText()
    ensures |s| == 106 && s[28..49] == "let add = fn(x, y) {\n"
  {
    var a1 := "let five = 5;\n";
    var a2 := a1 + "let ten = 10;\n";
    var a3 := a2 + "let add = fn(x, y) {\n";
    var a4 := a3 + "x + y;\n";
    var a5 := a4 + "};\n";
    var a6 := a5 + "let result = add(five, ten);\n";
    var a7 := a6 + "!-/*5;\n";
    assert s == a7 + "5 < 10 > 5;";
    TakeOfConcat(a7, "5 < 10 > 5;", 49);
    TakeOfConcat(a6, "!-/*5;\n", 49);
    TakeOfConcat(a5, "let result = add(five, ten);\n", 49);
    TakeOfConcat(a4, "};\n", 49);
    TakeOfConcat(a3, "x + y;\n", 49);
    LastPiece(s, a2, "let add = fn(x, y) {\n");
  }

  lemma SampleChars3OfLine(s: string)
    requires |s| == 106 && s[28..49] == "let add = fn(x, y) {\n"
    ensures SampleChars3(s)
  {
    var line := s[28..49];
    assert s[28] == line[0];
    assert s[29] == line[1];
    assert s[30] == line[2];
    assert s[31] == line[3];
    assert s[32] == line[4];
    assert s[33] == line[5];
    assert s[34] == line[6];
    assert s[35] == line[7];
    assert s[36] == line[8];
    assert s[37] == line[9];
    assert s[38] == line[10];
    assert s[39] == line[11];
    assert s[40] == line[12];
    assert s[41] == line[13];
    assert s[42] == line[14];
    assert s[43] == line[15];
    assert s[44] == line[16];
    assert s[45] == line[17];
    assert s[46] == line[18];
    assert s[47] == line[19];
    assert s[48] == line[20];
  }

  /** The characters of line 4, `x + y;`. */
  predicate SampleChars4(s: string) {
    |s| == 106 && s[49] == 'x' && s[50] == ' ' && s[51] == '+' && s[52] == ' ' && s[53] == 'y' &&
    s[54] == ';' && s[55] == '\n'
  }

  lemma SampleText4(s: string)
    requires s == SampleText()
    ensures |s| == 106 && s[49..56] == "x + y;\n"
  {
    var a1 := "let five = 5;\n";
    var a2 := a1 + "let ten = 10;\n";
    var a3 := a2 + "let add = fn(x, y) {\n";
    var a4 := a3 + "x + y;\n";
    var a5 := a4 + "};\n";
    var a6 := a5 + "let result = add(five, ten);\n";
    var a7 := a6 + "!-/*5;\n";
    assert s == a7 + "5 < 10 > 5;";
    TakeOfConcat(a7, "5 < 10 > 5;", 56);
    TakeOfConcat(a6, "!-/*5;\n", 56);
    TakeOfConcat(a5, "let result = add(five, ten);\n", 56);
    TakeOfConcat(a4, "};\n", 56);
    LastPiece(s, a3, "x + y;\n");
  }

  lemma SampleChars4OfLine(s: string)
    requires |s| == 106 && s[49..56] == "x + y;\n"
    ensures SampleChars4(s)
  {
    var line := s[49..56];
    assert s[49] == line[0];
    assert s[50] == line[1];
    assert s[51] == line[2];
    assert s[52] == line[3];
    assert s[53] == line[4];
    assert s[54] == line[5];
    assert s[55] == line[6];
  }

  /** The characters of line 5, `};`. */
  predicate SampleChars5(s: string) {
    |s| == 106 && s[56] == '}' && s[57] == ';' && s[58] == '\n'
  }

  lemma SampleText5(s: string)
    requires s == SampleText()
    ensures |s| == 106 && s[56..59] == "};\n"
  {
    var a1 := "let five = 5;\n";
    var a2 := a1 + "let ten = 10;\n";
    var a3 := a2 + "let add = fn(x, y) {\n";
    var a4 := a3 + "x + y;\n";
    var a5 := a4 + "};\n";
    var a6 := a5 + "let result = add(five, ten);\n";
    var a7 := a6 + "!-/*5;\n";
    assert s == a7 + "5 < 10 > 5;";
    TakeOfConcat(a7, "5 < 10 > 5;", 59);
    TakeOfConcat(a6, "!-/*5;\n", 59);
    TakeOfConcat(a5, "let result = add(five, ten);\n", 59);
    LastPiece(s, a4, "};\n");
  }

  lemma SampleChars5OfLine(s: string)
    requires |s| == 106 && s[56..59] == "};\n"
    ensures SampleChars5(s)
  {
    var line := s[56..59];
    assert s[56] == line[0];
    assert s[57] == line[1];
    assert s[58] == line[2];
  }

  /** The characters of line 6, `let result = add(five, ten);`. */
  predicate SampleChars6(s: string) {
    |s| == 106 && s[59] == 'l' && s[60] == 'e' && s[61] == 't' && s[62] == ' ' && s[63] == 'r' &&
    s[64] == 'e' && s[65] == 's' && s[66] == 'u' && s[67] == 'l' && s[68] == 't' && s[69] == ' ' &&
    s[70] == '=' && s[71] == ' ' && s[72] == 'a' && s[73] == 'd' && s[74] == 'd' && s[75] == '(' &&
    s[76] == 'f' && s[77] == 'i' && s[78] == 'v' && s[79] == 'e' && s[80] == ',' && s[81] == ' ' &&
    s[82] == 't' && s[83] == 'e' && s[84] == 'n' && s[85] == ')' && s[86] == ';' && s[87] == '\n'
  }

  lemma SampleText6(s: string)
    requires s == SampleText()
    ensures |s| == 106 && s[59..88] == "let result = add(five, ten);\n"
  {
    var a1 := "let five = 5;\n";
    var a2 := a1 + "let ten = 10;\n";
    var a3 := a2 + "let add = fn(x, y) {\n";
    var a4 := a3 + "x + y;\n";
    var a5 := a4 + "};\n";
    var a6 := a5 + "let result = add(five, ten);\n";
    var a7 := a6 + "!-/*5;\n";
    assert s == a7 + "5 < 10 > 5;";
    TakeOfConcat(a7, "5 < 10 > 5;", 88);
    TakeOfConcat(a6, "!-/*5;\n", 88);
    LastPiece(s, a5, "let result = add(five, ten);\n");
  }

  lemma SampleChars6OfLine(s: string)
    requires |s| == 106 && s[59..88] == "let result = add(five, ten);\n"
    ensures SampleChars6(s)
  {
    var line := s[59..88];
    assert s[59] == line[0];
    assert s[60] == line[1];
    assert s[61] == line[2];
    assert s[62] == line[3];
    assert s[63] == line[4];
    assert s[64] == line[5];
    assert s[65] == line[6];
    assert s[66] == line[7];
    assert s[67] == line[8];
    assert s[68] == line[9];
    assert s[69] == line[10];
    assert s[70] == line[11];
    assert s[71] == line[12];
    assert s[72] == line[13];
    assert s[73] == line[14];
    assert s[74] == line[15];
    assert s[75] == line[16];
    assert s[76] == line[17];
    assert s[77] == line[18];
    assert s[78] == line[19];
    assert s[79] == line[20];
    assert s[80] == line[21];
    assert s[81] == line[22];
    assert s[82] == line[23];
    assert s[83] == line[24];
    assert s[84] == line[25];
    assert s[85] == line[26];
    assert s[86] == line[27];
    assert s[87] == line[28];
  }

  /** The characters of line 7, the run of one-character operators. */
  predicate SampleChars7(s: string) {
    |s| == 106 && s[88] == '!' && s[89] == '-' && s[90] == '/' && s[91] == '*' && s[92] == '5' &&
    s[93] == ';' && s[94] == '\n'
  }

  lemma SampleText7(s: string)
    requires s == SampleText()
    ensures |s| == 106 && s[88..95] == "!-/*5;\n"
  {
    var a1 := "let five = 5;\n";
    var a2 := a1 + "let ten = 10;\n";
    var a3 := a2 + "let add = fn(x, y) {\n";
    var a4 := a3 + "x + y;\n";
    var a5 := a4 + "};\n";
    var a6 := a5 + "let result = add(five, ten);\n";
    var a7 := a6 + "!-/*5;\n";
    assert s == a7 + "5 < 10 > 5;";
    TakeOfConcat(a7, "5 < 10 > 5;", 95);
    LastPiece(s, a6, "!-/*5;\n");
  }

  lemma SampleChars7OfLine(s: string)
    requires |s| == 106 && s[88..95] == "!-/*5;\n"
    ensures SampleChars7(s)
  {
    var line := s[88..95];
    assert s[88] == line[0];
    assert s[89] == line[1];
    assert s[90] == line[2];
    assert s[91] == line[3];
    assert s[92] == line[4];
    assert s[93] == line[5];
    assert s[94] == line[6];
  }

  /** The characters of line 8, `5 < 10 > 5;`. */
  predicate SampleChars8(s: string) {
    |s| == 106 && s[95] == '5' && s[96] == ' ' && s[97] == '<' && s[98] == ' ' && s[99] == '1' &&
    s[100] == '0' && s[101] == ' ' && s[102] == '>' && s[103] == ' ' && s[104] == '5' && s[105] == ';'
  }

  lemma SampleText8(s: string)
    requires s == SampleText()
    ensures |s| == 106 && s[95..106] == "5 < 10 > 5;"
  {
    var a1 := "let five = 5;\n";
    var a2 := a1 + "let ten = 10;\n";
    var a3 := a2 + "let add = fn(x, y) {\n";
    var a4 := a3 + "x + y;\n";
    var a5 := a4 + "};\n";
    var a6 := a5 + "let result = add(five, ten);\n";
    var a7 := a6 + "!-/*5;\n";
    assert s == a7 + "5 < 10 > 5;";
    LastPiece(s, a7, "5 < 10 > 5;");
  }

  lemma SampleChars8OfLine(s: string)
    requires |s| == 106 && s[95..106] == "5 < 10 > 5;"
    ensures SampleChars8(s)
  {
    var line := s[95..106];
    assert s[95] == line[0];
    assert s[96] == line[1];
    assert s[97] == line[2];
    assert s[98] == line[3];
    assert s[99] == line[4];
    assert s[100] == line[5];
    assert s[101] == line[6];
    assert s[102] == line[7];
    assert s[103] == line[8];
    assert s[104] == line[9];
    assert s[105] == line[10];
  }

  /** The expected tokens of line 1. */
  predicate SampleStream1(ts: seq<Token>) {
    |ts| == 48 && ts[0] == Let && ts[1] == Ident("five") && ts[2] == Assign && ts[3] == Int("5") &&
    ts[4] == Semicolon
  }

  lemma SampleTokens1(ts: seq<Token>)
    requires ts == SampleTokens()
    ensures |ts| == 48 && ts[0..5] == [Let, Ident("five"), Assign, Int("5"), Semicolon]
  {
    var a1: seq<Token> := [Let, Ident("five"), Assign, Int("5"), Semicolon];
    var a2: seq<Token> := a1 + [Let, Ident("ten"), Assign, Int("10"), Semicolon];
    var a3: seq<Token> := a2 + [Let, Ident("add"), Assign, Function, Lparen, Ident("x"), Comma,
          Ident("y"), Rparen, Lbrace];
    var a4: seq<Token> := a3 + [Ident("x"), Plus, Ident("y"), Semicolon];
    var a5: seq<Token> := a4 + [Rbrace, Semicolon];
    var a6: seq<Token> := a5 + [Let, Ident("result"), Assign, Ident("add"), Lparen, Ident("five"),
          Comma, Ident("ten"), Rparen, Semicolon];
    var a7: seq<Token> := a6 + [Bang, Minus, Slash, Asterisk, Int("5"), Semicolon];
    assert ts == a7 + [Int("5"), Lt, Int("10"), Gt, Int("5"), Semicolon];
    TakeOfConcat(a7, [Int("5"), Lt, Int("10"), Gt, Int("5"), Semicolon], 5);
    TakeOfConcat(a6, [Bang, Minus, Slash, Asterisk, Int("5"), Semicolon], 5);
    TakeOfConcat(a5, [Let, Ident("result"), Assign, Ident("add"), Lparen, Ident("five"), Comma,
          Ident("ten"), Rparen, Semicolon], 5);
    TakeOfConcat(a4, [Rbrace, Semicolon], 5);
    TakeOfConcat(a3, [Ident("x"), Plus, Ident("y"), Semicolon], 5);
    TakeOfConcat(a2, [Let, Ident("add"), Assign, Function, Lparen, Ident("x"), Comma, Ident("y"),
          Rparen, Lbrace], 5);
    TakeOfConcat(a1, [Let, Ident("ten"), Assign, Int("10"), Semicolon], 5);
    LastPiece(ts, [], [Let, Ident("five"), Assign, Int("5"), Semicolon]);
  }

  lemma SampleStream1OfLine(ts: seq<Token>)
    requires |ts| == 48 && ts[0..5] == [Let, Ident("five"), Assign, Int("5"), Semicolon]
    ensures SampleStream1(ts)
  {
    var line := ts[0..5];
    assert ts[0] == line[0];
    assert ts[1] == line[1];
    assert ts[2] == line[2];
    assert ts[3] == line[3];
    assert ts[4] == line[4];
  }

  /** The expected tokens of line 2. */
  predicate SampleStream2(ts: seq<Token>) {
    |ts| == 48 && ts[5] == Let && ts[6] == Ident("ten") && ts[7] == Assign && ts[8] == Int("10") &&
    ts[9] == Semicolon
  }

  lemma SampleTokens2(ts: seq<Token>)
    requires ts == SampleTokens()
    ensures |ts| == 48 && ts[5..10] == [Let, Ident("ten"), Assign, Int("10"), Semicolon]
  {
    var a1: seq<Token> := [Let, Ident("five"), Assign, Int("5"), Semicolon];
    var a2: seq<Token> := a1 + [Let, Ident("ten"), Assign, Int("10"), Semicolon];
    var a3: seq<Token> := a2 + [Let, Ident("add"), Assign, Function, Lparen, Ident("x"), Comma,
          Ident("y"), Rparen, Lbrace];
    var a4: seq<Token> := a3 + [Ident("x"), Plus, Ident("y"), Semicolon];
    var a5: seq<Token> := a4 + [Rbrace, Semicolon];
    var a6: seq<Token> := a5 + [Let, Ident("result"), Assign, Ident("add"), Lparen, Ident("five"),
          Comma, Ident("ten"), Rparen, Semicolon];
    var a7: seq<Token> := a6 + [Bang, Minus, Slash, Asterisk, Int("5"), Semicolon];
    assert ts == a7 + [Int("5"), Lt, Int("10"), Gt, Int("5"), Semicolon];
    TakeOfConcat(a7, [Int("5"), Lt, Int("10"), Gt, Int("5"), Semicolon], 10);
    TakeOfConcat(a6, [Bang, Minus, Slash, Asterisk, Int("5"), Semicolon], 10);
    TakeOfConcat(a5, [Let, Ident("result"), Assign, Ident("add"), Lparen, Ident("five"), Comma,
          Ident("ten"), Rparen, Semicolon], 10);
    TakeOfConcat(a4, [Rbrace, Semicolon], 10);
    TakeOfConcat(a3, [Ident("x"), Plus, Ident("y"), Semicolon], 10);
    TakeOfConcat(a2, [Let, Ident("add"), Assign, Function, Lparen, Ident("x"), Comma, Ident("y"),
          Rparen, Lbrace], 10);
    LastPiece(ts, a1, [Let, Ident("ten"), Assign, Int("10"), Semicolon]);
  }

  lemma SampleStream2OfLine(ts: seq<Token>)
    requires |ts| == 48 && ts[5..10] == [Let, Ident("ten"), Assign, Int("10"), Semicolon]
    ensures SampleStream2(ts)
  {
    var line := ts[5..10];
    assert ts[5] == line[0];
    assert ts[6] == line[1];
    assert ts[7] == line[2];
    assert ts[8] == line[3];
    assert ts[9] == line[4];
  }

  /** The expected tokens of line 3. */
  predicate SampleStream3(ts: seq<Token>) {
    |ts| == 48 && ts[10] == Let && ts[11] == Ident("add") && ts[12] == Assign && ts[13] == Function &&
    ts[14] == Lparen && ts[15] == Ident("x") && ts[16] == Comma && ts[17] == Ident("y") &&
    ts[18] == Rparen && ts[19] == Lbrace
  }

  lemma SampleTokens3(ts: seq<Token>)
    requires ts == SampleTokens()
    ensures |ts| == 48 && ts[10..20] == [Let, Ident("add"), Assign, Function, Lparen, Ident("x"),
          Comma, Ident("y"), Rparen, Lbrace]
  {
    var a1: seq<Token> := [Let, Ident("five"), Assign, Int("5"), Semicolon];
    var a2: seq<Token> := a1 + [Let, Ident("ten"), Assign, Int("10"), Semicolon];
    var a3: seq<Token> := a2 + [Let, Ident("add"), Assign, Function, Lparen, Ident("x"), Comma,
          Ident("y"), Rparen, Lbrace];
    var a4: seq<Token> := a3 + [Ident("x"), Plus, Ident("y"), Semicolon];
    var a5: seq<Token> := a4 + [Rbrace, Semicolon];
    var a6: seq<Token> := a5 + [Let, Ident("result"), Assign, Ident("add"), Lparen, Ident("five"),
          Comma, Ident("ten"), Rparen, Semicolon];
    var a7: seq<Token> := a6 + [Bang, Minus, Slash, Asterisk, Int("5"), Semicolon];
    assert ts == a7 + [Int("5"), Lt, Int("10"), Gt, Int("5"), Semicolon];
    TakeOfConcat(a7, [Int("5"), Lt, Int("10"), Gt, Int("5"), Semicolon], 20);
    TakeOfConcat(a6, [Bang, Minus, Slash, Asterisk, Int("5"), Semicolon], 20);
    TakeOfConcat(a5, [Let, Ident("result"), Assign, Ident("add"), Lparen, Ident("five"), Comma,
          Ident("ten"), Rparen, Semicolon], 20);
    TakeOfConcat(a4, [Rbrace, Semicolon], 20);
    TakeOfConcat(a3, [Ident("x"), Plus, Ident("y"), Semicolon], 20);
    LastPiece(ts, a2, [Let, Ident("add"), Assign, Function, Lparen, Ident("x"), Comma, Ident("y"),
          Rparen, Lbrace]);
  }

  lemma SampleStream3OfLine(ts: seq<Token>)
    requires |ts| == 48 && ts[10..20] == [Let, Ident("add"), Assign, Function, Lparen, Ident("x"),
          Comma, Ident("y"), Rparen, Lbrace]
    ensures SampleStream3(ts)
  {
    var line := ts[10..20];
    assert ts[10] == line[0];
    assert ts[11] == line[1];
    assert ts[12] == line[2];
    assert ts[13] == line[3];
    assert ts[14] == line[4];
    assert ts[15] == line[5];
    assert ts[16] == line[6];
    assert ts[17] == line[7];
    assert ts[18] == line[8];
    assert ts[19] == line[9];
  }

  /** The expected tokens of line 4. */
  predicate SampleStream4(ts: seq<Token>) {
    |ts| == 48 && ts[20] == Ident("x") && ts[21] == Plus && ts[22] == Ident("y") && ts[23] == Semicolon
  }

  lemma SampleTokens4(ts: seq<Token>)
    requires ts == SampleTokens()
    ensures |ts| == 48 && ts[20..24] == [Ident("x"), Plus, Ident("y"), Semicolon]
  {
    var a1: seq<Token> := [Let, Ident("five"), Assign, Int("5"), Semicolon];
    var a2: seq<Token> := a1 + [Let, Ident("ten"), Assign, Int("10"), Semicolon];
    var a3: seq<Token> := a2 + [Let, Ident("add"), Assign, Function, Lparen, Ident("x"), Comma,
          Ident("y"), Rparen, Lbrace];
    var a4: seq<Token> := a3 + [Ident("x"), Plus, Ident("y"), Semicolon];
    var a5: seq<Token> := a4 + [Rbrace, Semicolon];
    var a6: seq<Token> := a5 + [Let, Ident("result"), Assign, Ident("add"), Lparen, Ident("five"),
          Comma, Ident("ten"), Rparen, Semicolon];
    var a7: seq<Token> := a6 + [Bang, Minus, Slash, Asterisk, Int("5"), Semicolon];
    assert ts == a7 + [Int("5"), Lt, Int("10"), Gt, Int("5"), Semicolon];
    TakeOfConcat(a7, [Int("5"), Lt, Int("10"), Gt, Int("5"), Semicolon], 24);
    TakeOfConcat(a6, [Bang, Minus, Slash, Asterisk, Int("5"), Semicolon], 24);
    TakeOfConcat(a5, [Let, Ident("result"), Assign, Ident("add"), Lparen, Ident("five"), Comma,
          Ident("ten"), Rparen, Semicolon], 24);
    TakeOfConcat(a4, [Rbrace, Semicolon], 24);
    LastPiece(ts, a3, [Ident("x"), Plus, Ident("y"), Semicolon]);
  }

  lemma SampleStream4OfLine(ts: seq<Token>)
    requires |ts| == 48 && ts[20..24] == [Ident("x"), Plus, Ident("y"), Semicolon]
    ensures SampleStream4(ts)
  {
    var line := ts[20..24];
    assert ts[20] == line[0];
    assert ts[21] == line[1];
    assert ts[22] == line[2];
    assert ts[23] == line[3];
  }

  /** The expected tokens of line 5. */
  predicate SampleStream5(ts: seq<Token>) {
    |ts| == 48 && ts[24] == Rbrace && ts[25] == Semicolon
  }

  lemma SampleTokens5(ts: seq<Token>)
    requires ts == SampleTokens()
    ensures |ts| == 48 && ts[24..26] == [Rbrace, Semicolon]
  {
    var a1: seq<Token> := [Let, Ident("five"), Assign, Int("5"), Semicolon];
    var a2: seq<Token> := a1 + [Let, Ident("ten"), Assign, Int("10"), Semicolon];
    var a3: seq<Token> := a2 + [Let, Ident("add"), Assign, Function, Lparen, Ident("x"), Comma,
          Ident("y"), Rparen, Lbrace];
    var a4: seq<Token> := a3 + [Ident("x"), Plus, Ident("y"), Semicolon];
    var a5: seq<Token> := a4 + [Rbrace, Semicolon];
    var a6: seq<Token> := a5 + [Let, Ident("result"), Assign, Ident("add"), Lparen, Ident("five"),
          Comma, Ident("ten"), Rparen, Semicolon];
    var a7: seq<Token> := a6 + [Bang, Minus, Slash, Asterisk, Int("5"), Semicolon];
    assert ts == a7 + [Int("5"), Lt, Int("10"), Gt, Int("5"), Semicolon];
    TakeOfConcat(a7, [Int("5"), Lt, Int("10"), Gt, Int("5"), Semicolon], 26);
    TakeOfConcat(a6, [Bang, Minus, Slash, Asterisk, Int("5"), Semicolon], 26);
    TakeOfConcat(a5, [Let, Ident("result"), Assign, Ident("add"), Lparen, Ident("five"), Comma,
          Ident("ten"), Rparen, Semicolon], 26);
    LastPiece(ts, a4, [Rbrace, Semicolon]);
  }

  lemma SampleStream5OfLine(ts: seq<Token>)
    requires |ts| == 48 && ts[24..26] == [Rbrace, Semicolon]
    ensures SampleStream5(ts)
  {
    var line := ts[24..26];
    assert ts[24] == line[0];
    assert ts[25] == line[1];
  }

  /** The expected tokens of line 6. */
  predicate SampleStream6(ts: seq<Token>) {
    |ts| == 48 && ts[26] == Let && ts[27] == Ident("result") && ts[28] == Assign &&
    ts[29] == Ident("add") && ts[30] == Lparen && ts[31] == Ident("five") && ts[32] == Comma &&
    ts[33] == Ident("ten") && ts[34] == Rparen && ts[35] == Semicolon
  }

  lemma SampleTokens6(ts: seq<Token>)
    requires ts == SampleTokens()
    ensures |ts| == 48 && ts[26..36] == [Let, Ident("result"), Assign, Ident("add"), Lparen,
          Ident("five"), Comma, Ident("ten"), Rparen, Semicolon]
  {
    var a1: seq<Token> := [Let, Ident("five"), Assign, Int("5"), Semicolon];
    var a2: seq<Token> := a1 + [Let, Ident("ten"), Assign, Int("10"), Semicolon];
    var a3: seq<Token> := a2 + [Let, Ident("add"), Assign, Function, Lparen, Ident("x"), Comma,
          Ident("y"), Rparen, Lbrace];
    var a4: seq<Token> := a3 + [Ident("x"), Plus, Ident("y"), Semicolon];
    var a5: seq<Token> := a4 + [Rbrace, Semicolon];
    var a6: seq<Token> := a5 + [Let, Ident("result"), Assign, Ident("add"), Lparen, Ident("five"),
          Comma, Ident("ten"), Rparen, Semicolon];
    var a7: seq<Token> := a6 + [Bang, Minus, Slash, Asterisk, Int("5"), Semicolon];
    assert ts == a7 + [Int("5"), Lt, Int("10"), Gt, Int("5"), Semicolon];
    TakeOfConcat(a7, [Int("5"), Lt, Int("10"), Gt, Int("5"), Semicolon], 36);
    TakeOfConcat(a6, [Bang, Minus, Slash, Asterisk, Int("5"), Semicolon], 36);
    LastPiece(ts, a5, [Let, Ident("result"), Assign, Ident("add"), Lparen, Ident("five"), Comma,
          Ident("ten"), Rparen, Semicolon]);
  }

  lemma SampleStream6OfLine(ts: seq<Token>)
    requires |ts| == 48 && ts[26..36] == [Let, Ident("result"), Assign, Ident("add"), Lparen,
          Ident("five"), Comma, Ident("ten"), Rparen, Semicolon]
    ensures SampleStream6(ts)
  {
    var line := ts[26..36];
    assert ts[26] == line[0];
    assert ts[27] == line[1];
    assert ts[28] == line[2];
    assert ts[29] == line[3];
    assert ts[30] == line[4];
    assert ts[31] == line[5];
    assert ts[32] == line[6];
    assert ts[33] == line[7];
    assert ts[34] == line[8];
    assert ts[35] == line[9];
  }

  /** The expected tokens of line 7. */
  predicate SampleStream7(ts: seq<Token>) {
    |ts| == 48 && ts[36] == Bang && ts[37] == Minus && ts[38] == Slash && ts[39] == Asterisk &&
    ts[40] == Int("5") && ts[41] == Semicolon
  }

  lemma SampleTokens7(ts: seq<Token>)
    requires ts == SampleTokens()
    ensures |ts| == 48 && ts[36..42] == [Bang, Minus, Slash, Asterisk, Int("5"), Semicolon]
  {
    var a1: seq<Token> := [Let, Ident("five"), Assign, Int("5"), Semicolon];
    var a2: seq<Token> := a1 + [Let, Ident("ten"), Assign, Int("10"), Semicolon];
    var a3: seq<Token> := a2 + [Let, Ident("add"), Assign, Function, Lparen, Ident("x"), Comma,
          Ident("y"), Rparen, Lbrace];
    var a4: seq<Token> := a3 + [Ident("x"), Plus, Ident("y"), Semicolon];
    var a5: seq<Token> := a4 + [Rbrace, Semicolon];
    var a6: seq<Token> := a5 + [Let, Ident("result"), Assign, Ident("add"), Lparen, Ident("five"),
          Comma, Ident("ten"), Rparen, Semicolon];
    var a7: seq<Token> := a6 + [Bang, Minus, Slash, Asterisk, Int("5"), Semicolon];
    assert ts == a7 + [Int("5"), Lt, Int("10"), Gt, Int("5"), Semicolon];
    TakeOfConcat(a7, [Int("5"), Lt, Int("10"), Gt, Int("5"), Semicolon], 42);
    LastPiece(ts, a6, [Bang, Minus, Slash, Asterisk, Int("5"), Semicolon]);
  }

  lemma SampleStream7OfLine(ts: seq<Token>)
    requires |ts| == 48 && ts[36..42] == [Bang, Minus, Slash, Asterisk, Int("5"), Semicolon]
    ensures SampleStream7(ts)
  {
    var line := ts[36..42];
    assert ts[36] == line[0];
    assert ts[37] == line[1];
    assert ts[38] == line[2];
    assert ts[39] == line[3];
    assert ts[40] == line[4];
    assert ts[41] == line[5];
  }

  /** The expected tokens of line 8. */
  predicate SampleStream8(ts: seq<Token>) {
    |ts| == 48 && ts[42] == Int("5") && ts[43] == Lt && ts[44] == Int("10") && ts[45] == Gt &&
    ts[46] == Int("5") && ts[47] == Semicolon
  }

  lemma SampleTokens8(ts: seq<Token>)
    requires ts == SampleTokens()
    ensures |ts| == 48 && ts[42..48] == [Int("5"), Lt, Int("10"), Gt, Int("5"), Semicolon]
  {
    var a1: seq<Token> := [Let, Ident("five"), Assign, Int("5"), Semicolon];
    var a2: seq<Token> := a1 + [Let, Ident("ten"), Assign, Int("10"), Semicolon];
    var a3: seq<Token> := a2 + [Let, Ident("add"), Assign, Function, Lparen, Ident("x"), Comma,
          Ident("y"), Rparen, Lbrace];
    var a4: seq<Token> := a3 + [Ident("x"), Plus, Ident("y"), Semicolon];
    var a5: seq<Token> := a4 + [Rbrace, Semicolon];
    var a6: seq<Token> := a5 + [Let, Ident("result"), Assign, Ident("add"), Lparen, Ident("five"),
          Comma, Ident("ten"), Rparen, Semicolon];
    var a7: seq<Token> := a6 + [Bang, Minus, Slash, Asterisk, Int("5"), Semicolon];
    assert ts == a7 + [Int("5"), Lt, Int("10"), Gt, Int("5"), Semicolon];
    LastPiece(ts, a7, [Int("5"), Lt, Int("10"), Gt, Int("5"), Semicolon]);
  }

  lemma SampleStream8OfLine(ts: seq<Token>)
    requires |ts| == 48 && ts[42..48] == [Int("5"), Lt, Int("10"), Gt, Int("5"), Semicolon]
    ensures SampleStream8(ts)
  {
    var line := ts[42..48];
    assert ts[42] == line[0];
    assert ts[43] == line[1];
    assert ts[44] == line[2];
    assert ts[45] == line[3];
    assert ts[46] == line[4];
    assert ts[47] == line[5];
  }

  /** Token 0, read from `let` at 0 after the blanks from 0. */
  lemma SampleReads0(s: string)
    requires SampleChars1(s)
    ensures BlankUntil(s, 0, 0) && ReadsToken(s, Lexeme(0, Let, 3))
  {
    assert s[0..3] == "let";
  }

  lemma SampleStep0(s: string, ts: seq<Token>)
    requires BlankUntil(s, 0, 0) && ReadsToken(s, Lexeme(0, Let, 3)) && |ts| == 48 && ts[0] == Let
    requires TokenizeFrom(Lexer(s, 3)) == ts[1..]
    ensures TokenizeFrom(Lexer(s, 0)) == ts[0..]
  {
    TokenizeStep(s, 0, Lexeme(0, Let, 3), ts, 0);
  }

  /** Token 1, read from `five` at 4 after the blanks from 3. */
  lemma SampleReads1(s: string)
    requires SampleChars1(s)
    ensures BlankUntil(s, 3, 4) && ReadsToken(s, Lexeme(4, Ident("five"), 8))
  {
    assert s[4..8] == "five";
  }

  lemma SampleStep1(s: string, ts: seq<Token>)
    requires SampleChars1(s) && |ts| == 48 && ts[1] == Ident("five")
    requires TokenizeFrom(Lexer(s, 8)) == ts[2..]
    ensures TokenizeFrom(Lexer(s, 3)) == ts[1..]
  {
    SampleReads1(s);
    TokenizeStep(s, 3, Lexeme(4, Ident("five"), 8), ts, 1);
  }

  /** Token 2, read from `=` at 9 after the blanks from 8. */
  lemma SampleReads2(s: string)
    requires SampleChars1(s)
    ensures BlankUntil(s, 8, 9) && ReadsToken(s, Lexeme(9, Assign, 10))
  {
    assert s[9..10] == "=";
  }

  lemma SampleStep2(s: string, ts: seq<Token>)
    requires SampleChars1(s) && |ts| == 48 && ts[2] == Assign
    requires TokenizeFrom(Lexer(s, 10)) == ts[3..]
    ensures TokenizeFrom(Lexer(s, 8)) == ts[2..]
  {
    SampleReads2(s);
    TokenizeStep(s, 8, Lexeme(9, Assign, 10), ts, 2);
  }

  /** Token 3, read from `5` at 11 after the blanks from 10. */
  lemma SampleReads3(s: string)
    requires SampleChars1(s)
    ensures BlankUntil(s, 10, 11) && ReadsToken(s, Lexeme(11, Int("5"), 12))
  {
    assert s[11..12] == "5";
  }

  lemma SampleStep3(s: string, ts: seq<Token>)
    requires SampleChars1(s) && |ts| == 48 && ts[3] == Int("5")
    requires TokenizeFrom(Lexer(s, 12)) == ts[4..]
    ensures TokenizeFrom(Lexer(s, 10)) == ts[3..]
  {
    SampleReads3(s);
    TokenizeStep(s, 10, Lexeme(11, Int("5"), 12), ts, 3);
  }

  /** Token 4, read from `;` at 12 after the blanks from 12. */
  lemma SampleReads4(s: string)
    requires SampleChars1(s)
    ensures BlankUntil(s, 12, 12) && ReadsToken(s, Lexeme(12, Semicolon, 13))
  {
    assert s[12..13] == ";";
  }

  lemma SampleStep4(s: string, ts: seq<Token>)
    requires SampleChars1(s) && |ts| == 48 && ts[4] == Semicolon
    requires TokenizeFrom(Lexer(s, 13)) == ts[5..]
    ensures TokenizeFrom(Lexer(s, 12)) == ts[4..]
  {
    SampleReads4(s);
    TokenizeStep(s, 12, Lexeme(12, Semicolon, 13), ts, 4);
  }

  /** Token 5, read from `let` at 14 after the blanks from 13. */
  lemma SampleReads5(s: string)
    requires SampleChars1(s) && SampleChars2(s)
    ensures BlankUntil(s, 13, 14) && ReadsToken(s, Lexeme(14, Let, 17))
  {
    assert s[14..17] == "let";
  }

  lemma SampleStep5(s: string, ts: seq<Token>)
    requires SampleChars1(s) && SampleChars2(s) && |ts| == 48 && ts[5] == Let
    requires TokenizeFrom(Lexer(s, 17)) == ts[6..]
    ensures TokenizeFrom(Lexer(s, 13)) == ts[5..]
  {
    SampleReads5(s);
    TokenizeStep(s, 13, Lexeme(14, Let, 17), ts, 5);
  }

  /** Token 6, read from `ten` at 18 after the blanks from 17. */
  lemma SampleReads6(s: string)
    requires SampleChars2(s)
    ensures BlankUntil(s, 17, 18) && ReadsToken(s, Lexeme(18, Ident("ten"), 21))
  {
    assert s[18..21] == "ten";
  }

  lemma SampleStep6(s: string, ts: seq<Token>)
    requires SampleChars2(s) && |ts| == 48 && ts[6] == Ident("ten")
    requires TokenizeFrom(Lexer(s, 21)) == ts[7..]
    ensures TokenizeFrom(Lexer(s, 17)) == ts[6..]
  {
    SampleReads6(s);
    TokenizeStep(s, 17, Lexeme(18, Ident("ten"), 21), ts, 6);
  }

  /** Token 7, read from `=` at 22 after the blanks from 21. */
  lemma SampleReads7(s: string)
    requires SampleChars2(s)
    ensures BlankUntil(s, 21, 22) && ReadsToken(s, Lexeme(22, Assign, 23))
  {
    assert s[22..23] == "=";
  }

  lemma SampleStep7(s: string, ts: seq<Token>)
    requires SampleChars2(s) && |ts| == 48 && ts[7] == Assign
    requires TokenizeFrom(Lexer(s, 23)) == ts[8..]
    ensures TokenizeFrom(Lexer(s, 21)) == ts[7..]
  {
    SampleReads7(s);
    TokenizeStep(s, 21, Lexeme(22, Assign, 23), ts, 7);
  }

  /** Token 8, read from `10` at 24 after the blanks from 23. */
  lemma SampleReads8(s: string)
    requires SampleChars2(s)
    ensures BlankUntil(s, 23, 24) && ReadsToken(s, Lexeme(24, Int("10"), 26))
  {
    assert s[24..26] == "10";
  }

  lemma SampleStep8(s: string, ts: seq<Token>)
    requires SampleChars2(s) && |ts| == 48 && ts[8] == Int("10")
    requires TokenizeFrom(Lexer(s, 26)) == ts[9..]
    ensures TokenizeFrom(Lexer(s, 23)) == ts[8..]
  {
    SampleReads8(s);
    TokenizeStep(s, 23, Lexeme(24, Int("10"), 26), ts, 8);
  }

  /** Token 9, read from `;` at 26 after the blanks from 26. */
  lemma SampleReads9(s: string)
    requires SampleChars2(s)
    ensures BlankUntil(s, 26, 26) && ReadsToken(s, Lexeme(26, Semicolon, 27))
  {
    assert s[26..27] == ";";
  }

  lemma SampleStep9(s: string, ts: seq<Token>)
    requires SampleChars2(s) && |ts| == 48 && ts[9] == Semicolon
    requires TokenizeFrom(Lexer(s, 27)) == ts[10..]
    ensures TokenizeFrom(Lexer(s, 26)) == ts[9..]
  {
    SampleReads9(s);
    TokenizeStep(s, 26, Lexeme(26, Semicolon, 27), ts, 9);
  }

  /** Token 10, read from `let` at 28 after the blanks from 27. */
  lemma SampleReads10(s: string)
    requires SampleChars2(s) && SampleChars3(s)
    ensures BlankUntil(s, 27, 28) && ReadsToken(s, Lexeme(28, Let, 31))
  {
    assert s[28..31] == "let";
  }

  lemma SampleStep10(s: string, ts: seq<Token>)
    requires SampleChars2(s) && SampleChars3(s) && |ts| == 48 && ts[10] == Let
    requires TokenizeFrom(Lexer(s, 31)) == ts[11..]
    ensures TokenizeFrom(Lexer(s, 27)) == ts[10..]
  {
    SampleReads10(s);
    TokenizeStep(s, 27, Lexeme(28, Let, 31), ts, 10);
  }

  /** Token 11, read from `add` at 32 after the blanks from 31. */
  lemma SampleReads11(s: string)
    requires SampleChars3(s)
    ensures BlankUntil(s, 31, 32) && ReadsToken(s, Lexeme(32, Ident("add"), 35))
  {
    assert s[32..35] == "add";
  }

  lemma SampleStep11(s: string, ts: seq<Token>)
    requires SampleChars3(s) && |ts| == 48 && ts[11] == Ident("add")
    requires TokenizeFrom(Lexer(s, 35)) == ts[12..]
    ensures TokenizeFrom(Lexer(s, 31)) == ts[11..]
  {
    SampleReads11(s);
    TokenizeStep(s, 31, Lexeme(32, Ident("add"), 35), ts, 11);
  }

  /** Token 12, read from `=` at 36 after the blanks from 35. */
  lemma SampleReads12(s: string)
    requires SampleChars3(s)
    ensures BlankUntil(s, 35, 36) && ReadsToken(s, Lexeme(36, Assign, 37))
  {
    assert s[36..37] == "=";
  }

  lemma SampleStep12(s: string, ts: seq<Token>)
    requires SampleChars3(s) && |ts| == 48 && ts[12] == Assign
    requires TokenizeFrom(Lexer(s, 37)) == ts[13..]
    ensures TokenizeFrom(Lexer(s, 35)) == ts[12..]
  {
    SampleReads12(s);
    TokenizeStep(s, 35, Lexeme(36, Assign, 37), ts, 12);
  }

  /** Token 13, read from `fn` at 38 after the blanks from 37. */
  lemma SampleReads13(s: string)
    requires SampleChars3(s)
    ensures BlankUntil(s, 37, 38) && ReadsToken(s, Lexeme(38, Function, 40))
  {
    assert s[38..40] == "fn";
  }

  lemma SampleStep13(s: string, ts: seq<Token>)
    requires SampleChars3(s) && |ts| == 48 && ts[13] == Function
    requires TokenizeFrom(Lexer(s, 40)) == ts[14..]
    ensures TokenizeFrom(Lexer(s, 37)) == ts[13..]
  {
    SampleReads13(s);
    TokenizeStep(s, 37, Lexeme(38, Function, 40), ts, 13);
  }

  /** Token 14, read from `(` at 40 after the blanks from 40. */
  lemma SampleReads14(s: string)
    requires SampleChars3(s)
    ensures BlankUntil(s, 40, 40) && ReadsToken(s, Lexeme(40, Lparen, 41))
  {
    assert s[40..41] == "(";
  }

  lemma SampleStep14(s: string, ts: seq<Token>)
    requires SampleChars3(s) && |ts| == 48 && ts[14] == Lparen
    requires TokenizeFrom(Lexer(s, 41)) == ts[15..]
    ensures TokenizeFrom(Lexer(s, 40)) == ts[14..]
  {
    SampleReads14(s);
    TokenizeStep(s, 40, Lexeme(40, Lparen, 41), ts, 14);
  }

  /** Token 15, read from `x` at 41 after the blanks from 41. */
  lemma SampleReads15(s: string)
    requires SampleChars3(s)
    ensures BlankUntil(s, 41, 41) && ReadsToken(s, Lexeme(41, Ident("x"), 42))
  {
    assert s[41..42] == "x";
  }

  lemma SampleStep15(s: string, ts: seq<Token>)
    requires SampleChars3(s) && |ts| == 48 && ts[15] == Ident("x")
    requires TokenizeFrom(Lexer(s, 42)) == ts[16..]
    ensures TokenizeFrom(Lexer(s, 41)) == ts[15..]
  {
    SampleReads15(s);
    TokenizeStep(s, 41, Lexeme(41, Ident("x"), 42), ts, 15);
  }

  /** Token 16, read from `,` at 42 after the blanks from 42. */
  lemma SampleReads16(s: string)
    requires SampleChars3(s)
    ensures BlankUntil(s, 42, 42) && ReadsToken(s, Lexeme(42, Comma, 43))
  {
    assert s[42..43] == ",";
  }

  lemma SampleStep16(s: string, ts: seq<Token>)
    requires SampleChars3(s) && |ts| == 48 && ts[16] == Comma
    requires TokenizeFrom(Lexer(s, 43)) == ts[17..]
    ensures TokenizeFrom(Lexer(s, 42)) == ts[16..]
  {
    SampleReads16(s);
    TokenizeStep(s, 42, Lexeme(42, Comma, 43), ts, 16);
  }

  /** Token 17, read from `y` at 44 after the blanks from 43. */
  lemma SampleReads17(s: string)
    requires SampleChars3(s)
    ensures BlankUntil(s, 43, 44) && ReadsToken(s, Lexeme(44, Ident("y"), 45))
  {
    assert s[44..45] == "y";
  }

  lemma SampleStep17(s: string, ts: seq<Token>)
    requires SampleChars3(s) && |ts| == 48 && ts[17] == Ident("y")
    requires TokenizeFrom(Lexer(s, 45)) == ts[18..]
    ensures TokenizeFrom(Lexer(s, 43)) == ts[17..]
  {
    SampleReads17(s);
    TokenizeStep(s, 43, Lexeme(44, Ident("y"), 45), ts, 17);
  }

  /** Token 18, read from `)` at 45 after the blanks from 45. */
  lemma SampleReads18(s: string)
    requires SampleChars3(s)
    ensures BlankUntil(s, 45, 45) && ReadsToken(s, Lexeme(45, Rparen, 46))
  {
    assert s[45..46] == ")";
  }

  lemma SampleStep18(s: string, ts: seq<Token>)
    requires SampleChars3(s) && |ts| == 48 && ts[18] == Rparen
    requires TokenizeFrom(Lexer(s, 46)) == ts[19..]
    ensures TokenizeFrom(Lexer(s, 45)) == ts[18..]
  {
    SampleReads18(s);
    TokenizeStep(s, 45, Lexeme(45, Rparen, 46), ts, 18);
  }

  /** Token 19, read from `{` at 47 after the blanks from 46. */
  lemma SampleReads19(s: string)
    requires SampleChars3(s)
    ensures BlankUntil(s, 46, 47) && ReadsToken(s, Lexeme(47, Lbrace, 48))
  {
    assert s[47..48] == "{";
  }

  lemma SampleStep19(s: string, ts: seq<Token>)
    requires SampleChars3(s) && |ts| == 48 && ts[19] == Lbrace
    requires TokenizeFrom(Lexer(s, 48)) == ts[20..]
    ensures TokenizeFrom(Lexer(s, 46)) == ts[19..]
  {
    SampleReads19(s);
    TokenizeStep(s, 46, Lexeme(47, Lbrace, 48), ts, 19);
  }

  /** Token 20, read from `x` at 49 after the blanks from 48. */
  lemma SampleReads20(s: string)
    requires SampleChars3(s) && SampleChars4(s)
    ensures BlankUntil(s, 48, 49) && ReadsToken(s, Lexeme(49, Ident("x"), 50))
  {
    assert s[49..50] == "x";
  }

  lemma SampleStep20(s: string, ts: seq<Token>)
    requires SampleChars3(s) && SampleChars4(s) && |ts| == 48 && ts[20] == Ident("x")
    requires TokenizeFrom(Lexer(s, 50)) == ts[21..]
    ensures TokenizeFrom(Lexer(s, 48)) == ts[20..]
  {
    SampleReads20(s);
    TokenizeStep(s, 48, Lexeme(49, Ident("x"), 50), ts, 20);
  }

  /** Token 21, read from `+` at 51 after the blanks from 50. */
  lemma SampleReads21(s: string)
    requires SampleChars4(s)
    ensures BlankUntil(s, 50, 51) && ReadsToken(s, Lexeme(51, Plus, 52))
  {
    assert s[51..52] == "+";
  }

  lemma SampleStep21(s: string, ts: seq<Token>)
    requires SampleChars4(s) && |ts| == 48 && ts[21] == Plus
    requires TokenizeFrom(Lexer(s, 52)) == ts[22..]
    ensures TokenizeFrom(Lexer(s, 50)) == ts[21..]
  {
    SampleReads21(s);
    TokenizeStep(s, 50, Lexeme(51, Plus, 52), ts, 21);
  }

  /** Token 22, read from `y` at 53 after the blanks from 52. */
  lemma SampleReads22(s: string)
    requires SampleChars4(s)
    ensures BlankUntil(s, 52, 53) && ReadsToken(s, Lexeme(53, Ident("y"), 54))
  {
    assert s[53..54] == "y";
  }

  lemma SampleStep22(s: string, ts: seq<Token>)
    requires SampleChars4(s) && |ts| == 48 && ts[22] == Ident("y")
    requires TokenizeFrom(Lexer(s, 54)) == ts[23..]
    ensures TokenizeFrom(Lexer(s, 52)) == ts[22..]
  {
    SampleReads22(s);
    TokenizeStep(s, 52, Lexeme(53, Ident("y"), 54), ts, 22);
  }

  /** Token 23, read from `;` at 54 after the blanks from 54. */
  lemma SampleReads23(s: string)
    requires SampleChars4(s)
    ensures BlankUntil(s, 54, 54) && ReadsToken(s, Lexeme(54, Semicolon, 55))
  {
    assert s[54..55] == ";";
  }

  lemma SampleStep23(s: string, ts: seq<Token>)
    requires SampleChars4(s) && |ts| == 48 && ts[23] == Semicolon
    requires TokenizeFrom(Lexer(s, 55)) == ts[24..]
    ensures TokenizeFrom(Lexer(s, 54)) == ts[23..]
  {
    SampleReads23(s);
    TokenizeStep(s, 54, Lexeme(54, Semicolon, 55), ts, 23);
  }

  /** Token 24, read from `}` at 56 after the blanks from 55. */
  lemma SampleReads24(s: string)
    requires SampleChars4(s) && SampleChars5(s)
    ensures BlankUntil(s, 55, 56) && ReadsToken(s, Lexeme(56, Rbrace, 57))
  {
    assert s[56..57] == "}";
  }

  lemma SampleStep24(s: string, ts: seq<Token>)
    requires SampleChars4(s) && SampleChars5(s) && |ts| == 48 && ts[24] == Rbrace
    requires TokenizeFrom(Lexer(s, 57)) == ts[25..]
    ensures TokenizeFrom(Lexer(s, 55)) == ts[24..]
  {
    SampleReads24(s);
    TokenizeStep(s, 55, Lexeme(56, Rbrace, 57), ts, 24);
  }

  /** Token 25, read from `;` at 57 after the blanks from 57. */
  lemma SampleReads25(s: string)
    requires SampleChars5(s)
    ensures BlankUntil(s, 57, 57) && ReadsToken(s, Lexeme(57, Semicolon, 58))
  {
    assert s[57..58] == ";";
  }

  lemma SampleStep25(s: string, ts: seq<Token>)
    requires SampleChars5(s) && |ts| == 48 && ts[25] == Semicolon
    requires TokenizeFrom(Lexer(s, 58)) == ts[26..]
    ensures TokenizeFrom(Lexer(s, 57)) == ts[25..]
  {
    SampleReads25(s);
    TokenizeStep(s, 57, Lexeme(57, Semicolon, 58), ts, 25);
  }

  /** Token 26, read from `let` at 59 after the blanks from 58. */
  lemma SampleReads26(s: string)
    requires SampleChars5(s) && SampleChars6(s)
    ensures BlankUntil(s, 58, 59) && ReadsToken(s, Lexeme(59, Let, 62))
  {
    assert s[59..62] == "let";
  }

  lemma SampleStep26(s: string, ts: seq<Token>)
    requires SampleChars5(s) && SampleChars6(s) && |ts| == 48 && ts[26] == Let
    requires TokenizeFrom(Lexer(s, 62)) == ts[27..]
    ensures TokenizeFrom(Lexer(s, 58)) == ts[26..]
  {
    SampleReads26(s);
    TokenizeStep(s, 58, Lexeme(59, Let, 62), ts, 26);
  }

  /** Token 27, read from `result` at 63 after the blanks from 62. */
  lemma SampleReads27(s: string)
    requires SampleChars6(s)
    ensures BlankUntil(s, 62, 63) && ReadsToken(s, Lexeme(63, Ident("result"), 69))
  {
    assert s[63..69] == "result";
  }

  lemma SampleStep27(s: string, ts: seq<Token>)
    requires SampleChars6(s) && |ts| == 48 && ts[27] == Ident("result")
    requires TokenizeFrom(Lexer(s, 69)) == ts[28..]
    ensures TokenizeFrom(Lexer(s, 62)) == ts[27..]
  {
    SampleReads27(s);
    TokenizeStep(s, 62, Lexeme(63, Ident("result"), 69), ts, 27);
  }

  /** Token 28, read from `=` at 70 after the blanks from 69. */
  lemma SampleReads28(s: string)
    requires SampleChars6(s)
    ensures BlankUntil(s, 69, 70) && ReadsToken(s, Lexeme(70, Assign, 71))
  {
    assert s[70..71] == "=";
  }

  lemma SampleStep28(s: string, ts: seq<Token>)
    requires SampleChars6(s) && |ts| == 48 && ts[28] == Assign
    requires TokenizeFrom(Lexer(s, 71)) == ts[29..]
    ensures TokenizeFrom(Lexer(s, 69)) == ts[28..]
  {
    SampleReads28(s);
    TokenizeStep(s, 69, Lexeme(70, Assign, 71), ts, 28);
  }

  /** Token 29, read from `add` at 72 after the blanks from 71. */
  lemma SampleReads29(s: string)
    requires SampleChars6(s)
    ensures BlankUntil(s, 71, 72) && ReadsToken(s, Lexeme(72, Ident("add"), 75))
  {
    assert s[72..75] == "add";
  }

  lemma SampleStep29(s: string, ts: seq<Token>)
    requires SampleChars6(s) && |ts| == 48 && ts[29] == Ident("add")
    requires TokenizeFrom(Lexer(s, 75)) == ts[30..]
    ensures TokenizeFrom(Lexer(s, 71)) == ts[29..]
  {
    SampleReads29(s);
    TokenizeStep(s, 71, Lexeme(72, Ident("add"), 75), ts, 29);
  }

  /** Token 30, read from `(` at 75 after the blanks from 75. */
  lemma SampleReads30(s: string)
    requires SampleChars6(s)
    ensures BlankUntil(s, 75, 75) && ReadsToken(s, Lexeme(75, Lparen, 76))
  {
    assert s[75..76] == "(";
  }

  lemma SampleStep30(s: string, ts: seq<Token>)
    requires SampleChars6(s) && |ts| == 48 && ts[30] == Lparen
    requires TokenizeFrom(Lexer(s, 76)) == ts[31..]
    ensures TokenizeFrom(Lexer(s, 75)) == ts[30..]
  {
    SampleReads30(s);
    TokenizeStep(s, 75, Lexeme(75, Lparen, 76), ts, 30);
  }

  /** Token 31, read from `five` at 76 after the blanks from 76. */
  lemma SampleReads31(s: string)
    requires SampleChars6(s)
    ensures BlankUntil(s, 76, 76) && ReadsToken(s, Lexeme(76, Ident("five"), 80))
  {
    assert s[76..80] == "five";
  }

  lemma SampleStep31(s: string, ts: seq<Token>)
    requires SampleChars6(s) && |ts| == 48 && ts[31] == Ident("five")
    requires TokenizeFrom(Lexer(s, 80)) == ts[32..]
    ensures TokenizeFrom(Lexer(s, 76)) == ts[31..]
  {
    SampleReads31(s);
    TokenizeStep(s, 76, Lexeme(76, Ident("five"), 80), ts, 31);
  }

  /** Token 32, read from `,` at 80 after the blanks from 80. */
  lemma SampleReads32(s: string)
    requires SampleChars6(s)
    ensures BlankUntil(s, 80, 80) && ReadsToken(s, Lexeme(80, Comma, 81))
  {
    assert s[80..81] == ",";
  }

  lemma SampleStep32(s: string, ts: seq<Token>)
    requires SampleChars6(s) && |ts| == 48 && ts[32] == Comma
    requires TokenizeFrom(Lexer(s, 81)) == ts[33..]
    ensures TokenizeFrom(Lexer(s, 80)) == ts[32..]
  {
    SampleReads32(s);
    TokenizeStep(s, 80, Lexeme(80, Comma, 81), ts, 32);
  }

  /** Token 33, read from `ten` at 82 after the blanks from 81. */
  lemma SampleReads33(s: string)
    requires SampleChars6(s)
    ensures BlankUntil(s, 81, 82) && ReadsToken(s, Lexeme(82, Ident("ten"), 85))
  {
    assert s[82..85] == "ten";
  }

  lemma SampleStep33(s: string, ts: seq<Token>)
    requires SampleChars6(s) && |ts| == 48 && ts[33] == Ident("ten")
    requires TokenizeFrom(Lexer(s, 85)) == ts[34..]
    ensures TokenizeFrom(Lexer(s, 81)) == ts[33..]
  {
    SampleReads33(s);
    TokenizeStep(s, 81, Lexeme(82, Ident("ten"), 85), ts, 33);
  }

  /** Token 34, read from `)` at 85 after the blanks from 85. */
  lemma SampleReads34(s: string)
    requires SampleChars6(s)
    ensures BlankUntil(s, 85, 85) && ReadsToken(s, Lexeme(85, Rparen, 86))
  {
    assert s[85..86] == ")";
  }

  lemma SampleStep34(s: string, ts: seq<Token>)
    requires SampleChars6(s) && |ts| == 48 && ts[34] == Rparen
    requires TokenizeFrom(Lexer(s, 86)) == ts[35..]
    ensures TokenizeFrom(Lexer(s, 85)) == ts[34..]
  {
    SampleReads34(s);
    TokenizeStep(s, 85, Lexeme(85, Rparen, 86), ts, 34);
  }

  /** Token 35, read from `;` at 86 after the blanks from 86. */
  lemma SampleReads35(s: string)
    requires SampleChars6(s)
    ensures BlankUntil(s, 86, 86) && ReadsToken(s, Lexeme(86, Semicolon, 87))
  {
    assert s[86..87] == ";";
  }

  lemma SampleStep35(s: string, ts: seq<Token>)
    requires SampleChars6(s) && |ts| == 48 && ts[35] == Semicolon
    requires TokenizeFrom(Lexer(s, 87)) == ts[36..]
    ensures TokenizeFrom(Lexer(s, 86)) == ts[35..]
  {
    SampleReads35(s);
    TokenizeStep(s, 86, Lexeme(86, Semicolon, 87), ts, 35);
  }

  /** Token 36, read from `!` at 88 after the blanks from 87. */
  lemma SampleReads36(s: string)
    requires SampleChars6(s) && SampleChars7(s)
    ensures BlankUntil(s, 87, 88) && ReadsToken(s, Lexeme(88, Bang, 89))
  {
    assert s[88..89] == "!";
  }

  lemma SampleStep36(s: string, ts: seq<Token>)
    requires SampleChars6(s) && SampleChars7(s) && |ts| == 48 && ts[36] == Bang
    requires TokenizeFrom(Lexer(s, 89)) == ts[37..]
    ensures TokenizeFrom(Lexer(s, 87)) == ts[36..]
  {
    SampleReads36(s);
    TokenizeStep(s, 87, Lexeme(88, Bang, 89), ts, 36);
  }

  /** Token 37, read from `-` at 89 after the blanks from 89. */
  lemma SampleReads37(s: string)
    requires SampleChars7(s)
    ensures BlankUntil(s, 89, 89) && ReadsToken(s, Lexeme(89, Minus, 90))
  {
    assert s[89..90] == "-";
  }

  lemma SampleStep37(s: string, ts: seq<Token>)
    requires SampleChars7(s) && |ts| == 48 && ts[37] == Minus
    requires TokenizeFrom(Lexer(s, 90)) == ts[38..]
    ensures TokenizeFrom(Lexer(s, 89)) == ts[37..]
  {
    SampleReads37(s);
    TokenizeStep(s, 89, Lexeme(89, Minus, 90), ts, 37);
  }

  /** Token 38, read from `/` at 90 after the blanks from 90. */
  lemma SampleReads38(s: string)
    requires SampleChars7(s)
    ensures BlankUntil(s, 90, 90) && ReadsToken(s, Lexeme(90, Slash, 91))
  {
    assert s[90..91] == "/";
  }

  lemma SampleStep38(s: string, ts: seq<Token>)
    requires SampleChars7(s) && |ts| == 48 && ts[38] == Slash
    requires TokenizeFrom(Lexer(s, 91)) == ts[39..]
    ensures TokenizeFrom(Lexer(s, 90)) == ts[38..]
  {
    SampleReads38(s);
    TokenizeStep(s, 90, Lexeme(90, Slash, 91), ts, 38);
  }

  /** Token 39, read from `*` at 91 after the blanks from 91. */
  lemma SampleReads39(s: string)
    requires SampleChars7(s)
    ensures BlankUntil(s, 91, 91) && ReadsToken(s, Lexeme(91, Asterisk, 92))
  {
    assert s[91..92] == "*";
  }

  lemma SampleStep39(s: string, ts: seq<Token>)
    requires SampleChars7(s) && |ts| == 48 && ts[39] == Asterisk
    requires TokenizeFrom(Lexer(s, 92)) == ts[40..]
    ensures TokenizeFrom(Lexer(s, 91)) == ts[39..]
  {
    SampleReads39(s);
    TokenizeStep(s, 91, Lexeme(91, Asterisk, 92), ts, 39);
  }

  /** Token 40, read from `5` at 92 after the blanks from 92. */
  lemma SampleReads40(s: string)
    requires SampleChars7(s)
    ensures BlankUntil(s, 92, 92) && ReadsToken(s, Lexeme(92, Int("5"), 93))
  {
    assert s[92..93] == "5";
  }

  lemma SampleStep40(s: string, ts: seq<Token>)
    requires SampleChars7(s) && |ts| == 48 && ts[40] == Int("5")
    requires TokenizeFrom(Lexer(s, 93)) == ts[41..]
    ensures TokenizeFrom(Lexer(s, 92)) == ts[40..]
  {
    SampleReads40(s);
    TokenizeStep(s, 92, Lexeme(92, Int("5"), 93), ts, 40);
  }

  /** Token 41, read from `;` at 93 after the blanks from 93. */
  lemma SampleReads41(s: string)
    requires SampleChars7(s)
    ensures BlankUntil(s, 93, 93) && ReadsToken(s, Lexeme(93, Semicolon, 94))
  {
    assert s[93..94] == ";";
  }

  lemma SampleStep41(s: string, ts: seq<Token>)
    requires SampleChars7(s) && |ts| == 48 && ts[41] == Semicolon
    requires TokenizeFrom(Lexer(s, 94)) == ts[42..]
    ensures TokenizeFrom(Lexer(s, 93)) == ts[41..]
  {
    SampleReads41(s);
    TokenizeStep(s, 93, Lexeme(93, Semicolon, 94), ts, 41);
  }

  /** Token 42, read from `5` at 95 after the blanks from 94. */
  lemma SampleReads42(s: string)
    requires SampleChars7(s) && SampleChars8(s)
    ensures BlankUntil(s, 94, 95) && ReadsToken(s, Lexeme(95, Int("5"), 96))
  {
    assert s[95..96] == "5";
  }

  lemma SampleStep42(s: string, ts: seq<Token>)
    requires SampleChars7(s) && SampleChars8(s) && |ts| == 48 && ts[42] == Int("5")
    requires TokenizeFrom(Lexer(s, 96)) == ts[43..]
    ensures TokenizeFrom(Lexer(s, 94)) == ts[42..]
  {
    SampleReads42(s);
    TokenizeStep(s, 94, Lexeme(95, Int("5"), 96), ts, 42);
  }

  /** Token 43, read from `<` at 97 after the blanks from 96. */
  lemma SampleReads43(s: string)
    requires SampleChars8(s)
    ensures BlankUntil(s, 96, 97) && ReadsToken(s, Lexeme(97, Lt, 98))
  {
    assert s[97..98] == "<";
  }

  lemma SampleStep43(s: string, ts: seq<Token>)
    requires SampleChars8(s) && |ts| == 48 && ts[43] == Lt
    requires TokenizeFrom(Lexer(s, 98)) == ts[44..]
    ensures TokenizeFrom(Lexer(s, 96)) == ts[43..]
  {
    SampleReads43(s);
    TokenizeStep(s, 96, Lexeme(97, Lt, 98), ts, 43);
  }

  /** Token 44, read from `10` at 99 after the blanks from 98. */
  lemma SampleReads44(s: string)
    requires SampleChars8(s)
    ensures BlankUntil(s, 98, 99) && ReadsToken(s, Lexeme(99, Int("10"), 101))
  {
    assert s[99..101] == "10";
  }

  lemma SampleStep44(s: string, ts: seq<Token>)
    requires SampleChars8(s) && |ts| == 48 && ts[44] == Int("10")
    requires TokenizeFrom(Lexer(s, 101)) == ts[45..]
    ensures TokenizeFrom(Lexer(s, 98)) == ts[44..]
  {
    SampleReads44(s);
    TokenizeStep(s, 98, Lexeme(99, Int("10"), 101), ts, 44);
  }

  /** Token 45, read from `>` at 102 after the blanks from 101. */
  lemma SampleReads45(s: string)
    requires SampleChars8(s)
    ensures BlankUntil(s, 101, 102) && ReadsToken(s, Lexeme(102, Gt, 103))
  {
    assert s[102..103] == ">";
  }

  lemma SampleStep45(s: string, ts: seq<Token>)
    requires SampleChars8(s) && |ts| == 48 && ts[45] == Gt
    requires TokenizeFrom(Lexer(s, 103)) == ts[46..]
    ensures TokenizeFrom(Lexer(s, 101)) == ts[45..]
  {
    SampleReads45(s);
    TokenizeStep(s, 101, Lexeme(102, Gt, 103), ts, 45);
  }

  /** Token 46, read from `5` at 104 after the blanks from 103. */
  lemma SampleReads46(s: string)
    requires SampleChars8(s)
    ensures BlankUntil(s, 103, 104) && ReadsToken(s, Lexeme(104, Int("5"), 105))
  {
    assert s[104..105] == "5";
  }

  lemma SampleStep46(s: string, ts: seq<Token>)
    requires SampleChars8(s) && |ts| == 48 && ts[46] == Int("5")
    requires TokenizeFrom(Lexer(s, 105)) == ts[47..]
    ensures TokenizeFrom(Lexer(s, 103)) == ts[46..]
  {
    SampleReads46(s);
    TokenizeStep(s, 103, Lexeme(104, Int("5"), 105), ts, 46);
  }

  /** Token 47, read from `;` at 105 after the blanks from 105. */
  lemma SampleReads47(s: string)
    requires SampleChars8(s)
    ensures BlankUntil(s, 105, 105) && ReadsToken(s, Lexeme(105, Semicolon, 106))
  {
    assert s[105..106] == ";";
  }

  lemma SampleStep47(s: string, ts: seq<Token>)
    requires SampleChars8(s) && |ts| == 48 && ts[47] == Semicolon
    ensures TokenizeFrom(Lexer(s, 105)) == ts[47..]
  {
    SampleReads47(s);
    TokenizeAtEnd(s, ts);
    TokenizeStep(s, 105, Lexeme(105, Semicolon, 106), ts, 47);
  }

  /** Line 1, `let five = 5;`, read from the end of the line before. */
  lemma SampleLine1(s: string, ts: seq<Token>)
    requires SampleChars1(s) && SampleStream1(ts)
    requires TokenizeFrom(Lexer(s, 13)) == ts[5..]
    ensures TokenizeFrom(Lexer(s, 0)) == ts[0..]
  {
    SampleStep4(s, ts);
    SampleStep3(s, ts);
    SampleStep2(s, ts);
    SampleStep1(s, ts);
    SampleReads0(s);
    SampleStep0(s, ts);
  }

  /** Line 2, `let ten = 10;`, read from the end of the line before. */
  lemma SampleLine2(s: string, ts: seq<Token>)
    requires SampleChars1(s) && SampleChars2(s) && SampleStream2(ts)
    requires TokenizeFrom(Lexer(s, 27)) == ts[10..]
    ensures TokenizeFrom(Lexer(s, 13)) == ts[5..]
  {
    SampleStep9(s, ts);
    SampleStep8(s, ts);
    SampleStep7(s, ts);
    SampleStep6(s, ts);
    SampleStep5(s, ts);
  }

  /** Line 3, `let add = fn(x, y) {`, read from the end of the line before. */
  lemma SampleLine3(s: string, ts: seq<Token>)
    requires SampleChars2(s) && SampleChars3(s) && SampleStream3(ts)
    requires TokenizeFrom(Lexer(s, 48)) == ts[20..]
    ensures TokenizeFrom(Lexer(s, 27)) == ts[10..]
  {
    SampleStep19(s, ts);
    SampleStep18(s, ts);
    SampleStep17(s, ts);
    SampleStep16(s, ts);
    SampleStep15(s, ts);
    SampleStep14(s, ts);
    SampleStep13(s, ts);
    SampleStep12(s, ts);
    SampleStep11(s, ts);
    SampleStep10(s, ts);
  }

  /** Line 4, `x + y;`, read from the end of the line before. */
  lemma SampleLine4(s: string, ts: seq<Token>)
    requires SampleChars3(s) && SampleChars4(s) && SampleStream4(ts)
    requires TokenizeFrom(Lexer(s, 55)) == ts[24..]
    ensures TokenizeFrom(Lexer(s, 48)) == ts[20..]
  {
    SampleStep23(s, ts);
    SampleStep22(s, ts);
    SampleStep21(s, ts);
    SampleStep20(s, ts);
  }

  /** Line 5, `};`, read from the end of the line before. */
  lemma SampleLine5(s: string, ts: seq<Token>)
    requires SampleChars4(s) && SampleChars5(s) && SampleStream5(ts)
    requires TokenizeFrom(Lexer(s, 58)) == ts[26..]
    ensures TokenizeFrom(Lexer(s, 55)) == ts[24..]
  {
    SampleStep25(s, ts);
    SampleStep24(s, ts);
  }

  /** Line 6, `let result = add(five, ten);`, read from the end of the line before. */
  lemma SampleLine6(s: string, ts: seq<Token>)
    requires SampleChars5(s) && SampleChars6(s) && SampleStream6(ts)
    requires TokenizeFrom(Lexer(s, 87)) == ts[36..]
    ensures TokenizeFrom(Lexer(s, 58)) == ts[26..]
  {
    SampleStep35(s, ts);
    SampleStep34(s, ts);
    SampleStep33(s, ts);
    SampleStep32(s, ts);
    SampleStep31(s, ts);
    SampleStep30(s, ts);
    SampleStep29(s, ts);
    SampleStep28(s, ts);
    SampleStep27(s, ts);
    SampleStep26(s, ts);
  }

  /** Line 7, the run of one-character operators, read from the end of the line before. */
  lemma SampleLine7(s: string, ts: seq<Token>)
    requires SampleChars6(s) && SampleChars7(s) && SampleStream7(ts)
    requires TokenizeFrom(Lexer(s, 94)) == ts[42..]
    ensures TokenizeFrom(Lexer(s, 87)) == ts[36..]
  {
    SampleStep41(s, ts);
    SampleStep40(s, ts);
    SampleStep39(s, ts);
    SampleStep38(s, ts);
    SampleStep37(s, ts);
    SampleStep36(s, ts);
  }

  /** Line 8, `5 < 10 > 5;`, read from the end of the line before. */
  lemma SampleLine8(s: string, ts: seq<Token>)
    requires SampleChars7(s) && SampleChars8(s) && SampleStream8(ts)
    ensures TokenizeFrom(Lexer(s, 94)) == ts[42..]
  {
    SampleStep47(s, ts);
    SampleStep46(s, ts);
    SampleStep45(s, ts);
    SampleStep44(s, ts);
    SampleStep43(s, ts);
    SampleStep42(s, ts);
  }

  /** Read line by line from the end, the sample text gives the sample stream. */
  lemma SampleLexed(s: string, ts: seq<Token>)
    requires SampleChars1(s) && SampleChars2(s) && SampleChars3(s) && SampleChars4(s) &&
      SampleChars5(s) && SampleChars6(s) && SampleChars7(s) && SampleChars8(s)
    requires SampleStream1(ts) && SampleStream2(ts) && SampleStream3(ts) && SampleStream4(ts) &&
      SampleStream5(ts) && SampleStream6(ts) && SampleStream7(ts) && SampleStream8(ts)
    ensures TokenizeFrom(Lexer(s, 0)) == ts
  {
    SampleLine8(s, ts);
    SampleLine7(s, ts);
    SampleLine6(s, ts);
    SampleLine5(s, ts);
    SampleLine4(s, ts);
    SampleLine3(s, ts);
    SampleLine2(s, ts);
    SampleLine1(s, ts);
    assert ts[0..] == ts;
  }

  /**
   The sample program lexes to exactly the 48 tokens the test expects, after
   which the lexer reports the end of input.
   */
  lemma SampleTokenizes(s: string, ts: seq<Token>)
    requires s == SampleText() && ts == SampleTokens()
    ensures Tokenize(s) == ts
  {
    SampleText1(s);
    SampleChars1OfLine(s);
    SampleText2(s);
    SampleChars2OfLine(s);
    SampleText3(s);
    SampleChars3OfLine(s);
    SampleText4(s);
    SampleChars4OfLine(s);
    SampleText5(s);
    SampleChars5OfLine(s);
    SampleText6(s);
    SampleChars6OfLine(s);
    SampleText7(s);
    SampleChars7OfLine(s);
    SampleText8(s);
    SampleChars8OfLine(s);
    SampleTokens1(ts);
    SampleStream1OfLine(ts);
    SampleTokens2(ts);
    SampleStream2OfLine(ts);
    SampleTokens3(ts);
    SampleStream3OfLine(ts);
    SampleTokens4(ts);
    SampleStream4OfLine(ts);
    SampleTokens5(ts);
    SampleStream5OfLine(ts);
    SampleTokens6(ts);
    SampleStream6OfLine(ts);
    SampleTokens7(ts);
    SampleStream7OfLine(ts);
    SampleTokens8(ts);
    SampleStream8OfLine(ts);
    SampleLexed(s, ts);
  }
}
