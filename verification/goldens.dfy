/**
 The parser's golden inputs, each taken from its token stream to the parsed
 program and the program's rendering. The stream and the leaves are passed in
 as parameters equal to their values, so that each lemma works on them by
 name rather than by evaluating the parser on a constant.
 */
module ParserGoldens {
  import opened Wrappers
  import opened Tokens
  import opened Ast
  import opened Numerals
  import opened Parsing
  import opened ParserFacts
  import opened ParserForms
  import opened ParserBlocks

  /** The tokens of `3 > 5 == false`. */
  function ComparisonTokens(): seq<Token> {
    [Int("3"), Gt, Int("5"), Eq, False]
  }

  /** The tree of `3 > 5 == false`: the comparison groups first. */
  function ComparisonTree(): Expr {
    Binary(Binary(IntLiteral(Int("3"), 3), Gt, IntLiteral(Int("5"), 5)), Eq, Boolean(False, false))
  }

  lemma ComparisonShape(ts: seq<Token>, p: Parser)
    requires ts == ComparisonTokens() && p == At(ts, 0)
    ensures TwoOperations(p) && Rank(PrecedenceOf(p.At(p.pos + 3))) <= Rank(PrecedenceOf(p.At(p.pos + 1)))
  {
    OneDigit('3');
    OneDigit('5');
  }

  lemma ComparisonLeaves(ts: seq<Token>, p: Parser)
    requires ts == ComparisonTokens() && p == At(ts, 0)
    ensures p.At(p.pos) == Int("3") && p.At(p.pos + 1) == Gt && p.At(p.pos + 2) == Int("5")
    ensures p.At(p.pos + 3) == Eq && p.At(p.pos + 4) == False
    ensures p.(pos := p.pos + 4) == At(ts, |ts| - 1)
  {
  }

  lemma NumberLeaves()
    ensures Atom(Int("3")) && AtomExpr(Int("3")) == IntLiteral(Int("3"), 3)
    ensures Atom(Int("5")) && AtomExpr(Int("5")) == IntLiteral(Int("5"), 5)
    ensures AtomExpr(False) == Boolean(False, false)
  {
    OneDigit('3');
    OneDigit('5');
  }

  lemma ComparisonParse(ts: seq<Token>)
    requires ts == ComparisonTokens()
    ensures ParseProgram(ts) == Parsed(Program([ExprStmt(Int("3"), Some(ComparisonTree()))]), [])
  {
    var p := At(ts, 0);
    ComparisonShape(ts, p);
    GroupsLeft(p);
    ComparisonLeaves(ts, p);
    NumberLeaves();
    SingleExpressionProgram(ts, ComparisonTree());
  }

  /** The rendering of `3 > 5 == false` pieced together, spelled out. */
  lemma ComparisonText(s1: string)
    requires s1 == "(" + "3" + " " + ">" + " " + "5" + ")"
    ensures "(" + s1 + " " + "==" + " " + "false" + ")" == "((3 > 5) == false)"
  {
  }

  lemma ComparisonRender(e: Expr)
    requires e == ComparisonTree()
    ensures ExprString(e) == "((3 > 5) == false)"
  {
    var three, five, no := IntLiteral(Int("3"), 3), IntLiteral(Int("5"), 5), Boolean(False, false);
    assert Literal(Gt) == ">" && Literal(Eq) == "==";
    var s1 := "(" + "3" + " " + ">" + " " + "5" + ")";
    BinaryRender(three, Gt, five, "3", "5");
    BinaryRender(Binary(three, Gt, five), Eq, no, s1, "false");
    ComparisonText(s1);
  }

  /** `3 > 5 == false` parses to one statement that renders `((3 > 5) == false)`. */
  lemma ComparisonChain(ts: seq<Token>)
    requires ts == ComparisonTokens()
    ensures
      var r := ParseProgram(ts);
      r.Parsed? && r.errors == [] && |r.program.statements| == 1 &&
      StmtString(r.program.statements[0]) == "((3 > 5) == false)"
  {
    ComparisonParse(ts);
    ComparisonRender(ComparisonTree());
    OneStatementText(ts, Int("3"), ComparisonTree(), "((3 > 5) == false)");
  }

  /** A program of one expression statement, read back through its rendering. */
  lemma OneStatementText(ts: seq<Token>, t: Token, e: Expr, text: string)
    requires ParseProgram(ts) == Parsed(Program([ExprStmt(t, Some(e))]), []) && ExprString(e) == text
    ensures
      var r := ParseProgram(ts);
      r.Parsed? && r.errors == [] && |r.program.statements| == 1 && StmtString(r.program.statements[0]) == text
  {
    var st := ExprStmt(t, Some(e));
    assert StmtString(st) == ExprString(e);
  }

  /** The tokens of `a + add(b * c) + d`. */
  function CallInSumTokens(): seq<Token> {
    [Ident("a"), Plus, Ident("add"), Lparen, Ident("b"), Asterisk, Ident("c"), Rparen, Plus, Ident("d")]
  }

  function Var(name: string): Expr {
    Name(NewIdentifier(Ident(name)))
  }

  /** The tree of `a + add(b * c) + d`: the call is an operand of the first `+`. */
  function CallInSumTree(): Expr {
    Binary(Binary(Var("a"), Plus, CallExpr(Rparen, Var("add"), [Binary(Var("b"), Asterisk, Var("c"))])), Plus, Var("d"))
  }

  lemma CallInSumShape(ts: seq<Token>, p: Parser)
    requires ts == CallInSumTokens() && p == At(ts, 0)
    ensures CallInChain(p) && Rank(PrecedenceOf(p.At(p.pos + 8))) <= Rank(PrecedenceOf(p.At(p.pos + 1)))
  {
    CallInSumElements(ts, p);
    CallInSumCallee(ts, p);
    CallInSumArgument(ts, p);
    CallInSumLast(ts, p);
  }

  /** The stream of `a + add(b * c) + d` element by element, read from its start. */
  predicate CallInSumStream(ts: seq<Token>, p: Parser) {
    |ts| == 10 && p.tokens == ts && p.pos == 0 &&
    ts[0] == Ident("a") && ts[1] == Plus && ts[2] == Ident("add") && ts[3] == Lparen && ts[4] == Ident("b") &&
    ts[5] == Asterisk && ts[6] == Ident("c") && ts[7] == Rparen && ts[8] == Plus && ts[9] == Ident("d")
  }

  lemma CallInSumElements(ts: seq<Token>, p: Parser)
    requires ts == CallInSumTokens() && p == At(ts, 0)
    ensures CallInSumStream(ts, p)
  {
  }

  lemma CallInSumCallee(ts: seq<Token>, p: Parser)
    requires CallInSumStream(ts, p)
    ensures p.Valid() && p.pos + 10 <= |p.tokens|
    ensures Atom(p.At(p.pos)) && IsInfixOperator(p.At(p.pos + 1)) && Atom(p.At(p.pos + 2)) && p.At(p.pos + 3) == Lparen
  {
  }

  lemma CallInSumArgument(ts: seq<Token>, p: Parser)
    requires CallInSumStream(ts, p)
    ensures Atom(p.At(p.pos + 4)) && IsInfixOperator(p.At(p.pos + 5)) && Atom(p.At(p.pos + 6)) && p.At(p.pos + 7) == Rparen
  {
  }

  lemma CallInSumLast(ts: seq<Token>, p: Parser)
    requires CallInSumStream(ts, p)
    ensures IsInfixOperator(p.At(p.pos + 8)) && Atom(p.At(p.pos + 9)) && EndsExpression(p.At(p.pos + 10))
    ensures Rank(PrecedenceOf(p.At(p.pos + 8))) <= Rank(PrecedenceOf(p.At(p.pos + 1)))
  {
  }

  lemma CallInSumLeaves(ts: seq<Token>, p: Parser)
    requires ts == CallInSumTokens() && p == At(ts, 0)
    ensures p.At(p.pos) == Ident("a") && p.At(p.pos + 1) == Plus && p.At(p.pos + 2) == Ident("add")
    ensures p.At(p.pos + 4) == Ident("b") && p.At(p.pos + 5) == Asterisk && p.At(p.pos + 6) == Ident("c")
    ensures p.At(p.pos + 8) == Plus && p.At(p.pos + 9) == Ident("d")
    ensures p.(pos := p.pos + 9) == At(ts, |ts| - 1)
  {
  }

  lemma VarLeaves()
    ensures AtomExpr(Ident("a")) == Var("a") && AtomExpr(Ident("add")) == Var("add")
    ensures AtomExpr(Ident("b")) == Var("b") && AtomExpr(Ident("c")) == Var("c") && AtomExpr(Ident("d")) == Var("d")
  {
  }

  lemma CallInSumParse(ts: seq<Token>)
    requires ts == CallInSumTokens()
    ensures ParseProgram(ts) == Parsed(Program([ExprStmt(Ident("a"), Some(CallInSumTree()))]), [])
  {
    var p := At(ts, 0);
    CallInSumShape(ts, p);
    CallOperandGroupsLeft(p);
    CallInSumLeaves(ts, p);
    VarLeaves();
    SingleExpressionProgram(ts, CallInSumTree());
  }

  /** The rendering of `a + add(b * c) + d` pieced together, spelled out. */
  lemma CallInSumText(s1: string, s2: string, s3: string)
    requires s1 == "(" + "b" + " " + "*" + " " + "c" + ")"
    requires s2 == "add" + "(" + s1 + ", )"
    requires s3 == "(" + "a" + " " + "+" + " " + s2 + ")"
    ensures "(" + s3 + " " + "+" + " " + "d" + ")" == "((a + add((b * c), )) + d)"
  {
  }

  lemma CallInSumRender(e: Expr)
    requires e == CallInSumTree()
    ensures ExprString(e) == "((a + add((b * c), )) + d)"
  {
    var a, add, b, c, d := Var("a"), Var("add"), Var("b"), Var("c"), Var("d");
    var bc := Binary(b, Asterisk, c);
    var call := CallExpr(Rparen, add, [bc]);
    var left := Binary(a, Plus, call);
    assert Literal(Plus) == "+" && Literal(Asterisk) == "*";
    var s1 := "(" + "b" + " " + "*" + " " + "c" + ")";
    BinaryRender(b, Asterisk, c, "b", "c");
    var s2 := "add" + "(" + s1 + ", )";
    CallRender(Rparen, add, bc, "add", s1);
    var s3 := "(" + "a" + " " + "+" + " " + s2 + ")";
    BinaryRender(a, Plus, call, "a", s2);
    BinaryRender(left, Plus, d, s3, "d");
    CallInSumText(s1, s2, s3);
  }

  /** `a + add(b * c) + d` parses to one statement that renders `((a + add((b * c), )) + d)`. */
  lemma CallInSum(ts: seq<Token>)
    requires ts == CallInSumTokens()
    ensures
      var r := ParseProgram(ts);
      r.Parsed? && r.errors == [] && |r.program.statements| == 1 &&
      StmtString(r.program.statements[0]) == "((a + add((b * c), )) + d)"
  {
    CallInSumParse(ts);
    CallInSumRender(CallInSumTree());
    OneStatementText(ts, Ident("a"), CallInSumTree(), "((a + add((b * c), )) + d)");
  }

  /** The tokens of `fn(x,y){ x+y; }`. */
  function FunctionTokens(): seq<Token> {
    [Function, Lparen, Ident("x"), Comma, Ident("y"), Rparen, Lbrace, Ident("x"), Plus, Ident("y"), Semicolon, Rbrace]
  }

  /** The body of `fn(x,y){ x+y; }`: one expression statement, `x + y`. */
  function FunctionBody(): Block {
    Block(Lbrace, [ExprStmt(Ident("x"), Some(Binary(Var("x"), Plus, Var("y"))))])
  }

  /** The literal `fn(x,y){ x+y; }`: parameters `x` and `y`, ending on the `}`. */
  function FunctionTree(): Expr {
    FnLiteral(Rbrace, [NewIdentifier(Ident("x")), NewIdentifier(Ident("y"))], FunctionBody())
  }

  /** The stream of `fn(x,y){ x+y; }` element by element. */
  predicate FunctionStream(ts: seq<Token>) {
    |ts| == 12 &&
    ts[0] == Function && ts[1] == Lparen && ts[2] == Ident("x") && ts[3] == Comma && ts[4] == Ident("y") &&
    ts[5] == Rparen && ts[6] == Lbrace && ts[7] == Ident("x") && ts[8] == Plus && ts[9] == Ident("y") &&
    ts[10] == Semicolon && ts[11] == Rbrace
  }

  lemma FunctionElements(ts: seq<Token>)
    requires ts == FunctionTokens()
    ensures FunctionStream(ts)
  {
  }

  lemma FunctionParameters(ts: seq<Token>, p: Parser)
    requires FunctionStream(ts) && p == At(ts, 1)
    ensures ParseParameters(p) == (Some([NewIdentifier(Ident("x")), NewIdentifier(Ident("y"))]), At(ts, 5))
  {
    var rest := [NewIdentifier(Ident("y"))];
    assert CommaSeparated(ts, 5, rest[1..]);
    assert CommaSeparated(ts, 3, rest);
    assert p.Peek() == Ident("x") && p.At(p.pos + 2 * |rest| + 2) == Rparen;
    ParametersOfList(p, rest);
    assert [NewIdentifier(Ident("x"))] + rest == [NewIdentifier(Ident("x")), NewIdentifier(Ident("y"))];
  }

  lemma FunctionSumExpression(ts: seq<Token>, b: Parser)
    requires FunctionStream(ts) && b == At(ts, 7)
    ensures ParseExpression(b, Lowest) == (Some(Binary(Var("x"), Plus, Var("y"))), At(ts, 9))
  {
    assert b.Valid() && b.pos + 3 <= |b.tokens|;
    assert b.Cur() == Ident("x") && b.Peek() == Plus && b.At(b.pos + 2) == Ident("y") && b.At(b.pos + 3) == Semicolon;
    assert Atom(Ident("x")) && Atom(Ident("y")) && IsInfixOperator(Plus) && EndsExpression(Semicolon);
    assert Rank(Lowest) < Rank(PrecedenceOf(Plus));
    OperationCloses(b, Lowest, Ident("x"), Plus, Ident("y"), At(ts, 9));
    VarLeaves();
  }

  lemma FunctionSum(ts: seq<Token>, b: Parser)
    requires FunctionStream(ts) && b == At(ts, 7)
    ensures ParseStatement(b) == (Some(ExprStmt(Ident("x"), Some(Binary(Var("x"), Plus, Var("y"))))), At(ts, 10))
  {
    var e := At(ts, 9);
    FunctionSumExpression(ts, b);
    assert b.Cur() == Ident("x");
    ExpressionSteps(b, Some(Binary(Var("x"), Plus, Var("y"))), e);
    assert e.Peek() == Semicolon && e.pos < |e.tokens|;
    assert SkipSemicolon(e) == e.Next() == At(ts, 10);
  }

  lemma FunctionBodyParse(ts: seq<Token>, p: Parser)
    requires FunctionStream(ts) && p == At(ts, 6)
    ensures ParseBlock(p) == (FunctionBody(), At(ts, 11))
  {
    FunctionSum(ts, At(ts, 7));
    assert p.Next() == At(ts, 7) && p.Cur() == Lbrace && p.Peek() == Ident("x");
    assert At(ts, 10).Peek() == Rbrace && At(ts, 10).Next() == At(ts, 11);
    BlockOfOne(p, ExprStmt(Ident("x"), Some(Binary(Var("x"), Plus, Var("y")))), At(ts, 10));
  }

  lemma FunctionLiteralParse(ts: seq<Token>, p: Parser)
    requires FunctionStream(ts) && p == At(ts, 0)
    ensures ParseFunctionLiteral(p) == (Some(FunctionTree()), At(ts, 11))
  {
    FunctionParameters(ts, At(ts, 1));
    FunctionBodyParse(ts, At(ts, 6));
    assert p.Peek() == Lparen && p.Next() == At(ts, 1);
    assert At(ts, 5).Peek() == Lbrace && At(ts, 5).Next() == At(ts, 6);
    FunctionLiteralSteps(p);
  }

  lemma FunctionExpression(ts: seq<Token>, p: Parser)
    requires FunctionStream(ts) && p == At(ts, 0)
    ensures ParseExpression(p, Lowest) == (Some(FunctionTree()), At(ts, 11))
  {
    var q := At(ts, 11);
    FunctionLiteralParse(ts, p);
    assert p.Cur() == Function && q.Peek() == Eof;
    assert PrecedenceOf(q.Peek()) == Lowest;
    FunctionLiteralExpression(p, Lowest, FunctionTree(), q);
  }

  lemma FunctionParse(ts: seq<Token>)
    requires ts == FunctionTokens()
    ensures ParseProgram(ts) == Parsed(Program([ExprStmt(Function, Some(FunctionTree()))]), [])
  {
    FunctionElements(ts);
    FunctionExpression(ts, At(ts, 0));
    assert |ts| - 1 == 11 && ts[0] == Function;
    SingleExpressionProgram(ts, FunctionTree());
  }

  /** What the test of `fn(x,y){ x+y; }` checks, read off the parsed program. */
  predicate FunctionLiteralChecks(r: Outcome) {
    r.Parsed? && r.errors == [] && |r.program.statements| == 1 &&
    var st := r.program.statements[0];
    st.ExprStmt? && st.expression.Some? && st.expression.value.FnLiteral? &&
    var f := st.expression.value;
    |f.parameters| == 2 && f.parameters[0].value == "x" && f.parameters[1].value == "y" &&
    |f.body.statements| == 1 && f.body.statements[0].ExprStmt? &&
    f.body.statements[0].expression == Some(InfixExpr(Plus, Var("x"), "+", Var("y"))) &&
    Var("x").id.value == "x" && Var("y").id.value == "y"
  }

  lemma FunctionLiteralParts(r: Outcome)
    requires r == Parsed(Program([ExprStmt(Function, Some(FunctionTree()))]), [])
    ensures FunctionLiteralChecks(r)
  {
    var f := FunctionTree();
    assert f.parameters == [NewIdentifier(Ident("x")), NewIdentifier(Ident("y"))];
    assert f.body.statements == [ExprStmt(Ident("x"), Some(Binary(Var("x"), Plus, Var("y"))))];
    assert Literal(Plus) == "+";
  }

  /**
   `fn(x,y){ x+y; }` parses to one expression statement holding a function
   literal with parameters `x` and `y`, whose body is one expression
   statement holding the infix expression `x + y`.
   */
  lemma FunctionLiteralGolden(ts: seq<Token>)
    requires ts == FunctionTokens()
    ensures FunctionLiteralChecks(ParseProgram(ts))
  {
    FunctionParse(ts);
    FunctionLiteralParts(ParseProgram(ts));
  }
}
