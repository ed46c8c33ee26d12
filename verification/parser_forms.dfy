/**
 The parser's error paths and its statement and list forms: the missing
 prefix handler (including `(`, whose grouped-expression handler is never
 registered), integer literals in and out of the 32-bit range, prefix
 operators, `let` and `return`, parameter lists and call argument lists.
 */
module ParserForms {
  import opened Wrappers
  import opened Tokens
  import opened Lexing
  import opened Ast
  import opened Numerals
  import opened Parsing
  import opened LexerFacts
  import opened ParserFacts

  /**
   A token without a prefix handler: the expression is `None` and exactly one
   error naming the token is recorded; the window does not move.
   */
  lemma NoPrefixError(p: Parser, prec: Precedence)
    requires p.Valid() && !HasPrefixParser(p.Cur())
    ensures ParseExpression(p, prec) == (None, p.(errors := p.errors + [NoPrefixMessage(p.Cur())]))
  {
  }

  /**
   `(` has no prefix handler, since the grouped-expression parser is never
   registered: a parenthesised expression is an error.
   */
  lemma ParenthesisHasNoPrefix(p: Parser, prec: Precedence)
    requires p.Valid() && p.Cur() == Lparen
    ensures ParseExpression(p, prec) ==
      (None, p.(errors := p.errors + ["no prefix parse function for ( found"]))
  {
    NoPrefixError(p, prec);
    ParenthesisMessage();
  }

  lemma ParenthesisMessage()
    ensures NoPrefixMessage(Lparen) == "no prefix parse function for ( found"
  {
    assert Literal(Lparen) == "(";
  }

  /** A numeral in the 32-bit range is an integer literal with its decimal value. */
  lemma IntegerInRange(p: Parser)
    requires p.Valid() && p.Cur().Int? && 0 < |p.Cur().digits| && AllDigits(p.Cur().digits)
    requires DigitsValue(p.Cur().digits) <= I32Max
    ensures ParseIntegerLiteral(p) == Some(IntLiteral(p.Cur(), DigitsValue(p.Cur().digits)))
  {
    ParseI32OfDigits(p.Cur().digits);
  }

  /**
   A numeral beyond the 32-bit range: the literal parse itself yields `None`
   and records nothing, and the expression parse then records the missing
   prefix handler error for the numeral.
   */
  lemma IntegerOutOfRange(p: Parser, prec: Precedence)
    requires p.Valid() && p.Cur().Int? && 0 < |p.Cur().digits| && AllDigits(p.Cur().digits)
    requires DigitsValue(p.Cur().digits) > I32Max
    ensures ParseIntegerLiteral(p) == None
    ensures PrefixParse(p) == (None, p)
    ensures ParseExpression(p, prec) ==
      (None, p.(errors := p.errors + ["no prefix parse function for " + p.Cur().digits + " found"]))
  {
    ParseI32OfDigits(p.Cur().digits);
  }

  /** Only a call binds tighter than a prefix operator's operand. */
  lemma PrefixOperandStops(p: Parser)
    requires p.Peek() != Lparen
    ensures !Binds(p, Prefix)
  {
  }

  /** A prefix operator applies to the expression parsed at `Prefix` just after it. */
  lemma PrefixOperand(p: Parser, n: Parser, right: Expr, q: Parser)
    requires p.Valid() && (p.Cur() == Bang || p.Cur() == Minus) && p.Next() == n
    requires ParseExpression(n, Prefix) == (Some(right), q)
    ensures ParsePrefixExpression(p) == (Some(PrefixExpr(p.Cur(), Literal(p.Cur()), right)), q)
  {
  }

  /** An expression that starts with a prefix operator continues with the infix loop on its prefix expression. */
  lemma PrefixStart(p: Parser, prec: Precedence, x: Expr, q: Parser)
    requires p.Valid() && (p.Cur() == Bang || p.Cur() == Minus)
    requires ParsePrefixExpression(p) == (Some(x), q)
    ensures ParseExpression(p, prec) == InfixLoop(q, prec, x)
  {
    assert PrefixParse(p) == ParsePrefixExpression(p);
  }

  /**
   A prefix operator before an atom that is not called: the operator applies
   to the atom alone, and the infix loop goes on with the prefix expression.
   */
  lemma PrefixOfAtom(p: Parser, prec: Precedence)
    requires p.Valid() && (p.Cur() == Bang || p.Cur() == Minus)
    requires Atom(p.Peek()) && p.At(p.pos + 2) != Lparen
    ensures ParseExpression(p, prec) ==
      InfixLoop(p.(pos := p.pos + 1), prec, PrefixExpr(p.Cur(), Literal(p.Cur()), AtomExpr(p.Peek())))
  {
    var n := p.(pos := p.pos + 1);
    var x := p.Peek();
    PrefixAtomWindow(p, n, x);
    PrefixOperandStops(n);
    AtomAlone(n, Prefix);
    PrefixOperand(p, n, AtomExpr(x), n);
    PrefixStart(p, prec, PrefixExpr(p.Cur(), Literal(p.Cur()), AtomExpr(x)), n);
  }

  /** The window of a prefix operator before the atom `x`, one token on. */
  lemma PrefixAtomWindow(p: Parser, n: Parser, x: Token)
    requires p.Valid() && p.Peek() == x && Atom(x) && p.At(p.pos + 2) != Lparen && n == p.(pos := p.pos + 1)
    ensures p.Next() == n && n.Valid() && n.Cur() == x && n.Peek() != Lparen
  {
    assert x != Eof;
    assert p.pos + 1 < |p.tokens|;
    assert n.tokens == p.tokens && n.pos == p.pos + 1;
  }

  /** The window of `-x o y` one token on, in the terms the parse uses. */
  lemma PrefixWindow(p: Parser, n: Parser, e: Parser)
    requires p.Valid() && p.pos + 4 <= |p.tokens|
    requires IsInfixOperator(p.At(p.pos + 2)) && EndsExpression(p.At(p.pos + 4))
    requires n == p.(pos := p.pos + 1) && e == p.(pos := p.pos + 3)
    ensures p.Peek() == p.At(p.pos + 1) && p.At(p.pos + 2) != Lparen
    ensures n.Valid() && n.pos + 3 <= |n.tokens| && e == n.(pos := n.pos + 2)
    ensures n.Peek() == p.At(p.pos + 2) && n.At(n.pos + 2) == p.At(p.pos + 3) && EndsExpression(n.At(n.pos + 3))
    ensures Rank(Lowest) < Rank(PrecedenceOf(p.At(p.pos + 2)))
  {
    OperatorFacts(p.At(p.pos + 2));
  }

  /**
   A prefix operator binds tighter than any binary operator: `-x o y` (or
   `!x o y`) before a token that ends expressions is `(-x) o y`.
   */
  lemma PrefixBindsTighter(p: Parser)
    requires p.Valid() && p.pos + 4 <= |p.tokens| && (p.Cur() == Bang || p.Cur() == Minus)
    requires Atom(p.At(p.pos + 1)) && IsInfixOperator(p.At(p.pos + 2)) && Atom(p.At(p.pos + 3))
    requires EndsExpression(p.At(p.pos + 4))
    ensures ParseExpression(p, Lowest) ==
      (Some(Binary(PrefixExpr(p.Cur(), Literal(p.Cur()), AtomExpr(p.At(p.pos + 1))),
                   p.At(p.pos + 2), AtomExpr(p.At(p.pos + 3)))),
       p.(pos := p.pos + 3))
  {
    var n, e := p.(pos := p.pos + 1), p.(pos := p.pos + 3);
    var pre := PrefixExpr(p.Cur(), Literal(p.Cur()), AtomExpr(p.At(p.pos + 1)));
    PrefixWindow(p, n, e);
    PrefixOfAtom(p, Lowest);
    FinalOperation(n, Lowest, pre, p.At(p.pos + 2), p.At(p.pos + 3), e);
  }

  /**
   `let` before an identifier and `=`: the value is the expression parsed at
   `Lowest` after the `=`, whether or not it parses, and one `;` after it is
   consumed if present.
   */
  lemma LetSteps(p: Parser, p1: Parser, p2: Parser, p3: Parser, value: Option<Expr>, q: Parser)
    requires p.Valid() && p.Peek().Ident? && p.Next() == p1
    requires p1.Peek() == Assign && p1.Next() == p2 && p2.Next() == p3
    requires ParseExpression(p3, Lowest) == (value, q)
    ensures ParseLetStatement(p) == (Some(LetStmt(Let, Some(NewIdentifier(p1.Cur())), value)), SkipSemicolon(q))
  {
  }

  /** The windows of `let x = y`, in the terms the parse uses. */
  lemma LetWindow(p: Parser, p1: Parser, p2: Parser, p3: Parser)
    requires p.Valid() && p.pos + 4 <= |p.tokens|
    requires p.Peek().Ident? && p.At(p.pos + 2) == Assign && Atom(p.At(p.pos + 3))
    requires p1 == p.(pos := p.pos + 1) && p2 == p.(pos := p.pos + 2) && p3 == p.(pos := p.pos + 3)
    ensures p.Next() == p1 && p1.Cur() == p.Peek() && p1.Peek() == Assign && p1.Next() == p2 && p2.Next() == p3
    ensures p3.Valid() && p3.Cur() == p.At(p.pos + 3) && p3.Peek() == p.At(p.pos + 4)
    ensures p3.(pos := p3.pos + 1) == p.(pos := p.pos + 4)
    ensures NewIdentifier(p1.Cur()) == Identifier(p.Peek(), p.Peek().name)
  {
  }

  /** Skipping an optional `;`, spelled out. */
  lemma SkipSemicolonStep(q: Parser)
    requires q.Valid()
    ensures SkipSemicolon(q) == if q.Peek() == Semicolon then q.(pos := q.pos + 1) else q
  {
  }

  /**
   `let x = y` with an atom `y`, followed by a token that ends expressions:
   the statement binds the identifier's name to `y` and ends on `y`, or on
   the `;` when one follows.
   */
  lemma LetOfAtom(p: Parser)
    requires p.Valid() && p.pos + 4 <= |p.tokens| && p.Cur() == Let
    requires p.Peek().Ident? && p.At(p.pos + 2) == Assign && Atom(p.At(p.pos + 3))
    requires EndsExpression(p.At(p.pos + 4))
    ensures ParseStatement(p) ==
      (Some(LetStmt(Let, Some(Identifier(p.Peek(), p.Peek().name)), Some(AtomExpr(p.At(p.pos + 3))))),
       if p.At(p.pos + 4) == Semicolon then p.(pos := p.pos + 4) else p.(pos := p.pos + 3))
  {
    var p1, p2, p3 := p.(pos := p.pos + 1), p.(pos := p.pos + 2), p.(pos := p.pos + 3);
    LetWindow(p, p1, p2, p3);
    EndStops(p3, Lowest);
    AtomAlone(p3, Lowest);
    SkipSemicolonStep(p3);
    LetSteps(p, p1, p2, p3, Some(AtomExpr(p3.Cur())), p3);
  }

  /** `return`: the value is the expression parsed at `Lowest` after it, and a following `;` is consumed. */
  lemma ReturnSteps(p: Parser, n: Parser, value: Option<Expr>, q: Parser)
    requires p.Valid() && p.Cur() == Return && p.Next() == n
    requires ParseExpression(n, Lowest) == (value, q)
    ensures ParseStatement(p) == (Some(ReturnStmt(Return, value)), SkipSemicolon(q))
  {
    assert ParseStatement(p) == ParseReturnStatement(p);
  }

  /**
   Any other statement is an expression statement, kept even when its
   expression fails to parse, and a following `;` is consumed.
   */
  lemma ExpressionSteps(p: Parser, value: Option<Expr>, q: Parser)
    requires p.Valid() && p.Cur() != Let && p.Cur() != Return
    requires ParseExpression(p, Lowest) == (value, q)
    ensures ParseStatement(p) == (Some(ExprStmt(p.Cur(), value)), SkipSemicolon(q))
  {
    assert ParseStatement(p) == ParseExpressionStatement(p);
  }

  /**
   The literal of a parsed statement is the text of the token it starts at:
   `let` for a let statement, `return` for a return statement, and the first
   token's text for an expression statement.
   */
  lemma StatementLiteral(p: Parser)
    requires p.Valid() && ParseStatement(p).0.Some?
    ensures StmtTokenLiteral(ParseStatement(p).0.value) == Literal(p.Cur())
  {
    if p.Cur() == Let {
      assert ParseStatement(p) == ParseLetStatement(p);
    }
  }

  /** One round of the parameter loop: a comma, then the token after it as a parameter. */
  lemma ParameterLoopStep(p: Parser, p1: Parser, rest: seq<Identifier>, q: Parser)
    requires p.Valid() && p.Peek() == Comma && p.Next().Next() == p1
    requires ParameterLoop(p1) == (rest, q)
    ensures ParameterLoop(p) == ([NewIdentifier(p1.Cur())] + rest, q)
  {
  }

  /** The window one list element on, in the terms the parameter loop uses. */
  lemma ListWindow(p: Parser, ids: seq<Identifier>, p1: Parser, q: Parser)
    requires p.Valid() && 0 < |ids| && CommaSeparated(p.tokens, p.pos + 1, ids)
    requires p1 == p.(pos := p.pos + 2) && q == p.(pos := p.pos + 2 * |ids|)
    ensures p.Peek() == Comma && p.Next().Next() == p1 && ids[0] == NewIdentifier(p1.Cur())
    ensures p1.Valid() && CommaSeparated(p1.tokens, p1.pos + 1, ids[1..])
    ensures p1.At(p1.pos + 2 * |ids[1..]| + 1) == p.At(p.pos + 2 * |ids| + 1)
    ensures p1.(pos := p1.pos + 2 * |ids[1..]|) == q
    ensures [ids[0]] + ids[1..] == ids
  {
    assert TokenAt(p.tokens, p.pos + 1) == Comma;
    assert p.pos + 1 < |p.tokens|;
    assert p.Next() == p.(pos := p.pos + 1);
  }

  /**
   The parameter loop reads exactly a comma-separated list: from a stream
   holding `, x1 , x2 … , xn` after the current token and no further comma,
   it returns `x1 … xn` and stops on `xn`.
   */
  lemma {:induction false} ParameterLoopReads(p: Parser, ids: seq<Identifier>)
    requires p.Valid() && CommaSeparated(p.tokens, p.pos + 1, ids)
    requires p.At(p.pos + 2 * |ids| + 1) != Comma
    ensures p.pos + 2 * |ids| <= |p.tokens|
    ensures ParameterLoop(p) == (ids, p.(pos := p.pos + 2 * |ids|))
    decreases |ids|
  {
    if |ids| > 0 {
      var p1, q := p.(pos := p.pos + 2), p.(pos := p.pos + 2 * |ids|);
      ListWindow(p, ids, p1, q);
      ParameterLoopReads(p1, ids[1..]);
      ParameterLoopStep(p, p1, ids[1..], q);
    }
  }

  /** `parse_function_parameters` after the first parameter: the loop, then `)` expected. */
  lemma ParametersSteps(p: Parser, p1: Parser, rest: seq<Identifier>, q: Parser)
    requires p.Valid() && p.Peek() != Rparen && p.Next() == p1
    requires ParameterLoop(p1) == (rest, q)
    ensures q.Peek() == Rparen ==> ParseParameters(p) == (Some([NewIdentifier(p1.Cur())] + rest), q.Next())
    ensures q.Peek() != Rparen ==>
      ParseParameters(p) == (None, q.(errors := q.errors + [PeekErrorMessage(Rparen, q.Peek())]))
  {
  }

  /** A comma-separated list lies within the stream, but for its last element. */
  lemma {:induction false} CommaSeparatedFits(ts: seq<Token>, i: nat, ids: seq<Identifier>)
    requires CommaSeparated(ts, i, ids)
    ensures |ids| > 0 ==> i + 2 * |ids| <= |ts| + 1
    decreases |ids|
  {
    if |ids| > 0 {
      CommaSeparatedFits(ts, i + 2, ids[1..]);
    }
  }

  /** The windows of `(x1, …, xn`, in the terms the parameter parse uses. */
  lemma ParametersWindow(p: Parser, rest: seq<Identifier>, p1: Parser, q: Parser, m: string)
    requires p.Valid() && p.Cur() == Lparen && p.pos + 2 * |rest| + 1 <= |p.tokens|
    requires p1 == p.(pos := p.pos + 1) && q == p.(pos := p.pos + 2 * |rest| + 1)
    ensures p.Next() == p1 && p1.Valid() && p1.Cur() == p.Peek()
    ensures p1.tokens == p.tokens && p1.pos + 1 == p.pos + 2
    ensures p1.At(p1.pos + 2 * |rest| + 1) == p.At(p.pos + 2 * |rest| + 2)
    ensures p1.(pos := p1.pos + 2 * |rest|) == q && q.Peek() == p.At(p.pos + 2 * |rest| + 2)
    ensures q.Peek() == Rparen ==> q.Next() == p.(pos := p.pos + 2 * |rest| + 2)
    ensures q.(errors := q.errors + [m]) == p.(pos := p.pos + 2 * |rest| + 1, errors := p.errors + [m])
  {
  }

  /**
   `parse_function_parameters` on `(x1, x2, …, xn` with no comma after `xn`:
   the list is `x1 … xn` when `)` follows, ending on the `)`; otherwise it is
   `None`, with one error naming the token found instead, ending on `xn`.
   */
  lemma ParametersOfList(p: Parser, rest: seq<Identifier>)
    requires p.Valid() && p.Cur() == Lparen && p.Peek() != Rparen
    requires CommaSeparated(p.tokens, p.pos + 2, rest) && p.At(p.pos + 2 * |rest| + 2) != Comma
    ensures p.At(p.pos + 2 * |rest| + 2) == Rparen ==>
      ParseParameters(p) == (Some([NewIdentifier(p.Peek())] + rest), p.(pos := p.pos + 2 * |rest| + 2))
    ensures p.At(p.pos + 2 * |rest| + 2) != Rparen ==>
      ParseParameters(p) == (None, p.(pos := p.pos + 2 * |rest| + 1,
        errors := p.errors + [PeekErrorMessage(Rparen, p.At(p.pos + 2 * |rest| + 2))]))
  {
    var p1, q := p.(pos := p.pos + 1), p.(pos := p.pos + 2 * |rest| + 1);
    CommaSeparatedFits(p.tokens, p.pos + 2, rest);
    ParametersWindow(p, rest, p1, q, PeekErrorMessage(Rparen, q.Peek()));
    ParameterLoopReads(p1, rest);
    ParametersSteps(p, p1, rest, q);
  }

  /**
   Conversely, a parameter list that parses is comma-separated: its first
   parameter is the token after `(`, a comma and a parameter follow for
   each further one, and the parse ends on the `)` after the last.
   */
  lemma ParametersAreListed(p: Parser)
    requires p.Valid() && p.Peek() != Rparen && ParseParameters(p).0.Some?
    ensures var ids := ParseParameters(p).0.value;
      |ids| > 0 && ids[0] == NewIdentifier(p.Peek()) &&
      CommaSeparated(p.tokens, p.pos + 2, ids[1..]) && ParseParameters(p).1.pos == p.pos + 2 * |ids|
  {
    var p1 := p.Next();
    var r := ParameterLoop(p1);
    ParametersSteps(p, p1, r.0, r.1);
    LoopFacts(p1, r.0, r.1);
    ListedWindow(p, p1, r.0, r.1);
  }

  /** The windows of a parameter list that closes, in the terms the parse uses. */
  lemma ListedWindow(p: Parser, p1: Parser, rest: seq<Identifier>, q: Parser)
    requires p.Valid() && p1 == p.Next() && q.Peek() == Rparen
    requires q.tokens == p1.tokens && q.pos == p1.pos + 2 * |rest| && CommaSeparated(p1.tokens, p1.pos + 1, rest)
    ensures p1.Cur() == p.Peek() && CommaSeparated(p.tokens, p.pos + 2, rest)
    ensures q.Next().pos == p.pos + 2 * (|rest| + 1) && ([NewIdentifier(p1.Cur())] + rest)[1..] == rest
  {
    assert q.pos + 1 < |q.tokens|;
    assert p1 == p.(pos := p.pos + 1);
  }

  /** What the parameter loop promises, spelled out for one call. */
  lemma LoopFacts(p1: Parser, rest: seq<Identifier>, q: Parser)
    requires p1.Valid() && ParameterLoop(p1) == (rest, q)
    ensures q.tokens == p1.tokens && q.pos == p1.pos + 2 * |rest| && CommaSeparated(p1.tokens, p1.pos + 1, rest)
  {
  }

  /**
   `parse_call_arguments` after a first argument that parses: the loop over
   the further arguments, then `)` expected. A missing `)` makes the list
   `None` with one error naming the token found instead.
   */
  lemma ArgumentsSteps(p: Parser, m: Parser, first: Expr, q1: Parser, args: seq<Expr>, q2: Parser)
    requires p.Valid() && p.Cur() == Lparen && p.Peek() != Rparen && p.Next() == m
    requires ParseExpression(m, Lowest) == (Some(first), q1) && ArgumentLoop(q1, [first]) == (args, q2)
    ensures q2.Peek() == Rparen ==> ParseCallArguments(p) == (Some(args), q2.Next())
    ensures q2.Peek() != Rparen ==>
      ParseCallArguments(p) == (None, q2.(errors := q2.errors + [PeekErrorMessage(Rparen, q2.Peek())]))
  {
  }

  /** A first argument that fails to parse makes the call panic. */
  lemma FirstArgumentFails(p: Parser, m: Parser, q: Parser)
    requires p.Valid() && p.Cur() == Lparen && p.Peek() != Rparen && p.Next() == m
    requires ParseExpression(m, Lowest) == (None, q)
    ensures ParseCallArguments(p) == (None, q.(panicked := true))
  {
  }

  /** A further argument that parses is appended to the list. */
  lemma ArgumentTaken(p: Parser, acc: seq<Expr>, e: Expr, q: Parser)
    requires p.Valid() && p.Peek() == Comma
    requires ParseExpression(p.Next().Next(), Lowest) == (Some(e), q)
    ensures ArgumentLoop(p, acc) == ArgumentLoop(q, acc + [e])
  {
  }

  /** A further argument that fails to parse is left out, and the loop goes on after it. */
  lemma ArgumentDropped(p: Parser, acc: seq<Expr>, q: Parser)
    requires p.Valid() && p.Peek() == Comma
    requires ParseExpression(p.Next().Next(), Lowest) == (None, q)
    ensures ArgumentLoop(p, acc) == ArgumentLoop(q, acc)
  {
  }

  /**
   A call of an atom whose first argument has no prefix handler: the
   expression fails and the parse has panicked.
   */
  lemma CallWithoutFirstArgument(p: Parser, prec: Precedence)
    requires p.Valid() && Atom(p.Cur()) && p.Peek() == Lparen && prec != Call
    requires p.At(p.pos + 2) != Rparen && !HasPrefixParser(p.At(p.pos + 2))
    ensures ParseExpression(p, prec).0 == None && ParseExpression(p, prec).1.panicked
  {
    var n, m := p.(pos := p.pos + 1), p.(pos := p.pos + 2);
    var q := m.(errors := m.errors + [NoPrefixMessage(m.Cur())]);
    Advance(p);
    Shifted(p, 1);
    assert n.Next() == m && m.Valid() && m.Cur() == p.At(p.pos + 2);
    NoPrefixError(m, Lowest);
    FirstArgumentFails(n, m, q);
    AtomExpression(p, prec);
    LoopCall(p, prec, AtomExpr(p.Cur()), None, q.(panicked := true));
  }

  /** A panic in the first statement aborts the whole program. */
  lemma PanicAbortsProgram(ts: seq<Token>, p: Parser, value: Option<Expr>, q: Parser)
    requires 0 < |ts| && ts[0] != Let && ts[0] != Return && ts[0] != Eof && p == At(ts, 0)
    requires ParseExpression(p, Lowest) == (value, q) && q.panicked
    ensures ParseProgram(ts) == Panicked
  {
    var st := ExprStmt(ts[0], value);
    var q' := SkipSemicolon(q);
    ExpressionSteps(p, value, q);
    ProgramStep(p, [], st, q');
    assert NewParser(ts) == p;
  }

  /**
   A program that starts by calling an atom with a first argument that has
   no prefix handler, such as `f(;)`, panics.
   */
  lemma CallWithoutFirstArgumentPanics(ts: seq<Token>)
    requires 3 <= |ts| && Atom(ts[0]) && ts[1] == Lparen && ts[2] != Rparen && !HasPrefixParser(ts[2])
    ensures ParseProgram(ts) == Panicked
  {
    var p := At(ts, 0);
    assert ts[0] != Let && ts[0] != Return && ts[0] != Eof;
    assert p.Cur() == ts[0] && p.Peek() == Lparen && p.At(p.pos + 2) == ts[2];
    CallWithoutFirstArgument(p, Lowest);
    var r := ParseExpression(p, Lowest);
    PanicAbortsProgram(ts, p, r.0, r.1);
  }

  /**
   Parsing the precomputed stream sees what `next_token` would hand the
   parser: its current and peek tokens are the lexer's `pos`-th and
   `pos + 1`-th tokens of the input.
   */
  lemma WindowIsTheLexer(input: string, p: Parser)
    requires p.tokens == Tokenize(input)
    ensures p.Cur() == NthToken(New(input), p.pos)
    ensures p.Peek() == NthToken(New(input), p.pos + 1)
  {
    var l := New(input);
    StreamAt(l, p.tokens, p.pos);
    StreamAt(l, p.tokens, p.pos + 1);
  }

  /** Index `k` of a lexer's stream is its `k`-th token. */
  lemma StreamAt(l: Lexer, ts: seq<Token>, k: nat)
    requires ts == TokenizeFrom(l)
    ensures TokenAt(ts, k) == NthToken(l, k)
  {
    TokenizeIsTheStream(l, k);
  }
}
