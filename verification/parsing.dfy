/**
 The Monkey Pratt parser. The Rust parser pulls tokens from the lexer into a
 two-token window (`cur_token`, `peek_token`); the model reads the same
 tokens from the precomputed stream `tokens` at index `pos`, with `Eof`
 everywhere past its end, just as the lexer returns `Eof` forever. Every
 parse function takes the parser state and returns its result together with
 the new state, in which errors have only been appended.
 */
module Parsing {
  import opened Wrappers
  import opened Tokens
  import opened Lexing
  import opened Ast
  import opened Numerals

  /** The binding power ladder, weakest first. */
  datatype Precedence = Lowest | Equals | LessGreater | Sum | Product | Prefix | Call

  /** `Precedence::as_int`: the position of a level on the ladder. */
  function Rank(p: Precedence): nat {
    match p
    case Lowest => 0
    case Equals => 1
    case LessGreater => 2
    case Sum => 3
    case Product => 4
    case Prefix => 5
    case Call => 6
  }

  /** `Precedence::token`: how tightly a token binds when it follows an expression. */
  function PrecedenceOf(t: Token): (prec: Precedence)
    ensures prec == Equals <==> t == Eq || t == NotEq
    ensures prec == LessGreater <==> t == Lt || t == Gt
    ensures prec == Sum <==> t == Plus || t == Minus
    ensures prec == Product <==> t == Asterisk || t == Slash
    ensures prec == Call <==> t == Lparen
    ensures prec != Prefix
  {
    if t == Eq || t == NotEq then Equals
    else if t == Lt || t == Gt then LessGreater
    else if t == Plus || t == Minus then Sum
    else if t == Slash || t == Asterisk then Product
    else if t == Lparen then Call
    else Lowest
  }

  /** The eight operators `infix_parse_fns` hands to `parse_infix_expression`. */
  predicate IsInfixOperator(t: Token) {
    t == Plus || t == Minus || t == Slash || t == Asterisk ||
    t == Eq || t == NotEq || t == Lt || t == Gt
  }

  /** The tokens `prefix_parse_fns` has a handler for. */
  predicate HasPrefixParser(t: Token) {
    t.Ident? || t.Int? || t == Bang || t == Minus || t == True || t == False ||
    t == If || t == Function
  }

  datatype Parser = Parser(tokens: seq<Token>, pos: nat, errors: seq<string>, panicked: bool) {

    predicate Valid() {
      pos <= |tokens|
    }

    function At(i: nat): Token {
      TokenAt(tokens, i)
    }

    /** `cur_token`. */
    function Cur(): Token {
      At(pos)
    }

    /** `peek_token`. */
    function Peek(): Token {
      At(pos + 1)
    }

    /** `next_token`: shift the window by one token; at the end of the stream it stays on `Eof`. */
    function Next(): Parser {
      if pos < |tokens| then this.(pos := pos + 1) else this
    }
  }

  /** `Parser::new`: the window starts on the first two tokens, with no errors. */
  function NewParser(tokens: seq<Token>): (p: Parser)
    ensures p.Valid() && p.errors == [] && !p.panicked
    ensures p.Cur() == (if |tokens| > 0 then tokens[0] else Eof)
    ensures p.Peek() == (if |tokens| > 1 then tokens[1] else Eof)
  {
    Parser(tokens, 0, [], false)
  }

  /**
   `q` is a later state of the same parse as `p`: the stream is the same, the
   window has not moved back, errors have only been appended and a panic is
   never undone.
   */
  predicate Extends(p: Parser, q: Parser) {
    q.tokens == p.tokens && p.pos <= q.pos <= |p.tokens| &&
    p.errors <= q.errors && (p.panicked ==> q.panicked)
  }

  /** The message `peek_error` records; the found token is printed in quotes. */
  function PeekErrorMessage(expected: Token, found: Token): string {
    "expected next token to be " + Literal(expected) + ", got \"" + Literal(found) + "\" instead"
  }

  /** The message `no_prefix_parse_fn_errors` records. */
  function NoPrefixMessage(t: Token): string {
    "no prefix parse function for " + Literal(t) + " found"
  }

  /** `peek_error`. */
  function PeekError(p: Parser, t: Token): (q: Parser)
    ensures q == p.(errors := p.errors + [PeekErrorMessage(t, p.Peek())])
  {
    p.(errors := p.errors + [PeekErrorMessage(t, p.Peek())])
  }

  /**
   `expect_peek`: on a match the window advances by exactly one token and no
   error is added; otherwise one error is added and the window stays put.
   */
  function ExpectPeek(p: Parser, t: Token): (r: (bool, Parser))
    requires p.Valid()
    ensures Extends(p, r.1)
    ensures r.0 <==> p.Peek() == t
    ensures r.0 ==> r.1 == p.Next() && r.1.Cur() == t
    ensures r.0 && t != Eof ==> r.1.pos == p.pos + 1
    ensures !r.0 ==> r.1.pos == p.pos && r.1.errors == p.errors + [PeekErrorMessage(t, p.Peek())]
  {
    if p.Peek() == t then (true, p.Next()) else (false, PeekError(p, t))
  }

  /** Whether the infix loop of `parse_expression` goes on: the next token is no `;` and binds tighter than `prec`. */
  predicate Binds(p: Parser, prec: Precedence) {
    p.Peek() != Semicolon && Rank(prec) < Rank(PrecedenceOf(p.Peek()))
  }

  /** Consume a `;` that follows, if there is one. */
  function SkipSemicolon(p: Parser): (q: Parser)
    requires p.Valid()
    ensures Extends(p, q) && q.errors == p.errors && q.panicked == p.panicked
    ensures q.Cur() == Semicolon || q.Peek() != Semicolon
    ensures p.Peek() != Semicolon ==> q == p
  {
    if p.Peek() == Semicolon then p.Next() else p
  }

  /** `parse_integer_literal`: the `i32` value of the current token's text, `None` when it has none. */
  function ParseIntegerLiteral(p: Parser): (e: Option<Expr>)
    ensures e.Some? <==> I32Syntax(Literal(p.Cur())) && InI32(SignedValue(Literal(p.Cur())))
    ensures e.Some? ==> (e.value.IntLiteral? && e.value.token == p.Cur() &&
      e.value.number == SignedValue(Literal(p.Cur())))
  {
    var v := ParseI32(Literal(p.Cur()));
    if v.Some? then Some(IntLiteral(p.Cur(), v.value)) else None
  }

  /** `parse_boolean`: true exactly on the `true` token. */
  function ParseBoolean(p: Parser): (e: Expr)
    ensures e.Boolean? && e.token == p.Cur()
    ensures e.value <==> p.Cur() == True
  {
    Boolean(p.Cur(), p.Cur() == True)
  }

  /**
   `parse_expression`: a prefix parse followed by the infix loop. A missing
   prefix handler records an error naming the token current after the
   attempt. A result is `None` only after some error has been recorded, and
   a successful parse stops before the first token that does not bind tighter
   than `prec`.
   */
  function ParseExpression(p: Parser, prec: Precedence): (r: (Option<Expr>, Parser))
    requires p.Valid()
    ensures Extends(p, r.1)
    ensures r.0.None? ==> |r.1.errors| > |p.errors|
    ensures r.0.Some? ==> !Binds(r.1, prec)
    decreases |p.tokens| - p.pos, 7
  {
    var (left, p1) := PrefixParse(p);
    if left.None? then (None, p1.(errors := p1.errors + [NoPrefixMessage(p1.Cur())]))
    else InfixLoop(p1, prec, left.value)
  }

  /** `prefix_parse_fns`: dispatch on the current token. */
  function PrefixParse(p: Parser): (r: (Option<Expr>, Parser))
    requires p.Valid()
    ensures Extends(p, r.1)
    ensures !HasPrefixParser(p.Cur()) ==> r == (None, p)
    ensures p.Cur().Ident? ==> r == (Some(Name(NewIdentifier(p.Cur()))), p)
    decreases |p.tokens| - p.pos, 6
  {
    var t := p.Cur();
    if t.Ident? then (Some(Name(NewIdentifier(t))), p)
    else if t.Int? then (ParseIntegerLiteral(p), p)
    else if t == Bang || t == Minus then ParsePrefixExpression(p)
    else if t == True || t == False then (Some(ParseBoolean(p)), p)
    else if t == If then ParseIf(p)
    else if t == Function then ParseFunctionLiteral(p)
    else (None, p)
  }

  /**
   The loop of `parse_expression`: while the next token binds tighter than
   `prec`, step onto it and let its infix handler extend `left`.
   */
  function InfixLoop(p: Parser, prec: Precedence, left: Expr): (r: (Option<Expr>, Parser))
    requires p.Valid()
    ensures Extends(p, r.1)
    ensures r.0.None? ==> |r.1.errors| > |p.errors|
    ensures r.0.Some? ==> !Binds(r.1, prec)
    ensures !Binds(p, prec) ==> r == (Some(left), p)
    decreases |p.tokens| - p.pos, 6
  {
    if !Binds(p, prec) then (Some(left), p)
    else
      var step := InfixParse(p.Next(), left);
      assert Extends(p, step.1);
      if step.0.None? then (None, step.1) else InfixLoop(step.1, prec, step.0.value)
  }

  /** `infix_parse_fns`: `(` starts a call, the eight operators a binary expression. */
  function InfixParse(p: Parser, left: Expr): (r: (Option<Expr>, Parser))
    requires p.Valid() && PrecedenceOf(p.Cur()) != Lowest
    ensures Extends(p, r.1)
    ensures r.0.None? ==> |r.1.errors| > |p.errors|
    ensures r.0.Some? ==>
      (r.0.value.InfixExpr? && r.0.value.left == left) ||
      (r.0.value.CallExpr? && r.0.value.callee == left)
    decreases |p.tokens| - p.pos, 5
  {
    if p.Cur() == Lparen then ParseCallExpression(p, left) else ParseInfixExpression(p, left)
  }

  /**
   `parse_prefix_expression`: the operand is parsed at `Prefix` precedence, so
   it takes no binary operator with it.
   */
  function ParsePrefixExpression(p: Parser): (r: (Option<Expr>, Parser))
    requires p.Valid() && (p.Cur() == Bang || p.Cur() == Minus)
    ensures Extends(p, r.1)
    ensures r.0.None? ==> |r.1.errors| > |p.errors|
    ensures r.0.Some? ==> (r.0.value.PrefixExpr? && r.0.value.token == p.Cur() &&
      r.0.value.operator == Literal(p.Cur()) && !Binds(r.1, Prefix))
    decreases |p.tokens| - p.pos, 5
  {
    var t := p.Cur();
    var (right, p1) := ParseExpression(p.Next(), Prefix);
    if right.None? then (None, p1) else (Some(PrefixExpr(t, Literal(t), right.value)), p1)
  }

  /**
   `parse_infix_expression`: the right operand is parsed at the operator's own
   precedence, so it stops before an operator that binds no tighter.
   */
  function ParseInfixExpression(p: Parser, left: Expr): (r: (Option<Expr>, Parser))
    requires p.Valid() && IsInfixOperator(p.Cur())
    ensures Extends(p, r.1)
    ensures r.0.None? ==> |r.1.errors| > |p.errors|
    ensures r.0.Some? ==> (r.0.value.InfixExpr? && r.0.value.token == p.Cur() &&
      r.0.value.left == left && r.0.value.operator == Literal(p.Cur()) &&
      !Binds(r.1, PrecedenceOf(p.Cur())))
    decreases |p.tokens| - p.pos, 4
  {
    var t := p.Cur();
    var (right, p1) := ParseExpression(p.Next(), PrecedenceOf(t));
    if right.None? then (None, p1) else (Some(InfixExpr(t, left, Literal(t), right.value)), p1)
  }

  /**
   `parse_if_expression`, called on `if`: the parenthesised condition, then
   the branches. The node keeps the token current at its end, the closing
   brace.
   */
  function ParseIf(p: Parser): (r: (Option<Expr>, Parser))
    requires p.Valid()
    ensures Extends(p, r.1)
    ensures r.0.None? ==> |r.1.errors| > |p.errors|
    ensures r.0.Some? ==> (r.0.value.IfExpr? && r.0.value.token == r.1.Cur() &&
      (r.1.Cur() == Rbrace || r.1.Cur() == Eof))
    decreases |p.tokens| - p.pos, 5
  {
    var open := ExpectPeek(p, Lparen);
    if !open.0 then (None, open.1)
    else
      var cond := ParseExpression(open.1.Next(), Lowest);
      if cond.0.None? then (None, cond.1)
      else
        var close := ExpectPeek(cond.1, Rparen);
        if !close.0 then (None, close.1)
        else ParseIfBranches(close.1, cond.0.value)
  }

  /** The rest of `parse_if_expression` after `)`: `{…}`, then an optional `else {…}`. */
  function ParseIfBranches(p: Parser, condition: Expr): (r: (Option<Expr>, Parser))
    requires p.Valid()
    ensures Extends(p, r.1)
    ensures r.0.None? ==> |r.1.errors| > |p.errors|
    ensures r.0.Some? ==> (r.0.value.IfExpr? && r.0.value.condition == condition &&
      r.0.value.token == r.1.Cur() && (r.1.Cur() == Rbrace || r.1.Cur() == Eof))
    decreases |p.tokens| - p.pos, 5
  {
    var brace := ExpectPeek(p, Lbrace);
    if !brace.0 then (None, brace.1)
    else
      var consequence := ParseBlock(brace.1);
      var q := consequence.1;
      if q.Peek() == Else then
        var brace' := ExpectPeek(q.Next(), Lbrace);
        if !brace'.0 then (None, brace'.1)
        else
          var alternative := ParseBlock(brace'.1);
          (Some(IfExpr(alternative.1.Cur(), condition, consequence.0, Some(alternative.0))), alternative.1)
      else
        (Some(IfExpr(q.Cur(), condition, consequence.0, None)), q)
  }

  /**
   `parse_block_statement`: the statements after the current token up to the
   closing brace, or to the end of the input when there is none.
   */
  function ParseBlock(p: Parser): (r: (Block, Parser))
    requires p.Valid()
    ensures Extends(p, r.1)
    ensures r.0.token == p.Cur()
    ensures r.1.Cur() == Rbrace || r.1.Cur() == Eof
    decreases |p.tokens| - p.pos, 11
  {
    var (statements, p1) := BlockLoop(p.Next(), []);
    (Block(p.Cur(), statements), p1)
  }

  /** The loop of `parse_block_statement`, with the statements read so far in `acc`. */
  function BlockLoop(p: Parser, acc: seq<Stmt>): (r: (seq<Stmt>, Parser))
    requires p.Valid()
    ensures Extends(p, r.1)
    ensures acc <= r.0
    ensures r.1.Cur() == Rbrace || r.1.Cur() == Eof
    decreases |p.tokens| - p.pos, 10
  {
    if p.Cur() == Rbrace || p.Cur() == Eof then (acc, p)
    else
      var (s, p1) := ParseStatement(p);
      BlockLoop(p1.Next(), if s.Some? then acc + [s.value] else acc)
  }

  /**
   `parse_function_literal`: `fn`, a parameter list and a body. The node keeps
   the token current at its end, the closing brace.
   */
  function ParseFunctionLiteral(p: Parser): (r: (Option<Expr>, Parser))
    requires p.Valid()
    ensures Extends(p, r.1)
    ensures r.0.None? ==> |r.1.errors| > |p.errors|
    ensures r.0.Some? ==> (r.0.value.FnLiteral? && r.0.value.token == r.1.Cur() &&
      (r.1.Cur() == Rbrace || r.1.Cur() == Eof))
    decreases |p.tokens| - p.pos, 5
  {
    var (open, p1) := ExpectPeek(p, Lparen);
    if !open then (None, p1)
    else
      var (parameters, p2) := ParseParameters(p1);
      if parameters.None? then (None, p2)
      else
        var (brace, p3) := ExpectPeek(p2, Lbrace);
        if !brace then (None, p3)
        else
          var (body, p4) := ParseBlock(p3);
          (Some(FnLiteral(p4.Cur(), parameters.value, body)), p4)
  }

  /** From index `i` on, the stream holds a comma and then the token of `x`, for each `x` in `ids`. */
  predicate CommaSeparated(ts: seq<Token>, i: nat, ids: seq<Identifier>)
    decreases |ids|
  {
    |ids| == 0 ||
    (TokenAt(ts, i) == Comma && ids[0] == NewIdentifier(TokenAt(ts, i + 1)) &&
     CommaSeparated(ts, i + 2, ids[1..]))
  }

  /**
   `parse_function_parameters`, called on the `(`: either `)` at once, or a
   first parameter and then a comma before each further one, closed by `)`.
   Whatever token stands in a parameter's place becomes an identifier.
   */
  function ParseParameters(p: Parser): (r: (Option<seq<Identifier>>, Parser))
    requires p.Valid()
    ensures Extends(p, r.1) && r.1.panicked == p.panicked
    ensures r.0.None? ==> |r.1.errors| > |p.errors|
    ensures r.0.Some? ==> r.1.Cur() == Rparen && r.1.errors == p.errors
    ensures r.0.Some? && p.Peek() == Rparen ==> r.0.value == [] && r.1.pos == p.pos + 1
  {
    if p.Peek() == Rparen then (Some([]), p.Next())
    else
      var p1 := p.Next();
      var first := NewIdentifier(p1.Cur());
      var rest := ParameterLoop(p1);
      var close := ExpectPeek(rest.1, Rparen);
      if close.0 then (Some([first] + rest.0), close.1) else (None, close.1)
  }

  /**
   The loop of `parse_function_parameters`: while a comma follows, take the
   token after it. Returns the parameters it took, in order.
   */
  function ParameterLoop(p: Parser): (r: (seq<Identifier>, Parser))
    requires p.Valid()
    ensures Extends(p, r.1) && r.1.errors == p.errors && r.1.panicked == p.panicked
    ensures CommaSeparated(p.tokens, p.pos + 1, r.0)
    ensures r.1.pos == p.pos + 2 * |r.0|
    ensures r.1.Peek() != Comma
    decreases |p.tokens| - p.pos
  {
    if p.Peek() == Comma then
      var p1 := p.Next().Next();
      var rest := ParameterLoop(p1);
      ([NewIdentifier(p1.Cur())] + rest.0, rest.1)
    else ([], p)
  }

  /**
   `parse_call_expression`, called on the `(` after the callee: the node keeps
   the closing `)` as its token.
   */
  function ParseCallExpression(p: Parser, callee: Expr): (r: (Option<Expr>, Parser))
    requires p.Valid() && p.Cur() == Lparen
    ensures Extends(p, r.1)
    ensures r.0.None? ==> |r.1.errors| > |p.errors|
    ensures r.0.Some? ==> (r.0.value.CallExpr? && r.0.value.callee == callee &&
      r.0.value.token == Rparen && r.1.Cur() == Rparen)
    decreases |p.tokens| - p.pos, 4
  {
    var (arguments, p1) := ParseCallArguments(p);
    if arguments.None? then (None, p1) else (Some(CallExpr(p1.Cur(), callee, arguments.value)), p1)
  }

  /**
   `parse_call_arguments`: `()` is the empty list; otherwise comma-separated
   expressions at `Lowest` closed by `)`. If the first argument fails the
   Rust parser panics, which the model records in `panicked`; a later
   argument that fails is left out of the list.
   */
  function ParseCallArguments(p: Parser): (r: (Option<seq<Expr>>, Parser))
    requires p.Valid() && p.Cur() == Lparen
    ensures Extends(p, r.1)
    ensures r.0.None? ==> |r.1.errors| > |p.errors|
    ensures r.0.Some? ==> r.1.Cur() == Rparen
    ensures r.0.Some? ==> (|r.0.value| == 0 <==> p.Peek() == Rparen)
    ensures p.Peek() == Rparen ==> r == (Some([]), p.Next())
    decreases |p.tokens| - p.pos, 3
  {
    if p.Peek() == Rparen then (Some([]), p.Next())
    else
      var (first, p1) := ParseExpression(p.Next(), Lowest);
      if first.None? then (None, p1.(panicked := true))
      else
        var (arguments, p2) := ArgumentLoop(p1, [first.value]);
        var (close, p3) := ExpectPeek(p2, Rparen);
        if close then (Some(arguments), p3) else (None, p3)
  }

  /** The loop of `parse_call_arguments`: while a comma follows, parse the expression after it. */
  function ArgumentLoop(p: Parser, acc: seq<Expr>): (r: (seq<Expr>, Parser))
    requires p.Valid()
    ensures Extends(p, r.1)
    ensures acc <= r.0
    ensures r.1.Peek() != Comma
    ensures p.Peek() != Comma ==> r == (acc, p)
    decreases |p.tokens| - p.pos, 2
  {
    if p.Peek() == Comma then
      var (e, p1) := ParseExpression(p.Next().Next(), Lowest);
      ArgumentLoop(p1, if e.Some? then acc + [e.value] else acc)
    else (acc, p)
  }

  /** `parse_statement`: `let` and `return` have their own forms, anything else is an expression statement. */
  function ParseStatement(p: Parser): (r: (Option<Stmt>, Parser))
    requires p.Valid()
    ensures Extends(p, r.1)
    ensures p.Cur() == Let ==> r == ParseLetStatement(p)
    ensures p.Cur() != Let ==> r.0.Some?
    ensures p.Cur() == Return ==> r.0.Some? && r.0.value.ReturnStmt?
    ensures p.Cur() != Let && p.Cur() != Return ==> r.0.Some? && r.0.value.ExprStmt? && r.0.value.token == p.Cur()
    ensures r.0.Some? ==> r.1.Cur() == Semicolon || r.1.Peek() != Semicolon
    decreases |p.tokens| - p.pos, 9
  {
    if p.Cur() == Let then ParseLetStatement(p)
    else if p.Cur() == Return then ParseReturnStatement(p)
    else ParseExpressionStatement(p)
  }

  /**
   `parse_let_statement`: `let`, an identifier, `=`, an expression and an
   optional `;`. Without an identifier the statement is `None` and nothing
   is recorded; without `=` it is `None` and one error is recorded.
   */
  function ParseLetStatement(p: Parser): (r: (Option<Stmt>, Parser))
    requires p.Valid()
    ensures Extends(p, r.1)
    ensures !p.Peek().Ident? ==> r == (None, p)
    ensures p.Peek().Ident? && p.At(p.pos + 2) != Assign ==>
      r.0.None? && r.1.errors == p.errors + [PeekErrorMessage(Assign, p.At(p.pos + 2))]
    ensures r.0.Some? ==> (p.Peek().Ident? && p.At(p.pos + 2) == Assign &&
      r.0.value.LetStmt? && r.0.value.token == Let &&
      r.0.value.name == Some(NewIdentifier(p.Peek())))
    ensures r.0.Some? ==> r.1.Cur() == Semicolon || r.1.Peek() != Semicolon
    decreases |p.tokens| - p.pos, 8
  {
    if !p.Peek().Ident? then (None, p)
    else
      var p1 := p.Next();
      var name := NewIdentifier(p1.Cur());
      var (assign, p2) := ExpectPeek(p1, Assign);
      if !assign then (None, p2)
      else
        var (value, p3) := ParseExpression(p2.Next(), Lowest);
        (Some(LetStmt(Let, Some(name), value)), SkipSemicolon(p3))
  }

  /** `parse_return_statement`: `return`, one expression and an optional `;`. */
  function ParseReturnStatement(p: Parser): (r: (Option<Stmt>, Parser))
    requires p.Valid() && p.Cur() == Return
    ensures Extends(p, r.1)
    ensures r.0.Some? && r.0.value.ReturnStmt? && r.0.value.token == Return
    ensures r.1.Cur() == Semicolon || r.1.Peek() != Semicolon
    decreases |p.tokens| - p.pos, 8
  {
    var (value, p1) := ParseExpression(p.Next(), Lowest);
    (Some(ReturnStmt(Return, value)), SkipSemicolon(p1))
  }

  /**
   `parse_expression_statement`: always a statement, even when its expression
   failed, followed by an optional `;`.
   */
  function ParseExpressionStatement(p: Parser): (r: (Option<Stmt>, Parser))
    requires p.Valid()
    ensures Extends(p, r.1)
    ensures r.0.Some? && r.0.value.ExprStmt? && r.0.value.token == p.Cur()
    ensures r.1.Cur() == Semicolon || r.1.Peek() != Semicolon
    decreases |p.tokens| - p.pos, 8
  {
    var (e, p1) := ParseExpression(p, Lowest);
    (Some(ExprStmt(p.Cur(), e)), SkipSemicolon(p1))
  }

  /** What parsing a whole program yields: the program and its errors, or the panic. */
  datatype Outcome = Parsed(program: Program, errors: seq<string>) | Panicked

  /** The loop of `parse_program`: one statement per round, each followed by a step, until `Eof`. */
  function ProgramLoop(p: Parser, acc: seq<Stmt>): (r: (seq<Stmt>, Parser))
    requires p.Valid()
    ensures Extends(p, r.1)
    ensures acc <= r.0
    ensures |r.0| - |acc| <= |p.tokens| - p.pos
    ensures r.1.Cur() == Eof
    decreases |p.tokens| - p.pos
  {
    if p.Cur() == Eof then (acc, p)
    else
      var (s, p1) := ParseStatement(p);
      ProgramLoop(p1.Next(), if s.Some? then acc + [s.value] else acc)
  }

  /**
   `parse_program` on a token stream: the statements in source order, at
   most one per token, and every error recorded on the way.
   */
  function ParseProgram(tokens: seq<Token>): (r: Outcome)
    ensures r.Parsed? ==> |r.program.statements| <= |tokens|
    ensures |tokens| == 0 ==> r == Parsed(Program([]), [])
  {
    var (statements, p) := ProgramLoop(NewParser(tokens), []);
    if p.panicked then Panicked else Parsed(Program(statements), p.errors)
  }

  /** Lexing followed by parsing, as `Parser::new(&mut Lexer::new(input))` then `parse_program`. */
  function ParseInput(input: string): Outcome {
    ParseProgram(Tokenize(input))
  }
}
