/**
 The parser's compound forms: the statements of a block, the parts of an
 `if` expression and of a function literal, each tied to the sub-parses that
 produce them and to the error recorded when an expected token is missing.
 */
module ParserBlocks {
  import opened Wrappers
  import opened Tokens
  import opened Ast
  import opened Parsing

  /** The block loop stops at `}` or at the end of input with what it has collected. */
  lemma BlockEnds(p: Parser, acc: seq<Stmt>)
    requires p.Valid() && (p.Cur() == Rbrace || p.Cur() == Eof)
    ensures BlockLoop(p, acc) == (acc, p)
  {
  }

  /** One round of the block loop: the statement parsed is appended, and the loop goes on after it. */
  lemma BlockStep(p: Parser, acc: seq<Stmt>, st: Stmt, q: Parser)
    requires p.Valid() && p.Cur() != Rbrace && p.Cur() != Eof && ParseStatement(p) == (Some(st), q)
    ensures BlockLoop(p, acc) == BlockLoop(q.Next(), acc + [st])
  {
  }

  /** A round of the block loop whose statement failed adds nothing, and the loop goes on after it. */
  lemma BlockSkip(p: Parser, acc: seq<Stmt>, q: Parser)
    requires p.Valid() && p.Cur() != Rbrace && p.Cur() != Eof && ParseStatement(p) == (None, q)
    ensures BlockLoop(p, acc) == BlockLoop(q.Next(), acc)
  {
  }

  /**
   Every statement a block holds is one the block loop parsed: the block's
   statements are those of the loop started just after its `{`, and the block
   ends where that loop ends.
   */
  lemma BlockOfLoop(p: Parser)
    requires p.Valid()
    ensures ParseBlock(p) == (Block(p.Cur(), BlockLoop(p.Next(), []).0), BlockLoop(p.Next(), []).1)
  {
  }

  /** The block loop over one statement that ends just before `}`. */
  lemma BlockLoopOfOne(b: Parser, st: Stmt, q: Parser)
    requires b.Valid() && b.Cur() != Rbrace && b.Cur() != Eof
    requires ParseStatement(b) == (Some(st), q) && q.Peek() == Rbrace
    ensures BlockLoop(b, []) == ([st], q.Next())
  {
    BlockStep(b, [], st, q);
    assert [] + [st] == [st];
    BlockEnds(q.Next(), [st]);
  }

  /**
   A block of one statement: after the `{` comes a statement that parses to
   `st` and ends just before `}`. The block holds `st` alone and ends on the `}`.
   */
  lemma BlockOfOne(p: Parser, st: Stmt, q: Parser)
    requires p.Valid() && p.Peek() != Rbrace && p.Peek() != Eof
    requires ParseStatement(p.Next()) == (Some(st), q) && q.Peek() == Rbrace
    ensures ParseBlock(p) == (Block(p.Cur(), [st]), q.Next())
  {
    BlockOfLoop(p);
    BlockLoopOfOne(p.Next(), st, q);
  }

  /**
   `parse_if_expression` up to its branches: without `(` after `if` the
   expression fails with the peek error for `(`; a condition that fails fails
   the whole; without `)` after the condition it fails with the peek error
   for `)`; otherwise the branches are parsed after the `)` with that
   condition.
   */
  lemma IfSteps(p: Parser)
    requires p.Valid()
    ensures p.Peek() != Lparen ==> ParseIf(p) == (None, PeekError(p, Lparen))
    ensures p.Peek() == Lparen ==>
      var (condition, q) := ParseExpression(p.Next().Next(), Lowest);
      (condition.None? ==> ParseIf(p) == (None, q)) &&
      (condition.Some? && q.Peek() != Rparen ==> ParseIf(p) == (None, PeekError(q, Rparen))) &&
      (condition.Some? && q.Peek() == Rparen ==> ParseIf(p) == ParseIfBranches(q.Next(), condition.value))
  {
  }

  /**
   An `if` with no `else`: the consequence is the block after the `{`, there
   is no alternative, and the expression ends where the block ends.
   */
  lemma IfWithoutElse(p: Parser, condition: Expr)
    requires p.Valid() && p.Peek() == Lbrace
    ensures
      var (consequence, q) := ParseBlock(p.Next());
      q.Peek() != Else ==> ParseIfBranches(p, condition) == (Some(IfExpr(q.Cur(), condition, consequence, None)), q)
  {
  }

  /**
   An `if` with an `else`: the consequence is the first block, the alternative
   is the block after `else {`, and the expression ends where the alternative
   ends.
   */
  lemma IfWithElse(p: Parser, condition: Expr)
    requires p.Valid() && p.Peek() == Lbrace
    ensures
      var (consequence, q) := ParseBlock(p.Next());
      q.Peek() == Else && q.Next().Peek() == Lbrace ==>
        var (alternative, e) := ParseBlock(q.Next().Next());
        ParseIfBranches(p, condition) == (Some(IfExpr(e.Cur(), condition, consequence, Some(alternative))), e)
  {
  }

  /** The branches fail with the peek error for `{` when it is missing after `)` or after `else`. */
  lemma IfMissingBrace(p: Parser, condition: Expr)
    requires p.Valid()
    ensures p.Peek() != Lbrace ==> ParseIfBranches(p, condition) == (None, PeekError(p, Lbrace))
    ensures
      var q := ParseBlock(p.Next()).1;
      p.Peek() == Lbrace && q.Peek() == Else && q.Next().Peek() != Lbrace ==>
        ParseIfBranches(p, condition) == (None, PeekError(q.Next(), Lbrace))
  {
  }

  /**
   Conversely, an `if` expression that parses was written `if (c) { … }` with
   an optional `else { … }`: its condition is the expression after `(`, a `)`
   and a `{` follow it, its consequence is the block after that `{`, and it
   has an alternative exactly when `else {` follows the consequence.
   */
  lemma IfParts(p: Parser)
    requires p.Valid() && ParseIf(p).0.Some?
    ensures p.Peek() == Lparen
    ensures
      var (condition, q) := ParseExpression(p.Next().Next(), Lowest);
      var (consequence, e) := ParseBlock(q.Next().Next());
      var r := ParseIf(p).0.value;
      condition.Some? && q.Peek() == Rparen && q.Next().Peek() == Lbrace &&
      r == IfExpr(r.token, condition.value, consequence, r.alternative) &&
      (r.alternative.Some? <==> e.Peek() == Else)
  {
    IfSteps(p);
    var (condition, q) := ParseExpression(p.Next().Next(), Lowest);
    IfMissingBrace(q.Next(), condition.value);
    IfWithoutElse(q.Next(), condition.value);
    IfWithElse(q.Next(), condition.value);
  }

  /**
   `parse_function_literal`: without `(` after `fn` it fails with the peek
   error for `(`; a parameter list that fails fails the whole; without `{`
   after the `)` it fails with the peek error for `{`; otherwise the literal
   holds the parameters and the block after the `{`, and ends where the block
   ends.
   */
  lemma FunctionLiteralSteps(p: Parser)
    requires p.Valid()
    ensures p.Peek() != Lparen ==> ParseFunctionLiteral(p) == (None, PeekError(p, Lparen))
    ensures p.Peek() == Lparen ==>
      var (parameters, q) := ParseParameters(p.Next());
      (parameters.None? ==> ParseFunctionLiteral(p) == (None, q)) &&
      (parameters.Some? && q.Peek() != Lbrace ==> ParseFunctionLiteral(p) == (None, PeekError(q, Lbrace))) &&
      (parameters.Some? && q.Peek() == Lbrace ==>
        var (body, e) := ParseBlock(q.Next());
        ParseFunctionLiteral(p) == (Some(FnLiteral(e.Cur(), parameters.value, body)), e))
  {
  }

  /**
   A function literal followed by a token that binds no tighter than `prec`
   is the whole expression: the infix loop does not go on after its `}`.
   */
  lemma FunctionLiteralExpression(p: Parser, prec: Precedence, f: Expr, q: Parser)
    requires p.Valid() && p.Cur() == Function && ParseFunctionLiteral(p) == (Some(f), q)
    requires q.Peek() == Semicolon || Rank(PrecedenceOf(q.Peek())) <= Rank(prec)
    ensures ParseExpression(p, prec) == (Some(f), q)
  {
    FunctionLiteralPrefix(p);
    assert ParseExpression(p, prec) == InfixLoop(q, prec, f);
    assert !Binds(q, prec);
  }

  /** `fn` dispatches to the function-literal parser. */
  lemma FunctionLiteralPrefix(p: Parser)
    requires p.Valid() && p.Cur() == Function
    ensures PrefixParse(p) == ParseFunctionLiteral(p)
  {
    var t := p.Cur();
    assert !t.Ident? && !t.Int? && t != Bang && t != Minus && t != True && t != False && t != If;
  }
}
