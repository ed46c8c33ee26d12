/**
 Properties of the Monkey parser: the precedence table, the equations of the
 Pratt loop, associativity and binding strength of operators, the statement
 forms, parameter and argument lists, and the rendered form of the parser's
 golden test inputs.
 */
module ParserFacts {
  import opened Wrappers
  import opened Tokens
  import opened Lexing
  import opened LexerFacts
  import opened Ast
  import opened Numerals
  import opened Parsing

  /**
   A token whose prefix parse is a complete expression on its own, without
   moving: an identifier, a boolean, or a numeral short enough to fit in 32 bits.
   */
  predicate Atom(t: Token) {
    t.Ident? || t == True || t == False || (t.Int? && ShortNumeral(t.digits))
  }

  /** The expression an atom parses to. */
  function AtomExpr(t: Token): Expr
    requires Atom(t)
  {
    if t.Ident? then Name(NewIdentifier(t))
    else if t.Int? then IntLiteral(t, DigitsValue(t.digits))
    else Boolean(t, t == True)
  }

  /** The binary expression `l op r` as the parser builds it. */
  function Binary(l: Expr, op: Token, r: Expr): Expr {
    InfixExpr(op, l, Literal(op), r)
  }

  /** The parser positioned at index `i` of `ts`, with no errors yet. */
  function At(ts: seq<Token>, i: nat): (p: Parser)
    requires i <= |ts|
    ensures p.Valid() && p.errors == [] && !p.panicked && p.Cur() == TokenAt(ts, i)
  {
    Parser(ts, i, [], false)
  }

  /**
   The precedence table: `==`/`!=` are `Equals`, `<`/`>` are `LessGreater`,
   `+`/`-` are `Sum`, `*`/`/` are `Product`, `(` is `Call`, and every other
   token is `Lowest`; the levels are strictly ordered.
   */
  lemma PrecedenceTable(t: Token)
    ensures PrecedenceOf(t) == Equals <==> t == Eq || t == NotEq
    ensures PrecedenceOf(t) == LessGreater <==> t == Lt || t == Gt
    ensures PrecedenceOf(t) == Sum <==> t == Plus || t == Minus
    ensures PrecedenceOf(t) == Product <==> t == Asterisk || t == Slash
    ensures PrecedenceOf(t) == Call <==> t == Lparen
    ensures Rank(Lowest) < Rank(Equals) < Rank(LessGreater) < Rank(Sum) < Rank(Product) < Rank(Prefix) < Rank(Call)
  {
  }

  /**
   The infix handler table and the precedence table agree: exactly the tokens
   with an infix handler bind above `Lowest`, so the infix loop never steps
   onto a token it cannot handle; and a prefix operand binds tighter than any
   binary operator.
   */
  lemma InfixTableMatchesPrecedence(t: Token)
    ensures PrecedenceOf(t) != Lowest <==> IsInfixOperator(t) || t == Lparen
    ensures IsInfixOperator(t) ==> Rank(PrecedenceOf(t)) < Rank(Prefix)
  {
  }

  /** Two steps of the window, away from the end of the stream. */
  lemma TwoSteps(p: Parser)
    requires p.Valid() && p.pos + 2 <= |p.tokens|
    ensures p.Next().Next() == p.(pos := p.pos + 2)
  {
  }

  /** What the parser needs to know of a binary operator when it follows an expression. */
  lemma OperatorFacts(t: Token)
    requires IsInfixOperator(t)
    ensures t != Semicolon && t != Lparen && t != Eof && !Atom(t)
    ensures 1 <= Rank(PrecedenceOf(t)) <= 4
  {
  }

  /** Before the end of the stream, a step moves the peeked token into the current place. */
  lemma Advance(p: Parser)
    requires p.Valid() && p.Peek() != Eof
    ensures p.Next() == p.(pos := p.pos + 1) && p.Next().Cur() == p.Peek()
  {
  }

  /** A binary operator binds whenever its precedence is above `prec`. */
  lemma OperatorBinds(p: Parser, prec: Precedence)
    requires IsInfixOperator(p.Peek()) && Rank(prec) < Rank(PrecedenceOf(p.Peek()))
    ensures Binds(p, prec)
  {
  }

  /** `(` binds at every precedence but `Call`. */
  lemma CallBinds(p: Parser, prec: Precedence)
    requires p.Peek() == Lparen && prec != Call
    ensures Binds(p, prec)
  {
  }

  /** An atom is none of the punctuation that steers the parser. */
  lemma AtomFacts(t: Token)
    requires Atom(t)
    ensures t != Eof && t != Lparen && t != Rparen && t != Comma && t != Semicolon && !IsInfixOperator(t)
  {
  }

  /** The prefix parse of an atom. */
  lemma AtomPrefix(p: Parser)
    requires p.Valid() && Atom(p.Cur())
    ensures PrefixParse(p) == (Some(AtomExpr(p.Cur())), p)
  {
    if p.Cur().Int? {
      assert Literal(p.Cur()) == p.Cur().digits;
      ParseI32OfShortNumeral(p.Cur().digits);
    }
  }

  /** An expression starting with an atom continues with the infix loop on it. */
  lemma AtomExpression(p: Parser, prec: Precedence)
    requires p.Valid() && Atom(p.Cur())
    ensures ParseExpression(p, prec) == InfixLoop(p, prec, AtomExpr(p.Cur()))
  {
    AtomPrefix(p);
  }

  /**
   One round of the infix loop on a binary operator: when the expression
   parsed at the operator's precedence just after it is `right`, the loop
   goes on with `left op right` as its left operand.
   */
  lemma LoopBinary(p: Parser, prec: Precedence, left: Expr, right: Expr, q: Parser)
    requires p.Valid() && IsInfixOperator(p.Peek()) && Rank(prec) < Rank(PrecedenceOf(p.Peek()))
    requires ParseExpression(p.Next().Next(), PrecedenceOf(p.Peek())) == (Some(right), q)
    ensures InfixLoop(p, prec, left) == InfixLoop(q, prec, Binary(left, p.Peek(), right))
  {
    OperatorBinds(p, prec);
    OperatorFacts(p.Peek());
    Advance(p);
    var n := p.Next();
    assert InfixParse(n, left) == ParseInfixExpression(n, left) == (Some(Binary(left, p.Peek(), right)), q);
  }

  /**
   One round of the infix loop on `(`: the argument list after it makes a
   call of `left`, and the loop goes on with the call as its left operand.
   */
  lemma LoopCall(p: Parser, prec: Precedence, left: Expr, args: Option<seq<Expr>>, q: Parser)
    requires p.Valid() && p.Peek() == Lparen && prec != Call
    requires ParseCallArguments(p.Next()) == (args, q)
    ensures InfixLoop(p, prec, left) ==
      if args.None? then (None, q) else InfixLoop(q, prec, CallExpr(Rparen, left, args.value))
  {
    CallBinds(p, prec);
    Advance(p);
    var n := p.Next();
    assert InfixParse(n, left) == ParseCallExpression(n, left);
  }

  /** An atom followed by a token that does not bind tighter than `prec` is a whole expression. */
  lemma AtomAlone(p: Parser, prec: Precedence)
    requires p.Valid() && Atom(p.Cur()) && !Binds(p, prec)
    ensures ParseExpression(p, prec) == (Some(AtomExpr(p.Cur())), p)
  {
    AtomExpression(p, prec);
  }

  /** A token after which no expression continues: it has the lowest precedence. */
  predicate EndsExpression(t: Token) {
    PrecedenceOf(t) == Lowest
  }

  /** The window `k` tokens further on. */
  lemma Shifted(p: Parser, k: nat)
    requires p.Valid() && p.pos + k <= |p.tokens|
    ensures var q := p.(pos := p.pos + k);
      q.Valid() && q.Cur() == p.At(p.pos + k) && q.Peek() == p.At(p.pos + k + 1) &&
      q.At(q.pos + 2) == p.At(p.pos + k + 2) && q.At(q.pos + 3) == p.At(p.pos + k + 3)
  {
  }

  /** A binary operator of no higher precedence than `prec` does not bind. */
  lemma OperatorStops(p: Parser, prec: Precedence)
    requires IsInfixOperator(p.Peek()) && Rank(PrecedenceOf(p.Peek())) <= Rank(prec)
    ensures !Binds(p, prec)
  {
  }

  /** A token that ends expressions does not bind. */
  lemma EndStops(p: Parser, prec: Precedence)
    requires EndsExpression(p.Peek())
    ensures !Binds(p, prec)
  {
  }

  /** The infix loop ends at once before a token that does not bind tighter than `prec`. */
  lemma LoopStops(p: Parser, prec: Precedence, left: Expr)
    requires p.Valid() && !Binds(p, prec)
    ensures InfixLoop(p, prec, left) == (Some(left), p)
  {
  }

  /**
   The infix loop before `o y` and a token that ends expressions, where `y`
   is an atom and `o` binds tighter than `prec`, takes exactly that operator
   and operand, and stops at `y` (the state `e`).
   */
  lemma FinalOperation(p: Parser, prec: Precedence, left: Expr, o: Token, y: Token, e: Parser)
    requires p.Valid() && p.pos + 3 <= |p.tokens| && e == p.(pos := p.pos + 2)
    requires p.Peek() == o && p.At(p.pos + 2) == y && EndsExpression(p.At(p.pos + 3))
    requires IsInfixOperator(o) && Atom(y) && Rank(prec) < Rank(PrecedenceOf(o))
    ensures InfixLoop(p, prec, left) == (Some(Binary(left, o, AtomExpr(y))), e)
  {
    Shifted(p, 2);
    TwoSteps(p);
    OperatorFacts(o);
    EndStops(e, PrecedenceOf(o));
    AtomAlone(e, PrecedenceOf(o));
    LoopBinary(p, prec, left, AtomExpr(y), e);
    EndStops(e, prec);
    LoopStops(e, prec, Binary(left, o, AtomExpr(y)));
  }

  /**
   `x o y` before a token that ends expressions, when `o` binds tighter than
   `prec`, is one expression, and parsing it stops at `y` (the state `e`).
   */
  lemma OperationCloses(p: Parser, prec: Precedence, x: Token, o: Token, y: Token, e: Parser)
    requires p.Valid() && p.pos + 3 <= |p.tokens| && e == p.(pos := p.pos + 2)
    requires p.Cur() == x && p.Peek() == o && p.At(p.pos + 2) == y && EndsExpression(p.At(p.pos + 3))
    requires Atom(x) && IsInfixOperator(o) && Atom(y) && Rank(prec) < Rank(PrecedenceOf(o))
    ensures ParseExpression(p, prec) == (Some(Binary(AtomExpr(x), o, AtomExpr(y))), e)
  {
    AtomExpression(p, prec);
    FinalOperation(p, prec, AtomExpr(x), o, y, e);
  }

  /**
   The stream from `p` on is `a o1 b o2 c`: three atoms and two binary
   operators, followed by a token that ends expressions (such as `;`, `)` or
   the end of the stream).
   */
  predicate TwoOperations(p: Parser) {
    p.Valid() && p.pos + 5 <= |p.tokens| &&
    Atom(p.At(p.pos)) && IsInfixOperator(p.At(p.pos + 1)) && Atom(p.At(p.pos + 2)) &&
    IsInfixOperator(p.At(p.pos + 3)) && Atom(p.At(p.pos + 4)) && EndsExpression(p.At(p.pos + 5))
  }

  /**
   Binary operators associate to the left: in `a o1 b o2 c`, `b` goes with
   `o1` when `o2` binds no tighter than `o1`.
   */
  lemma GroupsLeft(p: Parser)
    requires TwoOperations(p)
    requires Rank(PrecedenceOf(p.At(p.pos + 3))) <= Rank(PrecedenceOf(p.At(p.pos + 1)))
    ensures ParseExpression(p, Lowest) ==
      (Some(Binary(Binary(AtomExpr(p.At(p.pos)), p.At(p.pos + 1), AtomExpr(p.At(p.pos + 2))),
                   p.At(p.pos + 3), AtomExpr(p.At(p.pos + 4)))),
       p.(pos := p.pos + 4))
  {
    var x, o1, y, o2, z := p.At(p.pos), p.At(p.pos + 1), p.At(p.pos + 2), p.At(p.pos + 3), p.At(p.pos + 4);
    var q, e := p.(pos := p.pos + 2), p.(pos := p.pos + 4);
    TwoOperationsWindow(p, q, e);
    OperatorStops(q, PrecedenceOf(o1));
    AtomAlone(q, PrecedenceOf(o1));
    AtomExpression(p, Lowest);
    LoopBinary(p, Lowest, AtomExpr(x), AtomExpr(y), q);
    FinalOperation(q, Lowest, Binary(AtomExpr(x), o1, AtomExpr(y)), o2, z, e);
  }

  /** The windows inside `a o1 b o2 c`, stated in the terms its parse uses. */
  lemma TwoOperationsWindow(p: Parser, q: Parser, e: Parser)
    requires TwoOperations(p) && q == p.(pos := p.pos + 2) && e == p.(pos := p.pos + 4)
    ensures p.Cur() == p.At(p.pos) && p.Peek() == p.At(p.pos + 1) && p.Next().Next() == q
    ensures q.Valid() && q.pos + 3 <= |q.tokens| && e == q.(pos := q.pos + 2)
    ensures q.Cur() == p.At(p.pos + 2) && q.Peek() == p.At(p.pos + 3) && q.At(q.pos + 2) == p.At(p.pos + 4)
    ensures EndsExpression(q.At(q.pos + 3)) && EndsExpression(e.Peek())
    ensures 1 <= Rank(PrecedenceOf(p.At(p.pos + 1))) <= 4 && 1 <= Rank(PrecedenceOf(p.At(p.pos + 3))) <= 4
  {
    Shifted(p, 2);
    Shifted(p, 4);
    TwoSteps(p);
    OperatorFacts(p.At(p.pos + 1));
    OperatorFacts(p.At(p.pos + 3));
  }

  /** In `a o1 b o2 c`, `b` goes with `o2` when `o2` binds strictly tighter than `o1`. */
  lemma GroupsRight(p: Parser)
    requires TwoOperations(p)
    requires Rank(PrecedenceOf(p.At(p.pos + 1))) < Rank(PrecedenceOf(p.At(p.pos + 3)))
    ensures ParseExpression(p, Lowest) ==
      (Some(Binary(AtomExpr(p.At(p.pos)), p.At(p.pos + 1),
                   Binary(AtomExpr(p.At(p.pos + 2)), p.At(p.pos + 3), AtomExpr(p.At(p.pos + 4))))),
       p.(pos := p.pos + 4))
  {
    var x, o1, y, o2, z := p.At(p.pos), p.At(p.pos + 1), p.At(p.pos + 2), p.At(p.pos + 3), p.At(p.pos + 4);
    var q, e := p.(pos := p.pos + 2), p.(pos := p.pos + 4);
    TwoOperationsWindow(p, q, e);
    var yz := Binary(AtomExpr(y), o2, AtomExpr(z));
    EndStops(e, Lowest);
    OperationCloses(q, PrecedenceOf(o1), y, o2, z, e);
    AtomExpression(p, Lowest);
    LoopBinary(p, Lowest, AtomExpr(x), yz, e);
    LoopStops(e, Lowest, Binary(AtomExpr(x), o1, yz));
  }

  /**
   A call with one argument: when the expression after `(` ends just before
   `)`, the argument list is that one expression and the window ends on `)`.
   */
  lemma OneArgument(p: Parser, m: Parser, arg: Expr, q: Parser, e: Parser)
    requires p.Valid() && p.Cur() == Lparen && p.Peek() != Rparen && p.Next() == m
    requires ParseExpression(m, Lowest) == (Some(arg), q) && q.Peek() == Rparen && q.Next() == e
    ensures ParseCallArguments(p) == (Some([arg]), e)
  {
  }

  /** The windows inside `(x o y)`, stated in the terms the argument parse uses. */
  lemma ArgumentWindow(p: Parser, m: Parser, q: Parser, e: Parser, x: Token, o: Token, y: Token)
    requires p.Valid() && p.pos + 5 <= |p.tokens|
    requires p.At(p.pos + 1) == x && p.At(p.pos + 2) == o && p.At(p.pos + 3) == y && p.At(p.pos + 4) == Rparen
    requires Atom(x) && IsInfixOperator(o)
    requires m == p.(pos := p.pos + 1) && q == p.(pos := p.pos + 3) && e == p.(pos := p.pos + 4)
    ensures m.Valid() && m.pos + 3 <= |m.tokens| && q == m.(pos := m.pos + 2)
    ensures m.Cur() == x && m.Peek() == o && m.At(m.pos + 2) == y && EndsExpression(m.At(m.pos + 3))
    ensures Rank(Lowest) < Rank(PrecedenceOf(o))
    ensures p.Peek() != Rparen && p.Next() == m && q.Peek() == Rparen && q.Next() == e
  {
    AtomFacts(x);
    OperatorFacts(o);
  }

  /** The argument list `(x o y)`: one binary operation. */
  lemma OperationArgument(p: Parser, x: Token, o: Token, y: Token, e: Parser)
    requires p.Valid() && p.pos + 5 <= |p.tokens| && p.Cur() == Lparen
    requires p.At(p.pos + 1) == x && p.At(p.pos + 2) == o && p.At(p.pos + 3) == y && p.At(p.pos + 4) == Rparen
    requires Atom(x) && IsInfixOperator(o) && Atom(y) && e == p.(pos := p.pos + 4)
    ensures ParseCallArguments(p) == (Some([Binary(AtomExpr(x), o, AtomExpr(y))]), e)
  {
    var m, q := p.(pos := p.pos + 1), p.(pos := p.pos + 3);
    ArgumentWindow(p, m, q, e, x, o, y);
    OperationCloses(m, Lowest, x, o, y, q);
    OneArgument(p, m, Binary(AtomExpr(x), o, AtomExpr(y)), q, e);
  }

  /**
   A call whose one argument is a binary operation, `f(x o y)`, parsed at a
   precedence below that of calls and followed by a token that does not bind
   tighter than that precedence: the expression is the call and nothing more.
   */
  lemma CallOfOperation(p: Parser, prec: Precedence)
    requires p.Valid() && p.pos + 6 <= |p.tokens|
    requires Atom(p.Cur()) && p.Peek() == Lparen
    requires Atom(p.At(p.pos + 2)) && IsInfixOperator(p.At(p.pos + 3)) && Atom(p.At(p.pos + 4))
    requires p.At(p.pos + 5) == Rparen && prec != Call && !Binds(p.(pos := p.pos + 5), prec)
    ensures ParseExpression(p, prec) ==
      (Some(CallExpr(Rparen, AtomExpr(p.Cur()),
        [Binary(AtomExpr(p.At(p.pos + 2)), p.At(p.pos + 3), AtomExpr(p.At(p.pos + 4)))])),
       p.(pos := p.pos + 5))
  {
    var n, e := p.(pos := p.pos + 1), p.(pos := p.pos + 5);
    var f, x, o, y := p.Cur(), p.At(p.pos + 2), p.At(p.pos + 3), p.At(p.pos + 4);
    Shifted(p, 1);
    Advance(p);
    assert n.At(n.pos + 1) == x && n.At(n.pos + 2) == o && n.At(n.pos + 3) == y && n.At(n.pos + 4) == Rparen;
    assert n.(pos := n.pos + 4) == e;
    var arg := Binary(AtomExpr(x), o, AtomExpr(y));
    OperationArgument(n, x, o, y, e);
    AtomExpression(p, prec);
    LoopCall(p, prec, AtomExpr(f), Some([arg]), e);
    LoopStops(e, prec, CallExpr(Rparen, AtomExpr(f), [arg]));
  }

  /** A binary expression renders as its rendered operands around the operator, in parentheses. */
  lemma BinaryRender(l: Expr, op: Token, r: Expr, ls: string, rs: string)
    requires ExprString(l) == ls && ExprString(r) == rs
    ensures ExprString(Binary(l, op, r)) == "(" + ls + " " + Literal(op) + " " + rs + ")"
  {
  }

  /** A call with one argument renders as `f(a, )`. */
  lemma CallRender(t: Token, f: Expr, a: Expr, fs: string, xs: string)
    requires ExprString(f) == fs && ExprString(a) == xs
    ensures ExprString(CallExpr(t, f, [a])) == fs + "(" + xs + ", )"
  {
    var strs := seq(1, i requires 0 <= i < 1 => ExprString([a][i]));
    assert strs == [xs];
    assert Terminated(strs, ", ") == [xs + ", "];
    assert Concat([xs + ", "]) == xs + ", " + Concat([]);
  }

  /** The stream from `p` on is `x o1 f(y o z) o2 w`, then a token that ends expressions. */
  predicate CallInChain(p: Parser) {
    p.Valid() && p.pos + 10 <= |p.tokens| &&
    Atom(p.At(p.pos)) && IsInfixOperator(p.At(p.pos + 1)) && Atom(p.At(p.pos + 2)) && p.At(p.pos + 3) == Lparen &&
    Atom(p.At(p.pos + 4)) && IsInfixOperator(p.At(p.pos + 5)) && Atom(p.At(p.pos + 6)) && p.At(p.pos + 7) == Rparen &&
    IsInfixOperator(p.At(p.pos + 8)) && Atom(p.At(p.pos + 9)) && EndsExpression(p.At(p.pos + 10))
  }

  /** The windows of `x o1 f(y o z) o2 w` at the callee and after the call, in the terms the parse uses. */
  lemma ChainWindow(p: Parser, n: Parser, c: Parser, e: Parser)
    requires CallInChain(p) && Rank(PrecedenceOf(p.At(p.pos + 8))) <= Rank(PrecedenceOf(p.At(p.pos + 1)))
    requires n == p.(pos := p.pos + 2) && c == p.(pos := p.pos + 7) && e == p.(pos := p.pos + 9)
    ensures p.Cur() == p.At(p.pos) && p.Peek() == p.At(p.pos + 1) && p.Next().Next() == n
    ensures n.Valid() && n.pos + 6 <= |n.tokens| && n.Cur() == p.At(p.pos + 2) && n.Peek() == Lparen
    ensures n.At(n.pos + 2) == p.At(p.pos + 4) && n.At(n.pos + 3) == p.At(p.pos + 5)
    ensures n.At(n.pos + 4) == p.At(p.pos + 6) && n.At(n.pos + 5) == Rparen && n.(pos := n.pos + 5) == c
    ensures c.Valid() && c.pos + 3 <= |c.tokens| && e == c.(pos := c.pos + 2)
    ensures c.Peek() == p.At(p.pos + 8) && c.At(c.pos + 2) == p.At(p.pos + 9) && EndsExpression(c.At(c.pos + 3))
    ensures PrecedenceOf(p.At(p.pos + 1)) != Call && Rank(Lowest) < Rank(PrecedenceOf(p.At(p.pos + 1)))
    ensures Rank(Lowest) < Rank(PrecedenceOf(p.At(p.pos + 8))) && !Binds(c, PrecedenceOf(p.At(p.pos + 1)))
  {
    TwoSteps(p);
    OperatorFacts(p.At(p.pos + 1));
    OperatorFacts(p.At(p.pos + 8));
    OperatorStops(c, PrecedenceOf(p.At(p.pos + 1)));
  }

  /**
   A call as the middle operand of a chain of two operators that associate
   to the left: `x o1 f(y o z) o2 w` groups as `(x o1 f(y o z)) o2 w`, the
   argument being the one operation `y o z`.
   */
  lemma CallOperandGroupsLeft(p: Parser)
    requires CallInChain(p) && Rank(PrecedenceOf(p.At(p.pos + 8))) <= Rank(PrecedenceOf(p.At(p.pos + 1)))
    ensures ParseExpression(p, Lowest) ==
      (Some(Binary(Binary(AtomExpr(p.At(p.pos)), p.At(p.pos + 1),
                          CallExpr(Rparen, AtomExpr(p.At(p.pos + 2)),
                            [Binary(AtomExpr(p.At(p.pos + 4)), p.At(p.pos + 5), AtomExpr(p.At(p.pos + 6)))])),
                   p.At(p.pos + 8), AtomExpr(p.At(p.pos + 9)))),
       p.(pos := p.pos + 9))
  {
    var n, c, e := p.(pos := p.pos + 2), p.(pos := p.pos + 7), p.(pos := p.pos + 9);
    var x, o1, o2, w := p.At(p.pos), p.At(p.pos + 1), p.At(p.pos + 8), p.At(p.pos + 9);
    var call := CallExpr(Rparen, AtomExpr(p.At(p.pos + 2)),
      [Binary(AtomExpr(p.At(p.pos + 4)), p.At(p.pos + 5), AtomExpr(p.At(p.pos + 6)))]);
    ChainWindow(p, n, c, e);
    CallOfOperation(n, PrecedenceOf(o1));
    AtomExpression(p, Lowest);
    LoopBinary(p, Lowest, AtomExpr(x), call, c);
    FinalOperation(c, Lowest, Binary(AtomExpr(x), o1, call), o2, w, e);
  }

  /** An expression statement whose expression parses and is not followed by `;`. */
  lemma ExpressionStatementStep(p: Parser, e: Expr, q: Parser)
    requires p.Valid() && p.Cur() != Let && p.Cur() != Return
    requires ParseExpression(p, Lowest) == (Some(e), q) && q.Peek() != Semicolon
    ensures ParseStatement(p) == (Some(ExprStmt(p.Cur(), Some(e))), q)
  {
  }

  /** The program loop stops at `Eof` with what it has collected. */
  lemma ProgramEnds(p: Parser, acc: seq<Stmt>)
    requires p.Valid() && p.Cur() == Eof
    ensures ProgramLoop(p, acc) == (acc, p)
  {
  }

  /** One round of the program loop that yields a statement. */
  lemma ProgramStep(p: Parser, acc: seq<Stmt>, st: Stmt, q: Parser)
    requires p.Valid() && p.Cur() != Eof && ParseStatement(p) == (Some(st), q)
    ensures ProgramLoop(p, acc) == ProgramLoop(q.Next(), acc + [st])
  {
  }

  /** The outcome of a program whose loop did not panic. */
  lemma ProgramOutcome(ts: seq<Token>, p: Parser, statements: seq<Stmt>, q: Parser)
    requires NewParser(ts) == p && ProgramLoop(p, []) == (statements, q) && !q.panicked
    ensures ParseProgram(ts) == Parsed(Program(statements), q.errors)
  {
  }

  /**
   A program that is one expression statement: when the expression from the
   first token runs to the last token, the program is that statement alone.
   */
  lemma SingleExpressionProgram(ts: seq<Token>, e: Expr)
    requires 0 < |ts| && ts[0] != Let && ts[0] != Return
    requires ParseExpression(At(ts, 0), Lowest) == (Some(e), At(ts, |ts| - 1))
    ensures ParseProgram(ts) == Parsed(Program([ExprStmt(ts[0], Some(e))]), [])
  {
    var p0, q := At(ts, 0), At(ts, |ts| - 1);
    var st := ExprStmt(ts[0], Some(e));
    assert NewParser(ts) == p0;
    ExpressionStatementStep(p0, e, q);
    ProgramStep(p0, [], st, q);
    assert [] + [st] == [st];
    ProgramEnds(q.Next(), [st]);
    var e0 := q.Next();
    assert ProgramLoop(p0, []) == ([st], e0);
    ProgramOutcome(ts, p0, [st], e0);
  }
}
