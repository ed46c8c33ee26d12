/**
 The syntax tree the parser builds: identifiers, the eight expression forms,
 blocks, the three statement forms and programs, with the `token_literal` of
 each node and the textual rendering used by the parser's golden tests.
 */
module Ast {
  import opened Wrappers
  import opened Tokens

  /** A name together with the token it was read from. */
  datatype Identifier = Identifier(token: Token, value: string) {
    function TokenLiteral(): string {
      Literal(token)
    }
  }

  /** `Identifier::new`: the name's text is its token's literal. */
  function NewIdentifier(t: Token): (id: Identifier)
    ensures id.token == t
    ensures id.value == id.TokenLiteral()
  {
    Identifier(t, Literal(t))
  }

  /**
   Expressions. `IfExpr` and `FnLiteral` keep the token that was current when
   their parse finished, as the parser stores it.
   */
  datatype Expr =
    | Name(id: Identifier)
    | IntLiteral(token: Token, number: int)
    | Boolean(token: Token, value: bool)
    | PrefixExpr(token: Token, operator: string, right: Expr)
    | InfixExpr(token: Token, left: Expr, operator: string, right: Expr)
    | IfExpr(token: Token, condition: Expr, consequence: Block, alternative: Option<Block>)
    | FnLiteral(token: Token, parameters: seq<Identifier>, body: Block)
    | CallExpr(token: Token, callee: Expr, arguments: seq<Expr>)

  /** A brace-delimited list of statements. */
  datatype Block = Block(token: Token, statements: seq<Stmt>)

  /** Statements; a missing name or expression is recorded as `None`. */
  datatype Stmt =
    | LetStmt(token: Token, name: Option<Identifier>, value: Option<Expr>)
    | ReturnStmt(token: Token, value: Option<Expr>)
    | ExprStmt(token: Token, expression: Option<Expr>)

  datatype Program = Program(statements: seq<Stmt>)

  /** `LetStatement::new`: a `let` statement with neither name nor value yet. */
  function NewLetStatement(t: Token): (s: Stmt)
    ensures s.LetStmt? && s.token == t
    ensures s.name == None && s.value == None
  {
    LetStmt(t, None, None)
  }

  /**
   `token_literal` of a statement: always `let` for a let statement, whatever
   its token. The source defines `token_literal` for let statements only;
   for `return` and expression statements the model uses the token's text.
   */
  function StmtTokenLiteral(s: Stmt): (r: string)
    ensures s.LetStmt? ==> r == "let" && r == Literal(Let)
    ensures !s.LetStmt? ==> r == Literal(s.token)
  {
    match s
    case LetStmt(_, _, _) => "let"
    case ReturnStmt(t, _) => Literal(t)
    case ExprStmt(t, _) => Literal(t)
  }

  /** `Program::new`: the empty program. */
  function NewProgram(): (p: Program)
    ensures |p.statements| == 0
  {
    Program([])
  }

  /** `Program::token_literal`: the first statement's literal, or the empty string. */
  function ProgramTokenLiteral(p: Program): (s: string)
    ensures |p.statements| == 0 ==> s == ""
    ensures |p.statements| > 0 ==> s == StmtTokenLiteral(p.statements[0])
  {
    if |p.statements| == 0 then "" else StmtTokenLiteral(p.statements[0])
  }

  /** Concatenation of a sequence of strings. */
  function Concat(ss: seq<string>): string {
    if |ss| == 0 then "" else ss[0] + Concat(ss[1..])
  }

  /** The strings of `ss`, each followed by `sep`. */
  function Terminated(ss: seq<string>, sep: string): (r: seq<string>)
    ensures |r| == |ss| && forall i | 0 <= i < |ss| :: r[i] == ss[i] + sep
  {
    seq(|ss|, i requires 0 <= i < |ss| => ss[i] + sep)
  }

  /** The strings of `ss` separated by `sep`. */
  function Joined(ss: seq<string>, sep: string): string {
    if |ss| == 0 then "" else if |ss| == 1 then ss[0] else ss[0] + sep + Joined(ss[1..], sep)
  }

  /**
   The rendering of an expression. Operators are fully parenthesised and every
   call argument is followed by `", "`; conditionals and function literals
   follow the same scheme with their keywords spelled out.
   */
  function ExprString(e: Expr): string
    decreases e
  {
    match e
    case Name(id) => id.value
    case IntLiteral(t, _) => Literal(t)
    case Boolean(t, _) => Literal(t)
    case PrefixExpr(_, op, r) => "(" + op + ExprString(r) + ")"
    case InfixExpr(_, l, op, r) => "(" + ExprString(l) + " " + op + " " + ExprString(r) + ")"
    case IfExpr(_, c, cons, alt) =>
      "if" + ExprString(c) + " " + BlockString(cons) +
      (if alt.Some? then "else " + BlockString(alt.value) else "")
    case FnLiteral(_, ps, body) =>
      "fn(" + Joined(seq(|ps|, i requires 0 <= i < |ps| => ps[i].value), ", ") + ") " + BlockString(body)
    case CallExpr(_, f, args) =>
      ExprString(f) + "(" + Concat(Terminated(seq(|args|, i requires 0 <= i < |args| => ExprString(args[i])), ", ")) + ")"
  }

  function BlockString(b: Block): string
    decreases b
  {
    Concat(seq(|b.statements|, i requires 0 <= i < |b.statements| => StmtString(b.statements[i])))
  }

  function OptionString(e: Option<Expr>): string
    decreases e
  {
    if e.Some? then ExprString(e.value) else ""
  }

  function StmtString(s: Stmt): string
    decreases s
  {
    match s
    case LetStmt(_, name, value) =>
      "let " + (if name.Some? then name.value.value else "") + " = " + OptionString(value) + ";"
    case ReturnStmt(_, value) => "return " + OptionString(value) + ";"
    case ExprStmt(_, e) => OptionString(e)
  }
}
