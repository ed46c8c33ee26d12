/**
 The closed set of lexical tokens of the Monkey language, the canonical text of
 each token (`get_literal`) and the keyword table (`lookup_ident`).
 */
module Tokens {

  /** Every token the lexer can produce. Only `Ident` and `Int` carry text. */
  datatype Token =
    | Illegal
    | Eof
    | Assign
    | Plus
    | Minus
    | Bang
    | Asterisk
    | Slash
    | Lt
    | Gt
    | Eq
    | NotEq
    | Comma
    | Semicolon
    | Lparen
    | Rparen
    | Lbrace
    | Rbrace
    | Function
    | Let
    | True
    | False
    | If
    | Else
    | Return
    | Ident(name: string)
    | Int(digits: string)

  /** Tokens produced from a keyword. */
  predicate IsKeyword(t: Token) {
    t.Function? || t.Let? || t.True? || t.False? || t.If? || t.Else? || t.Return?
  }

  /** The words that `LookupIdent` turns into a keyword token. */
  predicate IsKeywordText(w: string) {
    w == "fn" || w == "let" || w == "true" || w == "false" || w == "if" || w == "else" || w == "return"
  }

  /** Canonical text of a token: the payload for `Ident` and `Int`, the symbol or keyword otherwise. */
  function Literal(t: Token): string {
    match t
    case Illegal => "ILLEGAL"
    case Eof => "EOF"
    case Assign => "="
    case Plus => "+"
    case Minus => "-"
    case Bang => "!"
    case Asterisk => "*"
    case Slash => "/"
    case Lt => "<"
    case Gt => ">"
    case Eq => "=="
    case NotEq => "!="
    case Comma => ","
    case Semicolon => ";"
    case Lparen => "("
    case Rparen => ")"
    case Lbrace => "{"
    case Rbrace => "}"
    case Function => "fn"
    case Let => "let"
    case True => "true"
    case False => "false"
    case If => "if"
    case Else => "else"
    case Return => "return"
    case Ident(w) => w
    case Int(d) => d
  }

  /**
   Classifies a word read by the lexer: a keyword becomes its keyword token,
   every other word an identifier carrying exactly that word.
   */
  function LookupIdent(w: string): (t: Token)
    ensures IsKeyword(t) || t == Ident(w)
    ensures IsKeyword(t) <==> IsKeywordText(w)
    ensures Literal(t) == w
  {
    match w
    case "fn" => Function
    case "let" => Let
    case "true" => True
    case "false" => False
    case "if" => If
    case "else" => Else
    case "return" => Return
    case _ => Ident(w)
  }

  /** The two-entry keyword table of the older `token.rs`, kept to relate it to `LookupIdent`. */
  function SnapshotLookupIdent(w: string): (t: Token)
    ensures t.Function? <==> w == "fn"
    ensures t.Let? <==> w == "let"
    ensures !t.Function? && !t.Let? ==> t == Ident(w)
  {
    match w
    case "fn" => Function
    case "let" => Let
    case _ => Ident(w)
  }

  /** `fn` and `let` are keywords in both tables. */
  lemma LookupIdentFnLet()
    ensures LookupIdent("fn") == Function && SnapshotLookupIdent("fn") == Function
    ensures LookupIdent("let") == Let && SnapshotLookupIdent("let") == Let
  {
  }

  /**
   The two tables differ only on the five keywords the older snapshot lacks;
   on every other word both give the same token.
   */
  lemma LookupIdentExtendsSnapshot(w: string)
    ensures LookupIdent(w) != SnapshotLookupIdent(w) <==>
      w in {"true", "false", "if", "else", "return"}
  {
  }

  /** Keywords and non-keyword identifiers re-lex to themselves from their literal text. */
  lemma LookupIdentLiteralRoundTrip(t: Token)
    requires IsKeyword(t) || (t.Ident? && !IsKeywordText(t.name))
    ensures LookupIdent(Literal(t)) == t
  {
  }
}
