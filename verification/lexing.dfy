/**
 The Monkey lexer: a cursor over the input text that yields one token per
 call. The Rust lexer keeps `position`, `read_position` and the current
 character `ch`; the last two are always `position + 1` and the character at
 `position` (absent past the end), so the model keeps only `position`.
 */
module Lexing {
  import opened Wrappers
  import opened Tokens

  datatype Lexer = Lexer(input: string, position: nat) {

    /** The index `read_char` reads next. */
    function ReadPosition(): nat {
      position + 1
    }

    /** The character under the cursor, `None` once the input is used up. */
    function Ch(): Option<char> {
      if position < |input| then Some(input[position]) else None
    }
  }

  /** A lexer positioned on the first character of `input`. */
  function New(input: string): (l: Lexer)
    ensures l.input == input && l.position == 0
    ensures l.Ch() == if |input| == 0 then None else Some(input[0])
  {
    Lexer(input, 0)
  }

  predicate IsLetter(c: char) {
    ('a' <= c <= 'z') || ('A' <= c <= 'Z') || c == '_'
  }

  predicate IsDigit(c: char) {
    '0' <= c <= '9'
  }

  predicate IsWhitespace(c: char) {
    c == ' ' || c == '\t' || c == '\n' || c == '\r'
  }

  /** One character of lookahead past the cursor; `'\0'` past the end. */
  function PeekChar(l: Lexer): (c: char)
    ensures l.position + 1 < |l.input| ==> c == l.input[l.position + 1]
    ensures l.position + 1 >= |l.input| ==> c == '\0'
  {
    if l.position + 1 < |l.input| then l.input[l.position + 1] else '\0'
  }

  /** Moves the cursor one character forward. */
  function ReadChar(l: Lexer): (r: Lexer)
    ensures r.input == l.input && r.position == l.ReadPosition()
  {
    l.(position := l.position + 1)
  }

  /** Moves the cursor past every space, tab, newline and carriage return. */
  function SkipWhitespace(l: Lexer): (r: Lexer)
    ensures r.input == l.input && l.position <= r.position
    ensures forall i | l.position <= i < r.position :: i < |l.input| && IsWhitespace(l.input[i])
    ensures l.position <= |l.input| ==> r.position <= |l.input|
    ensures r.Ch().None? || !IsWhitespace(r.Ch().value)
    decreases |l.input| - l.position
  {
    if l.position < |l.input| && IsWhitespace(l.input[l.position]) then
      SkipWhitespace(ReadChar(l))
    else
      l
  }

  /** The two classes of characters the lexer reads maximal runs of. */
  datatype Run = Letters | Digits

  predicate InRun(run: Run, c: char) {
    match run
    case Letters => IsLetter(c)
    case Digits => IsDigit(c)
  }

  /** The end of the maximal run of characters of class `run` that starts at `i`. */
  function ScanWhile(s: string, i: nat, run: Run): (e: nat)
    requires i <= |s|
    ensures i <= e <= |s|
    ensures forall k | i <= k < e :: InRun(run, s[k])
    ensures e == |s| || !InRun(run, s[e])
    decreases |s| - i
  {
    if i < |s| && InRun(run, s[i]) then ScanWhile(s, i + 1, run) else i
  }

  /** Reads the maximal run of letters under the cursor and returns it. */
  function ReadIdentifier(l: Lexer): (r: (string, Lexer))
    requires l.Ch().Some? && IsLetter(l.Ch().value)
    ensures r.1.input == l.input && l.position < r.1.position <= |l.input|
    ensures r.0 == l.input[l.position..r.1.position]
    ensures forall c | c in r.0 :: IsLetter(c)
    ensures r.1.Ch().None? || !IsLetter(r.1.Ch().value)
  {
    var e := ScanWhile(l.input, l.position, Letters);
    (l.input[l.position..e], l.(position := e))
  }

  /** Reads the maximal run of decimal digits under the cursor and returns it. */
  function ReadNumber(l: Lexer): (r: (string, Lexer))
    requires l.Ch().Some? && IsDigit(l.Ch().value)
    ensures r.1.input == l.input && l.position < r.1.position <= |l.input|
    ensures r.0 == l.input[l.position..r.1.position]
    ensures forall c | c in r.0 :: IsDigit(c)
    ensures r.1.Ch().None? || !IsDigit(r.1.Ch().value)
  {
    var e := ScanWhile(l.input, l.position, Digits);
    (l.input[l.position..e], l.(position := e))
  }

  /** The token of each single-character symbol. */
  function SymbolToken(c: char): (t: Option<Token>)
    ensures t.Some? ==> Literal(t.value) == [c]
  {
    match c
    case '-' => Some(Minus)
    case '+' => Some(Plus)
    case ';' => Some(Semicolon)
    case '(' => Some(Lparen)
    case ')' => Some(Rparen)
    case '{' => Some(Lbrace)
    case '}' => Some(Rbrace)
    case ',' => Some(Comma)
    case '<' => Some(Lt)
    case '>' => Some(Gt)
    case '*' => Some(Asterisk)
    case '/' => Some(Slash)
    case _ => None
  }

  /** True of the characters that begin some token other than `Illegal`. */
  predicate StartsToken(c: char) {
    SymbolToken(c).Some? || c == '=' || c == '!' || IsLetter(c) || IsDigit(c)
  }

  /**
   Skips whitespace, then reads one token. `Eof` is returned exactly when
   only whitespace is left; the cursor always moves forward, and a token
   other than `Eof` ends on a character that is not whitespace.
   */
  function NextToken(l: Lexer): (r: (Token, Lexer))
    ensures r.1.input == l.input && l.position < r.1.position
    ensures r.0 == Eof <==> SkipWhitespace(l).position >= |l.input|
    ensures r.0 != Eof ==> SkipWhitespace(l).position < r.1.position <= |l.input|
    ensures r.0 != Eof ==> !IsWhitespace(l.input[r.1.position - 1])
  {
    var s := SkipWhitespace(l);
    match s.Ch()
    case None => (Eof, ReadChar(s))
    case Some(c) =>
      if SymbolToken(c).Some? then
        (SymbolToken(c).value, ReadChar(s))
      else if c == '=' && PeekChar(s) == '=' then
        (Eq, ReadChar(ReadChar(s)))
      else if c == '=' then
        (Assign, ReadChar(s))
      else if c == '!' && PeekChar(s) == '=' then
        (NotEq, ReadChar(ReadChar(s)))
      else if c == '!' then
        (Bang, ReadChar(s))
      else if IsLetter(c) then
        var (w, s') := ReadIdentifier(s);
        (LookupIdent(w), s')
      else if IsDigit(c) then
        var (d, s') := ReadNumber(s);
        (Int(d), s')
      else
        (Illegal, ReadChar(s))
  }

  /** The tokens the lexer yields from `l` up to, and not including, the first `Eof`. */
  function TokenizeFrom(l: Lexer): (ts: seq<Token>)
    ensures Eof !in ts
    decreases |l.input| - l.position
  {
    var (t, l') := NextToken(l);
    if t == Eof then [] else [t] + TokenizeFrom(l')
  }

  /** The whole token stream of `input`, without the trailing `Eof`. */
  function Tokenize(input: string): seq<Token> {
    TokenizeFrom(New(input))
  }

  /** The `k`-th token of a stream, `Eof` past its end, as the lexer keeps returning `Eof`. */
  function TokenAt(ts: seq<Token>, k: nat): Token {
    if k < |ts| then ts[k] else Eof
  }

  /** The token returned by the `k`-th further call of `next_token` on `l`. */
  function NthToken(l: Lexer, k: nat): Token
    decreases k
  {
    var (t, l') := NextToken(l);
    if k == 0 then t else NthToken(l', k - 1)
  }
}
