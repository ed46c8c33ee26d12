# Monkey front end in Dafny

This project models the front end of the Rust implementation of the Monkey
language:

- the lexer, which turns source text into tokens one `next_token` call at a time;
- the token set and the keyword table `lookup_ident`;
- the syntax tree;
- the Pratt parser, which keeps a two-token window (`cur_token`, `peek_token`)
  over the lexer, dispatches on the current token to prefix and infix parse
  functions under a seven-level precedence ladder, and collects error messages.

Everything is pure. A lexer is the input text with a cursor. A parser is the
precomputed token stream with a position, the error list, and a flag that
records a panic. Each parse function returns the node it built, if any, with
the parser state after it. `Parsing.ParseInput` runs the lexer, then
`parse_program`.

Modules, in dependency order:

| module | file | contents |
|---|---|---|
| `Wrappers` | `wrappers.dfy` | `Option` |
| `Tokens` | `tokens.dfy` | the `Token` datatype, `get_literal` as `Literal`, `lookup_ident` |
| `Lexing` | `lexing.dfy` | the lexer: `new`, `read_char`, `peek_char`, `skip_whitespace`, `read_identifier`, `read_number`, `next_token` |
| `LexerFacts` | `lexer_facts.dfy` | what `next_token` returns for each kind of input, and the stream it yields |
| `LexicalGrammar` | `lexical_grammar.dfy` | a declarative lexical grammar, shown equivalent to the lexer |
| `LexerGoldens` | `lexer_goldens.dfy` | the lexer's sample program, lexed to the 48 tokens its test expects |
| `Ast` | `ast.dfy` | identifiers, expressions, blocks, statements, programs, and their rendering |
| `Numerals` | `numerals.dfy` | `str::parse::<i32>` and decimal text |
| `Parsing` | `parsing.dfy` | the parser: every parse function, `expect_peek`, `peek_error`, `parse_program` |
| `ParserFacts` | `parser_facts.dfy` | the precedence table, the infix loop, associativity, calls, statements and programs |
| `ParserForms` | `parser_forms.dfy` | prefix operators, integers, `let`/`return`, parameter and argument lists, the panic |
| `ParserBlocks` | `parser_blocks.dfy` | blocks, `if` expressions and function literals, tied to the sub-parses that build them |
| `ParserGoldens` | `goldens.dfy` | two golden inputs of `test_operator_precedence_parsing` from tokens to rendered text, and the function literal of `test_functional_literal_parsing` |
| `GoldenTexts` | `golden_texts.dfy` | the same two golden inputs, from their text through the lexer and the parser |

Design points:

- **Lexer state.** The Rust lexer keeps `position`, `read_position` and `ch`.
  `read_position` is always `position + 1`, and `ch` is the character at
  `position`, absent past the end. So the model keeps only `position`.
  `next_token` on exhausted input still advances the cursor, as the source does.
- **Token stream.** `Tokenize` is the list of tokens before the first `Eof`.
  The parser reads position `i` of it as `Eof` once `i` is past the end.
  `ParserForms.WindowIsTheLexer` proves this is exactly what the Rust window
  holds after the same number of `next_token` calls.
- **The panic.** `parse_call_arguments` calls `.expect` on its first argument.
  When that argument fails, the Rust parser panics. The model sets `panicked`,
  and `parse_program` then yields the outcome `Panicked`.
- **Keyword table.** The `Token` enum and `lookup_ident` in `src/token.rs` lag
  behind the lexer and parser: they lack `-`, `!`, `*`, `/`, `<`, `>`, `==`,
  `!=`, `true`, `false`, `if`, `else` and `return`. The model uses the full token set the lexer and parser
  use, and a keyword table with all seven keywords (`Tokens.LookupIdent`). The
  two-keyword table as written is kept as `Tokens.SnapshotLookupIdent`, and
  `Tokens.LookupIdentExtendsSnapshot` states exactly where the two differ.
- **Token text.** The lexer and the parser call `get_literal` on tokens, but
  `src/token.rs` as shown defines no `get_literal`. `Tokens.Literal`
  gives the payload of `Ident` and `Int`, the spelling of every symbol and
  keyword, and `EOF` / `ILLEGAL` for the other two.
- **Grouped expressions.** The code defines `parse_grouped_expression` but
  never registers it as a prefix function. The model follows the code: `(` in
  prefix position is a "no prefix parse function for ( found" error
  (`ParserForms.ParenthesisHasNoPrefix`), not a grouped expression.
- **Integer overflow.** `parse_integer_literal` returns `None` for a numeral
  outside the 32-bit range without recording an error. Its caller
  `parse_expression` then adds the "no prefix parse function" message for that
  numeral (`ParserForms.IntegerOutOfRange`).
- **Rendering.** The tests format expressions with `{}`, but `src/ast.rs`
  has no `Display` implementations. `Ast.ExprString` follows the golden strings of the parser's tests:
  operators fully parenthesised, every call argument followed by `", "`.

## Model

| member | source | states |
|---|---|---|
| Tokens.LookupIdent | src/token.rs:22-28 | a word becomes a keyword token exactly when it is one of the seven keywords; any other word becomes `Ident` carrying that word; the token's text is the word |
| Tokens.SnapshotLookupIdent | src/token.rs:22-28 | the table as written: `fn` gives `Function`, `let` gives `Let`, and every other word gives `Ident` of itself |
| Tokens.LookupIdentFnLet | src/token.rs:24-25 | `fn` and `let` are keywords in both tables |
| Tokens.LookupIdentExtendsSnapshot | src/token.rs:22-28 | the full table and the snapshot differ on a word exactly when it is `true`, `false`, `if`, `else` or `return` |
| Tokens.LookupIdentLiteralRoundTrip | src/token.rs:22-28 | looking up the text of a keyword, or of a non-keyword identifier, gives that token back |
| Lexing.New | src/lexer.rs:13-22 | a new lexer is at position 0 with the first character (or none) under the cursor |
| Lexing.PeekChar | src/lexer.rs:35-37 | the character after the cursor, or `'\0'` past the end |
| Lexing.ReadChar | src/lexer.rs:39-49 | the cursor moves to `read_position`, one further, on the same input |
| Lexing.SkipWhitespace | src/lexer.rs:51-58 | the cursor passes only space, tab, newline and carriage return, and stops on a non-blank character or the end |
| Lexing.ScanWhile | src/lexer.rs:99-104 | the end of the maximal run of one character class starting at the cursor |
| Lexing.ReadIdentifier | src/lexer.rs:109-119 | returns the maximal non-empty run of letters at the cursor, exactly the text between the old and new cursor |
| Lexing.ReadNumber | src/lexer.rs:97-107 | returns the maximal non-empty run of digits at the cursor, exactly the text between the old and new cursor |
| Lexing.SymbolToken | src/lexer.rs:62-73 | a single-character symbol's token is spelled by that character |
| Lexing.NextToken | src/lexer.rs:59-95 | the cursor always advances; `Eof` is returned exactly when only whitespace is left; any other token ends on a non-blank character after the skipped whitespace |
| Lexing.TokenizeFrom | src/lexer.rs:59-95 | the stream up to the first `Eof` contains no `Eof` |
| LexerFacts.SkipWhitespaceIdempotent | src/lexer.rs:51-58 | skipping whitespace twice is skipping it once |
| LexerFacts.WhitespaceIsNeverEmitted | src/lexer.rs:59-60 | leading whitespace does not change the token or the resulting cursor |
| LexerFacts.SkipWhitespaceThrough | src/lexer.rs:51-58 | skipping from any point inside a blank stretch ends where skipping from its start does |
| LexerFacts.TokenizeFromSkipsWhitespace | src/lexer.rs:59-60 | leading whitespace does not change the token stream |
| LexerFacts.MaximalRunIsScan | src/lexer.rs:99-116 | any maximal run of one character class is the one the scanning loop finds |
| LexerFacts.NextTokenEq | src/lexer.rs:74-77 | `==` gives one `Eq` token and consumes both characters |
| LexerFacts.NextTokenAssign | src/lexer.rs:78 | `=` not followed by `=` gives `Assign` and consumes one character |
| LexerFacts.NextTokenNotEq | src/lexer.rs:79-82 | `!=` gives one `NotEq` token and consumes both characters |
| LexerFacts.NextTokenBang | src/lexer.rs:83 | `!` not followed by `=` gives `Bang` and consumes one character |
| LexerFacts.NextTokenSymbol | src/lexer.rs:62-73 | each of the twelve one-character symbols gives its token, spelled by that character, and advances by one |
| LexerFacts.NextTokenWord | src/lexer.rs:84-86 | a maximal letter run is passed whole to `lookup_ident` and the cursor stops right after it |
| LexerFacts.NextTokenNumber | src/lexer.rs:87-89 | a maximal digit run gives `Int` carrying exactly that text, with no range check, and the cursor stops right after it |
| LexerFacts.NextTokenIllegal | src/lexer.rs:90-94 | a character that begins no token gives `Illegal` and the cursor moves past it |
| LexerFacts.NextTokenSpellsItsText | src/lexer.rs:59-95 | every token other than `Eof` and `Illegal` is spelled by exactly the text it was read from |
| LexerFacts.EofForever | src/lexer.rs:91-94 | once a call returns `Eof`, every later call returns `Eof` |
| LexerFacts.TokenizeIsTheStream | src/lexer.rs:59-95 | the `k`-th token of the tokenized stream is what the `k`-th further `next_token` call returns, `Eof` past its end |
| LexicalGrammar.SymbolTokenOfLiteral | src/lexer.rs:62-73 | each symbol's text maps back to that symbol |
| LexicalGrammar.KeywordIsLetters | src/lexer.rs:24-29 | every keyword is made of letters, so the word scanner reads it |
| LexicalGrammar.ReadsWordIsNextToken | src/lexer.rs:84-86 | a word the grammar reads is the token and end the lexer returns |
| LexicalGrammar.ReadsSymbolIsNextToken | src/lexer.rs:62-73 | a symbol the grammar reads is the token and end the lexer returns |
| LexicalGrammar.ReadsOperatorIsNextToken | src/lexer.rs:74-83 | an `=`, `==`, `!` or `!=` the grammar reads is the token and end the lexer returns |
| LexicalGrammar.ReadsTokenIsNextToken | src/lexer.rs:59-95 | soundness: after blanks, whatever lexeme the grammar reads is exactly what `next_token` returns |
| LexicalGrammar.NextLexeme | src/lexer.rs:59-95 | the lexeme of a `next_token` call carries the returned token and ends at the new cursor |
| LexicalGrammar.WordIsReadsToken | src/lexer.rs:84-86 | the lexer's word token is a lexeme of the grammar |
| LexicalGrammar.NumberIsReadsToken | src/lexer.rs:87-89 | the lexer's number token is a lexeme of the grammar |
| LexicalGrammar.OperatorIsReadsToken | src/lexer.rs:74-83 | the lexer's `=`/`!` family token is a lexeme of the grammar |
| LexicalGrammar.SymbolIsReadsToken | src/lexer.rs:62-73 | the lexer's symbol token is a lexeme of the grammar |
| LexicalGrammar.NextTokenIsReadsToken | src/lexer.rs:59-95 | completeness: every token other than `Eof` is a lexeme of the grammar, preceded only by blanks |
| LexicalGrammar.ReadsTokenIsUnique | src/lexer.rs:59-95 | the grammar reads at most one lexeme after a stretch of blanks |
| LexicalGrammar.LexesIsTokenize | src/lexer.rs:59-95 | any lexeme sequence the grammar accepts for the text gives exactly the tokenized stream |
| LexicalGrammar.LexemesFrom | src/lexer.rs:59-95 | the lexer's stream is always a lexeme sequence the grammar accepts |
| LexicalGrammar.LexesIsUnique | src/lexer.rs:59-95 | the grammar accepts at most one lexeme sequence for a text |
| Ast.NewIdentifier | src/ast.rs:36-41 | an identifier's value equals its token's literal |
| Ast.NewLetStatement | src/ast.rs:67-73 | a new let statement has neither name nor value |
| Ast.NewProgram | src/ast.rs:82-86 | a new program has no statements |
| Ast.StmtTokenLiteral | src/ast.rs:52-56 | a let statement's literal is `let`, the text of the `let` keyword, whatever token it holds |
| Ast.ProgramTokenLiteral | src/ast.rs:87-92 | the first statement's literal, or the empty string for an empty program |
| Numerals.ParseI32 | src/parser.rs:207 | succeeds exactly on an optional sign followed by digits whose value fits in 32 bits, and returns that value |
| Numerals.DigitsValueOfDecimal | src/parser.rs:207 | reading back the decimal text of a number gives the number |
| Numerals.ParseI32OfDecimal | src/parser.rs:207 | parsing inverts decimal rendering on the non-negative 32-bit range |
| Numerals.ParseI32OfDigits | src/parser.rs:207 | on a digit run, as the lexer produces, parsing fails exactly on overflow |
| Numerals.ParseI32OfShortNumeral | src/parser.rs:207 | a numeral of at most nine digits always parses to its value |
| Parsing.PrecedenceOf | src/parser.rs:24-37 | `==`/`!=` bind at `Equals`, `<`/`>` at `LessGreater`, `+`/`-` at `Sum`, `*`/`/` at `Product`, `(` at `Call`, and no token at `Prefix` |
| Parsing.NewParser | src/parser.rs:50-60 | a new parser has the first two tokens in its window and no errors |
| Parsing.ExpectPeek | src/parser.rs:451-458 | on a match it advances exactly one token and adds no error; otherwise it adds one "expected next token" message and stays put |
| Parsing.SkipSemicolon | src/parser.rs:153-155 | a trailing `;` is consumed only if present, and nothing else changes |
| Parsing.ParseIntegerLiteral | src/parser.rs:204-219 | an integer node exactly when the token text is a 32-bit decimal, carrying its value |
| Parsing.ParseBoolean | src/parser.rs:245-252 | a boolean node whose value is true exactly for the `true` token |
| Parsing.ParseExpression | src/parser.rs:177-202 | errors only grow; failure adds an error; on success the next token no longer binds at the given precedence |
| Parsing.PrefixParse | src/parser.rs:62-79 | a token without a prefix function gives nothing and changes nothing; an identifier gives its name |
| Parsing.InfixLoop | src/parser.rs:194-199 | the loop runs while the next token binds tighter than the minimum and stops where it no longer binds |
| Parsing.InfixParse | src/parser.rs:82-95 | an operator builds an infix node and `(` a call, each on the given left operand |
| Parsing.ParsePrefixExpression | src/parser.rs:221-230 | a prefix node with the operator's token and text, and its operand parsed at `Prefix` |
| Parsing.ParseInfixExpression | src/parser.rs:232-243 | an infix node on the left operand, its right operand parsed at the operator's own precedence |
| Parsing.ParseIf | src/parser.rs:254-286 | a failure adds an error; a conditional ends on `}` or at the end of input |
| Parsing.ParseIfBranches | src/parser.rs:262-286 | the conditional keeps its condition and ends on `}` or at the end of input |
| Parsing.ParseBlock | src/parser.rs:288-305 | a block keeps its opening token and ends on `}` or at the end of input |
| Parsing.BlockLoop | src/parser.rs:293-299 | statements are only appended, until `}` or the end of input |
| Parsing.ParseFunctionLiteral | src/parser.rs:307-324 | a failure adds an error; a function literal ends on `}` or at the end of input |
| Parsing.ParseParameters | src/parser.rs:326-360 | success ends on `)` with no new error; `()` gives no parameters and advances one token |
| Parsing.ParameterLoop | src/parser.rs:343-353 | the identifiers read are comma separated, two tokens apiece, and the loop stops before a token that is not a comma |
| Parsing.ParseCallExpression | src/parser.rs:362-369 | a call on the given callee, ending on `)` |
| Parsing.ParseCallArguments | src/parser.rs:371-396 | `()` gives no arguments; a non-empty list ends on `)`; a failure adds an error |
| Parsing.ArgumentLoop | src/parser.rs:383-389 | arguments are only appended, and the loop stops before a token that is not a comma |
| Parsing.ParseStatement | src/parser.rs:125-135 | dispatches on `let`, `return` and everything else; an expression statement is produced even when its expression fails |
| Parsing.ParseLetStatement | src/parser.rs:137-158 | without an identifier it gives nothing and records nothing; without `=` it records one error; a let statement names the identifier |
| Parsing.ParseReturnStatement | src/parser.rs:160-170 | always a return statement, with a trailing `;` consumed if present |
| Parsing.ParseExpressionStatement | src/parser.rs:410-421 | always an expression statement carrying the first token |
| Parsing.ProgramLoop | src/parser.rs:98-103 | statements are only appended, at most one per token, until `Eof` |
| Parsing.ParseProgram | src/parser.rs:96-105 | no more statements than tokens; empty input is the empty program with no errors |
| ParserFacts.PrecedenceTable | src/parser.rs:8-37 | which tokens map to each level, and the strict order of the seven levels |
| ParserFacts.InfixTableMatchesPrecedence | src/parser.rs:82-95 | a token has an infix function exactly when its precedence is above `Lowest`, and operators rank below `Prefix` |
| ParserFacts.OperatorBinds | src/parser.rs:194 | an operator of higher precedence than the minimum continues the loop |
| ParserFacts.CallBinds | src/parser.rs:194 | `(` continues the loop below `Call` |
| ParserFacts.OperatorStops | src/parser.rs:194 | an operator of no higher precedence than the minimum ends the loop |
| ParserFacts.EndStops | src/parser.rs:194 | a next token of precedence `Lowest` (`;`, `)`, `,`, `}`, the end of input and every non-operator) ends the loop |
| ParserFacts.LoopStops | src/parser.rs:194-201 | when the loop does not run, the left operand is the result and the state is unchanged |
| ParserFacts.AtomPrefix | src/parser.rs:62-79 | an identifier, short integer or boolean is its own node and consumes nothing |
| ParserFacts.AtomExpression | src/parser.rs:177-199 | an expression starting with an atom is the infix loop on that atom |
| ParserFacts.AtomAlone | src/parser.rs:177-201 | an atom followed by a non-binding token is the whole expression |
| ParserFacts.LoopBinary | src/parser.rs:194-199 | one loop step builds the binary node with the right operand parsed at the operator's precedence |
| ParserFacts.LoopCall | src/parser.rs:194-199 | one loop step on `(` builds a call, or fails when the arguments fail |
| ParserFacts.FinalOperation | src/parser.rs:194-199 | a last operation before an expression end extends the left operand once |
| ParserFacts.OperationCloses | src/parser.rs:177-202 | `x op y` followed by an expression end parses to one binary node |
| ParserFacts.GroupsLeft | src/parser.rs:194-199 | `x o1 y o2 z` groups to the left when `o2` binds no tighter than `o1` |
| ParserFacts.GroupsRight | src/parser.rs:232-243 | `x o1 y o2 z` groups to the right when `o2` binds tighter than `o1` |
| ParserFacts.OneArgument | src/parser.rs:371-396 | one argument followed by `)` is a one-element list ending on `)` |
| ParserFacts.OperationArgument | src/parser.rs:371-396 | `(x op y)` is a one-argument list holding the binary node |
| ParserFacts.CallOfOperation | src/parser.rs:362-396 | `f(x op y)` parses to a call of `f` on the binary node |
| ParserFacts.BinaryRender | src/parser.rs:875-876 | a binary node renders as `(l op r)` |
| ParserFacts.CallRender | src/parser.rs:877 | a one-argument call renders as `f(a, )` |
| ParserFacts.CallOperandGroupsLeft | src/parser.rs:877 | `a o1 f(b o c) o2 d` groups to the left when `o2` binds no tighter than `o1` |
| ParserFacts.ExpressionStatementStep | src/parser.rs:410-421 | a statement not starting with `let` or `return` is the expression statement of its expression |
| ParserFacts.ProgramEnds | src/parser.rs:98 | the program loop stops at `Eof` |
| ParserFacts.ProgramStep | src/parser.rs:98-103 | each statement is appended in source order and the window then moves one token on |
| ParserFacts.ProgramOutcome | src/parser.rs:96-105 | without a panic the result is the collected statements with the collected errors |
| ParserFacts.SingleExpressionProgram | src/parser.rs:96-105 | an input that is one expression is a one-statement program with no errors |
| ParserForms.NoPrefixError | src/parser.rs:172-187 | a token without a prefix function gives no expression and exactly one "no prefix parse function" message |
| ParserForms.ParenthesisHasNoPrefix | src/parser.rs:62-79 | `(` in prefix position is an error, since grouped expressions are not registered |
| ParserForms.ParenthesisMessage | src/parser.rs:172-175 | the message for `(` is "no prefix parse function for ( found" |
| ParserForms.IntegerInRange | src/parser.rs:204-209 | a digit run that fits in 32 bits is an integer node carrying its decimal value |
| ParserForms.IntegerOutOfRange | src/parser.rs:204-219 | an overflowing digit run gives no node, and the expression records one "no prefix parse function" message |
| ParserForms.PrefixOperandStops | src/parser.rs:228 | at `Prefix` only `(` continues the operand |
| ParserForms.PrefixOperand | src/parser.rs:221-230 | the prefix node wraps the operand parsed at `Prefix` |
| ParserForms.PrefixStart | src/parser.rs:177-199 | after a prefix node the infix loop continues from it |
| ParserForms.PrefixOfAtom | src/parser.rs:221-230 | `!x` or `-x` on an atom is the prefix node, and the loop continues after it |
| ParserForms.PrefixBindsTighter | src/parser.rs:221-243 | `-x op y` is `((-x) op y)`: the prefix binds tighter than every infix operator |
| ParserForms.LetSteps | src/parser.rs:137-158 | a let statement with its name, the value parsed at `Lowest`, and a trailing `;` consumed if present |
| ParserForms.LetOfAtom | src/parser.rs:137-158 | `let x = atom` is a let statement with that name and value |
| ParserForms.SkipSemicolonStep | src/parser.rs:153-155 | exactly one `;` is consumed when it is next |
| ParserForms.ReturnSteps | src/parser.rs:160-170 | a return statement of the expression parsed at `Lowest`, with a trailing `;` consumed if present |
| ParserForms.ExpressionSteps | src/parser.rs:410-421 | an expression statement of the expression parsed at `Lowest`, kept even when it fails |
| ParserForms.StatementLiteral | src/parser.rs:125-135 | a parsed statement's literal is the text of the token it starts at, `let` included |
| ParserForms.ParameterLoopStep | src/parser.rs:343-353 | each `, name` step appends the identifier read after the comma |
| ParserForms.ParameterLoopReads | src/parser.rs:343-353 | the loop reads exactly the comma-separated identifiers in source order |
| ParserForms.ParametersSteps | src/parser.rs:326-360 | the list is the first identifier then the loop's; a missing `)` gives nothing with one error |
| ParserForms.ParametersOfList | src/parser.rs:326-360 | `(x, y, z)` gives exactly `x, y, z` in order; a missing `)` gives nothing and one error |
| ParserForms.ParametersAreListed | src/parser.rs:326-360 | any successful non-empty list is the comma-separated identifiers after `(`, two tokens apiece |
| ParserForms.ArgumentsSteps | src/parser.rs:371-396 | the first argument then the loop's; a missing `)` gives nothing with one error |
| ParserForms.FirstArgumentFails | src/parser.rs:378-379 | a failing first argument panics |
| ParserForms.ArgumentTaken | src/parser.rs:383-388 | a later argument that parses is appended |
| ParserForms.ArgumentDropped | src/parser.rs:386-388 | a later argument that fails is dropped silently |
| ParserForms.CallWithoutFirstArgument | src/parser.rs:379 | `f(` followed by a token without a prefix function panics |
| ParserForms.PanicAbortsProgram | src/parser.rs:96-105 | a panic in the first statement aborts the whole parse |
| ParserForms.CallWithoutFirstArgumentPanics | src/parser.rs:379 | a program starting `f(` and a token without a prefix function ends in a panic |
| ParserForms.WindowIsTheLexer | src/parser.rs:120-123 | the parser's window at position `i` holds the lexer's `i`-th and `i+1`-th tokens |
| ParserGoldens.ComparisonParse | src/parser.rs:875 | `3 > 5 == false` parses to one statement holding `((3 > 5) == false)` as a tree, with no errors |
| ParserGoldens.ComparisonRender | src/parser.rs:875 | that tree renders as `((3 > 5) == false)` |
| ParserGoldens.ComparisonChain | src/parser.rs:875 | the program has one statement, no errors, and renders as `((3 > 5) == false)` |
| ParserGoldens.CallInSumParse | src/parser.rs:877 | `a + add(b * c) + d` parses to one statement holding the left-grouped tree, with no errors |
| ParserGoldens.CallInSumRender | src/parser.rs:877 | that tree renders as `((a + add((b * c), )) + d)` |
| ParserGoldens.CallInSum | src/parser.rs:877 | the program has one statement, no errors, and renders as `((a + add((b * c), )) + d)` |
| ParserGoldens.FunctionParameters | src/parser.rs:908 | in `fn(x,y){ x+y; }`, the parameter list after `fn` is `x, y`, ending on the `)` |
| ParserGoldens.FunctionBodyParse | src/parser.rs:908 | in `fn(x,y){ x+y; }`, the body is one expression statement holding `x + y`, ending on the `}` |
| ParserGoldens.FunctionParse | src/parser.rs:906-914 | `fn(x,y){ x+y; }` parses to one expression statement holding that function literal, with no errors |
| ParserGoldens.FunctionLiteralGolden | src/parser.rs:906-940 | the checks of `test_functional_literal_parsing`: one statement, a function literal with parameters `x` and `y`, and a body of one statement holding `x + y` |
| ParserBlocks.BlockEnds | src/parser.rs:293 | the block loop stops at `}` or at the end of input and keeps what it has collected |
| ParserBlocks.BlockStep | src/parser.rs:293-299 | a statement that parses is appended, and the loop goes on after the token where it ended |
| ParserBlocks.BlockSkip | src/parser.rs:293-299 | a statement that fails is dropped, and the loop goes on after the token where it ended |
| ParserBlocks.BlockOfLoop | src/parser.rs:288-305 | a block keeps its `{` token and holds exactly the statements of the loop started after it |
| ParserBlocks.BlockOfOne | src/parser.rs:288-305 | `{` then one statement then `}` is a block holding that statement alone, ending on the `}` |
| ParserBlocks.IfSteps | src/parser.rs:254-263 | a missing `(` or `)` fails with its peek error; a failing condition fails the whole; otherwise the branches follow with that condition |
| ParserBlocks.IfWithoutElse | src/parser.rs:265-286 | without `else`, the consequence is the block after `{` and there is no alternative |
| ParserBlocks.IfWithElse | src/parser.rs:265-286 | with `else {`, the alternative is the block after it and the expression ends where that block ends |
| ParserBlocks.IfMissingBrace | src/parser.rs:265-276 | a missing `{` after `)` or after `else` fails with the peek error for `{` |
| ParserBlocks.IfParts | src/parser.rs:254-286 | an `if` that parses has the condition after `(`, then `)` and `{`, the consequence block, and an alternative exactly when `else` follows |
| ParserBlocks.FunctionLiteralSteps | src/parser.rs:307-324 | a missing `(` or `{` fails with its peek error; failing parameters fail the whole; otherwise the literal holds the parameters and the body block |
| ParserBlocks.FunctionLiteralExpression | src/parser.rs:177-202 | a function literal followed by a token that binds no tighter is the whole expression |
| LexerGoldens.TokenizeStep | src/lexer.rs:59-95 | a lexeme the grammar reads after blanks is what `next_token` returns there, so its token heads the stream from the start of the blanks |
| LexerGoldens.SampleTokenizes | src/lexer.rs:128-193 | the eight-line sample program lexes to exactly the 48 tokens the test lists, in order, and then to `Eof` |
| GoldenTexts.ComparisonTokenizes | src/parser.rs:875 | the text `3 > 5 == false` lexes to `Int("3")`, `>`, `Int("5")`, `==`, `false` |
| GoldenTexts.ComparisonFromText | src/parser.rs:875 | from its text, `3 > 5 == false` parses to one statement, with no errors, rendering as `((3 > 5) == false)` |
| GoldenTexts.CallInSumTokenizes | src/parser.rs:877 | the text `a + add(b * c) + d` lexes to its ten tokens |
| GoldenTexts.CallInSumFromText | src/parser.rs:877 | from its text, `a + add(b * c) + d` parses to one statement, with no errors, rendering as `((a + add((b * c), )) + d)` |

## Left out

- The REPL and `main` (`src/repl.rs`, `src/main.rs`): terminal I/O, the prompt, the banner and the external `users` crate.
- The `eprintln!` diagnostics in `parse_expression` and `parse_integer_literal`: they print and do not touch the error list.
- Unicode: `is_digit` uses `char::is_numeric`, which also accepts non-ASCII numerals, and the lexer mixes character indices with byte slices. The model reads ASCII digits `'0'..'9'` and indexes characters.
- The panic in `parse_call_arguments` is a flag, not an unwinding. Nothing after the panic is modelled beyond the `Panicked` outcome.
- `parse_grouped_expression`: it is never registered, so no input reaches it.
- Rust mechanics: trait objects, `as_any` downcasts, lifetimes and the `&mut Lexer` borrow are replaced by datatypes and a precomputed token stream.
- `statement_type` and the `Node` trait's unit methods carry no behaviour.
- Of the parser's golden inputs, `3 > 5 == false` and `a + add(b * c) + d` are lexed from their text and `fn(x,y){ x+y; }` is parsed from its tokens. The inputs of the `let`, `return`, identifier, boolean, integer, prefix and infix tests, and the rest of the precedence table, have no lemma of their own; the general lemmas (`ParserForms.LetSteps`, `ParserForms.ReturnSteps`, `ParserForms.PrefixOfAtom`, `ParserFacts.OperationCloses`) state their shapes.
- The golden inputs `add(a + b + c * d / f + g)` and `add(a, b, add(b, c))` are not replayed. The general lemmas on grouping, argument lists and calls state their parts.
- ParserFacts.AtomPrefix: an atom is an identifier, a boolean, or an integer of at most nine digits, so that it always parses. Longer numerals are covered by `ParserForms.IntegerInRange` and `ParserForms.IntegerOutOfRange`.
- Parsing.ParseIf: states only that a failure adds an error and where a conditional ends; `ParserBlocks.IfSteps`, `ParserBlocks.IfWithoutElse`, `ParserBlocks.IfWithElse`, `ParserBlocks.IfMissingBrace` and `ParserBlocks.IfParts` state its parts and errors.
- Parsing.ParseFunctionLiteral: does not state the parameter list or the body; `ParserBlocks.FunctionLiteralSteps` ties both to their sub-parses, and `ParserForms.ParametersOfList` and `ParserForms.ParametersAreListed` state the list.
- Parsing.ParseIfBranches: states only the condition kept and where the conditional ends; `ParserBlocks.IfWithoutElse`, `ParserBlocks.IfWithElse` and `ParserBlocks.IfMissingBrace` state the branches.
- Parsing.BlockLoop: states only that statements are appended; `ParserBlocks.BlockEnds`, `ParserBlocks.BlockStep` and `ParserBlocks.BlockSkip` state each round.
- Parsing.ParseBlock: states only the opening token and where a block ends; `ParserBlocks.BlockOfLoop`, `ParserBlocks.BlockEnds`, `ParserBlocks.BlockStep` and `ParserBlocks.BlockSkip` state which statements it holds.
- Ast.ExprString: the renderings of `if` expressions and function literals, and `Ast.StmtString` for `let` and `return` statements, are a convention of this model, since no test renders them and `src/ast.rs` has no `Display` implementations.
- Parsing.ParseReturnStatement: does not state the value; `ParserForms.ReturnSteps` does.
- Parsing.ParseCallExpression: does not state the arguments; `ParserForms.ArgumentsSteps` does.
- Parsing.ParseLetStatement: does not state the value; `ParserForms.LetSteps` does.
- Parsing.ParseExpressionStatement: does not state the expression; `ParserForms.ExpressionSteps` does.
- Parsing.ParseParameters: does not state the identifiers of a non-empty list; `ParserForms.ParametersOfList` and `ParserForms.ParametersAreListed` do.
- Parsing.ParseCallArguments: does not state the arguments of a non-empty list; `ParserForms.ArgumentsSteps`, `ParserForms.ArgumentTaken` and `ParserForms.ArgumentDropped` state each step, and no lemma characterises the whole list for every input.
- Parsing.ProgramLoop: does not state which statements are collected; `ParserFacts.ProgramStep` and `ParserFacts.ProgramEnds` state each round.
- Ast.StmtTokenLiteral: the source defines `token_literal` for let statements only, so the literals of `return` and expression statements (the token's text) are a convention of this model, and `Ast.ProgramTokenLiteral` inherits it.
- Token equality is structural and includes the payload; Dafny datatype equality gives this without a lemma.
