# Monkey front end: lexer and let-statement parser

This project models the two stages of the Monkey interpreter's front end in
Dafny and proves properties of them.

- **Lexer.** A cursor runs over the input bytes (`position`, `read_position`, `ch`, with `0` as the past-the-end sentinel) and hands out one token per `next_token` call. It reads `==` and `!=` with one byte of lookahead, the fixed one-byte symbols, maximal letter runs looked up in the keyword table, maximal digit runs converted to a 64-bit integer (or `ILLEGAL`), and `ILLEGAL` for any other byte.
- **Parser.** It keeps a current token and one token of lookahead. It reads a program as a sequence of statements. Only `let` statements have content: a name, then `=`, then tokens skipped up to the next `;`. `return` and every other token yield data-less statement markers.

Layout, one module per source file plus helpers:

- `bytes.dfy` (`Bytes`): the byte type, ASCII text conversion and `is_digit`.
- `tokens.dfy` (`Tokens`): the token kinds, `Literal`, `Token`, `lookup_ident`, `int_literal` and `is_eof`.
- `lexer.dfy` (`Lexing`): the state-free function `Lex(input, pos)` and the class `Lexer`.
  - `Lex` gives the token one `next_token` call returns from cursor `pos`, and where it leaves the cursor.
  - The class has the source's fields, and its methods map one-to-one onto the source's methods.
  - `NextToken` is proved to return exactly `Lex(input, old(position))`.
- `lexer_facts.dfy` (`LexerFacts`): what `Lex` promises. This covers maximal runs, two-byte operators, the places `ILLEGAL` and `EOF` come from, and `EOF` forever at the end.
- `lexer_windows.dfy` (`LexerWindows`): locality lemmas. A token read from a short window of an input is the token read from the whole input.
- `lexer_spacing.dfy` (`LexerSpacing`): whitespace between tokens does not matter. Replacing one non-empty whitespace run by another leaves the token stream unchanged.
- `lexer_samples.dfy` (`LexerSamples`): the lexer's unit-test inputs, with the token kinds each one lexes to.
- `ast.dfy` (`Ast`): `Identifier`, `Expression`, `Statement`, `Program`, and `Identifier::new`.
- `parser.dfy` (`Parsing`): the parser as state-free functions over a state `PState(token, peek, pos)`, plus the class `Parser`.
  - `pos` is the lexer's cursor.
  - Each method of `Parser` is proved to agree with its function.
- `parser_samples.dfy` (`ParserSamples`): whole programs parsed. These are the parser's unit-test input and four inputs that reach each error and each statement kind.

A `panic!` in `parse_let_statement` becomes the outcome `Fatal(e)`. Here `e` names the check that failed and the kind of the token actually found. The skip loop `while !token.is_semicolon()` runs forever when no `;` follows, because the lexer keeps returning `EOF`. The model gives that case the distinct outcome `Diverges`. It is reached as soon as the current token is an `EOF` and the lexer has passed the end of the input. From there every later token is `EOF` as well (`Parsing.ExhaustedForever`). The parser functions and methods therefore terminate on every input, and `Parsing.LetStatementDiverges` proves that `Diverges` means that no `;` ever comes.

## Model

| member | source | states |
|---|---|---|
| Tokens.Literal.ToString | lib/lexer/token.rs:59-61 | For ASCII bytes, the text has the same characters, in order and of the same length |
| Tokens.Token.IsEof | lib/lexer/token.rs:102-104 | True exactly when the token's kind is `EOF` |
| Tokens.Token.IsSemicolon | lib/parser/mod.rs:74 | True exactly when the token's kind is `SEMICOLON` |
| Tokens.KeywordSpelling | lib/lexer/token.rs:81-88 | Each keyword kind has a non-empty, lower-case ASCII spelling in the keyword table |
| Tokens.LookupIdent | lib/lexer/token.rs:78-91 | The result is `IDENT` or one of the seven keywords, and an `IDENT` carries exactly the literal's text |
| Tokens.LookupIdentCases | lib/lexer/token.rs:78-91 | The result is either the keyword the text spells, or `IDENT` carrying exactly the text; an `IDENT` result is never a keyword spelling |
| Tokens.LookupKeyword | lib/lexer/token.rs:81-88 | Looking up a keyword's spelling gives that keyword |
| Tokens.ParseI64 | lib/lexer/token.rs:96 | As Rust's `str::parse::<i64>` on the bytes: success needs a non-empty string of digits, optionally after one `+` or `-` that is not the whole string, and a value within i64. Any other byte, such as whitespace, is rejected. An unsigned digit string parses to its decimal value |
| Tokens.IntLiteral | lib/lexer/token.rs:93-100 | The result is `INT` or `ILLEGAL`, and empty text is `ILLEGAL` |
| Tokens.IntLiteralCases | lib/lexer/token.rs:93-100 | The result is `INT` or `ILLEGAL`; empty text is `ILLEGAL`; for a digit string the result is `INT` exactly when its decimal value is at most 2^63-1, and then it is `INT` of that value |
| Tokens.IntLiteralOfRendering | lib/lexer/token.rs:96-97 | The decimal rendering of any value at most 2^63-1, with any number of leading zeros, is `INT` of that value |
| Tokens.IntLiteralOverflow | lib/lexer/token.rs:98 | A digit string whose value exceeds 2^63-1 is `ILLEGAL`, with or without leading zeros |
| Tokens.DecimalRoundTrip | lib/lexer/token.rs:96 | Reading a rendered number back as decimal digits gives the number |
| Bytes.IsDigit | lib/lexer/mod.rs:127-129 | A digit is a non-zero ASCII byte |
| Lexing.IsLetter | lib/lexer/mod.rs:123-125 | A letter is a non-zero ASCII byte and not a digit |
| Lexing.IsWhitespace | lib/lexer/mod.rs:104 | Whitespace is a non-zero ASCII byte that is neither a letter nor a digit |
| Lexing.RunEnd | lib/lexer/mod.rs:82-94 | The run from `p` ends at or after `p`, inside the input unless it is empty, and on a byte that fails the predicate |
| Lexing.RunEndInside | lib/lexer/mod.rs:87-91 | Every byte of the run lies inside the input and satisfies the predicate, so the run is maximal |
| Lexing.RunEndAt | lib/lexer/mod.rs:87-91 | Any position reached through satisfying bytes that stops on a failing byte is the run's end |
| Lexing.SkipEnd | lib/lexer/mod.rs:103-107 | The skip ends at or after the cursor, on a byte that is not whitespace (possibly the sentinel), and inside the input unless nothing was skipped |
| Lexing.SymbolName | lib/lexer/mod.rs:28-46 | A fixed symbol is not the sentinel, a letter, a digit, whitespace, `=` or `!` |
| Lexing.Punct | lib/lexer/mod.rs:20-46 | The token is `EOF` exactly for the sentinel; its literal is the one byte read (the cursor moves one byte), or `==` or `!=` (the cursor moves two) |
| Lexing.Word | lib/lexer/mod.rs:47-53 | A letter run's token is not `EOF`, and the cursor ends at the run's end, inside the input |
| Lexing.WordToken | lib/lexer/mod.rs:49-52 | A word's token has the letters as its literal |
| Lexing.Number | lib/lexer/mod.rs:54-58 | A digit run's token is not `EOF`, and the cursor ends at the run's end, inside the input |
| Lexing.NumberToken | lib/lexer/mod.rs:55-58 | A number's token has the digits as its literal |
| Lexing.Scan | lib/lexer/mod.rs:17-66 | The cursor moves past exactly the literal's bytes; the literal is non-empty; the token is `EOF` exactly on a 0 byte or past the end |
| Lexing.ScanLiteral | lib/lexer/mod.rs:17-66 | Except for an end-of-input `EOF`, a token's literal is exactly the input bytes the call consumed |
| Lexing.Lex | lib/lexer/mod.rs:14-67 | Every call moves the cursor forward; a token other than `EOF` ends inside the input |
| Lexing.Lexer.constructor | lib/lexer/mod.rs:110-121 | The cursor invariant holds, with the cursor on byte 0 of the input (the sentinel for an empty input) |
| Lexing.Lexer.ReadChar | lib/lexer/mod.rs:69-79 | The cursor moves to the old `read_position`, the invariant is kept (`read_position == position + 1`, and `ch` is the byte there or 0 past the end), and the byte is returned |
| Lexing.Lexer.PeekChar | lib/lexer/mod.rs:96-101 | Returns the byte after the cursor, or 0 past the end, without changing the state |
| Lexing.Lexer.SkipWhitespace | lib/lexer/mod.rs:103-107 | The cursor ends where the whitespace run from the old cursor ends |
| Lexing.Lexer.ReadChars | lib/lexer/mod.rs:82-94 | The cursor ends at the end of the maximal run, and the literal is exactly the run's bytes |
| Lexing.Lexer.NextToken | lib/lexer/mod.rs:14-67 | Returns the token `Lex` gives from the old cursor, and leaves the cursor where `Lex` says |
| LexerFacts.LexAtEnd | lib/lexer/mod.rs:70-71 | At or past the end, a call returns `EOF` with the sentinel literal and moves the cursor one step |
| LexerFacts.SkipsOnlyWhitespace | lib/lexer/mod.rs:103-107 | Every skipped byte lies inside the input and is whitespace, and the byte where the skip stops is not whitespace |
| LexerFacts.EofForever | lib/lexer/mod.rs:64 | Once the cursor is at or past the end, every later call returns `EOF` again |
| LexerFacts.LetterAndDigitClasses | lib/lexer/mod.rs:290-326 | No byte is both a letter and a digit; the bytes the unit tests try are classified as the tests expect |
| LexerFacts.LexTwoCharOperators | lib/lexer/mod.rs:21-36 | `=` or `!` followed by `=` is one `EQ`/`NOTEQ` with a two-byte literal; otherwise it is `ASSIGN`/`BANG`, one byte wide |
| LexerFacts.NoOperatorElsewhere | lib/lexer/mod.rs:21-36 | `EQ`, `ASSIGN`, `NOTEQ` and `BANG` come only from `=` or `!` |
| LexerFacts.LexSymbol | lib/lexer/mod.rs:28-46 | A fixed symbol after the whitespace is its own kind, with a one-byte literal, and the cursor moves past it |
| LexerFacts.LexLetterRun | lib/lexer/mod.rs:47-53 | A letter starts a maximal run of `[A-Za-z_]`; the token's literal is the run, and the cursor stops on the first byte outside the class |
| LexerFacts.LexIdent | lib/lexer/mod.rs:49-52 | An `IDENT` token carries exactly its literal's text; the literal is a maximal letter run and not a keyword |
| LexerFacts.LexKeyword | lib/lexer/mod.rs:47-53 | A keyword token comes only from a letter at the first non-whitespace byte; its literal is the maximal letter run there, and that run spells exactly that keyword |
| LexerFacts.LexDigitRun | lib/lexer/mod.rs:54-58 | A digit starts a maximal run of `[0-9]`; the token is `INT` of its value if it fits in i64 and `ILLEGAL` otherwise, and the cursor stops after the run |
| LexerFacts.LexInt | lib/lexer/mod.rs:54-58 | An `INT` token comes only from a digit at the first non-whitespace byte; its literal is the maximal digit run there, and its value is that run's decimal value |
| LexerFacts.LexIllegal | lib/lexer/mod.rs:60 | `ILLEGAL` comes from exactly two places: a digit run too large for i64, or a byte no branch accepts (then one byte wide) |
| LexerFacts.LexNulByte | lib/lexer/mod.rs:20 | A 0 byte inside the input reads as `EOF`, and the cursor moves past it |
| LexerFacts.EofOnlyAtEnd | lib/lexer/mod.rs:20 | With no 0 byte ahead, `EOF` is returned exactly when the cursor moves past the end |
| LexerFacts.LexWordAt | lib/lexer/mod.rs:47-53 | A complete letter run at the first non-whitespace byte is the next token, and its end is the new cursor |
| LexerFacts.LexNumberAt | lib/lexer/mod.rs:54-58 | A complete digit run at the first non-whitespace byte is the next token, and its end is the new cursor |
| LexerFacts.IdentWord | lib/lexer/token.rs:89 | A word that spells no keyword is an `IDENT` carrying that word |
| LexerFacts.KeywordWord | lib/lexer/token.rs:81-88 | A keyword's spelling is a word token of that keyword's kind |
| LexerFacts.NumberWord | lib/lexer/token.rs:96-97 | The decimal rendering of a value that fits in i64 is an `INT` token of that value |
| LexerFacts.TokensFrom | lib/lexer/mod.rs:14-67 | The tokens a caller draws up to the first `EOF` form a non-empty sequence |
| LexerFacts.StreamEndsAtEof | lib/lexer/mod.rs:20 | The drawn stream ends with `EOF`, and `EOF` appears nowhere before its last token |
| LexerSpacing.ScanAgree | lib/lexer/mod.rs:17-66 | Two inputs that agree up to a whitespace byte read the same token from any earlier position, and that token ends no later than the whitespace byte |
| LexerSpacing.TokensSuffix | lib/lexer/mod.rs:14-67 | From the start of a stretch that ends the input, the tokens drawn are those of the stretch alone, whatever precedes it |
| LexerSpacing.SpacingInvariance | lib/lexer/mod.rs:103-107 | Replacing one non-empty whitespace run by another, anywhere in the input, leaves the token stream unchanged |
| LexerSamples.SymbolsSample | lib/lexer/mod.rs:134-148 | `=+(){},;` lexes to `ASSIGN PLUS LPAREN RPAREN LBRACE RBRACE COMMA SEMICOLON EOF` |
| LexerSamples.IllegalSample | lib/lexer/mod.rs:150-158 | `#` lexes to `ILLEGAL EOF` |
| LexerSamples.WhitespaceSample | lib/lexer/mod.rs:160-212 | The multi-line program lexes to the test's full stream of kinds, including `FUNCTION`, `IDENT(...)` and `INT(5)`, ending in `EOF` |
| LexerSamples.GibberishSample | lib/lexer/mod.rs:214-236 | The operator and comparison input lexes to the kinds the test expects |
| LexerSamples.ConditionsSample | lib/lexer/mod.rs:238-268 | The `if`/`else` input lexes to the kinds the test expects, keywords included |
| LexerSamples.TwoCharOperatorsSample | lib/lexer/mod.rs:270-288 | `10 == 10; 10 != 9;` lexes to `INT(10) EQ INT(10) SEMICOLON INT(10) NOTEQ INT(9) SEMICOLON EOF` |
| LexerSamples.LetStatementsSample | lib/parser/mod.rs:99-105 | The parser test's input lexes to `LET IDENT(x) ASSIGN INT(5) SEMICOLON`, and so on for `y` and `foobar`, then `EOF` |
| Ast.NewIdentifier | lib/parser/ast.rs:29-36 | Keeps the token unchanged; the value has the literal's characters, in order |
| Ast.LexedIdentifier | lib/parser/ast.rs:30 | Every `IDENT` token the lexer produces has an ASCII literal whose text is the identifier's name |
| Ast.IdentifierOfLexed | lib/parser/ast.rs:30 | For an `IDENT(s)` token from the lexer, `Identifier::new` has the value `s` |
| Parsing.StartDrawn | lib/parser/mod.rs:18-27 | The state after `new` holds the tokens the lexer drew, and the lookahead is `EOF` once the cursor is past the end |
| Parsing.AdvanceDrawn | lib/parser/mod.rs:29-32 | `next_token` keeps that property |
| Parsing.StartTokens | lib/parser/mod.rs:18-27 | On a fresh lexer, the current token is the input's first token, and the lookahead is its second token (when the first is not `EOF`) |
| Parsing.Start | lib/parser/mod.rs:18-27 | The two calls move the cursor at least two bytes; from past the end, both the current token and the lookahead are `EOF` |
| Parsing.Advance | lib/parser/mod.rs:29-32 | The current token becomes the old lookahead and the cursor moves forward; past the end, the new lookahead is `EOF` and the cursor moves by exactly one |
| Parsing.ExhaustedForever | lib/parser/mod.rs:74-76 | Once the current token is an `EOF` and the lexer has passed the end, it stays `EOF` however many tokens are drawn |
| Parsing.AdvanceDecreases | lib/parser/mod.rs:42 | Until then, every `next_token` lowers a bound on what is left to draw |
| Parsing.SkipToSemicolon | lib/parser/mod.rs:74-76 | When the skip loop stops, the current token is `SEMICOLON` |
| Parsing.SkipFindsFirstSemicolon | lib/parser/mod.rs:74-76 | The loop stops after some number of `next_token` calls, and no state before that stop has a `SEMICOLON` as its current token |
| Parsing.SkipDivergesWithoutSemicolon | lib/parser/mod.rs:74-76 | The loop runs forever only when no later current token is ever `SEMICOLON` |
| Parsing.LetStatementAt | lib/parser/mod.rs:56-81 | Fails with expected `IDENT` (carrying the lookahead's kind) exactly when the lookahead is not `IDENT`; then fails with expected `ASSIGN` exactly when the next lookahead is not `ASSIGN`; on success the statement binds the identifier made from the token after `let`, its expression is that same identifier, and the current token is `SEMICOLON` |
| Parsing.LetStatementEndsAtSemicolon | lib/parser/mod.rs:74-76 | A successful `let` ends at the first `SEMICOLON` drawn after the `=` |
| Parsing.LetStatementDiverges | lib/parser/mod.rs:74-76 | After both checks, a `let` runs forever exactly when no `SEMICOLON` ever follows the `=` |
| Parsing.StatementAt | lib/parser/mod.rs:48-54 | The statement is a `let` exactly for `LET` and a return exactly for `RETURN`; every token other than `LET` gives its marker and leaves the state unchanged |
| Parsing.StatementsAt | lib/parser/mod.rs:34-46 | An `EOF` current token gives the empty program; the program is empty only then; a finished program ends on `EOF`; each `let` names an `IDENT` token, has that token's text as its value and that same identifier as its expression |
| Parsing.ProgramOf | lib/parser/mod.rs:34-46 | A whole input parses to the empty program exactly when its first token is `EOF` |
| Parsing.Parser.constructor | lib/parser/mod.rs:18-27 | The current token is the lexer's first token from its cursor; the lookahead is the second |
| Parsing.Parser.NextToken | lib/parser/mod.rs:29-32 | The current token becomes the old lookahead, a fresh lookahead is drawn from the lexer, and nothing else changes |
| Parsing.Parser.ParseProgram | lib/parser/mod.rs:34-46 | Returns the outcome `StatementsAt` gives for the state on entry, and leaves the parser in that outcome's final state |
| Parsing.Parser.ParseStatement | lib/parser/mod.rs:48-54 | Returns the outcome `StatementAt` gives for the state on entry, and leaves the parser in that outcome's state |
| Parsing.Parser.ParseLetStatement | lib/parser/mod.rs:56-81 | Returns the outcome `LetStatementAt` gives for the state on entry; the skip loop stops at the first `;` or reports `Diverges` |
| Parsing.Parser.ParseReturnStatement | lib/parser/mod.rs:83-85 | Returns the `ReturnStatement` marker and changes nothing |
| Parsing.Parser.ParseExpressionStatement | lib/parser/mod.rs:87-89 | Returns the `ExpressionStatement` marker and changes nothing |
| ParserSamples.LetStatementsParse | lib/parser/mod.rs:97-114 | The test input parses to exactly three statements, `let` statements for `x`, `y` and `foobar`, in that order |
| ParserSamples.LetWithoutNameParse | lib/parser/mod.rs:57-60 | `let = 5;` fails with expected `IDENT`, got `ASSIGN` |
| ParserSamples.LetWithoutAssignParse | lib/parser/mod.rs:66-69 | `let x 5;` fails with expected `ASSIGN`, got `INT(5)` |
| ParserSamples.LetWithoutSemicolonParse | lib/parser/mod.rs:74-76 | `let x = 5` (no `;`) runs forever in the skip loop |
| ParserSamples.ReturnFiveParse | lib/parser/mod.rs:48-54 | `return 5;` parses to a return marker, then one expression marker each for `5` and `;` |

## Left out

- `src/main.rs` is not part of this model. It handles command-line arguments and prints tokens, which is input and output only.
- Input is a sequence of bytes. `Literal::to_string` requires ASCII and does not model UTF-8 validation or its `unwrap` panic. The lexer only calls it on letter and digit runs, which are ASCII.
- The `{:?}` Debug text of the two `panic!` messages. An error is its check and the kind of the token found, not formatted text; the unwinding of the panic is not modelled.
- The empty `Node` struct, which nothing uses.
- Build problems that do not affect behaviour:
  - the private `mod token`;
  - the parser's test calling `Lexer::new` where a free `new` is defined;
  - `is_semicolon`, called by the parser but defined nowhere (modelled like `is_eof` as a comparison with `SEMICOLON`);
  - `clone()` on `Token`, which does not derive `Clone` (Dafny datatypes are values, so a clone is the same value);
  - `Token::new`, which is the datatype constructor `Token(name, literal)`.
- `usize` cursor overflow: `position` and `read_position` are unbounded naturals. They only grow past the input length by one per `EOF` call.
- Parsing.LetStatementAt, Parsing.StatementAt, Parsing.StatementsAt: require the state to be one the lexer can produce (`Drawn`), as all parser states are. They are not total over arbitrary token pairs.
- Parsing.Parser.ParseProgram, Parsing.Parser.ParseStatement, Parsing.Parser.ParseLetStatement: on `Fatal` and `Diverges`, no state is promised, since in the source the panic ends the program and the loop never returns.
- The endless skip loop is modelled as the outcome `Diverges`, reported when the current token is an `EOF` and the lexer has passed the end of the input. It is not modelled as a computation that never returns.
