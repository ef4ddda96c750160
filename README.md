# honyaku front end in Dafny

A model of the front end of the `honyaku` interpreter, with proofs: the keyword table and token
kinds, the byte-cursor lexer, the statement tree and the recursive-descent parser for `let` and
`return` statements. The model follows the code as written, including its defects.

- `wrappers.dfy`, module `Wrappers`: `Option`, and `Outcome` (`Halts(value)` or `Diverges`)
  for loops that may never end.
- `token.dfy`, module `Tokens`: the closed `TokenType` enum and `Token` record, `lookup_ident`,
  and the kind names used in parser diagnostics. `Return` is added to the enum because the
  parser matches on it, although `src/token.rs` does not declare it.
- `lexer.dfy`, module `Lexing`: the pure classifiers, and a reference scanner `Scan` stating
  what one `next_token` call returns and where it leaves the cursor. `Lexemes`, `LexAt` and
  `TokenStream` give the results of successive calls. The class `Lexer` has the fields
  `position`, `read_position` and `ch`; its methods are the Rust methods, loops included. The
  constructor and `ReadChar` are proved against `ByteAt`, the three run loops against
  `TokenStart` and `RunEnd`, and `NextToken` against `Scan`.
- `ast.dfy`, module `Ast`: `Statement`, `LetStatement`, `ReturnStatement` and `Identifier`.
- `parser_model.dfy`, module `ParserModel`: each parser method as a function on a state value
  (token index and error log) over the lexer's token stream. The two skip-to-`;` loops never
  test for `Eof`, so the functions that contain them return `Diverges` exactly when the loop
  never exits. The properties of `expect_peek`, the statement parsers and `parse_program`
  are lemmas here.
- `parser.dfy`, module `Parsing`: the class `Parser`, which owns a `Lexer` and updates
  `current_token`, `peek_token` and `errors` in place. Its ghost fields keep the token stream
  and the state value, and `Valid` ties the fields to the stream. `NextToken`, `PeekError`,
  `ExpectPeek`, `SkipToSemicolon` and the four parsing methods are proved to do what the
  function of the same name in `ParserModel` does. The constructor is proved to start at the
  stream's first two tokens with an empty log. `CurTokenIs`, `PeekTokenIs` and `Errors` are
  tied to `ParserModel.Current`, `ParserModel.Peek` and `ParserModel.Messages`.
- `scenarios.dfy`, module `Scenarios`: the repository's unit tests restated as lemmas and
  methods over the model, plus two error cases. Each case starts from its input bytes.
  - `test_next_token` yields the five expected tokens.
  - `test_let_statements` yields the three expected statements and no error.
  - `test_return_statements` yields no statement at all, because `return` lexes as an
    identifier. The test's length check therefore fails.
  - `let = 5;` gives no statement and exactly one diagnostic.
  - `let x = 5` (no `;`) makes `parse_program` run forever.

Where the Monkey language design (src/main.rs:12) and the code disagree, the model follows the code:
- There are no two-character operators. `- ! * / < >` lex as `Illegal`.
- Only `fn` and `let` are keywords.
- The kind names `Eof`, `Ident`, `Int` and so on are the code's.
- `parse_program` does not always terminate. It loops forever on a `let` followed by an
  identifier and `=` with no later `;`. On a hand-built token stream with a `Return` token (the
  lexer never yields one), it also loops forever on a `return` with no `;` two or more tokens on,
  such as `return ;` followed by `Eof`.
- The lexer is not failure-free: `generate_new_token` panics on a byte of `0x80` or more.
- The `return` test does not produce three statements.
- A failed `let` does not resynchronise.

## Model

| member | source | states |
|---|---|---|
| Tokens.LookupIdent | src/token.rs:37-43 | the result is always `Function`, `Let` or `Ident` |
| Tokens.LookupIdentKeywords | src/token.rs:38-40 | `"fn"` maps to `Function` and `"let"` to `Let` |
| Tokens.LookupIdentOthers | src/token.rs:41 | every string other than `fn` and `let` maps to `Ident` |
| Tokens.LookupIdentUnlisted | src/token.rs:37-43 | `return`, `if`, `else`, `true`, `false` and the empty string are `Ident`: the table knows no other keyword |
| Tokens.TokenEquality | src/token.rs:31-35 | two tokens are equal exactly when kind and literal are both equal |
| Tokens.KindName | src/parser.rs:123-126 | the name `peak_error` prints for a kind: the variant's own spelling (definition; properties in KindNameIsWord, KindNameRoundTrip and KindNameInjective) |
| Tokens.KindNameIsWord | src/parser.rs:122-127 | a kind's name in a diagnostic is nonempty and contains neither `,` nor a space |
| Tokens.KindNameRoundTrip | src/token.rs:2-29 | a kind is read back from its diagnostic name |
| Tokens.KindNameInjective | src/token.rs:2-29 | distinct kinds have distinct names |
| Lexing.IsLetter | src/lexer.rs:105-107 | `is_letter`: `a`-`z`, `A`-`Z` and `_` (definition) |
| Lexing.IsDigit | src/lexer.rs:109-111 | `is_digit`: `0`-`9` (definition) |
| Lexing.IsWhitespace | src/lexer.rs:91 | the bytes `skip_whitespace` passes over: space, tab, newline and carriage return (definition) |
| Lexing.ByteAt | src/lexer.rs:32-36 | the byte `read_char` loads for a position: the input byte, or 0 at or past the end (definition; used by the constructor's and `ReadChar`'s contracts) |
| Lexing.TokenStart | src/lexer.rs:46 | where `next_token` classifies from a cursor: the end of the blank run there (definition; properties in RunEnd and RunEndAt) |
| Lexing.GenerateNewToken | src/lexer.rs:113-120 | `generate_new_token`: the kind with the one-byte literal, defined only below `0x80`, where `from_utf8(..).unwrap()` does not panic (definition) |
| Lexing.SingleByteKind | src/lexer.rs:62-75 | the `match self.ch` table in its order, 0 giving `Eof` and every other byte `Illegal` (definition; properties in SingleByteKindTable and NoTwoByteOperators) |
| Lexing.RunEnd | src/lexer.rs:84-86 | the end of a run is at or after its start, holds a byte outside the run, and stays inside the input |
| Lexing.RunEndSpans | src/lexer.rs:84-86 | every byte from the start up to the end of the run belongs to the run |
| Lexing.SpansInsideInput | src/lexer.rs:32-34 | the byte 0 read past the end belongs to no run, so a nonempty run lies inside the input |
| Lexing.RunEndAt | src/lexer.rs:84-86 | conversely, bytes in the run up to `e` followed by one outside it make `e` the end of the run |
| Lexing.Scan | src/lexer.rs:40-79 | every `next_token` call moves the cursor forward and never yields `Return` |
| Lexing.AsciiCanScan | src/lexer.rs:113-120 | on an ASCII input `next_token` cannot panic |
| Lexing.ScanIdentifier | src/lexer.rs:48-53 | a word token's literal is the maximal run of letters at the token start, inside the input, and its kind is the keyword table's |
| Lexing.ScanNumber | src/lexer.rs:54-57 | a number token is `Int` with the maximal digit run at the token start as its literal |
| Lexing.ScanSingleByte | src/lexer.rs:58-78 | any other byte is one token whose literal is exactly that byte, and the cursor moves past it |
| Lexing.ScanWordAt | src/lexer.rs:46-53 | blanks from `p` to `q` then letters from `q` to `e` make one call return `input[q..e]`, classified by the keyword table, with the cursor at `e` |
| Lexing.ScanNumberAt | src/lexer.rs:54-57 | blanks then digits from `q` to `e` make one call return `Int` with literal `input[q..e]` and the cursor at `e` |
| Lexing.ScanByteAt | src/lexer.rs:58-78 | blanks up to `q` and then an ASCII byte that is no letter or digit make one call return that byte's single-byte token, with the cursor at `q + 1` |
| Lexing.SingleByteKindTable | src/lexer.rs:62-75 | both directions: each of `; , + = ( ) { }` and 0 has its own kind, and every other byte is `Illegal` |
| Lexing.NoTwoByteOperators | src/lexer.rs:62-75 | `- ! * / < >` are all `Illegal` |
| Lexing.ScanEof | src/lexer.rs:73 | `Eof` comes out exactly when the classified byte is 0, with the one-byte literal 0 |
| Lexing.ScanInsideInput | src/lexer.rs:40-79 | a token other than `Eof` ends inside the input |
| Lexing.ScanEmbeddedNul | src/lexer.rs:73 | a 0 byte inside the input yields `Eof` mid-input, and the cursor moves on past it |
| Lexing.ScanPastEnd | src/lexer.rs:32-34 | past the end every call yields `Eof` and moves the cursor by one |
| Lexing.Lexemes | src/lexer.rs:40-79 | the successive calls begin with `Scan` from the start and end with an `Eof` past the end of the input |
| Lexing.LexAtShift | src/lexer.rs:40-79 | the `k + 1`-th call from `p` is the `k`-th call from where the first call left the cursor |
| Lexing.LexAtFirst | src/lexer.rs:40-79 | the first call scans from the starting cursor |
| Lexing.LexAtStep | src/lexer.rs:40-79 | every call scans from where the previous call left the cursor |
| Lexing.LexAtStepPastEnd | src/lexer.rs:32-34 | once the cursor is past the end, each further call is again `Scan` from the cursor before it |
| Lexing.StreamAt | src/lexer.rs:40-79 | the `k`-th stream token, past the stored ones included, is what the `k`-th call returns |
| Lexing.StreamNext | src/lexer.rs:40-79 | a call made where the `k`-th call left the cursor returns the next stream token and leaves the cursor where the `k + 1`-th call does |
| Lexing.StreamHasNoReturn | src/token.rs:37-43 | no token the lexer yields has kind `Return` |
| Lexing.StreamIsScanned | src/lexer.rs:40-79 | every stream token is one `Scan` from the cursor the earlier calls left |
| Lexing.StreamAssignLiteral | src/lexer.rs:66 | an `Assign` token in the stream has literal `=` |
| Lexing.StreamSemicolonIsByte | src/lexer.rs:63 | a `Semicolon` token in the stream has literal `;` and comes from the `;` byte at the position its call classified |
| Lexing.LexemesInsideInput | src/lexer.rs:40-79 | every call before the one that reaches the end of the input leaves the cursor inside the input |
| Lexing.StreamPastEnd | src/lexer.rs:32-34 | once a call has left the cursor past the end, it and every later call yield `Eof` |
| Lexing.Lexer.constructor | src/lexer.rs:21-30 | `position` is 0, `read_position` is 1, and `ch` is the first byte or 0 for an empty input |
| Lexing.Lexer.ReadChar | src/lexer.rs:31-39 | `position` becomes the old `read_position`, `read_position` is one more, and `ch` is the byte at `position` or 0 past the end |
| Lexing.Lexer.SkipWhitespace | src/lexer.rs:90-94 | the cursor moves to the first non-blank byte at or after it, and `ch` is no blank |
| Lexing.Lexer.ReadIdentifier | src/lexer.rs:81-89 | the cursor moves to the end of the letter run, and the result is the slice of the input it passed over |
| Lexing.Lexer.ReadNumber | src/lexer.rs:96-102 | the same for the digit run |
| Lexing.Lexer.NextToken | src/lexer.rs:40-79 | the token returned and the new cursor are exactly `Scan` of the old cursor |
| Ast.StatementIsLetOrReturn | src/ast.rs:8-11 | every statement is exactly one of `Let` and `Return` |
| ParserModel.NextToken | src/parser.rs:27-30 | `next_token` on the state: the stream index moves on by one and the log stays (definition; `Parsing.Parser.NextToken` is proved equal to it) |
| ParserModel.PeekErrorMessage | src/parser.rs:123-126 | the string `peak_error` formats, "expected next token to be E, got G instead" (definition; properties in PeekErrorMessageInjective) |
| ParserModel.PeekError | src/parser.rs:122-127 | `peak_error` on the state: one diagnostic naming the expected kind and the peek token's kind is appended, and the index stays (definition) |
| ParserModel.ExpectPeek | src/parser.rs:108-116 | `expect_peek` on the state (definition; properties in ExpectPeekOutcomes) |
| ParserModel.Messages | src/parser.rs:118-127 | the vector `errors()` hands out: one string per diagnostic, in log order |
| ParserModel.MessagesInjective | src/parser.rs:118-127 | the strings determine the diagnostics behind them, in order: two logs with the same rendering are equal |
| ParserModel.NextSemicolon | src/parser.rs:70-72 | the index found is a `Semicolon` token at or after the start, or the stream's length when there is none |
| ParserModel.NextSemicolonIsFirst | src/parser.rs:70-72 | no `Semicolon` lies before the index found |
| ParserModel.SkipToSemicolon | src/parser.rs:70-72 | the loop halts exactly when a `Semicolon` token lies at or after the peek position, and then stops with the first one as the peek token |
| ParserModel.ParseLetStatement | src/parser.rs:54-81 | a halting `let` parse never moves the cursor back |
| ParserModel.ParseReturnStatement | src/parser.rs:83-98 | a halting `return` parse always moves the cursor forward |
| ParserModel.ParseStatement | src/parser.rs:46-52 | a halting statement parse never moves the cursor back |
| ParserModel.ExpectPeekOutcomes | src/parser.rs:108-116 | on a match it returns true, advances once and logs nothing; otherwise it returns false, keeps both tokens and logs one diagnostic naming the expected and the actual kind |
| ParserModel.PeekErrorMessageInjective | src/parser.rs:122-127 | a diagnostic string determines the expected and the actual kind it names |
| ParserModel.ParseLetStatementFailure | src/parser.rs:57-68 | a failed `let` logs exactly one error: it names `Ident` with nothing consumed, or, after stepping onto the name, `Assign` |
| ParserModel.ParseLetStatementSuccess | src/parser.rs:54-81 | a successful `let` had an identifier and `=` ahead, stops with the first `;` after the `=` as the peek token, logs nothing, and builds the keyword token, the name from the identifier's literal and the value from the token before the `;` |
| ParserModel.ParseLetStatementReachesSkip | src/parser.rs:57-72 | a successful `let` passed both `expect_peek` calls and then finished the skip loop |
| ParserModel.ParseLetValueWithoutExpression | src/parser.rs:66-78 | when `;` follows `=` directly, the value is the `=` token's literal |
| ParserModel.ParseReturnStatementSuccess | src/parser.rs:83-98 | a `return` stops before the first `;` at least two tokens on, builds the keyword token and the literal before the `;`, and logs nothing |
| ParserModel.ParseReturnStatementNeverNone | src/parser.rs:83-98 | a halting `return` parse always yields a statement |
| ParserModel.ParseStatementDispatch | src/parser.rs:46-52 | `Let` goes to the let parser, `Return` to the return parser, and any other kind yields nothing with the state unchanged |
| ParserModel.ParseStatementWellFormed | src/parser.rs:61-64 | a parsed statement starts with its keyword token, its name's value is the name token's literal, and it comes with no new error |
| ParserModel.ParseStatementKeepsErrors | src/parser.rs:122-127 | a statement parse adds at most one log entry and keeps the earlier ones |
| ParserModel.ParseProgramLoop | src/parser.rs:35-41 | the `parse_program` loop with the statements collected so far: until `Eof` is current, parse a statement, keep it if there is one, and step once; `Diverges` when a statement parse never returns (definition; properties in the Loop lemmas) |
| ParserModel.ParseProgram | src/parser.rs:32-44 | `parse_program` from an empty program; `Diverges` when it never reaches `Eof` (definition; properties in ParseProgramResult) |
| ParserModel.LoopSkipsToEof | src/parser.rs:35-41 | the loop steps over tokens that start no statement and halts at the first `Eof` with the program unchanged |
| ParserModel.LoopTakesLetLine | src/parser.rs:35-41 | a line `let <ident> = <value> ;` adds its statement and moves the loop five tokens on |
| ParserModel.LetWithoutSemicolonDiverges | src/parser.rs:70-72 | a `let` with name and `=` but no later `;` makes `parse_program` run forever |
| ParserModel.ReturnWithoutSemicolonDiverges | src/parser.rs:88-90 | on a token stream with a `Return` token, which only a hand-built stream has, a `return` with no `;` two or more tokens on makes `parse_program` run forever |
| ParserModel.LoopEndsAtEof | src/parser.rs:35-41 | a halting loop stops with `Eof` current and only appends to the error log |
| ParserModel.LoopAddsWellFormed | src/parser.rs:35-41 | a halting loop keeps what it had collected and adds only well-formed statements |
| ParserModel.LoopInSourceOrder | src/parser.rs:35-41 | a halting loop keeps what it had collected and appends its statements in source order: their keyword tokens sit at strictly increasing stream positions between where the loop starts and where it stops |
| ParserModel.ParseProgramResult | src/parser.rs:32-44 | a halting `parse_program` stops at `Eof`, only appends to the log, and returns only well-formed statements, in source order |
| ParserModel.LoopWithoutReturnTokens | src/parser.rs:35-41 | on a stream without `Return` tokens the loop adds only `let` statements |
| ParserModel.ProgramWithoutReturnTokens | src/parser.rs:32-44 | on such a stream a program holds only `let` statements |
| ParserModel.LexerProgramHoldsOnlyLets | src/parser.rs:46-52 | a program parsed from any stream the lexer yields holds only `let` statements: the `return` branch is reached only by hand-built streams |
| Parsing.TracksStep | src/parser.rs:27-30 | one more lexer call moves the tracked current and peek pair one token along the stream |
| Parsing.Parser.constructor | src/parser.rs:16-25 | two lexer calls: the current token is the stream's first, the peek token its second, and the log is empty |
| Parsing.Parser.NextToken | src/parser.rs:27-30 | the old peek token becomes current, the lexer's next token becomes the peek, and the errors are unchanged |
| Parsing.Parser.CurTokenIs | src/parser.rs:100-102 | on a valid parser, true exactly when `ParserModel.Current` of the tracked state has the kind |
| Parsing.Parser.PeekTokenIs | src/parser.rs:104-106 | on a valid parser, true exactly when `ParserModel.Peek` of the tracked state has the kind |
| Parsing.Parser.Errors | src/parser.rs:118-120 | the log rendered as strings, oldest first, with nothing changed |
| Parsing.Parser.PeekError | src/parser.rs:122-127 | exactly one message naming the expected and the peek kind is appended, and the tokens stay |
| Parsing.Parser.ExpectPeek | src/parser.rs:108-116 | does what `ParserModel.ExpectPeek` does |
| Parsing.Parser.SkipToSemicolon | src/parser.rs:70-72 | the loop stops where `ParserModel.SkipToSemicolon` says |
| Parsing.Parser.ParseLetStatement | src/parser.rs:54-81 | the statement and the new state are those of `ParserModel.ParseLetStatement` |
| Parsing.Parser.ParseReturnStatement | src/parser.rs:83-98 | the statement and the new state are those of `ParserModel.ParseReturnStatement` |
| Parsing.Parser.ParseStatement | src/parser.rs:46-52 | the statement and the new state are those of `ParserModel.ParseStatement` |
| Parsing.Parser.ParseProgram | src/parser.rs:32-44 | the program and the new state are those of `ParserModel.ParseProgram` |
| Scenarios.TestNextToken | src/lexer.rs:126-160 | five calls on `" let five = 5;"` return `let`, `five`, `=`, `5` and `;` with their kinds |
| Scenarios.LetTestTokens | src/parser.rs:135-143 | the lexer turns the let-test input into `let x = 5 ; let y = 10 ; let foobar = 838383 ;` and `Eof` |
| Scenarios.LetTestProgram | src/parser.rs:145 | on those tokens `parse_program` halts with one statement per line and no error |
| Scenarios.TestLetStatements | src/parser.rs:134-162 | a parser over a fresh lexer returns `x = 5`, `y = 10` and `foobar = 838383`, in order, and no error |
| Scenarios.ReturnTestTokens | src/parser.rs:185-192 | the lexer turns the return-test input into thirteen tokens, with each `return` an `Ident` |
| Scenarios.ReturnTestProgram | src/parser.rs:194 | on those tokens `parse_program` halts with no statement and no error |
| Scenarios.TestReturnStatements | src/parser.rs:183-209 | the parser returns no statement and no error, so the test's check for three statements fails |
| Scenarios.MissingNameTokens | src/lexer.rs:40-79 | the lexer turns `let = 5;` into `let`, `=`, `5`, `;` and `Eof` |
| Scenarios.MissingNameProgram | src/parser.rs:57-59 | on those tokens `parse_program` yields no statement and exactly the one diagnostic "expected `Ident`, got `Assign`", and goes on to `Eof` |
| Scenarios.MissingNameMessage | src/parser.rs:122-127 | that diagnostic renders as "expected next token to be Ident, got Assign instead" |
| Scenarios.TestMissingName | src/parser.rs:54-68 | a parser over a fresh lexer on `let = 5;` returns no statement and the one error "expected next token to be Ident, got Assign instead" |
| Scenarios.MissingSemicolonTokens | src/lexer.rs:32-34 | the lexer turns `let x = 5` into `let`, `x`, `=`, `5` and then `Eof` on every later call |
| Scenarios.MissingSemicolonDiverges | src/parser.rs:70-72 | on the input `let x = 5`, `parse_program` never returns |

## Left out

- `src/repl.rs` and `src/main.rs`, which read standard input and print, are not part of this model.
- The `println!` calls in `next_token` and in the return test print to the console and have no effect on results.
- The empty `Expression` enum is not modelled. Dafny has no datatype without constructors.
- The `Node` trait has no implementations and is not modelled.
- The kind names in diagnostics are the variant spellings. `TokenType` implements no `Display`, so the code as shown does not compile there.
- The private `LexerTrait` and the missing `Clone` on `Token` also stop the code compiling. Tokens are values in the model.
- `read_position` is a `nat`. The model does not capture a `usize` overflow after the end of input.
- The input is a sequence of bytes, written as characters below 256. No UTF-8 decoding is modelled.
- Lexing.Lexer.NextToken: requires that the byte to classify is below `0x80`, where the code panics in `generate_new_token`. The panic itself is not modelled.
- Parsing.Parser.constructor: requires an all-ASCII input. That is stronger than the lexer's own no-panic condition, which would have to hold at every later call.
- Parsing.Parser.SkipToSemicolon: requires that the model's loop halts. The methods with `while` loops are proved only on inputs where the code terminates; `ParserModel` says exactly when it does not (`Diverges`).
- Parsing.Parser.ParseProgram: requires, like the other parsing methods, that the model halts.
- The test inputs are predicates that fix the input byte by byte, not string literals.
