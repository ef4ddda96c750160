/** The unit tests of src/lexer.rs and src/parser.rs, stated over the model: each test input
    is a predicate fixing the input byte by byte, the lexer's successive results on it are
    derived from the scanner lemmas, and the test itself becomes a method that drives the
    `Lexer` or `Parser` class exactly as the test does and promises what the test asserts. */
module Scenarios {
  import opened Wrappers
  import opened Tokens
  import opened Lexing
  import opened Ast
  import opened ParserModel
  import opened Parsing

  // ---------------------------------------------------------------------------------------------
  // test_next_token (src/lexer.rs)

  /** The input of `test_next_token`: `" let five = 5;"`. */
  ghost predicate LexerTestInput(input: seq<Byte>) {
    |input| == 14 && ByteAt(input, 0) == ' ' && ByteAt(input, 1) == 'l' && ByteAt(input, 2) == 'e' &&
    ByteAt(input, 3) == 't' && ByteAt(input, 4) == ' ' && ByteAt(input, 5) == 'f' && ByteAt(input, 6) == 'i' &&
    ByteAt(input, 7) == 'v' && ByteAt(input, 8) == 'e' && ByteAt(input, 9) == ' ' && ByteAt(input, 10) == '=' &&
    ByteAt(input, 11) == ' ' && ByteAt(input, 12) == '5' && ByteAt(input, 13) == ';'
  }

  /** What each of the first five calls returns, and where it leaves the cursor. */
  lemma LexerTestScan0(input: seq<Byte>)
    requires LexerTestInput(input)
    ensures CanScan(input, 0) && Scan(input, 0) == Lexed(Token(TokenType.Let, "let"), 4)
  {
    ScanWordAt(input, 0, 1, 4);
    assert input[1..4] == "let";
  }

  lemma LexerTestScan1(input: seq<Byte>)
    requires LexerTestInput(input)
    ensures CanScan(input, 4) && Scan(input, 4) == Lexed(Token(Ident, "five"), 9)
  {
    ScanWordAt(input, 4, 5, 9);
    assert input[5..9] == "five";
  }

  lemma LexerTestScan2(input: seq<Byte>)
    requires LexerTestInput(input)
    ensures CanScan(input, 9) && Scan(input, 9) == Lexed(Token(Assign, "="), 11)
  {
    ScanByteAt(input, 9, 10);
  }

  lemma LexerTestScan3(input: seq<Byte>)
    requires LexerTestInput(input)
    ensures CanScan(input, 11) && Scan(input, 11) == Lexed(Token(Int, "5"), 13)
  {
    ScanNumberAt(input, 11, 12, 13);
    assert input[12..13] == "5";
  }

  lemma LexerTestScan4(input: seq<Byte>)
    requires LexerTestInput(input)
    ensures CanScan(input, 13) && Scan(input, 13) == Lexed(Token(Semicolon, ";"), 14)
  {
    ScanByteAt(input, 13, 13);
  }

  /** `test_next_token`: five `next_token` calls on a fresh lexer return `let`, `five`, `=`, `5`
      and `;`, each with its kind. */
  method TestNextToken(input: seq<Byte>) returns (tokens: seq<Token>)
    requires LexerTestInput(input)
    ensures tokens == [Token(TokenType.Let, "let"), Token(Ident, "five"), Token(Assign, "="), Token(Int, "5"), Token(Semicolon, ";")]
  {
    var lexer := new Lexer(input);
    LexerTestScan0(input);
    var t0 := lexer.NextToken();
    LexerTestScan1(input);
    var t1 := lexer.NextToken();
    LexerTestScan2(input);
    var t2 := lexer.NextToken();
    LexerTestScan3(input);
    var t3 := lexer.NextToken();
    LexerTestScan4(input);
    var t4 := lexer.NextToken();
    tokens := [t0, t1, t2, t3, t4];
  }

  // ---------------------------------------------------------------------------------------------
  // test_let_statements (src/parser.rs)

  /** The input of `test_let_statements`: three indented `let` lines between line breaks. */
  ghost predicate LetTestInput(input: seq<Byte>) {
    |input| == 77 && ByteAt(input, 0) == '\n' && (forall i :: 1 <= i < 9 ==> ByteAt(input, i) == ' ') && ByteAt(input, 9) == 'l' &&
    ByteAt(input, 10) == 'e' && ByteAt(input, 11) == 't' && ByteAt(input, 12) == ' ' && ByteAt(input, 13) == 'x' &&
    ByteAt(input, 14) == ' ' && ByteAt(input, 15) == '=' && ByteAt(input, 16) == ' ' && ByteAt(input, 17) == '5' &&
    ByteAt(input, 18) == ';' && ByteAt(input, 19) == '\n' && (forall i :: 20 <= i < 28 ==> ByteAt(input, i) == ' ') && ByteAt(input, 28) == 'l' &&
    ByteAt(input, 29) == 'e' && ByteAt(input, 30) == 't' && ByteAt(input, 31) == ' ' && ByteAt(input, 32) == 'y' &&
    ByteAt(input, 33) == ' ' && ByteAt(input, 34) == '=' && ByteAt(input, 35) == ' ' && ByteAt(input, 36) == '1' &&
    ByteAt(input, 37) == '0' && ByteAt(input, 38) == ';' && ByteAt(input, 39) == '\n' && (forall i :: 40 <= i < 48 ==> ByteAt(input, i) == ' ') &&
    ByteAt(input, 48) == 'l' && ByteAt(input, 49) == 'e' && ByteAt(input, 50) == 't' && ByteAt(input, 51) == ' ' &&
    ByteAt(input, 52) == 'f' && ByteAt(input, 53) == 'o' && ByteAt(input, 54) == 'o' && ByteAt(input, 55) == 'b' &&
    ByteAt(input, 56) == 'a' && ByteAt(input, 57) == 'r' && ByteAt(input, 58) == ' ' && ByteAt(input, 59) == '=' &&
    ByteAt(input, 60) == ' ' && ByteAt(input, 61) == '8' && ByteAt(input, 62) == '3' && ByteAt(input, 63) == '8' &&
    ByteAt(input, 64) == '3' && ByteAt(input, 65) == '8' && ByteAt(input, 66) == '3' && ByteAt(input, 67) == ';' &&
    ByteAt(input, 68) == '\n' && (forall i :: 69 <= i < 77 ==> ByteAt(input, i) == ' ')
  }

  lemma LetTestIsAscii(input: seq<Byte>)
    requires LetTestInput(input)
    ensures IsAscii(input)
  {
    forall i | 0 <= i < |input| ensures input[i] as int < 0x80 {
      assert ByteAt(input, i) == input[i];
    }
  }

  /** The lexer on that input, one call at a time. */
  lemma LetTestLex0(input: seq<Byte>)
    requires LetTestInput(input)
    ensures IsAscii(input) && LexAt(input, 0, 0) == Lexed(Token(TokenType.Let, "let"), 12)
  {
    LetTestIsAscii(input);
    LexAtFirst(input, 0);
    ScanWordAt(input, 0, 9, 12);
    assert input[9..12] == "let";
  }

  lemma LetTestLex1(input: seq<Byte>)
    requires LetTestInput(input)
    ensures IsAscii(input) && LexAt(input, 0, 1) == Lexed(Token(Ident, "x"), 14)
  {
    LetTestLex0(input);
    LexAtStep(input, 0, 0);
    ScanWordAt(input, 12, 13, 14);
    assert input[13..14] == "x";
  }

  lemma LetTestLex2(input: seq<Byte>)
    requires LetTestInput(input)
    ensures IsAscii(input) && LexAt(input, 0, 2) == Lexed(Token(Assign, "="), 16)
  {
    LetTestLex1(input);
    LexAtStep(input, 0, 1);
    ScanByteAt(input, 14, 15);
  }

  lemma LetTestLex3(input: seq<Byte>)
    requires LetTestInput(input)
    ensures IsAscii(input) && LexAt(input, 0, 3) == Lexed(Token(Int, "5"), 18)
  {
    LetTestLex2(input);
    LexAtStep(input, 0, 2);
    ScanNumberAt(input, 16, 17, 18);
    assert input[17..18] == "5";
  }

  lemma LetTestLex4(input: seq<Byte>)
    requires LetTestInput(input)
    ensures IsAscii(input) && LexAt(input, 0, 4) == Lexed(Token(Semicolon, ";"), 19)
  {
    LetTestLex3(input);
    LexAtStep(input, 0, 3);
    ScanByteAt(input, 18, 18);
  }

  lemma LetTestLex5(input: seq<Byte>)
    requires LetTestInput(input)
    ensures IsAscii(input) && LexAt(input, 0, 5) == Lexed(Token(TokenType.Let, "let"), 31)
  {
    LetTestLex4(input);
    LexAtStep(input, 0, 4);
    ScanWordAt(input, 19, 28, 31);
    assert input[28..31] == "let";
  }

  lemma LetTestLex6(input: seq<Byte>)
    requires LetTestInput(input)
    ensures IsAscii(input) && LexAt(input, 0, 6) == Lexed(Token(Ident, "y"), 33)
  {
    LetTestLex5(input);
    LexAtStep(input, 0, 5);
    ScanWordAt(input, 31, 32, 33);
    assert input[32..33] == "y";
  }

  lemma LetTestLex7(input: seq<Byte>)
    requires LetTestInput(input)
    ensures IsAscii(input) && LexAt(input, 0, 7) == Lexed(Token(Assign, "="), 35)
  {
    LetTestLex6(input);
    LexAtStep(input, 0, 6);
    ScanByteAt(input, 33, 34);
  }

  lemma LetTestLex8(input: seq<Byte>)
    requires LetTestInput(input)
    ensures IsAscii(input) && LexAt(input, 0, 8) == Lexed(Token(Int, "10"), 38)
  {
    LetTestLex7(input);
    LexAtStep(input, 0, 7);
    ScanNumberAt(input, 35, 36, 38);
    assert input[36..38] == "10";
  }

  lemma LetTestLex9(input: seq<Byte>)
    requires LetTestInput(input)
    ensures IsAscii(input) && LexAt(input, 0, 9) == Lexed(Token(Semicolon, ";"), 39)
  {
    LetTestLex8(input);
    LexAtStep(input, 0, 8);
    ScanByteAt(input, 38, 38);
  }

  lemma LetTestLex10(input: seq<Byte>)
    requires LetTestInput(input)
    ensures IsAscii(input) && LexAt(input, 0, 10) == Lexed(Token(TokenType.Let, "let"), 51)
  {
    LetTestLex9(input);
    LexAtStep(input, 0, 9);
    ScanWordAt(input, 39, 48, 51);
    assert input[48..51] == "let";
  }

  lemma LetTestLex11(input: seq<Byte>)
    requires LetTestInput(input)
    ensures IsAscii(input) && LexAt(input, 0, 11) == Lexed(Token(Ident, "foobar"), 58)
  {
    LetTestLex10(input);
    LexAtStep(input, 0, 10);
    ScanWordAt(input, 51, 52, 58);
    assert input[52..58] == "foobar";
  }

  lemma LetTestLex12(input: seq<Byte>)
    requires LetTestInput(input)
    ensures IsAscii(input) && LexAt(input, 0, 12) == Lexed(Token(Assign, "="), 60)
  {
    LetTestLex11(input);
    LexAtStep(input, 0, 11);
    ScanByteAt(input, 58, 59);
  }

  lemma LetTestLex13(input: seq<Byte>)
    requires LetTestInput(input)
    ensures IsAscii(input) && LexAt(input, 0, 13) == Lexed(Token(Int, "838383"), 67)
  {
    LetTestLex12(input);
    LexAtStep(input, 0, 12);
    ScanNumberAt(input, 60, 61, 67);
    assert input[61..67] == "838383";
  }

  lemma LetTestLex14(input: seq<Byte>)
    requires LetTestInput(input)
    ensures IsAscii(input) && LexAt(input, 0, 14) == Lexed(Token(Semicolon, ";"), 68)
  {
    LetTestLex13(input);
    LexAtStep(input, 0, 13);
    ScanByteAt(input, 67, 67);
  }

  lemma LetTestLex15(input: seq<Byte>)
    requires LetTestInput(input)
    ensures IsAscii(input) && LexAt(input, 0, 15) == Lexed(EofToken, 78)
  {
    LetTestLex14(input);
    LexAtStep(input, 0, 14);
    ScanByteAt(input, 68, 77);
  }

  /** The sixteen tokens of the three `let` lines, the last one `Eof`. */
  ghost predicate LetTestStream(ts: seq<Token>) {
    15 <= |ts| &&
    TokenAt(ts, 0) == Token(TokenType.Let, "let") &&
    TokenAt(ts, 1) == Token(Ident, "x") &&
    TokenAt(ts, 2) == Token(Assign, "=") &&
    TokenAt(ts, 3) == Token(Int, "5") &&
    TokenAt(ts, 4) == Token(Semicolon, ";") &&
    TokenAt(ts, 5) == Token(TokenType.Let, "let") &&
    TokenAt(ts, 6) == Token(Ident, "y") &&
    TokenAt(ts, 7) == Token(Assign, "=") &&
    TokenAt(ts, 8) == Token(Int, "10") &&
    TokenAt(ts, 9) == Token(Semicolon, ";") &&
    TokenAt(ts, 10) == Token(TokenType.Let, "let") &&
    TokenAt(ts, 11) == Token(Ident, "foobar") &&
    TokenAt(ts, 12) == Token(Assign, "=") &&
    TokenAt(ts, 13) == Token(Int, "838383") &&
    TokenAt(ts, 14) == Token(Semicolon, ";") &&
    TokenAt(ts, 15) == EofToken
  }

  /** The lexer yields exactly those tokens on the test input. */
  lemma LetTestTokens(input: seq<Byte>)
    requires LetTestInput(input)
    ensures IsAscii(input) && LetTestStream(TokenStream(input, 0))
  {
    LetTestLex0(input); StreamAt(input, 0, 0);
    LetTestLex1(input); StreamAt(input, 0, 1);
    LetTestLex2(input); StreamAt(input, 0, 2);
    LetTestLex3(input); StreamAt(input, 0, 3);
    LetTestLex4(input); StreamAt(input, 0, 4);
    LetTestLex5(input); StreamAt(input, 0, 5);
    LetTestLex6(input); StreamAt(input, 0, 6);
    LetTestLex7(input); StreamAt(input, 0, 7);
    LetTestLex8(input); StreamAt(input, 0, 8);
    LetTestLex9(input); StreamAt(input, 0, 9);
    LetTestLex10(input); StreamAt(input, 0, 10);
    LetTestLex11(input); StreamAt(input, 0, 11);
    LetTestLex12(input); StreamAt(input, 0, 12);
    LetTestLex13(input); StreamAt(input, 0, 13);
    LetTestLex14(input); StreamAt(input, 0, 14);
    LetTestLex15(input); StreamAt(input, 0, 15);
  }

  /** The statement `let <name> = <value>;` as the parser builds it from the tokens. */
  function LetOf(name: string, value: string): Statement {
    Statement.Let(LetStatement(Token(TokenType.Let, "let"), Identifier(Token(Ident, name), name), value))
  }

  /** From the third line on: one statement, then the stream's `Eof`. */
  lemma LetTestFromThird(ts: seq<Token>, program: seq<Statement>)
    requires LetTestStream(ts)
    ensures ParseProgramLoop(ts, ParserState(10, []), program) ==
      Halts((program + [LetAt(ts, 10)], ParserState(15, [])))
  {
    LoopTakesLetLine(ts, ParserState(10, []), program);
    LoopSkipsToEof(ts, ParserState(15, []), program + [LetAt(ts, 10)], 15);
  }

  /** From the second line on: two statements. */
  lemma LetTestFromSecond(ts: seq<Token>, program: seq<Statement>)
    requires LetTestStream(ts)
    ensures ParseProgramLoop(ts, ParserState(5, []), program) ==
      Halts((program + [LetAt(ts, 5), LetAt(ts, 10)], ParserState(15, [])))
  {
    LoopTakesLetLine(ts, ParserState(5, []), program);
    LetTestFromThird(ts, program + [LetAt(ts, 5)]);
    assert program + [LetAt(ts, 5)] + [LetAt(ts, 10)] == program + [LetAt(ts, 5), LetAt(ts, 10)];
  }

  /** On those tokens `parse_program` halts with one statement per line and no error. */
  lemma LetTestProgram(ts: seq<Token>)
    requires LetTestStream(ts)
    ensures ParseProgram(ts, ParserState(0, [])) ==
      Halts(([LetAt(ts, 0), LetAt(ts, 5), LetAt(ts, 10)], ParserState(15, [])))
  {
    LoopTakesLetLine(ts, ParserState(0, []), []);
    LetTestFromSecond(ts, [LetAt(ts, 0)]);
    assert [] + [LetAt(ts, 0)] == [LetAt(ts, 0)];
    assert [LetAt(ts, 0)] + [LetAt(ts, 5), LetAt(ts, 10)] == [LetAt(ts, 0), LetAt(ts, 5), LetAt(ts, 10)];
  }

  /** The three statements are `let x = 5;`, `let y = 10;` and `let foobar = 838383;`. */
  lemma LetTestStatements(ts: seq<Token>)
    requires LetTestStream(ts)
    ensures [LetAt(ts, 0), LetAt(ts, 5), LetAt(ts, 10)] == [LetOf("x", "5"), LetOf("y", "10"), LetOf("foobar", "838383")]
  {
  }

  /** `test_let_statements`: a parser over a fresh lexer parses the input into the statements
      `x = 5`, `y = 10` and `foobar = 838383`, in that order, and reports no error. */
  method TestLetStatements(input: seq<Byte>) returns (program: seq<Statement>, errors: seq<string>)
    requires LetTestInput(input)
    ensures program == [LetOf("x", "5"), LetOf("y", "10"), LetOf("foobar", "838383")]
    ensures errors == []
  {
    LetTestTokens(input);
    var lexer := new Lexer(input);
    var parser := new Parser(lexer);
    LetTestProgram(parser.stream);
    LetTestStatements(parser.stream);
    program := parser.ParseProgram();
    errors := parser.Errors();
  }

  // ---------------------------------------------------------------------------------------------
  // test_return_statements (src/parser.rs)

  /** The input of `test_return_statements`: three indented `return` lines. */
  ghost predicate ReturnTestInput(input: seq<Byte>) {
    |input| == 67 && ByteAt(input, 0) == '\n' && (forall i :: 1 <= i < 8 ==> ByteAt(input, i) == ' ') && ByteAt(input, 8) == 'r' &&
    ByteAt(input, 9) == 'e' && ByteAt(input, 10) == 't' && ByteAt(input, 11) == 'u' && ByteAt(input, 12) == 'r' &&
    ByteAt(input, 13) == 'n' && ByteAt(input, 14) == ' ' && ByteAt(input, 15) == '5' && ByteAt(input, 16) == ';' &&
    ByteAt(input, 17) == '\n' && (forall i :: 18 <= i < 25 ==> ByteAt(input, i) == ' ') && ByteAt(input, 25) == 'r' && ByteAt(input, 26) == 'e' &&
    ByteAt(input, 27) == 't' && ByteAt(input, 28) == 'u' && ByteAt(input, 29) == 'r' && ByteAt(input, 30) == 'n' &&
    ByteAt(input, 31) == ' ' && ByteAt(input, 32) == '1' && ByteAt(input, 33) == '0' && ByteAt(input, 34) == ';' &&
    ByteAt(input, 35) == '\n' && (forall i :: 36 <= i < 43 ==> ByteAt(input, i) == ' ') && ByteAt(input, 43) == 'r' && ByteAt(input, 44) == 'e' &&
    ByteAt(input, 45) == 't' && ByteAt(input, 46) == 'u' && ByteAt(input, 47) == 'r' && ByteAt(input, 48) == 'n' &&
    ByteAt(input, 49) == ' ' && ByteAt(input, 50) == 'a' && ByteAt(input, 51) == 'd' && ByteAt(input, 52) == 'd' &&
    ByteAt(input, 53) == '(' && ByteAt(input, 54) == '1' && ByteAt(input, 55) == '5' && ByteAt(input, 56) == ')' &&
    ByteAt(input, 57) == ';' && ByteAt(input, 58) == '\n' && (forall i :: 59 <= i < 67 ==> ByteAt(input, i) == ' ')
  }

  lemma ReturnTestIsAscii(input: seq<Byte>)
    requires ReturnTestInput(input)
    ensures IsAscii(input)
  {
    forall i | 0 <= i < |input| ensures input[i] as int < 0x80 {
      assert ByteAt(input, i) == input[i];
    }
  }

  /** The lexer on that input, one call at a time. */
  lemma ReturnTestLex0(input: seq<Byte>)
    requires ReturnTestInput(input)
    ensures IsAscii(input) && LexAt(input, 0, 0) == Lexed(Token(Ident, "return"), 14)
  {
    ReturnTestIsAscii(input);
    LexAtFirst(input, 0);
    ScanWordAt(input, 0, 8, 14);
    assert input[8..14] == "return";
  }

  lemma ReturnTestLex1(input: seq<Byte>)
    requires ReturnTestInput(input)
    ensures IsAscii(input) && LexAt(input, 0, 1) == Lexed(Token(Int, "5"), 16)
  {
    ReturnTestLex0(input);
    LexAtStep(input, 0, 0);
    ScanNumberAt(input, 14, 15, 16);
    assert input[15..16] == "5";
  }

  lemma ReturnTestLex2(input: seq<Byte>)
    requires ReturnTestInput(input)
    ensures IsAscii(input) && LexAt(input, 0, 2) == Lexed(Token(Semicolon, ";"), 17)
  {
    ReturnTestLex1(input);
    LexAtStep(input, 0, 1);
    ScanByteAt(input, 16, 16);
  }

  lemma ReturnTestLex3(input: seq<Byte>)
    requires ReturnTestInput(input)
    ensures IsAscii(input) && LexAt(input, 0, 3) == Lexed(Token(Ident, "return"), 31)
  {
    ReturnTestLex2(input);
    LexAtStep(input, 0, 2);
    ScanWordAt(input, 17, 25, 31);
    assert input[25..31] == "return";
  }

  lemma ReturnTestLex4(input: seq<Byte>)
    requires ReturnTestInput(input)
    ensures IsAscii(input) && LexAt(input, 0, 4) == Lexed(Token(Int, "10"), 34)
  {
    ReturnTestLex3(input);
    LexAtStep(input, 0, 3);
    ScanNumberAt(input, 31, 32, 34);
    assert input[32..34] == "10";
  }

  lemma ReturnTestLex5(input: seq<Byte>)
    requires ReturnTestInput(input)
    ensures IsAscii(input) && LexAt(input, 0, 5) == Lexed(Token(Semicolon, ";"), 35)
  {
    ReturnTestLex4(input);
    LexAtStep(input, 0, 4);
    ScanByteAt(input, 34, 34);
  }

  lemma ReturnTestLex6(input: seq<Byte>)
    requires ReturnTestInput(input)
    ensures IsAscii(input) && LexAt(input, 0, 6) == Lexed(Token(Ident, "return"), 49)
  {
    ReturnTestLex5(input);
    LexAtStep(input, 0, 5);
    ScanWordAt(input, 35, 43, 49);
    assert input[43..49] == "return";
  }

  lemma ReturnTestLex7(input: seq<Byte>)
    requires ReturnTestInput(input)
    ensures IsAscii(input) && LexAt(input, 0, 7) == Lexed(Token(Ident, "add"), 53)
  {
    ReturnTestLex6(input);
    LexAtStep(input, 0, 6);
    ScanWordAt(input, 49, 50, 53);
    assert input[50..53] == "add";
  }

  lemma ReturnTestLex8(input: seq<Byte>)
    requires ReturnTestInput(input)
    ensures IsAscii(input) && LexAt(input, 0, 8) == Lexed(Token(Lparen, "("), 54)
  {
    ReturnTestLex7(input);
    LexAtStep(input, 0, 7);
    ScanByteAt(input, 53, 53);
  }

  lemma ReturnTestLex9(input: seq<Byte>)
    requires ReturnTestInput(input)
    ensures IsAscii(input) && LexAt(input, 0, 9) == Lexed(Token(Int, "15"), 56)
  {
    ReturnTestLex8(input);
    LexAtStep(input, 0, 8);
    ScanNumberAt(input, 54, 54, 56);
    assert input[54..56] == "15";
  }

  lemma ReturnTestLex10(input: seq<Byte>)
    requires ReturnTestInput(input)
    ensures IsAscii(input) && LexAt(input, 0, 10) == Lexed(Token(Rparen, ")"), 57)
  {
    ReturnTestLex9(input);
    LexAtStep(input, 0, 9);
    ScanByteAt(input, 56, 56);
  }

  lemma ReturnTestLex11(input: seq<Byte>)
    requires ReturnTestInput(input)
    ensures IsAscii(input) && LexAt(input, 0, 11) == Lexed(Token(Semicolon, ";"), 58)
  {
    ReturnTestLex10(input);
    LexAtStep(input, 0, 10);
    ScanByteAt(input, 57, 57);
  }

  lemma ReturnTestLex12(input: seq<Byte>)
    requires ReturnTestInput(input)
    ensures IsAscii(input) && LexAt(input, 0, 12) == Lexed(EofToken, 68)
  {
    ReturnTestLex11(input);
    LexAtStep(input, 0, 11);
    ScanByteAt(input, 58, 67);
  }

  /** The thirteen tokens of that input. The keyword table has no `return`, so each `return` is an `Ident`. */
  ghost predicate ReturnTestStream(ts: seq<Token>) {
    12 <= |ts| &&
    TokenAt(ts, 0) == Token(Ident, "return") &&
    TokenAt(ts, 1) == Token(Int, "5") &&
    TokenAt(ts, 2) == Token(Semicolon, ";") &&
    TokenAt(ts, 3) == Token(Ident, "return") &&
    TokenAt(ts, 4) == Token(Int, "10") &&
    TokenAt(ts, 5) == Token(Semicolon, ";") &&
    TokenAt(ts, 6) == Token(Ident, "return") &&
    TokenAt(ts, 7) == Token(Ident, "add") &&
    TokenAt(ts, 8) == Token(Lparen, "(") &&
    TokenAt(ts, 9) == Token(Int, "15") &&
    TokenAt(ts, 10) == Token(Rparen, ")") &&
    TokenAt(ts, 11) == Token(Semicolon, ";") &&
    TokenAt(ts, 12) == EofToken
  }

  /** The lexer yields exactly those tokens on the test input. */
  lemma ReturnTestTokens(input: seq<Byte>)
    requires ReturnTestInput(input)
    ensures IsAscii(input) && ReturnTestStream(TokenStream(input, 0))
  {
    ReturnTestLex0(input); StreamAt(input, 0, 0);
    ReturnTestLex1(input); StreamAt(input, 0, 1);
    ReturnTestLex2(input); StreamAt(input, 0, 2);
    ReturnTestLex3(input); StreamAt(input, 0, 3);
    ReturnTestLex4(input); StreamAt(input, 0, 4);
    ReturnTestLex5(input); StreamAt(input, 0, 5);
    ReturnTestLex6(input); StreamAt(input, 0, 6);
    ReturnTestLex7(input); StreamAt(input, 0, 7);
    ReturnTestLex8(input); StreamAt(input, 0, 8);
    ReturnTestLex9(input); StreamAt(input, 0, 9);
    ReturnTestLex10(input); StreamAt(input, 0, 10);
    ReturnTestLex11(input); StreamAt(input, 0, 11);
    ReturnTestLex12(input); StreamAt(input, 0, 12);
  }

  /** On those tokens `parse_program` halts with no statement and no error: no token is `Let`
      or `Return`, so the loop only steps. */
  lemma ReturnTestProgram(ts: seq<Token>)
    requires ReturnTestStream(ts)
    ensures ParseProgram(ts, ParserState(0, [])) == Halts(([], ParserState(12, [])))
  {
    LoopSkipsToEof(ts, ParserState(0, []), [], 12);
  }

  /** `test_return_statements` as written: the parser returns no statement and no error, so the
      test's length check (three statements) fails. */
  method TestReturnStatements(input: seq<Byte>) returns (program: seq<Statement>, errors: seq<string>)
    requires ReturnTestInput(input)
    ensures program == [] && errors == []
  {
    ReturnTestTokens(input);
    var lexer := new Lexer(input);
    var parser := new Parser(lexer);
    ReturnTestProgram(parser.stream);
    program := parser.ParseProgram();
    errors := parser.Errors();
  }

  // ---------------------------------------------------------------------------------------------
  // The error path: `let = 5;`

  /** An input whose `let` has no name: `let = 5;`. */
  ghost predicate MissingNameInput(input: seq<Byte>) {
    |input| == 8 && ByteAt(input, 0) == 'l' && ByteAt(input, 1) == 'e' && ByteAt(input, 2) == 't' &&
    ByteAt(input, 3) == ' ' && ByteAt(input, 4) == '=' && ByteAt(input, 5) == ' ' && ByteAt(input, 6) == '5' &&
    ByteAt(input, 7) == ';'
  }

  lemma MissingNameIsAscii(input: seq<Byte>)
    requires MissingNameInput(input)
    ensures IsAscii(input)
  {
    forall i | 0 <= i < |input| ensures input[i] as int < 0x80 {
      assert ByteAt(input, i) == input[i];
    }
  }

  /** The lexer on that input, one call at a time. */
  lemma MissingNameLex0(input: seq<Byte>)
    requires MissingNameInput(input)
    ensures IsAscii(input) && LexAt(input, 0, 0) == Lexed(Token(TokenType.Let, "let"), 3)
  {
    MissingNameIsAscii(input);
    LexAtFirst(input, 0);
    ScanWordAt(input, 0, 0, 3);
    assert input[0..3] == "let";
  }

  lemma MissingNameLex1(input: seq<Byte>)
    requires MissingNameInput(input)
    ensures IsAscii(input) && LexAt(input, 0, 1) == Lexed(Token(Assign, "="), 5)
  {
    MissingNameLex0(input);
    LexAtStep(input, 0, 0);
    ScanByteAt(input, 3, 4);
  }

  lemma MissingNameLex2(input: seq<Byte>)
    requires MissingNameInput(input)
    ensures IsAscii(input) && LexAt(input, 0, 2) == Lexed(Token(Int, "5"), 7)
  {
    MissingNameLex1(input);
    LexAtStep(input, 0, 1);
    ScanNumberAt(input, 5, 6, 7);
    assert input[6..7] == "5";
  }

  lemma MissingNameLex3(input: seq<Byte>)
    requires MissingNameInput(input)
    ensures IsAscii(input) && LexAt(input, 0, 3) == Lexed(Token(Semicolon, ";"), 8)
  {
    MissingNameLex2(input);
    LexAtStep(input, 0, 2);
    ScanByteAt(input, 7, 7);
  }

  lemma MissingNameLex4(input: seq<Byte>)
    requires MissingNameInput(input)
    ensures IsAscii(input) && LexAt(input, 0, 4) == Lexed(EofToken, 9)
  {
    MissingNameLex3(input);
    LexAtStep(input, 0, 3);
    ScanByteAt(input, 8, 8);
  }

  /** The tokens of `let = 5;`, the last one `Eof`. */
  ghost predicate MissingNameStream(ts: seq<Token>) {
    4 <= |ts| &&
    TokenAt(ts, 0) == Token(TokenType.Let, "let") &&
    TokenAt(ts, 1) == Token(Assign, "=") &&
    TokenAt(ts, 2) == Token(Int, "5") &&
    TokenAt(ts, 3) == Token(Semicolon, ";") &&
    TokenAt(ts, 4) == EofToken
  }

  /** The lexer yields exactly those tokens on that input. */
  lemma MissingNameTokens(input: seq<Byte>)
    requires MissingNameInput(input)
    ensures IsAscii(input) && MissingNameStream(TokenStream(input, 0))
  {
    MissingNameLex0(input); StreamAt(input, 0, 0);
    MissingNameLex1(input); StreamAt(input, 0, 1);
    MissingNameLex2(input); StreamAt(input, 0, 2);
    MissingNameLex3(input); StreamAt(input, 0, 3);
    MissingNameLex4(input); StreamAt(input, 0, 4);
  }

  /** A `let` without a name yields no statement and exactly one error, which names the
      expected `Ident` and the `Assign` that came instead; parsing then goes on to `Eof`. */
  lemma MissingNameProgram(ts: seq<Token>)
    requires MissingNameStream(ts)
    ensures ParseProgram(ts, ParserState(0, [])) ==
      Halts(([], ParserState(4, [PeekMismatch(Ident, Assign)])))
  {
    var log: ErrorLog := [PeekMismatch(Ident, Assign)];
    assert [] + log == log;
    assert ExpectPeek(ts, ParserState(0, []), Ident) == (false, ParserState(0, log));
    assert ParseStatement(ts, ParserState(0, [])) == Halts((None, ParserState(0, log)));
    assert ParseProgramLoop(ts, ParserState(0, []), []) == ParseProgramLoop(ts, ParserState(1, log), []);
    LoopSkipsToEof(ts, ParserState(1, log), [], 4);
  }

  /** `errors()` then hands out that one message. */
  lemma MissingNameMessage()
    ensures Messages([PeekMismatch(Ident, Assign)]) ==
      ["expected next token to be Ident, got Assign instead"]
  {
    assert KindName(Ident) == "Ident" && KindName(Assign) == "Assign";
    assert PeekErrorMessage(Ident, Assign) == "expected next token to be Ident, got Assign instead";
  }

  /** A parser over a fresh lexer on `let = 5;` returns no statement and exactly that one error. */
  method TestMissingName(input: seq<Byte>) returns (program: seq<Statement>, errors: seq<string>)
    requires MissingNameInput(input)
    ensures program == [] && errors == ["expected next token to be Ident, got Assign instead"]
  {
    MissingNameTokens(input);
    var lexer := new Lexer(input);
    var parser := new Parser(lexer);
    MissingNameProgram(parser.stream);
    MissingNameMessage();
    program := parser.ParseProgram();
    errors := parser.Errors();
  }

  // ---------------------------------------------------------------------------------------------
  // No terminator: `let x = 5` with nothing after it

  /** An input whose `let` has no `;`: `let x = 5`. */
  ghost predicate MissingSemicolonInput(input: seq<Byte>) {
    |input| == 9 && ByteAt(input, 0) == 'l' && ByteAt(input, 1) == 'e' && ByteAt(input, 2) == 't' &&
    ByteAt(input, 3) == ' ' && ByteAt(input, 4) == 'x' && ByteAt(input, 5) == ' ' && ByteAt(input, 6) == '=' &&
    ByteAt(input, 7) == ' ' && ByteAt(input, 8) == '5'
  }

  lemma MissingSemicolonIsAscii(input: seq<Byte>)
    requires MissingSemicolonInput(input)
    ensures IsAscii(input)
  {
    forall i | 0 <= i < |input| ensures input[i] as int < 0x80 {
      assert ByteAt(input, i) == input[i];
    }
  }

  /** The lexer on that input, one call at a time. */
  lemma MissingSemicolonLex0(input: seq<Byte>)
    requires MissingSemicolonInput(input)
    ensures IsAscii(input) && LexAt(input, 0, 0) == Lexed(Token(TokenType.Let, "let"), 3)
  {
    MissingSemicolonIsAscii(input);
    LexAtFirst(input, 0);
    ScanWordAt(input, 0, 0, 3);
    assert input[0..3] == "let";
  }

  lemma MissingSemicolonLex1(input: seq<Byte>)
    requires MissingSemicolonInput(input)
    ensures IsAscii(input) && LexAt(input, 0, 1) == Lexed(Token(Ident, "x"), 5)
  {
    MissingSemicolonLex0(input);
    LexAtStep(input, 0, 0);
    ScanWordAt(input, 3, 4, 5);
    assert input[4..5] == "x";
  }

  lemma MissingSemicolonLex2(input: seq<Byte>)
    requires MissingSemicolonInput(input)
    ensures IsAscii(input) && LexAt(input, 0, 2) == Lexed(Token(Assign, "="), 7)
  {
    MissingSemicolonLex1(input);
    LexAtStep(input, 0, 1);
    ScanByteAt(input, 5, 6);
  }

  lemma MissingSemicolonLex3(input: seq<Byte>)
    requires MissingSemicolonInput(input)
    ensures IsAscii(input) && LexAt(input, 0, 3) == Lexed(Token(Int, "5"), 9)
  {
    MissingSemicolonLex2(input);
    LexAtStep(input, 0, 2);
    ScanNumberAt(input, 7, 8, 9);
    assert input[8..9] == "5";
  }

  lemma MissingSemicolonLex4(input: seq<Byte>)
    requires MissingSemicolonInput(input)
    ensures IsAscii(input) && LexAt(input, 0, 4) == Lexed(EofToken, 10)
  {
    MissingSemicolonLex3(input);
    LexAtStep(input, 0, 3);
    ScanByteAt(input, 9, 9);
  }

  /** The tokens of `let x = 5`: after the `5` every call yields `Eof`, so no `;` ever comes. */
  ghost predicate MissingSemicolonStream(ts: seq<Token>) {
    4 <= |ts| &&
    TokenAt(ts, 0) == Token(TokenType.Let, "let") &&
    TokenAt(ts, 1) == Token(Ident, "x") &&
    TokenAt(ts, 2) == Token(Assign, "=") &&
    TokenAt(ts, 3) == Token(Int, "5") &&
    forall j :: 4 <= j ==> TokenAt(ts, j) == EofToken
  }

  /** The lexer yields exactly those tokens on that input. */
  lemma MissingSemicolonTokens(input: seq<Byte>)
    requires MissingSemicolonInput(input)
    ensures IsAscii(input) && MissingSemicolonStream(TokenStream(input, 0))
  {
    MissingSemicolonLex0(input); StreamAt(input, 0, 0);
    MissingSemicolonLex1(input); StreamAt(input, 0, 1);
    MissingSemicolonLex2(input); StreamAt(input, 0, 2);
    MissingSemicolonLex3(input); StreamAt(input, 0, 3);
    MissingSemicolonLex4(input); StreamPastEnd(input, 0, 4);
  }

  /** The skip loop then steps over `Eof` forever, so `parse_program` never returns. */
  lemma MissingSemicolonDiverges(input: seq<Byte>)
    requires MissingSemicolonInput(input)
    ensures IsAscii(input) && ParseProgram(TokenStream(input, 0), ParserState(0, [])) == Diverges
  {
    MissingSemicolonTokens(input);
    var ts := TokenStream(input, 0);
    forall k | 3 <= k < |ts| ensures ts[k].tokenType != Semicolon {
      assert TokenAt(ts, k) == ts[k];
    }
    LetWithoutSemicolonDiverges(ts, ParserState(0, []), []);
  }
}
