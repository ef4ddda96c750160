/** The parser object of src/parser.rs: it owns a lexer, keeps the current and the peek token
    and an error log, and every method updates those fields in place. Each method is proved
    against the function of the same name in `ParserModel`, applied to the stream of tokens the
    lexer yields from where it stood when the parser was built. */
module Parsing {
  import opened Wrappers
  import opened Tokens
  import opened Lexing
  import opened Ast
  import M = ParserModel

  /** After `k + 2` lexer calls from cursor `p`: `current` and `peek` are the `k`-th and
      `k + 1`-th tokens the lexer yields from `p`, and `cursor` is where the last call left it. */
  ghost predicate Tracks(input: seq<Byte>, p: nat, k: nat, current: Token, peek: Token, cursor: nat) {
    IsAscii(input) &&
    current == TokenAt(TokenStream(input, p), k) && peek == TokenAt(TokenStream(input, p), k + 1) &&
    cursor == LexAt(input, p, k + 1).next
  }

  /** One more lexer call moves the tracked pair one token along the stream. */
  lemma TracksStep(input: seq<Byte>, p: nat, k: nat, current: Token, peek: Token, cursor: nat, next: Token, q: nat)
    requires Tracks(input, p, k, current, peek, cursor)
    requires Lexed(next, q) == Scan(input, cursor)
    ensures Tracks(input, p, k + 1, peek, next, q)
  {
    StreamNext(input, p, k + 1, next, q);
  }

  class Parser {
    const lexer: Lexer
    var currentToken: Token
    var peekToken: Token
    var errors: seq<string>

    /** Where the lexer's cursor stood when the parser was built. */
    ghost const start: nat
    /** The tokens the lexer yields from `start` on. */
    ghost const stream: seq<Token>
    /** How many tokens of `stream` came before the current one. */
    ghost var pos: nat
    /** The error log as diagnostics; `errors` is its rendering. */
    ghost var log: M.ErrorLog

    ghost function State(): M.ParserState
      reads this
    {
      M.ParserState(pos, log)
    }

    /** The current token is the stream's `pos`-th, the peek token the next one, the lexer has
        been called exactly `pos + 2` times, and `errors` renders the log. */
    ghost predicate Valid()
      reads this, lexer
    {
      lexer.Valid() && IsAscii(lexer.input) && stream == TokenStream(lexer.input, start) &&
      Tracks(lexer.input, start, pos, currentToken, peekToken, lexer.position) &&
      errors == M.Messages(log)
    }

    /** `Parser::new`: two lexer calls fill the current and the peek token. */
    constructor (lexer: Lexer)
      requires lexer.Valid() && IsAscii(lexer.input)
      modifies lexer
      ensures Valid() && this.lexer == lexer
      ensures start == old(lexer.position) && stream == TokenStream(lexer.input, start)
      ensures State() == M.ParserState(0, []) && errors == []
    {
      var p := lexer.position;
      AsciiCanScan(lexer.input, p);
      var current := lexer.NextToken();
      AsciiCanScan(lexer.input, lexer.position);
      var peek := lexer.NextToken();
      LexAtFirst(lexer.input, p);
      LexAtStep(lexer.input, p, 0);
      StreamAt(lexer.input, p, 0);
      StreamAt(lexer.input, p, 1);
      this.lexer := lexer;
      currentToken := current;
      peekToken := peek;
      errors := [];
      start := p;
      stream := TokenStream(lexer.input, p);
      pos := 0;
      log := [];
    }

    /** `next_token`: the peek token becomes current and the lexer supplies the next one. */
    method NextToken()
      requires Valid()
      modifies this, lexer
      ensures Valid() && State() == M.NextToken(old(State()))
      ensures currentToken == old(peekToken) && errors == old(errors)
    {
      AsciiCanScan(lexer.input, lexer.position);
      var next := lexer.NextToken();
      TracksStep(lexer.input, start, pos, currentToken, peekToken, old(lexer.position), next, lexer.position);
      currentToken, peekToken, pos := peekToken, next, pos + 1;
    }

    /** `cur_token_is`. */
    function CurTokenIs(k: TokenType): (b: bool)
      reads this, lexer
      ensures b <==> currentToken.tokenType == k
      ensures Valid() ==> (b <==> M.Current(stream, State()).tokenType == k)
    {
      currentToken.tokenType == k
    }

    /** `peek_token_is`. */
    function PeekTokenIs(k: TokenType): (b: bool)
      reads this, lexer
      ensures b <==> peekToken.tokenType == k
      ensures Valid() ==> (b <==> M.Peek(stream, State()).tokenType == k)
    {
      peekToken.tokenType == k
    }

    /** `errors`: the log as strings, oldest first. */
    function Errors(): (result: seq<string>)
      reads this, lexer
      ensures Valid() ==> result == M.Messages(State().errors)
    {
      errors
    }

    /** `peak_error`: push one message naming `expected` and the peek token's kind. */
    method PeekError(expected: TokenType)
      requires Valid()
      modifies this
      ensures Valid() && State() == M.PeekError(stream, old(State()), expected)
      ensures errors == old(errors) + [M.PeekErrorMessage(expected, peekToken.tokenType)]
      ensures currentToken == old(currentToken) && peekToken == old(peekToken)
    {
      var d := M.PeekMismatch(expected, peekToken.tokenType);
      ghost var t := M.PeekError(stream, State(), expected);
      errors := errors + [M.Message(d)];
      log := t.errors;
    }

    /** `expect_peek`: step once if the peek token has kind `expected`, else log an error. */
    method ExpectPeek(expected: TokenType) returns (ok: bool)
      requires Valid()
      modifies this, lexer
      ensures Valid() && (ok, State()) == M.ExpectPeek(stream, old(State()), expected)
    {
      if PeekTokenIs(expected) {
        NextToken();
        ok := true;
      } else {
        PeekError(expected);
        ok := false;
      }
    }

    /** `while !peek_token_is(Semicolon) { next_token() }`, run where the model says it stops. */
    method SkipToSemicolon()
      requires Valid() && M.SkipToSemicolon(stream, State()).Halts?
      modifies this, lexer
      ensures Valid() && M.SkipToSemicolon(stream, old(State())) == Halts(State())
    {
      ghost var target := M.SkipToSemicolon(stream, State());
      while !PeekTokenIs(Semicolon)
        invariant Valid() && M.SkipToSemicolon(stream, State()) == target
        decreases |stream| - pos
      {
        NextToken();
      }
    }

    /** `parse_let_statement`. The skip loop never ends on a stream with no `;` ahead, so the
        method is run only where the model halts. */
    method ParseLetStatement() returns (statement: Option<Statement>)
      requires Valid() && M.ParseLetStatement(stream, State()).Halts?
      modifies this, lexer
      ensures Valid() && M.ParseLetStatement(stream, old(State())) == Halts((statement, State()))
    {
      var token := currentToken;
      var named := ExpectPeek(Ident);
      if !named {
        return None;
      }
      var name := Identifier(currentToken, currentToken.literal);
      var hasAssign := ExpectPeek(Assign);
      if !hasAssign {
        return None;
      }
      SkipToSemicolon();
      statement := Some(Statement.Let(LetStatement(token, name, currentToken.literal)));
    }

    /** `parse_return_statement`: step past `return`, then skip to the token before `;`. */
    method ParseReturnStatement() returns (statement: Option<Statement>)
      requires Valid() && M.ParseReturnStatement(stream, State()).Halts?
      modifies this, lexer
      ensures Valid() && M.ParseReturnStatement(stream, old(State())) == Halts((statement, State()))
    {
      var token := currentToken;
      NextToken();
      SkipToSemicolon();
      statement := Some(Statement.Return(ReturnStatement(token, currentToken.literal)));
    }

    /** `parse_statement`. */
    method ParseStatement() returns (statement: Option<Statement>)
      requires Valid() && M.ParseStatement(stream, State()).Halts?
      modifies this, lexer
      ensures Valid() && M.ParseStatement(stream, old(State())) == Halts((statement, State()))
    {
      match currentToken.tokenType
      case Let =>
        statement := ParseLetStatement();
      case Return =>
        statement := ParseReturnStatement();
      case _ =>
        statement := None;
    }

    /** `parse_program`: statements until `Eof` is current, each followed by one step. */
    method ParseProgram() returns (program: seq<Statement>)
      requires Valid() && M.ParseProgram(stream, State()).Halts?
      modifies this, lexer
      ensures Valid() && M.ParseProgram(stream, old(State())) == Halts((program, State()))
    {
      program := [];
      while currentToken.tokenType != Eof
        invariant Valid() && M.ParseProgramLoop(stream, State(), program) == M.ParseProgram(stream, old(State()))
        decreases |stream| - pos
      {
        var statement := ParseStatement();
        if statement.Some? {
          program := program + [statement.value];
        }
        NextToken();
      }
    }
  }
}
