/** A value-level model of the recursive-descent parser (src/parser.rs), run over the token
    stream the lexer yields. Each function is one parser method applied to a state value; the two
    skip-until-`;` loops can run forever, so the functions that contain them return `Diverges`
    exactly when the loop never exits. */
module ParserModel {
  import opened Wrappers
  import opened Tokens
  import opened Lexing
  import opened Ast

  /** What `peak_error` records: the kind it expected and the kind of the peek token. */
  datatype Diagnostic = PeekMismatch(expected: TokenType, got: TokenType)

  /** The error log, oldest entry first; `peak_error` appends to it. */
  type ErrorLog = seq<Diagnostic>

  /** The parser's fields as a value over the stream `ts`: `pos` indexes the current token, the
      peek token is the one after it, and `errors` is the log. */
  datatype ParserState = ParserState(pos: nat, errors: ErrorLog)

  function Current(ts: seq<Token>, s: ParserState): Token {
    TokenAt(ts, s.pos)
  }

  function Peek(ts: seq<Token>, s: ParserState): Token {
    TokenAt(ts, s.pos + 1)
  }

  /** `next_token`: the peek token becomes current and the lexer supplies the one after it. */
  function NextToken(s: ParserState): ParserState {
    s.(pos := s.pos + 1)
  }

  /** The diagnostic `peak_error` formats. */
  function PeekErrorMessage(expected: TokenType, got: TokenType): string {
    "expected next token to be " + (KindName(expected) + (", got " + (KindName(got) + " instead")))
  }

  function Message(d: Diagnostic): string {
    PeekErrorMessage(d.expected, d.got)
  }

  /** The log as the vector of strings `errors()` hands out, oldest first. */
  function Messages(log: ErrorLog): (ms: seq<string>)
    ensures |ms| == |log|
  {
    seq(|log|, i requires 0 <= i < |log| => Message(log[i]))
  }

  /** `peak_error`: one entry naming the expected kind and the peek token's kind. */
  function PeekError(ts: seq<Token>, s: ParserState, expected: TokenType): ParserState {
    s.(errors := s.errors + [PeekMismatch(expected, Peek(ts, s).tokenType)])
  }

  /** `expect_peek`: advance once on a match, otherwise log an error and stay put. */
  function ExpectPeek(ts: seq<Token>, s: ParserState, expected: TokenType): (bool, ParserState) {
    if Peek(ts, s).tokenType == expected then (true, NextToken(s))
    else (false, PeekError(ts, s, expected))
  }

  /** The index of the first `Semicolon` token at or after `k`, or `|ts|` when there is none. */
  function NextSemicolon(ts: seq<Token>, k: nat): (j: nat)
    ensures j <= |ts|
    ensures j < |ts| ==> k <= j && ts[j].tokenType == Semicolon
    decreases |ts| - k
  {
    if k >= |ts| then |ts|
    else if ts[k].tokenType == Semicolon then k
    else NextSemicolon(ts, k + 1)
  }

  /** No `Semicolon` token lies between `k` and `NextSemicolon(ts, k)`. */
  lemma {:induction false} NextSemicolonIsFirst(ts: seq<Token>, k: nat)
    ensures forall i :: k <= i < NextSemicolon(ts, k) ==> ts[i].tokenType != Semicolon
    decreases |ts| - k
  {
    if k < |ts| && ts[k].tokenType != Semicolon {
      NextSemicolonIsFirst(ts, k + 1);
    }
  }

  /** `while !peek_token_is(Semicolon) { next_token() }`. The loop tests only for `;`, never for
      `Eof`: it exits exactly when a `Semicolon` token lies ahead, and then it stops with the first
      one as the peek token; otherwise the lexer yields `Eof` forever and the loop never ends. */
  function SkipToSemicolon(ts: seq<Token>, s: ParserState): (r: Outcome<ParserState>)
    ensures r.Halts? <==> NextSemicolon(ts, s.pos + 1) < |ts|
    ensures r.Halts? ==> r.value == s.(pos := NextSemicolon(ts, s.pos + 1) - 1)
    decreases |ts| - s.pos
  {
    if Peek(ts, s).tokenType == Semicolon then Halts(s)
    else if |ts| <= s.pos + 1 then Diverges
    else SkipToSemicolon(ts, NextToken(s))
  }

  /** `parse_let_statement`. */
  function ParseLetStatement(ts: seq<Token>, s: ParserState): (r: Outcome<(Option<Statement>, ParserState)>)
    ensures r.Halts? ==> s.pos <= r.value.1.pos
  {
    var token := Current(ts, s);
    var (named, s1) := ExpectPeek(ts, s, Ident);
    if !named then Halts((None, s1))
    else
      var name := Identifier(Current(ts, s1), Current(ts, s1).literal);
      var (hasAssign, s2) := ExpectPeek(ts, s1, Assign);
      if !hasAssign then Halts((None, s2))
      else
        match SkipToSemicolon(ts, s2)
        case Diverges => Diverges
        case Halts(s3) => Halts((Some(Statement.Let(LetStatement(token, name, Current(ts, s3).literal))), s3))
  }

  /** `parse_return_statement`: it steps past the current token before it starts skipping. */
  function ParseReturnStatement(ts: seq<Token>, s: ParserState): (r: Outcome<(Option<Statement>, ParserState)>)
    ensures r.Halts? ==> s.pos < r.value.1.pos
  {
    var token := Current(ts, s);
    match SkipToSemicolon(ts, NextToken(s))
    case Diverges => Diverges
    case Halts(s2) => Halts((Some(Statement.Return(ReturnStatement(token, Current(ts, s2).literal))), s2))
  }

  /** `parse_statement`: dispatch on the current token's kind. */
  function ParseStatement(ts: seq<Token>, s: ParserState): (r: Outcome<(Option<Statement>, ParserState)>)
    ensures r.Halts? ==> s.pos <= r.value.1.pos
  {
    match Current(ts, s).tokenType
    case Let => ParseLetStatement(ts, s)
    case Return => ParseReturnStatement(ts, s)
    case _ => Halts((None, s))
  }

  /** The `parse_program` loop with `program` collected so far: until `Eof` is current, parse a
      statement, push it if there is one, and step once. */
  function ParseProgramLoop(ts: seq<Token>, s: ParserState, program: seq<Statement>): (r: Outcome<(seq<Statement>, ParserState)>)
    decreases |ts| - s.pos
  {
    if Current(ts, s).tokenType == Eof then Halts((program, s))
    else
      match ParseStatement(ts, s)
      case Diverges => Diverges
      case Halts((statement, s1)) =>
        ParseProgramLoop(ts, NextToken(s1), if statement.Some? then program + [statement.value] else program)
  }

  /** `parse_program`: the loop, starting from an empty program. */
  function ParseProgram(ts: seq<Token>, s: ParserState): Outcome<(seq<Statement>, ParserState)> {
    ParseProgramLoop(ts, s, [])
  }

  // ---------------------------------------------------------------------------------------------
  // Properties of the model

  /** `expect_peek` outcomes: on a match it advances once and logs nothing; otherwise it keeps
      both tokens and logs exactly one message naming the expected and the actual kind. */
  lemma ExpectPeekOutcomes(ts: seq<Token>, s: ParserState, k: TokenType)
    ensures var (ok, t) := ExpectPeek(ts, s, k);
      (ok <==> Peek(ts, s).tokenType == k) &&
      (ok ==> Current(ts, t) == Peek(ts, s) && t.errors == s.errors) &&
      (!ok ==> Current(ts, t) == Current(ts, s) && Peek(ts, t) == Peek(ts, s) &&
               t.errors == s.errors + [PeekMismatch(k, Peek(ts, s).tokenType)])
  {
  }

  /** Splitting at the first `sep`: a word without `sep` followed by text starting with `sep`. */
  lemma SplitAtSeparator(a1: string, t1: string, a2: string, t2: string, sep: char)
    requires a1 + t1 == a2 + t2
    requires forall i :: 0 <= i < |a1| ==> a1[i] != sep
    requires forall i :: 0 <= i < |a2| ==> a2[i] != sep
    requires |t1| > 0 && t1[0] == sep && |t2| > 0 && t2[0] == sep
    ensures a1 == a2 && t1 == t2
  {
    var m := a1 + t1;
    assert a1 == m[..|a1|] && a2 == m[..|a2|];
    assert t1 == m[|a1|..] && t2 == m[|a2|..];
  }

  lemma DropCommonPrefix(p: string, x: string, y: string)
    requires p + x == p + y
    ensures x == y
  {
    assert x == (p + x)[|p|..];
    assert y == (p + y)[|p|..];
  }

  /** A diagnostic determines the two kinds it was formatted from. */
  lemma PeekErrorMessageInjective(e1: TokenType, g1: TokenType, e2: TokenType, g2: TokenType)
    requires PeekErrorMessage(e1, g1) == PeekErrorMessage(e2, g2)
    ensures e1 == e2 && g1 == g2
  {
    var a1, a2 := KindName(e1), KindName(e2);
    var c1, c2 := KindName(g1), KindName(g2);
    KindNameIsWord(e1);
    KindNameIsWord(e2);
    KindNameIsWord(g1);
    KindNameIsWord(g2);
    var tail1, tail2 := ", got " + (c1 + " instead"), ", got " + (c2 + " instead");
    DropCommonPrefix("expected next token to be ", a1 + tail1, a2 + tail2);
    SplitAtSeparator(a1, tail1, a2, tail2, ',');
    KindNameInjective(e1, e2);
    DropCommonPrefix(", got ", c1 + " instead", c2 + " instead");
    SplitAtSeparator(c1, " instead", c2, " instead", ' ');
    KindNameInjective(g1, g2);
  }

  /** The strings `errors()` hands out determine the diagnostics behind them, in order. */
  lemma MessagesInjective(a: ErrorLog, b: ErrorLog)
    requires Messages(a) == Messages(b)
    ensures a == b
  {
    forall i | 0 <= i < |a|
      ensures a[i] == b[i]
    {
      assert Messages(a)[i] == Messages(b)[i];
      PeekErrorMessageInjective(a[i].expected, a[i].got, b[i].expected, b[i].got);
    }
  }

  /** A failed `let`: no statement and exactly one new error. If the peek token is not an
      identifier, nothing was consumed and the error names `Ident`; otherwise the parser stepped
      onto the identifier and the error names `Assign`. */
  lemma ParseLetStatementFailure(ts: seq<Token>, s: ParserState, t: ParserState)
    requires ParseLetStatement(ts, s) == Halts((None, t))
    ensures Peek(ts, s).tokenType != Ident ==>
      t == s.(errors := s.errors + [PeekMismatch(Ident, Peek(ts, s).tokenType)])
    ensures Peek(ts, s).tokenType == Ident ==>
      Peek(ts, NextToken(s)).tokenType != Assign &&
      t == NextToken(s).(errors := s.errors + [PeekMismatch(Assign, Peek(ts, NextToken(s)).tokenType)])
  {
  }

  /** A successful `let` reads `let <ident> = ... ;`: the keyword token, the identifier with its
      literal as the name, and as value the literal of the token just before the first `;` after
      the `=`. It logs nothing. */
  lemma ParseLetStatementSuccess(ts: seq<Token>, s: ParserState, st: Statement, t: ParserState)
    requires ParseLetStatement(ts, s) == Halts((Some(st), t))
    ensures Peek(ts, s).tokenType == Ident && TokenAt(ts, s.pos + 2).tokenType == Assign
    ensures NextSemicolon(ts, s.pos + 3) < |ts| && t.pos + 1 == NextSemicolon(ts, s.pos + 3)
    ensures t.errors == s.errors
    ensures st == Statement.Let(LetStatement(Current(ts, s), Identifier(Peek(ts, s), Peek(ts, s).literal), Current(ts, t).literal))
  {
    ParseLetStatementReachesSkip(ts, s, st, t);
    assert s.pos + 2 + 1 == s.pos + 3;
  }

  /** A successful `let` got past both `expect_peek` calls and then finished the skip loop. */
  lemma ParseLetStatementReachesSkip(ts: seq<Token>, s: ParserState, st: Statement, t: ParserState)
    requires ParseLetStatement(ts, s) == Halts((Some(st), t))
    ensures Peek(ts, s).tokenType == Ident && TokenAt(ts, s.pos + 2).tokenType == Assign
    ensures SkipToSemicolon(ts, s.(pos := s.pos + 2)) == Halts(t)
    ensures st == Statement.Let(LetStatement(Current(ts, s), Identifier(Peek(ts, s), Peek(ts, s).literal), Current(ts, t).literal))
  {
  }

  /** When `;` follows `=` directly, the value placeholder is the `=` token's literal. */
  lemma ParseLetValueWithoutExpression(ts: seq<Token>, s: ParserState)
    requires Peek(ts, s).tokenType == Ident
    requires TokenAt(ts, s.pos + 2).tokenType == Assign
    requires TokenAt(ts, s.pos + 3).tokenType == Semicolon
    ensures ParseLetStatement(ts, s) ==
      Halts((Some(Statement.Let(LetStatement(Current(ts, s), Identifier(Peek(ts, s), Peek(ts, s).literal),
                                             TokenAt(ts, s.pos + 2).literal))), s.(pos := s.pos + 2)))
  {
  }

  /** A successful `return`: the keyword token and, as value, the literal of the token just
      before the first `;` that comes at least two tokens after the keyword. */
  lemma ParseReturnStatementSuccess(ts: seq<Token>, s: ParserState, st: Statement, t: ParserState)
    requires ParseReturnStatement(ts, s) == Halts((Some(st), t))
    ensures NextSemicolon(ts, s.pos + 2) < |ts| && t.pos + 1 == NextSemicolon(ts, s.pos + 2)
    ensures t.errors == s.errors
    ensures st == Statement.Return(ReturnStatement(Current(ts, s), Current(ts, t).literal))
  {
    var r := SkipToSemicolon(ts, NextToken(s));
    assert r.Halts? && r.value == t;
  }

  /** `parse_return_statement` never fails: it either loops forever or yields a statement. */
  lemma ParseReturnStatementNeverNone(ts: seq<Token>, s: ParserState)
    requires ParseReturnStatement(ts, s).Halts?
    ensures ParseReturnStatement(ts, s).value.0.Some?
  {
  }

  /** `parse_statement` only acts on `let` and `return`; other tokens leave the state alone. */
  lemma ParseStatementDispatch(ts: seq<Token>, s: ParserState)
    ensures Current(ts, s).tokenType == TokenType.Let ==> ParseStatement(ts, s) == ParseLetStatement(ts, s)
    ensures Current(ts, s).tokenType == TokenType.Return ==> ParseStatement(ts, s) == ParseReturnStatement(ts, s)
    ensures Current(ts, s).tokenType != TokenType.Let && Current(ts, s).tokenType != TokenType.Return ==>
      ParseStatement(ts, s) == Halts((None, s))
  {
  }

  /** What a statement produced by `parse_statement` looks like. */
  predicate WellFormedStatement(st: Statement) {
    match st
    case Let(l) => l.token.tokenType == TokenType.Let && l.name.token.tokenType == Ident &&
                   l.name.value == l.name.token.literal
    case Return(r) => r.token.tokenType == TokenType.Return
  }

  /** A statement starts with its keyword token, fits `WellFormedStatement`, and comes with no new error. */
  lemma ParseStatementWellFormed(ts: seq<Token>, s: ParserState, st: Statement, t: ParserState)
    requires ParseStatement(ts, s) == Halts((Some(st), t))
    ensures WellFormedStatement(st) && KeywordToken(st) == Current(ts, s)
    ensures t.errors == s.errors
  {
  }

  /** `parse_statement` adds at most one entry to the error log and keeps the earlier ones. */
  lemma ParseStatementKeepsErrors(ts: seq<Token>, s: ParserState)
    requires ParseStatement(ts, s).Halts?
    ensures var e := ParseStatement(ts, s).value.1.errors;
      s.errors <= e && |e| <= |s.errors| + 1
    ensures Messages(s.errors) <= Messages(ParseStatement(ts, s).value.1.errors)
  {
  }

  /** `parse_program` steps over every token that starts no statement, up to the first `Eof`. */
  lemma {:induction false} LoopSkipsToEof(ts: seq<Token>, s: ParserState, program: seq<Statement>, j: nat)
    requires s.pos <= j && TokenAt(ts, j).tokenType == Eof
    requires forall k :: s.pos <= k < j ==> TokenAt(ts, k).tokenType !in {Eof, TokenType.Let, TokenType.Return}
    ensures ParseProgramLoop(ts, s, program) == Halts((program, s.(pos := j)))
    decreases j - s.pos
  {
    if s.pos < j {
      LoopSkipsToEof(ts, NextToken(s), program, j);
    }
  }

  /** The statement `parse_let_statement` builds from a line `let <ident> = <value> ;` that
      starts at token `i`: the `let` token, the name, and the literal of the value token. */
  ghost function LetAt(ts: seq<Token>, i: nat): Statement {
    Statement.Let(LetStatement(TokenAt(ts, i), Identifier(TokenAt(ts, i + 1), TokenAt(ts, i + 1).literal), TokenAt(ts, i + 3).literal))
  }

  /** A line `let <ident> = <value> ;` yields one statement and leaves the parser on the token
      after the `;`. */
  lemma LoopTakesLetLine(ts: seq<Token>, s: ParserState, program: seq<Statement>)
    requires TokenAt(ts, s.pos).tokenType == TokenType.Let && TokenAt(ts, s.pos + 1).tokenType == Ident
    requires TokenAt(ts, s.pos + 2).tokenType == Assign
    requires TokenAt(ts, s.pos + 3).tokenType != Semicolon && TokenAt(ts, s.pos + 4).tokenType == Semicolon
    ensures ParseProgramLoop(ts, s, program) == ParseProgramLoop(ts, s.(pos := s.pos + 5), program + [LetAt(ts, s.pos)])
  {
    var s2, s3 := s.(pos := s.pos + 2), s.(pos := s.pos + 3);
    var st := LetAt(ts, s.pos);
    assert SkipToSemicolon(ts, s2) == Halts(s3);
    assert ParseStatement(ts, s) == Halts((Some(st), s3));
    assert ParseProgramLoop(ts, s, program) == ParseProgramLoop(ts, NextToken(s3), program + [st]);
    assert ParseStatement(ts, NextToken(s3)) == Halts((None, NextToken(s3)));
  }

  /** The skip loop of `parse_let_statement` never tests for `Eof`: a well-begun `let` with no
      `;` token after its `=` keeps the whole `parse_program` loop running forever. */
  lemma LetWithoutSemicolonDiverges(ts: seq<Token>, s: ParserState, program: seq<Statement>)
    requires Current(ts, s).tokenType == TokenType.Let && TokenAt(ts, s.pos + 1).tokenType == Ident
    requires TokenAt(ts, s.pos + 2).tokenType == Assign
    requires forall k :: s.pos + 3 <= k < |ts| ==> ts[k].tokenType != Semicolon
    ensures ParseProgramLoop(ts, s, program) == Diverges
  {
    assert NextSemicolon(ts, s.pos + 3) == |ts|;
    assert SkipToSemicolon(ts, s.(pos := s.pos + 2)) == Diverges;
  }

  /** The same for `return`: with no `;` token two or more tokens after the keyword, the loop
      never ends. */
  lemma ReturnWithoutSemicolonDiverges(ts: seq<Token>, s: ParserState, program: seq<Statement>)
    requires Current(ts, s).tokenType == TokenType.Return
    requires forall k :: s.pos + 2 <= k < |ts| ==> ts[k].tokenType != Semicolon
    ensures ParseProgramLoop(ts, s, program) == Diverges
  {
    assert NextSemicolon(ts, s.pos + 2) == |ts|;
    assert SkipToSemicolon(ts, NextToken(s)) == Diverges;
  }

  /** A halting `parse_program` loop stops with `Eof` current and only appends to the error log. */
  lemma {:induction false} LoopEndsAtEof(ts: seq<Token>, s: ParserState, acc: seq<Statement>, program: seq<Statement>, t: ParserState)
    requires ParseProgramLoop(ts, s, acc) == Halts((program, t))
    ensures Current(ts, t).tokenType == Eof
    ensures s.errors <= t.errors
    ensures Messages(s.errors) <= Messages(t.errors)
    decreases |ts| - s.pos
  {
    if Current(ts, s).tokenType != Eof {
      var (statement, s1) := ParseStatement(ts, s).value;
      var acc1 := if statement.Some? then acc + [statement.value] else acc;
      ParseStatementKeepsErrors(ts, s);
      LoopEndsAtEof(ts, NextToken(s1), acc1, program, t);
    }
  }

  /** A halting `parse_program` loop keeps what it had collected, and every statement it adds
      is well formed. */
  lemma {:induction false} LoopAddsWellFormed(ts: seq<Token>, s: ParserState, acc: seq<Statement>, program: seq<Statement>, t: ParserState)
    requires ParseProgramLoop(ts, s, acc) == Halts((program, t))
    ensures acc <= program
    ensures forall i :: |acc| <= i < |program| ==> WellFormedStatement(program[i])
    decreases |ts| - s.pos
  {
    if Current(ts, s).tokenType != Eof {
      var (statement, s1) := ParseStatement(ts, s).value;
      var acc1 := if statement.Some? then acc + [statement.value] else acc;
      LoopAddsWellFormed(ts, NextToken(s1), acc1, program, t);
      if statement.Some? {
        ParseStatementWellFormed(ts, s, statement.value, s1);
      }
    }
  }

  /** The statements `stmts` begin at the stream positions `ps`: each position lies in
      `[lo, hi)` and holds the statement's keyword token, and the positions strictly increase,
      so the statements come in source order. */
  predicate InOrderAt(ts: seq<Token>, lo: nat, hi: nat, stmts: seq<Statement>, ps: seq<nat>) {
    |ps| == |stmts| &&
    (forall i :: 0 <= i < |ps| ==> lo <= ps[i] < hi && KeywordToken(stmts[i]) == TokenAt(ts, ps[i])) &&
    (forall i, j :: 0 <= i < j < |ps| ==> ps[i] < ps[j])
  }

  /** Source order survives a wider range. */
  lemma InOrderWiden(ts: seq<Token>, lo: nat, mid: nat, hi: nat, stmts: seq<Statement>, ps: seq<nat>)
    requires lo <= mid && InOrderAt(ts, mid, hi, stmts, ps)
    ensures InOrderAt(ts, lo, hi, stmts, ps)
  {
  }

  /** A statement whose keyword token sits at `lo`, followed by statements in order after `lo`. */
  lemma InOrderCons(ts: seq<Token>, lo: nat, hi: nat, st: Statement, rest: seq<Statement>, ps: seq<nat>)
    requires lo < hi && KeywordToken(st) == TokenAt(ts, lo)
    requires InOrderAt(ts, lo + 1, hi, rest, ps)
    ensures InOrderAt(ts, lo, hi, [st] + rest, [lo] + ps)
  {
  }

  /** A halting `parse_program` loop appends its statements in the order their keyword tokens
      appear in the stream, between where it starts and where it stops. */
  lemma {:induction false} LoopInSourceOrder(ts: seq<Token>, s: ParserState, acc: seq<Statement>, program: seq<Statement>, t: ParserState)
    requires ParseProgramLoop(ts, s, acc) == Halts((program, t))
    ensures acc <= program && s.pos <= t.pos
    ensures exists ps :: InOrderAt(ts, s.pos, t.pos, program[|acc|..], ps)
    decreases |ts| - s.pos
  {
    if Current(ts, s).tokenType == Eof {
      assert InOrderAt(ts, s.pos, t.pos, program[|acc|..], []);
    } else {
      var (statement, s1) := ParseStatement(ts, s).value;
      var acc1 := if statement.Some? then acc + [statement.value] else acc;
      var s2 := NextToken(s1);
      assert ParseProgramLoop(ts, s2, acc1) == Halts((program, t));
      LoopInSourceOrder(ts, s2, acc1, program, t);
      var ps1 :| InOrderAt(ts, s2.pos, t.pos, program[|acc1|..], ps1);
      InOrderWiden(ts, s.pos + 1, s2.pos, t.pos, program[|acc1|..], ps1);
      if statement.Some? {
        ParseStatementWellFormed(ts, s, statement.value, s1);
        InOrderCons(ts, s.pos, t.pos, statement.value, program[|acc1|..], ps1);
        assert program[|acc|..] == [statement.value] + program[|acc1|..];
      } else {
        InOrderWiden(ts, s.pos, s.pos + 1, t.pos, program[|acc1|..], ps1);
      }
    }
  }

  /** A halting `parse_program` stops with `Eof` current, only appends to the error log, and
      returns well-formed statements in source order. */
  lemma ParseProgramResult(ts: seq<Token>, s: ParserState, program: seq<Statement>, t: ParserState)
    requires ParseProgram(ts, s) == Halts((program, t))
    ensures Current(ts, t).tokenType == Eof
    ensures s.errors <= t.errors
    ensures Messages(s.errors) <= Messages(t.errors)
    ensures forall i :: 0 <= i < |program| ==> WellFormedStatement(program[i])
    ensures exists ps :: InOrderAt(ts, s.pos, t.pos, program, ps)
  {
    LoopEndsAtEof(ts, s, [], program, t);
    LoopAddsWellFormed(ts, s, [], program, t);
    LoopInSourceOrder(ts, s, [], program, t);
    assert program[0..] == program;
  }

  /** On a stream without `Return` tokens the loop adds only `let` statements. */
  lemma {:induction false} LoopWithoutReturnTokens(ts: seq<Token>, s: ParserState, acc: seq<Statement>, program: seq<Statement>, t: ParserState)
    requires forall k :: 0 <= k < |ts| ==> ts[k].tokenType != TokenType.Return
    requires ParseProgramLoop(ts, s, acc) == Halts((program, t))
    ensures acc <= program
    ensures forall i :: |acc| <= i < |program| ==> program[i].Let?
    decreases |ts| - s.pos
  {
    if Current(ts, s).tokenType != Eof {
      var (statement, s1) := ParseStatement(ts, s).value;
      var acc1 := if statement.Some? then acc + [statement.value] else acc;
      LoopWithoutReturnTokens(ts, NextToken(s1), acc1, program, t);
      if statement.Some? {
        ParseStatementWellFormed(ts, s, statement.value, s1);
      }
    }
  }

  /** On a stream without `Return` tokens, such as every stream the lexer yields, a program holds
      only `let` statements. */
  lemma ProgramWithoutReturnTokens(ts: seq<Token>, s: ParserState, program: seq<Statement>, t: ParserState)
    requires forall k :: 0 <= k < |ts| ==> ts[k].tokenType != TokenType.Return
    requires ParseProgram(ts, s) == Halts((program, t))
    ensures forall i :: 0 <= i < |program| ==> program[i].Let?
  {
    LoopWithoutReturnTokens(ts, s, [], program, t);
  }

  /** No stream the lexer yields holds a `Return` token, so a program parsed from the lexer's
      output holds only `let` statements: the `return` path is reached only by streams built by hand. */
  lemma LexerProgramHoldsOnlyLets(input: seq<Byte>, p: nat, s: ParserState, program: seq<Statement>, t: ParserState)
    requires IsAscii(input) && ParseProgram(TokenStream(input, p), s) == Halts((program, t))
    ensures forall i :: 0 <= i < |program| ==> program[i].Let?
  {
    var ts := TokenStream(input, p);
    forall k | 0 <= k < |ts| ensures ts[k].tokenType != TokenType.Return {
      StreamHasNoReturn(input, p, k);
    }
    ProgramWithoutReturnTokens(ts, s, program, t);
  }
}
