/** The byte-cursor lexer (src/lexer.rs): pure classifiers and a reference scanner `Scan`,
    and the `Lexer` class whose methods move the cursor as the Rust code does. */
module Lexing {
  import opened Tokens

  /** One byte of the source buffer, written as the character with the same code. */
  type Byte = c: char | c as int < 0x100

  /** The value `ch` holds once the cursor has run past the end of the input. */
  const Nul: Byte := '\0'

  predicate IsLetter(ch: Byte) {
    'a' <= ch <= 'z' || 'A' <= ch <= 'Z' || ch == '_'
  }

  predicate IsDigit(ch: Byte) {
    '0' <= ch <= '9'
  }

  predicate IsWhitespace(ch: Byte) {
    ch == ' ' || ch == '\t' || ch == '\n' || ch == '\r'
  }

  predicate IsAscii(input: seq<Byte>) {
    forall i :: 0 <= i < |input| ==> input[i] as int < 0x80
  }

  /** The byte `read_char` loads for position `p`: the input byte, or 0 past the end. */
  function ByteAt(input: seq<Byte>, p: nat): Byte {
    if p < |input| then input[p] else Nul
  }

  /** The three kinds of byte run the lexer skips or collects with a `while` loop. */
  datatype Run = Whitespace | Letters | Digits

  predicate InRun(run: Run, ch: Byte) {
    match run
    case Whitespace => IsWhitespace(ch)
    case Letters => IsLetter(ch)
    case Digits => IsDigit(ch)
  }

  /** Where a run of `run` bytes starting at `p` ends: the first position whose byte is not in the run. */
  function RunEnd(input: seq<Byte>, p: nat, run: Run): (e: nat)
    ensures p <= e
    ensures !InRun(run, ByteAt(input, e))
    ensures p <= |input| ==> e <= |input|
    decreases |input| - p
  {
    if InRun(run, ByteAt(input, p)) then RunEnd(input, p + 1, run) else p
  }

  /** Every byte from `p` up to the end of the run belongs to the run. */
  lemma {:induction false} RunEndSpans(input: seq<Byte>, p: nat, run: Run)
    ensures forall i :: p <= i < RunEnd(input, p, run) ==> InRun(run, ByteAt(input, i))
    decreases |input| - p
  {
    if InRun(run, ByteAt(input, p)) {
      RunEndSpans(input, p + 1, run);
    }
  }

  /** Every byte from `p` up to `e` belongs to the run. */
  predicate Spans(input: seq<Byte>, p: nat, e: nat, run: Run)
    decreases e - p
  {
    p >= e || (InRun(run, ByteAt(input, p)) && Spans(input, p + 1, e, run))
  }

  /** No run holds the byte 0, so a nonempty run lies inside the input. */
  lemma {:induction false} SpansInsideInput(input: seq<Byte>, p: nat, e: nat, run: Run)
    requires p < e && Spans(input, p, e, run)
    ensures e <= |input|
    decreases e - p
  {
    if p + 1 < e {
      SpansInsideInput(input, p + 1, e, run);
    }
  }

  /** The converse of `RunEndSpans`: a run is known by its bounds. If the bytes from `p` up
      to `e` are in the run and the byte at `e` is not, the run from `p` ends at `e`. */
  lemma {:induction false} RunEndAt(input: seq<Byte>, p: nat, e: nat, run: Run)
    requires p <= e && Spans(input, p, e, run) && !InRun(run, ByteAt(input, e))
    ensures RunEnd(input, p, run) == e
    decreases e - p
  {
    if p < e {
      RunEndAt(input, p + 1, e, run);
    }
  }

  /** The position `next_token` classifies from `p`, once whitespace is skipped. */
  function TokenStart(input: seq<Byte>, p: nat): nat {
    RunEnd(input, p, Whitespace)
  }

  /** `generate_new_token` unwraps `from_utf8` of a single byte, which fails on a byte >= 0x80. */
  function GenerateNewToken(tokenType: TokenType, ch: Byte): Token
    requires ch as int < 0x80
  {
    Token(tokenType, [ch])
  }

  /** The `match self.ch` table of `next_token`, including its arms for letters and digits. */
  function SingleByteKind(ch: Byte): TokenType {
    if ch == ';' then Semicolon
    else if ch == ',' then Comma
    else if ch == '+' then Plus
    else if ch == '=' then Assign
    else if 'a' <= ch <= 'z' || 'A' <= ch <= 'Z' then Ident
    else if '0' <= ch <= '9' then Int
    else if ch == '(' then Lparen
    else if ch == ')' then Rparen
    else if ch == '{' then Lbrace
    else if ch == '}' then Rbrace
    else if ch == Nul then Eof
    else Illegal
  }

  /** A token together with the cursor position after it. */
  datatype Lexed = Lexed(token: Token, next: nat)

  /** `next_token` does not panic from `p`: the byte it will classify is below 0x80. */
  predicate CanScan(input: seq<Byte>, p: nat) {
    ByteAt(input, TokenStart(input, p)) as int < 0x80
  }

  /** The token `next_token` returns when called with the cursor at `p`, and the new cursor. */
  function Scan(input: seq<Byte>, p: nat): (r: Lexed)
    requires CanScan(input, p)
    ensures p < r.next
    ensures r.token.tokenType != Return
  {
    var q := TokenStart(input, p);
    var c := ByteAt(input, q);
    if IsLetter(c) then
      var e := RunEnd(input, q, Letters);
      Lexed(Token(LookupIdent(input[q..e]), input[q..e]), e)
    else if IsDigit(c) then
      var e := RunEnd(input, q, Digits);
      Lexed(Token(Int, input[q..e]), e)
    else
      Lexed(GenerateNewToken(SingleByteKind(c), c), q + 1)
  }

  lemma AsciiCanScan(input: seq<Byte>, p: nat)
    requires IsAscii(input)
    ensures CanScan(input, p)
  {
  }

  /** A word: the literal is the maximal letter run at the token start, classified by the keyword table. */
  lemma ScanIdentifier(input: seq<Byte>, p: nat)
    requires CanScan(input, p)
    requires IsLetter(ByteAt(input, TokenStart(input, p)))
    ensures var q, r := TokenStart(input, p), Scan(input, p);
      q < r.next <= |input| &&
      r.token.literal == input[q..r.next] &&
      (forall i :: q <= i < r.next ==> IsLetter(input[i])) &&
      !IsLetter(ByteAt(input, r.next)) &&
      r.token.tokenType == LookupIdent(r.token.literal)
  {
    var q := TokenStart(input, p);
    var e := RunEnd(input, q, Letters);
    RunEndSpans(input, q, Letters);
    forall i | q <= i < e ensures IsLetter(input[i]) {
      assert InRun(Letters, ByteAt(input, i));
    }
  }

  /** A number: the literal is the maximal digit run at the token start. */
  lemma ScanNumber(input: seq<Byte>, p: nat)
    requires CanScan(input, p)
    requires IsDigit(ByteAt(input, TokenStart(input, p)))
    ensures var q, r := TokenStart(input, p), Scan(input, p);
      q < r.next <= |input| &&
      r.token == Token(Int, input[q..r.next]) &&
      (forall i :: q <= i < r.next ==> IsDigit(input[i])) &&
      !IsDigit(ByteAt(input, r.next))
  {
    var q := TokenStart(input, p);
    var e := RunEnd(input, q, Digits);
    RunEndSpans(input, q, Digits);
    forall i | q <= i < e ensures IsDigit(input[i]) {
      assert InRun(Digits, ByteAt(input, i));
    }
  }

  /** Any other byte is one token whose literal is exactly that byte; the cursor moves past it. */
  lemma ScanSingleByte(input: seq<Byte>, p: nat)
    requires CanScan(input, p)
    requires var c := ByteAt(input, TokenStart(input, p)); !IsLetter(c) && !IsDigit(c)
    ensures var q := TokenStart(input, p); var c := ByteAt(input, q);
      Scan(input, p) == Lexed(Token(SingleByteKind(c), [c]), q + 1)
  {
  }

  /** A word known by its bounds: blanks from `p` to `q`, letters from `q` to `e`, then a
      byte that is no letter. The call returns the word, classified by the keyword table. */
  lemma ScanWordAt(input: seq<Byte>, p: nat, q: nat, e: nat)
    requires p <= q < e
    requires Spans(input, p, q, Whitespace) && Spans(input, q, e, Letters) && !IsLetter(ByteAt(input, e))
    ensures e <= |input| && CanScan(input, p)
    ensures Scan(input, p) == Lexed(Token(LookupIdent(input[q..e]), input[q..e]), e)
  {
    RunEndAt(input, p, q, Whitespace);
    RunEndAt(input, q, e, Letters);
    SpansInsideInput(input, q, e, Letters);
  }

  /** A number known by its bounds, in the same way. */
  lemma ScanNumberAt(input: seq<Byte>, p: nat, q: nat, e: nat)
    requires p <= q < e
    requires Spans(input, p, q, Whitespace) && Spans(input, q, e, Digits) && !IsDigit(ByteAt(input, e))
    ensures e <= |input| && CanScan(input, p)
    ensures Scan(input, p) == Lexed(Token(Int, input[q..e]), e)
  {
    RunEndAt(input, p, q, Whitespace);
    RunEndAt(input, q, e, Digits);
    SpansInsideInput(input, q, e, Digits);
  }

  /** Any other byte below 0x80 after the blanks is a token of its own. */
  lemma ScanByteAt(input: seq<Byte>, p: nat, q: nat)
    requires p <= q && Spans(input, p, q, Whitespace)
    requires var c := ByteAt(input, q); !IsWhitespace(c) && !IsLetter(c) && !IsDigit(c) && c as int < 0x80
    ensures CanScan(input, p)
    ensures Scan(input, p) == Lexed(Token(SingleByteKind(ByteAt(input, q)), [ByteAt(input, q)]), q + 1)
  {
    RunEndAt(input, p, q, Whitespace);
  }

  /** The single-byte table, both directions: eight punctuation bytes, 0 for the end, and
      `Illegal` for everything else, including `- ! * / < >`. */
  lemma SingleByteKindTable(c: Byte)
    requires !IsLetter(c) && !IsDigit(c)
    ensures SingleByteKind(c) == Semicolon <==> c == ';'
    ensures SingleByteKind(c) == Comma <==> c == ','
    ensures SingleByteKind(c) == Plus <==> c == '+'
    ensures SingleByteKind(c) == Assign <==> c == '='
    ensures SingleByteKind(c) == Lparen <==> c == '('
    ensures SingleByteKind(c) == Rparen <==> c == ')'
    ensures SingleByteKind(c) == Lbrace <==> c == '{'
    ensures SingleByteKind(c) == Rbrace <==> c == '}'
    ensures SingleByteKind(c) == Eof <==> c == Nul
    ensures SingleByteKind(c) == Illegal <==>
      c !in {';', ',', '+', '=', '(', ')', '{', '}', Nul}
  {
  }

  lemma NoTwoByteOperators()
    ensures SingleByteKind('-') == Illegal && SingleByteKind('!') == Illegal
    ensures SingleByteKind('*') == Illegal && SingleByteKind('/') == Illegal
    ensures SingleByteKind('<') == Illegal && SingleByteKind('>') == Illegal
  {
  }

  /** `Eof` comes out exactly when the classified byte is 0, with the one-byte literal "\0". */
  lemma ScanEof(input: seq<Byte>, p: nat)
    requires CanScan(input, p)
    ensures Scan(input, p).token.tokenType == Eof <==> ByteAt(input, TokenStart(input, p)) == Nul
    ensures Scan(input, p).token.tokenType == Eof ==> Scan(input, p).token.literal == [Nul]
  {
  }

  /** A token other than `Eof` lies inside the input. */
  lemma ScanInsideInput(input: seq<Byte>, p: nat)
    requires CanScan(input, p)
    requires Scan(input, p).token.tokenType != Eof
    ensures Scan(input, p).next <= |input|
  {
  }

  /** An embedded 0 byte yields `Eof` in the middle of the input, and the cursor moves on past it. */
  lemma ScanEmbeddedNul(input: seq<Byte>, p: nat)
    requires CanScan(input, p)
    requires TokenStart(input, p) < |input| && input[TokenStart(input, p)] == Nul
    ensures Scan(input, p) == Lexed(Token(Eof, [Nul]), TokenStart(input, p) + 1)
    ensures Scan(input, p).next <= |input|
  {
  }

  /** Past the end of the input every call yields `Eof` and moves the cursor by one. */
  lemma ScanPastEnd(input: seq<Byte>, p: nat)
    requires |input| <= p
    ensures CanScan(input, p)
    ensures Scan(input, p) == Lexed(Token(Eof, [Nul]), p + 1)
  {
  }

  /** The token every `next_token` call yields once the cursor has run past the end of the input. */
  const EofToken: Token := Token(Eof, [Nul])

  /** What successive `next_token` calls return with the cursor starting at `p`: each token with
      the cursor after it, up to and including the call that classifies the byte at or past the
      end of the input. An embedded 0 byte yields an `Eof` in the middle and scanning goes on. */
  function Lexemes(input: seq<Byte>, p: nat): (ls: seq<Lexed>)
    requires IsAscii(input)
    ensures |ls| > 0 && ls[0] == Scan(input, p)
    ensures ls[|ls| - 1].token == EofToken && |input| < ls[|ls| - 1].next
    decreases |input| - p
  {
    var r := Scan(input, p);
    if TokenStart(input, p) < |input| then [r] + Lexemes(input, r.next) else [r]
  }

  /** The result of the `k`-th `next_token` call (counting from 0) with the cursor starting at
      `p`: after the lexemes, `Eof` with the cursor one further each time. */
  function LexAt(input: seq<Byte>, p: nat, k: nat): Lexed
    requires IsAscii(input)
  {
    var ls := Lexemes(input, p);
    if k < |ls| then ls[k] else Lexed(EofToken, ls[|ls| - 1].next + (k - (|ls| - 1)))
  }

  lemma LexAtShift(input: seq<Byte>, p: nat, k: nat)
    requires IsAscii(input) && TokenStart(input, p) < |input|
    ensures LexAt(input, p, k + 1) == LexAt(input, Scan(input, p).next, k)
  {
    var ls, tail := Lexemes(input, p), Lexemes(input, Scan(input, p).next);
    assert ls == [Scan(input, p)] + tail;
    assert ls[|ls| - 1] == tail[|tail| - 1];
  }

  /** The first call scans from `p`. */
  lemma LexAtFirst(input: seq<Byte>, p: nat)
    requires IsAscii(input)
    ensures LexAt(input, p, 0) == Scan(input, p)
  {
  }

  /** `LexAt` is `Scan` iterated: every later call scans from the cursor the previous one left. */
  lemma {:induction false} LexAtStep(input: seq<Byte>, p: nat, k: nat)
    requires IsAscii(input)
    ensures Scan(input, LexAt(input, p, k).next) == LexAt(input, p, k + 1)
    decreases |input| - p
  {
    if TokenStart(input, p) < |input| {
      var q := Scan(input, p).next;
      LexAtShift(input, p, k);
      if k > 0 {
        LexAtShift(input, p, k - 1);
        LexAtStep(input, q, k - 1);
      } else {
        LexAtFirst(input, p);
        LexAtFirst(input, q);
      }
    } else {
      LexAtStepPastEnd(input, p, k);
    }
  }

  /** Once the cursor starts at the end, every call yields `Eof` one byte further on. */
  lemma LexAtStepPastEnd(input: seq<Byte>, p: nat, k: nat)
    requires IsAscii(input) && |input| <= TokenStart(input, p)
    ensures Scan(input, LexAt(input, p, k).next) == LexAt(input, p, k + 1)
  {
    ScanPastEnd(input, LexAt(input, p, k).next);
  }

  /** The `k`-th token of the stream `ts`: the lexer yields `EofToken` after the tokens stored. */
  function TokenAt(ts: seq<Token>, k: nat): Token {
    if k < |ts| then ts[k] else EofToken
  }

  /** The tokens of `Lexemes`. */
  function TokenStream(input: seq<Byte>, p: nat): (ts: seq<Token>)
    requires IsAscii(input)
  {
    var ls := Lexemes(input, p);
    seq(|ls|, k requires 0 <= k < |ls| => ls[k].token)
  }

  /** Every token of the stream, past its end included, is what the `k`-th call returns. */
  lemma StreamAt(input: seq<Byte>, p: nat, k: nat)
    requires IsAscii(input)
    ensures TokenAt(TokenStream(input, p), k) == LexAt(input, p, k).token
  {
  }

  /** A call made where the `k`-th call left the cursor yields the stream's next token and
      leaves the cursor where the `k + 1`-th call does. */
  lemma StreamNext(input: seq<Byte>, p: nat, k: nat, token: Token, q: nat)
    requires IsAscii(input)
    requires Lexed(token, q) == Scan(input, LexAt(input, p, k).next)
    ensures token == TokenAt(TokenStream(input, p), k + 1)
    ensures q == LexAt(input, p, k + 1).next
  {
    LexAtStep(input, p, k);
    StreamAt(input, p, k + 1);
  }

  /** The lexer never yields `Return`: the keyword table has no entry for `return`. */
  lemma StreamHasNoReturn(input: seq<Byte>, p: nat, k: nat)
    requires IsAscii(input)
    ensures TokenAt(TokenStream(input, p), k).tokenType != Return
  {
    StreamAt(input, p, k);
    if k > 0 {
      LexAtStep(input, p, k - 1);
    } else {
      LexAtFirst(input, p);
    }
  }

  /** Where the cursor stands before the `k`-th call. */
  function CursorBefore(input: seq<Byte>, p: nat, k: nat): nat
    requires IsAscii(input)
  {
    if k == 0 then p else LexAt(input, p, k - 1).next
  }

  /** A stream token is what one `Scan` call returns: the one from the cursor the calls before
      it left. */
  lemma StreamIsScanned(input: seq<Byte>, p: nat, k: nat)
    requires IsAscii(input)
    ensures TokenAt(TokenStream(input, p), k) == Scan(input, CursorBefore(input, p, k)).token
  {
    StreamAt(input, p, k);
    if k > 0 {
      LexAtStep(input, p, k - 1);
    } else {
      LexAtFirst(input, p);
    }
  }

  /** Every call before the last of `Lexemes` leaves the cursor inside the input. */
  lemma {:induction false} LexemesInsideInput(input: seq<Byte>, p: nat, i: nat)
    requires IsAscii(input) && i + 1 < |Lexemes(input, p)|
    ensures Lexemes(input, p)[i].next <= |input|
    decreases |input| - p
  {
    var r := Scan(input, p);
    assert Lexemes(input, p) == [r] + Lexemes(input, r.next);
    if i == 0 {
      var c := ByteAt(input, TokenStart(input, p));
      if IsLetter(c) {
        ScanIdentifier(input, p);
      } else if IsDigit(c) {
        ScanNumber(input, p);
      }
    } else {
      LexemesInsideInput(input, r.next, i - 1);
    }
  }

  /** Once a call has left the cursor past the end of the input, it and every later call
      yield `EofToken`. */
  lemma StreamPastEnd(input: seq<Byte>, p: nat, k: nat)
    requires IsAscii(input) && |input| < LexAt(input, p, k).next
    ensures forall j :: k <= j ==> TokenAt(TokenStream(input, p), j) == EofToken
  {
    var ls := Lexemes(input, p);
    if k + 1 < |ls| {
      LexemesInsideInput(input, p, k);
    }
    forall j | k <= j ensures TokenAt(TokenStream(input, p), j) == EofToken {
      StreamAt(input, p, j);
    }
  }

  /** Stream tokens of kind `Assign` are the one byte `=`. */
  lemma StreamAssignLiteral(input: seq<Byte>, p: nat, k: nat)
    requires IsAscii(input) && TokenAt(TokenStream(input, p), k).tokenType == Assign
    ensures TokenAt(TokenStream(input, p), k).literal == "="
  {
    StreamIsScanned(input, p, k);
    SingleByteKindTable(ByteAt(input, TokenStart(input, CursorBefore(input, p, k))));
  }

  /** A `Semicolon` token in the stream comes from a `;` byte of the input, at the position the
      call classified, and its literal is that byte. */
  lemma StreamSemicolonIsByte(input: seq<Byte>, p: nat, k: nat)
    requires IsAscii(input) && TokenAt(TokenStream(input, p), k).tokenType == Semicolon
    ensures var q := TokenStart(input, CursorBefore(input, p, k));
      q < |input| && input[q] == ';' && TokenAt(TokenStream(input, p), k).literal == ";"
  {
    StreamIsScanned(input, p, k);
    SingleByteKindTable(ByteAt(input, TokenStart(input, CursorBefore(input, p, k))));
  }

  /** The byte-cursor state machine. */
  class Lexer {
    const input: seq<Byte>
    var position: nat
    var readPosition: nat
    var ch: Byte

    /** The cursor invariant that every `read_char` re-establishes. */
    ghost predicate Valid()
      reads this
    {
      readPosition == position + 1 && ch == ByteAt(input, position)
    }

    constructor (input: seq<Byte>)
      ensures Valid() && this.input == input
      ensures position == 0 && readPosition == 1
      ensures ch == ByteAt(input, 0)
    {
      this.input := input;
      position := 0;
      readPosition := 0;
      ch := Nul;
      new;
      ReadChar();
    }

    method ReadChar()
      modifies this
      ensures position == old(readPosition) && readPosition == position + 1
      ensures ch == ByteAt(input, position)
    {
      if readPosition >= |input| {
        ch := Nul;
      } else {
        ch := input[readPosition];
      }
      position := readPosition;
      readPosition := readPosition + 1;
    }

    method SkipWhitespace()
      requires Valid()
      modifies this
      ensures Valid() && position == TokenStart(input, old(position))
      ensures !IsWhitespace(ch)
    {
      while IsWhitespace(ch)
        invariant Valid() && old(position) <= position
        invariant RunEnd(input, position, Whitespace) == RunEnd(input, old(position), Whitespace)
        decreases |input| - position
      {
        ReadChar();
      }
    }

    /** Collects the maximal letter run at the cursor. Slicing the input panics past its end,
        hence the bound on `position`. */
    method ReadIdentifier() returns (s: string)
      requires Valid() && position <= |input|
      modifies this
      ensures Valid() && position == RunEnd(input, old(position), Letters)
      ensures s == input[old(position)..position]
    {
      var start := position;
      while IsLetter(ch)
        invariant Valid() && start <= position <= |input|
        invariant RunEnd(input, position, Letters) == RunEnd(input, start, Letters)
        decreases |input| - position
      {
        ReadChar();
      }
      s := input[start..position];
    }

    /** Collects the maximal digit run at the cursor. */
    method ReadNumber() returns (s: string)
      requires Valid() && position <= |input|
      modifies this
      ensures Valid() && position == RunEnd(input, old(position), Digits)
      ensures s == input[old(position)..position]
    {
      var start := position;
      while IsDigit(ch)
        invariant Valid() && start <= position <= |input|
        invariant RunEnd(input, position, Digits) == RunEnd(input, start, Digits)
        decreases |input| - position
      {
        ReadChar();
      }
      s := input[start..position];
    }

    /** Returns the next token and leaves the cursor after it, exactly as `Scan` describes. */
    method NextToken() returns (token: Token)
      requires Valid() && CanScan(input, position)
      modifies this
      ensures Valid()
      ensures Lexed(token, position) == Scan(input, old(position))
    {
      token := Token(Illegal, "");
      SkipWhitespace();
      if IsLetter(ch) {
        var literal := ReadIdentifier();
        token := token.(literal := literal);
        token := token.(tokenType := LookupIdent(token.literal));
        return;
      } else if IsDigit(ch) {
        token := token.(tokenType := Int);
        var literal := ReadNumber();
        token := token.(literal := literal);
        return;
      } else {
        token := GenerateNewToken(Illegal, ch);
      }
      token := token.(tokenType := SingleByteKind(ch));
      ReadChar();
    }
  }
}
