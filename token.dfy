/** Token kinds, tokens and the keyword table (src/token.rs). */
module Tokens {
  import opened Wrappers

  /** The closed set of token kinds. `Return` is not declared in src/token.rs, but the parser
      dispatches on it, so it is added here; the lexer never produces it. */
  datatype TokenType =
    | Illegal | Eof
    | Ident | Int
    | Assign | Plus | Minus | Bang | Asterisk | Slash
    | Lt | Gt
    | Comma | Semicolon
    | Lparen | Rparen | Lbrace | Rbrace
    | Function | Let | Return

  /** A token is a value: its kind and the exact source text it came from. */
  datatype Token = Token(tokenType: TokenType, literal: string)

  /** The keyword table: only `fn` and `let` are keywords; every other word is an identifier. */
  function LookupIdent(ident: string): (k: TokenType)
    ensures k == Function || k == Let || k == Ident
  {
    if ident == "fn" then Function
    else if ident == "let" then Let
    else Ident
  }

  lemma LookupIdentKeywords()
    ensures LookupIdent("fn") == Function
    ensures LookupIdent("let") == Let
  {
  }

  /** Any word other than the two keywords is an identifier. */
  lemma LookupIdentOthers(ident: string)
    requires ident != "fn" && ident != "let"
    ensures LookupIdent(ident) == Ident
  {
  }

  /** The words the language design reserves but this table does not know are plain identifiers. */
  lemma LookupIdentUnlisted()
    ensures LookupIdent("return") == Ident
    ensures LookupIdent("if") == Ident && LookupIdent("else") == Ident
    ensures LookupIdent("true") == Ident && LookupIdent("false") == Ident
    ensures LookupIdent("") == Ident
  {
  }

  /** `#[derive(PartialEq)]`: two tokens are equal exactly when kind and literal are. */
  lemma TokenEquality(a: Token, b: Token)
    ensures a == b <==> a.tokenType == b.tokenType && a.literal == b.literal
  {
  }

  /** The name of a kind as it appears in parser diagnostics (the variant's own spelling). */
  function KindName(k: TokenType): (name: string)
  {
    match k
    case Illegal => "Illegal"
    case Eof => "Eof"
    case Ident => "Ident"
    case Int => "Int"
    case Assign => "Assign"
    case Plus => "Plus"
    case Minus => "Minus"
    case Bang => "Bang"
    case Asterisk => "Asterisk"
    case Slash => "Slash"
    case Lt => "Lt"
    case Gt => "Gt"
    case Comma => "Comma"
    case Semicolon => "Semicolon"
    case Lparen => "Lparen"
    case Rparen => "Rparen"
    case Lbrace => "Lbrace"
    case Rbrace => "Rbrace"
    case Function => "Function"
    case Let => "Let"
    case Return => "Return"
  }

  /** A kind's name is one nonempty word: it holds neither a comma nor a space. */
  lemma KindNameIsWord(k: TokenType)
    ensures |KindName(k)| > 0
    ensures forall i :: 0 <= i < |KindName(k)| ==> KindName(k)[i] != ',' && KindName(k)[i] != ' '
  {
  }

  /** Reads a kind back from its diagnostic name. */
  function KindOfName(name: string): (k: Option<TokenType>)
  {
    if name == "Illegal" then Some(Illegal)
    else if name == "Eof" then Some(Eof)
    else if name == "Ident" then Some(Ident)
    else if name == "Int" then Some(Int)
    else if name == "Assign" then Some(Assign)
    else if name == "Plus" then Some(Plus)
    else if name == "Minus" then Some(Minus)
    else if name == "Bang" then Some(Bang)
    else if name == "Asterisk" then Some(Asterisk)
    else if name == "Slash" then Some(Slash)
    else if name == "Lt" then Some(Lt)
    else if name == "Gt" then Some(Gt)
    else if name == "Comma" then Some(Comma)
    else if name == "Semicolon" then Some(Semicolon)
    else if name == "Lparen" then Some(Lparen)
    else if name == "Rparen" then Some(Rparen)
    else if name == "Lbrace" then Some(Lbrace)
    else if name == "Rbrace" then Some(Rbrace)
    else if name == "Function" then Some(Function)
    else if name == "Let" then Some(Let)
    else if name == "Return" then Some(Return)
    else None
  }

  /** Distinct kinds have distinct names, so a diagnostic identifies the kinds it mentions. */
  lemma KindNameRoundTrip(k: TokenType)
    ensures KindOfName(KindName(k)) == Some(k)
  {
    match k
    case Illegal | Eof | Ident | Int | Assign | Plus | Minus => KindNameRoundTripFirst(k);
    case Bang | Asterisk | Slash | Lt | Gt | Comma | Semicolon => KindNameRoundTripSecond(k);
    case _ => KindNameRoundTripThird(k);
  }

  lemma KindNameRoundTripFirst(k: TokenType)
    requires k in {Illegal, Eof, Ident, Int, Assign, Plus, Minus}
    ensures KindOfName(KindName(k)) == Some(k)
  {
  }

  lemma KindNameRoundTripSecond(k: TokenType)
    requires k in {Bang, Asterisk, Slash, Lt, Gt, Comma, Semicolon}
    ensures KindOfName(KindName(k)) == Some(k)
  {
  }

  lemma KindNameRoundTripThird(k: TokenType)
    requires k in {Lparen, Rparen, Lbrace, Rbrace, Function, Let, Return}
    ensures KindOfName(KindName(k)) == Some(k)
  {
  }

  lemma KindNameInjective(a: TokenType, b: TokenType)
    requires KindName(a) == KindName(b)
    ensures a == b
  {
    KindNameRoundTrip(a);
    KindNameRoundTrip(b);
  }
}
