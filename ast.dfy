/** The syntax tree of top-level statements (src/ast.rs). Statement bodies are kept as raw text. */
module Ast {
  import opened Tokens

  /** A name: its token and the name itself (the parser copies the token's literal). */
  datatype Identifier = Identifier(token: Token, value: string)

  /** `let <name> = ... ;`, with the keyword token and a placeholder for the value. */
  datatype LetStatement = LetStatement(token: Token, name: Identifier, value: string)

  /** `return ... ;`, with the keyword token and a placeholder for the value. */
  datatype ReturnStatement = ReturnStatement(token: Token, value: string)

  /** The two statement kinds; a `match` over a statement must cover both. */
  datatype Statement = Let(letStatement: LetStatement) | Return(returnStatement: ReturnStatement)

  /** The keyword token a statement starts with, by an exhaustive match. */
  function KeywordToken(s: Statement): Token {
    match s
    case Let(l) => l.token
    case Return(r) => r.token
  }

  lemma StatementIsLetOrReturn(s: Statement)
    ensures s.Let? != s.Return?
  {
  }
}
