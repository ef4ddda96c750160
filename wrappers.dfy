/** Small result types shared by the lexer and parser models. */
module Wrappers {

  /** Rust's `Option`: a statement parser either produces a node or nothing. */
  datatype Option<T> = None | Some(value: T)

  /** The outcome of running a loop that may never exit: it halts with a value, or it diverges. */
  datatype Outcome<T> = Halts(value: T) | Diverges
}
