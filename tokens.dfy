/** Tokens produced by the scanner (enum TokenType and class Token). */
module Tokens {

  datatype Option<T> = None | Some(value: T)

  /** The token kinds. Reserved is declared but the scanner never produces it;
      Comma is declared and has a builder branch, but a comma is an operator
      symbol and so never reaches that branch. */
  datatype TokenType =
    | Identifier
    | Integer
    | String
    | Operator
    | Delete
    | LParen
    | RParen
    | Semicolon
    | Comma
    | Reserved

  /** A token: its kind, its value and the line counter's value when it was started. */
  datatype Token = Token(kind: TokenType, value: string, line: int)

  /** What a call of readNextToken (or of one builder) ends in: a token or null,
      a NullPointerException, or a loop that never exits. */
  datatype Outcome =
    | Returned(token: Option<Token>)
    | NullDereference
    | Hangs
}
