/** The lexical categories and the (kind, text) pairs the scanner emits. */
module Tokens {

  /** The closed set of token kinds. */
  datatype TokenKind =
    | WHITESPACE | SEPARATOR | KEYWORD | BOOLEAN | NULL | NAME
    | INT | FLOAT | COMPLEX | CHAR | STRING | OPERATOR | COMMENT | ERROR

  /** An immutable token: its kind and its text. */
  datatype Token = Token(kind: TokenKind, text: string)

  /** A nullable value, as the Character argument of clearBuffer. */
  datatype Option<T> = None | Some(value: T)

  /** Text of the WHITESPACE token, whatever whitespace character was read. */
  const Space: string := " "
}
