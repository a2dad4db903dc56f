/** Character classification used by the scanner.
    The JDK predicates (Character.isWhitespace, isDigit, isAlphabetic, isLetter)
    are approximated on ASCII; the grammar predicates of Utils are driven by a
    replaceable configuration record, since the reserved-word sets and the
    separator and operator alphabets are configuration rather than logic. */
module Classifier {

  /** The character sets and reserved-word sets of the target grammar. */
  datatype Grammar = Grammar(
    separators: set<char>,
    operators: set<char>,
    keywords: set<string>,
    booleans: set<string>,
    nulls: set<string>)

  /** Java whitespace restricted to ASCII: space, tab, line feed, vertical tab,
      form feed, carriage return and the four information separators. */
  predicate IsWhitespace(c: char) {
    c == ' ' || (9 <= c as int <= 13) || (28 <= c as int <= 31)
  }

  predicate IsDigit(c: char) {
    '0' <= c <= '9'
  }

  predicate IsAlphabetic(c: char) {
    ('a' <= c <= 'z') || ('A' <= c <= 'Z')
  }

  predicate IsLetter(c: char) {
    IsAlphabetic(c)
  }

  predicate IsSeparator(g: Grammar, c: char) {
    c in g.separators
  }

  predicate IsOperator(g: Grammar, c: char) {
    c in g.operators
  }

  predicate IsKeyword(g: Grammar, w: string) {
    w in g.keywords
  }

  predicate IsBoolean(g: Grammar, w: string) {
    w in g.booleans
  }

  predicate IsNull(g: Grammar, w: string) {
    w in g.nulls
  }
}
