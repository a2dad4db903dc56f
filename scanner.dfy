/** The scanner as a transition table over values.

    A scan state is the token list emitted so far, the current status and the
    accumulation buffer. For each character the buffer is extended by the
    character, and the table picks one of four actions for the status:
    absorb the character and move to a status, emit the whole buffer
    (inclusive emission), emit the buffer without its last character and
    re-dispatch that character from START (exclusive emission), or drop the
    backslash in front of a quote inside a string literal. */
module Scanner {
  import opened Classifier
  import opened Tokens

  /** The statuses of the scanner, one per handler of processSymbol. */
  datatype Status =
    | START | ERROR | TEXT_PROCESSING | QUO | DIGIT | CHAR | STRING | PERIOD
    | GREATER | LESS | AND | OR | OPERATOR | COLON | ADD | SUB
    | SINGLE_LINE_COMMENT | BLOCK_COMMENT | PERIOD_IN_DIGIT | FLOAT
    | COMPLEX_NUMBER | INVALID_NUMBER | CHAR_PROCESSING | SH
    | OPERATOR_AND_EQUAL | CLOSING_BLOCK_COMMENT

  /** The three fields of a lexer: tokens, currentStatus, statusBuffer. */
  datatype Scan = Scan(tokens: seq<Token>, status: Status, buffer: string)

  /** The state of a freshly constructed lexer. */
  const Initial: Scan := Scan([], START, [])

  /** What a handler does with the character just appended to the buffer. */
  datatype Action =
    | Stay(next: Status)      // keep the character, move to next
    | Emit(kind: TokenKind)   // inclusive: the whole buffer is the token
    | Close(kind: TokenKind)  // exclusive: the last character starts the next token
    | Unescape                // delete the backslash before the closing quote

  /** Between two characters the status is START exactly when the buffer is
      empty, and a string literal in progress begins with its quote. */
  predicate Coupled(s: Scan) {
    (s.status == START <==> s.buffer == [])
    && (s.status == Status.STRING ==> s.buffer[0] == '"')
  }

  /** createToken: append the buffer (a single space for WHITESPACE) as a
      token and empty the buffer; the status is left as it is. */
  function CreateToken(t: Scan, k: TokenKind): (r: Scan)
    ensures r.status == t.status && r.buffer == []
    ensures |r.tokens| == |t.tokens| + 1 && r.tokens[..|t.tokens|] == t.tokens
    ensures r.tokens[|t.tokens|].kind == k
    ensures r.tokens[|t.tokens|].text == (if k == WHITESPACE then Space else t.buffer)
  {
    t.(tokens := t.tokens + [Token(k, if k == WHITESPACE then Space else t.buffer)], buffer := [])
  }

  /** addCompleteToken: append the buffer without its last character as a
      token and reseed the buffer with that character. */
  function AddCompleteToken(t: Scan, k: TokenKind): (r: Scan)
    requires t.buffer != []
    ensures r.status == t.status && |r.buffer| == 1
    ensures |r.tokens| == |t.tokens| + 1 && r.tokens[..|t.tokens|] == t.tokens
    ensures r.tokens[|t.tokens|].kind == k
    ensures r.tokens[|t.tokens|].text + r.buffer == t.buffer
  {
    t.(tokens := t.tokens + [Token(k, t.buffer[..|t.buffer| - 1])],
       buffer := [t.buffer[|t.buffer| - 1]])
  }

  /** Word classification with the priority keyword, boolean, null, name. */
  function Classify(g: Grammar, w: string): (k: TokenKind)
    ensures k == KEYWORD <==> IsKeyword(g, w)
    ensures k == BOOLEAN <==> !IsKeyword(g, w) && IsBoolean(g, w)
    ensures k == NULL <==> !IsKeyword(g, w) && !IsBoolean(g, w) && IsNull(g, w)
    ensures k == NAME <==> !IsKeyword(g, w) && !IsBoolean(g, w) && !IsNull(g, w)
  {
    if IsKeyword(g, w) then KEYWORD
    else if IsBoolean(g, w) then BOOLEAN
    else if IsNull(g, w) then NULL
    else NAME
  }

  /** startStatus: the dispatch on the first character of a token. */
  function StartAction(g: Grammar, c: char): (a: Action)
    ensures a.Stay? || a.Emit?
    ensures a.Stay? ==> a.next != START
    ensures a == Emit(WHITESPACE) <==> IsWhitespace(c)
    ensures a.Emit? ==> a.kind == WHITESPACE || a.kind == SEPARATOR
    ensures a == Stay(Status.STRING) <==> c == '"'
  {
    if c == '/' then Stay(QUO)
    else if IsWhitespace(c) || c == '\n' then Emit(WHITESPACE)
    else if IsDigit(c) then Stay(DIGIT)
    else if c == '\'' then Stay(Status.CHAR)
    else if c == '"' then Stay(Status.STRING)
    else if c == '.' then Stay(PERIOD)
    else if IsSeparator(g, c) then Emit(SEPARATOR)
    else if c == '>' then Stay(GREATER)
    else if c == '<' then Stay(LESS)
    else if c == '&' then Stay(AND)
    else if c == '^' || c == '!' || c == '*' || c == '=' || c == '%' then Stay(Status.OPERATOR)
    else if c == ':' then Stay(COLON)
    else if c == '+' then Stay(ADD)
    else if c == '-' then Stay(SUB)
    else if c == '|' then Stay(OR)
    else if IsAlphabetic(c) || c == '_' then Stay(TEXT_PROCESSING)
    else Stay(Status.ERROR)
  }

  /** The handler of status st, given the buffer b that already ends with c. */
  function Transition(g: Grammar, st: Status, b: string, c: char): (a: Action)
    requires b != []
    requires st == Status.STRING ==> |b| >= 2
    ensures a.Stay? ==> a.next != START
    ensures a.Emit? && a.kind == WHITESPACE ==> st == START && IsWhitespace(c)
    ensures a.Close? ==> st != START && a.kind != WHITESPACE
    ensures a.Unescape? <==> st == Status.STRING && c == '"' && b[|b| - 2] == '\\'
    ensures a == Stay(Status.STRING) ==> st == Status.STRING || (st == START && c == '"')
  {
    match st
    case START => StartAction(g, c)
    case ERROR => Close(TokenKind.ERROR)
    case TEXT_PROCESSING =>
      if c == ' ' || IsWhitespace(c) || c == '\n' || IsSeparator(g, c) || IsOperator(g, c) then
        Close(Classify(g, b[..|b| - 1]))
      else if !(IsLetter(c) || IsDigit(c) || c == '_') then Stay(Status.ERROR)
      else Stay(TEXT_PROCESSING)
    case QUO =>
      if c == '/' then Stay(SINGLE_LINE_COMMENT)
      else if c == '*' then Stay(BLOCK_COMMENT)
      else if c == '=' then Stay(OPERATOR_AND_EQUAL)
      else if IsOperator(g, c) then Stay(Status.ERROR)
      else Close(TokenKind.OPERATOR)
    case DIGIT =>
      if c == '.' then Stay(PERIOD_IN_DIGIT)
      else if c == 'i' then Stay(COMPLEX_NUMBER)
      else if !IsDigit(c) then
        (if IsWhitespace(c) || c == '\n' || IsSeparator(g, c) then Close(INT)
         else Stay(INVALID_NUMBER))
      else Stay(DIGIT)
    case CHAR =>
      if IsWhitespace(c) || c == '\n' then Close(TokenKind.ERROR)
      else Stay(CHAR_PROCESSING)
    case STRING =>
      if c == '"' then
        (if b[|b| - 2] != '\\' then Emit(TokenKind.STRING) else Unescape)
      else Stay(Status.STRING)
    case PERIOD =>
      if IsDigit(c) then Stay(PERIOD_IN_DIGIT)
      else Close(SEPARATOR)
    case GREATER =>
      if c == '=' then Emit(TokenKind.OPERATOR)
      else if c == '>' then Stay(SH)
      else if IsOperator(g, c) then Close(TokenKind.OPERATOR)
      else Stay(GREATER)
    case LESS =>
      if c == '=' || c == '<' || c == '-' then Emit(TokenKind.OPERATOR)
      else if c == '>' then Stay(SH)
      else if IsOperator(g, c) then Stay(Status.ERROR)
      else Close(TokenKind.OPERATOR)
    case AND =>
      if c == '&' then Emit(TokenKind.OPERATOR)
      else if c == '=' then Stay(OPERATOR_AND_EQUAL)
      else if IsOperator(g, c) then Stay(Status.ERROR)
      else Stay(AND)
    case OR =>
      if c == '|' then Emit(TokenKind.OPERATOR)
      else if c == '=' then Stay(OPERATOR_AND_EQUAL)
      else if IsOperator(g, c) then Stay(Status.ERROR)
      else Close(TokenKind.OPERATOR)
    case OPERATOR =>
      if c == '=' then Stay(OPERATOR_AND_EQUAL)
      else if c == '-' || c == '+' then Close(TokenKind.OPERATOR)
      else if IsOperator(g, c) then Stay(Status.ERROR)
      else Close(TokenKind.OPERATOR)
    case COLON =>
      if c == '=' then Emit(TokenKind.OPERATOR)
      else if IsOperator(g, c) then Stay(Status.ERROR)
      else Close(TokenKind.OPERATOR)
    case ADD =>
      if c == '+' then Stay(Status.OPERATOR)
      else if IsOperator(g, c) then Stay(Status.ERROR)
      else Close(TokenKind.OPERATOR)
    case SUB =>
      if c == '-' then Stay(Status.OPERATOR)
      else if c == '=' then Stay(OPERATOR_AND_EQUAL)
      else if IsOperator(g, c) then Stay(Status.ERROR)
      else Close(TokenKind.OPERATOR)
    case SINGLE_LINE_COMMENT =>
      if c == '\n' then Close(COMMENT)
      else Stay(SINGLE_LINE_COMMENT)
    case BLOCK_COMMENT =>
      if c == '*' then Stay(CLOSING_BLOCK_COMMENT)
      else Stay(BLOCK_COMMENT)
    case PERIOD_IN_DIGIT =>
      if IsDigit(c) then Stay(Status.FLOAT)
      else Stay(Status.ERROR)
    case FLOAT =>
      if IsWhitespace(c) || c == '\n' || IsSeparator(g, c) then Close(TokenKind.FLOAT)
      else if c == 'i' then Stay(COMPLEX_NUMBER)
      else if !IsDigit(c) then Stay(INVALID_NUMBER)
      else Stay(Status.FLOAT)
    case COMPLEX_NUMBER =>
      if IsWhitespace(c) || c == '\n' || IsSeparator(g, c) then Close(COMPLEX)
      else Stay(INVALID_NUMBER)
    case INVALID_NUMBER =>
      if IsWhitespace(c) || c == '\n' then Close(TokenKind.ERROR)
      else Stay(INVALID_NUMBER)
    case CHAR_PROCESSING =>
      if c == '\'' then Emit(TokenKind.CHAR)
      else Stay(Status.ERROR)
    case SH =>
      if c == '=' then Emit(TokenKind.OPERATOR)
      else if c == '-' || c == '+' then Close(TokenKind.OPERATOR)
      else if IsOperator(g, c) then Stay(Status.ERROR)
      else Close(TokenKind.OPERATOR)
    case OPERATOR_AND_EQUAL =>
      if c == '-' || c == '+' then Close(TokenKind.OPERATOR)
      else if IsOperator(g, c) then Stay(Status.ERROR)
      else Close(TokenKind.OPERATOR)
    case CLOSING_BLOCK_COMMENT =>
      if c == '/' then Emit(COMMENT)
      else Stay(BLOCK_COMMENT)
  }

  /** Carry out an action on the state t whose buffer already ends with c.
      An exclusive emission re-dispatches c from START, which never closes. */
  function Apply(g: Grammar, t: Scan, c: char, a: Action): Scan
    requires a.Close? ==> t.buffer != []
    requires a.Unescape? ==> |t.buffer| >= 2
    decreases if a.Close? then 1 else 0
  {
    match a
    case Stay(next) => t.(status := next)
    case Emit(k) => CreateToken(t, k).(status := START)
    case Close(k) => Apply(g, AddCompleteToken(t, k).(status := START), c, StartAction(g, c))
    case Unescape => t.(buffer := t.buffer[..|t.buffer| - 2] + t.buffer[|t.buffer| - 1..])
  }

  /** The switch of processSymbol, on a state whose buffer already ends with c. */
  function Dispatch(g: Grammar, t: Scan, c: char): Scan
    requires t.buffer != []
    requires t.status == Status.STRING ==> |t.buffer| >= 2
  {
    Apply(g, t, c, Transition(g, t.status, t.buffer, c))
  }

  /** processSymbol: append c to the buffer, then dispatch on the status. */
  function Process(g: Grammar, s: Scan, c: char): (r: Scan)
    requires Coupled(s)
    ensures Coupled(r)
    ensures s.tokens <= r.tokens
  {
    Dispatch(g, s.(buffer := s.buffer + [c]), c)
  }

  /** The read loop of startLexer: every character of input in order. */
  function Run(g: Grammar, s: Scan, input: string): (r: Scan)
    requires Coupled(s)
    ensures Coupled(r)
    ensures s.tokens <= r.tokens
    decreases |input|
  {
    if input == [] then s
    else Process(g, Run(g, s, input[..|input| - 1]), input[|input| - 1])
  }

  /** The end of startLexer: one synthetic line feed, then the remaining
      buffer as a single ERROR token unless the status is START. */
  function Finish(g: Grammar, s: Scan): (r: Scan)
    requires Coupled(s)
    ensures r.buffer == []
    ensures s.tokens <= r.tokens && |r.tokens| > |s.tokens|
  {
    var t := Process(g, s, '\n');
    if t.status != START then CreateToken(t, TokenKind.ERROR) else t
  }

  /** The token list startLexer returns for input on a fresh lexer. */
  function Lex(g: Grammar, input: string): (ts: seq<Token>)
    ensures ts != []
  {
    Finish(g, Run(g, Initial, input)).tokens
  }
}
