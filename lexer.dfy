/** The lexer object: its three fields are updated in place by one handler
    per status, exactly as the imperative scanner does. Every handler is
    proved to agree with the transition table of module Scanner. */
module Lexer {
  import opened Classifier
  import opened Tokens
  import opened Scanner

  class Lexer {
    const grammar: Grammar
    var tokens: seq<Token>
    var currentStatus: Status
    var statusBuffer: string

    /** The fields as a scan state. */
    function State(): Scan
      reads this
    {
      Scan(tokens, currentStatus, statusBuffer)
    }

    constructor (g: Grammar)
      ensures grammar == g
      ensures State() == Initial
    {
      grammar := g;
      tokens := [];
      currentStatus := START;
      statusBuffer := [];
    }

    /** Feed every character of input, then the synthetic line feed, then
        flush a non-empty remainder as ERROR. */
    method StartLexer(input: string) returns (result: seq<Token>)
      requires Coupled(State())
      modifies this
      ensures State() == Finish(grammar, Run(grammar, old(State()), input))
      ensures result == tokens
    {
      var i := 0;
      while i < |input|
        invariant 0 <= i <= |input|
        invariant Coupled(State())
        invariant State() == Run(grammar, old(State()), input[..i])
      {
        assert input[..i + 1][..i] == input[..i];
        ProcessSymbol(input[i]);
        i := i + 1;
      }
      assert input[..|input|] == input;
      ProcessSymbol('\n');
      if currentStatus != START {
        CreateToken(TokenKind.ERROR);
      }
      result := tokens;
    }

    method ProcessSymbol(c: char)
      requires Coupled(State())
      modifies this
      ensures State() == Process(grammar, old(State()), c)
    {
      statusBuffer := statusBuffer + [c];
      match currentStatus
      case START => StartStatus(c);
      case ERROR => ErrorStatus(c);
      case TEXT_PROCESSING => TextProcessingStatus(c);
      case QUO => QuoStatus(c);
      case DIGIT => DigitStatus(c);
      case CHAR => CharStatus(c);
      case STRING => StringStatus(c);
      case PERIOD => PeriodStatus(c);
      case GREATER => GreaterStatus(c);
      case LESS => LessStatus(c);
      case AND => AndStatus(c);
      case OR => OrStatus(c);
      case OPERATOR => OperatorStatus(c);
      case COLON => ColonStatus(c);
      case ADD => AddStatus(c);
      case SUB => SubStatus(c);
      case SINGLE_LINE_COMMENT => SingleLineCommentStatus(c);
      case BLOCK_COMMENT => BlockCommentStatus(c);
      case PERIOD_IN_DIGIT => PeriodInDigitStatus(c);
      case FLOAT => FloatStatus(c);
      case COMPLEX_NUMBER => ComplexStatus(c);
      case INVALID_NUMBER => InvalidFloatStatus(c);
      case CHAR_PROCESSING => CharProcessingStatus(c);
      case SH => ShStatus(c);
      case OPERATOR_AND_EQUAL => OperatorAndEqualStatus(c);
      case CLOSING_BLOCK_COMMENT => CloseBlockCommentStatus(c);
    }

    method StartStatus(c: char)
      modifies this
      ensures State() == Apply(grammar, old(State()), c, StartAction(grammar, c))
    {
      if c == '/' {
        currentStatus := QUO;
      } else if IsWhitespace(c) || c == '\n' {
        CreateToken(WHITESPACE);
        currentStatus := START;
      } else if IsDigit(c) {
        currentStatus := DIGIT;
      } else if c == '\'' {
        currentStatus := Status.CHAR;
      } else if c == '"' {
        currentStatus := Status.STRING;
      } else if c == '.' {
        currentStatus := PERIOD;
      } else if IsSeparator(grammar, c) {
        CreateToken(SEPARATOR);
        currentStatus := START;
      } else if c == '>' {
        currentStatus := GREATER;
      } else if c == '<' {
        currentStatus := LESS;
      } else if c == '&' {
        currentStatus := AND;
      } else if c == '^' || c == '!' || c == '*' || c == '=' || c == '%' {
        currentStatus := Status.OPERATOR;
      } else if c == ':' {
        currentStatus := COLON;
      } else if c == '+' {
        currentStatus := ADD;
      } else if c == '-' {
        currentStatus := SUB;
      } else if c == '|' {
        currentStatus := OR;
      } else if IsAlphabetic(c) || c == '_' {
        currentStatus := TEXT_PROCESSING;
      } else {
        currentStatus := Status.ERROR;
      }
    }

    /** Inclusive emission: the whole buffer (a space for WHITESPACE) becomes
        the token and the buffer is emptied. */
    method CreateToken(k: TokenKind)
      modifies this
      ensures tokens == old(tokens) + [Token(k, if k == WHITESPACE then Space else old(statusBuffer))]
      ensures statusBuffer == [] && currentStatus == old(currentStatus)
    {
      if k == WHITESPACE {
        tokens := tokens + [Token(k, Space)];
      } else {
        tokens := tokens + [Token(k, statusBuffer)];
      }
      ClearBuffer(None);
    }

    method ClearBuffer(firstNewChar: Option<char>)
      modifies this
      ensures statusBuffer == (if firstNewChar.Some? then [firstNewChar.value] else [])
      ensures tokens == old(tokens) && currentStatus == old(currentStatus)
    {
      statusBuffer := [];
      if firstNewChar.Some? {
        statusBuffer := statusBuffer + [firstNewChar.value];
      }
    }

    /** Exclusive emission: the buffer without its last character becomes the
        token and the buffer is reseeded with that last character. */
    method AddCompleteToken(k: TokenKind)
      requires statusBuffer != []
      modifies this
      ensures tokens == old(tokens) + [Token(k, old(statusBuffer)[..|old(statusBuffer)| - 1])]
      ensures statusBuffer == [old(statusBuffer)[|old(statusBuffer)| - 1]]
      ensures currentStatus == old(currentStatus)
    {
      var substring := statusBuffer[..|statusBuffer| - 1];
      var lastChar := statusBuffer[|statusBuffer| - 1];
      tokens := tokens + [Token(k, substring)];
      ClearBuffer(Some(lastChar));
    }

    method ErrorStatus(c: char)
      requires currentStatus == Status.ERROR && statusBuffer != []
      modifies this
      ensures State() == Dispatch(grammar, old(State()), c)
    {
      AddCompleteToken(TokenKind.ERROR);
      currentStatus := START;
      StartStatus(c);
    }

    method TextProcessingStatus(c: char)
      requires currentStatus == TEXT_PROCESSING && statusBuffer != []
      modifies this
      ensures State() == Dispatch(grammar, old(State()), c)
    {
      if c == ' ' || IsWhitespace(c) || c == '\n' || IsSeparator(grammar, c) || IsOperator(grammar, c) {
        var word := statusBuffer[..|statusBuffer| - 1];
        if IsKeyword(grammar, word) {
          AddCompleteToken(KEYWORD);
        } else if IsBoolean(grammar, word) {
          AddCompleteToken(BOOLEAN);
        } else if IsNull(grammar, word) {
          AddCompleteToken(NULL);
        } else {
          AddCompleteToken(NAME);
        }
        currentStatus := START;
        StartStatus(c);
      } else if !(IsLetter(c) || IsDigit(c) || c == '_') {
        currentStatus := Status.ERROR;
      }
    }

    method QuoStatus(c: char)
      requires currentStatus == QUO && statusBuffer != []
      modifies this
      ensures State() == Dispatch(grammar, old(State()), c)
    {
      if c == '/' {
        currentStatus := SINGLE_LINE_COMMENT;
      } else if c == '*' {
        currentStatus := BLOCK_COMMENT;
      } else if c == '=' {
        currentStatus := OPERATOR_AND_EQUAL;
      } else if IsOperator(grammar, c) {
        currentStatus := Status.ERROR;
      } else {
        AddCompleteToken(TokenKind.OPERATOR);
        currentStatus := START;
        StartStatus(c);
      }
    }

    method DigitStatus(c: char)
      requires currentStatus == DIGIT && statusBuffer != []
      modifies this
      ensures State() == Dispatch(grammar, old(State()), c)
    {
      if c == '.' {
        currentStatus := PERIOD_IN_DIGIT;
      } else if c == 'i' {
        currentStatus := COMPLEX_NUMBER;
      } else if !IsDigit(c) {
        if IsWhitespace(c) || c == '\n' || IsSeparator(grammar, c) {
          AddCompleteToken(INT);
          currentStatus := START;
          StartStatus(c);
        } else if !IsDigit(c) {
          currentStatus := INVALID_NUMBER;
        }
      }
    }

    method CharStatus(c: char)
      requires currentStatus == Status.CHAR && statusBuffer != []
      modifies this
      ensures State() == Dispatch(grammar, old(State()), c)
    {
      if IsWhitespace(c) || c == '\n' {
        AddCompleteToken(TokenKind.ERROR);
        currentStatus := START;
        StartStatus(c);
      } else {
        currentStatus := CHAR_PROCESSING;
      }
    }

    /** The character before the quote is always there: in STRING the buffer
        held at least the opening quote before c was appended. */
    method StringStatus(c: char)
      requires currentStatus == Status.STRING && |statusBuffer| >= 2
      modifies this
      ensures State() == Dispatch(grammar, old(State()), c)
    {
      if c == '"' {
        if statusBuffer[|statusBuffer| - 2] != '\\' {
          CreateToken(TokenKind.STRING);
          currentStatus := START;
        } else {
          statusBuffer := statusBuffer[..|statusBuffer| - 2] + statusBuffer[|statusBuffer| - 1..];
        }
      }
    }

    method PeriodStatus(c: char)
      requires currentStatus == PERIOD && statusBuffer != []
      modifies this
      ensures State() == Dispatch(grammar, old(State()), c)
    {
      if IsDigit(c) {
        currentStatus := PERIOD_IN_DIGIT;
      } else {
        AddCompleteToken(SEPARATOR);
        currentStatus := START;
        StartStatus(c);
      }
    }

    /** No final else: after '>' a non-operator character is absorbed. */
    method GreaterStatus(c: char)
      requires currentStatus == GREATER && statusBuffer != []
      modifies this
      ensures State() == Dispatch(grammar, old(State()), c)
    {
      if c == '=' {
        CreateToken(TokenKind.OPERATOR);
        currentStatus := START;
      } else if c == '>' {
        currentStatus := SH;
      } else if IsOperator(grammar, c) {
        AddCompleteToken(TokenKind.OPERATOR);
        currentStatus := START;
        StartStatus(c);
      }
    }

    method LessStatus(c: char)
      requires currentStatus == LESS && statusBuffer != []
      modifies this
      ensures State() == Dispatch(grammar, old(State()), c)
    {
      if c == '=' || c == '<' || c == '-' {
        CreateToken(TokenKind.OPERATOR);
        currentStatus := START;
      } else if c == '>' {
        currentStatus := SH;
      } else if IsOperator(grammar, c) {
        currentStatus := Status.ERROR;
      } else {
        AddCompleteToken(TokenKind.OPERATOR);
        currentStatus := START;
        StartStatus(c);
      }
    }

    /** No final else: after '&' a non-operator character is absorbed. */
    method AndStatus(c: char)
      requires currentStatus == AND && statusBuffer != []
      modifies this
      ensures State() == Dispatch(grammar, old(State()), c)
    {
      if c == '&' {
        CreateToken(TokenKind.OPERATOR);
        currentStatus := START;
      } else if c == '=' {
        currentStatus := OPERATOR_AND_EQUAL;
      } else if IsOperator(grammar, c) {
        currentStatus := Status.ERROR;
      }
    }

    method OrStatus(c: char)
      requires currentStatus == OR && statusBuffer != []
      modifies this
      ensures State() == Dispatch(grammar, old(State()), c)
    {
      if c == '|' {
        CreateToken(TokenKind.OPERATOR);
        currentStatus := START;
      } else if c == '=' {
        currentStatus := OPERATOR_AND_EQUAL;
      } else if IsOperator(grammar, c) {
        currentStatus := Status.ERROR;
      } else {
        AddCompleteToken(TokenKind.OPERATOR);
        currentStatus := START;
        StartStatus(c);
      }
    }

    method OperatorStatus(c: char)
      requires currentStatus == Status.OPERATOR && statusBuffer != []
      modifies this
      ensures State() == Dispatch(grammar, old(State()), c)
    {
      if c == '=' {
        currentStatus := OPERATOR_AND_EQUAL;
      } else if c == '-' || c == '+' {
        AddCompleteToken(TokenKind.OPERATOR);
        currentStatus := START;
        StartStatus(c);
      } else if IsOperator(grammar, c) {
        currentStatus := Status.ERROR;
      } else {
        AddCompleteToken(TokenKind.OPERATOR);
        currentStatus := START;
        StartStatus(c);
      }
    }

    method ColonStatus(c: char)
      requires currentStatus == COLON && statusBuffer != []
      modifies this
      ensures State() == Dispatch(grammar, old(State()), c)
    {
      if c == '=' {
        CreateToken(TokenKind.OPERATOR);
        currentStatus := START;
      } else if IsOperator(grammar, c) {
        currentStatus := Status.ERROR;
      } else {
        AddCompleteToken(TokenKind.OPERATOR);
        currentStatus := START;
        StartStatus(c);
      }
    }

    method AddStatus(c: char)
      requires currentStatus == ADD && statusBuffer != []
      modifies this
      ensures State() == Dispatch(grammar, old(State()), c)
    {
      if c == '+' {
        currentStatus := Status.OPERATOR;
      } else if IsOperator(grammar, c) {
        currentStatus := Status.ERROR;
      } else {
        AddCompleteToken(TokenKind.OPERATOR);
        currentStatus := START;
        StartStatus(c);
      }
    }

    method SubStatus(c: char)
      requires currentStatus == SUB && statusBuffer != []
      modifies this
      ensures State() == Dispatch(grammar, old(State()), c)
    {
      if c == '-' {
        currentStatus := Status.OPERATOR;
      } else if c == '=' {
        currentStatus := OPERATOR_AND_EQUAL;
      } else if IsOperator(grammar, c) {
        currentStatus := Status.ERROR;
      } else {
        AddCompleteToken(TokenKind.OPERATOR);
        currentStatus := START;
        StartStatus(c);
      }
    }

    method SingleLineCommentStatus(c: char)
      requires currentStatus == SINGLE_LINE_COMMENT && statusBuffer != []
      modifies this
      ensures State() == Dispatch(grammar, old(State()), c)
    {
      if c == '\n' {
        AddCompleteToken(COMMENT);
        currentStatus := START;
        StartStatus(c);
      }
    }

    method BlockCommentStatus(c: char)
      requires currentStatus == BLOCK_COMMENT && statusBuffer != []
      modifies this
      ensures State() == Dispatch(grammar, old(State()), c)
    {
      if c == '*' {
        currentStatus := CLOSING_BLOCK_COMMENT;
      }
    }

    method PeriodInDigitStatus(c: char)
      requires currentStatus == PERIOD_IN_DIGIT && statusBuffer != []
      modifies this
      ensures State() == Dispatch(grammar, old(State()), c)
    {
      if IsDigit(c) {
        currentStatus := Status.FLOAT;
      } else {
        currentStatus := Status.ERROR;
      }
    }

    method FloatStatus(c: char)
      requires currentStatus == Status.FLOAT && statusBuffer != []
      modifies this
      ensures State() == Dispatch(grammar, old(State()), c)
    {
      if IsWhitespace(c) || c == '\n' || IsSeparator(grammar, c) {
        AddCompleteToken(TokenKind.FLOAT);
        currentStatus := START;
        StartStatus(c);
      } else if c == 'i' {
        currentStatus := COMPLEX_NUMBER;
      } else if !IsDigit(c) {
        currentStatus := INVALID_NUMBER;
      }
    }

    method ComplexStatus(c: char)
      requires currentStatus == COMPLEX_NUMBER && statusBuffer != []
      modifies this
      ensures State() == Dispatch(grammar, old(State()), c)
    {
      if IsWhitespace(c) || c == '\n' || IsSeparator(grammar, c) {
        AddCompleteToken(COMPLEX);
        currentStatus := START;
        StartStatus(c);
      } else {
        currentStatus := INVALID_NUMBER;
      }
    }

    method InvalidFloatStatus(c: char)
      requires currentStatus == INVALID_NUMBER && statusBuffer != []
      modifies this
      ensures State() == Dispatch(grammar, old(State()), c)
    {
      if IsWhitespace(c) || c == '\n' {
        AddCompleteToken(TokenKind.ERROR);
        currentStatus := START;
        StartStatus(c);
      }
    }

    method CharProcessingStatus(c: char)
      requires currentStatus == CHAR_PROCESSING && statusBuffer != []
      modifies this
      ensures State() == Dispatch(grammar, old(State()), c)
    {
      if c == '\'' {
        CreateToken(TokenKind.CHAR);
        currentStatus := START;
      } else {
        currentStatus := Status.ERROR;
      }
    }

    method ShStatus(c: char)
      requires currentStatus == SH && statusBuffer != []
      modifies this
      ensures State() == Dispatch(grammar, old(State()), c)
    {
      if c == '=' {
        CreateToken(TokenKind.OPERATOR);
        currentStatus := START;
      } else if c == '-' || c == '+' {
        AddCompleteToken(TokenKind.OPERATOR);
        currentStatus := START;
        StartStatus(c);
      } else if IsOperator(grammar, c) {
        currentStatus := Status.ERROR;
      } else {
        AddCompleteToken(TokenKind.OPERATOR);
        currentStatus := START;
        StartStatus(c);
      }
    }

    method OperatorAndEqualStatus(c: char)
      requires currentStatus == OPERATOR_AND_EQUAL && statusBuffer != []
      modifies this
      ensures State() == Dispatch(grammar, old(State()), c)
    {
      if c == '-' || c == '+' {
        AddCompleteToken(TokenKind.OPERATOR);
        currentStatus := START;
        StartStatus(c);
      } else if IsOperator(grammar, c) {
        currentStatus := Status.ERROR;
      } else {
        AddCompleteToken(TokenKind.OPERATOR);
        currentStatus := START;
        StartStatus(c);
      }
    }

    method CloseBlockCommentStatus(c: char)
      requires currentStatus == CLOSING_BLOCK_COMMENT && statusBuffer != []
      modifies this
      ensures State() == Dispatch(grammar, old(State()), c)
    {
      if c == '/' {
        CreateToken(COMMENT);
        currentStatus := START;
      } else {
        currentStatus := BLOCK_COMMENT;
      }
    }
  }

  /** A fresh lexer run over input returns the tokens of the table model. */
  method RunLexer(g: Grammar, input: string) returns (result: seq<Token>)
    ensures result == Lex(g, input)
  {
    var lexer := new Lexer(g);
    result := lexer.StartLexer(input);
  }
}
