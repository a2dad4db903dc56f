/** Worked scenarios on an example Go-like configuration. The separator and
    operator alphabets and the reserved words below illustrate a Go grammar;
    the actual contents of the Utils sets are not part of this model. Each
    scenario follows the scan one character at a time, because evaluating a
    whole scan of a literal input in one proof is too costly: a StepN lemma
    per table entry used (through the generic Open, Reopen, Include,
    CloseEmit and Absorb), a RunN lemma per prefix of the input that chains
    one more step onto the previous prefix by Feed, a Finish lemma for the
    synthetic line feed and the flush, and Complete to join them. */
module Scenarios {
  import opened Classifier
  import opened Tokens
  import opened Scanner
  import opened ScannerProperties

  const GoLike: Grammar := Grammar(
    {'(', ')', ';'},
    {'+', '-', '=', '&', '|', '<', '>', '/'},
    {"var", "func"},
    {"true", "false"},
    {"nil"})

  /** One more character of a fresh scan. */
  lemma Feed(g: Grammar, prefix: string, c: char, next: string, before: Scan, after: Scan)
    requires Run(g, Initial, prefix) == before
    requires Process(g, before, c) == after
    requires prefix + [c] == next
    ensures Run(g, Initial, next) == after
  {
    RunSnoc(g, Initial, prefix, c);
  }

  /** The tokens of a scan whose read loop ended in before. */
  lemma Complete(g: Grammar, input: string, before: Scan, result: seq<Token>)
    requires Run(g, Initial, input) == before
    requires Finish(g, before).tokens == result
    ensures Lex(g, input) == result
  {
  }

  /** A character absorbed by a handler other than START. */
  lemma Absorb(g: Grammar, ts: seq<Token>, st: Status, b: string, c: char, next: Status, b': string)
    requires Coupled(Scan(ts, st, b)) && st != START
    requires b + [c] == b' && Transition(g, st, b', c) == Stay(next)
    ensures Process(g, Scan(ts, st, b), c) == Scan(ts, next, b')
  {
  }

  /** The first character of a token, kept in the status next. */
  lemma Open(g: Grammar, ts: seq<Token>, c: char, next: Status)
    requires StartAction(g, c) == Stay(next)
    ensures Process(g, Scan(ts, START, []), c) == Scan(ts, next, [c])
  {
    assert Scan(ts, START, []).(buffer := [] + [c]) == Scan(ts, START, [c]);
  }

  /** An exclusive emission of the buffer, c then opening the next token. */
  lemma Reopen(g: Grammar, ts: seq<Token>, st: Status, b: string, c: char, k: TokenKind, next: Status)
    requires Coupled(Scan(ts, st, b)) && st != START
    requires Transition(g, st, b + [c], c) == Close(k) && StartAction(g, c) == Stay(next)
    ensures Process(g, Scan(ts, st, b), c) == Scan(ts + [Token(k, b)], next, [c])
  {
    CloseRedispatches(g, Scan(ts, st, b), c, k);
    Open(g, ts + [Token(k, b)], c, next);
  }

  /** An inclusive emission of the buffer with c (a space for WHITESPACE). */
  lemma Include(g: Grammar, ts: seq<Token>, st: Status, b: string, c: char, k: TokenKind, text: string)
    requires Coupled(Scan(ts, st, b)) && (st == Status.STRING ==> b != [])
    requires Transition(g, st, b + [c], c) == Emit(k)
    requires text == (if k == WHITESPACE then Space else b + [c])
    ensures Process(g, Scan(ts, st, b), c) == Scan(ts + [Token(k, text)], START, [])
  {
  }

  /** A quote after a backslash in a string literal replaces the backslash. */
  lemma DropBackslash(g: Grammar, ts: seq<Token>, x: string, b': string)
    requires Coupled(Scan(ts, Status.STRING, x + ['\\']))
    requires b' == x + ['"']
    ensures Process(g, Scan(ts, Status.STRING, x + ['\\']), '"') == Scan(ts, Status.STRING, b')
  {
    var b := x + ['\\'] + ['"'];
    assert b[|b| - 2] == '\\';
    assert b[..|b| - 2] + b[|b| - 1..] == b';
  }

  /** The end of a scan whose synthetic line feed leaves START. */
  lemma FinishInStart(g: Grammar, s: Scan, t: Scan)
    requires Coupled(s) && Process(g, s, '\n') == t && t.status == START
    ensures Finish(g, s).tokens == t.tokens
  {
  }

  /** The end of a scan whose synthetic line feed leaves another status. */
  lemma FinishFlush(g: Grammar, s: Scan, t: Scan)
    requires Coupled(s) && Process(g, s, '\n') == t && t.status != START
    ensures Finish(g, s).tokens == t.tokens + [Token(TokenKind.ERROR, t.buffer)]
  {
  }

  /** An exclusive emission of the buffer, c then emitted on its own. */
  lemma CloseEmit(g: Grammar, ts: seq<Token>, st: Status, b: string, c: char, k: TokenKind, k': TokenKind, text: string)
    requires Coupled(Scan(ts, st, b)) && st != START
    requires Transition(g, st, b + [c], c) == Close(k) && StartAction(g, c) == Emit(k')
    requires text == (if k' == WHITESPACE then Space else [c])
    ensures Process(g, Scan(ts, st, b), c) == Scan(ts + [Token(k, b), Token(k', text)], START, [])
  {
    CloseRedispatches(g, Scan(ts, st, b), c, k);
    assert [] + [c] == [c];
    Include(g, ts + [Token(k, b)], START, [], c, k', text);
    assert ts + [Token(k, b)] + [Token(k', text)] == ts + [Token(k, b), Token(k', text)];
  }

  /** The end of a scan in START: the synthetic line feed adds a space. */
  lemma EndInStart(g: Grammar, ts: seq<Token>)
    ensures Finish(g, Scan(ts, START, [])).tokens == ts + [Token(WHITESPACE, Space)]
  {
    assert IsWhitespace('\n');
    Include(g, ts, START, [], '\n', WHITESPACE, Space);
    FinishInStart(g, Scan(ts, START, []), Scan(ts + [Token(WHITESPACE, Space)], START, []));
  }

  /** The end of a scan whose pending token the synthetic line feed closes. */
  lemma EndByClosing(g: Grammar, ts: seq<Token>, st: Status, b: string, k: TokenKind)
    requires Coupled(Scan(ts, st, b)) && st != START
    requires Transition(g, st, b + ['\n'], '\n') == Close(k)
    ensures Finish(g, Scan(ts, st, b)).tokens == ts + [Token(k, b), Token(WHITESPACE, Space)]
  {
    assert IsWhitespace('\n');
    CloseEmit(g, ts, st, b, '\n', k, WHITESPACE, Space);
    FinishInStart(g, Scan(ts, st, b), Scan(ts + [Token(k, b), Token(WHITESPACE, Space)], START, []));
  }

  /** The table entries used by IntThenSeparator, one per character read. */
  lemma IntThenSeparatorStep1()
    ensures Process(GoLike, Initial, '1') == Scan([], DIGIT, "1")
  {
    Open(GoLike, [], '1', DIGIT);
  }

  lemma IntThenSeparatorStep2()
    ensures Process(GoLike, Scan([], DIGIT, "1"), '2') == Scan([], DIGIT, "12")
  {
    Absorb(GoLike, [], DIGIT, "1", '2', DIGIT, "12");
  }

  lemma IntThenSeparatorStep3()
    ensures Process(GoLike, Scan([], DIGIT, "12"), ';') == Scan([Token(INT, "12"), Token(SEPARATOR, ";")], START, "")
  {
    CloseEmit(GoLike, [], DIGIT, "12", ';', INT, SEPARATOR, ";");
  }

  lemma IntThenSeparatorFinish()
    ensures Finish(GoLike, Scan([Token(INT, "12"), Token(SEPARATOR, ";")], START, "")).tokens == [Token(INT, "12"), Token(SEPARATOR, ";"), Token(WHITESPACE, " ")]
  {
    EndInStart(GoLike, [Token(INT, "12"), Token(SEPARATOR, ";")]);
  }

  /** The read loop of IntThenSeparator, one prefix at a time. */
  lemma IntThenSeparatorRun1()
    ensures Run(GoLike, Initial, "1") == Scan([], DIGIT, "1")
  {
    IntThenSeparatorStep1();
    Feed(GoLike, "", '1', "1", Initial,
         Scan([], DIGIT, "1"));
  }

  lemma IntThenSeparatorRun2()
    ensures Run(GoLike, Initial, "12") == Scan([], DIGIT, "12")
  {
    IntThenSeparatorRun1();
    IntThenSeparatorStep2();
    Feed(GoLike, "1", '2', "12", Scan([], DIGIT, "1"),
         Scan([], DIGIT, "12"));
  }

  lemma IntThenSeparatorRun()
    ensures Run(GoLike, Initial, "12;") == Scan([Token(INT, "12"), Token(SEPARATOR, ";")], START, "")
  {
    IntThenSeparatorRun2();
    IntThenSeparatorStep3();
    Feed(GoLike, "12", ';', "12;", Scan([], DIGIT, "12"),
         Scan([Token(INT, "12"), Token(SEPARATOR, ";")], START, ""));
  }

  lemma IntThenSeparator()
    ensures Lex(GoLike, "12;") == [Token(INT, "12"), Token(SEPARATOR, ";"), Token(WHITESPACE, " ")]
  {
    IntThenSeparatorRun();
    IntThenSeparatorFinish();
    Complete(GoLike, "12;", Scan([Token(INT, "12"), Token(SEPARATOR, ";")], START, ""),
             [Token(INT, "12"), Token(SEPARATOR, ";"), Token(WHITESPACE, " ")]);
  }


  /** The table entries used by EqualityBetweenNames, one per character read. */
  lemma EqualityBetweenNamesStep1()
    ensures Process(GoLike, Initial, 'x') == Scan([], TEXT_PROCESSING, "x")
  {
    Open(GoLike, [], 'x', TEXT_PROCESSING);
  }

  lemma EqualityBetweenNamesStep2()
    ensures Process(GoLike, Scan([], TEXT_PROCESSING, "x"), '=') == Scan([Token(NAME, "x")], Status.OPERATOR, "=")
  {
    Reopen(GoLike, [], TEXT_PROCESSING, "x", '=', NAME, Status.OPERATOR);
  }

  lemma EqualityBetweenNamesStep3()
    ensures Process(GoLike, Scan([Token(NAME, "x")], Status.OPERATOR, "="), '=') == Scan([Token(NAME, "x")], OPERATOR_AND_EQUAL, "==")
  {
    Absorb(GoLike, [Token(NAME, "x")], Status.OPERATOR, "=", '=', OPERATOR_AND_EQUAL, "==");
  }

  lemma EqualityBetweenNamesStep4()
    ensures Process(GoLike, Scan([Token(NAME, "x")], OPERATOR_AND_EQUAL, "=="), 'y') == Scan([Token(NAME, "x"), Token(TokenKind.OPERATOR, "==")], TEXT_PROCESSING, "y")
  {
    Reopen(GoLike, [Token(NAME, "x")], OPERATOR_AND_EQUAL, "==", 'y', TokenKind.OPERATOR, TEXT_PROCESSING);
  }

  lemma EqualityBetweenNamesFinish()
    ensures Finish(GoLike, Scan([Token(NAME, "x"), Token(TokenKind.OPERATOR, "==")], TEXT_PROCESSING, "y")).tokens == [Token(NAME, "x"), Token(TokenKind.OPERATOR, "=="), Token(NAME, "y"), Token(WHITESPACE, " ")]
  {
    var b := "y" + ['\n'];
    assert b[..|b| - 1] == "y";
    EndByClosing(GoLike, [Token(NAME, "x"), Token(TokenKind.OPERATOR, "==")], TEXT_PROCESSING, "y", NAME);
  }

  /** The read loop of EqualityBetweenNames, one prefix at a time. */
  lemma EqualityBetweenNamesRun1()
    ensures Run(GoLike, Initial, "x") == Scan([], TEXT_PROCESSING, "x")
  {
    EqualityBetweenNamesStep1();
    Feed(GoLike, "", 'x', "x", Initial, Scan([], TEXT_PROCESSING, "x"));
  }

  lemma EqualityBetweenNamesRun2()
    ensures Run(GoLike, Initial, "x=") == Scan([Token(NAME, "x")], Status.OPERATOR, "=")
  {
    EqualityBetweenNamesRun1();
    EqualityBetweenNamesStep2();
    Feed(GoLike, "x", '=', "x=", Scan([], TEXT_PROCESSING, "x"), Scan([Token(NAME, "x")], Status.OPERATOR, "="));
  }

  lemma EqualityBetweenNamesRun3()
    ensures Run(GoLike, Initial, "x==") == Scan([Token(NAME, "x")], OPERATOR_AND_EQUAL, "==")
  {
    EqualityBetweenNamesRun2();
    EqualityBetweenNamesStep3();
    Feed(GoLike, "x=", '=', "x==", Scan([Token(NAME, "x")], Status.OPERATOR, "="), Scan([Token(NAME, "x")], OPERATOR_AND_EQUAL, "=="));
  }

  lemma EqualityBetweenNamesRun()
    ensures Run(GoLike, Initial, "x==y") == Scan([Token(NAME, "x"), Token(TokenKind.OPERATOR, "==")], TEXT_PROCESSING, "y")
  {
    EqualityBetweenNamesRun3();
    EqualityBetweenNamesStep4();
    Feed(GoLike, "x==", 'y', "x==y", Scan([Token(NAME, "x")], OPERATOR_AND_EQUAL, "=="),
         Scan([Token(NAME, "x"), Token(TokenKind.OPERATOR, "==")], TEXT_PROCESSING, "y"));
  }

  lemma EqualityBetweenNames()
    ensures Lex(GoLike, "x==y") ==
      [Token(NAME, "x"), Token(TokenKind.OPERATOR, "=="), Token(NAME, "y"), Token(WHITESPACE, " ")]
  {
    EqualityBetweenNamesRun();
    EqualityBetweenNamesFinish();
    Complete(GoLike, "x==y", Scan([Token(NAME, "x"), Token(TokenKind.OPERATOR, "==")], TEXT_PROCESSING, "y"),
             [Token(NAME, "x"), Token(TokenKind.OPERATOR, "=="), Token(NAME, "y"), Token(WHITESPACE, " ")]);
  }

  /** The table entries used by LineComment, one per character read. */
  lemma LineCommentStep1()
    ensures Process(GoLike, Initial, '/') == Scan([], QUO, "/")
  {
    Open(GoLike, [], '/', QUO);
  }

  lemma LineCommentStep2()
    ensures Process(GoLike, Scan([], QUO, "/"), '/') == Scan([], SINGLE_LINE_COMMENT, "//")
  {
    Absorb(GoLike, [], QUO, "/", '/', SINGLE_LINE_COMMENT, "//");
  }

  lemma LineCommentStep3()
    ensures Process(GoLike, Scan([], SINGLE_LINE_COMMENT, "//"), ' ') == Scan([], SINGLE_LINE_COMMENT, "// ")
  {
    Absorb(GoLike, [], SINGLE_LINE_COMMENT, "//", ' ', SINGLE_LINE_COMMENT, "// ");
  }

  lemma LineCommentStep4()
    ensures Process(GoLike, Scan([], SINGLE_LINE_COMMENT, "// "), 'h') == Scan([], SINGLE_LINE_COMMENT, "// h")
  {
    Absorb(GoLike, [], SINGLE_LINE_COMMENT, "// ", 'h', SINGLE_LINE_COMMENT, "// h");
  }

  lemma LineCommentStep5()
    ensures Process(GoLike, Scan([], SINGLE_LINE_COMMENT, "// h"), 'i') == Scan([], SINGLE_LINE_COMMENT, "// hi")
  {
    Absorb(GoLike, [], SINGLE_LINE_COMMENT, "// h", 'i', SINGLE_LINE_COMMENT, "// hi");
  }

  lemma LineCommentStep6()
    ensures Process(GoLike, Scan([], SINGLE_LINE_COMMENT, "// hi"), '\n') == Scan([Token(COMMENT, "// hi"), Token(WHITESPACE, " ")], START, "")
  {
    CloseEmit(GoLike, [], SINGLE_LINE_COMMENT, "// hi", '\n', COMMENT, WHITESPACE, Space);
  }

  lemma LineCommentFinish()
    ensures Finish(GoLike, Scan([Token(COMMENT, "// hi"), Token(WHITESPACE, " ")], START, "")).tokens == [Token(COMMENT, "// hi"), Token(WHITESPACE, " "), Token(WHITESPACE, " ")]
  {
    EndInStart(GoLike, [Token(COMMENT, "// hi"), Token(WHITESPACE, " ")]);
  }

  /** The read loop of LineComment, one prefix at a time. */
  lemma LineCommentRun1()
    ensures Run(GoLike, Initial, "/") == Scan([], QUO, "/")
  {
    LineCommentStep1();
    Feed(GoLike, "", '/', "/", Initial,
         Scan([], QUO, "/"));
  }

  lemma LineCommentRun2()
    ensures Run(GoLike, Initial, "//") == Scan([], SINGLE_LINE_COMMENT, "//")
  {
    LineCommentRun1();
    LineCommentStep2();
    Feed(GoLike, "/", '/', "//", Scan([], QUO, "/"),
         Scan([], SINGLE_LINE_COMMENT, "//"));
  }

  lemma LineCommentRun3()
    ensures Run(GoLike, Initial, "// ") == Scan([], SINGLE_LINE_COMMENT, "// ")
  {
    LineCommentRun2();
    LineCommentStep3();
    Feed(GoLike, "//", ' ', "// ", Scan([], SINGLE_LINE_COMMENT, "//"),
         Scan([], SINGLE_LINE_COMMENT, "// "));
  }

  lemma LineCommentRun4()
    ensures Run(GoLike, Initial, "// h") == Scan([], SINGLE_LINE_COMMENT, "// h")
  {
    LineCommentRun3();
    LineCommentStep4();
    Feed(GoLike, "// ", 'h', "// h", Scan([], SINGLE_LINE_COMMENT, "// "),
         Scan([], SINGLE_LINE_COMMENT, "// h"));
  }

  lemma LineCommentRun5()
    ensures Run(GoLike, Initial, "// hi") == Scan([], SINGLE_LINE_COMMENT, "// hi")
  {
    LineCommentRun4();
    LineCommentStep5();
    Feed(GoLike, "// h", 'i', "// hi", Scan([], SINGLE_LINE_COMMENT, "// h"),
         Scan([], SINGLE_LINE_COMMENT, "// hi"));
  }

  lemma LineCommentRun()
    ensures Run(GoLike, Initial, "// hi\n") == Scan([Token(COMMENT, "// hi"), Token(WHITESPACE, " ")], START, "")
  {
    LineCommentRun5();
    LineCommentStep6();
    Feed(GoLike, "// hi", '\n', "// hi\n", Scan([], SINGLE_LINE_COMMENT, "// hi"),
         Scan([Token(COMMENT, "// hi"), Token(WHITESPACE, " ")], START, ""));
  }

  /** The comment stops before its line feed, which is read again as
      whitespace; the synthetic line feed adds a second space. */
  lemma LineComment()
    ensures Lex(GoLike, "// hi\n") ==
      [Token(COMMENT, "// hi"), Token(WHITESPACE, " "), Token(WHITESPACE, " ")]
  {
    LineCommentRun();
    LineCommentFinish();
    Complete(GoLike, "// hi\n", Scan([Token(COMMENT, "// hi"), Token(WHITESPACE, " ")], START, ""),
             [Token(COMMENT, "// hi"), Token(WHITESPACE, " "), Token(WHITESPACE, " ")]);
  }


  /** The table entries used by ComplexLiteral, one per character read. */
  lemma ComplexLiteralStep1()
    ensures Process(GoLike, Initial, '3') == Scan([], DIGIT, "3")
  {
    Open(GoLike, [], '3', DIGIT);
  }

  lemma ComplexLiteralStep2()
    ensures Process(GoLike, Scan([], DIGIT, "3"), '.') == Scan([], PERIOD_IN_DIGIT, "3.")
  {
    Absorb(GoLike, [], DIGIT, "3", '.', PERIOD_IN_DIGIT, "3.");
  }

  lemma ComplexLiteralStep3()
    ensures Process(GoLike, Scan([], PERIOD_IN_DIGIT, "3."), '1') == Scan([], Status.FLOAT, "3.1")
  {
    Absorb(GoLike, [], PERIOD_IN_DIGIT, "3.", '1', Status.FLOAT, "3.1");
  }

  lemma ComplexLiteralStep4()
    ensures Process(GoLike, Scan([], Status.FLOAT, "3.1"), '4') == Scan([], Status.FLOAT, "3.14")
  {
    Absorb(GoLike, [], Status.FLOAT, "3.1", '4', Status.FLOAT, "3.14");
  }

  lemma ComplexLiteralStep5()
    ensures Process(GoLike, Scan([], Status.FLOAT, "3.14"), 'i') == Scan([], COMPLEX_NUMBER, "3.14i")
  {
    Absorb(GoLike, [], Status.FLOAT, "3.14", 'i', COMPLEX_NUMBER, "3.14i");
  }

  lemma ComplexLiteralFinish()
    ensures Finish(GoLike, Scan([], COMPLEX_NUMBER, "3.14i")).tokens == [Token(COMPLEX, "3.14i"), Token(WHITESPACE, " ")]
  {
    EndByClosing(GoLike, [], COMPLEX_NUMBER, "3.14i", COMPLEX);
  }

  /** The read loop of ComplexLiteral, one prefix at a time. */
  lemma ComplexLiteralRun1()
    ensures Run(GoLike, Initial, "3") == Scan([], DIGIT, "3")
  {
    ComplexLiteralStep1();
    Feed(GoLike, "", '3', "3", Initial,
         Scan([], DIGIT, "3"));
  }

  lemma ComplexLiteralRun2()
    ensures Run(GoLike, Initial, "3.") == Scan([], PERIOD_IN_DIGIT, "3.")
  {
    ComplexLiteralRun1();
    ComplexLiteralStep2();
    Feed(GoLike, "3", '.', "3.", Scan([], DIGIT, "3"),
         Scan([], PERIOD_IN_DIGIT, "3."));
  }

  lemma ComplexLiteralRun3()
    ensures Run(GoLike, Initial, "3.1") == Scan([], Status.FLOAT, "3.1")
  {
    ComplexLiteralRun2();
    ComplexLiteralStep3();
    Feed(GoLike, "3.", '1', "3.1", Scan([], PERIOD_IN_DIGIT, "3."),
         Scan([], Status.FLOAT, "3.1"));
  }

  lemma ComplexLiteralRun4()
    ensures Run(GoLike, Initial, "3.14") == Scan([], Status.FLOAT, "3.14")
  {
    ComplexLiteralRun3();
    ComplexLiteralStep4();
    Feed(GoLike, "3.1", '4', "3.14", Scan([], Status.FLOAT, "3.1"),
         Scan([], Status.FLOAT, "3.14"));
  }

  lemma ComplexLiteralRun()
    ensures Run(GoLike, Initial, "3.14i") == Scan([], COMPLEX_NUMBER, "3.14i")
  {
    ComplexLiteralRun4();
    ComplexLiteralStep5();
    Feed(GoLike, "3.14", 'i', "3.14i", Scan([], Status.FLOAT, "3.14"),
         Scan([], COMPLEX_NUMBER, "3.14i"));
  }

  lemma ComplexLiteral()
    ensures Lex(GoLike, "3.14i") == [Token(COMPLEX, "3.14i"), Token(WHITESPACE, " ")]
  {
    ComplexLiteralRun();
    ComplexLiteralFinish();
    Complete(GoLike, "3.14i", Scan([], COMPLEX_NUMBER, "3.14i"),
             [Token(COMPLEX, "3.14i"), Token(WHITESPACE, " ")]);
  }


  /** The table entries used by NullLiteral, one per character read. */
  lemma NullLiteralStep1()
    ensures Process(GoLike, Initial, 'n') == Scan([], TEXT_PROCESSING, "n")
  {
    Open(GoLike, [], 'n', TEXT_PROCESSING);
  }

  lemma NullLiteralStep2()
    ensures Process(GoLike, Scan([], TEXT_PROCESSING, "n"), 'i') == Scan([], TEXT_PROCESSING, "ni")
  {
    Absorb(GoLike, [], TEXT_PROCESSING, "n", 'i', TEXT_PROCESSING, "ni");
  }

  lemma NullLiteralStep3()
    ensures Process(GoLike, Scan([], TEXT_PROCESSING, "ni"), 'l') == Scan([], TEXT_PROCESSING, "nil")
  {
    Absorb(GoLike, [], TEXT_PROCESSING, "ni", 'l', TEXT_PROCESSING, "nil");
  }

  lemma NullLiteralFinish()
    ensures Finish(GoLike, Scan([], TEXT_PROCESSING, "nil")).tokens == [Token(NULL, "nil"), Token(WHITESPACE, " ")]
  {
    var b := "nil" + ['\n'];
    assert b[..|b| - 1] == "nil";
    EndByClosing(GoLike, [], TEXT_PROCESSING, "nil", NULL);
  }

  /** The read loop of NullLiteral, one prefix at a time. */
  lemma NullLiteralRun1()
    ensures Run(GoLike, Initial, "n") == Scan([], TEXT_PROCESSING, "n")
  {
    NullLiteralStep1();
    Feed(GoLike, "", 'n', "n", Initial,
         Scan([], TEXT_PROCESSING, "n"));
  }

  lemma NullLiteralRun2()
    ensures Run(GoLike, Initial, "ni") == Scan([], TEXT_PROCESSING, "ni")
  {
    NullLiteralRun1();
    NullLiteralStep2();
    Feed(GoLike, "n", 'i', "ni", Scan([], TEXT_PROCESSING, "n"),
         Scan([], TEXT_PROCESSING, "ni"));
  }

  lemma NullLiteralRun()
    ensures Run(GoLike, Initial, "nil") == Scan([], TEXT_PROCESSING, "nil")
  {
    NullLiteralRun2();
    NullLiteralStep3();
    Feed(GoLike, "ni", 'l', "nil", Scan([], TEXT_PROCESSING, "ni"),
         Scan([], TEXT_PROCESSING, "nil"));
  }

  lemma NullLiteral()
    ensures Lex(GoLike, "nil") == [Token(NULL, "nil"), Token(WHITESPACE, " ")]
  {
    NullLiteralRun();
    NullLiteralFinish();
    Complete(GoLike, "nil", Scan([], TEXT_PROCESSING, "nil"),
             [Token(NULL, "nil"), Token(WHITESPACE, " ")]);
  }


  /** The table entries used by UnrecognisedCharacter, one per character read. */
  lemma UnrecognisedCharacterStep1()
    ensures Process(GoLike, Initial, '@') == Scan([], Status.ERROR, "@")
  {
    Open(GoLike, [], '@', Status.ERROR);
  }

  lemma UnrecognisedCharacterFinish()
    ensures Finish(GoLike, Scan([], Status.ERROR, "@")).tokens == [Token(TokenKind.ERROR, "@"), Token(WHITESPACE, " ")]
  {
    EndByClosing(GoLike, [], Status.ERROR, "@", TokenKind.ERROR);
  }

  /** An unrecognised character is one ERROR token, closed by the synthetic
      line feed, which then gives the only space. */
  lemma UnrecognisedCharacter()
    ensures Lex(GoLike, "@") == [Token(TokenKind.ERROR, "@"), Token(WHITESPACE, " ")]
  {
    UnrecognisedCharacterStep1();
    UnrecognisedCharacterFinish();
    Feed(GoLike, "", '@', "@", Initial, Scan([], Status.ERROR, "@"));
    Complete(GoLike, "@", Scan([], Status.ERROR, "@"),
             [Token(TokenKind.ERROR, "@"), Token(WHITESPACE, " ")]);
  }

  /** The table entries used by UnterminatedString, one per character read. */
  lemma UnterminatedStringStep1()
    ensures Process(GoLike, Initial, '"') == Scan([], Status.STRING, "\"")
  {
    Open(GoLike, [], '"', Status.STRING);
  }

  lemma UnterminatedStringStep2()
    ensures Process(GoLike, Scan([], Status.STRING, "\""), 'a') == Scan([], Status.STRING, "\"a")
  {
    Absorb(GoLike, [], Status.STRING, "\"", 'a', Status.STRING, "\"a");
  }

  lemma UnterminatedStringStep3()
    ensures Process(GoLike, Scan([], Status.STRING, "\"a"), 'b') == Scan([], Status.STRING, "\"ab")
  {
    Absorb(GoLike, [], Status.STRING, "\"a", 'b', Status.STRING, "\"ab");
  }

  lemma UnterminatedStringFinish()
    ensures Finish(GoLike, Scan([], Status.STRING, "\"ab")).tokens == [Token(TokenKind.ERROR, "\"ab\n")]
  {
    Absorb(GoLike, [], Status.STRING, "\"ab", '\n', Status.STRING, "\"ab\n");
    FinishFlush(GoLike, Scan([], Status.STRING, "\"ab"), Scan([], Status.STRING, "\"ab\n"));
  }

  /** The read loop of UnterminatedString, one prefix at a time. */
  lemma UnterminatedStringRun1()
    ensures Run(GoLike, Initial, "\"") == Scan([], Status.STRING, "\"")
  {
    UnterminatedStringStep1();
    Feed(GoLike, "", '"', "\"", Initial,
         Scan([], Status.STRING, "\""));
  }

  lemma UnterminatedStringRun2()
    ensures Run(GoLike, Initial, "\"a") == Scan([], Status.STRING, "\"a")
  {
    UnterminatedStringRun1();
    UnterminatedStringStep2();
    Feed(GoLike, "\"", 'a', "\"a", Scan([], Status.STRING, "\""),
         Scan([], Status.STRING, "\"a"));
  }

  lemma UnterminatedStringRun()
    ensures Run(GoLike, Initial, "\"ab") == Scan([], Status.STRING, "\"ab")
  {
    UnterminatedStringRun2();
    UnterminatedStringStep3();
    Feed(GoLike, "\"a", 'b', "\"ab", Scan([], Status.STRING, "\"a"),
         Scan([], Status.STRING, "\"ab"));
  }

  /** A string left open swallows the synthetic line feed and is flushed as
      one ERROR token. */
  lemma UnterminatedString()
    ensures Lex(GoLike, "\"ab") == [Token(TokenKind.ERROR, "\"ab\n")]
  {
    UnterminatedStringRun();
    UnterminatedStringFinish();
    Complete(GoLike, "\"ab", Scan([], Status.STRING, "\"ab"),
             [Token(TokenKind.ERROR, "\"ab\n")]);
  }


  /** The table entries used by EscapedQuote, one per character read. */
  lemma EscapedQuoteStep1()
    ensures Process(GoLike, Initial, '"') == Scan([], Status.STRING, "\"")
  {
    Open(GoLike, [], '"', Status.STRING);
  }

  lemma EscapedQuoteStep2()
    ensures Process(GoLike, Scan([], Status.STRING, "\""), '\\') == Scan([], Status.STRING, "\"\\")
  {
    Absorb(GoLike, [], Status.STRING, "\"", '\\', Status.STRING, "\"\\");
  }

  lemma EscapedQuoteStep3()
    ensures Process(GoLike, Scan([], Status.STRING, "\"\\"), '"') == Scan([], Status.STRING, "\"\"")
  {
    assert "\"\\" == "\"" + ['\\'];
    DropBackslash(GoLike, [], "\"", "\"\"");
  }

  lemma EscapedQuoteStep4()
    ensures Process(GoLike, Scan([], Status.STRING, "\"\""), '"') == Scan([Token(TokenKind.STRING, "\"\"\"")], START, "")
  {
    Include(GoLike, [], Status.STRING, "\"\"", '"', TokenKind.STRING, "\"\"\"");
  }

  lemma EscapedQuoteFinish()
    ensures Finish(GoLike, Scan([Token(TokenKind.STRING, "\"\"\"")], START, "")).tokens == [Token(TokenKind.STRING, "\"\"\""), Token(WHITESPACE, " ")]
  {
    EndInStart(GoLike, [Token(TokenKind.STRING, "\"\"\"")]);
  }

  /** The read loop of EscapedQuote, one prefix at a time. */
  lemma EscapedQuoteRun1()
    ensures Run(GoLike, Initial, "\"") == Scan([], Status.STRING, "\"")
  {
    EscapedQuoteStep1();
    Feed(GoLike, "", '"', "\"", Initial,
         Scan([], Status.STRING, "\""));
  }

  lemma EscapedQuoteRun2()
    ensures Run(GoLike, Initial, "\"\\") == Scan([], Status.STRING, "\"\\")
  {
    EscapedQuoteRun1();
    EscapedQuoteStep2();
    Feed(GoLike, "\"", '\\', "\"\\", Scan([], Status.STRING, "\""),
         Scan([], Status.STRING, "\"\\"));
  }

  lemma EscapedQuoteRun3()
    ensures Run(GoLike, Initial, "\"\\\"") == Scan([], Status.STRING, "\"\"")
  {
    EscapedQuoteRun2();
    EscapedQuoteStep3();
    Feed(GoLike, "\"\\", '"', "\"\\\"", Scan([], Status.STRING, "\"\\"),
         Scan([], Status.STRING, "\"\""));
  }

  lemma EscapedQuoteRun()
    ensures Run(GoLike, Initial, "\"\\\"\"") == Scan([Token(TokenKind.STRING, "\"\"\"")], START, "")
  {
    EscapedQuoteRun3();
    EscapedQuoteStep4();
    Feed(GoLike, "\"\\\"", '"', "\"\\\"\"", Scan([], Status.STRING, "\"\""),
         Scan([Token(TokenKind.STRING, "\"\"\"")], START, ""));
  }

  /** The backslash of an escaped quote is not part of the STRING token. */
  lemma EscapedQuote()
    ensures Lex(GoLike, "\"\\\"\"") == [Token(TokenKind.STRING, "\"\"\""), Token(WHITESPACE, " ")]
  {
    EscapedQuoteRun();
    EscapedQuoteFinish();
    Complete(GoLike, "\"\\\"\"", Scan([Token(TokenKind.STRING, "\"\"\"")], START, ""),
             [Token(TokenKind.STRING, "\"\"\""), Token(WHITESPACE, " ")]);
  }


  /** The table entries used by AmpersandBeforeLetter, one per character read. */
  lemma AmpersandBeforeLetterStep1()
    ensures Process(GoLike, Initial, '&') == Scan([], AND, "&")
  {
    Open(GoLike, [], '&', AND);
  }

  lemma AmpersandBeforeLetterStep2()
    ensures Process(GoLike, Scan([], AND, "&"), 'x') == Scan([], AND, "&x")
  {
    Absorb(GoLike, [], AND, "&", 'x', AND, "&x");
  }

  lemma AmpersandBeforeLetterFinish()
    ensures Finish(GoLike, Scan([], AND, "&x")).tokens == [Token(TokenKind.ERROR, "&x\n")]
  {
    Absorb(GoLike, [], AND, "&x", '\n', AND, "&x\n");
    FinishFlush(GoLike, Scan([], AND, "&x"), Scan([], AND, "&x\n"));
  }

  /** The read loop of AmpersandBeforeLetter, one prefix at a time. */
  lemma AmpersandBeforeLetterRun1()
    ensures Run(GoLike, Initial, "&") == Scan([], AND, "&")
  {
    AmpersandBeforeLetterStep1();
    Feed(GoLike, "", '&', "&", Initial,
         Scan([], AND, "&"));
  }

  lemma AmpersandBeforeLetterRun()
    ensures Run(GoLike, Initial, "&x") == Scan([], AND, "&x")
  {
    AmpersandBeforeLetterRun1();
    AmpersandBeforeLetterStep2();
    Feed(GoLike, "&", 'x', "&x", Scan([], AND, "&"),
         Scan([], AND, "&x"));
  }

  /** A lone '&' before a letter is never emitted as an operator: the letter
      and the synthetic line feed are absorbed and flushed as ERROR. */
  lemma AmpersandBeforeLetter()
    ensures Lex(GoLike, "&x") == [Token(TokenKind.ERROR, "&x\n")]
  {
    AmpersandBeforeLetterRun();
    AmpersandBeforeLetterFinish();
    Complete(GoLike, "&x", Scan([], AND, "&x"),
             [Token(TokenKind.ERROR, "&x\n")]);
  }


  /** The table entries used by UnterminatedBlockComment, one per character read. */
  lemma UnterminatedBlockCommentStep1()
    ensures Process(GoLike, Initial, '/') == Scan([], QUO, "/")
  {
    Open(GoLike, [], '/', QUO);
  }

  lemma UnterminatedBlockCommentStep2()
    ensures Process(GoLike, Scan([], QUO, "/"), '*') == Scan([], BLOCK_COMMENT, "/*")
  {
    Absorb(GoLike, [], QUO, "/", '*', BLOCK_COMMENT, "/*");
  }

  lemma UnterminatedBlockCommentFinish()
    ensures Finish(GoLike, Scan([], BLOCK_COMMENT, "/*")).tokens == [Token(TokenKind.ERROR, "/*\n")]
  {
    Absorb(GoLike, [], BLOCK_COMMENT, "/*", '\n', BLOCK_COMMENT, "/*\n");
    FinishFlush(GoLike, Scan([], BLOCK_COMMENT, "/*"), Scan([], BLOCK_COMMENT, "/*\n"));
  }

  /** The read loop of UnterminatedBlockComment, one prefix at a time. */
  lemma UnterminatedBlockCommentRun1()
    ensures Run(GoLike, Initial, "/") == Scan([], QUO, "/")
  {
    UnterminatedBlockCommentStep1();
    Feed(GoLike, "", '/', "/", Initial,
         Scan([], QUO, "/"));
  }

  lemma UnterminatedBlockCommentRun()
    ensures Run(GoLike, Initial, "/*") == Scan([], BLOCK_COMMENT, "/*")
  {
    UnterminatedBlockCommentRun1();
    UnterminatedBlockCommentStep2();
    Feed(GoLike, "/", '*', "/*", Scan([], QUO, "/"),
         Scan([], BLOCK_COMMENT, "/*"));
  }

  /** A block comment that is never closed absorbs the synthetic line feed
      and is flushed as ERROR, not as COMMENT. */
  lemma UnterminatedBlockComment()
    ensures Lex(GoLike, "/*") == [Token(TokenKind.ERROR, "/*\n")]
  {
    UnterminatedBlockCommentRun();
    UnterminatedBlockCommentFinish();
    Complete(GoLike, "/*", Scan([], BLOCK_COMMENT, "/*"),
             [Token(TokenKind.ERROR, "/*\n")]);
  }


  /** The table entries used by EscapedBackslash, one per character read. */
  lemma EscapedBackslashStep1()
    ensures Process(GoLike, Initial, '"') == Scan([], Status.STRING, "\"")
  {
    Open(GoLike, [], '"', Status.STRING);
  }

  lemma EscapedBackslashStep2()
    ensures Process(GoLike, Scan([], Status.STRING, "\""), '\\') == Scan([], Status.STRING, "\"\\")
  {
    Absorb(GoLike, [], Status.STRING, "\"", '\\', Status.STRING, "\"\\");
  }

  lemma EscapedBackslashStep3()
    ensures Process(GoLike, Scan([], Status.STRING, "\"\\"), '\\') == Scan([], Status.STRING, "\"\\\\")
  {
    Absorb(GoLike, [], Status.STRING, "\"\\", '\\', Status.STRING, "\"\\\\");
  }

  lemma EscapedBackslashStep4()
    ensures Process(GoLike, Scan([], Status.STRING, "\"\\\\"), '"') == Scan([], Status.STRING, "\"\\\"")
  {
    assert "\"\\\\" == "\"\\" + ['\\'];
    DropBackslash(GoLike, [], "\"\\", "\"\\\"");
  }

  lemma EscapedBackslashFinish()
    ensures Finish(GoLike, Scan([], Status.STRING, "\"\\\"")).tokens == [Token(TokenKind.ERROR, "\"\\\"\n")]
  {
    Absorb(GoLike, [], Status.STRING, "\"\\\"", '\n', Status.STRING, "\"\\\"\n");
    FinishFlush(GoLike, Scan([], Status.STRING, "\"\\\""), Scan([], Status.STRING, "\"\\\"\n"));
  }

  /** The read loop of EscapedBackslash, one prefix at a time. */
  lemma EscapedBackslashRun1()
    ensures Run(GoLike, Initial, "\"") == Scan([], Status.STRING, "\"")
  {
    EscapedBackslashStep1();
    Feed(GoLike, "", '"', "\"", Initial,
         Scan([], Status.STRING, "\""));
  }

  lemma EscapedBackslashRun2()
    ensures Run(GoLike, Initial, "\"\\") == Scan([], Status.STRING, "\"\\")
  {
    EscapedBackslashRun1();
    EscapedBackslashStep2();
    Feed(GoLike, "\"", '\\', "\"\\", Scan([], Status.STRING, "\""),
         Scan([], Status.STRING, "\"\\"));
  }

  lemma EscapedBackslashRun3()
    ensures Run(GoLike, Initial, "\"\\\\") == Scan([], Status.STRING, "\"\\\\")
  {
    EscapedBackslashRun2();
    EscapedBackslashStep3();
    Feed(GoLike, "\"\\", '\\', "\"\\\\", Scan([], Status.STRING, "\"\\"),
         Scan([], Status.STRING, "\"\\\\"));
  }

  lemma EscapedBackslashRun()
    ensures Run(GoLike, Initial, "\"\\\\\"") == Scan([], Status.STRING, "\"\\\"")
  {
    EscapedBackslashRun3();
    EscapedBackslashStep4();
    Feed(GoLike, "\"\\\\", '"', "\"\\\\\"", Scan([], Status.STRING, "\"\\\\"),
         Scan([], Status.STRING, "\"\\\""));
  }

  /** The escape test looks back one character only: after an escaped
      backslash the closing quote is taken as escaped, so the literal stays
      open and is flushed as ERROR. */
  lemma EscapedBackslash()
    ensures Lex(GoLike, "\"\\\\\"") == [Token(TokenKind.ERROR, "\"\\\"\n")]
  {
    EscapedBackslashRun();
    EscapedBackslashFinish();
    Complete(GoLike, "\"\\\\\"", Scan([], Status.STRING, "\"\\\""),
             [Token(TokenKind.ERROR, "\"\\\"\n")]);
  }


  /** The table entries used by BackslashOutsideString. */
  lemma BackslashOutsideStringStep1()
    ensures Process(GoLike, Initial, '\\') == Scan([], Status.ERROR, "\\")
  {
    Open(GoLike, [], '\\', Status.ERROR);
  }

  lemma BackslashOutsideStringFinish()
    ensures Finish(GoLike, Scan([], Status.ERROR, "\\")).tokens == [Token(TokenKind.ERROR, "\\"), Token(WHITESPACE, " ")]
  {
    EndByClosing(GoLike, [], Status.ERROR, "\\", TokenKind.ERROR);
  }

  /** A backslash outside a string literal is kept: it is an ERROR token of
      its own, and the tokens give back the input and the line feed exactly. */
  lemma BackslashOutsideString()
    ensures Lex(GoLike, "\\") == [Token(TokenKind.ERROR, "\\"), Token(WHITESPACE, " ")]
    ensures WhitespaceCount(Lex(GoLike, "\\")) == 1
    ensures Restore(Lex(GoLike, "\\"), "\n") == "\\\n"
  {
    BackslashOutsideStringStep1();
    BackslashOutsideStringFinish();
    Feed(GoLike, "", '\\', "\\", Initial, Scan([], Status.ERROR, "\\"));
    Complete(GoLike, "\\", Scan([], Status.ERROR, "\\"),
             [Token(TokenKind.ERROR, "\\"), Token(WHITESPACE, " ")]);
    var ts := [Token(TokenKind.ERROR, "\\"), Token(WHITESPACE, " ")];
    assert ts[..1] == [Token(TokenKind.ERROR, "\\")];
    assert ts[..1][..0] == [];
    assert "\n"[..0] == [];
  }
}
