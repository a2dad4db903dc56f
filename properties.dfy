/** Properties of the scanner model: how each character is emitted, that no
    character is lost, the end-of-stream flush, composite operators, word
    classification, string escapes and the handlers without a final else. */
module ScannerProperties {
  import opened Classifier
  import opened Tokens
  import opened Scanner

  /** A token as the scanner can emit it: non-empty text, and a single space
      for WHITESPACE. */
  predicate WellFormed(t: Token) {
    t.text != [] && (t.kind == WHITESPACE ==> t.text == Space)
  }

  /** The character is absorbed: no token, and the buffer grows by c, or, for
      an escaped quote, the backslash before it is replaced by the quote. */
  predicate Absorbed(s: Scan, c: char, r: Scan)
    requires s.status != START ==> s.buffer != []
  {
    r.tokens == s.tokens && r.status != START
    && (r.buffer == s.buffer + [c]
        || (s.status == Status.STRING && c == '"' && s.buffer[|s.buffer| - 1] == '\\'
            && r.status == Status.STRING && r.buffer == s.buffer[..|s.buffer| - 1] + [c]))
  }

  /** Inclusive emission: one token holding the whole buffer including c (a
      space, when c is whitespace read in START), and an empty buffer. */
  predicate Included(s: Scan, c: char, r: Scan) {
    |r.tokens| == |s.tokens| + 1 && r.tokens[..|s.tokens|] == s.tokens
    && r.status == START && r.buffer == []
    && (if r.tokens[|s.tokens|].kind == WHITESPACE
        then s.status == START && IsWhitespace(c) && r.tokens[|s.tokens|].text == Space
        else r.tokens[|s.tokens|].text == s.buffer + [c])
  }

  /** Exclusive emission: one token holding the buffer before c, after which c
      is processed as if read in START with an empty buffer. */
  predicate Excluded(g: Grammar, s: Scan, c: char, r: Scan) {
    s.status != START && |r.tokens| > |s.tokens| && r.tokens[..|s.tokens|] == s.tokens
    && r.tokens[|s.tokens|].kind != WHITESPACE && r.tokens[|s.tokens|].text == s.buffer
    && r == Process(g, Scan(r.tokens[..|s.tokens| + 1], START, []), c)
  }

  /** What each kind of action does to the state: Stay changes only the
      status, Emit appends one token and empties the buffer, Close appends
      the buffer without its last character first and, when that character
      is c, leaves the state coupled, Unescape shortens the buffer by one. */
  lemma ApplyEffect(g: Grammar, t: Scan, c: char, a: Action)
    requires a.Close? ==> t.buffer != []
    requires a.Unescape? ==> |t.buffer| >= 2
    ensures var r := Apply(g, t, c, a);
      && t.tokens <= r.tokens
      && (a.Stay? ==> r == t.(status := a.next))
      && (a.Emit? ==> r.status == START && r.buffer == [] && |r.tokens| == |t.tokens| + 1)
      && (a.Close? ==> |r.tokens| > |t.tokens| && r.tokens[|t.tokens|] == Token(a.kind, t.buffer[..|t.buffer| - 1])
                       && (r.status == START <==> r.buffer == [])
                       && (t.buffer[|t.buffer| - 1] == c ==> Coupled(r)))
      && (a.Unescape? ==> r.tokens == t.tokens && r.status == t.status && |r.buffer| == |t.buffer| - 1)
  {
    if a.Close? && t.buffer[|t.buffer| - 1] == c {
      assert AddCompleteToken(t, a.kind).buffer == [c];
    }
  }

  /** After a dispatch the status is START exactly when the buffer is empty,
      tokens are only appended, and reaching START means a token was emitted. */
  lemma DispatchEffect(g: Grammar, t: Scan, c: char)
    requires t.buffer != []
    requires t.status == Status.STRING ==> |t.buffer| >= 2
    ensures var r := Dispatch(g, t, c);
      && t.tokens <= r.tokens
      && (r.status == START <==> r.buffer == [])
      && (r.status == START ==> |r.tokens| > |t.tokens|)
  {
    var a := Transition(g, t.status, t.buffer, c);
    ApplyEffect(g, t, c, a);
    if a.Close? {
      ApplyEffect(g, AddCompleteToken(t, a.kind).(status := START), c, StartAction(g, c));
    }
  }

  /** An exclusive emission in status s.status is the same as emitting the
      old buffer and reading c in START with an empty buffer. */
  lemma CloseRedispatches(g: Grammar, s: Scan, c: char, k: TokenKind)
    requires Coupled(s) && s.status != START
    requires Transition(g, s.status, s.buffer + [c], c) == Close(k)
    ensures Process(g, s, c) == Process(g, Scan(s.tokens + [Token(k, s.buffer)], START, []), c)
  {
    var t := s.(buffer := s.buffer + [c]);
    var ts := s.tokens + [Token(k, s.buffer)];
    assert t.buffer[..|t.buffer| - 1] == s.buffer;
    var mid := AddCompleteToken(t, k).(status := START);
    assert mid == Scan(ts, START, [c]);
    assert Scan(ts, START, []).(buffer := [] + [c]) == mid;
  }

  /** One processSymbol step takes one of the three forms. */
  lemma EmissionForms(g: Grammar, s: Scan, c: char)
    requires Coupled(s)
    ensures Absorbed(s, c, Process(g, s, c)) || Included(s, c, Process(g, s, c))
            || Excluded(g, s, c, Process(g, s, c))
  {
    var a := Transition(g, s.status, s.buffer + [c], c);
    if a.Close? {
      var ts := s.tokens + [Token(a.kind, s.buffer)];
      CloseRedispatches(g, s, c, a.kind);
      var r := Process(g, s, c);
      assert r.tokens[..|ts|] == ts;
      assert r.tokens[..|s.tokens| + 1] == ts;
      assert ts[..|s.tokens|] == s.tokens;
    }
  }

  /** Every token a step adds is well formed. */
  lemma StepWellFormed(g: Grammar, s: Scan, c: char)
    requires Coupled(s)
    ensures forall i | |s.tokens| <= i < |Process(g, s, c).tokens| :: WellFormed(Process(g, s, c).tokens[i])
    decreases if s.status == START then 0 else 1
  {
    EmissionForms(g, s, c);
    var r := Process(g, s, c);
    var n := |s.tokens|;
    if Absorbed(s, c, r) {
    } else if Included(s, c, r) {
      assert WellFormed(r.tokens[n]);
    } else {
      var mid := Scan(r.tokens[..n + 1], START, []);
      StepWellFormed(g, mid, c);
      assert WellFormed(r.tokens[n]);
    }
  }

  /** Every token of a run from a state with well-formed tokens is well formed,
      so no token with empty text is ever emitted. */
  lemma {:induction false} RunWellFormed(g: Grammar, s: Scan, input: string)
    requires Coupled(s)
    requires forall i | 0 <= i < |s.tokens| :: WellFormed(s.tokens[i])
    ensures forall i | 0 <= i < |Run(g, s, input).tokens| :: WellFormed(Run(g, s, input).tokens[i])
    decreases |input|
  {
    if input != [] {
      var p := Run(g, s, input[..|input| - 1]);
      RunWellFormed(g, s, input[..|input| - 1]);
      StepWellFormed(g, p, input[|input| - 1]);
    }
  }

  /** All tokens returned for any input have non-empty text, and every
      WHITESPACE token is a single space. */
  lemma LexWellFormed(g: Grammar, input: string)
    ensures forall i | 0 <= i < |Lex(g, input)| :: WellFormed(Lex(g, input)[i])
  {
    var s := Run(g, Initial, input);
    RunWellFormed(g, Initial, input);
    StepWellFormed(g, s, '\n');
  }

  /** No status other than START emits on a line feed: it either keeps the
      line feed or closes the pending token before it. */
  lemma LineFeedEntry(g: Grammar, st: Status, b: string)
    requires b != [] && st != START && (st == Status.STRING ==> |b| >= 2)
    ensures Transition(g, st, b, '\n').Stay? || Transition(g, st, b, '\n').Close?
  {
    assert IsWhitespace('\n');
  }

  /** The synthetic line feed either ends in START, with the space it
      produced as the last token, or leaves a non-empty buffer. */
  lemma LineFeedStep(g: Grammar, s: Scan)
    requires Coupled(s)
    ensures var t := Process(g, s, '\n');
      if t.status == START
      then t.buffer == [] && |t.tokens| > |s.tokens| && t.tokens[|t.tokens| - 1] == Token(WHITESPACE, Space)
      else t.buffer != []
  {
    var b := s.buffer + ['\n'];
    var a := Transition(g, s.status, b, '\n');
    assert IsWhitespace('\n');
    if s.status == START {
      assert a == Emit(WHITESPACE);
      assert Process(g, s, '\n') == CreateToken(s.(buffer := b), WHITESPACE).(status := START);
    } else if a.Close? {
      var m := AddCompleteToken(s.(buffer := b), a.kind).(status := START);
      assert StartAction(g, '\n') == Emit(WHITESPACE);
      assert Process(g, s, '\n') == CreateToken(m, WHITESPACE).(status := START);
    } else {
      LineFeedEntry(g, s.status, b);
    }
  }

  /** The end of the scan processes exactly one line feed; then either the
      status is START and the last token is the space that line feed produced,
      or the whole remaining (non-empty) buffer becomes one ERROR token. */
  lemma EndOfStream(g: Grammar, s: Scan)
    requires Coupled(s)
    ensures var t := Process(g, s, '\n'); var r := Finish(g, s);
      r.buffer == [] && |r.tokens| > |s.tokens|
      && (if t.status == START
          then r == t && r.tokens[|r.tokens| - 1] == Token(WHITESPACE, Space)
          else t.buffer != [] && r.tokens == t.tokens + [Token(TokenKind.ERROR, t.buffer)])
  {
    LineFeedStep(g, s);
  }


  // ---------------------------------------------------------------------
  // Conservation of characters

  /** Number of WHITESPACE tokens. */
  function WhitespaceCount(ts: seq<Token>): nat {
    if ts == [] then 0
    else WhitespaceCount(ts[..|ts| - 1]) + (if ts[|ts| - 1].kind == WHITESPACE then 1 else 0)
  }

  /** The concatenated token texts, with the i-th WHITESPACE token replaced by
      the whitespace character ws[i] that produced it. */
  function Restore(ts: seq<Token>, ws: string): string
    requires WhitespaceCount(ts) == |ws|
  {
    if ts == [] then []
    else if ts[|ts| - 1].kind == WHITESPACE then Restore(ts[..|ts| - 1], ws[..|ws| - 1]) + [ws[|ws| - 1]]
    else Restore(ts[..|ts| - 1], ws) + ts[|ts| - 1].text
  }

  /** out is inp with zero or more backslashes deleted, each of them one that
      stood immediately before a double quote. */
  predicate Erases(out: string, inp: string)
    decreases |inp|
  {
    if inp == [] then out == []
    else if out != [] && out[|out| - 1] == inp[|inp| - 1] && Erases(out[..|out| - 1], inp[..|inp| - 1]) then true
    else |inp| >= 2 && inp[|inp| - 2] == '\\' && inp[|inp| - 1] == '"'
         && out != [] && out[|out| - 1] == '"' && Erases(out[..|out| - 1], inp[..|inp| - 2])
  }

  lemma ErasesSnoc(out: string, inp: string, c: char)
    requires Erases(out, inp)
    ensures Erases(out + [c], inp + [c])
  {
    assert (out + [c])[..|out|] == out;
    assert (inp + [c])[..|inp|] == inp;
  }

  /** Dropping the backslash that was the last character of both sides. */
  lemma ErasesUnescape(x: string, inp: string)
    requires Erases(x + ['\\'], inp)
    requires inp != [] && inp[|inp| - 1] == '\\'
    ensures Erases(x + ['"'], inp + ['"'])
  {
    assert (x + ['\\'])[..|x|] == x;
    assert Erases(x, inp[..|inp| - 1]);
    var inp' := inp + ['"'];
    assert inp'[..|inp'| - 2] == inp[..|inp| - 1];
    assert (x + ['"'])[..|x|] == x;
  }

  /** Without backslashes in the input nothing can have been deleted. */
  lemma {:induction false} ErasesExact(out: string, inp: string)
    requires Erases(out, inp)
    requires '\\' !in inp
    ensures out == inp
    decreases |inp|
  {
    if inp != [] {
      if |inp| >= 2 {
        assert inp[|inp| - 2] in inp;
      }
      assert '\\' !in inp[..|inp| - 1] by {
        forall x | x in inp[..|inp| - 1] ensures x in inp { }
      }
      ErasesExact(out[..|out| - 1], inp[..|inp| - 1]);
      assert out == out[..|out| - 1] + [out[|out| - 1]];
      assert inp == inp[..|inp| - 1] + [inp[|inp| - 1]];
    }
  }

  lemma RestoreText(ts: seq<Token>, t: Token, ws: string)
    requires t.kind != WHITESPACE && WhitespaceCount(ts) == |ws|
    ensures WhitespaceCount(ts + [t]) == |ws|
    ensures Restore(ts + [t], ws) == Restore(ts, ws) + t.text
  {
    assert (ts + [t])[..|ts|] == ts;
  }

  lemma RestoreSpace(ts: seq<Token>, t: Token, ws: string, w: char)
    requires t.kind == WHITESPACE && WhitespaceCount(ts) == |ws|
    ensures WhitespaceCount(ts + [t]) == |ws + [w]|
    ensures Restore(ts + [t], ws + [w]) == Restore(ts, ws) + [w]
  {
    assert (ts + [t])[..|ts|] == ts;
    assert (ws + [w])[..|ws|] == ws;
  }

  /** The state s accounts for the characters consumed so far: one whitespace
      character per WHITESPACE token, the restored texts followed by the buffer
      erase into the consumed characters, and the buffer ends with the last
      consumed character. */
  predicate Accounts(s: Scan, ws: string, consumed: string) {
    WhitespaceCount(s.tokens) == |ws|
    && (forall i | 0 <= i < |ws| :: IsWhitespace(ws[i]))
    && Erases(Restore(s.tokens, ws) + s.buffer, consumed)
    && (s.buffer != [] ==> consumed != [] && s.buffer[|s.buffer| - 1] == consumed[|consumed| - 1])
  }

  lemma AbsorbedAccounts(s: Scan, ws: string, consumed: string, c: char, r: Scan)
    requires Coupled(s) && Accounts(s, ws, consumed) && Absorbed(s, c, r)
    ensures Accounts(r, ws, consumed + [c])
  {
    var R := Restore(s.tokens, ws);
    if r.buffer == s.buffer + [c] {
      ErasesSnoc(R + s.buffer, consumed, c);
      assert R + s.buffer + [c] == R + r.buffer;
    } else {
      var x := R + s.buffer[..|s.buffer| - 1];
      assert R + s.buffer == x + ['\\'];
      ErasesUnescape(x, consumed);
      assert R + r.buffer == x + ['"'];
    }
  }

  lemma IncludedAccounts(s: Scan, ws: string, consumed: string, c: char, r: Scan) returns (ws': string)
    requires Coupled(s) && Accounts(s, ws, consumed) && Included(s, c, r)
    ensures Accounts(r, ws', consumed + [c])
  {
    var n := |s.tokens|;
    var R := Restore(s.tokens, ws);
    var t := r.tokens[n];
    assert r.tokens == s.tokens + [t];
    ErasesSnoc(R + s.buffer, consumed, c);
    if t.kind == WHITESPACE {
      ws' := ws + [c];
      RestoreSpace(s.tokens, t, ws, c);
      assert s.buffer == [];
      assert Restore(r.tokens, ws') + r.buffer == R + s.buffer + [c];
      assert ws'[|ws|] == c;
    } else {
      ws' := ws;
      RestoreText(s.tokens, t, ws);
      assert Restore(r.tokens, ws') + r.buffer == R + s.buffer + [c];
    }
  }

  /** One processSymbol step keeps the accounting, for consumed + [c]. */
  /** The token an exclusive emission closes restores to the whole old
      buffer, so the state it hands back to START still accounts. */
  lemma ExcludedAccounts(g: Grammar, s: Scan, ws: string, consumed: string, c: char, r: Scan)
    requires Coupled(s) && Accounts(s, ws, consumed) && Excluded(g, s, c, r)
    ensures Accounts(Scan(r.tokens[..|s.tokens| + 1], START, []), ws, consumed)
  {
    var n := |s.tokens|;
    var t := r.tokens[n];
    var mid := Scan(r.tokens[..n + 1], START, []);
    assert mid.tokens == s.tokens + [t];
    RestoreText(s.tokens, t, ws);
    assert Restore(mid.tokens, ws) + mid.buffer == Restore(s.tokens, ws) + s.buffer;
  }

  lemma StepAccounts(g: Grammar, s: Scan, ws: string, consumed: string, c: char) returns (ws': string)
    requires Coupled(s) && Accounts(s, ws, consumed)
    ensures Accounts(Process(g, s, c), ws', consumed + [c])
    decreases if s.status == START then 0 else 1
  {
    EmissionForms(g, s, c);
    var r := Process(g, s, c);
    if Absorbed(s, c, r) {
      AbsorbedAccounts(s, ws, consumed, c, r);
      ws' := ws;
    } else if Included(s, c, r) {
      ws' := IncludedAccounts(s, ws, consumed, c, r);
    } else {
      var mid := Scan(r.tokens[..|s.tokens| + 1], START, []);
      ExcludedAccounts(g, s, ws, consumed, c, r);
      ws' := StepAccounts(g, mid, ws, consumed, c);
    }
  }

  /** After reading input on a fresh lexer, the token texts (each WHITESPACE
      token replaced by the whitespace character it stands for) followed by
      the buffer give back the input, except for backslashes removed before
      escaped quotes. */
  lemma {:induction false} RunConserves(g: Grammar, input: string) returns (ws: string)
    ensures Accounts(Run(g, Initial, input), ws, input)
    decreases |input|
  {
    if input == [] {
      ws := [];
    } else {
      var prefix, c := input[..|input| - 1], input[|input| - 1];
      assert input == prefix + [c];
      var ws0 := RunConserves(g, prefix);
      ws := StepAccounts(g, Run(g, Initial, prefix), ws0, prefix, c);
    }
  }

  /** The whole token list of a scan gives back the input followed by the
      synthetic line feed, up to backslashes removed before escaped quotes;
      with no backslash in the input the reconstruction is exact. */
  lemma LexConserves(g: Grammar, input: string) returns (ws: string)
    ensures WhitespaceCount(Lex(g, input)) == |ws|
    ensures forall i | 0 <= i < |ws| :: IsWhitespace(ws[i])
    ensures Erases(Restore(Lex(g, input), ws), input + ['\n'])
    ensures '\\' !in input ==> Restore(Lex(g, input), ws) == input + ['\n']
  {
    var s := Run(g, Initial, input);
    var ws0 := RunConserves(g, input);
    ws := StepAccounts(g, s, ws0, input, '\n');
    var t := Process(g, s, '\n');
    if t.status != START {
      RestoreText(t.tokens, Token(TokenKind.ERROR, t.buffer), ws);
    }
    assert Restore(Lex(g, input), ws) == Restore(t.tokens, ws) + t.buffer;
    if '\\' !in input {
      assert '\\' !in input + ['\n'];
      ErasesExact(Restore(Lex(g, input), ws), input + ['\n']);
    }
  }

  // ---------------------------------------------------------------------
  // Individual handlers

  /** A word in TEXT_PROCESSING ends on a space, whitespace, a separator or an
      operator character: the buffer before it is classified (keyword before
      boolean before null before name) and the terminator is read again from
      START. Letters, digits and '_' extend the word; anything else turns it
      into an error. */
  lemma WordClassification(g: Grammar, s: Scan, c: char)
    requires Coupled(s) && s.status == TEXT_PROCESSING
    ensures var r := Process(g, s, c);
      if c == ' ' || IsWhitespace(c) || IsSeparator(g, c) || IsOperator(g, c) then
        r == Process(g, Scan(s.tokens + [Token(Classify(g, s.buffer), s.buffer)], START, []), c)
      else if IsLetter(c) || IsDigit(c) || c == '_' then
        r == Scan(s.tokens, TEXT_PROCESSING, s.buffer + [c])
      else
        r == Scan(s.tokens, Status.ERROR, s.buffer + [c])
  {
    var b := s.buffer + [c];
    assert b[..|b| - 1] == s.buffer;
    if c == ' ' || IsWhitespace(c) || IsSeparator(g, c) || IsOperator(g, c) {
      CloseRedispatches(g, s, c, Classify(g, s.buffer));
    }
  }

  /** Reading input and then c is one more processSymbol step. */
  lemma RunSnoc(g: Grammar, s: Scan, input: string, c: char)
    requires Coupled(s)
    ensures Run(g, s, input + [c]) == Process(g, Run(g, s, input), c)
  {
    assert (input + [c])[..|input|] == input;
  }

  /** Two characters whose table entries are "enter st" and then "emit". */
  lemma TwoCharOperator(g: Grammar, s: Scan, x: char, y: char, st: Status)
    requires Coupled(s) && s.status == START
    requires StartAction(g, x) == Stay(st) && st != Status.STRING
    requires Transition(g, st, [x, y], y) == Emit(TokenKind.OPERATOR)
    ensures Run(g, s, [x, y]) == Scan(s.tokens + [Token(TokenKind.OPERATOR, [x, y])], START, [])
  {
    assert s == Scan(s.tokens, START, []);
    RunSnoc(g, s, [], x);
    assert [] + [x] == [x];
    assert Run(g, s, [x]) == Scan(s.tokens, st, [x]);
    RunSnoc(g, s, [x], y);
    assert [x] + [y] == [x, y];
  }

  /** Three characters whose table entries are "enter st1", "enter st2" and
      then "emit". */
  lemma ThreeCharOperator(g: Grammar, s: Scan, x: char, y: char, z: char, st1: Status, st2: Status)
    requires Coupled(s) && s.status == START
    requires StartAction(g, x) == Stay(st1) && st1 != Status.STRING && st2 != Status.STRING
    requires Transition(g, st1, [x, y], y) == Stay(st2)
    requires Transition(g, st2, [x, y, z], z) == Emit(TokenKind.OPERATOR)
    ensures Run(g, s, [x, y, z]) == Scan(s.tokens + [Token(TokenKind.OPERATOR, [x, y, z])], START, [])
  {
    assert s == Scan(s.tokens, START, []);
    RunSnoc(g, s, [], x);
    assert [] + [x] == [x];
    assert Run(g, s, [x]) == Scan(s.tokens, st1, [x]);
    RunSnoc(g, s, [x], y);
    assert [x] + [y] == [x, y];
    assert Run(g, s, [x, y]) == Scan(s.tokens, st2, [x, y]);
    RunSnoc(g, s, [x, y], z);
    assert [x, y] + [z] == [x, y, z];
  }

  /** The composite operators >=, <=, <<, <-, &&, ||, := and the shift
      assignments >>= and <>= are emitted inclusively as one OPERATOR token,
      and the scanner is back in START with an empty buffer. */
  lemma CompositeOperator(g: Grammar, s: Scan, op: string)
    requires Coupled(s) && s.status == START
    requires op in {">=", "<=", "<<", "<-", "&&", "||", ":=", ">>=", "<>="}
    requires !IsSeparator(g, op[0])
    ensures Run(g, s, op) == Scan(s.tokens + [Token(TokenKind.OPERATOR, op)], START, [])
  {
    if op == ">=" {
      TwoCharOperator(g, s, '>', '=', GREATER);
    } else if op == "<=" {
      TwoCharOperator(g, s, '<', '=', LESS);
    } else if op == "<<" {
      TwoCharOperator(g, s, '<', '<', LESS);
    } else if op == "<-" {
      TwoCharOperator(g, s, '<', '-', LESS);
    } else if op == "&&" {
      TwoCharOperator(g, s, '&', '&', AND);
    } else if op == "||" {
      TwoCharOperator(g, s, '|', '|', OR);
    } else if op == ":=" {
      TwoCharOperator(g, s, ':', '=', COLON);
    } else if op == ">>=" {
      ThreeCharOperator(g, s, '>', '>', '=', GREATER, SH);
    } else {
      ThreeCharOperator(g, s, '<', '>', '=', LESS, SH);
    }
  }

  /** '<' followed by '<' is emitted at once, so "<<=" is the operator "<<"
      followed by a pending '=' in OPERATOR, not a shift assignment. */
  lemma LessLessEqual(g: Grammar, s: Scan)
    requires Coupled(s) && s.status == START
    requires !IsSeparator(g, '<') && !IsSeparator(g, '=')
    ensures Run(g, s, "<<=") == Scan(s.tokens + [Token(TokenKind.OPERATOR, "<<")], Status.OPERATOR, "=")
  {
    var ts := s.tokens + [Token(TokenKind.OPERATOR, "<<")];
    TwoCharOperator(g, s, '<', '<', LESS);
    RunSnoc(g, s, "<<", '=');
    Snoc3('<', '<', '=');
    EqualOpensOperator(g, ts);
  }

  /** One character appended to two, stated once for all characters. */
  lemma Snoc3(x: char, y: char, z: char)
    ensures [x, y] + [z] == [x, y, z]
  {
  }

  /** '=' read in START opens a pending operator. */
  lemma EqualOpensOperator(g: Grammar, ts: seq<Token>)
    requires !IsSeparator(g, '=')
    ensures Process(g, Scan(ts, START, []), '=') == Scan(ts, Status.OPERATOR, "=")
  {
    assert Scan(ts, START, []).(buffer := [] + ['=']) == Scan(ts, START, "=");
  }

  /** In STRING a quote after a backslash deletes the backslash and stays in
      STRING; any other quote closes the literal, whose text then starts and
      ends with a quote; every other character is absorbed. */
  lemma StringLiteral(g: Grammar, s: Scan, c: char)
    requires Coupled(s) && s.status == Status.STRING
    ensures var r := Process(g, s, c);
      if c != '"' then r == Scan(s.tokens, Status.STRING, s.buffer + [c])
      else if s.buffer[|s.buffer| - 1] == '\\' then
        r == Scan(s.tokens, Status.STRING, s.buffer[..|s.buffer| - 1] + ['"'])
      else
        r == Scan(s.tokens + [Token(TokenKind.STRING, s.buffer + ['"'])], START, [])
        && |s.buffer + ['"']| >= 2 && (s.buffer + ['"'])[0] == '"'
  {
    var b := s.buffer + [c];
    assert b[|b| - 2] == s.buffer[|s.buffer| - 1];
    assert b[..|b| - 2] + b[|b| - 1..] == s.buffer[..|s.buffer| - 1] + [c];
  }

  /** greaterStatus has no final else: after '>' a character that is neither
      '=', '>' nor an operator character is absorbed and the status stays
      GREATER; another operator character closes '>' exclusively. */
  lemma GreaterWithoutElse(g: Grammar, s: Scan, c: char)
    requires Coupled(s) && s.status == GREATER && c != '=' && c != '>'
    ensures var r := Process(g, s, c);
      if IsOperator(g, c) then
        r == Process(g, Scan(s.tokens + [Token(TokenKind.OPERATOR, s.buffer)], START, []), c)
      else r == Scan(s.tokens, GREATER, s.buffer + [c])
  {
    if IsOperator(g, c) {
      CloseRedispatches(g, s, c, TokenKind.OPERATOR);
    }
  }

  /** andStatus has no final else: after '&' a character that is neither '&',
      '=' nor an operator character is absorbed and the status stays AND;
      another operator character is an error. */
  lemma AndWithoutElse(g: Grammar, s: Scan, c: char)
    requires Coupled(s) && s.status == AND && c != '&' && c != '='
    ensures var r := Process(g, s, c);
      r.tokens == s.tokens && r.buffer == s.buffer + [c]
      && r.status == (if IsOperator(g, c) then Status.ERROR else AND)
  {
  }

  /** The token list returned for any input ends either with the space of the
      synthetic line feed or with one ERROR token holding what was left. */
  lemma LexEnds(g: Grammar, input: string)
    ensures var ts := Lex(g, input); var t := Process(g, Run(g, Initial, input), '\n');
      ts != [] && (if t.status == START then ts[|ts| - 1] == Token(WHITESPACE, Space)
                   else ts[|ts| - 1] == Token(TokenKind.ERROR, t.buffer) && t.buffer != [])
  {
    var s := Run(g, Initial, input);
    var r := Finish(g, s);
    EndOfStream(g, s);
    assert Lex(g, input) == r.tokens;
    if Process(g, s, '\n').status == START {
      assert r.tokens[|r.tokens| - 1] == Token(WHITESPACE, Space);
    }
  }
}
