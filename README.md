# A verified model of a character-driven lexer

This project models the scanner in `src/main/java/org/example/Lexer.java`, a lexer for a Go-like language. A `Lexer` object has three fields:

- `tokens`, an append-only list of (kind, text) tokens;
- `currentStatus`, one of 26 statuses;
- `statusBuffer`, the text of the token being read.

`processSymbol` appends each character to the buffer and switches on the status to one handler. A handler does one of four things:

- sets the status, possibly to the same one, keeping the character;
- emits the whole buffer as a token (*inclusive*, `createToken`);
- emits the buffer minus its last character and reads that character again from `START` (*exclusive*, `addCompleteToken` followed by `startStatus`);
- inside a string literal, drops the backslash before an escaped quote.

After the input, `startLexer` processes one synthetic line feed. If the status is then not `START`, it flushes the remaining buffer as one `ERROR` token.

The model has two levels:

- **`Scanner`** (`scanner.dfy`) is the transition table, written as pure functions over a value `Scan(tokens, status, buffer)`:
  - `StartAction` and `Transition` give each handler's decision as an `Action`;
  - `Apply` carries the action out;
  - `Process`, `Run`, `Finish` and `Lex` are the per-character step, the read loop, the end of stream and the whole scan.
- **`Lexer`** (`lexer.dfy`) is the imperative object:
  - a class with the three fields;
  - one method per Java handler, mirroring its `if` chain branch by branch;
  - `ProcessSymbol`, with its `match`;
  - `StartLexer`, with its `while` read loop.

  Each handler is proved to leave the fields equal to the table's result for the old fields. The loop is proved to compute `Run`, and `RunLexer` is proved to return `Lex`.

`ScannerProperties` (`properties.dfy`) proves the lexer's promises about the table:

- the three forms of emission;
- the coupling of status and buffer;
- conservation of the characters read;
- the end-of-stream flush;
- word classification priority;
- composite operators;
- string escapes;
- the two handlers that have no final `else`.

`Scenarios` (`scenarios.dfy`) works through small inputs on an example Go-like configuration. `Tokens` and `Classifier` hold the token datatypes and the character classes.

### Behaviour worth knowing

- `"@"` gives `[ERROR("@"), WHITESPACE(" ")]`.
  - The ERROR status (Lexer.java:127-131) closes `@` when the synthetic line feed arrives.
  - That line feed, read again from `START`, gives the only space.
  - See `Scenarios.UnrecognisedCharacter`.
- The token list does not always end with a WHITESPACE token.
  - Whenever the synthetic line feed is absorbed instead of closing the pending token, the status stays away from `START` and the list ends with one ERROR token that contains the line feed (lines 28-30). `ScannerProperties.LexEnds` states this in general.
  - Examples:
    - an unterminated string (lines 200-209, `Scenarios.UnterminatedString`);
    - a trailing `>` or `&`, alone or followed by a letter (lines 221-232, 249-258, `Scenarios.AmpersandBeforeLetter`);
    - an unterminated block comment such as `/*` (lines 338-342, `Scenarios.UnterminatedBlockComment`);
    - digits followed by a bare period such as `3.` (lines 344-350);
    - an unclosed character literal such as `'a` (lines 382-389).
- Rebuilding the input from the tokens is exact whenever the input has no backslash; `ScannerProperties.LexConserves` proves this.
  - A backslash is lost only when it stands right before a `"` inside a string literal (lines 202 and 206).
  - A backslash anywhere else is kept, as `Scenarios.BackslashOutsideString` shows.
- The escape test looks back one character only. After an escaped backslash, a quote still counts as escaped, so `"\\"` leaves the literal open (`Scenarios.EscapedBackslash`).
- `createToken` empties the buffer but leaves `currentStatus` as it is (lines 111-118). So after the final flush the status is not `START` even though the buffer is empty.

## Model

| member | source | states |
|---|---|---|
| Scanner.Classify | src/main/java/org/example/Lexer.java:135-143 | a finished word is KEYWORD iff it is a keyword, BOOLEAN iff a boolean and not a keyword, NULL iff a null literal and neither of those, NAME iff none of the three |
| Scanner.StartAction | src/main/java/org/example/Lexer.java:71-109 | the first character of a token never closes anything; it emits WHITESPACE exactly when it is whitespace, emits only WHITESPACE or SEPARATOR, never stays in START, and enters STRING exactly on a double quote |
| Scanner.Transition | src/main/java/org/example/Lexer.java:127-430 | no handler moves to START while keeping its character; only START emits WHITESPACE; exclusive emission never happens in START; the backslash deletion happens exactly in STRING on a quote after a backslash; STRING is only entered from START on a quote |
| Scanner.Process | src/main/java/org/example/Lexer.java:35-68 | each character keeps the coupling (status START exactly when the buffer is empty, a string literal starts with its quote) and only appends to the token list |
| Scanner.Run | src/main/java/org/example/Lexer.java:22-25 | the read loop keeps the coupling and only appends to the token list |
| Scanner.CreateToken | src/main/java/org/example/Lexer.java:111-118 | inclusive emission: exactly one token is appended, of the given kind, whose text is the whole buffer (a single space for WHITESPACE); the buffer becomes empty and the status is unchanged |
| Scanner.AddCompleteToken | src/main/java/org/example/Lexer.java:151-156 | exclusive emission: exactly one token is appended, of the given kind; its text followed by the new one-character buffer is the old buffer, so nothing is lost; the status is unchanged |
| ScannerProperties.ApplyEffect | src/main/java/org/example/Lexer.java:111-209 | carrying out a handler's decision (the createToken, clearBuffer, addCompleteToken-and-restart and deleteCharAt tails of the handlers) only appends tokens; staying changes only the status; an inclusive emission adds one token and leaves START with an empty buffer; an exclusive emission's first token is the buffer without its last character, it ends with status START exactly when the buffer is empty, and it ends coupled when that last character is the one being read; the backslash deletion shortens the buffer by one and keeps tokens and status |
| ScannerProperties.DispatchEffect | src/main/java/org/example/Lexer.java:38-67 | after the switch the status is START exactly when the buffer is empty, tokens are only appended, and returning to START always emitted a token |
| Scanner.Finish | src/main/java/org/example/Lexer.java:27-30 | after the synthetic line feed and the flush the buffer is empty and at least one token was appended |
| Scanner.Lex | src/main/java/org/example/Lexer.java:15-33 | a scan of any input, the empty one included, returns at least one token |
| Lexer.Lexer.constructor | src/main/java/org/example/Lexer.java:9-13 | a new lexer has no tokens, status START and an empty buffer |
| Lexer.Lexer.StartLexer | src/main/java/org/example/Lexer.java:15-33 | the read loop, the synthetic line feed and the ERROR flush leave the fields equal to Finish of Run of the old state, and the returned list is the token field |
| Lexer.Lexer.ProcessSymbol | src/main/java/org/example/Lexer.java:35-68 | appending the character and switching on the status leaves the fields equal to Process of the old fields |
| Lexer.Lexer.StartStatus | src/main/java/org/example/Lexer.java:71-109 | the if chain of startStatus performs StartAction's decision on the fields |
| Lexer.Lexer.CreateToken | src/main/java/org/example/Lexer.java:111-118 | appends one token with the whole buffer (a single space for WHITESPACE), empties the buffer and leaves the status alone |
| Lexer.Lexer.ClearBuffer | src/main/java/org/example/Lexer.java:120-125 | the buffer becomes empty, or holds only the given character; tokens and status are unchanged |
| Lexer.Lexer.AddCompleteToken | src/main/java/org/example/Lexer.java:151-156 | appends one token with the buffer minus its last character and reseeds the buffer with exactly that character |
| Lexer.Lexer.ErrorStatus | src/main/java/org/example/Lexer.java:127-131 | errorStatus updates the fields as the table's ERROR row says |
| Lexer.Lexer.TextProcessingStatus | src/main/java/org/example/Lexer.java:133-149 | textProcessingStatus updates the fields as the TEXT_PROCESSING row says |
| Lexer.Lexer.QuoStatus | src/main/java/org/example/Lexer.java:158-172 | qouStatus updates the fields as the QUO row says |
| Lexer.Lexer.DigitStatus | src/main/java/org/example/Lexer.java:174-188 | digitStatus updates the fields as the DIGIT row says |
| Lexer.Lexer.CharStatus | src/main/java/org/example/Lexer.java:190-198 | charStatus updates the fields as the CHAR row says |
| Lexer.Lexer.StringStatus | src/main/java/org/example/Lexer.java:200-209 | stringStatus updates the fields as the STRING row says, including the in-place backslash deletion; charAt(length-2) is in range |
| Lexer.Lexer.PeriodStatus | src/main/java/org/example/Lexer.java:211-219 | periodStatus updates the fields as the PERIOD row says |
| Lexer.Lexer.GreaterStatus | src/main/java/org/example/Lexer.java:221-232 | greaterStatus updates the fields as the GREATER row says |
| Lexer.Lexer.LessStatus | src/main/java/org/example/Lexer.java:234-247 | lessStatus updates the fields as the LESS row says |
| Lexer.Lexer.AndStatus | src/main/java/org/example/Lexer.java:249-258 | andStatus updates the fields as the AND row says |
| Lexer.Lexer.OrStatus | src/main/java/org/example/Lexer.java:260-273 | orStatus updates the fields as the OR row says |
| Lexer.Lexer.OperatorStatus | src/main/java/org/example/Lexer.java:275-289 | operatorStatus updates the fields as the OPERATOR row says |
| Lexer.Lexer.ColonStatus | src/main/java/org/example/Lexer.java:291-302 | colonStatus updates the fields as the COLON row says |
| Lexer.Lexer.AddStatus | src/main/java/org/example/Lexer.java:304-314 | addStatus updates the fields as the ADD row says |
| Lexer.Lexer.SubStatus | src/main/java/org/example/Lexer.java:316-328 | subStatus updates the fields as the SUB row says |
| Lexer.Lexer.SingleLineCommentStatus | src/main/java/org/example/Lexer.java:330-336 | singleLineCommentStatus updates the fields as the SINGLE_LINE_COMMENT row says |
| Lexer.Lexer.BlockCommentStatus | src/main/java/org/example/Lexer.java:338-342 | blockCommentStatus updates the fields as the BLOCK_COMMENT row says |
| Lexer.Lexer.PeriodInDigitStatus | src/main/java/org/example/Lexer.java:344-350 | periodInDigitStatus updates the fields as the PERIOD_IN_DIGIT row says |
| Lexer.Lexer.FloatStatus | src/main/java/org/example/Lexer.java:352-362 | floatStatus updates the fields as the FLOAT row says |
| Lexer.Lexer.ComplexStatus | src/main/java/org/example/Lexer.java:364-372 | complexStatus updates the fields as the COMPLEX_NUMBER row says |
| Lexer.Lexer.InvalidFloatStatus | src/main/java/org/example/Lexer.java:374-380 | invalidFloatStatus updates the fields as the INVALID_NUMBER row says |
| Lexer.Lexer.CharProcessingStatus | src/main/java/org/example/Lexer.java:382-389 | charProcessingStatus updates the fields as the CHAR_PROCESSING row says |
| Lexer.Lexer.ShStatus | src/main/java/org/example/Lexer.java:391-406 | shStatus updates the fields as the SH row says |
| Lexer.Lexer.OperatorAndEqualStatus | src/main/java/org/example/Lexer.java:409-421 | operatorAndEqualStatus updates the fields as the OPERATOR_AND_EQUAL row says |
| Lexer.Lexer.CloseBlockCommentStatus | src/main/java/org/example/Lexer.java:423-430 | closeBlockCommentStatus updates the fields as the CLOSING_BLOCK_COMMENT row says |
| Lexer.RunLexer | src/main/java/org/example/Lexer.java:15-33 | a fresh lexer run over an input returns exactly the table model's token list for it |
| ScannerProperties.CloseRedispatches | src/main/java/org/example/Lexer.java:127-131 | an exclusive emission is the same as appending the old buffer as a token and reading the character from START with an empty buffer |
| ScannerProperties.EmissionForms | src/main/java/org/example/Lexer.java:111-125 | every step either absorbs the character (no token, buffer grows by it or replaces an escaping backslash), or emits the whole buffer and empties it, or emits the buffer without the new character and re-reads that character from START |
| ScannerProperties.StepWellFormed | src/main/java/org/example/Lexer.java:111-118 | every token added by one step has non-empty text, and a WHITESPACE token's text is exactly one space |
| ScannerProperties.RunWellFormed | src/main/java/org/example/Lexer.java:22-25 | the read loop only ever adds tokens with non-empty text, and WHITESPACE tokens are exactly one space |
| ScannerProperties.LexWellFormed | src/main/java/org/example/Lexer.java:74-75 | in the final token list every WHITESPACE text is " " whichever whitespace was read, and no token has empty text |
| ScannerProperties.StepAccounts | src/main/java/org/example/Lexer.java:35-36 | one step keeps the account: restored token texts followed by the buffer give back everything consumed, up to deleted escaping backslashes |
| ScannerProperties.RunConserves | src/main/java/org/example/Lexer.java:22-25 | after any input, the token texts (each WHITESPACE token replaced by the whitespace character it stood for) followed by the buffer give back the input, except for backslashes deleted before quotes |
| ScannerProperties.LexConserves | src/main/java/org/example/Lexer.java:200-209 | the returned tokens, restored the same way, give back the input plus the synthetic line feed, except for deleted escaping backslashes; with no backslash in the input they give it back exactly |
| ScannerProperties.EndOfStream | src/main/java/org/example/Lexer.java:27-30 | after the synthetic line feed and the flush the buffer is empty and at least one token was added; in START the last token is the line feed's space, otherwise exactly one ERROR token holds the whole remaining buffer |
| ScannerProperties.LexEnds | src/main/java/org/example/Lexer.java:27-32 | the returned list is never empty and ends either with a single-space WHITESPACE token or with an ERROR token holding the non-empty remainder |
| ScannerProperties.WordClassification | src/main/java/org/example/Lexer.java:133-149 | a word ends on a space, whitespace, a separator or an operator character: the buffer before the terminator is emitted with the keyword > boolean > null > name priority and the terminator is re-read from START; letters, digits and '_' extend the word; anything else turns it into an error |
| ScannerProperties.CompositeOperator | src/main/java/org/example/Lexer.java:221-406 | ">=", "<=", "<<", "<-", "&&", the doubled bar, ":=", ">>=" and "<>=" are each emitted as one OPERATOR token with the scanner back in START with an empty buffer |
| ScannerProperties.LessLessEqual | src/main/java/org/example/Lexer.java:235-237 | "<<=" is not a shift assignment: "<<" is emitted at once and "=" starts a new pending operator |
| ScannerProperties.StringLiteral | src/main/java/org/example/Lexer.java:200-209 | in STRING a quote after a backslash deletes the backslash and stays; any other quote emits a STRING token that begins and ends with a quote and returns to START; other characters are absorbed |
| ScannerProperties.GreaterWithoutElse | src/main/java/org/example/Lexer.java:221-232 | after '>' a non-operator character is absorbed with the status kept GREATER; an operator character other than '=' or '>' closes '>' exclusively instead of going to ERROR |
| ScannerProperties.AndWithoutElse | src/main/java/org/example/Lexer.java:249-258 | after '&' a character other than '&' or '=' is absorbed; the status becomes ERROR for an operator character and stays AND otherwise |
| Scenarios.IntThenSeparator | src/main/java/org/example/Lexer.java:174-188 | "12;" gives INT "12", SEPARATOR ";" and the line feed's space |
| Scenarios.EqualityBetweenNames | src/main/java/org/example/Lexer.java:409-421 | "x==y" gives NAME "x", OPERATOR "==", NAME "y" and a space |
| Scenarios.LineComment | src/main/java/org/example/Lexer.java:330-336 | "// hi\n" gives COMMENT "// hi" and two spaces, since the comment stops before its line feed |
| Scenarios.ComplexLiteral | src/main/java/org/example/Lexer.java:352-372 | "3.14i" gives COMPLEX "3.14i" and a space |
| Scenarios.NullLiteral | src/main/java/org/example/Lexer.java:139-140 | "nil" gives NULL "nil" and a space |
| Scenarios.UnrecognisedCharacter | src/main/java/org/example/Lexer.java:127-131 | "@" gives ERROR "@" and one space |
| Scenarios.UnterminatedString | src/main/java/org/example/Lexer.java:27-30 | an unterminated string swallows the synthetic line feed and is flushed as one ERROR token |
| Scenarios.EscapedQuote | src/main/java/org/example/Lexer.java:202-206 | a backslash before a quote is not part of the STRING token |
| Scenarios.AmpersandBeforeLetter | src/main/java/org/example/Lexer.java:249-258 | "&x" is never an operator: it and the line feed are flushed as one ERROR token |
| Scenarios.UnterminatedBlockComment | src/main/java/org/example/Lexer.java:338-342 | "/*" never closes: it and the line feed are flushed as one ERROR token, not as COMMENT |
| Scenarios.EscapedBackslash | src/main/java/org/example/Lexer.java:200-209 | a quote after an escaped backslash is still taken as escaped, so the literal stays open and is flushed as one ERROR token |
| Scenarios.BackslashOutsideString | src/main/java/org/example/Lexer.java:127-131 | a backslash outside a string literal is kept as an ERROR token, and the tokens give back the input and the line feed exactly |

## Left out

- File opening, charset decoding and buffered reading in `startLexer` (lines 16-22). The input is a `string` given by the caller.
- `App.java`, which only prints the tokens. It is not part of this model.
- `TokenWrapper.java` is not modelled separately: a token is the value `Token(kind, text)`.
- The bodies of `Utils.isSeparator`, `isOperator`, `isKeyword`, `isBoolean` and `isNull`. `Utils.java` is not part of this model, so these predicates read a configurable `Grammar` record.
  - Every general property holds for every grammar, except two that need an extra condition.
  - `ScannerProperties.CompositeOperator` and `ScannerProperties.LessLessEqual` require the characters of the operator not to be separators. The reason is that `startStatus` tests `isSeparator` (line 85) before it tests `>`, `<`, `&`, `:` and `|` (lines 88-103).
- The separator and keyword sets of `Scenarios.GoLike` are illustrative; they are not the contents of `Utils`.
- `Character.isWhitespace`, `isDigit`, `isAlphabetic` and `isLetter` are approximated on ASCII, with `isLetter` the same as `isAlphabetic`. Java's Unicode classification is not modelled.
- The `default` branch of the switch (line 65). It is unreachable, because `currentStatus` is only ever assigned statuses that have a case.
- Reuse of a lexer after it has returned. `StartLexer` requires the status/buffer coupling, which holds for a new lexer. After the flush the status can be non-`START` with an empty buffer. In that state a further call could reach `charAt(-1)`, and this model does not describe it.
- The `TokenWrapper` list is returned by reference in the source. The model returns the token sequence as a value, so aliasing of the returned list with the lexer's field is not modelled.
- The `Token` and `Status` enum files are not part of this model. Their values are taken from the case labels of the switch and from the `Token.*` uses in `Lexer.java`.
- The input is read as whole Unicode characters, not as UTF-16 code units. The read loop (lines 22-24) casts each `read()` result to a Java `char`, so a character above U+FFFF reaches the scanner as two surrogate halves. Read in START, such a character gives two ERROR tokens in the Java lexer, one per half, where this model gives one ERROR token holding the whole character.
- ScannerProperties.LexConserves: the relation `Erases` allows any backslash that stands right before a quote to be deleted. The scanner deletes one only inside a string literal, so this rebuilding is stated more loosely than what the scanner actually does; it is exact when the input has no backslash.
- ScannerProperties.StepAccounts: its account is kept through the same relation `Erases`, so it also allows a lost backslash before a quote outside a string literal, although the scanner keeps that backslash (in START it opens an ERROR token, line 107, that the quote closes, lines 128-130). Restricting deletions to string literals would mean carrying string-literal state through the account.
- ScannerProperties.RunConserves: stated through `Erases` in the same way, so it is looser than the scanner for the same reason.
