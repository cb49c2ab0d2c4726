# RPAL lexical scanner in Dafny

This project models the lexical scanner of an RPAL front end (`src/Scanner.java`).
The scanner reads characters one at a time and returns one token per call of
`readNextToken`. A token has a kind (`TokenType`), a value and a source line number.
The scanner keeps three pieces of state:

- the reader;
- a one-character pushback slot, `extraCharRead`;
- a line counter, `sourceLineNumber`.

The first character of a token picks a builder. The classes are tried in this order:
letter, digit, operator symbol, quote, whitespace, punctuation.

- The identifier, integer, whitespace and operator builders extend their token
  greedily. They push back the first character that does not belong.
- The string builder consumes the closing quote and pushes nothing back. It
  spins forever on a character that is neither a quote nor in the string class.
- The comment builder consumes the terminating newline and pushes nothing
  back. It spins forever on any other character outside the comment class.
- The punctuation builder reads nothing more.

Files:

- `char_classes.dfy` (module `CharClasses`): the character classes of
  `LexicalRegexPatterns`. Each one is written as a predicate over `char` that
  equals the set its Java regular expression denotes.
- `tokens.dfy` (module `Tokens`): `TokenType`, `Token`, and `Outcome`. An
  outcome is how a call ends: a token or null, a `NullPointerException`, or a
  loop that never exits.
- `scan_spec.dfy` (module `ScanSpec`): the scanner as a pure transition
  function `Next` over the whole input and a `Cursor`. A cursor is the reader
  position plus the pushback slot. It also defines line counting (`LineAt`)
  and maximal runs (`SpanEnd`).
- `scan_properties.dfy` (module `ScanProperties`): lemmas about one call of
  `Next`. They cover the shape of each token kind, where its lexeme sits in the
  input, its line, what is pushed back, and exactly when a call returns null,
  throws, or never returns.
- `scanner.dfy` (module `Scanning`): the imperative model. `Reader` stands for
  the `BufferedReader`. `Scanner` has the fields `buffer`, `extraCharRead` and
  `sourceLineNumber`. Its methods follow the Java methods. The four identical
  greedy loops of the identifier, integer, operator and whitespace builders
  are one shared method, `ExtendRun`. Each method's postcondition ties the new
  state and the result to `ScanSpec`.
- `scan_examples.dfy` (module `ScanExamples`): concrete calls on small inputs.

The character classes, as the Java patterns denote them:

- `\d` is `[0-9]`.
- `\s` is space, tab, newline, vertical tab, form feed and carriage return.
- In the operator class, the leading `+-/` is a range, so `,` `-` `.` are
  operator symbols. The escaping in `escapeMetaChars` inserts a literal
  backslash, so `\` is an operator symbol too. `_` is listed explicitly.
- Because the operator test comes before the punctuation test, a comma always
  becomes an `Operator` token and never a `Comma` token.

## Behaviour kept as the code has it

The model keeps these behaviours of the Java code, including the ones a
caller may not expect.

- A token that starts on a `/` which is the last input character makes
  `buildOperatorToken` call `equals` on a null `nextChar`. The model's outcome
  is `NullDereference`. A `/` read inside an operator run or after another `/`
  at the end of input does not throw.
- The string loop makes no progress on a character that is neither a quote
  nor in the string class. Examples are carriage return, form feed and the
  backtick. The comment loop does the same on a character outside the comment
  class other than newline. In both cases the model's outcome is `Hangs`:
  the call never returns.
- `hasMoreTokens` is always true. The reader reference is never cleared, even
  once the input is exhausted, so `hasMoreTokens` stays true after the last token.
- Whitespace is Java's `\s` plus tab and newline, so it includes vertical
  tab, form feed and carriage return as well as space, tab and newline.
- `Reserved` and `Comma` are declared kinds, but no call produces them.
- An unterminated string is dropped silently with everything after it.
- A character in no class is dropped silently.
- A comment's terminating newline is consumed and counted. It is neither
  part of the value nor pushed back.
- A token that starts with a newline gets the line after that newline. The
  counter is bumped when the newline is read, before the builder records it.

## Model

| member | source | states |
|---|---|---|
| CharClasses.IsLetter | src/Scanner.java:74 | LETTER_PATTERN `[a-zA-Z]`: the 52 ASCII letters |
| CharClasses.IsDigit | src/Scanner.java:76 | DIGIT_PATTERN `\d`: the ASCII digits `0`-`9` |
| CharClasses.IsIdentifierChar | src/Scanner.java:75 | IDENTIFIER_PATTERN `[a-zA-Z\d_]`: letters, digits and `_` |
| CharClasses.IsPunctuation | src/Scanner.java:77 | PUNCTUATION_PATTERN `[();,]`: `(`, `)`, `;`, `,` |
| CharClasses.IsSpace | src/Scanner.java:84 | SPACE_PATTERN `[\s\t\n]`: space, tab, newline, vertical tab, form feed, carriage return |
| CharClasses.IsOpSymbol | src/Scanner.java:81-82 | OPSYMBOL_PATTERN: `+ , - . /` (the range `+-/`), `~ : = ! # % _ { } " * < > & $ ^ [ ] ? @`, the vertical bar and the backslash the escaping inserts |
| CharClasses.IsStringChar | src/Scanner.java:83 | STRING_PATTERN: space, tab, newline, backslash, punctuation, letters, digits and operator symbols; no quote |
| CharClasses.IsCommentChar | src/Scanner.java:86 | COMMENT_PATTERN: space, tab, quote, backslash, carriage return, punctuation, letters, digits and operator symbols; no newline |
| CharClasses.OpSymbolMembers | src/Scanner.java:68-90 | the operator class contains `,` `.` `-` `\` `_` (range `+-/`, inserted backslash) and not the quote, backtick, blank, `(` or `;` |
| CharClasses.BodyClassGaps | src/Scanner.java:83-86 | the string class has no quote, carriage return, form feed, vertical tab or backtick; the comment class has no newline, form feed, vertical tab or backtick |
| CharClasses.StringClassExactly | src/Scanner.java:83 | over every character: the string class is printable ASCII without the quote and the backtick, plus tab and newline |
| CharClasses.CommentClassExactly | src/Scanner.java:86 | over every character: the comment class is printable ASCII without the backtick, plus tab and carriage return |
| ScanSpec.NewlinesIsCount | src/Scanner.java:127 | the newline count used for line numbers is the number of `\n` characters |
| ScanSpec.NewlinesAppend | src/Scanner.java:127 | counting newlines distributes over concatenation |
| ScanSpec.LineAtStep | src/Scanner.java:127 | reading one character bumps the line counter by one exactly when it is `\n` |
| ScanSpec.LineAtBeforeNewline | src/Scanner.java:99 | the line counter is 1 until the first newline is read |
| ScanSpec.LineAtMonotone | src/Scanner.java:121-135 | the line counter never decreases as the reader advances |
| ScanSpec.SpanEnd | src/Scanner.java:162-170 | the end of a builder's greedy run lies between its start and the end of input |
| ScanSpec.SpanEndMaximal | src/Scanner.java:162-170 | every character of the run is in the class and the character that stops it is not |
| ScanProperties.SpanEndUnique | src/Scanner.java:162-170 | only one position ends a maximal run |
| ScanProperties.NextFromStart | src/Scanner.java:106-119 | readNextToken uses and clears the pushed-back character before reading; otherwise it reads exactly one character, so the token starts at Start(cur) |
| ScanProperties.DispatchKind | src/Scanner.java:137-153 | at the level of buildToken, the kind of a returned token follows from its first character (and whether `//` follows it), in both directions; COMMA and RESERVED never occur |
| ScanProperties.RunShape | src/Scanner.java:159-173 | a run builder's value is the input from its first character to the end of the maximal run, with the state StopsAt describes |
| ScanProperties.LettersOnly | src/Scanner.java:155-175 | an input of letters only gives one IDENTIFIER token equal to the whole input, on line 1, and exhausts the input |
| ScanProperties.IdentifierToken | src/Scanner.java:155-175 | an IDENTIFIER value is the input at the token start, starts with a letter, continues with letters, digits and `_`, is maximal, and the stopping character is pushed back |
| ScanProperties.IntegerToken | src/Scanner.java:177-196 | an INTEGER value is a non-empty maximal run of digits taken from the input, with the stopping character pushed back |
| ScanProperties.WhitespaceToken | src/Scanner.java:243-262 | a token started on whitespace is a DELETE token whose value is a non-empty maximal run of whitespace, with the stopping character pushed back |
| ScanProperties.OperatorToken | src/Scanner.java:198-221 | an OPERATOR value is a non-empty maximal run of operator symbols not starting with `//`, with the stopping character pushed back |
| ScanProperties.CommentToken | src/Scanner.java:264-282 | a token started on `//` is a DELETE token: `//` then comment characters up to a newline (consumed, not kept, not pushed back) or the end of input |
| ScanProperties.StringToken | src/Scanner.java:223-241 | a STRING value is the text between two quotes, contains no quote, and both quotes are consumed with nothing pushed back |
| ScanProperties.PunctuationToken | src/Scanner.java:284-298 | `(`, `)`, `;` give one-character L_PAREN, R_PAREN, SEMICOLON tokens and nothing more is read |
| ScanProperties.TokenKind | src/Scanner.java:137-153 | the kind follows from the first character in the order letter, digit, operator symbol, quote, whitespace, punctuation (both directions); COMMA and RESERVED never occur |
| ScanProperties.TokenLine | src/Scanner.java:156-158 | a token's line is 1 plus the newlines read through its first character, which is 1 plus the newlines before it when that character is not `\n` |
| ScanProperties.NoTokenExactly | src/Scanner.java:106-153 | null comes back exactly when the input is exhausted, the first character is in no class, or a string is open at the end of input |
| ScanProperties.UnclassifiedDropped | src/Scanner.java:137-153 | a character in no class is consumed, gives no token and sets no pushback |
| ScanProperties.UnterminatedStringDropped | src/Scanner.java:229-240 | an unterminated string gives no token, pushes nothing back and leaves the input exhausted |
| ScanProperties.NullDereferenceExactly | src/Scanner.java:204-207 | the call throws exactly when it starts on a `/` that is the last input character |
| ScanProperties.HangsExactly | src/Scanner.java:223-282 | the call never returns exactly when a string meets a character that is neither a quote nor in the string class, or a comment meets one outside the comment class other than newline |
| ScanProperties.NextProgress | src/Scanner.java:106-119 | a call keeps the pushback well formed, never moves the reader back, and consumes input unless it is exhausted, in which case nothing changes and null comes back |
| ScanExamples.IdentifierSpaceInteger | src/Scanner.java:137-196 | "abc123 456" gives IDENTIFIER "abc123", DELETE " ", INTEGER "456", all on line 1, then null |
| ScanExamples.CommentThenIdentifier | src/Scanner.java:264-282 | "// comment\nx" gives DELETE "// comment" on line 1, then IDENTIFIER "x" on line 2 |
| ScanExamples.QuotedString | src/Scanner.java:223-241 | "'hello'" gives STRING "hello" |
| ScanExamples.OperatorRun | src/Scanner.java:198-221 | "<>=" gives one OPERATOR token |
| ScanExamples.SlashesInsideOperator | src/Scanner.java:206-217 | "+//a" gives one OPERATOR token "+//" and pushes back the `a` |
| ScanExamples.CommaIsOperator | src/Scanner.java:143-150 | "a,b" gives IDENTIFIER "a" with the comma pushed back, then the comma gives an OPERATOR token, not COMMA |
| ScanExamples.UnterminatedString | src/Scanner.java:229-240 | "'unterminated" gives null and exhausts the input |
| ScanExamples.TrailingSlash | src/Scanner.java:204-207 | "/" throws |
| ScanExamples.NeverReturns | src/Scanner.java:230-278 | a carriage return in a string and a form feed in a comment make the call never return |
| Scanning.Reader.Read | src/Scanner.java:124 | the reader delivers the next character, -1 at the end of input, and an IOException once closed |
| Scanning.Scanner.constructor | src/Scanner.java:98-101 | the scanner starts at line 1 at the start of the input, with nothing pushed back |
| Scanning.Scanner.HasMoreTokens | src/Scanner.java:103-105 | hasMoreTokens is true in every reachable state, the exhausted one included |
| Scanning.Scanner.ReadNextChar | src/Scanner.java:121-135 | returns the next input character and advances, bumping the line counter on `\n`; at the end of input it returns null every time |
| Scanning.Scanner.ReadNextToken | src/Scanner.java:106-119 | result and new state are exactly Next of the old state; the line counter does not decrease |
| Scanning.Scanner.BuildToken | src/Scanner.java:137-153 | result and new state are ScanToken of the first character |
| Scanning.Scanner.ExtendRun | src/Scanner.java:162-258 | the greedy loop shared by the identifier (162-170), integer (184-192), operator (209-217) and whitespace (250-258) builders: the value grows by the maximal run and the state is AfterRun, with the stopping character in the pushback slot |
| Scanning.Scanner.BuildIdentifierToken | src/Scanner.java:155-175 | the token and new state are ScanRun over identifier characters |
| Scanning.Scanner.BuildIntegerToken | src/Scanner.java:177-196 | the token and new state are ScanRun over digits |
| Scanning.Scanner.BuildSpaceToken | src/Scanner.java:243-262 | the token and new state are ScanRun over whitespace |
| Scanning.Scanner.BuildOperatorToken | src/Scanner.java:198-221 | the result and new state are ScanOperator: a throw on a trailing `/`, a comment on `//`, else a maximal operator run |
| Scanning.Scanner.BuildStringToken | src/Scanner.java:223-241 | the result and new state are ScanString: the text up to the closing quote, null at the end of input, otherwise no return |
| Scanning.Scanner.BuildCommentToken | src/Scanner.java:264-282 | the result and new state are ScanComment: comment characters up to a consumed newline or the end of input, otherwise no return |
| Scanning.Scanner.BuildPunctuationToken | src/Scanner.java:284-298 | a one-character token of the character's kind, read at the current line, with no state change |

## Left out

- `src/Main.java`, the command-line driver. It hard-codes a file path and
  prints tokens. Its loop never ends, because `hasMoreTokens` never turns false.
- Opening the file (`FileInputStream`, `InputStreamReader`, `BufferedReader`
  construction). The input is a `seq<char>` given to the constructor.
- I/O errors while reading. The only `IOException` modelled is the one
  `read` throws on a closed reader, which `readNextChar` swallows. Other read
  failures would also be swallowed and read as the end of input.
- The `java.util.regex` engine and `escapeMetaChars`. Only the resulting
  character sets are modelled.
- `Token.toString` and the setters of `Token`. The token is an immutable
  datatype built once, at the point the Java code has finished setting it.
- Scanning.Scanner.ReadNextChar: the line counter is an unbounded integer.
  Java's `int` would wrap after 2^31 - 1 newlines.
- Java `char` is a UTF-16 code unit and Dafny's `char` a Unicode scalar value.
  A supplementary character counts as two characters in Java and as one here.
  Either way it is in no class.
- Scanning.Scanner.BuildStringToken: a call that never returns is modelled as
  the outcome `Hangs`. Its state is the one at the point where the Java loop
  starts to spin. Dafny cannot express divergence itself.
- Scanning.Scanner.BuildCommentToken: the same treatment of the loop that
  never returns.
- Scanning.Scanner.BuildOperatorToken: the `NullPointerException` is the
  outcome `NullDereference`. The call ends with the reader at the end of input.
  No caller that catches the exception is modelled.
