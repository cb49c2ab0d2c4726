/** The scanner as a pure transition function.

    The input is the whole character sequence the reader will deliver. The
    scanner's mutable state is a Cursor: how many characters the reader has
    delivered (`pos`) and the one-character pushback slot (`pending`). The line
    counter is not part of the cursor, because it is always 1 plus the number of
    newlines among the first `pos` characters (LineAt). */
module ScanSpec {
  import opened CharClasses
  import opened Tokens

  /** Reader position and pushback slot. */
  datatype Cursor = Cursor(pos: nat, pending: Option<char>)

  /** The result of one call together with the state it leaves behind. */
  datatype Scan = Scan(outcome: Outcome, after: Cursor)

  /** The classes a builder's loop extends its run over. */
  datatype RunClass = IdentifierRun | DigitRun | OpSymbolRun | SpaceRun | StringRun | CommentRun

  predicate InClass(c: char, k: RunClass) {
    match k
    case IdentifierRun => IsIdentifierChar(c)
    case DigitRun => IsDigit(c)
    case OpSymbolRun => IsOpSymbol(c)
    case SpaceRun => IsSpace(c)
    case StringRun => IsStringChar(c)
    case CommentRun => IsCommentChar(c)
  }

  // ---------------------------------------------------------------------------
  // Line counting

  /** The number of newline characters in `s`. */
  function Newlines(s: seq<char>): (n: nat)
    ensures n <= |s|
  {
    if s == [] then 0
    else Newlines(s[..|s| - 1]) + (if s[|s| - 1] == '\n' then 1 else 0)
  }

  /** Newlines counts exactly the occurrences of the newline character. */
  lemma {:induction false} NewlinesIsCount(s: seq<char>)
    ensures Newlines(s) == multiset(s)['\n']
  {
    if s != [] {
      assert s == s[..|s| - 1] + [s[|s| - 1]];
      NewlinesIsCount(s[..|s| - 1]);
    }
  }

  /** Counting newlines distributes over concatenation. */
  lemma {:induction false} NewlinesAppend(a: seq<char>, b: seq<char>)
    ensures Newlines(a + b) == Newlines(a) + Newlines(b)
    decreases |b|
  {
    if b != [] {
      assert (a + b)[..|a + b| - 1] == a + b[..|b| - 1];
      NewlinesAppend(a, b[..|b| - 1]);
    } else {
      assert a + b == a;
    }
  }

  /** The line counter after the reader has delivered `pos` characters. */
  function LineAt(s: seq<char>, pos: nat): int
    requires pos <= |s|
  {
    1 + Newlines(s[..pos])
  }

  /** Delivering one more character moves the line counter by one exactly when
      that character is a newline. */
  lemma LineAtStep(s: seq<char>, pos: nat)
    requires pos < |s|
    ensures LineAt(s, pos + 1) == LineAt(s, pos) + (if s[pos] == '\n' then 1 else 0)
  {
    assert s[..pos + 1][..pos] == s[..pos];
  }

  /** Before the first newline the line counter stays at 1. */
  lemma LineAtBeforeNewline(s: seq<char>, pos: nat)
    requires pos <= |s|
    requires forall j :: 0 <= j < pos ==> s[j] != '\n'
    ensures LineAt(s, pos) == 1
  {
    NewlinesIsCount(s[..pos]);
    assert '\n' !in s[..pos];
  }

  /** The line counter never decreases. */
  lemma LineAtMonotone(s: seq<char>, i: nat, j: nat)
    requires i <= j <= |s|
    ensures LineAt(s, i) <= LineAt(s, j)
  {
    assert s[..j] == s[..i] + s[i..j];
    NewlinesAppend(s[..i], s[i..j]);
  }

  // ---------------------------------------------------------------------------
  // Runs

  /** The end of the maximal run of `k`-class characters that begins at `i`. */
  function SpanEnd(s: seq<char>, i: nat, k: RunClass): (e: nat)
    requires i <= |s|
    ensures i <= e <= |s|
    decreases |s| - i
  {
    if i == |s| || !InClass(s[i], k) then i else SpanEnd(s, i + 1, k)
  }

  /** SpanEnd ends a maximal run: every character before it is in the class
      and the character at it, if any, is not. */
  lemma {:induction false} SpanEndMaximal(s: seq<char>, i: nat, k: RunClass)
    requires i <= |s|
    ensures forall j :: i <= j < SpanEnd(s, i, k) ==> InClass(s[j], k)
    ensures SpanEnd(s, i, k) < |s| ==> !InClass(s[SpanEnd(s, i, k)], k)
    decreases |s| - i
  {
    if i < |s| && InClass(s[i], k) {
      SpanEndMaximal(s, i + 1, k);
    }
  }

  /** Inside the scanned stretch, a position is before the run's end exactly
      when its character is in the class. */
  lemma SpanEndWithin(s: seq<char>, p: nat, i: nat, k: RunClass)
    requires p <= i < |s| && i <= SpanEnd(s, p, k)
    ensures InClass(s[i], k) <==> i < SpanEnd(s, p, k)
  {
    SpanEndMaximal(s, p, k);
  }

  /** The state a greedy loop leaves when its run ends at `e`: the first
      character outside the run has been read and sits in the pushback slot;
      at the end of input nothing is pushed back. */
  function AfterRun(s: seq<char>, e: nat): Cursor
    requires e <= |s|
  {
    if e < |s| then Cursor(e + 1, Some(s[e])) else Cursor(|s|, None)
  }

  // ---------------------------------------------------------------------------
  // Builders. `p` is the reader position after the token's first character
  // was taken, so the unread input is s[p..].

  /** buildIdentifierToken, buildIntegerToken, buildSpaceToken and the loop of
      buildOperatorToken: `c` followed by the maximal `k`-run from `p`. */
  function ScanRun(s: seq<char>, p: nat, c: char, kind: TokenType, k: RunClass): Scan
    requires p <= |s|
  {
    var e := SpanEnd(s, p, k);
    Scan(Returned(Some(Token(kind, [c] + s[p..e], LineAt(s, p)))), AfterRun(s, e))
  }

  /** buildCommentToken: `prefix` followed by comment characters up to the next
      newline, which is consumed but neither kept nor pushed back. Any other
      character outside the comment class stops the loop from making progress. */
  function ScanComment(s: seq<char>, q: nat, prefix: string): Scan
    requires q <= |s|
  {
    var e := SpanEnd(s, q, CommentRun);
    var token := Token(Delete, prefix + s[q..e], LineAt(s, q));
    if e == |s| then Scan(Returned(Some(token)), Cursor(|s|, None))
    else if s[e] == '\n' then Scan(Returned(Some(token)), Cursor(e + 1, None))
    else Scan(Hangs, Cursor(e + 1, None))
  }

  /** buildOperatorToken. A `/` with nothing after it dereferences a null
      character; `//` turns into a comment; otherwise a maximal operator run. */
  function ScanOperator(s: seq<char>, p: nat, c: char): Scan
    requires p <= |s|
  {
    if c == '/' && p == |s| then Scan(NullDereference, Cursor(|s|, None))
    else if c == '/' && s[p] == '/' then ScanComment(s, p + 1, "//")
    else ScanRun(s, p, c, Operator, OpSymbolRun)
  }

  /** buildStringToken: the characters up to the closing quote, quotes
      excluded. At the end of input the builder returns null and pushes nothing
      back; a character that is neither a quote nor in the string class stops
      the loop from making progress. */
  function ScanString(s: seq<char>, p: nat): Scan
    requires p <= |s|
  {
    var e := SpanEnd(s, p, StringRun);
    if e == |s| then Scan(Returned(None), Cursor(|s|, None))
    else if s[e] == '\'' then Scan(Returned(Some(Token(String, s[p..e], LineAt(s, p)))), Cursor(e + 1, None))
    else Scan(Hangs, Cursor(e + 1, None))
  }

  /** The kind buildPunctuationToken gives a punctuation character. */
  function PunctuationKind(c: char): TokenType
    requires IsPunctuation(c)
  {
    if c == '(' then LParen
    else if c == ')' then RParen
    else if c == ';' then Semicolon
    else Comma
  }

  /** buildPunctuationToken: a one-character token, nothing more is read. */
  function ScanPunctuation(s: seq<char>, p: nat, c: char): Scan
    requires p <= |s|
    requires IsPunctuation(c)
  {
    Scan(Returned(Some(Token(PunctuationKind(c), [c], LineAt(s, p)))), Cursor(p, None))
  }

  /** buildToken: dispatch on the first character, in the source's order. A
      character in no class is dropped. */
  function ScanToken(s: seq<char>, p: nat, c: char): Scan
    requires p <= |s|
  {
    if IsLetter(c) then ScanRun(s, p, c, Identifier, IdentifierRun)
    else if IsDigit(c) then ScanRun(s, p, c, Integer, DigitRun)
    else if IsOpSymbol(c) then ScanOperator(s, p, c)
    else if c == '\'' then ScanString(s, p)
    else if IsSpace(c) then ScanRun(s, p, c, Delete, SpaceRun)
    else if IsPunctuation(c) then ScanPunctuation(s, p, c)
    else Scan(Returned(None), Cursor(p, None))
  }

  /** readNextToken: take the pushed-back character if there is one, otherwise
      read one; with no character there is no token. */
  function Next(s: seq<char>, cur: Cursor): Scan
    requires cur.pos <= |s|
  {
    match cur.pending
    case Some(c) => ScanToken(s, cur.pos, c)
    case None =>
      if cur.pos < |s| then ScanToken(s, cur.pos + 1, s[cur.pos])
      else Scan(Returned(None), cur)
  }

  // ---------------------------------------------------------------------------
  // Cursor invariants

  /** A pushed-back character is always the last one the reader delivered. */
  predicate WellFormed(s: seq<char>, cur: Cursor) {
    cur.pos <= |s| && (cur.pending.Some? ==> 0 < cur.pos && cur.pending.value == s[cur.pos - 1])
  }

  /** The reader is at the end of input and nothing is pushed back. */
  predicate Exhausted(s: seq<char>, cur: Cursor) {
    cur.pending.None? && cur.pos == |s|
  }

  /** Where the next token's first character sits in the input. */
  function Start(cur: Cursor): int {
    if cur.pending.Some? then cur.pos - 1 else cur.pos
  }

  /** Characters not yet handed to a builder: the unread input and the pushback slot. */
  function Remaining(s: seq<char>, cur: Cursor): int {
    |s| - cur.pos + (if cur.pending.Some? then 1 else 0)
  }
}
