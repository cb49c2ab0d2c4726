/** Concrete runs of readNextToken on small inputs, one call after another
    from a fresh scanner (Cursor(0, None)). */
module ScanExamples {
  import opened Tokens
  import opened ScanSpec
  import opened ScanProperties

  /** "abc123 456": an identifier, a one-blank DELETE token and an integer, all
      on line 1; the blank and the `4` travel through the pushback slot. */
  lemma IdentifierSpaceInteger(s: seq<char>)
    requires s == "abc123 456"
    ensures Next(s, Cursor(0, None)) == Scan(Returned(Some(Token(Identifier, "abc123", 1))), Cursor(7, Some(' ')))
    ensures Next(s, Cursor(7, Some(' '))) == Scan(Returned(Some(Token(Delete, " ", 1))), Cursor(8, Some('4')))
    ensures Next(s, Cursor(8, Some('4'))) == Scan(Returned(Some(Token(Integer, "456", 1))), Cursor(10, None))
    ensures Next(s, Cursor(10, None)) == Scan(Returned(None), Cursor(10, None))
  {
    SpanEndUnique(s, 1, 6, IdentifierRun);
    LineAtBeforeNewline(s, 1);
    assert [s[0]] + s[1..6] == "abc123";
    SpanEndUnique(s, 7, 7, SpaceRun);
    LineAtBeforeNewline(s, 7);
    assert [s[6]] + s[7..7] == " ";
    SpanEndUnique(s, 8, 10, DigitRun);
    LineAtBeforeNewline(s, 8);
    assert [s[7]] + s[8..10] == "456";
  }

  /** "// comment\nx": the comment is a DELETE token without its newline; the
      newline is consumed, so the identifier that follows is on line 2. */
  lemma CommentThenIdentifier(s: seq<char>)
    requires s == "// comment\nx"
    ensures Next(s, Cursor(0, None)) == Scan(Returned(Some(Token(Delete, "// comment", 1))), Cursor(11, None))
    ensures Next(s, Cursor(11, None)) == Scan(Returned(Some(Token(Identifier, "x", 2))), Cursor(12, None))
  {
    SpanEndUnique(s, 2, 10, CommentRun);
    LineAtBeforeNewline(s, 2);
    assert "//" + s[2..10] == "// comment";
    SpanEndUnique(s, 12, 12, IdentifierRun);
    LineAtBeforeNewline(s, 10);
    LineAtStep(s, 10);
    LineAtStep(s, 11);
    assert [s[11]] + s[12..12] == "x";
  }

  /** "'hello'": one STRING token with the quotes stripped. */
  lemma QuotedString(s: seq<char>)
    requires s == "'hello'"
    ensures Next(s, Cursor(0, None)) == Scan(Returned(Some(Token(String, "hello", 1))), Cursor(7, None))
  {
    SpanEndUnique(s, 1, 6, StringRun);
    LineAtBeforeNewline(s, 1);
    assert s[1..6] == "hello";
  }

  /** "<>=" is one operator token. */
  lemma OperatorRun(s: seq<char>)
    requires s == "<>="
    ensures Next(s, Cursor(0, None)) == Scan(Returned(Some(Token(Operator, "<>=", 1))), Cursor(3, None))
  {
    SpanEndUnique(s, 1, 3, OpSymbolRun);
    LineAtBeforeNewline(s, 1);
    assert [s[0]] + s[1..3] == "<>=";
  }

  /** "+//a": `+//` is one operator token, since `//` opens a comment only at
      the start of a run; the `a` that stops the run is pushed back. */
  lemma SlashesInsideOperator(s: seq<char>)
    requires s == "+//a"
    ensures Next(s, Cursor(0, None)) == Scan(Returned(Some(Token(Operator, "+//", 1))), Cursor(4, Some('a')))
  {
    SpanEndUnique(s, 1, 3, OpSymbolRun);
    LineAtBeforeNewline(s, 1);
    assert [s[0]] + s[1..3] == "+//";
  }

  /** "a,b": an identifier, then the comma, which is an OPERATOR token, never COMMA. */
  lemma CommaIsOperator(s: seq<char>)
    requires s == "a,b"
    ensures Next(s, Cursor(0, None)) == Scan(Returned(Some(Token(Identifier, "a", 1))), Cursor(2, Some(',')))
    ensures Next(s, Cursor(2, Some(','))) == Scan(Returned(Some(Token(Operator, ",", 1))), Cursor(3, Some('b')))
  {
    SpanEndUnique(s, 1, 1, IdentifierRun);
    LineAtBeforeNewline(s, 1);
    assert [s[0]] + s[1..1] == "a";
    SpanEndUnique(s, 2, 2, OpSymbolRun);
    LineAtBeforeNewline(s, 2);
    assert [s[1]] + s[2..2] == ",";
  }

  /** "'unterminated": no token, and the input is exhausted afterwards. */
  lemma UnterminatedString(s: seq<char>)
    requires s == "'unterminated"
    ensures Next(s, Cursor(0, None)) == Scan(Returned(None), Cursor(13, None))
    ensures Exhausted(s, Next(s, Cursor(0, None)).after)
  {
    SpanEndUnique(s, 1, 13, StringRun);
  }

  /** A trailing `/` throws. */
  lemma TrailingSlash(s: seq<char>)
    requires s == "/"
    ensures Next(s, Cursor(0, None)).outcome == NullDereference
  {
  }

  /** A carriage return inside a string, or a form feed inside a comment,
      makes the call never return. */
  lemma NeverReturns(s: seq<char>, t: seq<char>)
    requires s == "'a\r'" && t == "//a\U{000C}"
    ensures Next(s, Cursor(0, None)).outcome == Hangs
    ensures Next(t, Cursor(0, None)).outcome == Hangs
  {
    SpanEndUnique(s, 1, 2, StringRun);
    SpanEndUnique(t, 2, 3, CommentRun);
  }
}
