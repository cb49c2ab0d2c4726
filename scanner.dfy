/** The Scanner class: the reader, the pushback slot `extraCharRead` and the
    line counter `sourceLineNumber`, updated in place by readNextChar and the
    builders. Every method is proved against the transition functions of
    ScanSpec. */
module Scanning {
  import opened CharClasses
  import opened Tokens
  import opened ScanSpec
  import ScanProperties

  /** What BufferedReader.read gives: a character, -1 at the end of input, or
      an IOException once the reader has been closed. */
  datatype ReadResult = Char(c: char) | EndOfStream | StreamClosed

  /** The character source: the characters of the input file, delivered one
      at a time. */
  class Reader {
    const data: seq<char>
    var pos: nat
    var closed: bool

    ghost predicate Valid()
      reads this
    {
      pos <= |data| && (closed ==> pos == |data|)
    }

    constructor (data: seq<char>)
      ensures Valid() && this.data == data && pos == 0 && !closed
    {
      this.data := data;
      pos := 0;
      closed := false;
    }

    method Read() returns (r: ReadResult)
      requires Valid()
      modifies this
      ensures Valid() && closed == old(closed)
      ensures old(closed) ==> r == StreamClosed && pos == old(pos)
      ensures !old(closed) && old(pos) < |data| ==> r == Char(data[old(pos)]) && pos == old(pos) + 1
      ensures !old(closed) && old(pos) == |data| ==> r == EndOfStream && pos == old(pos)
    {
      if closed {
        r := StreamClosed;
      } else if pos < |data| {
        r := Char(data[pos]);
        pos := pos + 1;
      } else {
        r := EndOfStream;
      }
    }

    method Close()
      requires Valid() && pos == |data|
      modifies this
      ensures Valid() && closed && pos == old(pos)
    {
      closed := true;
    }
  }

  class Scanner {
    /** Assigned once by the constructor and never cleared. */
    const buffer: Reader?
    var extraCharRead: Option<char>
    var sourceLineNumber: int

    /** The reader is present and the line counter is 1 plus the newlines
        read so far. */
    ghost predicate Counted()
      reads this, buffer
    {
      buffer != null && buffer.Valid() && sourceLineNumber == LineAt(buffer.data, buffer.pos)
    }

    /** Besides, a pushed-back character is the last one read. */
    ghost predicate Valid()
      reads this, buffer
    {
      Counted() && WellFormed(buffer.data, Cursor(buffer.pos, extraCharRead))
    }

    /** The abstract scanner state: reader position and pushback slot. */
    ghost function State(): Cursor
      reads this, buffer
      requires buffer != null
    {
      Cursor(buffer.pos, extraCharRead)
    }

    /** Opens the input; the line counter starts at 1. */
    constructor (input: seq<char>)
      ensures Valid() && fresh(buffer)
      ensures buffer.data == input && State() == Cursor(0, None) && sourceLineNumber == 1
    {
      buffer := new Reader(input);
      extraCharRead := None;
      sourceLineNumber := 1;
      new;
      assert buffer.data[..0] == [];
    }

    /** hasMoreTokens: a character is pushed back or the reader is present.
        The reader is never cleared, so the answer is always true, even once
        the input is exhausted. */
    method HasMoreTokens() returns (b: bool)
      requires Valid()
      ensures b
    {
      b := extraCharRead.Some? || buffer != null;
    }

    /** readNextChar: the next input character, counting newlines; at the end
        of input the reader is closed and null comes back, and so it does on
        every later call. */
    method ReadNextChar() returns (nextChar: Option<char>)
      requires Counted()
      modifies this, buffer
      ensures Counted() && extraCharRead == old(extraCharRead)
      ensures old(buffer.pos) < |buffer.data| ==>
        nextChar == Some(buffer.data[old(buffer.pos)]) && buffer.pos == old(buffer.pos) + 1
      ensures old(buffer.pos) == |buffer.data| ==> nextChar == None && buffer.pos == old(buffer.pos)
      ensures sourceLineNumber == old(sourceLineNumber) + (if nextChar == Some('\n') then 1 else 0)
    {
      nextChar := None;
      var c := buffer.Read();
      match c
      case Char(ch) =>
        nextChar := Some(ch);
        LineAtStep(buffer.data, buffer.pos - 1);
        if ch == '\n' {
          sourceLineNumber := sourceLineNumber + 1;
        }
      case EndOfStream =>
        buffer.Close();
      case StreamClosed =>
        // the IOException is caught and ignored
    }

    /** readNextToken: use and clear the pushed-back character, otherwise read
        one; no character means no token. */
    method ReadNextToken() returns (r: Outcome)
      requires Valid()
      modifies this, buffer
      ensures Valid()
      ensures Scan(r, State()) == Next(buffer.data, old(State()))
      ensures old(sourceLineNumber) <= sourceLineNumber
    {
      ghost var before := State();
      var nextChar: Option<char>;
      if extraCharRead.Some? {
        nextChar := extraCharRead;
        extraCharRead := None;
      } else {
        nextChar := ReadNextChar();
      }
      if nextChar.Some? {
        r := BuildToken(nextChar.value);
      } else {
        r := Returned(None);
      }
      ScanProperties.NextProgress(buffer.data, before);
      LineAtMonotone(buffer.data, before.pos, buffer.pos);
    }

    /** buildToken: dispatch on the first character's class. */
    method BuildToken(currentChar: char) returns (r: Outcome)
      requires Valid() && extraCharRead.None?
      modifies this, buffer
      ensures Valid()
      ensures Scan(r, State()) == ScanToken(buffer.data, old(buffer.pos), currentChar)
    {
      r := Returned(None);
      if IsLetter(currentChar) {
        var t := BuildIdentifierToken(currentChar);
        r := Returned(Some(t));
      } else if IsDigit(currentChar) {
        var t := BuildIntegerToken(currentChar);
        r := Returned(Some(t));
      } else if IsOpSymbol(currentChar) {
        r := BuildOperatorToken(currentChar);
      } else if currentChar == '\'' {
        r := BuildStringToken(currentChar);
      } else if IsSpace(currentChar) {
        var t := BuildSpaceToken(currentChar);
        r := Returned(Some(t));
      } else if IsPunctuation(currentChar) {
        var t := BuildPunctuationToken(currentChar);
        r := Returned(Some(t));
      }
    }

    /** The greedy loop shared by the identifier, integer, whitespace and
        operator builders: append characters of class `k` starting with
        `nextChar`, and push back the first one outside it. */
    method ExtendRun(value: string, nextChar: Option<char>, k: RunClass) returns (v: string)
      requires Valid() && extraCharRead.None?
      requires nextChar.Some? ==> 0 < buffer.pos && nextChar.value == buffer.data[buffer.pos - 1]
      requires nextChar.None? ==> buffer.pos == |buffer.data|
      modifies this, buffer
      ensures Valid()
      ensures var p := old(buffer.pos) - (if nextChar.Some? then 1 else 0);
        && 0 <= p <= |buffer.data|
        && v == value + buffer.data[p..SpanEnd(buffer.data, p, k)]
        && State() == AfterRun(buffer.data, SpanEnd(buffer.data, p, k))
    {
      ghost var s := buffer.data;
      ghost var p := buffer.pos - (if nextChar.Some? then 1 else 0);
      v := value;
      var next := nextChar;
      ghost var i := p;
      while next.Some?
        invariant Valid() && extraCharRead.None?
        invariant p <= i <= SpanEnd(s, p, k) && v == value + s[p..i]
        invariant next.Some? ==> i < |s| && buffer.pos == i + 1 && next.value == s[i]
        invariant next.None? ==> i == buffer.pos == |s|
        decreases |s| - i
      {
        SpanEndWithin(s, p, i, k);
        if InClass(next.value, k) {
          v := v + [next.value];
          assert s[p..i + 1] == s[p..i] + [s[i]];
          i := i + 1;
          next := ReadNextChar();
        } else {
          extraCharRead := next;
          break;
        }
      }
    }

    /** buildIdentifierToken. */
    method BuildIdentifierToken(currentChar: char) returns (token: Token)
      requires Valid() && extraCharRead.None?
      modifies this, buffer
      ensures Valid()
      ensures Scan(Returned(Some(token)), State())
        == ScanRun(buffer.data, old(buffer.pos), currentChar, Identifier, IdentifierRun)
    {
      var line := sourceLineNumber;
      var nextChar := ReadNextChar();
      var value := ExtendRun([currentChar], nextChar, IdentifierRun);
      token := Token(Identifier, value, line);
    }

    /** buildIntegerToken. */
    method BuildIntegerToken(currentChar: char) returns (token: Token)
      requires Valid() && extraCharRead.None?
      modifies this, buffer
      ensures Valid()
      ensures Scan(Returned(Some(token)), State())
        == ScanRun(buffer.data, old(buffer.pos), currentChar, Integer, DigitRun)
    {
      var line := sourceLineNumber;
      var nextChar := ReadNextChar();
      var value := ExtendRun([currentChar], nextChar, DigitRun);
      token := Token(Integer, value, line);
    }

    /** buildSpaceToken. */
    method BuildSpaceToken(currentChar: char) returns (token: Token)
      requires Valid() && extraCharRead.None?
      modifies this, buffer
      ensures Valid()
      ensures Scan(Returned(Some(token)), State())
        == ScanRun(buffer.data, old(buffer.pos), currentChar, Delete, SpaceRun)
    {
      var line := sourceLineNumber;
      var nextChar := ReadNextChar();
      var value := ExtendRun([currentChar], nextChar, SpaceRun);
      token := Token(Delete, value, line);
    }

    /** buildOperatorToken: the character after a `/` is dereferenced before
        it is checked for null; `//` hands over to the comment builder. */
    method BuildOperatorToken(currentChar: char) returns (r: Outcome)
      requires Valid() && extraCharRead.None?
      modifies this, buffer
      ensures Valid()
      ensures Scan(r, State()) == ScanOperator(buffer.data, old(buffer.pos), currentChar)
    {
      var line := sourceLineNumber;
      var nextChar := ReadNextChar();
      if currentChar == '/' {
        if nextChar.None? {
          return NullDereference;
        }
        if nextChar.value == '/' {
          r := BuildCommentToken([currentChar, nextChar.value]);
          return;
        }
      }
      var value := ExtendRun([currentChar], nextChar, OpSymbolRun);
      r := Returned(Some(Token(Operator, value, line)));
    }

    /** buildStringToken: characters up to the closing quote; null at the end
        of input; no progress on a character that is neither. */
    method BuildStringToken(currentChar: char) returns (r: Outcome)
      requires Valid() && extraCharRead.None?
      modifies this, buffer
      ensures Valid()
      ensures Scan(r, State()) == ScanString(buffer.data, old(buffer.pos))
    {
      ghost var s := buffer.data;
      ghost var p := buffer.pos;
      var line := sourceLineNumber;
      var value := "";
      var nextChar := ReadNextChar();
      ghost var i := p;
      while nextChar.Some?
        invariant Valid() && extraCharRead.None?
        invariant p <= i <= SpanEnd(s, p, StringRun) && value == s[p..i]
        invariant nextChar.Some? ==> i < |s| && buffer.pos == i + 1 && nextChar.value == s[i]
        invariant nextChar.None? ==> i == buffer.pos == |s|
        decreases |s| - i
      {
        SpanEndWithin(s, p, i, StringRun);
        if nextChar.value == '\'' {
          return Returned(Some(Token(String, value, line)));
        } else if IsStringChar(nextChar.value) {
          value := value + [nextChar.value];
          assert s[p..i + 1] == s[p..i] + [s[i]];
          i := i + 1;
          nextChar := ReadNextChar();
        } else {
          // the Java loop spins here forever: neither branch reads on
          return Hangs;
        }
      }
      r := Returned(None);
    }

    /** buildCommentToken: comment characters up to a newline, which is read
        but neither kept nor pushed back; no progress on any other character. */
    method BuildCommentToken(prefix: string) returns (r: Outcome)
      requires Valid() && extraCharRead.None?
      modifies this, buffer
      ensures Valid()
      ensures Scan(r, State()) == ScanComment(buffer.data, old(buffer.pos), prefix)
    {
      ghost var s := buffer.data;
      ghost var p := buffer.pos;
      var line := sourceLineNumber;
      var value := prefix;
      var nextChar := ReadNextChar();
      ghost var i := p;
      while nextChar.Some?
        invariant Valid() && extraCharRead.None?
        invariant p <= i <= SpanEnd(s, p, CommentRun) && value == prefix + s[p..i]
        invariant nextChar.Some? ==> i < |s| && buffer.pos == i + 1 && nextChar.value == s[i]
        invariant nextChar.None? ==> i == buffer.pos == |s|
        decreases |s| - i
      {
        SpanEndWithin(s, p, i, CommentRun);
        if IsCommentChar(nextChar.value) {
          value := value + [nextChar.value];
          assert s[p..i + 1] == s[p..i] + [s[i]];
          i := i + 1;
          nextChar := ReadNextChar();
        } else if nextChar.value == '\n' {
          break;
        } else {
          // the Java loop spins here forever: neither branch reads on
          return Hangs;
        }
      }
      r := Returned(Some(Token(Delete, value, line)));
    }

    /** buildPunctuationToken: a one-character token of the character's kind. */
    method BuildPunctuationToken(currentChar: char) returns (token: Token)
      requires Valid() && extraCharRead.None?
      requires IsPunctuation(currentChar)
      ensures Scan(Returned(Some(token)), State())
        == ScanPunctuation(buffer.data, buffer.pos, currentChar)
    {
      var kind := Comma;
      if currentChar == '(' {
        kind := LParen;
      } else if currentChar == ')' {
        kind := RParen;
      } else if currentChar == ';' {
        kind := Semicolon;
      }
      token := Token(kind, [currentChar], sourceLineNumber);
    }
  }
}
