/** What one call of readNextToken produces, stated over the whole input:
    the shape of each kind of token, where its lexeme sits in the input, its
    line, what is left in the pushback slot, and exactly when the call
    returns null, throws or never returns. */
module ScanProperties {
  import opened CharClasses
  import opened Tokens
  import opened ScanSpec

  /** The run ending at `e` stopped correctly: either the input ended and
      nothing is pushed back, or the character at `e` is outside the class,
      has been read, and sits in the pushback slot. */
  predicate StopsAt(s: seq<char>, e: nat, k: RunClass, after: Cursor)
    requires e <= |s|
  {
    if e < |s| then !InClass(s[e], k) && after == Cursor(e + 1, Some(s[e]))
    else after == Cursor(|s|, None)
  }

  /** `j` is the first position at or after `p` holding a character outside `k`. */
  predicate FirstOutside(s: seq<char>, p: nat, j: nat, k: RunClass) {
    p <= j < |s| && !InClass(s[j], k) && forall i :: p <= i < j ==> InClass(s[i], k)
  }

  /** The two characters at `k` are `//`. */
  predicate OpensComment(s: seq<char>, k: nat) {
    k + 1 < |s| && s[k] == '/' && s[k + 1] == '/'
  }

  /** SpanEnd is the only position that ends a maximal run. */
  lemma SpanEndUnique(s: seq<char>, i: nat, e: nat, k: RunClass)
    requires i <= e <= |s|
    requires forall j :: i <= j < e ==> InClass(s[j], k)
    requires e < |s| ==> !InClass(s[e], k)
    ensures SpanEnd(s, i, k) == e
  {
    SpanEndMaximal(s, i, k);
  }

  /** readNextToken uses the pushed-back character before it reads from the
      reader, and reads exactly one character when nothing is pushed back:
      either way the token starts at input position Start(cur). */
  lemma NextFromStart(s: seq<char>, cur: Cursor)
    requires WellFormed(s, cur) && !Exhausted(s, cur)
    ensures 0 <= Start(cur) < |s|
    ensures Next(s, cur) == ScanToken(s, Start(cur) + 1, s[Start(cur)])
  {
  }

  /** A run builder started on the input character at `k` produces the lexeme
      s[k..e] for the maximal run after it and leaves StopsAt's state. */
  lemma RunShape(s: seq<char>, k: nat, kind: TokenType, cls: RunClass)
    requires k < |s|
    ensures var sc := ScanRun(s, k + 1, s[k], kind, cls);
      && sc.outcome.Returned? && sc.outcome.token.Some?
      && var v := sc.outcome.token.value.value;
      && k + |v| <= |s| && v == s[k..k + |v|]
      && (forall j :: 1 <= j < |v| ==> InClass(v[j], cls))
      && StopsAt(s, k + |v|, cls, sc.after)
  {
    var e := SpanEnd(s, k + 1, cls);
    SpanEndMaximal(s, k + 1, cls);
    assert s[k..e] == [s[k]] + s[k + 1..e];
  }

  /** buildToken started on the input character at `k`: the kind of the token
      it returns, if any, follows from that character in buildToken's order. */
  lemma DispatchKind(s: seq<char>, k: nat, t: Token)
    requires k < |s|
    requires ScanToken(s, k + 1, s[k]).outcome == Returned(Some(t))
    ensures var c := s[k];
      && (t.kind == Identifier <==> IsLetter(c))
      && (t.kind == Integer <==> IsDigit(c))
      && (t.kind == Operator <==> IsOpSymbol(c) && !OpensComment(s, k))
      && (t.kind == String <==> c == '\'')
      && (t.kind == Delete <==> IsSpace(c) || OpensComment(s, k))
      && (t.kind == LParen <==> c == '(')
      && (t.kind == RParen <==> c == ')')
      && (t.kind == Semicolon <==> c == ';')
      && t.kind != Comma && t.kind != Reserved
  {
    var c := s[k];
    if IsLetter(c) {
    } else if IsDigit(c) {
    } else if IsOpSymbol(c) {
      if OpensComment(s, k) {
        assert ScanToken(s, k + 1, c) == ScanComment(s, k + 2, "//");
      }
    } else if c == '\'' {
    } else if IsSpace(c) {
    } else if IsPunctuation(c) {
    }
  }

  /** A token of a run kind comes from the run builder of that kind. */
  lemma DispatchRun(s: seq<char>, k: nat, t: Token, kind: TokenType, cls: RunClass)
    requires k < |s|
    requires ScanToken(s, k + 1, s[k]).outcome == Returned(Some(t)) && t.kind == kind
    requires || (kind == Identifier && cls == IdentifierRun)
             || (kind == Integer && cls == DigitRun)
             || (kind == Operator && cls == OpSymbolRun)
    ensures ScanToken(s, k + 1, s[k]) == ScanRun(s, k + 1, s[k], kind, cls)
    ensures InClass(s[k], cls)
    ensures kind == Identifier ==> IsLetter(s[k])
    ensures kind == Operator ==> !OpensComment(s, k)
  {
    DispatchKind(s, k, t);
  }

  /** An input made of letters only is one IDENTIFIER token equal to the whole
      input, on line 1, and leaves the input exhausted. */
  lemma LettersOnly(s: seq<char>)
    requires |s| > 0 && forall i :: 0 <= i < |s| ==> IsLetter(s[i])
    ensures Next(s, Cursor(0, None)) == Scan(Returned(Some(Token(Identifier, s, 1))), Cursor(|s|, None))
  {
    SpanEndUnique(s, 1, |s|, IdentifierRun);
    LineAtBeforeNewline(s, 1);
    assert [s[0]] + s[1..|s|] == s;
  }

  /** An IDENTIFIER value is the input from the token's first character on: it
      starts with a letter, continues with letters, digits and underscores, and
      is maximal, the first character after it being pushed back. */
  lemma IdentifierToken(s: seq<char>, cur: Cursor, t: Token)
    requires WellFormed(s, cur)
    requires Next(s, cur).outcome == Returned(Some(t)) && t.kind == Identifier
    ensures 0 <= Start(cur) && Start(cur) + |t.value| <= |s|
    ensures t.value == s[Start(cur)..Start(cur) + |t.value|]
    ensures |t.value| > 0 && IsLetter(t.value[0])
    ensures forall j :: 1 <= j < |t.value| ==> IsIdentifierChar(t.value[j])
    ensures StopsAt(s, Start(cur) + |t.value|, IdentifierRun, Next(s, cur).after)
  {
    NextFromStart(s, cur);
    var k := Start(cur);
    DispatchRun(s, k, t, Identifier, IdentifierRun);
    RunShape(s, k, Identifier, IdentifierRun);
  }

  /** An INTEGER value is a non-empty maximal run of decimal digits. */
  lemma IntegerToken(s: seq<char>, cur: Cursor, t: Token)
    requires WellFormed(s, cur)
    requires Next(s, cur).outcome == Returned(Some(t)) && t.kind == Integer
    ensures 0 <= Start(cur) && Start(cur) + |t.value| <= |s|
    ensures t.value == s[Start(cur)..Start(cur) + |t.value|]
    ensures |t.value| > 0 && forall j :: 0 <= j < |t.value| ==> IsDigit(t.value[j])
    ensures StopsAt(s, Start(cur) + |t.value|, DigitRun, Next(s, cur).after)
  {
    NextFromStart(s, cur);
    var k := Start(cur);
    DispatchRun(s, k, t, Integer, DigitRun);
    RunShape(s, k, Integer, DigitRun);
  }

  /** A DELETE token started on whitespace is a non-empty maximal run of
      whitespace characters. */
  lemma WhitespaceToken(s: seq<char>, cur: Cursor, t: Token)
    requires WellFormed(s, cur) && !Exhausted(s, cur) && IsSpace(s[Start(cur)])
    requires Next(s, cur).outcome == Returned(Some(t))
    ensures t.kind == Delete
    ensures Start(cur) + |t.value| <= |s|
    ensures t.value == s[Start(cur)..Start(cur) + |t.value|]
    ensures |t.value| > 0 && forall j :: 0 <= j < |t.value| ==> IsSpace(t.value[j])
    ensures StopsAt(s, Start(cur) + |t.value|, SpaceRun, Next(s, cur).after)
  {
    NextFromStart(s, cur);
    var k := Start(cur);
    var c := s[k];
    assert !IsLetter(c) && !IsDigit(c) && !IsOpSymbol(c) && c != '\'';
    RunShape(s, k, Delete, SpaceRun);
  }

  /** An OPERATOR value is a non-empty maximal run of operator symbols that
      does not begin with `//`; a `//` later in the run does not start a comment. */
  lemma OperatorToken(s: seq<char>, cur: Cursor, t: Token)
    requires WellFormed(s, cur)
    requires Next(s, cur).outcome == Returned(Some(t)) && t.kind == Operator
    ensures 0 <= Start(cur) && Start(cur) + |t.value| <= |s|
    ensures t.value == s[Start(cur)..Start(cur) + |t.value|]
    ensures |t.value| > 0 && forall j :: 0 <= j < |t.value| ==> IsOpSymbol(t.value[j])
    ensures !(|t.value| >= 2 && t.value[0] == '/' && t.value[1] == '/')
    ensures StopsAt(s, Start(cur) + |t.value|, OpSymbolRun, Next(s, cur).after)
  {
    NextFromStart(s, cur);
    var k := Start(cur);
    DispatchRun(s, k, t, Operator, OpSymbolRun);
    RunShape(s, k, Operator, OpSymbolRun);
  }

  /** The comment builder started after `//` at `k` produces the lexeme
      s[k..e], where e ends the run of comment characters. */
  lemma CommentShape(s: seq<char>, k: nat)
    requires OpensComment(s, k)
    ensures var sc := ScanComment(s, k + 2, "//");
      sc.outcome.Returned? ==>
        && sc.outcome.token.Some?
        && var t := sc.outcome.token.value;
        && t.kind == Delete
        && k + |t.value| <= |s| && t.value == s[k..k + |t.value|]
        && |t.value| >= 2 && t.value[..2] == "//"
        && (forall j :: 2 <= j < |t.value| ==> IsCommentChar(t.value[j]))
        && var e := k + |t.value|;
        && if e < |s| then s[e] == '\n' && sc.after == Cursor(e + 1, None)
           else sc.after == Cursor(|s|, None)
  {
    var e := SpanEnd(s, k + 2, CommentRun);
    SpanEndMaximal(s, k + 2, CommentRun);
    assert s[k..e] == "//" + s[k + 2..e];
  }

  /** A comment is `//` followed by comment characters up to the next newline
      or the end of input. That newline has been read (and counted) but is
      neither in the value nor pushed back. */
  lemma CommentToken(s: seq<char>, cur: Cursor, t: Token)
    requires WellFormed(s, cur) && !Exhausted(s, cur) && OpensComment(s, Start(cur))
    requires Next(s, cur).outcome == Returned(Some(t))
    ensures t.kind == Delete
    ensures Start(cur) + |t.value| <= |s|
    ensures t.value == s[Start(cur)..Start(cur) + |t.value|]
    ensures |t.value| >= 2 && t.value[..2] == "//"
    ensures forall j :: 2 <= j < |t.value| ==> IsCommentChar(t.value[j])
    ensures var e := Start(cur) + |t.value|;
      if e < |s| then s[e] == '\n' && Next(s, cur).after == Cursor(e + 1, None)
      else Next(s, cur).after == Cursor(|s|, None)
  {
    NextFromStart(s, cur);
    var k := Start(cur);
    assert IsOpSymbol(s[k]) && !IsLetter(s[k]) && !IsDigit(s[k]);
    assert Next(s, cur) == ScanComment(s, k + 2, "//");
    CommentShape(s, k);
  }

  /** The string builder started after the quote at `k` returns the
      characters up to the closing quote, none of them a quote. */
  lemma StringShape(s: seq<char>, k: nat)
    requires k < |s|
    ensures var sc := ScanString(s, k + 1);
      sc.outcome.Returned? && sc.outcome.token.Some? ==>
        && var v := sc.outcome.token.value.value;
        && k + |v| + 1 < |s| && s[k + |v| + 1] == '\''
        && v == s[k + 1..k + 1 + |v|]
        && '\'' !in v
        && (forall j :: 0 <= j < |v| ==> IsStringChar(v[j]))
        && sc.after == Cursor(k + |v| + 2, None)
  {
    var e := SpanEnd(s, k + 1, StringRun);
    SpanEndMaximal(s, k + 1, StringRun);
    var v := s[k + 1..e];
    assert forall j :: 0 <= j < |v| ==> v[j] == s[k + 1 + j];
    assert '\'' !in v by {
      forall j | 0 <= j < |v| ensures v[j] != '\'' {
        assert IsStringChar(v[j]);
      }
    }
  }

  /** A STRING value is what lies between the opening quote and the next
      quote: it holds no quote and only string-class characters, and both
      quotes have been consumed with nothing pushed back. */
  lemma StringToken(s: seq<char>, cur: Cursor, t: Token)
    requires WellFormed(s, cur)
    requires Next(s, cur).outcome == Returned(Some(t)) && t.kind == String
    ensures 0 <= Start(cur) && Start(cur) + |t.value| + 1 < |s|
    ensures s[Start(cur)] == '\'' && s[Start(cur) + |t.value| + 1] == '\''
    ensures t.value == s[Start(cur) + 1..Start(cur) + 1 + |t.value|]
    ensures '\'' !in t.value
    ensures forall j :: 0 <= j < |t.value| ==> IsStringChar(t.value[j])
    ensures Next(s, cur).after == Cursor(Start(cur) + |t.value| + 2, None)
  {
    NextFromStart(s, cur);
    var k := Start(cur);
    DispatchKind(s, k, t);
    assert Next(s, cur) == ScanString(s, k + 1);
    StringShape(s, k);
  }

  /** `(`, `)` and `;` are one-character tokens of their own kinds, and
      nothing is read after them. */
  lemma PunctuationToken(s: seq<char>, cur: Cursor, t: Token)
    requires WellFormed(s, cur)
    requires Next(s, cur).outcome == Returned(Some(t))
    requires t.kind == LParen || t.kind == RParen || t.kind == Semicolon
    ensures 0 <= Start(cur) < |s| && t.value == [s[Start(cur)]]
    ensures t.kind == LParen <==> s[Start(cur)] == '('
    ensures t.kind == RParen <==> s[Start(cur)] == ')'
    ensures t.kind == Semicolon <==> s[Start(cur)] == ';'
    ensures Next(s, cur).after == Cursor(Start(cur) + 1, None)
  {
    NextFromStart(s, cur);
    DispatchKind(s, Start(cur), t);
  }

  /** The token's kind follows from its first character, in buildToken's
      order of priority; no call ever yields a COMMA or a RESERVED token (a
      comma is an operator symbol). */
  lemma TokenKind(s: seq<char>, cur: Cursor, t: Token)
    requires WellFormed(s, cur)
    requires Next(s, cur).outcome == Returned(Some(t))
    ensures 0 <= Start(cur) < |s|
    ensures var c := s[Start(cur)];
      && (t.kind == Identifier <==> IsLetter(c))
      && (t.kind == Integer <==> IsDigit(c))
      && (t.kind == Operator <==> IsOpSymbol(c) && !OpensComment(s, Start(cur)))
      && (t.kind == String <==> c == '\'')
      && (t.kind == Delete <==> IsSpace(c) || OpensComment(s, Start(cur)))
      && (t.kind == LParen <==> c == '(')
      && (t.kind == RParen <==> c == ')')
      && (t.kind == Semicolon <==> c == ';')
    ensures t.kind != Comma && t.kind != Reserved
  {
    NextFromStart(s, cur);
    DispatchKind(s, Start(cur), t);
  }

  /** A token is attributed the line on which its first character was read:
      1 plus the number of newlines read up to and including that character,
      which for a first character other than a newline is 1 plus the newlines
      before it. */
  lemma TokenLine(s: seq<char>, cur: Cursor, t: Token)
    requires WellFormed(s, cur)
    requires Next(s, cur).outcome == Returned(Some(t))
    ensures 0 <= Start(cur) < |s|
    ensures t.line == LineAt(s, Start(cur) + 1)
    ensures s[Start(cur)] != '\n' ==> t.line == 1 + Newlines(s[..Start(cur)])
  {
    NextFromStart(s, cur);
    var k := Start(cur);
    var c := s[k];
    LineAtStep(s, k);
    if IsLetter(c) {
    } else if IsDigit(c) {
    } else if IsOpSymbol(c) {
      if c == '/' && k + 1 < |s| && s[k + 1] == '/' {
        LineAtStep(s, k + 1);
      }
    } else if c == '\'' {
    } else if IsSpace(c) {
    } else if IsPunctuation(c) {
    }
  }

  /** readNextToken returns null exactly when the input is exhausted, when the
      first character is in no class, or when a string is still open at the
      end of input. */
  lemma NoTokenExactly(s: seq<char>, cur: Cursor)
    requires WellFormed(s, cur)
    ensures Next(s, cur).outcome == Returned(None) <==>
      || Exhausted(s, cur)
      || (0 <= Start(cur) < |s| && InNoClass(s[Start(cur)]))
      || (0 <= Start(cur) < |s| && s[Start(cur)] == '\''
          && forall j :: Start(cur) < j < |s| ==> IsStringChar(s[j]))
  {
    if !Exhausted(s, cur) {
      NextFromStart(s, cur);
      var k := Start(cur);
      var c := s[k];
      if IsLetter(c) {
      } else if IsDigit(c) {
      } else if IsOpSymbol(c) {
        if c == '/' && k + 1 < |s| && s[k + 1] == '/' {
        }
      } else if c == '\'' {
        var e := SpanEnd(s, k + 1, StringRun);
        if forall j :: k < j < |s| ==> IsStringChar(s[j]) {
          SpanEndUnique(s, k + 1, |s|, StringRun);
        } else {
          SpanEndMaximal(s, k + 1, StringRun);
        }
      } else if IsSpace(c) {
      } else if IsPunctuation(c) {
      }
    }
  }

  /** A character in no class is consumed and dropped: no token, nothing
      pushed back. */
  lemma UnclassifiedDropped(s: seq<char>, cur: Cursor)
    requires WellFormed(s, cur) && !Exhausted(s, cur)
    requires InNoClass(s[Start(cur)])
    ensures Next(s, cur) == Scan(Returned(None), Cursor(Start(cur) + 1, None))
  {
    NextFromStart(s, cur);
  }

  /** An unterminated string literal is discarded with everything after it:
      no token, nothing pushed back, and the input is then exhausted. */
  lemma UnterminatedStringDropped(s: seq<char>, cur: Cursor)
    requires WellFormed(s, cur) && !Exhausted(s, cur) && s[Start(cur)] == '\''
    requires forall j :: Start(cur) < j < |s| ==> IsStringChar(s[j])
    ensures Next(s, cur) == Scan(Returned(None), Cursor(|s|, None))
    ensures Exhausted(s, Next(s, cur).after)
  {
    NextFromStart(s, cur);
    var k := Start(cur);
    assert !IsLetter(s[k]) && !IsDigit(s[k]) && !IsOpSymbol(s[k]);
    assert Next(s, cur) == ScanString(s, k + 1);
    SpanEndUnique(s, k + 1, |s|, StringRun);
  }

  /** readNextToken throws a NullPointerException exactly when the character it
      starts on is a `/` that is the last character of the input. */
  lemma NullDereferenceExactly(s: seq<char>, cur: Cursor)
    requires WellFormed(s, cur)
    ensures Next(s, cur).outcome == NullDereference <==>
      !Exhausted(s, cur) && Start(cur) == |s| - 1 && s[|s| - 1] == '/'
  {
    if !Exhausted(s, cur) {
      NextFromStart(s, cur);
      var k := Start(cur);
      var c := s[k];
      if IsLetter(c) {
      } else if IsDigit(c) {
      } else if IsOpSymbol(c) {
      } else if c == '\'' {
        var e := SpanEnd(s, k + 1, StringRun);
      } else if IsSpace(c) {
      } else if IsPunctuation(c) {
      }
    }
  }

  /** readNextToken never returns exactly when, inside a string, the first
      character outside the string class is not a quote, or, inside a comment,
      the first character outside the comment class is not a newline. */
  lemma HangsExactly(s: seq<char>, cur: Cursor)
    requires WellFormed(s, cur)
    ensures Next(s, cur).outcome == Hangs <==>
      && !Exhausted(s, cur)
      && exists j: nat ::
        || (s[Start(cur)] == '\'' && FirstOutside(s, Start(cur) + 1, j, StringRun) && s[j] != '\'')
        || (OpensComment(s, Start(cur)) && FirstOutside(s, Start(cur) + 2, j, CommentRun) && s[j] != '\n')
  {
    if !Exhausted(s, cur) {
      NextFromStart(s, cur);
      var k := Start(cur);
      var c := s[k];
      var p1 := k + 1;
      var p2 := k + 2;
      forall j: nat | FirstOutside(s, p1, j, StringRun)
        ensures SpanEnd(s, p1, StringRun) == j
      {
        SpanEndUnique(s, p1, j, StringRun);
      }
      forall j: nat | p2 <= |s| && FirstOutside(s, p2, j, CommentRun)
        ensures SpanEnd(s, p2, CommentRun) == j
      {
        SpanEndUnique(s, p2, j, CommentRun);
      }
      if IsLetter(c) {
      } else if IsDigit(c) {
      } else if IsOpSymbol(c) {
        if OpensComment(s, k) {
          assert Next(s, cur) == ScanComment(s, p2, "//");
          var e := SpanEnd(s, p2, CommentRun);
          SpanEndMaximal(s, p2, CommentRun);
          if e < |s| && s[e] != '\n' {
            assert FirstOutside(s, p2, e, CommentRun);
          }
        }
      } else if c == '\'' {
        assert Next(s, cur) == ScanString(s, p1);
        var e := SpanEnd(s, p1, StringRun);
        SpanEndMaximal(s, p1, StringRun);
        if e < |s| && s[e] != '\'' {
          assert FirstOutside(s, p1, e, StringRun);
        }
      } else if IsSpace(c) {
      } else if IsPunctuation(c) {
      }
    }
  }

  /** Starting from reader position `p`, the cursor `a` is well formed, no
      earlier, and holds at most the characters from `p` on. */
  predicate Advanced(s: seq<char>, p: nat, a: Cursor) {
    WellFormed(s, a) && p <= a.pos && Remaining(s, a) <= |s| - p
  }

  lemma RunAdvances(s: seq<char>, p: nat, c: char, kind: TokenType, k: RunClass)
    requires p <= |s|
    ensures Advanced(s, p, ScanRun(s, p, c, kind, k).after)
  {
  }

  lemma OperatorAdvances(s: seq<char>, p: nat, c: char)
    requires p <= |s|
    ensures Advanced(s, p, ScanOperator(s, p, c).after)
  {
    if c == '/' && p < |s| && s[p] == '/' {
      assert Advanced(s, p + 1, ScanComment(s, p + 1, "//").after);
    } else if p < |s| || c != '/' {
      RunAdvances(s, p, c, Operator, OpSymbolRun);
    }
  }

  lemma TokenAdvances(s: seq<char>, p: nat, c: char)
    requires p <= |s|
    ensures Advanced(s, p, ScanToken(s, p, c).after)
  {
    if IsLetter(c) {
      RunAdvances(s, p, c, Identifier, IdentifierRun);
    } else if IsDigit(c) {
      RunAdvances(s, p, c, Integer, DigitRun);
    } else if IsOpSymbol(c) {
      OperatorAdvances(s, p, c);
    } else if c == '\'' {
      assert Advanced(s, p, ScanString(s, p).after);
    } else if IsSpace(c) {
      RunAdvances(s, p, c, Delete, SpaceRun);
    }
  }

  /** One call keeps the pushback slot well formed, never moves the reader
      back, and hands at least one character to a builder unless the input is
      exhausted, in which case it changes nothing and returns null. */
  lemma NextProgress(s: seq<char>, cur: Cursor)
    requires WellFormed(s, cur)
    ensures WellFormed(s, Next(s, cur).after)
    ensures cur.pos <= Next(s, cur).after.pos
    ensures !Exhausted(s, cur) ==> Remaining(s, Next(s, cur).after) < Remaining(s, cur)
    ensures Exhausted(s, cur) ==> Next(s, cur) == Scan(Returned(None), cur)
  {
    if !Exhausted(s, cur) {
      NextFromStart(s, cur);
      TokenAdvances(s, Start(cur) + 1, s[Start(cur)]);
    }
  }
}
