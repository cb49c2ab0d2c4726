/** The character classes of the RPAL scanner (class LexicalRegexPatterns).

    Each predicate is the set of characters that the corresponding Java regular
    expression matches, worked out from the pattern text: `\d` is `[0-9]` (no
    UNICODE_CHARACTER_CLASS flag) and `\s` is space, tab, newline, vertical tab,
    form feed and carriage return. No regular-expression matching is modelled,
    only the resulting sets. */
module CharClasses {

  /** LETTER_PATTERN, `[a-zA-Z]`. */
  predicate IsLetter(c: char) {
    'a' <= c <= 'z' || 'A' <= c <= 'Z'
  }

  /** DIGIT_PATTERN, `\d`. */
  predicate IsDigit(c: char) {
    '0' <= c <= '9'
  }

  /** IDENTIFIER_PATTERN, `[a-zA-Z\d_]`: a character that may continue an identifier. */
  predicate IsIdentifierChar(c: char) {
    IsLetter(c) || IsDigit(c) || c == '_'
  }

  /** PUNCTUATION_PATTERN, `[();,]`. */
  predicate IsPunctuation(c: char) {
    c == '(' || c == ')' || c == ';' || c == ','
  }

  /** SPACE_PATTERN, `[\s\t\n]`. */
  predicate IsSpace(c: char) {
    c == ' ' || c == '\t' || c == '\n' || c == '\U{000B}' || c == '\U{000C}' || c == '\r'
  }

  /** OPSYMBOL_PATTERN. Inside the brackets the leading `+-/` is a range, so it
      covers `+ , - . /`; the escaping of `* < > . & $ ^ ?` inserts a literal
      backslash before each of them, so `\` is an operator symbol as well. */
  predicate IsOpSymbol(c: char) {
    ('+' <= c <= '/')
    || c == '~' || c == ':' || c == '=' || c == '|' || c == '!' || c == '#' || c == '%'
    || c == '_' || c == '{' || c == '}' || c == '"' || c == '*' || c == '<' || c == '>'
    || c == '&' || c == '$' || c == '^' || c == '[' || c == ']' || c == '?' || c == '@'
    || c == '\\'
  }

  /** STRING_PATTERN: space, tab, newline, backslash, punctuation, letters,
      digits and operator symbols. The quote is not in it. */
  predicate IsStringChar(c: char) {
    c == ' ' || c == '\t' || c == '\n' || c == '\\'
    || IsPunctuation(c) || IsLetter(c) || IsDigit(c) || IsOpSymbol(c)
  }

  /** COMMENT_PATTERN: space, tab, quote, backslash, carriage return,
      punctuation, letters, digits and operator symbols. The newline is not in it. */
  predicate IsCommentChar(c: char) {
    c == ' ' || c == '\t' || c == '\'' || c == '\\' || c == '\r'
    || IsPunctuation(c) || IsLetter(c) || IsDigit(c) || IsOpSymbol(c)
  }

  /** A character that buildToken sends to no builder. */
  predicate InNoClass(c: char) {
    !IsLetter(c) && !IsDigit(c) && !IsOpSymbol(c) && c != '\'' && !IsSpace(c) && !IsPunctuation(c)
  }

  /** The operator class is wider than its source text suggests: the range
      `+-/` and the inserted backslash bring in `,`, `.`, `-` and `\`; `_` is
      listed explicitly. The quote, the backtick and the blanks are not in it. */
  lemma OpSymbolMembers()
    ensures IsOpSymbol(',') && IsOpSymbol('.') && IsOpSymbol('-') && IsOpSymbol('\\') && IsOpSymbol('_')
    ensures !IsOpSymbol('\'') && !IsOpSymbol('`') && !IsOpSymbol(' ') && !IsOpSymbol('(') && !IsOpSymbol(';')
  {
  }

  /** Neither body class contains the character that ends its loop: a string
      body never holds a quote, a comment body never holds a newline. Carriage
      return, form feed, vertical tab and the backtick are outside the string
      class; form feed, vertical tab and the backtick are outside the comment class. */
  lemma BodyClassGaps()
    ensures !IsStringChar('\'') && !IsCommentChar('\n')
    ensures !IsStringChar('\r') && !IsStringChar('\U{000C}') && !IsStringChar('\U{000B}') && !IsStringChar('`')
    ensures !IsCommentChar('\U{000C}') && !IsCommentChar('\U{000B}') && !IsCommentChar('`')
  {
    StringClassExactly('\'');
    StringClassExactly('\r');
    StringClassExactly('\U{000C}');
    StringClassExactly('\U{000B}');
    StringClassExactly('`');
    CommentClassExactly('\n');
    CommentClassExactly('\U{000C}');
    CommentClassExactly('\U{000B}');
    CommentClassExactly('`');
  }

  /** Over the whole alphabet: the string class is every printable ASCII
      character except the quote and the backtick, plus tab and newline. Any
      other character, non-ASCII ones included, stops a string without
      closing it. */
  lemma StringClassExactly(c: char)
    ensures IsStringChar(c) <==> (' ' <= c <= '~' && c != '\'' && c != '`') || c == '\t' || c == '\n'
  {
  }

  /** Over the whole alphabet: the comment class is every printable ASCII
      character except the backtick, plus tab and carriage return. Any other
      character except the newline stops a comment without ending it. */
  lemma CommentClassExactly(c: char)
    ensures IsCommentChar(c) <==> (' ' <= c <= '~' && c != '`') || c == '\t' || c == '\r'
  {
  }
}
