/**
 * What one call of `scan_token` does, one character class at a time, and
 * the common shape of every such call (`TokenStep`).
 */
module TokenSteps {
  import opened Chars
  import opened Decimal
  import opened Tokens
  import opened Keywords
  import opened Scanning

  /**
   * What one `scan_token` call from `s` to `r` does, whatever the character:
   * it consumes at least one character and raises the line by the newlines
   * it consumed; it emits at most one token, never EOF, at the line reached,
   * whose lexeme is non-empty exactly when its literal is truthy and is then
   * the consumed text; or else it reports at most one diagnostic, at the line
   * reached.
   */
  predicate TokenStep(s: Scanner, r: Scanner) {
    && s.Valid() && r.Valid() && r.source == s.source && r.start == s.start
    && s.current < r.current
    && LineTracks(s, r)
    && |s.tokens| <= |r.tokens| <= |s.tokens| + 1 && r.tokens[..|s.tokens|] == s.tokens
    && (forall k | |s.tokens| <= k < |r.tokens| ::
         && r.tokens[k].tokenType != Eof
         && r.tokens[k].line == r.line
         && (r.tokens[k].lexeme != "" <==> Truthy(r.tokens[k].literal))
         && (r.tokens[k].lexeme == "" || r.tokens[k].lexeme == s.source[s.current..r.current]))
    && |s.errors| <= |r.errors| <= |s.errors| + 1 && r.errors[..|s.errors|] == s.errors
    && (|r.errors| > |s.errors| ==> r.tokens == s.tokens && r.errors[|s.errors|].line == r.line)
  }

  /** A step that consumed `r.current - s.current` characters and emitted nothing. */
  lemma SilentStep(s: Scanner, r: Scanner)
    requires s.Valid() && r.Valid() && r == s.(current := r.current, line := r.line)
    requires s.current < r.current && LineTracks(s, r)
    ensures TokenStep(s, r)
  {
    assert r.tokens[..|s.tokens|] == s.tokens;
    assert r.errors[..|s.errors|] == s.errors;
  }

  /** A step that emitted the one token `t` at the line reached. */
  lemma EmitStep(s: Scanner, r: Scanner, t: Token)
    requires s.Valid() && r.Valid()
    requires r == s.(current := r.current, line := r.line, tokens := s.tokens + [t])
    requires s.current < r.current && LineTracks(s, r)
    requires t.tokenType != Eof && t.line == r.line
    requires t.lexeme != "" <==> Truthy(t.literal)
    requires t.lexeme == "" || t.lexeme == s.source[s.current..r.current]
    ensures TokenStep(s, r)
  {
    assert r.tokens[..|s.tokens|] == s.tokens;
    assert r.errors[..|s.errors|] == s.errors;
  }

  /** A step that emitted nothing and reported the one diagnostic `d` at the line reached. */
  lemma ReportStep(s: Scanner, r: Scanner, d: Diagnostic)
    requires s.Valid() && r.Valid()
    requires r == s.(current := r.current, line := r.line, errors := s.errors + [d])
    requires s.current < r.current && LineTracks(s, r) && d.line == r.line
    ensures TokenStep(s, r)
  {
    assert r.tokens[..|s.tokens|] == s.tokens;
    assert r.errors[..|s.errors|] == s.errors;
  }

  /** The characters that start some lexeme or are skipped silently. */
  predicate Recognised(c: char) {
    c in " \r\t\n" || IsPunctuation(c) || IsOperatorStart(c) || c == '/' || c == '"'
    || IsDigit(c) || IsAlpha(c)
  }

  /** The next character of `s` is `c`, and a second one is `d`. */
  predicate NextTwo(s: Scanner, c: char, d: char)
    requires s.Valid()
  {
    s.current + 1 < |s.source| && s.source[s.current] == c && s.source[s.current + 1] == d
  }

  // Which helper `scan_token` hands the rest of the lexeme to.

  lemma StringDispatch(s: Scanner)
    requires s.ReadyForToken() && s.source[s.current] == '"'
    ensures ScanToken(s) == ScanString(s.(current := s.current + 1))
    ensures NewlinesBefore(s.source, s.current + 1) == NewlinesBefore(s.source, s.current)
  {
  }

  lemma NumberDispatch(s: Scanner)
    requires s.ReadyForToken() && IsDigit(s.source[s.current])
    ensures ScanToken(s) == ScanNumber(s.(current := s.current + 1))
    ensures NewlinesBefore(s.source, s.current + 1) == NewlinesBefore(s.source, s.current)
  {
  }

  lemma IdentifierDispatch(s: Scanner)
    requires s.ReadyForToken() && IsAlpha(s.source[s.current])
    ensures ScanToken(s) == ScanIdentifier(s.(current := s.current + 1))
    ensures NewlinesBefore(s.source, s.current + 1) == NewlinesBefore(s.source, s.current)
  {
  }

  /** Whitespace and newlines are consumed alone, emit nothing, and a newline bumps the line. */
  lemma IgnoredStep(s: Scanner)
    requires s.ReadyForToken() && s.source[s.current] in " \r\t\n"
    ensures ScanToken(s) == s.(current := s.current + 1,
                               line := s.line + if s.source[s.current] == '\n' then 1 else 0)
    ensures TokenStep(s, ScanToken(s))
  {
    var c := s.source[s.current];
    assert c == ' ' || c == '\r' || c == '\t' || c == '\n';
    SilentStep(s, ScanToken(s));
  }

  /** A punctuation mark is consumed alone and emits its type with an empty lexeme. */
  lemma PunctuationToken(s: Scanner)
    requires s.ReadyForToken() && IsPunctuation(s.source[s.current])
    ensures ScanToken(s) == s.(current := s.current + 1,
      tokens := s.tokens + [Token(PunctuationType(s.source[s.current]), "", NoLiteral, s.line)])
  {
    var c := s.source[s.current];
    assert c == '(' || c == ')' || c == '{' || c == '}' || c == ',' || c == '.'
        || c == '-' || c == '+' || c == ';' || c == '*';
  }

  lemma PunctuationStep(s: Scanner)
    requires s.ReadyForToken() && IsPunctuation(s.source[s.current])
    ensures TokenStep(s, ScanToken(s))
  {
    PunctuationToken(s);
    assert NewlinesBefore(s.source, s.current + 1) == NewlinesBefore(s.source, s.current);
    EmitStep(s, ScanToken(s), Token(PunctuationType(s.source[s.current]), "", NoLiteral, s.line));
  }

  /**
   * `!`, `=`, `<`, `>`: when '=' follows, both characters are consumed and the
   * two-character type is emitted; otherwise only the first is consumed.
   */
  lemma OperatorToken(s: Scanner)
    requires s.ReadyForToken() && IsOperatorStart(s.source[s.current])
    ensures var withEqual := NextTwo(s, s.source[s.current], '=');
      ScanToken(s) == s.(current := s.current + if withEqual then 2 else 1,
        tokens := s.tokens + [Token(OperatorType(s.source[s.current], withEqual), "", NoLiteral, s.line)])
  {
    var c := s.source[s.current];
    assert c == '!' || c == '=' || c == '<' || c == '>';
  }

  lemma OperatorStep(s: Scanner)
    requires s.ReadyForToken() && IsOperatorStart(s.source[s.current])
    ensures TokenStep(s, ScanToken(s))
  {
    OperatorToken(s);
    var c := s.source[s.current];
    var withEqual := NextTwo(s, c, '=');
    var r := ScanToken(s);
    assert NewlinesBefore(s.source, s.current + 1) == NewlinesBefore(s.source, s.current);
    if withEqual {
      assert NewlinesBefore(s.source, s.current + 2) == NewlinesBefore(s.source, s.current + 1);
    }
    EmitStep(s, r, Token(OperatorType(c, withEqual), "", NoLiteral, s.line));
  }

  /** A '/' not followed by another '/' is division. */
  lemma SlashStep(s: Scanner)
    requires s.ReadyForToken() && s.source[s.current] == '/' && !NextTwo(s, '/', '/')
    ensures ScanToken(s) == s.(current := s.current + 1,
      tokens := s.tokens + [Token(Slash, "", NoLiteral, s.line)])
    ensures TokenStep(s, ScanToken(s))
  {
    assert NewlinesBefore(s.source, s.current + 1) == NewlinesBefore(s.source, s.current);
    EmitStep(s, ScanToken(s), Token(Slash, "", NoLiteral, s.line));
  }

  /**
   * `//` starts a comment: everything up to, not including, the next newline
   * (or the end of input) is consumed and nothing is emitted.
   */
  lemma CommentStep(s: Scanner)
    requires s.ReadyForToken() && NextTwo(s, '/', '/')
    ensures var r := ScanToken(s);
      && r == s.(current := r.current)
      && s.current + 2 <= r.current
      && (forall k | s.current + 2 <= k < r.current :: s.source[k] != '\n')
      && (r.IsAtEnd() || s.source[r.current] == '\n')
    ensures TokenStep(s, ScanToken(s))
  {
    var s2 := s.(current := s.current + 2);
    var r := ScanToken(s);
    assert r == SkipWhile(s2, ch => ch != '\n');
    assert NewlinesBefore(s.source, s.current + 1) == NewlinesBefore(s.source, s.current);
    assert NewlinesBefore(s.source, s2.current) == NewlinesBefore(s.source, s.current);
    SilentStep(s, r);
  }

  /**
   * From the opening quote at `s.current`, a closed string: it ends at the
   * first quote after the opening one and emits STRING whose literal is the
   * text strictly between the quotes and whose lexeme is the quoted text
   * (empty for ""), at the line where the string ends.
   */
  predicate ClosedString(s: Scanner, r: Scanner) {
    && s.Valid() && r == s.(current := r.current, line := r.line, tokens := r.tokens)
    && s.current + 1 < r.current <= |s.source|
    && s.source[r.current - 1] == '"'
    && (forall k | s.current + 1 <= k < r.current - 1 :: s.source[k] != '"')
    && LineTracks(s, r)
    && var text := s.source[s.current + 1..r.current - 1];
       r.tokens == s.tokens + [Token(String, if text == "" then "" else s.source[s.current..r.current], Str(text), r.line)]
  }

  /**
   * From the opening quote at `s.current`, an unterminated string: the rest
   * of the input is consumed, no token is emitted, and "Unterminated string."
   * is reported once, at the line reached.
   */
  predicate UnterminatedString(s: Scanner, r: Scanner) {
    && s.Valid() && r == s.(current := r.current, line := r.line, errors := r.errors)
    && r.current == |s.source|
    && LineTracks(s, r)
    && r.errors == s.errors + [Diagnostic(r.line, "Unterminated string.")]
  }

  lemma StringAfterQuote(s: Scanner)
    requires s.ReadyForToken() && s.source[s.current] == '"'
    ensures QuoteFrom(s.source, s.current + 1) ==> ClosedString(s, ScanString(s.(current := s.current + 1)))
    ensures !QuoteFrom(s.source, s.current + 1) ==> UnterminatedString(s, ScanString(s.(current := s.current + 1)))
  {
    assert NewlinesBefore(s.source, s.current + 1) == NewlinesBefore(s.source, s.current);
  }

  /** A '"' whose closing quote exists scans a `ClosedString`. */
  lemma ClosedStringToken(s: Scanner)
    requires s.ReadyForToken() && s.source[s.current] == '"' && QuoteFrom(s.source, s.current + 1)
    ensures ClosedString(s, ScanToken(s))
  {
    StringDispatch(s);
    StringAfterQuote(s);
  }

  lemma ClosedStringStep(s: Scanner)
    requires s.ReadyForToken() && s.source[s.current] == '"' && QuoteFrom(s.source, s.current + 1)
    ensures TokenStep(s, ScanToken(s))
  {
    ClosedStringToken(s);
    var r := ScanToken(s);
    EmitStep(s, r, r.tokens[|s.tokens|]);
  }

  /** A '"' with no closing quote scans an `UnterminatedString`. */
  lemma UnterminatedStringToken(s: Scanner)
    requires s.ReadyForToken() && s.source[s.current] == '"' && !QuoteFrom(s.source, s.current + 1)
    ensures UnterminatedString(s, ScanToken(s))
  {
    StringDispatch(s);
    StringAfterQuote(s);
  }

  lemma UnterminatedStringStep(s: Scanner)
    requires s.ReadyForToken() && s.source[s.current] == '"' && !QuoteFrom(s.source, s.current + 1)
    ensures TokenStep(s, ScanToken(s))
  {
    UnterminatedStringToken(s);
    var r := ScanToken(s);
    ReportStep(s, r, Diagnostic(r.line, "Unterminated string."));
  }

  /** A numeral: a digit run, optionally followed by '.' and another digit run. */
  predicate IsNumeral(t: string) {
    || (|t| > 0 && AllDigits(t))
    || (exists d | 0 < d < |t| - 1 :: t[d] == '.' && AllDigits(t[..d]) && AllDigits(t[d + 1..]))
  }

  /** A non-empty run of digits is a numeral. */
  lemma WholeNumeral(src: string, i: nat, j: nat)
    requires i < j <= |src|
    requires forall k | i <= k < j :: IsDigit(src[k])
    ensures IsNumeral(src[i..j]) && '.' !in src[i..j]
  {
    assert AllDigits(src[i..j]);
  }

  /** Two non-empty digit runs joined by one '.' make a numeral. */
  lemma FractionNumeral(src: string, i: nat, a: nat, j: nat)
    requires i < a && a + 1 < j <= |src| && src[a] == '.'
    requires forall k | i <= k < a :: IsDigit(src[k])
    requires forall k | a < k < j :: IsDigit(src[k])
    ensures IsNumeral(src[i..j])
  {
    var t := src[i..j];
    var d := a - i;
    assert t[..d] == src[i..a];
    assert t[d + 1..] == src[a + 1..j];
    assert AllDigits(t[..d]) && AllDigits(t[d + 1..]);
    assert t[d] == '.';
  }

  /**
   * What `number` consumes after the first digit at `s.start`: the rest of
   * the longest numeral there, with a '.' only when a digit follows it.
   */
  lemma NumberShape(s: Scanner)
    requires s.Valid() && s.start + 1 == s.current && IsDigit(s.source[s.start])
    ensures var r := NumberEnd(s);
      var numeral := s.source[s.start..r.current];
      && IsNumeral(numeral)
      && (r.IsAtEnd() || !IsDigit(s.source[r.current]))
      && ('.' !in numeral ==>
            !(r.current + 1 < |s.source| && s.source[r.current] == '.' && IsDigit(s.source[r.current + 1])))
  {
    var d1 := SkipWhile(s, IsDigit);
    if Peek(d1) == '.' && IsDigit(PeekNext(d1)) {
      var d2 := SkipWhile(Advance(d1).0, IsDigit);
      assert NumberEnd(s) == d2;
      FractionNumeral(s.source, s.start, d1.current, d2.current);
    } else {
      assert NumberEnd(s) == d1;
      WholeNumeral(s.source, s.start, d1.current);
    }
  }

  /**
   * From a digit at `s.current`, a number: the longest numeral there is
   * taken, where a '.' is consumed only when a digit follows it and only
   * once. NUMBER is emitted with the numeral as its literal; the lexeme is
   * the numeral unless its value is zero.
   */
  predicate NumberLexeme(s: Scanner, r: Scanner) {
    && s.Valid() && r == s.(current := r.current, tokens := r.tokens)
    && s.current < r.current <= |s.source|
    && NewlinesBefore(s.source, r.current) == NewlinesBefore(s.source, s.current)
    && var numeral := s.source[s.current..r.current];
    && IsNumeral(numeral)
    && (r.IsAtEnd() || !IsDigit(s.source[r.current]))
    && ('.' !in numeral ==>
          !(r.current + 1 < |s.source| && s.source[r.current] == '.' && IsDigit(s.source[r.current + 1])))
    && r.tokens == s.tokens + [Token(Number, if Truthy(Num(numeral)) then numeral else "", Num(numeral), s.line)]
  }

  lemma NumberAfterDigit(s: Scanner)
    requires s.ReadyForToken() && IsDigit(s.source[s.current])
    ensures NumberLexeme(s, ScanNumber(s.(current := s.current + 1)))
  {
    var s1 := s.(current := s.current + 1);
    NumberShape(s1);
    assert ScanNumber(s1).current == NumberEnd(s1).current;
    assert NewlinesBefore(s.source, s1.current) == NewlinesBefore(s.source, s.current);
  }

  /** A digit scans a `NumberLexeme`. */
  lemma NumberToken(s: Scanner)
    requires s.ReadyForToken() && IsDigit(s.source[s.current])
    ensures NumberLexeme(s, ScanToken(s))
  {
    NumberDispatch(s);
    NumberAfterDigit(s);
  }

  lemma NumberStep(s: Scanner)
    requires s.ReadyForToken() && IsDigit(s.source[s.current])
    ensures TokenStep(s, ScanToken(s))
  {
    NumberToken(s);
    var r := ScanToken(s);
    EmitStep(s, r, r.tokens[|s.tokens|]);
  }

  /**
   * From a letter or underscore at `s.current`, an identifier: the longest
   * alphanumeric run is taken and classified through the reserved-word
   * table, with an empty lexeme.
   */
  predicate IdentifierLexeme(s: Scanner, r: Scanner) {
    && s.Valid() && r == s.(current := r.current, tokens := r.tokens)
    && s.current < r.current <= |s.source|
    && NewlinesBefore(s.source, r.current) == NewlinesBefore(s.source, s.current)
    && var text := s.source[s.current..r.current];
    && IsAlpha(text[0])
    && (forall k | 0 <= k < |text| :: IsAlphaNumeric(text[k]))
    && (r.IsAtEnd() || !IsAlphaNumeric(s.source[r.current]))
    && r.tokens == s.tokens + [Token(IdentifierType(text), "", NoLiteral, s.line)]
  }

  lemma IdentifierAfterLetter(s: Scanner)
    requires s.ReadyForToken() && IsAlpha(s.source[s.current])
    ensures IdentifierLexeme(s, ScanIdentifier(s.(current := s.current + 1)))
  {
    assert NewlinesBefore(s.source, s.current + 1) == NewlinesBefore(s.source, s.current);
  }

  /** A letter or underscore scans an `IdentifierLexeme`. */
  lemma IdentifierToken(s: Scanner)
    requires s.ReadyForToken() && IsAlpha(s.source[s.current])
    ensures IdentifierLexeme(s, ScanToken(s))
  {
    IdentifierDispatch(s);
    IdentifierAfterLetter(s);
  }

  lemma IdentifierStep(s: Scanner)
    requires s.ReadyForToken() && IsAlpha(s.source[s.current])
    ensures TokenStep(s, ScanToken(s))
  {
    IdentifierToken(s);
    var r := ScanToken(s);
    EmitStep(s, r, r.tokens[|s.tokens|]);
  }

  /**
   * Any other character is consumed alone and reported once as unexpected;
   * no token is emitted and scanning goes on.
   */
  lemma UnexpectedStep(s: Scanner)
    requires s.ReadyForToken() && !Recognised(s.source[s.current])
    ensures ScanToken(s) == s.(current := s.current + 1,
      errors := s.errors + [Diagnostic(s.line, UnexpectedMessage(s.source[s.current]))])
    ensures TokenStep(s, ScanToken(s))
  {
    var c := s.source[s.current];
    assert c != '\n';
    assert NewlinesBefore(s.source, s.current + 1) == NewlinesBefore(s.source, s.current);
    ReportStep(s, ScanToken(s), Diagnostic(s.line, UnexpectedMessage(c)));
  }

  /** Every call of `scan_token` is a `TokenStep`, whatever the next character is. */
  lemma ScanTokenStep(s: Scanner)
    requires s.ReadyForToken()
    ensures TokenStep(s, ScanToken(s))
  {
    var c := s.source[s.current];
    if c in " \r\t\n" {
      IgnoredStep(s);
    } else if IsPunctuation(c) {
      PunctuationStep(s);
    } else if IsOperatorStart(c) {
      OperatorStep(s);
    } else if c == '/' {
      if NextTwo(s, '/', '/') {
        CommentStep(s);
      } else {
        SlashStep(s);
      }
    } else if c == '"' {
      if QuoteFrom(s.source, s.current + 1) {
        ClosedStringStep(s);
      } else {
        UnterminatedStringStep(s);
      }
    } else if IsDigit(c) {
      NumberStep(s);
    } else if IsAlpha(c) {
      IdentifierStep(s);
    } else {
      UnexpectedStep(s);
    }
  }
}
