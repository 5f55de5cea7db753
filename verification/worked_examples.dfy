/**
 * Whole-input runs of `scan_tokens` on a few small sources, derived from
 * the per-character lemmas.
 */
module WorkedExamples {
  import opened Chars
  import opened Tokens
  import opened Keywords
  import opened KeywordFacts
  import opened Scanning
  import opened TokenSteps
  import opened ScanDriver

  // Each example takes its source as a parameter fixed by `requires`, and
  // walks it token by token through small lemmas: unfolding the scanner on a
  // literal string in one go is costly for the solver.

  lemma NumeralEnd(src: string)
    requires src == "12.5.x"
    ensures NumberEnd(Init(src).(current := 1)) == Init(src).(current := 4)
  {
    var a := Init(src).(current := 1);
    assert SkipWhile(a, IsDigit) == a.(current := 2) by {
      assert SkipWhile(a.(current := 2), IsDigit) == a.(current := 2);
    }
    assert SkipWhile(a.(current := 3), IsDigit) == a.(current := 4) by {
      assert SkipWhile(a.(current := 4), IsDigit) == a.(current := 4);
    }
  }

  lemma NumberPart(src: string)
    requires src == "12.5.x"
    ensures ScanToken(Init(src)) == Init(src).(current := 4, tokens := [Token(Number, "12.5", Num("12.5"), 1)])
  {
    var s := Init(src);
    NumberDispatch(s);
    NumeralEnd(src);
    assert src[0..4] == "12.5";
    assert Truthy(Num("12.5")) by { assert '1' <= "12.5"[0] <= '9'; }
  }

  lemma DotPart(m: Scanner)
    requires m == Init("12.5.x").(start := 4, current := 4, tokens := [Token(Number, "12.5", Num("12.5"), 1)])
    ensures ScanToken(m) == m.(current := 5, tokens := m.tokens + [Token(Dot, "", NoLiteral, 1)])
  {
    PunctuationToken(m);
  }

  lemma IdentifierPart(m: Scanner)
    requires m.source == "12.5.x" && m.start == 5 && m.current == 5 && m.line == 1
    ensures ScanToken(m) == m.(current := 6, tokens := m.tokens + [Token(Identifier, "", NoLiteral, 1)])
  {
    IdentifierDispatch(m);
    var a := m.(current := 6);
    assert SkipWhile(a, IsAlphaNumeric) == a;
    assert "12.5.x"[5..6] == "x";
    assert IdentifierType("x") == Identifier;
  }

  /**
   * `12.5.x`: the number takes "12.5" but not the second '.', which no digit
   * follows; the '.' is then DOT and `x` an identifier.
   */
  lemma NumberDotIdentifier(src: string)
    requires src == "12.5.x"
    ensures ScanTokens(src).0 ==
      [Token(Number, "12.5", Num("12.5"), 1), Token(Dot, "", NoLiteral, 1),
       Token(Identifier, "", NoLiteral, 1), Token(Eof, "", NoLiteral, 1)]
  {
    var s := Init(src);
    NumberPart(src);
    var m1 := ScanToken(s);
    var m1s := m1.(start := 4);
    DotPart(m1s);
    var m2 := ScanToken(m1s);
    var m2s := m2.(start := 5);
    IdentifierPart(m2s);
    var m3 := ScanToken(m2s);
    assert ScanLoop(m2) == m3;
    assert ScanLoop(m1) == m3;
    assert ScanLoop(s) == m3;
  }

  /**
   * An unterminated string spanning a newline: nothing but EOF is emitted,
   * and the one diagnostic carries the line where the input ended.
   */
  lemma UnterminatedAcrossLines(src: string)
    requires src == "\"ab\nc"
    ensures ScanTokens(src) == ([Token(Eof, "", NoLiteral, 2)], [Diagnostic(2, "Unterminated string.")])
  {
    var s := Init(src);
    assert src[1] == 'a' && src[2] == 'b' && src[3] == '\n' && src[4] == 'c';
    assert !QuoteFrom(src, 1);
    UnterminatedStringStep(s);
    var r := ScanToken(s);
    assert NewlinesBefore(src, 3) == 0;
    assert NewlinesBefore(src, 5) == 1;
    assert r.line == 2;
    assert ScanLoop(s) == r;
    assert r.tokens == [] && r.errors == [Diagnostic(2, "Unterminated string.")];
    assert ScanTokens(src) == (r.tokens + [Token(Eof, "", NoLiteral, r.line)], r.errors);
    assert r.tokens + [Token(Eof, "", NoLiteral, r.line)] == [Token(Eof, "", NoLiteral, 2)];
    assert ScanTokens(src).0 == [Token(Eof, "", NoLiteral, 2)];
    assert ScanTokens(src).1 == [Diagnostic(2, "Unterminated string.")];
  }

  lemma OrchidToken(src: string)
    requires src == "orchid"
    ensures ScanToken(Init(src)) == Init(src).(current := 6, tokens := [Token(Identifier, "", NoLiteral, 1)])
  {
    var s := Init(src);
    IdentifierToken(s);
    var r := ScanToken(s);
    assert forall k | 0 <= k < |src| :: IsAlphaNumeric(src[k]);
    assert r.current == 6;
    assert src[0..6] == "orchid";
    ExactMatchOnly();
  }

  /** `orchid` begins with the keyword `or` but is one identifier. */
  lemma KeywordPrefixIsIdentifier(src: string)
    requires src == "orchid"
    ensures ScanTokens(src).0 == [Token(Identifier, "", NoLiteral, 1), Token(Eof, "", NoLiteral, 1)]
  {
    var s := Init(src);
    OrchidToken(src);
    var r := ScanToken(s);
    assert ScanLoop(r) == r;
    assert ScanLoop(s) == r;
  }
}
