/**
 * `scan_tokens`: scan lexemes until the input is exhausted, then append the
 * EOF token. Stated once functionally (`ScanLoop`, `ScanTokens`) and once as
 * the imperative loop of the scanner object (`Tokenize`).
 */
module ScanDriver {
  import opened Tokens
  import opened Scanning
  import opened TokenSteps

  /** The number of newlines in `source`. */
  function CountNewlines(source: string): nat {
    multiset(source)['\n']
  }

  /** The newline count the scanner keeps incrementally agrees with `CountNewlines` on every prefix. */
  lemma {:induction false} NewlinesBeforeCounts(source: string, k: nat)
    requires k <= |source|
    ensures NewlinesBefore(source, k) == CountNewlines(source[..k])
  {
    if k > 0 {
      NewlinesBeforeCounts(source, k - 1);
      assert source[..k] == source[..k - 1] + [source[k - 1]];
    }
  }

  /** Scanning further never un-counts a newline. */
  lemma {:induction false} NewlinesMonotone(source: string, i: nat, j: nat)
    requires i <= j <= |source|
    ensures NewlinesBefore(source, i) <= NewlinesBefore(source, j)
    decreases j - i
  {
    if i < j {
      NewlinesMonotone(source, i, j - 1);
    }
  }

  /**
   * The `while not is_at_end()` loop of `scan_tokens`: each round marks the
   * start of a fresh lexeme and scans one. It stops exactly at the end of
   * the input.
   */
  function ScanLoop(s: Scanner): (r: Scanner)
    requires s.Valid()
    ensures r.Valid() && r.source == s.source && r.current == |s.source|
    ensures s.current <= r.current
    decreases |s.source| - s.current
  {
    if s.IsAtEnd() then s else ScanLoop(ScanToken(s.(start := s.current)))
  }

  /**
   * What the loop from `s` adds: tokens and diagnostics are only appended;
   * the line ends at the newline count of the input; every new token is not
   * EOF, obeys the lexeme rule of `add_token`, and carries a line between the
   * starting and final line, in non-decreasing order; every new diagnostic
   * also carries a line in that range.
   */
  predicate LoopAppends(s: Scanner, r: Scanner)
    requires s.Valid() && r.Valid() && r.source == s.source
  {
    && LineTracks(s, r)
    && s.line <= r.line
    && |s.tokens| <= |r.tokens| && r.tokens[..|s.tokens|] == s.tokens
    && |s.errors| <= |r.errors| && r.errors[..|s.errors|] == s.errors
    && (forall k | |s.tokens| <= k < |r.tokens| ::
         && r.tokens[k].tokenType != Eof
         && (r.tokens[k].lexeme != "" <==> Truthy(r.tokens[k].literal))
         && s.line <= r.tokens[k].line <= r.line)
    && (forall j, k | |s.tokens| <= j < k < |r.tokens| :: r.tokens[j].line <= r.tokens[k].line)
    && (forall k | |s.errors| <= k < |r.errors| :: s.line <= r.errors[k].line <= r.line)
  }

  /** One `scan_token` round followed by the rest of the loop appends as `LoopAppends` says. */
  lemma ComposeRounds(s: Scanner, m: Scanner, r: Scanner)
    requires s.Valid() && m.Valid() && r.Valid() && m.source == s.source && r.source == s.source
    requires TokenStep(s, m) && s.line <= m.line
    requires LoopAppends(m, r)
    ensures LoopAppends(s, r)
  {
    assert r.tokens[..|s.tokens|] == m.tokens[..|s.tokens|];
    assert r.errors[..|s.errors|] == m.errors[..|s.errors|];
    forall k | |s.tokens| <= k < |m.tokens|
      ensures r.tokens[k] == m.tokens[k]
    {
      assert r.tokens[..|m.tokens|][k] == m.tokens[k];
    }
    forall k | |s.errors| <= k < |m.errors|
      ensures r.errors[k] == m.errors[k]
    {
      assert r.errors[..|m.errors|][k] == m.errors[k];
    }
  }

  /** The loop only appends, as `LoopAppends` describes. */
  lemma {:induction false} ScanLoopAppends(s: Scanner)
    requires s.Valid()
    ensures LoopAppends(s, ScanLoop(s))
    decreases |s.source| - s.current
  {
    if s.IsAtEnd() {
      assert s.tokens[..|s.tokens|] == s.tokens;
      assert s.errors[..|s.errors|] == s.errors;
    } else {
      var s0 := s.(start := s.current);
      var m := ScanToken(s0);
      ScanTokenStep(s0);
      NewlinesMonotone(s.source, s.current, m.current);
      ScanLoopAppends(m);
      ComposeRounds(s0, m, ScanLoop(m));
    }
  }

  /**
   * `scan_tokens` on a fresh scanner: the tokens of the loop followed by one
   * EOF token with an empty lexeme, no literal, and the line one past the
   * number of newlines in the input; no earlier token is EOF; lines start at
   * 1 and never decrease; every lexeme is non-empty exactly when its literal
   * is truthy; and every diagnostic is at a line of the input.
   */
  function ScanTokens(source: string): (r: (seq<Token>, seq<Diagnostic>))
    ensures |r.0| >= 1 && r.0[|r.0| - 1] == Token(Eof, "", NoLiteral, 1 + CountNewlines(source))
    ensures forall k | 0 <= k < |r.0| - 1 :: r.0[k].tokenType != Eof
    ensures forall k | 0 <= k < |r.0| :: 1 <= r.0[k].line
    ensures forall j, k | 0 <= j < k < |r.0| :: r.0[j].line <= r.0[k].line
    ensures forall k | 0 <= k < |r.0| :: r.0[k].lexeme != "" <==> Truthy(r.0[k].literal)
    ensures forall d | d in r.1 :: 1 <= d.line <= 1 + CountNewlines(source)
  {
    var s := ScanLoop(Init(source));
    ScanLoopAppends(Init(source));
    NewlinesBeforeCounts(source, |source|);
    assert source[..|source|] == source;
    assert s.line == 1 + CountNewlines(source);
    (s.tokens + [Token(Eof, "", NoLiteral, s.line)], s.errors)
  }

  /**
   * `scan_tokens` as the scanner object runs it: a while loop over a
   * scanner-state variable, returning the token list and the diagnostics
   * reported to the host along the way.
   */
  method Tokenize(source: string) returns (tokens: seq<Token>, errors: seq<Diagnostic>)
    ensures (tokens, errors) == ScanTokens(source)
  {
    var s := Init(source);
    while !s.IsAtEnd()
      invariant s.Valid() && s.source == source
      invariant ScanLoop(s) == ScanLoop(Init(source))
      decreases |s.source| - s.current
    {
      s := s.(start := s.current);
      s := ScanToken(s);
    }
    tokens := s.tokens + [Token(Eof, "", NoLiteral, s.line)];
    errors := s.errors;
  }
}
