/**
 * The Lox scanner as a state machine over an immutable state record.
 * Each operation of the scanner object becomes a function from state to
 * state; error reports to the host are appended to a diagnostics list.
 */
module Scanning {
  import opened Chars
  import opened Tokens
  import opened Keywords

  /** One report to the host's error sink: a line and a message. */
  datatype Diagnostic = Diagnostic(line: int, message: string)

  /**
   * The scanner's state: the source, the cursors `start` (first character of
   * the lexeme being scanned) and `current` (next unread character), the line
   * counter, and everything emitted so far.
   */
  datatype Scanner = Scanner(
    source: string,
    start: nat,
    current: nat,
    line: int,
    tokens: seq<Token>,
    errors: seq<Diagnostic>)
  {
    /** The cursor invariant: 0 <= start <= current <= |source|. */
    predicate Valid() {
      start <= current <= |source|
    }

    /** `is_at_end`. */
    predicate IsAtEnd() {
      current >= |source|
    }

    /** The state in which `scan_token` is entered: a fresh lexeme at an unread character. */
    predicate ReadyForToken() {
      start == current < |source|
    }
  }

  /** The state the constructor builds: both cursors at 0, line 1, nothing emitted. */
  function Init(source: string): Scanner {
    Scanner(source, 0, 0, 1, [], [])
  }

  /** How many of the first `k` characters of `source` are newlines. */
  function NewlinesBefore(source: string, k: nat): nat
    requires k <= |source|
  {
    if k == 0 then 0
    else NewlinesBefore(source, k - 1) + (if source[k - 1] == '\n' then 1 else 0)
  }

  /**
   * Going from `s` to `r`, the line counter rose by exactly the number of
   * newlines between the two cursors.
   */
  predicate LineTracks(s: Scanner, r: Scanner)
    requires s.Valid() && r.Valid() && r.source == s.source
  {
    r.line - NewlinesBefore(r.source, r.current) == s.line - NewlinesBefore(s.source, s.current)
  }

  // ---------------------------------------------------------------------
  // Cursor primitives
  // ---------------------------------------------------------------------

  /** `advance`: consume and return the next character. */
  function Advance(s: Scanner): (r: (Scanner, char))
    requires s.Valid() && !s.IsAtEnd()
    ensures r.0.Valid() && r.0 == s.(current := s.current + 1)
    ensures r.1 == r.0.source[r.0.current - 1]
  {
    (s.(current := s.current + 1), s.source[s.current])
  }

  /**
   * `advance` leaves the line counter alone, so it keeps `LineTracks` exactly
   * when the character it passes is not a newline; `string` and `scan_token`
   * count those themselves.
   */
  lemma AdvanceKeepsLine(s: Scanner)
    requires s.Valid() && !s.IsAtEnd()
    ensures LineTracks(s, Advance(s).0) <==> Advance(s).1 != '\n'
  {
  }

  /**
   * `match`: consume the next character only if it is `expected`; never moves
   * past the end of the input.
   */
  function Match(s: Scanner, expected: char): (r: (Scanner, bool))
    requires s.Valid()
    ensures r.0.Valid()
    ensures r.1 <==> s.current < |s.source| && s.source[s.current] == expected
    ensures r.0 == s.(current := if r.1 then s.current + 1 else s.current)
  {
    if s.IsAtEnd() then (s, false)
    else if s.source[s.current] != expected then (s, false)
    else (s.(current := s.current + 1), true)
  }

  /** `peek`: the next character, or NUL at the end of the input. */
  function Peek(s: Scanner): char
    requires s.Valid()
  {
    if s.IsAtEnd() then '\0' else s.source[s.current]
  }

  /** `peek_next`: the character after the next one, or NUL past the end. */
  function PeekNext(s: Scanner): char
    requires s.Valid()
  {
    if s.current + 1 >= |s.source| then '\0' else s.source[s.current + 1]
  }

  /**
   * Consume characters of the class `p` until one outside it or the end of
   * the input. This is the comment loop of `scan_token`, which tests the end
   * explicitly, and the `while p(peek())` loops of `number` and `identifier`,
   * which stop at the end because the NUL `peek` returns there is neither a
   * digit nor alphanumeric.
   */
  function SkipWhile(s: Scanner, p: char -> bool): (r: Scanner)
    requires s.Valid()
    ensures r.Valid() && r == s.(current := r.current)
    ensures s.current <= r.current
    ensures forall k | s.current <= k < r.current :: p(s.source[k])
    ensures r.IsAtEnd() || !p(s.source[r.current])
    ensures !p('\n') ==> NewlinesBefore(s.source, r.current) == NewlinesBefore(s.source, s.current)
    decreases |s.source| - s.current
  {
    if !s.IsAtEnd() && p(Peek(s)) then SkipWhile(Advance(s).0, p) else s
  }

  /**
   * `add_token`: append a token at the current line. Its lexeme is the text
   * of the lexeme only when the literal is truthy, and empty otherwise.
   */
  function AddToken(s: Scanner, tokenType: TokenType, literal: Literal): Scanner
    requires s.Valid()
  {
    var text := if Truthy(literal) then s.source[s.start..s.current] else "";
    s.(tokens := s.tokens + [Token(tokenType, text, literal, s.line)])
  }

  /**
   * The lexeme rule of `add_token`: the new token's lexeme is non-empty
   * exactly when the literal is truthy and the lexeme being scanned is not
   * empty, and it is then that text; the token carries the current line, and
   * nothing but the token list changes.
   */
  lemma AddTokenLexeme(s: Scanner, tokenType: TokenType, literal: Literal)
    requires s.Valid()
    ensures var r := AddToken(s, tokenType, literal);
      && r == s.(tokens := r.tokens)
      && |r.tokens| == |s.tokens| + 1 && r.tokens[..|s.tokens|] == s.tokens
      && var t := r.tokens[|s.tokens|];
      && t.tokenType == tokenType && t.literal == literal && t.line == s.line
      && (t.lexeme != "" <==> Truthy(literal) && s.start < s.current)
      && (t.lexeme != "" ==> t.lexeme == s.source[s.start..s.current])
  {
    var r := AddToken(s, tokenType, literal);
    assert r.tokens[..|s.tokens|] == s.tokens;
  }

  /** Report `message` to the error sink at the current line. */
  function Report(s: Scanner, message: string): Scanner {
    s.(errors := s.errors + [Diagnostic(s.line, message)])
  }

  // ---------------------------------------------------------------------
  // Literals and identifiers
  // ---------------------------------------------------------------------

  /**
   * The loop of `string`: consume up to, but not including, the next double
   * quote or the end of the input, counting every newline consumed.
   */
  function StringBody(s: Scanner): (r: Scanner)
    requires s.Valid()
    ensures r.Valid() && r == s.(current := r.current, line := r.line)
    ensures s.current <= r.current
    ensures forall k | s.current <= k < r.current :: s.source[k] != '"'
    ensures r.IsAtEnd() || s.source[r.current] == '"'
    ensures LineTracks(s, r)
    decreases |s.source| - s.current
  {
    if Peek(s) != '"' && !s.IsAtEnd() then
      var s1 := if Peek(s) == '\n' then s.(line := s.line + 1) else s;
      StringBody(Advance(s1).0)
    else s
  }

  /** A double quote occurs somewhere from index `i` on. */
  predicate QuoteFrom(source: string, i: nat) {
    exists k | i <= k < |source| :: source[k] == '"'
  }

  /**
   * `string`, entered just after the opening quote. A closed string emits
   * STRING whose literal is the text strictly between the quotes; an
   * unterminated one reports once, at the line reached, and emits nothing.
   */
  function ScanString(s: Scanner): (r: Scanner)
    requires s.Valid() && s.start < s.current
    ensures r.Valid() && r.source == s.source && r.start == s.start
    ensures s.current <= r.current
    ensures LineTracks(s, r)
    ensures !QuoteFrom(s.source, s.current) ==>
      && r.current == |s.source|
      && r.tokens == s.tokens
      && r.errors == s.errors + [Diagnostic(r.line, "Unterminated string.")]
    ensures QuoteFrom(s.source, s.current) ==>
      && s.current < r.current
      && s.source[r.current - 1] == '"'
      && (forall k | s.current <= k < r.current - 1 :: s.source[k] != '"')
      && r.errors == s.errors
      && var text := s.source[s.start + 1..r.current - 1];
         r.tokens == s.tokens + [Token(String, if text == "" then "" else s.source[s.start..r.current], Str(text), r.line)]
  {
    var s1 := StringBody(s);
    if s1.IsAtEnd() then
      Report(s1, "Unterminated string.")
    else
      var s2 := Advance(s1).0;
      AddToken(s2, String, Str(s2.source[s2.start + 1..s2.current - 1]))
  }

  /**
   * The cursor movement of `number`, entered just after the first digit: a
   * maximal digit run, then a '.' and a further maximal digit run only if a
   * digit follows the '.'.
   */
  function NumberEnd(s: Scanner): (r: Scanner)
    requires s.Valid()
    ensures r.Valid() && r == s.(current := r.current)
    ensures s.current <= r.current
    ensures NewlinesBefore(s.source, r.current) == NewlinesBefore(s.source, s.current)
  {
    var s1 := SkipWhile(s, IsDigit);
    if Peek(s1) == '.' && IsDigit(PeekNext(s1)) then
      assert NewlinesBefore(s.source, s1.current + 1) == NewlinesBefore(s.source, s1.current);
      SkipWhile(Advance(s1).0, IsDigit)
    else s1
  }

  /** `number`: the numeral `NumberEnd` consumed becomes one NUMBER token. */
  function ScanNumber(s: Scanner): (r: Scanner)
    requires s.Valid()
    ensures r.Valid() && r.source == s.source && r.start == s.start
    ensures r.line == s.line && r.errors == s.errors
    ensures s.current <= r.current
    ensures NewlinesBefore(s.source, r.current) == NewlinesBefore(s.source, s.current)
    ensures var numeral := s.source[s.start..r.current];
      r.tokens == s.tokens + [Token(Number, if Truthy(Num(numeral)) then numeral else "", Num(numeral), s.line)]
  {
    var s2 := NumberEnd(s);
    AddToken(s2, Number, Num(s2.source[s2.start..s2.current]))
  }

  /**
   * `identifier`, entered just after the first character: a maximal
   * alphanumeric run, classified through the reserved-word table.
   */
  function ScanIdentifier(s: Scanner): (r: Scanner)
    requires s.Valid()
    ensures r.Valid() && r.source == s.source && r.start == s.start
    ensures r.line == s.line && r.errors == s.errors
    ensures s.current <= r.current
    ensures forall k | s.current <= k < r.current :: IsAlphaNumeric(s.source[k])
    ensures r.IsAtEnd() || !IsAlphaNumeric(s.source[r.current])
    ensures NewlinesBefore(s.source, r.current) == NewlinesBefore(s.source, s.current)
    ensures r.tokens == s.tokens + [Token(IdentifierType(s.source[s.start..r.current]), "", NoLiteral, s.line)]
  {
    var s1 := SkipWhile(s, IsAlphaNumeric);
    AddToken(s1, IdentifierType(s1.source[s1.start..s1.current]), NoLiteral)
  }

  // ---------------------------------------------------------------------
  // One token, and the whole input
  // ---------------------------------------------------------------------

  /** The ten single-character punctuation marks. */
  predicate IsPunctuation(c: char) {
    c in "(){},.-+;*"
  }

  /** The token type of a punctuation mark. */
  function PunctuationType(c: char): TokenType
    requires IsPunctuation(c)
  {
    if c == '(' then LeftParen
    else if c == ')' then RightParen
    else if c == '{' then LeftBrace
    else if c == '}' then RightBrace
    else if c == ',' then Comma
    else if c == '.' then Dot
    else if c == '-' then Minus
    else if c == '+' then Plus
    else if c == ';' then Semicolon
    else Star
  }

  /** The four characters that may start a one- or two-character operator. */
  predicate IsOperatorStart(c: char) {
    c in "!=<>"
  }

  /** The operator's type, with or without a following '='. */
  function OperatorType(c: char, withEqual: bool): TokenType
    requires IsOperatorStart(c)
  {
    if c == '!' then (if withEqual then BangEqual else Bang)
    else if c == '=' then (if withEqual then EqualEqual else Equal)
    else if c == '<' then (if withEqual then LessEqual else Less)
    else (if withEqual then GreaterEqual else Greater)
  }

  /** The message reported for a character that starts no lexeme. */
  function UnexpectedMessage(c: char): string {
    "Unexpected character: `" + [c] + "`."
  }

  /**
   * `scan_token`: consume one lexeme (or one ignorable character, or one
   * comment). Every call consumes at least one character; what else it does
   * is stated character class by character class in module `TokenSteps`.
   */
  function ScanToken(s: Scanner): (r: Scanner)
    requires s.ReadyForToken()
    ensures r.Valid() && r.source == s.source && r.start == s.start
    ensures s.current < r.current
  {
    var (s1, c) := Advance(s);
    match c
    case ' ' | '\r' | '\t' => s1
    case '\n' => s1.(line := s1.line + 1)
    case '(' | ')' | '{' | '}' | ',' | '.' | '-' | '+' | ';' | '*' =>
      AddToken(s1, PunctuationType(c), NoLiteral)
    case '!' | '=' | '<' | '>' =>
      var (s2, eq) := Match(s1, '=');
      AddToken(s2, OperatorType(c, eq), NoLiteral)
    case '/' =>
      var (s2, comment) := Match(s1, '/');
      // `//` skips to the next newline and leaves it for the next round.
      if comment then SkipWhile(s2, ch => ch != '\n') else AddToken(s2, Slash, NoLiteral)
    case '"' => ScanString(s1)
    case _ =>
      if IsDigit(c) then ScanNumber(s1)
      else if IsAlpha(c) then ScanIdentifier(s1)
      else Report(s1, UnexpectedMessage(c))
  }
}
