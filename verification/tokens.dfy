/** The Lox token vocabulary and the `Token` record with its textual rendering. */
module Tokens {
  import opened Decimal

  /** The closed set of lexical categories. */
  datatype TokenType =
    // Single-character punctuation.
    | LeftParen | RightParen | LeftBrace | RightBrace
    | Comma | Dot | Minus | Plus | Semicolon | Slash | Star
    // One- or two-character operators.
    | Bang | BangEqual | Equal | EqualEqual
    | Greater | GreaterEqual | Less | LessEqual
    // Literals.
    | Identifier | String | Number
    // Reserved words.
    | And | Class | Else | False | Fun | For | If | Nil | Or
    | Print | Return | Super | This | True | Var | While
    // End of input.
    | Eof

  /** The enumeration member's `name`, the vocabulary later stages depend on. */
  function TypeName(t: TokenType): string {
    match t
    case LeftParen => "LEFT_PAREN"
    case RightParen => "RIGHT_PAREN"
    case LeftBrace => "LEFT_BRACE"
    case RightBrace => "RIGHT_BRACE"
    case Comma => "COMMA"
    case Dot => "DOT"
    case Minus => "MINUS"
    case Plus => "PLUS"
    case Semicolon => "SEMICOLON"
    case Slash => "SLASH"
    case Star => "STAR"
    case Bang => "BANG"
    case BangEqual => "BANG_EQUAL"
    case Equal => "EQUAL"
    case EqualEqual => "EQUAL_EQUAL"
    case Greater => "GREATER"
    case GreaterEqual => "GREATER_EQUAL"
    case Less => "LESS"
    case LessEqual => "LESS_EQUAL"
    case Identifier => "IDENTIFIER"
    case String => "STRING"
    case Number => "NUMBER"
    case And => "AND"
    case Class => "CLASS"
    case Else => "ELSE"
    case False => "FALSE"
    case Fun => "FUN"
    case For => "FOR"
    case If => "IF"
    case Nil => "NIL"
    case Or => "OR"
    case Print => "PRINT"
    case Return => "RETURN"
    case Super => "SUPER"
    case This => "THIS"
    case True => "TRUE"
    case Var => "VAR"
    case While => "WHILE"
    case Eof => "EOF"
  }

  /**
   * A token's literal value. A NUMBER literal is kept as the numeral text it
   * was parsed from rather than as a binary floating-point value.
   */
  datatype Literal = NoLiteral | Str(text: string) | Num(numeral: string)

  /**
   * Python truthiness of the literal: `None` and `""` are falsy, and so is a
   * number whose value is zero, that is, one whose digits are all '0'.
   */
  predicate Truthy(l: Literal) {
    match l
    case NoLiteral => false
    case Str(text) => text != ""
    case Num(numeral) => exists i | 0 <= i < |numeral| :: '1' <= numeral[i] <= '9'
  }

  /** A digit run is truthy exactly when the number it denotes is not zero. */
  lemma WholeTruthiness(whole: string)
    requires AllDigits(whole)
    ensures Truthy(Num(whole)) <==> DigitsValue(whole) != 0
  {
    ZeroValue(whole);
  }

  /** Where the characters of `whole` and `fraction` sit in `whole + "." + fraction`. */
  lemma JoinedNumeral(whole: string, fraction: string)
    ensures var t := whole + "." + fraction;
      && |t| == |whole| + 1 + |fraction| && t[|whole|] == '.'
      && (forall i | 0 <= i < |whole| :: t[i] == whole[i])
      && (forall i | 0 <= i < |fraction| :: t[|whole| + 1 + i] == fraction[i])
  {
  }

  /**
   * A numeral with a fraction is truthy exactly when the number it denotes
   * is not zero, that is, when either digit run is not zero.
   */
  lemma FractionTruthiness(whole: string, fraction: string)
    requires AllDigits(whole) && AllDigits(fraction)
    ensures Truthy(Num(whole + "." + fraction)) <==> DigitsValue(whole) != 0 || DigitsValue(fraction) != 0
  {
    ZeroValue(whole);
    ZeroValue(fraction);
    JoinedNumeral(whole, fraction);
    var t := whole + "." + fraction;
    if Truthy(Num(t)) {
      var i :| 0 <= i < |t| && '1' <= t[i] <= '9';
      if i < |whole| {
        assert whole[i] == t[i];
      } else {
        assert fraction[i - |whole| - 1] == t[i];
      }
    }
    if DigitsValue(whole) != 0 {
      var i :| 0 <= i < |whole| && whole[i] != '0';
      assert t[i] == whole[i];
    }
    if DigitsValue(fraction) != 0 {
      var i :| 0 <= i < |fraction| && fraction[i] != '0';
      assert t[|whole| + 1 + i] == fraction[i];
    }
  }

  /** The token record; its constructor stores the four fields unchanged. */
  datatype Token = Token(tokenType: TokenType, lexeme: string, literal: Literal, line: int)

  predicate IsPrefix(p: string, s: string) {
    |p| <= |s| && s[..|p|] == p
  }

  predicate IsSuffix(p: string, s: string) {
    |p| <= |s| && s[|s| - |p|..] == p
  }

  /** The fixed opening of every rendering. */
  function ReprHead(t: Token): string {
    "Token(type: " + TypeName(t.tokenType)
  }

  /** The fixed closing of every rendering. */
  function ReprTail(t: Token): string {
    ", line: " + IntToString(t.line) + ")"
  }

  /** Where the four parts of a concatenation sit in it. */
  lemma ConcatParts(a: string, b: string, c: string, d: string)
    ensures (a + b + c + d)[..|a|] == a
    ensures (a + b + c + d)[|a|..] == b + c + d
    ensures (a + b + c + d)[|a + b + c|..] == d
    ensures (a + b + c + d)[|a + b|..] == c + d
  {
    var r := a + b + c + d;
    assert r == a + (b + c + d);
    assert r == (a + b + c) + d;
    assert r == (a + b) + (c + d);
  }

  /**
   * What follows the head starts like a lexeme segment exactly when there is
   * one: neither a literal segment nor the tail begins that way.
   */
  lemma LexemeMarker(lexeme: string, literalPart: string, tail: string)
    requires literalPart != "" ==> |literalPart| > 3 && literalPart[3] == 'i'
    requires |tail| > 3 && tail[3] == 'i'
    ensures lexeme != "" <==> IsPrefix(", lexeme: '", LexemeSegment(lexeme) + literalPart + tail)
    ensures lexeme != "" ==>
      IsPrefix(", lexeme: '" + lexeme + "'", LexemeSegment(lexeme) + literalPart + tail)
  {
    var rest := LexemeSegment(lexeme) + literalPart + tail;
    if lexeme == "" {
      assert rest == literalPart + tail;
      assert rest[3] == 'i';
    } else {
      assert rest == (", lexeme: '" + lexeme + "'") + (literalPart + tail);
    }
  }

  /** The `, lexeme: '...'` segment: present only for a non-empty lexeme. */
  function LexemeSegment(lexeme: string): string {
    if lexeme != "" then ", lexeme: '" + lexeme + "'" else ""
  }

  /** The `, literal: ...` segment: present only for a truthy literal; strings are quoted. */
  function LiteralSegment(l: Literal, renderNumber: string -> string): string {
    if !Truthy(l) then ""
    else match l
      case Str(text) => ", literal: '" + text + "'"
      case Num(numeral) => ", literal: " + renderNumber(numeral)
      case NoLiteral => ""
  }

  /** The tail's fourth character is the 'i' of "line". */
  lemma TailMarker(t: Token)
    ensures |ReprTail(t)| > 3 && ReprTail(t)[3] == 'i'
  {
    assert ReprTail(t) == ", line: " + (IntToString(t.line) + ")");
  }

  /**
   * A literal segment is present exactly for a truthy literal; its fourth
   * character is the 'i' of "literal", and it is the quoted text or the
   * rendered number.
   */
  lemma LiteralMarker(l: Literal, renderNumber: string -> string)
    ensures var seg := LiteralSegment(l, renderNumber);
      && (seg != "" <==> Truthy(l))
      && (seg != "" ==> |seg| > 3 && seg[3] == 'i')
      && (l.Str? && Truthy(l) ==> seg == ", literal: '" + l.text + "'" && |seg| == |l.text| + 13)
      && (l.Num? && Truthy(l) ==> seg == ", literal: " + renderNumber(l.numeral) && |seg| == |renderNumber(l.numeral)| + 11)
  {
  }

  /** How many characters the lexeme segment of a rendering takes. */
  function LexemeWidth(lexeme: string): nat {
    if lexeme == "" then 0 else |lexeme| + 12
  }

  /**
   * The layout of head, lexeme segment, literal segment and tail, for any
   * head, and for any literal segment and tail that both have 'i' as their
   * fourth character.
   */
  lemma SegmentLayout(head: string, lexeme: string, literalPart: string, tail: string)
    requires literalPart != "" ==> |literalPart| > 3 && literalPart[3] == 'i'
    requires |tail| > 3 && tail[3] == 'i'
    ensures var r := head + LexemeSegment(lexeme) + literalPart + tail;
      && IsPrefix(head, r)
      && IsSuffix(tail, r)
      && IsSuffix(literalPart + tail, r)
      && (lexeme != "" <==> IsPrefix(", lexeme: '", r[|head|..]))
      && (lexeme != "" ==> IsPrefix(", lexeme: '" + lexeme + "'", r[|head|..]))
      && |r| == |head| + LexemeWidth(lexeme) + |literalPart| + |tail|
  {
    var lexemePart := LexemeSegment(lexeme);
    ConcatParts(head, lexemePart, literalPart, tail);
    LexemeMarker(lexeme, literalPart, tail);
  }

  /**
   * The layout `__repr__` produces: the head, then the lexeme segment exactly
   * when the lexeme is non-empty, then the literal segment exactly when the
   * literal is truthy (the text quoted for a string, the rendered number
   * otherwise), then the tail, with nothing in between.
   */
  predicate ReprShape(t: Token, renderNumber: string -> string, r: string) {
    && IsPrefix(ReprHead(t), r)
    && IsSuffix(ReprTail(t), r)
    && (t.lexeme != "" <==> IsPrefix(", lexeme: '", r[|ReprHead(t)|..]))
    && (t.lexeme != "" ==> IsPrefix(", lexeme: '" + t.lexeme + "'", r[|ReprHead(t)|..]))
    && (Truthy(t.literal) <==> |r| > |ReprHead(t)| + LexemeWidth(t.lexeme) + |ReprTail(t)|)
    && (!Truthy(t.literal) ==> |r| == |ReprHead(t)| + LexemeWidth(t.lexeme) + |ReprTail(t)|)
    && (t.literal.Str? && Truthy(t.literal) ==>
          && IsSuffix(", literal: '" + t.literal.text + "'" + ReprTail(t), r)
          && |r| == |ReprHead(t)| + LexemeWidth(t.lexeme) + |t.literal.text| + 13 + |ReprTail(t)|)
    && (t.literal.Num? && Truthy(t.literal) ==>
          && IsSuffix(", literal: " + renderNumber(t.literal.numeral) + ReprTail(t), r)
          && |r| == |ReprHead(t)| + LexemeWidth(t.lexeme) + |renderNumber(t.literal.numeral)| + 11 + |ReprTail(t)|)
  }

  /** Two strings made of the same front, middle and back parts are equal. */
  lemma {:induction false} SameParts(x: string, y: string, front: string, middle: string, back: string)
    requires IsPrefix(front, x) && IsPrefix(front, y)
    requires |x| == |y| == |front| + |middle| + |back|
    requires IsPrefix(middle, x[|front|..]) && IsPrefix(middle, y[|front|..])
    requires IsSuffix(back, x) && IsSuffix(back, y)
    ensures x == y
  {
    forall i | 0 <= i < |x|
      ensures x[i] == y[i]
    {
      if i < |front| {
        assert x[..|front|][i] == y[..|front|][i];
      } else if i < |front| + |middle| {
        assert x[|front|..][..|middle|][i - |front|] == y[|front|..][..|middle|][i - |front|];
      } else {
        assert x[|x| - |back|..][i - (|x| - |back|)] == y[|y| - |back|..][i - (|y| - |back|)];
      }
    }
  }

  /** `ReprShape` leaves no freedom: at most one string has the layout of a token. */
  lemma ReprShapeUnique(t: Token, renderNumber: string -> string, x: string, y: string)
    requires ReprShape(t, renderNumber, x) && ReprShape(t, renderNumber, y)
    ensures x == y
  {
    LiteralMarker(t.literal, renderNumber);
    var back := LiteralSegment(t.literal, renderNumber) + ReprTail(t);
    SameParts(x, y, ReprHead(t), LexemeSegment(t.lexeme), back);
  }

  /**
   * `__repr__`. How a NUMBER literal's float prints is left to `renderNumber`,
   * which receives the numeral text.
   */
  function Repr(t: Token, renderNumber: string -> string): (r: string)
    ensures ReprShape(t, renderNumber, r)
  {
    var head, tail := ReprHead(t), ReprTail(t);
    var literalPart := LiteralSegment(t.literal, renderNumber);
    TailMarker(t);
    LiteralMarker(t.literal, renderNumber);
    SegmentLayout(head, t.lexeme, literalPart, tail);
    var r := head + LexemeSegment(t.lexeme) + literalPart + tail;
    assert IsSuffix(literalPart + tail, r);
    assert |r| == |head| + LexemeWidth(t.lexeme) + |literalPart| + |tail|;
    r
  }
}
