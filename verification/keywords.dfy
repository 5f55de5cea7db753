/** The reserved-word table and the identifier classification built on it. */
module Keywords {
  import opened Chars
  import opened Tokens

  /** `Scanner.keywords`: the sixteen reserved spellings. */
  const Reserved: map<string, TokenType> := map[
    "and" := And,
    "class" := Class,
    "else" := Else,
    "false" := False,
    "for" := For,
    "fun" := Fun,
    "if" := If,
    "nil" := Nil,
    "or" := Or,
    "print" := Print,
    "return" := Return,
    "super" := Super,
    "this" := This,
    "true" := True,
    "var" := Var,
    "while" := While
  ]

  /** The token types that stand for reserved words. */
  predicate IsKeyword(t: TokenType) {
    t.And? || t.Class? || t.Else? || t.False? || t.Fun? || t.For? || t.If? || t.Nil?
    || t.Or? || t.Print? || t.Return? || t.Super? || t.This? || t.True? || t.Var? || t.While?
  }

  /**
   * The type of an identifier-shaped lexeme: the table's entry on an exact
   * match, otherwise IDENTIFIER (every table entry is a truthy enum member,
   * so the `if not token` fallback fires only on a miss).
   */
  function IdentifierType(text: string): (t: TokenType)
    ensures t == Identifier || IsKeyword(t)
  {
    if text in Reserved then Reserved[text] else Identifier
  }
}

/** What the reserved-word table says about identifier classification. */
module KeywordFacts {
  import opened Chars
  import opened Tokens
  import opened Keywords

  // The facts below are split into small groups: concrete lookups in a
  // sixteen-entry string map are costly for the solver.

  /** The lower-cased enumeration names of the reserved words, two at a time. */

  lemma LowerNamesA()
    ensures ToLower(TypeName(And)) == "and" && ToLower(TypeName(Class)) == "class"
  {
    assert TypeName(And) == "AND";
    assert ToLower("AND") == "and";
    assert TypeName(Class) == "CLASS";
    assert ToLower("CLASS") == "class";
  }

  lemma LowerNamesB()
    ensures ToLower(TypeName(Else)) == "else" && ToLower(TypeName(False)) == "false"
  {
    assert TypeName(Else) == "ELSE";
    assert ToLower("ELSE") == "else";
    assert TypeName(False) == "FALSE";
    assert ToLower("FALSE") == "false";
  }

  lemma LowerNamesC()
    ensures ToLower(TypeName(For)) == "for" && ToLower(TypeName(Fun)) == "fun"
  {
    assert TypeName(For) == "FOR";
    assert ToLower("FOR") == "for";
    assert TypeName(Fun) == "FUN";
    assert ToLower("FUN") == "fun";
  }

  lemma LowerNamesD()
    ensures ToLower(TypeName(If)) == "if" && ToLower(TypeName(Nil)) == "nil"
  {
    assert TypeName(If) == "IF";
    assert ToLower("IF") == "if";
    assert TypeName(Nil) == "NIL";
    assert ToLower("NIL") == "nil";
  }

  lemma LowerNamesE()
    ensures ToLower(TypeName(Or)) == "or" && ToLower(TypeName(Print)) == "print"
  {
    assert TypeName(Or) == "OR";
    assert ToLower("OR") == "or";
    assert TypeName(Print) == "PRINT";
    assert ToLower("PRINT") == "print";
  }

  lemma LowerNamesF()
    ensures ToLower(TypeName(Return)) == "return" && ToLower(TypeName(Super)) == "super"
  {
    assert TypeName(Return) == "RETURN";
    assert ToLower("RETURN") == "return";
    assert TypeName(Super) == "SUPER";
    assert ToLower("SUPER") == "super";
  }

  lemma LowerNamesG()
    ensures ToLower(TypeName(This)) == "this" && ToLower(TypeName(True)) == "true"
  {
    assert TypeName(This) == "THIS";
    assert ToLower("THIS") == "this";
    assert TypeName(True) == "TRUE";
    assert ToLower("TRUE") == "true";
  }

  lemma LowerNamesH()
    ensures ToLower(TypeName(Var)) == "var" && ToLower(TypeName(While)) == "while"
  {
    assert TypeName(Var) == "VAR";
    assert ToLower("VAR") == "var";
    assert TypeName(While) == "WHILE";
    assert ToLower("WHILE") == "while";
  }

  /** The table's entries, two at a time. */

  lemma EntriesPartA()
    ensures IdentifierType("and") == And && IdentifierType("class") == Class
  {
  }

  lemma EntriesPartB()
    ensures IdentifierType("else") == Else && IdentifierType("false") == False
  {
  }

  lemma EntriesPartC()
    ensures IdentifierType("for") == For && IdentifierType("fun") == Fun
  {
  }

  lemma EntriesPartD()
    ensures IdentifierType("if") == If && IdentifierType("nil") == Nil
  {
  }

  lemma EntriesPartE()
    ensures IdentifierType("or") == Or && IdentifierType("print") == Print
  {
  }

  lemma EntriesPartF()
    ensures IdentifierType("return") == Return && IdentifierType("super") == Super
  {
  }

  lemma EntriesPartG()
    ensures IdentifierType("this") == This && IdentifierType("true") == True
  {
  }

  lemma EntriesPartH()
    ensures IdentifierType("var") == Var && IdentifierType("while") == While
  {
  }

  /**
   * Soundness of the lookup: a lexeme is classified as a reserved word only
   * when it is exactly that word's enumeration name in lower case.
   */
  lemma KeywordSound(text: string)
    ensures IdentifierType(text) != Identifier ==>
      text == ToLower(TypeName(IdentifierType(text)))
  {
    LowerNamesA();
    LowerNamesB();
    LowerNamesC();
    LowerNamesD();
    LowerNamesE();
    LowerNamesF();
    LowerNamesG();
    LowerNamesH();
  }

  /** Completeness: every reserved word is recognised from that spelling. */
  lemma KeywordComplete(t: TokenType)
    requires IsKeyword(t)
    ensures IdentifierType(ToLower(TypeName(t))) == t
  {
    LowerNamesA();
    LowerNamesB();
    LowerNamesC();
    LowerNamesD();
    LowerNamesE();
    LowerNamesF();
    LowerNamesG();
    LowerNamesH();
    EntriesPartA();
    EntriesPartB();
    EntriesPartC();
    EntriesPartD();
    EntriesPartE();
    EntriesPartF();
    EntriesPartG();
    EntriesPartH();
  }

  /**
   * Matching is case-sensitive: a lexeme with an upper-case letter anywhere
   * is never a reserved word, whatever its lower-case form.
   */
  lemma UpperCaseIsIdentifier(text: string, i: nat)
    requires i < |text| && 'A' <= text[i] <= 'Z'
    ensures IdentifierType(text) == Identifier
  {
    KeywordSound(text);
  }

  /** Matching is exact: a lexeme that merely begins with a reserved word is an identifier. */
  lemma ExactMatchOnly()
    ensures IdentifierType("orchid") == Identifier
    ensures IdentifierType("classy") == Identifier
  {
  }
}
