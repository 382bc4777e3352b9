/**
 * The parser's let-statement test (lib/parser/mod.rs) and four inputs
 * that take the parser down its other paths, parsed.
 *
 * Each token the lexer hands out on an input laid out as one of them
 * (`<Input>Layout`) is known (`<Input>Next<pos>`), so each `next_token`
 * call is known (`<Input>Advance<n>`, between the states
 * `<Input>State<n>` the parse passes through), and so is each statement
 * and the whole program (`<Input>Program`). `<Input>Parse` applies this to
 * the input itself.
 */
module ParserSamples {
  import opened Bytes
  import opened Tokens
  import opened Lexing
  import opened LexerFacts
  import opened LexerSamples
  import opened Ast
  import opened Parsing

  lemma Identifier_foobar()
    ensures IdentifierReady(Token(IDENT("foobar"), Literal(AsciiBytes("foobar"))))
  {
    TextOfBytes("foobar");
  }

  lemma Identifier_x()
    ensures IdentifierReady(Token(IDENT("x"), Literal(AsciiBytes("x"))))
  {
    TextOfBytes("x");
  }

  lemma Identifier_y()
    ensures IdentifierReady(Token(IDENT("y"), Literal(AsciiBytes("y"))))
  {
    TextOfBytes("y");
  }

  /** The parser states met while parsing the `LetStatements` input. */
  const LetStatementsState0 := PState(Token(LET, Literal(AsciiBytes("let"))), Token(IDENT("x"), Literal(AsciiBytes("x"))), 18)
  const LetStatementsState1 := PState(Token(IDENT("x"), Literal(AsciiBytes("x"))), Token(ASSIGN, Literal(AsciiBytes("="))), 20)
  const LetStatementsState2 := PState(Token(ASSIGN, Literal(AsciiBytes("="))), Token(INT(5), Literal(AsciiBytes("5"))), 22)
  const LetStatementsState3 := PState(Token(INT(5), Literal(AsciiBytes("5"))), Token(SEMICOLON, Literal(AsciiBytes(";"))), 23)
  const LetStatementsState4 := PState(Token(SEMICOLON, Literal(AsciiBytes(";"))), Token(LET, Literal(AsciiBytes("let"))), 39)
  const LetStatementsState5 := PState(Token(LET, Literal(AsciiBytes("let"))), Token(IDENT("y"), Literal(AsciiBytes("y"))), 41)
  const LetStatementsState6 := PState(Token(IDENT("y"), Literal(AsciiBytes("y"))), Token(ASSIGN, Literal(AsciiBytes("="))), 43)
  const LetStatementsState7 := PState(Token(ASSIGN, Literal(AsciiBytes("="))), Token(INT(10), Literal(AsciiBytes("10"))), 46)
  const LetStatementsState8 := PState(Token(INT(10), Literal(AsciiBytes("10"))), Token(SEMICOLON, Literal(AsciiBytes(";"))), 47)
  const LetStatementsState9 := PState(Token(SEMICOLON, Literal(AsciiBytes(";"))), Token(LET, Literal(AsciiBytes("let"))), 63)
  const LetStatementsState10 := PState(Token(LET, Literal(AsciiBytes("let"))), Token(IDENT("foobar"), Literal(AsciiBytes("foobar"))), 70)
  const LetStatementsState11 := PState(Token(IDENT("foobar"), Literal(AsciiBytes("foobar"))), Token(ASSIGN, Literal(AsciiBytes("="))), 72)
  const LetStatementsState12 := PState(Token(ASSIGN, Literal(AsciiBytes("="))), Token(INT(838383), Literal(AsciiBytes("838383"))), 79)
  const LetStatementsState13 := PState(Token(INT(838383), Literal(AsciiBytes("838383"))), Token(SEMICOLON, Literal(AsciiBytes(";"))), 80)
  const LetStatementsState14 := PState(Token(SEMICOLON, Literal(AsciiBytes(";"))), Token(EOF, Literal([0])), 90)
  const LetStatementsState15 := PState(Token(EOF, Literal([0])), Token(EOF, Literal([0])), 91)

  lemma LetStatementsDrawn0(x: seq<byte>)
    requires |x| == 89
    ensures Drawn(x, LetStatementsState0)
  {
    Identifier_x();
  }

  lemma LetStatementsDrawn1(x: seq<byte>)
    requires |x| == 89
    ensures Drawn(x, LetStatementsState1)
  {
    Identifier_x();
  }

  lemma LetStatementsDrawn5(x: seq<byte>)
    requires |x| == 89
    ensures Drawn(x, LetStatementsState5)
  {
    Identifier_y();
  }

  lemma LetStatementsDrawn6(x: seq<byte>)
    requires |x| == 89
    ensures Drawn(x, LetStatementsState6)
  {
    Identifier_y();
  }

  lemma LetStatementsDrawn10(x: seq<byte>)
    requires |x| == 89
    ensures Drawn(x, LetStatementsState10)
  {
    Identifier_foobar();
  }

  lemma LetStatementsDrawn11(x: seq<byte>)
    requires |x| == 89
    ensures Drawn(x, LetStatementsState11)
  {
    Identifier_foobar();
  }

  lemma LetStatementsAdvance0(x: seq<byte>)
    requires LetStatementsLayout(x)
    ensures Advance(x, LetStatementsState0) == LetStatementsState1
  {
    LetStatementsNext18(x);
  }

  lemma LetStatementsAdvance1(x: seq<byte>)
    requires LetStatementsLayout(x)
    ensures Advance(x, LetStatementsState1) == LetStatementsState2
  {
    LetStatementsNext20(x);
  }

  lemma LetStatementsAdvance2(x: seq<byte>)
    requires LetStatementsLayout(x)
    ensures Advance(x, LetStatementsState2) == LetStatementsState3
  {
    LetStatementsNext22(x);
  }

  lemma LetStatementsAdvance3(x: seq<byte>)
    requires LetStatementsLayout(x)
    ensures Advance(x, LetStatementsState3) == LetStatementsState4
  {
    LetStatementsNext23(x);
  }

  lemma LetStatementsAdvance4(x: seq<byte>)
    requires LetStatementsLayout(x)
    ensures Advance(x, LetStatementsState4) == LetStatementsState5
  {
    LetStatementsNext39(x);
  }

  lemma LetStatementsAdvance5(x: seq<byte>)
    requires LetStatementsLayout(x)
    ensures Advance(x, LetStatementsState5) == LetStatementsState6
  {
    LetStatementsNext41(x);
  }

  lemma LetStatementsAdvance6(x: seq<byte>)
    requires LetStatementsLayout(x)
    ensures Advance(x, LetStatementsState6) == LetStatementsState7
  {
    LetStatementsNext43(x);
  }

  lemma LetStatementsAdvance7(x: seq<byte>)
    requires LetStatementsLayout(x)
    ensures Advance(x, LetStatementsState7) == LetStatementsState8
  {
    LetStatementsNext46(x);
  }

  lemma LetStatementsAdvance8(x: seq<byte>)
    requires LetStatementsLayout(x)
    ensures Advance(x, LetStatementsState8) == LetStatementsState9
  {
    LetStatementsNext47(x);
  }

  lemma LetStatementsAdvance9(x: seq<byte>)
    requires LetStatementsLayout(x)
    ensures Advance(x, LetStatementsState9) == LetStatementsState10
  {
    LetStatementsNext63(x);
  }

  lemma LetStatementsAdvance10(x: seq<byte>)
    requires LetStatementsLayout(x)
    ensures Advance(x, LetStatementsState10) == LetStatementsState11
  {
    LetStatementsNext70(x);
  }

  lemma LetStatementsAdvance11(x: seq<byte>)
    requires LetStatementsLayout(x)
    ensures Advance(x, LetStatementsState11) == LetStatementsState12
  {
    LetStatementsNext72(x);
  }

  lemma LetStatementsAdvance12(x: seq<byte>)
    requires LetStatementsLayout(x)
    ensures Advance(x, LetStatementsState12) == LetStatementsState13
  {
    LetStatementsNext79(x);
  }

  lemma LetStatementsAdvance13(x: seq<byte>)
    requires LetStatementsLayout(x)
    ensures Advance(x, LetStatementsState13) == LetStatementsState14
  {
    LetStatementsNext80(x);
  }

  lemma LetStatementsAdvance14(x: seq<byte>)
    requires LetStatementsLayout(x)
    ensures Advance(x, LetStatementsState14) == LetStatementsState15
  {
    LexAtEnd(x, 90);
  }

  lemma LetStatementsStart(x: seq<byte>)
    requires LetStatementsLayout(x)
    ensures Start(x, 0) == LetStatementsState0
  {
    LetStatementsNext0(x);
    LetStatementsNext16(x);
  }

  lemma LetStatementsLet0(x: seq<byte>)
    requires LetStatementsLayout(x)
    ensures Drawn(x, LetStatementsState0) && LetStatementAt(x, LetStatementsState0) == Ok(LetOf(Identifier(Token(IDENT("x"), Literal(AsciiBytes("x"))), "x")), LetStatementsState4)
  {
    LetStatementsDrawn0(x);
    LetStatementsAdvance0(x);
    LetStatementsAdvance1(x);
    LetStatementsAdvance2(x);
    LetStatementsAdvance3(x);
    assert SkipToSemicolon(x, LetStatementsState2) == SkipToSemicolon(x, LetStatementsState3);
    assert SkipToSemicolon(x, LetStatementsState3) == SkipToSemicolon(x, LetStatementsState4);
  }

  lemma LetStatementsStatements0(x: seq<byte>)
    requires LetStatementsLayout(x)
    ensures Drawn(x, LetStatementsState0) && StatementsAt(x, LetStatementsState0) == Prepend([LetOf(Identifier(Token(IDENT("x"), Literal(AsciiBytes("x"))), "x"))], StatementsAt(x, LetStatementsState5))
  {
    LetStatementsLet0(x);
    StatementsStep(x, LetStatementsState0);
    LetStatementsAdvance4(x);
  }

  lemma LetStatementsLet5(x: seq<byte>)
    requires LetStatementsLayout(x)
    ensures Drawn(x, LetStatementsState5) && LetStatementAt(x, LetStatementsState5) == Ok(LetOf(Identifier(Token(IDENT("y"), Literal(AsciiBytes("y"))), "y")), LetStatementsState9)
  {
    LetStatementsDrawn5(x);
    LetStatementsAdvance5(x);
    LetStatementsAdvance6(x);
    LetStatementsAdvance7(x);
    LetStatementsAdvance8(x);
    assert SkipToSemicolon(x, LetStatementsState7) == SkipToSemicolon(x, LetStatementsState8);
    assert SkipToSemicolon(x, LetStatementsState8) == SkipToSemicolon(x, LetStatementsState9);
  }

  lemma LetStatementsStatements5(x: seq<byte>)
    requires LetStatementsLayout(x)
    ensures Drawn(x, LetStatementsState5) && StatementsAt(x, LetStatementsState5) == Prepend([LetOf(Identifier(Token(IDENT("y"), Literal(AsciiBytes("y"))), "y"))], StatementsAt(x, LetStatementsState10))
  {
    LetStatementsLet5(x);
    StatementsStep(x, LetStatementsState5);
    LetStatementsAdvance9(x);
  }

  lemma LetStatementsLet10(x: seq<byte>)
    requires LetStatementsLayout(x)
    ensures Drawn(x, LetStatementsState10) && LetStatementAt(x, LetStatementsState10) == Ok(LetOf(Identifier(Token(IDENT("foobar"), Literal(AsciiBytes("foobar"))), "foobar")), LetStatementsState14)
  {
    LetStatementsDrawn10(x);
    LetStatementsAdvance10(x);
    LetStatementsAdvance11(x);
    LetStatementsAdvance12(x);
    LetStatementsAdvance13(x);
    assert SkipToSemicolon(x, LetStatementsState12) == SkipToSemicolon(x, LetStatementsState13);
    assert SkipToSemicolon(x, LetStatementsState13) == SkipToSemicolon(x, LetStatementsState14);
  }

  lemma LetStatementsStatements10(x: seq<byte>)
    requires LetStatementsLayout(x)
    ensures Drawn(x, LetStatementsState10) && StatementsAt(x, LetStatementsState10) == Prepend([LetOf(Identifier(Token(IDENT("foobar"), Literal(AsciiBytes("foobar"))), "foobar"))], StatementsAt(x, LetStatementsState15))
  {
    LetStatementsLet10(x);
    StatementsStep(x, LetStatementsState10);
    LetStatementsAdvance14(x);
  }

  lemma LetStatementsFrom0(x: seq<byte>)
    requires LetStatementsLayout(x)
    ensures Drawn(x, LetStatementsState0) && StatementsAt(x, LetStatementsState0) == Ok([LetOf(Identifier(Token(IDENT("x"), Literal(AsciiBytes("x"))), "x")), LetOf(Identifier(Token(IDENT("y"), Literal(AsciiBytes("y"))), "y")), LetOf(Identifier(Token(IDENT("foobar"), Literal(AsciiBytes("foobar"))), "foobar"))], LetStatementsState15)
  {
    LetStatementsStatements0(x);
    LetStatementsFrom5(x);
    assert [LetOf(Identifier(Token(IDENT("x"), Literal(AsciiBytes("x"))), "x"))] + [LetOf(Identifier(Token(IDENT("y"), Literal(AsciiBytes("y"))), "y")), LetOf(Identifier(Token(IDENT("foobar"), Literal(AsciiBytes("foobar"))), "foobar"))] == [LetOf(Identifier(Token(IDENT("x"), Literal(AsciiBytes("x"))), "x")), LetOf(Identifier(Token(IDENT("y"), Literal(AsciiBytes("y"))), "y")), LetOf(Identifier(Token(IDENT("foobar"), Literal(AsciiBytes("foobar"))), "foobar"))];
  }

  lemma LetStatementsFrom5(x: seq<byte>)
    requires LetStatementsLayout(x)
    ensures Drawn(x, LetStatementsState5) && StatementsAt(x, LetStatementsState5) == Ok([LetOf(Identifier(Token(IDENT("y"), Literal(AsciiBytes("y"))), "y")), LetOf(Identifier(Token(IDENT("foobar"), Literal(AsciiBytes("foobar"))), "foobar"))], LetStatementsState15)
  {
    LetStatementsStatements5(x);
    LetStatementsFrom10(x);
    assert [LetOf(Identifier(Token(IDENT("y"), Literal(AsciiBytes("y"))), "y"))] + [LetOf(Identifier(Token(IDENT("foobar"), Literal(AsciiBytes("foobar"))), "foobar"))] == [LetOf(Identifier(Token(IDENT("y"), Literal(AsciiBytes("y"))), "y")), LetOf(Identifier(Token(IDENT("foobar"), Literal(AsciiBytes("foobar"))), "foobar"))];
  }

  lemma LetStatementsFrom10(x: seq<byte>)
    requires LetStatementsLayout(x)
    ensures Drawn(x, LetStatementsState10) && StatementsAt(x, LetStatementsState10) == Ok([LetOf(Identifier(Token(IDENT("foobar"), Literal(AsciiBytes("foobar"))), "foobar"))], LetStatementsState15)
  {
    LetStatementsStatements10(x);
    assert [LetOf(Identifier(Token(IDENT("foobar"), Literal(AsciiBytes("foobar"))), "foobar"))] + [] == [LetOf(Identifier(Token(IDENT("foobar"), Literal(AsciiBytes("foobar"))), "foobar"))];
  }

  /** Parsing any input laid out as `LetStatements`. */
  lemma LetStatementsProgram(x: seq<byte>)
    requires LetStatementsLayout(x)
    ensures ProgramOf(x) == Ok([LetOf(Identifier(Token(IDENT("x"), Literal(AsciiBytes("x"))), "x")), LetOf(Identifier(Token(IDENT("y"), Literal(AsciiBytes("y"))), "y")), LetOf(Identifier(Token(IDENT("foobar"), Literal(AsciiBytes("foobar"))), "foobar"))], LetStatementsState15)
  {
    LetStatementsStart(x);
    LetStatementsFrom0(x);
  }

  lemma LetStatementsParse()
    ensures ProgramOf(LetStatementsInput) == Ok([LetOf(Identifier(Token(IDENT("x"), Literal(AsciiBytes("x"))), "x")), LetOf(Identifier(Token(IDENT("y"), Literal(AsciiBytes("y"))), "y")), LetOf(Identifier(Token(IDENT("foobar"), Literal(AsciiBytes("foobar"))), "foobar"))], LetStatementsState15)
  {
    LetStatementsInputLayout();
    LetStatementsProgram(LetStatementsInput);
  }

  /** The parser states met while parsing `let = 5;`. */
  const LetWithoutNameState0 := PState(Token(LET, Literal(AsciiBytes("let"))), Token(ASSIGN, Literal(AsciiBytes("="))), 5)

  lemma LetWithoutNameStart(x: seq<byte>)
    requires LetWithoutNameLayout(x)
    ensures Start(x, 0) == LetWithoutNameState0
  {
    LetWithoutNameNext0(x);
    LetWithoutNameNext3(x);
  }

  lemma LetWithoutNameLet0(x: seq<byte>)
    requires LetWithoutNameLayout(x)
    ensures Drawn(x, LetWithoutNameState0) && StatementsAt(x, LetWithoutNameState0) == Fatal(ExpectedIdent(ASSIGN))
  {

  }

  lemma LetWithoutNameFrom0(x: seq<byte>)
    requires LetWithoutNameLayout(x)
    ensures Drawn(x, LetWithoutNameState0) && StatementsAt(x, LetWithoutNameState0) == Fatal(ExpectedIdent(ASSIGN))
  {
    LetWithoutNameLet0(x);
  }

  /** Parsing any input laid out as `LetWithoutName`. */
  lemma LetWithoutNameProgram(x: seq<byte>)
    requires LetWithoutNameLayout(x)
    ensures ProgramOf(x) == Fatal(ExpectedIdent(ASSIGN))
  {
    LetWithoutNameStart(x);
    LetWithoutNameFrom0(x);
  }

  lemma LetWithoutNameParse()
    ensures ProgramOf(LetWithoutNameInput) == Fatal(ExpectedIdent(ASSIGN))
  {
    LetWithoutNameInputLayout();
    LetWithoutNameProgram(LetWithoutNameInput);
  }

  /** The parser states met while parsing `let x 5;`. */
  const LetWithoutAssignState0 := PState(Token(LET, Literal(AsciiBytes("let"))), Token(IDENT("x"), Literal(AsciiBytes("x"))), 5)
  const LetWithoutAssignState1 := PState(Token(IDENT("x"), Literal(AsciiBytes("x"))), Token(INT(5), Literal(AsciiBytes("5"))), 7)

  lemma LetWithoutAssignDrawn0(x: seq<byte>)
    requires |x| == 8
    ensures Drawn(x, LetWithoutAssignState0)
  {
    Identifier_x();
  }

  lemma LetWithoutAssignDrawn1(x: seq<byte>)
    requires |x| == 8
    ensures Drawn(x, LetWithoutAssignState1)
  {
    Identifier_x();
  }

  lemma LetWithoutAssignAdvance0(x: seq<byte>)
    requires LetWithoutAssignLayout(x)
    ensures Advance(x, LetWithoutAssignState0) == LetWithoutAssignState1
  {
    LetWithoutAssignNext5(x);
  }

  lemma LetWithoutAssignStart(x: seq<byte>)
    requires LetWithoutAssignLayout(x)
    ensures Start(x, 0) == LetWithoutAssignState0
  {
    LetWithoutAssignNext0(x);
    LetWithoutAssignNext3(x);
  }

  lemma LetWithoutAssignLet0(x: seq<byte>)
    requires LetWithoutAssignLayout(x)
    ensures Drawn(x, LetWithoutAssignState0) && StatementsAt(x, LetWithoutAssignState0) == Fatal(ExpectedAssign(INT(5)))
  {
    LetWithoutAssignDrawn0(x);
    LetWithoutAssignNext5(x);
  }

  lemma LetWithoutAssignFrom0(x: seq<byte>)
    requires LetWithoutAssignLayout(x)
    ensures Drawn(x, LetWithoutAssignState0) && StatementsAt(x, LetWithoutAssignState0) == Fatal(ExpectedAssign(INT(5)))
  {
    LetWithoutAssignLet0(x);
  }

  /** Parsing any input laid out as `LetWithoutAssign`. */
  lemma LetWithoutAssignProgram(x: seq<byte>)
    requires LetWithoutAssignLayout(x)
    ensures ProgramOf(x) == Fatal(ExpectedAssign(INT(5)))
  {
    LetWithoutAssignStart(x);
    LetWithoutAssignFrom0(x);
  }

  lemma LetWithoutAssignParse()
    ensures ProgramOf(LetWithoutAssignInput) == Fatal(ExpectedAssign(INT(5)))
  {
    LetWithoutAssignInputLayout();
    LetWithoutAssignProgram(LetWithoutAssignInput);
  }

  /** The parser states met while parsing `let x = 5`. */
  const LetWithoutSemicolonState0 := PState(Token(LET, Literal(AsciiBytes("let"))), Token(IDENT("x"), Literal(AsciiBytes("x"))), 5)
  const LetWithoutSemicolonState1 := PState(Token(IDENT("x"), Literal(AsciiBytes("x"))), Token(ASSIGN, Literal(AsciiBytes("="))), 7)
  const LetWithoutSemicolonState2 := PState(Token(ASSIGN, Literal(AsciiBytes("="))), Token(INT(5), Literal(AsciiBytes("5"))), 9)
  const LetWithoutSemicolonState3 := PState(Token(INT(5), Literal(AsciiBytes("5"))), Token(EOF, Literal([0])), 10)
  const LetWithoutSemicolonState4 := PState(Token(EOF, Literal([0])), Token(EOF, Literal([0])), 11)

  lemma LetWithoutSemicolonDrawn0(x: seq<byte>)
    requires |x| == 9
    ensures Drawn(x, LetWithoutSemicolonState0)
  {
    Identifier_x();
  }

  lemma LetWithoutSemicolonDrawn1(x: seq<byte>)
    requires |x| == 9
    ensures Drawn(x, LetWithoutSemicolonState1)
  {
    Identifier_x();
  }

  lemma LetWithoutSemicolonAdvance0(x: seq<byte>)
    requires LetWithoutSemicolonLayout(x)
    ensures Advance(x, LetWithoutSemicolonState0) == LetWithoutSemicolonState1
  {
    LetWithoutSemicolonNext5(x);
  }

  lemma LetWithoutSemicolonAdvance1(x: seq<byte>)
    requires LetWithoutSemicolonLayout(x)
    ensures Advance(x, LetWithoutSemicolonState1) == LetWithoutSemicolonState2
  {
    LetWithoutSemicolonNext7(x);
  }

  lemma LetWithoutSemicolonAdvance2(x: seq<byte>)
    requires LetWithoutSemicolonLayout(x)
    ensures Advance(x, LetWithoutSemicolonState2) == LetWithoutSemicolonState3
  {
    LetWithoutSemicolonNext9(x);
  }

  lemma LetWithoutSemicolonAdvance3(x: seq<byte>)
    requires LetWithoutSemicolonLayout(x)
    ensures Advance(x, LetWithoutSemicolonState3) == LetWithoutSemicolonState4
  {
    LexAtEnd(x, 10);
  }

  lemma LetWithoutSemicolonStart(x: seq<byte>)
    requires LetWithoutSemicolonLayout(x)
    ensures Start(x, 0) == LetWithoutSemicolonState0
  {
    LetWithoutSemicolonNext0(x);
    LetWithoutSemicolonNext3(x);
  }

  lemma LetWithoutSemicolonLet0(x: seq<byte>)
    requires LetWithoutSemicolonLayout(x)
    ensures Drawn(x, LetWithoutSemicolonState0) && LetStatementAt(x, LetWithoutSemicolonState0) == Diverges
  {
    LetWithoutSemicolonDrawn0(x);
    LetWithoutSemicolonAdvance0(x);
    LetWithoutSemicolonAdvance1(x);
    LetWithoutSemicolonAdvance2(x);
    LetWithoutSemicolonAdvance3(x);
    assert SkipToSemicolon(x, LetWithoutSemicolonState2) == SkipToSemicolon(x, LetWithoutSemicolonState3);
    assert SkipToSemicolon(x, LetWithoutSemicolonState3) == SkipToSemicolon(x, LetWithoutSemicolonState4);
  }

  lemma LetWithoutSemicolonStatements0(x: seq<byte>)
    requires LetWithoutSemicolonLayout(x)
    ensures Drawn(x, LetWithoutSemicolonState0) && StatementsAt(x, LetWithoutSemicolonState0) == Diverges
  {
    LetWithoutSemicolonLet0(x);
  }

  lemma LetWithoutSemicolonFrom0(x: seq<byte>)
    requires LetWithoutSemicolonLayout(x)
    ensures Drawn(x, LetWithoutSemicolonState0) && StatementsAt(x, LetWithoutSemicolonState0) == Diverges
  {
    LetWithoutSemicolonStatements0(x);
  }

  /** Parsing any input laid out as `LetWithoutSemicolon`. */
  lemma LetWithoutSemicolonProgram(x: seq<byte>)
    requires LetWithoutSemicolonLayout(x)
    ensures ProgramOf(x) == Diverges
  {
    LetWithoutSemicolonStart(x);
    LetWithoutSemicolonFrom0(x);
  }

  lemma LetWithoutSemicolonParse()
    ensures ProgramOf(LetWithoutSemicolonInput) == Diverges
  {
    LetWithoutSemicolonInputLayout();
    LetWithoutSemicolonProgram(LetWithoutSemicolonInput);
  }

  /** The parser states met while parsing `return 5;`. */
  const ReturnFiveState0 := PState(Token(RETURN, Literal(AsciiBytes("return"))), Token(INT(5), Literal(AsciiBytes("5"))), 8)
  const ReturnFiveState1 := PState(Token(INT(5), Literal(AsciiBytes("5"))), Token(SEMICOLON, Literal(AsciiBytes(";"))), 9)
  const ReturnFiveState2 := PState(Token(SEMICOLON, Literal(AsciiBytes(";"))), Token(EOF, Literal([0])), 10)
  const ReturnFiveState3 := PState(Token(EOF, Literal([0])), Token(EOF, Literal([0])), 11)

  lemma ReturnFiveAdvance0(x: seq<byte>)
    requires ReturnFiveLayout(x)
    ensures Advance(x, ReturnFiveState0) == ReturnFiveState1
  {
    ReturnFiveNext8(x);
  }

  lemma ReturnFiveAdvance1(x: seq<byte>)
    requires ReturnFiveLayout(x)
    ensures Advance(x, ReturnFiveState1) == ReturnFiveState2
  {
    ReturnFiveNext9(x);
  }

  lemma ReturnFiveAdvance2(x: seq<byte>)
    requires ReturnFiveLayout(x)
    ensures Advance(x, ReturnFiveState2) == ReturnFiveState3
  {
    LexAtEnd(x, 10);
  }

  lemma ReturnFiveStart(x: seq<byte>)
    requires ReturnFiveLayout(x)
    ensures Start(x, 0) == ReturnFiveState0
  {
    ReturnFiveNext0(x);
    ReturnFiveNext6(x);
  }

  lemma ReturnFiveStatements0(x: seq<byte>)
    requires ReturnFiveLayout(x)
    ensures Drawn(x, ReturnFiveState0) && StatementsAt(x, ReturnFiveState0) == Prepend([ReturnStatement], StatementsAt(x, ReturnFiveState1))
  {
    StatementsStep(x, ReturnFiveState0);
    ReturnFiveAdvance0(x);
  }

  lemma ReturnFiveStatements1(x: seq<byte>)
    requires ReturnFiveLayout(x)
    ensures Drawn(x, ReturnFiveState1) && StatementsAt(x, ReturnFiveState1) == Prepend([ExpressionStatement], StatementsAt(x, ReturnFiveState2))
  {
    StatementsStep(x, ReturnFiveState1);
    ReturnFiveAdvance1(x);
  }

  lemma ReturnFiveStatements2(x: seq<byte>)
    requires ReturnFiveLayout(x)
    ensures Drawn(x, ReturnFiveState2) && StatementsAt(x, ReturnFiveState2) == Prepend([ExpressionStatement], StatementsAt(x, ReturnFiveState3))
  {
    StatementsStep(x, ReturnFiveState2);
    ReturnFiveAdvance2(x);
  }

  lemma ReturnFiveFrom0(x: seq<byte>)
    requires ReturnFiveLayout(x)
    ensures Drawn(x, ReturnFiveState0) && StatementsAt(x, ReturnFiveState0) == Ok([ReturnStatement, ExpressionStatement, ExpressionStatement], ReturnFiveState3)
  {
    ReturnFiveStatements0(x);
    ReturnFiveFrom1(x);
    assert [ReturnStatement] + [ExpressionStatement, ExpressionStatement] == [ReturnStatement, ExpressionStatement, ExpressionStatement];
  }

  lemma ReturnFiveFrom1(x: seq<byte>)
    requires ReturnFiveLayout(x)
    ensures Drawn(x, ReturnFiveState1) && StatementsAt(x, ReturnFiveState1) == Ok([ExpressionStatement, ExpressionStatement], ReturnFiveState3)
  {
    ReturnFiveStatements1(x);
    ReturnFiveFrom2(x);
    assert [ExpressionStatement] + [ExpressionStatement] == [ExpressionStatement, ExpressionStatement];
  }

  lemma ReturnFiveFrom2(x: seq<byte>)
    requires ReturnFiveLayout(x)
    ensures Drawn(x, ReturnFiveState2) && StatementsAt(x, ReturnFiveState2) == Ok([ExpressionStatement], ReturnFiveState3)
  {
    ReturnFiveStatements2(x);
    assert [ExpressionStatement] + [] == [ExpressionStatement];
  }

  /** Parsing any input laid out as `ReturnFive`. */
  lemma ReturnFiveProgram(x: seq<byte>)
    requires ReturnFiveLayout(x)
    ensures ProgramOf(x) == Ok([ReturnStatement, ExpressionStatement, ExpressionStatement], ReturnFiveState3)
  {
    ReturnFiveStart(x);
    ReturnFiveFrom0(x);
  }

  lemma ReturnFiveParse()
    ensures ProgramOf(ReturnFiveInput) == Ok([ReturnStatement, ExpressionStatement, ExpressionStatement], ReturnFiveState3)
  {
    ReturnFiveInputLayout();
    ReturnFiveProgram(ReturnFiveInput);
  }

}
