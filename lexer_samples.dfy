/**
 * The inputs of the lexer's unit tests (lib/lexer/mod.rs) and of the
 * parser's let-statement test (lib/parser/mod.rs), lexed.
 *
 * Each input is written line by line, and `<Test>Layout(x)` says that `x`
 * holds those lines at their offsets. Each token is read from a short
 * window of its line that ends in whitespace (`<Test>Lex<pos>`), moved
 * into every input that holds the window (`<Test>At<pos>`), and the
 * stream is put together token by token (`<Test>Step<pos>`), line by line
 * (`<Test>Group<n>`) and whole (`<Test>Tokens`). `<Test>Sample` applies
 * this to the test's own input: the token kinds the test expects, ending
 * in `EOF`, are what successive `next_token` calls return.
 *
 * The let-statement test and four more inputs that the parser samples
 * use also get `<Input>Next<pos>`: the token one call from `<pos>`
 * returns, and where it leaves the cursor.
 */
module LexerSamples {
  import opened Bytes
  import opened Tokens
  import opened Lexing
  import opened LexerFacts
  import opened LexerWindows

  /** `n` spaces, the indentation of a test input's lines. */
  function Spaces(n: nat): (s: seq<byte>)
    ensures |s| == n && forall i :: 0 <= i < n ==> s[i] == ' ' as byte
  {
    seq(n, _ => ' ' as byte)
  }

  lemma Word_add()
    ensures WordToken(AsciiBytes("add")) == Token(IDENT("add"), Literal(AsciiBytes("add")))
  {
    IdentWord("add");
  }

  lemma Word_else()
    ensures WordToken(AsciiBytes("else")) == Token(ELSE, Literal(AsciiBytes("else")))
  {
    KeywordWord(ELSE);
  }

  lemma Word_false()
    ensures WordToken(AsciiBytes("false")) == Token(FALSE, Literal(AsciiBytes("false")))
  {
    KeywordWord(FALSE);
  }

  lemma Word_five()
    ensures WordToken(AsciiBytes("five")) == Token(IDENT("five"), Literal(AsciiBytes("five")))
  {
    IdentWord("five");
  }

  lemma Word_fn()
    ensures WordToken(AsciiBytes("fn")) == Token(FUNCTION, Literal(AsciiBytes("fn")))
  {
    KeywordWord(FUNCTION);
  }

  lemma Word_foobar()
    ensures WordToken(AsciiBytes("foobar")) == Token(IDENT("foobar"), Literal(AsciiBytes("foobar")))
  {
    IdentWord("foobar");
  }

  lemma Word_if()
    ensures WordToken(AsciiBytes("if")) == Token(IF, Literal(AsciiBytes("if")))
  {
    KeywordWord(IF);
  }

  lemma Word_let()
    ensures WordToken(AsciiBytes("let")) == Token(LET, Literal(AsciiBytes("let")))
  {
    KeywordWord(LET);
  }

  lemma Word_result()
    ensures WordToken(AsciiBytes("result")) == Token(IDENT("result"), Literal(AsciiBytes("result")))
  {
    IdentWord("result");
  }

  lemma Word_return()
    ensures WordToken(AsciiBytes("return")) == Token(RETURN, Literal(AsciiBytes("return")))
  {
    KeywordWord(RETURN);
  }

  lemma Word_ten()
    ensures WordToken(AsciiBytes("ten")) == Token(IDENT("ten"), Literal(AsciiBytes("ten")))
  {
    IdentWord("ten");
  }

  lemma Word_true()
    ensures WordToken(AsciiBytes("true")) == Token(TRUE, Literal(AsciiBytes("true")))
  {
    KeywordWord(TRUE);
  }

  lemma Word_x()
    ensures WordToken(AsciiBytes("x")) == Token(IDENT("x"), Literal(AsciiBytes("x")))
  {
    IdentWord("x");
  }

  lemma Word_y()
    ensures WordToken(AsciiBytes("y")) == Token(IDENT("y"), Literal(AsciiBytes("y")))
  {
    IdentWord("y");
  }

  lemma Number_5()
    ensures NumberToken(AsciiBytes("5")) == Token(INT(5), Literal(AsciiBytes("5")))
  {
    NumberWord(5);
    Digits_5();
  }

  lemma Number_9()
    ensures NumberToken(AsciiBytes("9")) == Token(INT(9), Literal(AsciiBytes("9")))
  {
    NumberWord(9);
    Digits_9();
  }

  lemma Number_10()
    ensures NumberToken(AsciiBytes("10")) == Token(INT(10), Literal(AsciiBytes("10")))
  {
    NumberWord(10);
    Digits_10();
  }

  lemma Number_838383()
    ensures NumberToken(AsciiBytes("838383")) == Token(INT(838383), Literal(AsciiBytes("838383")))
  {
    NumberWord(838383);
    Digits_838383();
  }

  lemma Digits_1()
    ensures DecimalDigits(1) == AsciiBytes("1")
  {
  }

  lemma Digits_5()
    ensures DecimalDigits(5) == AsciiBytes("5")
  {
  }

  lemma Digits_8()
    ensures DecimalDigits(8) == AsciiBytes("8")
  {
  }

  lemma Digits_9()
    ensures DecimalDigits(9) == AsciiBytes("9")
  {
  }

  lemma Digits_10()
    ensures DecimalDigits(10) == AsciiBytes("10")
  {
    Digits_1();
    assert AsciiBytes("10") == AsciiBytes("1") + AsciiBytes("0");
  }

  lemma Digits_83()
    ensures DecimalDigits(83) == AsciiBytes("83")
  {
    Digits_8();
    assert AsciiBytes("83") == AsciiBytes("8") + AsciiBytes("3");
  }

  lemma Digits_838()
    ensures DecimalDigits(838) == AsciiBytes("838")
  {
    Digits_83();
    assert AsciiBytes("838") == AsciiBytes("83") + AsciiBytes("8");
  }

  lemma Digits_8383()
    ensures DecimalDigits(8383) == AsciiBytes("8383")
  {
    Digits_838();
    assert AsciiBytes("8383") == AsciiBytes("838") + AsciiBytes("3");
  }

  lemma Digits_83838()
    ensures DecimalDigits(83838) == AsciiBytes("83838")
  {
    Digits_8383();
    assert AsciiBytes("83838") == AsciiBytes("8383") + AsciiBytes("8");
  }

  lemma Digits_838383()
    ensures DecimalDigits(838383) == AsciiBytes("838383")
  {
    Digits_83838();
    assert AsciiBytes("838383") == AsciiBytes("83838") + AsciiBytes("3");
  }

  /** The input of the `Symbols` unit test, line by line; each line is cut after
      each run of whitespace. */
  const SymbolsTile0_0: seq<byte> := AsciiBytes("=+(){},;")
  const SymbolsLine0: seq<byte> := SymbolsTile0_0
  const SymbolsInput: seq<byte> :=
    SymbolsLine0

  /** An input of the length of the `Symbols` input that holds each piece of its lines in place. */
  predicate SymbolsLayout(x: seq<byte>) {
    && |x| == 8
    && Holds(x, SymbolsTile0_0, 0)
  }

  lemma SymbolsHolds0()
    ensures Holds(SymbolsInput, SymbolsLine0, 0)
  {
    HoldsSelf(SymbolsLine0);
  }

  lemma SymbolsInputLayout()
    ensures SymbolsLayout(SymbolsInput)
  {
    SymbolsHolds0();
  }

  lemma SymbolsLex0()
    ensures CharAt(SymbolsTile0_0, SkipEnd(SymbolsTile0_0, 0)) != 0 && Lex(SymbolsTile0_0, 0) == Step(Token(ASSIGN, Literal(AsciiBytes("="))), 1)
  {
    RunEndAt(SymbolsTile0_0, 0, 0, IsWhitespace);
  }

  lemma SymbolsAt0(x: seq<byte>)
    requires Holds(x, SymbolsTile0_0, 0)
    ensures Lex(x, 0) == Step(Token(ASSIGN, Literal(AsciiBytes("="))), 1)
  {
    SymbolsLex0();
    LexWindow(x, SymbolsTile0_0, 0, 0);
  }

  lemma SymbolsLex1()
    ensures CharAt(SymbolsTile0_0, SkipEnd(SymbolsTile0_0, 1)) != 0 && Lex(SymbolsTile0_0, 1) == Step(Token(PLUS, Literal(AsciiBytes("+"))), 2)
  {
    RunEndAt(SymbolsTile0_0, 1, 1, IsWhitespace);
  }

  lemma SymbolsAt1(x: seq<byte>)
    requires Holds(x, SymbolsTile0_0, 0)
    ensures Lex(x, 1) == Step(Token(PLUS, Literal(AsciiBytes("+"))), 2)
  {
    SymbolsLex1();
    LexWindow(x, SymbolsTile0_0, 0, 1);
  }

  lemma SymbolsLex2()
    ensures CharAt(SymbolsTile0_0, SkipEnd(SymbolsTile0_0, 2)) != 0 && Lex(SymbolsTile0_0, 2) == Step(Token(LPAREN, Literal(AsciiBytes("("))), 3)
  {
    RunEndAt(SymbolsTile0_0, 2, 2, IsWhitespace);
  }

  lemma SymbolsAt2(x: seq<byte>)
    requires Holds(x, SymbolsTile0_0, 0)
    ensures Lex(x, 2) == Step(Token(LPAREN, Literal(AsciiBytes("("))), 3)
  {
    SymbolsLex2();
    LexWindow(x, SymbolsTile0_0, 0, 2);
  }

  lemma SymbolsLex3()
    ensures CharAt(SymbolsTile0_0, SkipEnd(SymbolsTile0_0, 3)) != 0 && Lex(SymbolsTile0_0, 3) == Step(Token(RPAREN, Literal(AsciiBytes(")"))), 4)
  {
    RunEndAt(SymbolsTile0_0, 3, 3, IsWhitespace);
  }

  lemma SymbolsAt3(x: seq<byte>)
    requires Holds(x, SymbolsTile0_0, 0)
    ensures Lex(x, 3) == Step(Token(RPAREN, Literal(AsciiBytes(")"))), 4)
  {
    SymbolsLex3();
    LexWindow(x, SymbolsTile0_0, 0, 3);
  }

  lemma SymbolsLex4()
    ensures CharAt(SymbolsTile0_0, SkipEnd(SymbolsTile0_0, 4)) != 0 && Lex(SymbolsTile0_0, 4) == Step(Token(LBRACE, Literal(AsciiBytes("{"))), 5)
  {
    RunEndAt(SymbolsTile0_0, 4, 4, IsWhitespace);
  }

  lemma SymbolsAt4(x: seq<byte>)
    requires Holds(x, SymbolsTile0_0, 0)
    ensures Lex(x, 4) == Step(Token(LBRACE, Literal(AsciiBytes("{"))), 5)
  {
    SymbolsLex4();
    LexWindow(x, SymbolsTile0_0, 0, 4);
  }

  lemma SymbolsLex5()
    ensures CharAt(SymbolsTile0_0, SkipEnd(SymbolsTile0_0, 5)) != 0 && Lex(SymbolsTile0_0, 5) == Step(Token(RBRACE, Literal(AsciiBytes("}"))), 6)
  {
    RunEndAt(SymbolsTile0_0, 5, 5, IsWhitespace);
  }

  lemma SymbolsAt5(x: seq<byte>)
    requires Holds(x, SymbolsTile0_0, 0)
    ensures Lex(x, 5) == Step(Token(RBRACE, Literal(AsciiBytes("}"))), 6)
  {
    SymbolsLex5();
    LexWindow(x, SymbolsTile0_0, 0, 5);
  }

  lemma SymbolsLex6()
    ensures CharAt(SymbolsTile0_0, SkipEnd(SymbolsTile0_0, 6)) != 0 && Lex(SymbolsTile0_0, 6) == Step(Token(COMMA, Literal(AsciiBytes(","))), 7)
  {
    RunEndAt(SymbolsTile0_0, 6, 6, IsWhitespace);
  }

  lemma SymbolsAt6(x: seq<byte>)
    requires Holds(x, SymbolsTile0_0, 0)
    ensures Lex(x, 6) == Step(Token(COMMA, Literal(AsciiBytes(","))), 7)
  {
    SymbolsLex6();
    LexWindow(x, SymbolsTile0_0, 0, 6);
  }

  lemma SymbolsLex7()
    ensures CharAt(SymbolsTile0_0, SkipEnd(SymbolsTile0_0, 7)) != 0 && Lex(SymbolsTile0_0, 7) == Step(Token(SEMICOLON, Literal(AsciiBytes(";"))), 8)
  {
    RunEndAt(SymbolsTile0_0, 7, 7, IsWhitespace);
  }

  lemma SymbolsAt7(x: seq<byte>)
    requires Holds(x, SymbolsTile0_0, 0)
    ensures Lex(x, 7) == Step(Token(SEMICOLON, Literal(AsciiBytes(";"))), 8)
  {
    SymbolsLex7();
    LexWindow(x, SymbolsTile0_0, 0, 7);
  }

  lemma SymbolsStep0(x: seq<byte>)
    requires Holds(x, SymbolsTile0_0, 0)
    ensures Names(TokensFrom(x, 0)) == [ASSIGN] + Names(TokensFrom(x, 1))
  {
    SymbolsAt0(x);
    NamesStep(x, 0, Token(ASSIGN, Literal(AsciiBytes("="))), 1);
  }

  lemma SymbolsStep1(x: seq<byte>)
    requires Holds(x, SymbolsTile0_0, 0)
    ensures Names(TokensFrom(x, 1)) == [PLUS] + Names(TokensFrom(x, 2))
  {
    SymbolsAt1(x);
    NamesStep(x, 1, Token(PLUS, Literal(AsciiBytes("+"))), 2);
  }

  lemma SymbolsStep2(x: seq<byte>)
    requires Holds(x, SymbolsTile0_0, 0)
    ensures Names(TokensFrom(x, 2)) == [LPAREN] + Names(TokensFrom(x, 3))
  {
    SymbolsAt2(x);
    NamesStep(x, 2, Token(LPAREN, Literal(AsciiBytes("("))), 3);
  }

  lemma SymbolsStep3(x: seq<byte>)
    requires Holds(x, SymbolsTile0_0, 0)
    ensures Names(TokensFrom(x, 3)) == [RPAREN] + Names(TokensFrom(x, 4))
  {
    SymbolsAt3(x);
    NamesStep(x, 3, Token(RPAREN, Literal(AsciiBytes(")"))), 4);
  }

  lemma SymbolsStep4(x: seq<byte>)
    requires Holds(x, SymbolsTile0_0, 0)
    ensures Names(TokensFrom(x, 4)) == [LBRACE] + Names(TokensFrom(x, 5))
  {
    SymbolsAt4(x);
    NamesStep(x, 4, Token(LBRACE, Literal(AsciiBytes("{"))), 5);
  }

  lemma SymbolsStep5(x: seq<byte>)
    requires Holds(x, SymbolsTile0_0, 0)
    ensures Names(TokensFrom(x, 5)) == [RBRACE] + Names(TokensFrom(x, 6))
  {
    SymbolsAt5(x);
    NamesStep(x, 5, Token(RBRACE, Literal(AsciiBytes("}"))), 6);
  }

  lemma SymbolsStep6(x: seq<byte>)
    requires Holds(x, SymbolsTile0_0, 0)
    ensures Names(TokensFrom(x, 6)) == [COMMA] + Names(TokensFrom(x, 7))
  {
    SymbolsAt6(x);
    NamesStep(x, 6, Token(COMMA, Literal(AsciiBytes(","))), 7);
  }

  lemma SymbolsStep7(x: seq<byte>)
    requires Holds(x, SymbolsTile0_0, 0)
    ensures Names(TokensFrom(x, 7)) == [SEMICOLON] + Names(TokensFrom(x, 8))
  {
    SymbolsAt7(x);
    NamesStep(x, 7, Token(SEMICOLON, Literal(AsciiBytes(";"))), 8);
  }

  lemma SymbolsStep8(x: seq<byte>)
    requires |x| == 8
    ensures Names(TokensFrom(x, 8)) == [EOF]
  {
    LexAtEnd(x, 8);
    NamesLast(x, 8, Token(EOF, Literal([0])), 9);
  }

  lemma SymbolsGroup0Chain(a0: seq<Name>, a1: seq<Name>, a2: seq<Name>, a3: seq<Name>, a4: seq<Name>, a5: seq<Name>, a6: seq<Name>, a7: seq<Name>, a8: seq<Name>)
    requires a0 == [ASSIGN] + a1
    requires a1 == [PLUS] + a2
    requires a2 == [LPAREN] + a3
    requires a3 == [RPAREN] + a4
    requires a4 == [LBRACE] + a5
    requires a5 == [RBRACE] + a6
    requires a6 == [COMMA] + a7
    requires a7 == [SEMICOLON] + a8
    ensures a0 == [ASSIGN, PLUS, LPAREN, RPAREN, LBRACE, RBRACE, COMMA, SEMICOLON] + a8
  {
  }

  lemma SymbolsGroup0(x: seq<byte>)
    requires SymbolsLayout(x)
    ensures Names(TokensFrom(x, 0)) == [ASSIGN, PLUS, LPAREN, RPAREN, LBRACE, RBRACE, COMMA, SEMICOLON] + Names(TokensFrom(x, 8))
  {
    SymbolsStep0(x);
    SymbolsStep1(x);
    SymbolsStep2(x);
    SymbolsStep3(x);
    SymbolsStep4(x);
    SymbolsStep5(x);
    SymbolsStep6(x);
    SymbolsStep7(x);
    SymbolsGroup0Chain(Names(TokensFrom(x, 0)), Names(TokensFrom(x, 1)), Names(TokensFrom(x, 2)), Names(TokensFrom(x, 3)), Names(TokensFrom(x, 4)), Names(TokensFrom(x, 5)), Names(TokensFrom(x, 6)), Names(TokensFrom(x, 7)), Names(TokensFrom(x, 8)));
  }

  lemma SymbolsChain(a0: seq<Name>, a1: seq<Name>)
    requires a0 == [ASSIGN, PLUS, LPAREN, RPAREN, LBRACE, RBRACE, COMMA, SEMICOLON] + a1
    requires a1 == [EOF]
    ensures a0 == [ASSIGN, PLUS, LPAREN, RPAREN, LBRACE, RBRACE, COMMA, SEMICOLON, EOF]
  {
  }

  /** The token kinds successive `next_token` calls return on any input laid out as this one. */
  lemma SymbolsTokens(x: seq<byte>)
    requires SymbolsLayout(x)
    ensures Names(Tokenize(x)) == [ASSIGN, PLUS, LPAREN, RPAREN, LBRACE, RBRACE, COMMA, SEMICOLON, EOF]
  {
    SymbolsGroup0(x);
    SymbolsStep8(x);
    SymbolsChain(Names(TokensFrom(x, 0)), Names(TokensFrom(x, 8)));
  }

  /** The token kinds successive `next_token` calls return on this input. */
  lemma SymbolsSample()
    ensures Names(Tokenize(SymbolsInput)) == [ASSIGN, PLUS, LPAREN, RPAREN, LBRACE, RBRACE, COMMA, SEMICOLON, EOF]
  {
    SymbolsInputLayout();
    SymbolsTokens(SymbolsInput);
  }

  /** The input of the `Illegal` unit test, line by line; each line is cut after
      each run of whitespace. */
  const IllegalTile0_0: seq<byte> := AsciiBytes("#")
  const IllegalLine0: seq<byte> := IllegalTile0_0
  const IllegalInput: seq<byte> :=
    IllegalLine0

  /** An input of the length of the `Illegal` input that holds each piece of its lines in place. */
  predicate IllegalLayout(x: seq<byte>) {
    && |x| == 1
    && Holds(x, IllegalTile0_0, 0)
  }

  lemma IllegalHolds0()
    ensures Holds(IllegalInput, IllegalLine0, 0)
  {
    HoldsSelf(IllegalLine0);
  }

  lemma IllegalInputLayout()
    ensures IllegalLayout(IllegalInput)
  {
    IllegalHolds0();
  }

  lemma IllegalLex0()
    ensures CharAt(IllegalTile0_0, SkipEnd(IllegalTile0_0, 0)) != 0 && Lex(IllegalTile0_0, 0) == Step(Token(ILLEGAL, Literal(AsciiBytes("#"))), 1)
  {
    RunEndAt(IllegalTile0_0, 0, 0, IsWhitespace);
  }

  lemma IllegalAt0(x: seq<byte>)
    requires Holds(x, IllegalTile0_0, 0)
    ensures Lex(x, 0) == Step(Token(ILLEGAL, Literal(AsciiBytes("#"))), 1)
  {
    IllegalLex0();
    LexWindow(x, IllegalTile0_0, 0, 0);
  }

  lemma IllegalStep0(x: seq<byte>)
    requires Holds(x, IllegalTile0_0, 0)
    ensures Names(TokensFrom(x, 0)) == [ILLEGAL] + Names(TokensFrom(x, 1))
  {
    IllegalAt0(x);
    NamesStep(x, 0, Token(ILLEGAL, Literal(AsciiBytes("#"))), 1);
  }

  lemma IllegalStep1(x: seq<byte>)
    requires |x| == 1
    ensures Names(TokensFrom(x, 1)) == [EOF]
  {
    LexAtEnd(x, 1);
    NamesLast(x, 1, Token(EOF, Literal([0])), 2);
  }

  lemma IllegalChain(a0: seq<Name>, a1: seq<Name>)
    requires a0 == [ILLEGAL] + a1
    requires a1 == [EOF]
    ensures a0 == [ILLEGAL, EOF]
  {
  }

  /** The token kinds successive `next_token` calls return on any input laid out as this one. */
  lemma IllegalTokens(x: seq<byte>)
    requires IllegalLayout(x)
    ensures Names(Tokenize(x)) == [ILLEGAL, EOF]
  {
    IllegalStep0(x);
    IllegalStep1(x);
    IllegalChain(Names(TokensFrom(x, 0)), Names(TokensFrom(x, 1)));
  }

  /** The token kinds successive `next_token` calls return on this input. */
  lemma IllegalSample()
    ensures Names(Tokenize(IllegalInput)) == [ILLEGAL, EOF]
  {
    IllegalInputLayout();
    IllegalTokens(IllegalInput);
  }

  /** The input of the `Whitespace` unit test, line by line; each line is cut after
      each run of whitespace. */
  const WhitespaceTile0_0: seq<byte> := AsciiBytes("\n")
  const WhitespaceLine0: seq<byte> := WhitespaceTile0_0
  const WhitespaceTile1_0: seq<byte> := Spaces(12)
  const WhitespaceTile1_1: seq<byte> := AsciiBytes("let ")
  const WhitespaceTile1_2: seq<byte> := AsciiBytes("five ")
  const WhitespaceTile1_3: seq<byte> := AsciiBytes("= ")
  const WhitespaceTile1_4: seq<byte> := AsciiBytes("5;\n")
  const WhitespaceLine1: seq<byte> := WhitespaceTile1_0 + WhitespaceTile1_1 + WhitespaceTile1_2 + WhitespaceTile1_3 + WhitespaceTile1_4
  const WhitespaceTile2_0: seq<byte> := Spaces(12)
  const WhitespaceTile2_1: seq<byte> := AsciiBytes("let ")
  const WhitespaceTile2_2: seq<byte> := AsciiBytes("ten ")
  const WhitespaceTile2_3: seq<byte> := AsciiBytes("= ")
  const WhitespaceTile2_4: seq<byte> := AsciiBytes("10;\n")
  const WhitespaceLine2: seq<byte> := WhitespaceTile2_0 + WhitespaceTile2_1 + WhitespaceTile2_2 + WhitespaceTile2_3 + WhitespaceTile2_4
  const WhitespaceTile3_0: seq<byte> := AsciiBytes("\n")
  const WhitespaceLine3: seq<byte> := WhitespaceTile3_0
  const WhitespaceTile4_0: seq<byte> := Spaces(12)
  const WhitespaceTile4_1: seq<byte> := AsciiBytes("let ")
  const WhitespaceTile4_2: seq<byte> := AsciiBytes("add ")
  const WhitespaceTile4_3: seq<byte> := AsciiBytes("= ")
  const WhitespaceTile4_4: seq<byte> := AsciiBytes("fn(x, ")
  const WhitespaceTile4_5: seq<byte> := AsciiBytes("y) ")
  const WhitespaceTile4_6: seq<byte> := AsciiBytes("{\n")
  const WhitespaceLine4: seq<byte> := WhitespaceTile4_0 + WhitespaceTile4_1 + WhitespaceTile4_2 + WhitespaceTile4_3 + WhitespaceTile4_4 + WhitespaceTile4_5 + WhitespaceTile4_6
  const WhitespaceTile5_0: seq<byte> := Spaces(14)
  const WhitespaceTile5_1: seq<byte> := AsciiBytes("x ")
  const WhitespaceTile5_2: seq<byte> := AsciiBytes("+ ")
  const WhitespaceTile5_3: seq<byte> := AsciiBytes("y;\n")
  const WhitespaceLine5: seq<byte> := WhitespaceTile5_0 + WhitespaceTile5_1 + WhitespaceTile5_2 + WhitespaceTile5_3
  const WhitespaceTile6_0: seq<byte> := Spaces(12)
  const WhitespaceTile6_1: seq<byte> := AsciiBytes("};\n")
  const WhitespaceLine6: seq<byte> := WhitespaceTile6_0 + WhitespaceTile6_1
  const WhitespaceTile7_0: seq<byte> := AsciiBytes("\n")
  const WhitespaceLine7: seq<byte> := WhitespaceTile7_0
  const WhitespaceTile8_0: seq<byte> := Spaces(12)
  const WhitespaceTile8_1: seq<byte> := AsciiBytes("let ")
  const WhitespaceTile8_2: seq<byte> := AsciiBytes("result ")
  const WhitespaceTile8_3: seq<byte> := AsciiBytes("= ")
  const WhitespaceTile8_4: seq<byte> := AsciiBytes("add(five, ")
  const WhitespaceTile8_5: seq<byte> := AsciiBytes("ten);\n")
  const WhitespaceLine8: seq<byte> := WhitespaceTile8_0 + WhitespaceTile8_1 + WhitespaceTile8_2 + WhitespaceTile8_3 + WhitespaceTile8_4 + WhitespaceTile8_5
  const WhitespaceTile9_0: seq<byte> := Spaces(8)
  const WhitespaceLine9: seq<byte> := WhitespaceTile9_0
  const WhitespaceInput: seq<byte> :=
    WhitespaceLine0
    + WhitespaceLine1
    + WhitespaceLine2
    + WhitespaceLine3
    + WhitespaceLine4
    + WhitespaceLine5
    + WhitespaceLine6
    + WhitespaceLine7
    + WhitespaceLine8
    + WhitespaceLine9

  /** An input of the length of the `Whitespace` input that holds each piece of its lines in place. */
  predicate WhitespaceLayout(x: seq<byte>) {
    && |x| == 173
    && Holds(x, WhitespaceTile0_0, 0)
    && Holds(x, WhitespaceTile1_0, 1)
    && Holds(x, WhitespaceTile1_1, 13)
    && Holds(x, WhitespaceTile1_2, 17)
    && Holds(x, WhitespaceTile1_3, 22)
    && Holds(x, WhitespaceTile1_4, 24)
    && Holds(x, WhitespaceTile2_0, 27)
    && Holds(x, WhitespaceTile2_1, 39)
    && Holds(x, WhitespaceTile2_2, 43)
    && Holds(x, WhitespaceTile2_3, 47)
    && Holds(x, WhitespaceTile2_4, 49)
    && Holds(x, WhitespaceTile3_0, 53)
    && Holds(x, WhitespaceTile4_0, 54)
    && Holds(x, WhitespaceTile4_1, 66)
    && Holds(x, WhitespaceTile4_2, 70)
    && Holds(x, WhitespaceTile4_3, 74)
    && Holds(x, WhitespaceTile4_4, 76)
    && Holds(x, WhitespaceTile4_5, 82)
    && Holds(x, WhitespaceTile4_6, 85)
    && Holds(x, WhitespaceTile5_0, 87)
    && Holds(x, WhitespaceTile5_1, 101)
    && Holds(x, WhitespaceTile5_2, 103)
    && Holds(x, WhitespaceTile5_3, 105)
    && Holds(x, WhitespaceTile6_0, 108)
    && Holds(x, WhitespaceTile6_1, 120)
    && Holds(x, WhitespaceTile7_0, 123)
    && Holds(x, WhitespaceTile8_0, 124)
    && Holds(x, WhitespaceTile8_1, 136)
    && Holds(x, WhitespaceTile8_2, 140)
    && Holds(x, WhitespaceTile8_3, 147)
    && Holds(x, WhitespaceTile8_4, 149)
    && Holds(x, WhitespaceTile8_5, 159)
    && Holds(x, WhitespaceTile9_0, 165)
  }

  lemma WhitespaceHolds0In1()
    ensures Holds(WhitespaceLine0, WhitespaceLine0, 0)
  {
    HoldsSelf(WhitespaceLine0);
  }

  lemma WhitespaceHolds0In2()
    ensures Holds(WhitespaceLine0 + WhitespaceLine1, WhitespaceLine0, 0)
  {
    WhitespaceHolds0In1();
    HoldsExtend(WhitespaceLine0, WhitespaceLine1, WhitespaceLine0, 0);
  }

  lemma WhitespaceHolds0In3()
    ensures Holds(WhitespaceLine0 + WhitespaceLine1 + WhitespaceLine2, WhitespaceLine0, 0)
  {
    WhitespaceHolds0In2();
    HoldsExtend(WhitespaceLine0 + WhitespaceLine1, WhitespaceLine2, WhitespaceLine0, 0);
  }

  lemma WhitespaceHolds0In4()
    ensures Holds(WhitespaceLine0 + WhitespaceLine1 + WhitespaceLine2 + WhitespaceLine3, WhitespaceLine0, 0)
  {
    WhitespaceHolds0In3();
    HoldsExtend(WhitespaceLine0 + WhitespaceLine1 + WhitespaceLine2, WhitespaceLine3, WhitespaceLine0, 0);
  }

  lemma WhitespaceHolds0In5()
    ensures Holds(WhitespaceLine0 + WhitespaceLine1 + WhitespaceLine2 + WhitespaceLine3 + WhitespaceLine4, WhitespaceLine0, 0)
  {
    WhitespaceHolds0In4();
    HoldsExtend(WhitespaceLine0 + WhitespaceLine1 + WhitespaceLine2 + WhitespaceLine3, WhitespaceLine4, WhitespaceLine0, 0);
  }

  lemma WhitespaceHolds0In6()
    ensures Holds(WhitespaceLine0 + WhitespaceLine1 + WhitespaceLine2 + WhitespaceLine3 + WhitespaceLine4 + WhitespaceLine5, WhitespaceLine0, 0)
  {
    WhitespaceHolds0In5();
    HoldsExtend(WhitespaceLine0 + WhitespaceLine1 + WhitespaceLine2 + WhitespaceLine3 + WhitespaceLine4, WhitespaceLine5, WhitespaceLine0, 0);
  }

  lemma WhitespaceHolds0In7()
    ensures Holds(WhitespaceLine0 + WhitespaceLine1 + WhitespaceLine2 + WhitespaceLine3 + WhitespaceLine4 + WhitespaceLine5 + WhitespaceLine6, WhitespaceLine0, 0)
  {
    WhitespaceHolds0In6();
    HoldsExtend(WhitespaceLine0 + WhitespaceLine1 + WhitespaceLine2 + WhitespaceLine3 + WhitespaceLine4 + WhitespaceLine5, WhitespaceLine6, WhitespaceLine0, 0);
  }

  lemma WhitespaceHolds0In8()
    ensures Holds(WhitespaceLine0 + WhitespaceLine1 + WhitespaceLine2 + WhitespaceLine3 + WhitespaceLine4 + WhitespaceLine5 + WhitespaceLine6 + WhitespaceLine7, WhitespaceLine0, 0)
  {
    WhitespaceHolds0In7();
    HoldsExtend(WhitespaceLine0 + WhitespaceLine1 + WhitespaceLine2 + WhitespaceLine3 + WhitespaceLine4 + WhitespaceLine5 + WhitespaceLine6, WhitespaceLine7, WhitespaceLine0, 0);
  }

  lemma WhitespaceHolds0In9()
    ensures Holds(WhitespaceLine0 + WhitespaceLine1 + WhitespaceLine2 + WhitespaceLine3 + WhitespaceLine4 + WhitespaceLine5 + WhitespaceLine6 + WhitespaceLine7 + WhitespaceLine8, WhitespaceLine0, 0)
  {
    WhitespaceHolds0In8();
    HoldsExtend(WhitespaceLine0 + WhitespaceLine1 + WhitespaceLine2 + WhitespaceLine3 + WhitespaceLine4 + WhitespaceLine5 + WhitespaceLine6 + WhitespaceLine7, WhitespaceLine8, WhitespaceLine0, 0);
  }

  lemma WhitespaceHolds0()
    ensures Holds(WhitespaceInput, WhitespaceLine0, 0)
  {
    WhitespaceHolds0In9();
    HoldsExtend(WhitespaceLine0 + WhitespaceLine1 + WhitespaceLine2 + WhitespaceLine3 + WhitespaceLine4 + WhitespaceLine5 + WhitespaceLine6 + WhitespaceLine7 + WhitespaceLine8, WhitespaceLine9, WhitespaceLine0, 0);
  }

  lemma WhitespaceHolds1In2()
    ensures Holds(WhitespaceLine0 + WhitespaceLine1, WhitespaceLine1, 1)
  {
    HoldsLast(WhitespaceLine0, WhitespaceLine1);
  }

  lemma WhitespaceHolds1In3()
    ensures Holds(WhitespaceLine0 + WhitespaceLine1 + WhitespaceLine2, WhitespaceLine1, 1)
  {
    WhitespaceHolds1In2();
    HoldsExtend(WhitespaceLine0 + WhitespaceLine1, WhitespaceLine2, WhitespaceLine1, 1);
  }

  lemma WhitespaceHolds1In4()
    ensures Holds(WhitespaceLine0 + WhitespaceLine1 + WhitespaceLine2 + WhitespaceLine3, WhitespaceLine1, 1)
  {
    WhitespaceHolds1In3();
    HoldsExtend(WhitespaceLine0 + WhitespaceLine1 + WhitespaceLine2, WhitespaceLine3, WhitespaceLine1, 1);
  }

  lemma WhitespaceHolds1In5()
    ensures Holds(WhitespaceLine0 + WhitespaceLine1 + WhitespaceLine2 + WhitespaceLine3 + WhitespaceLine4, WhitespaceLine1, 1)
  {
    WhitespaceHolds1In4();
    HoldsExtend(WhitespaceLine0 + WhitespaceLine1 + WhitespaceLine2 + WhitespaceLine3, WhitespaceLine4, WhitespaceLine1, 1);
  }

  lemma WhitespaceHolds1In6()
    ensures Holds(WhitespaceLine0 + WhitespaceLine1 + WhitespaceLine2 + WhitespaceLine3 + WhitespaceLine4 + WhitespaceLine5, WhitespaceLine1, 1)
  {
    WhitespaceHolds1In5();
    HoldsExtend(WhitespaceLine0 + WhitespaceLine1 + WhitespaceLine2 + WhitespaceLine3 + WhitespaceLine4, WhitespaceLine5, WhitespaceLine1, 1);
  }

  lemma WhitespaceHolds1In7()
    ensures Holds(WhitespaceLine0 + WhitespaceLine1 + WhitespaceLine2 + WhitespaceLine3 + WhitespaceLine4 + WhitespaceLine5 + WhitespaceLine6, WhitespaceLine1, 1)
  {
    WhitespaceHolds1In6();
    HoldsExtend(WhitespaceLine0 + WhitespaceLine1 + WhitespaceLine2 + WhitespaceLine3 + WhitespaceLine4 + WhitespaceLine5, WhitespaceLine6, WhitespaceLine1, 1);
  }

  lemma WhitespaceHolds1In8()
    ensures Holds(WhitespaceLine0 + WhitespaceLine1 + WhitespaceLine2 + WhitespaceLine3 + WhitespaceLine4 + WhitespaceLine5 + WhitespaceLine6 + WhitespaceLine7, WhitespaceLine1, 1)
  {
    WhitespaceHolds1In7();
    HoldsExtend(WhitespaceLine0 + WhitespaceLine1 + WhitespaceLine2 + WhitespaceLine3 + WhitespaceLine4 + WhitespaceLine5 + WhitespaceLine6, WhitespaceLine7, WhitespaceLine1, 1);
  }

  lemma WhitespaceHolds1In9()
    ensures Holds(WhitespaceLine0 + WhitespaceLine1 + WhitespaceLine2 + WhitespaceLine3 + WhitespaceLine4 + WhitespaceLine5 + WhitespaceLine6 + WhitespaceLine7 + WhitespaceLine8, WhitespaceLine1, 1)
  {
    WhitespaceHolds1In8();
    HoldsExtend(WhitespaceLine0 + WhitespaceLine1 + WhitespaceLine2 + WhitespaceLine3 + WhitespaceLine4 + WhitespaceLine5 + WhitespaceLine6 + WhitespaceLine7, WhitespaceLine8, WhitespaceLine1, 1);
  }

  lemma WhitespaceHolds1()
    ensures Holds(WhitespaceInput, WhitespaceLine1, 1)
  {
    WhitespaceHolds1In9();
    HoldsExtend(WhitespaceLine0 + WhitespaceLine1 + WhitespaceLine2 + WhitespaceLine3 + WhitespaceLine4 + WhitespaceLine5 + WhitespaceLine6 + WhitespaceLine7 + WhitespaceLine8, WhitespaceLine9, WhitespaceLine1, 1);
  }

  lemma WhitespaceHolds2In3()
    ensures Holds(WhitespaceLine0 + WhitespaceLine1 + WhitespaceLine2, WhitespaceLine2, 27)
  {
    HoldsLast(WhitespaceLine0 + WhitespaceLine1, WhitespaceLine2);
  }

  lemma WhitespaceHolds2In4()
    ensures Holds(WhitespaceLine0 + WhitespaceLine1 + WhitespaceLine2 + WhitespaceLine3, WhitespaceLine2, 27)
  {
    WhitespaceHolds2In3();
    HoldsExtend(WhitespaceLine0 + WhitespaceLine1 + WhitespaceLine2, WhitespaceLine3, WhitespaceLine2, 27);
  }

  lemma WhitespaceHolds2In5()
    ensures Holds(WhitespaceLine0 + WhitespaceLine1 + WhitespaceLine2 + WhitespaceLine3 + WhitespaceLine4, WhitespaceLine2, 27)
  {
    WhitespaceHolds2In4();
    HoldsExtend(WhitespaceLine0 + WhitespaceLine1 + WhitespaceLine2 + WhitespaceLine3, WhitespaceLine4, WhitespaceLine2, 27);
  }

  lemma WhitespaceHolds2In6()
    ensures Holds(WhitespaceLine0 + WhitespaceLine1 + WhitespaceLine2 + WhitespaceLine3 + WhitespaceLine4 + WhitespaceLine5, WhitespaceLine2, 27)
  {
    WhitespaceHolds2In5();
    HoldsExtend(WhitespaceLine0 + WhitespaceLine1 + WhitespaceLine2 + WhitespaceLine3 + WhitespaceLine4, WhitespaceLine5, WhitespaceLine2, 27);
  }

  lemma WhitespaceHolds2In7()
    ensures Holds(WhitespaceLine0 + WhitespaceLine1 + WhitespaceLine2 + WhitespaceLine3 + WhitespaceLine4 + WhitespaceLine5 + WhitespaceLine6, WhitespaceLine2, 27)
  {
    WhitespaceHolds2In6();
    HoldsExtend(WhitespaceLine0 + WhitespaceLine1 + WhitespaceLine2 + WhitespaceLine3 + WhitespaceLine4 + WhitespaceLine5, WhitespaceLine6, WhitespaceLine2, 27);
  }

  lemma WhitespaceHolds2In8()
    ensures Holds(WhitespaceLine0 + WhitespaceLine1 + WhitespaceLine2 + WhitespaceLine3 + WhitespaceLine4 + WhitespaceLine5 + WhitespaceLine6 + WhitespaceLine7, WhitespaceLine2, 27)
  {
    WhitespaceHolds2In7();
    HoldsExtend(WhitespaceLine0 + WhitespaceLine1 + WhitespaceLine2 + WhitespaceLine3 + WhitespaceLine4 + WhitespaceLine5 + WhitespaceLine6, WhitespaceLine7, WhitespaceLine2, 27);
  }

  lemma WhitespaceHolds2In9()
    ensures Holds(WhitespaceLine0 + WhitespaceLine1 + WhitespaceLine2 + WhitespaceLine3 + WhitespaceLine4 + WhitespaceLine5 + WhitespaceLine6 + WhitespaceLine7 + WhitespaceLine8, WhitespaceLine2, 27)
  {
    WhitespaceHolds2In8();
    HoldsExtend(WhitespaceLine0 + WhitespaceLine1 + WhitespaceLine2 + WhitespaceLine3 + WhitespaceLine4 + WhitespaceLine5 + WhitespaceLine6 + WhitespaceLine7, WhitespaceLine8, WhitespaceLine2, 27);
  }

  lemma WhitespaceHolds2()
    ensures Holds(WhitespaceInput, WhitespaceLine2, 27)
  {
    WhitespaceHolds2In9();
    HoldsExtend(WhitespaceLine0 + WhitespaceLine1 + WhitespaceLine2 + WhitespaceLine3 + WhitespaceLine4 + WhitespaceLine5 + WhitespaceLine6 + WhitespaceLine7 + WhitespaceLine8, WhitespaceLine9, WhitespaceLine2, 27);
  }

  lemma WhitespaceHolds3In4()
    ensures Holds(WhitespaceLine0 + WhitespaceLine1 + WhitespaceLine2 + WhitespaceLine3, WhitespaceLine3, 53)
  {
    HoldsLast(WhitespaceLine0 + WhitespaceLine1 + WhitespaceLine2, WhitespaceLine3);
  }

  lemma WhitespaceHolds3In5()
    ensures Holds(WhitespaceLine0 + WhitespaceLine1 + WhitespaceLine2 + WhitespaceLine3 + WhitespaceLine4, WhitespaceLine3, 53)
  {
    WhitespaceHolds3In4();
    HoldsExtend(WhitespaceLine0 + WhitespaceLine1 + WhitespaceLine2 + WhitespaceLine3, WhitespaceLine4, WhitespaceLine3, 53);
  }

  lemma WhitespaceHolds3In6()
    ensures Holds(WhitespaceLine0 + WhitespaceLine1 + WhitespaceLine2 + WhitespaceLine3 + WhitespaceLine4 + WhitespaceLine5, WhitespaceLine3, 53)
  {
    WhitespaceHolds3In5();
    HoldsExtend(WhitespaceLine0 + WhitespaceLine1 + WhitespaceLine2 + WhitespaceLine3 + WhitespaceLine4, WhitespaceLine5, WhitespaceLine3, 53);
  }

  lemma WhitespaceHolds3In7()
    ensures Holds(WhitespaceLine0 + WhitespaceLine1 + WhitespaceLine2 + WhitespaceLine3 + WhitespaceLine4 + WhitespaceLine5 + WhitespaceLine6, WhitespaceLine3, 53)
  {
    WhitespaceHolds3In6();
    HoldsExtend(WhitespaceLine0 + WhitespaceLine1 + WhitespaceLine2 + WhitespaceLine3 + WhitespaceLine4 + WhitespaceLine5, WhitespaceLine6, WhitespaceLine3, 53);
  }

  lemma WhitespaceHolds3In8()
    ensures Holds(WhitespaceLine0 + WhitespaceLine1 + WhitespaceLine2 + WhitespaceLine3 + WhitespaceLine4 + WhitespaceLine5 + WhitespaceLine6 + WhitespaceLine7, WhitespaceLine3, 53)
  {
    WhitespaceHolds3In7();
    HoldsExtend(WhitespaceLine0 + WhitespaceLine1 + WhitespaceLine2 + WhitespaceLine3 + WhitespaceLine4 + WhitespaceLine5 + WhitespaceLine6, WhitespaceLine7, WhitespaceLine3, 53);
  }

  lemma WhitespaceHolds3In9()
    ensures Holds(WhitespaceLine0 + WhitespaceLine1 + WhitespaceLine2 + WhitespaceLine3 + WhitespaceLine4 + WhitespaceLine5 + WhitespaceLine6 + WhitespaceLine7 + WhitespaceLine8, WhitespaceLine3, 53)
  {
    WhitespaceHolds3In8();
    HoldsExtend(WhitespaceLine0 + WhitespaceLine1 + WhitespaceLine2 + WhitespaceLine3 + WhitespaceLine4 + WhitespaceLine5 + WhitespaceLine6 + WhitespaceLine7, WhitespaceLine8, WhitespaceLine3, 53);
  }

  lemma WhitespaceHolds3()
    ensures Holds(WhitespaceInput, WhitespaceLine3, 53)
  {
    WhitespaceHolds3In9();
    HoldsExtend(WhitespaceLine0 + WhitespaceLine1 + WhitespaceLine2 + WhitespaceLine3 + WhitespaceLine4 + WhitespaceLine5 + WhitespaceLine6 + WhitespaceLine7 + WhitespaceLine8, WhitespaceLine9, WhitespaceLine3, 53);
  }

  lemma WhitespaceHolds4In5()
    ensures Holds(WhitespaceLine0 + WhitespaceLine1 + WhitespaceLine2 + WhitespaceLine3 + WhitespaceLine4, WhitespaceLine4, 54)
  {
    HoldsLast(WhitespaceLine0 + WhitespaceLine1 + WhitespaceLine2 + WhitespaceLine3, WhitespaceLine4);
  }

  lemma WhitespaceHolds4In6()
    ensures Holds(WhitespaceLine0 + WhitespaceLine1 + WhitespaceLine2 + WhitespaceLine3 + WhitespaceLine4 + WhitespaceLine5, WhitespaceLine4, 54)
  {
    WhitespaceHolds4In5();
    HoldsExtend(WhitespaceLine0 + WhitespaceLine1 + WhitespaceLine2 + WhitespaceLine3 + WhitespaceLine4, WhitespaceLine5, WhitespaceLine4, 54);
  }

  lemma WhitespaceHolds4In7()
    ensures Holds(WhitespaceLine0 + WhitespaceLine1 + WhitespaceLine2 + WhitespaceLine3 + WhitespaceLine4 + WhitespaceLine5 + WhitespaceLine6, WhitespaceLine4, 54)
  {
    WhitespaceHolds4In6();
    HoldsExtend(WhitespaceLine0 + WhitespaceLine1 + WhitespaceLine2 + WhitespaceLine3 + WhitespaceLine4 + WhitespaceLine5, WhitespaceLine6, WhitespaceLine4, 54);
  }

  lemma WhitespaceHolds4In8()
    ensures Holds(WhitespaceLine0 + WhitespaceLine1 + WhitespaceLine2 + WhitespaceLine3 + WhitespaceLine4 + WhitespaceLine5 + WhitespaceLine6 + WhitespaceLine7, WhitespaceLine4, 54)
  {
    WhitespaceHolds4In7();
    HoldsExtend(WhitespaceLine0 + WhitespaceLine1 + WhitespaceLine2 + WhitespaceLine3 + WhitespaceLine4 + WhitespaceLine5 + WhitespaceLine6, WhitespaceLine7, WhitespaceLine4, 54);
  }

  lemma WhitespaceHolds4In9()
    ensures Holds(WhitespaceLine0 + WhitespaceLine1 + WhitespaceLine2 + WhitespaceLine3 + WhitespaceLine4 + WhitespaceLine5 + WhitespaceLine6 + WhitespaceLine7 + WhitespaceLine8, WhitespaceLine4, 54)
  {
    WhitespaceHolds4In8();
    HoldsExtend(WhitespaceLine0 + WhitespaceLine1 + WhitespaceLine2 + WhitespaceLine3 + WhitespaceLine4 + WhitespaceLine5 + WhitespaceLine6 + WhitespaceLine7, WhitespaceLine8, WhitespaceLine4, 54);
  }

  lemma WhitespaceHolds4()
    ensures Holds(WhitespaceInput, WhitespaceLine4, 54)
  {
    WhitespaceHolds4In9();
    HoldsExtend(WhitespaceLine0 + WhitespaceLine1 + WhitespaceLine2 + WhitespaceLine3 + WhitespaceLine4 + WhitespaceLine5 + WhitespaceLine6 + WhitespaceLine7 + WhitespaceLine8, WhitespaceLine9, WhitespaceLine4, 54);
  }

  lemma WhitespaceHolds5In6()
    ensures Holds(WhitespaceLine0 + WhitespaceLine1 + WhitespaceLine2 + WhitespaceLine3 + WhitespaceLine4 + WhitespaceLine5, WhitespaceLine5, 87)
  {
    HoldsLast(WhitespaceLine0 + WhitespaceLine1 + WhitespaceLine2 + WhitespaceLine3 + WhitespaceLine4, WhitespaceLine5);
  }

  lemma WhitespaceHolds5In7()
    ensures Holds(WhitespaceLine0 + WhitespaceLine1 + WhitespaceLine2 + WhitespaceLine3 + WhitespaceLine4 + WhitespaceLine5 + WhitespaceLine6, WhitespaceLine5, 87)
  {
    WhitespaceHolds5In6();
    HoldsExtend(WhitespaceLine0 + WhitespaceLine1 + WhitespaceLine2 + WhitespaceLine3 + WhitespaceLine4 + WhitespaceLine5, WhitespaceLine6, WhitespaceLine5, 87);
  }

  lemma WhitespaceHolds5In8()
    ensures Holds(WhitespaceLine0 + WhitespaceLine1 + WhitespaceLine2 + WhitespaceLine3 + WhitespaceLine4 + WhitespaceLine5 + WhitespaceLine6 + WhitespaceLine7, WhitespaceLine5, 87)
  {
    WhitespaceHolds5In7();
    HoldsExtend(WhitespaceLine0 + WhitespaceLine1 + WhitespaceLine2 + WhitespaceLine3 + WhitespaceLine4 + WhitespaceLine5 + WhitespaceLine6, WhitespaceLine7, WhitespaceLine5, 87);
  }

  lemma WhitespaceHolds5In9()
    ensures Holds(WhitespaceLine0 + WhitespaceLine1 + WhitespaceLine2 + WhitespaceLine3 + WhitespaceLine4 + WhitespaceLine5 + WhitespaceLine6 + WhitespaceLine7 + WhitespaceLine8, WhitespaceLine5, 87)
  {
    WhitespaceHolds5In8();
    HoldsExtend(WhitespaceLine0 + WhitespaceLine1 + WhitespaceLine2 + WhitespaceLine3 + WhitespaceLine4 + WhitespaceLine5 + WhitespaceLine6 + WhitespaceLine7, WhitespaceLine8, WhitespaceLine5, 87);
  }

  lemma WhitespaceHolds5()
    ensures Holds(WhitespaceInput, WhitespaceLine5, 87)
  {
    WhitespaceHolds5In9();
    HoldsExtend(WhitespaceLine0 + WhitespaceLine1 + WhitespaceLine2 + WhitespaceLine3 + WhitespaceLine4 + WhitespaceLine5 + WhitespaceLine6 + WhitespaceLine7 + WhitespaceLine8, WhitespaceLine9, WhitespaceLine5, 87);
  }

  lemma WhitespaceHolds6In7()
    ensures Holds(WhitespaceLine0 + WhitespaceLine1 + WhitespaceLine2 + WhitespaceLine3 + WhitespaceLine4 + WhitespaceLine5 + WhitespaceLine6, WhitespaceLine6, 108)
  {
    HoldsLast(WhitespaceLine0 + WhitespaceLine1 + WhitespaceLine2 + WhitespaceLine3 + WhitespaceLine4 + WhitespaceLine5, WhitespaceLine6);
  }

  lemma WhitespaceHolds6In8()
    ensures Holds(WhitespaceLine0 + WhitespaceLine1 + WhitespaceLine2 + WhitespaceLine3 + WhitespaceLine4 + WhitespaceLine5 + WhitespaceLine6 + WhitespaceLine7, WhitespaceLine6, 108)
  {
    WhitespaceHolds6In7();
    HoldsExtend(WhitespaceLine0 + WhitespaceLine1 + WhitespaceLine2 + WhitespaceLine3 + WhitespaceLine4 + WhitespaceLine5 + WhitespaceLine6, WhitespaceLine7, WhitespaceLine6, 108);
  }

  lemma WhitespaceHolds6In9()
    ensures Holds(WhitespaceLine0 + WhitespaceLine1 + WhitespaceLine2 + WhitespaceLine3 + WhitespaceLine4 + WhitespaceLine5 + WhitespaceLine6 + WhitespaceLine7 + WhitespaceLine8, WhitespaceLine6, 108)
  {
    WhitespaceHolds6In8();
    HoldsExtend(WhitespaceLine0 + WhitespaceLine1 + WhitespaceLine2 + WhitespaceLine3 + WhitespaceLine4 + WhitespaceLine5 + WhitespaceLine6 + WhitespaceLine7, WhitespaceLine8, WhitespaceLine6, 108);
  }

  lemma WhitespaceHolds6()
    ensures Holds(WhitespaceInput, WhitespaceLine6, 108)
  {
    WhitespaceHolds6In9();
    HoldsExtend(WhitespaceLine0 + WhitespaceLine1 + WhitespaceLine2 + WhitespaceLine3 + WhitespaceLine4 + WhitespaceLine5 + WhitespaceLine6 + WhitespaceLine7 + WhitespaceLine8, WhitespaceLine9, WhitespaceLine6, 108);
  }

  lemma WhitespaceHolds7In8()
    ensures Holds(WhitespaceLine0 + WhitespaceLine1 + WhitespaceLine2 + WhitespaceLine3 + WhitespaceLine4 + WhitespaceLine5 + WhitespaceLine6 + WhitespaceLine7, WhitespaceLine7, 123)
  {
    HoldsLast(WhitespaceLine0 + WhitespaceLine1 + WhitespaceLine2 + WhitespaceLine3 + WhitespaceLine4 + WhitespaceLine5 + WhitespaceLine6, WhitespaceLine7);
  }

  lemma WhitespaceHolds7In9()
    ensures Holds(WhitespaceLine0 + WhitespaceLine1 + WhitespaceLine2 + WhitespaceLine3 + WhitespaceLine4 + WhitespaceLine5 + WhitespaceLine6 + WhitespaceLine7 + WhitespaceLine8, WhitespaceLine7, 123)
  {
    WhitespaceHolds7In8();
    HoldsExtend(WhitespaceLine0 + WhitespaceLine1 + WhitespaceLine2 + WhitespaceLine3 + WhitespaceLine4 + WhitespaceLine5 + WhitespaceLine6 + WhitespaceLine7, WhitespaceLine8, WhitespaceLine7, 123);
  }

  lemma WhitespaceHolds7()
    ensures Holds(WhitespaceInput, WhitespaceLine7, 123)
  {
    WhitespaceHolds7In9();
    HoldsExtend(WhitespaceLine0 + WhitespaceLine1 + WhitespaceLine2 + WhitespaceLine3 + WhitespaceLine4 + WhitespaceLine5 + WhitespaceLine6 + WhitespaceLine7 + WhitespaceLine8, WhitespaceLine9, WhitespaceLine7, 123);
  }

  lemma WhitespaceHolds8In9()
    ensures Holds(WhitespaceLine0 + WhitespaceLine1 + WhitespaceLine2 + WhitespaceLine3 + WhitespaceLine4 + WhitespaceLine5 + WhitespaceLine6 + WhitespaceLine7 + WhitespaceLine8, WhitespaceLine8, 124)
  {
    HoldsLast(WhitespaceLine0 + WhitespaceLine1 + WhitespaceLine2 + WhitespaceLine3 + WhitespaceLine4 + WhitespaceLine5 + WhitespaceLine6 + WhitespaceLine7, WhitespaceLine8);
  }

  lemma WhitespaceHolds8()
    ensures Holds(WhitespaceInput, WhitespaceLine8, 124)
  {
    WhitespaceHolds8In9();
    HoldsExtend(WhitespaceLine0 + WhitespaceLine1 + WhitespaceLine2 + WhitespaceLine3 + WhitespaceLine4 + WhitespaceLine5 + WhitespaceLine6 + WhitespaceLine7 + WhitespaceLine8, WhitespaceLine9, WhitespaceLine8, 124);
  }

  lemma WhitespaceHolds9()
    ensures Holds(WhitespaceInput, WhitespaceLine9, 165)
  {
    HoldsLast(WhitespaceLine0 + WhitespaceLine1 + WhitespaceLine2 + WhitespaceLine3 + WhitespaceLine4 + WhitespaceLine5 + WhitespaceLine6 + WhitespaceLine7 + WhitespaceLine8, WhitespaceLine9);
  }

  lemma WhitespacePiece1_0(x: seq<byte>)
    requires Holds(x, WhitespaceLine1, 1)
    ensures Holds(x, WhitespaceTile1_0, 1)
  {
    HoldsLeft(x, WhitespaceTile1_0 + WhitespaceTile1_1 + WhitespaceTile1_2 + WhitespaceTile1_3, WhitespaceTile1_4, 1);
    HoldsLeft(x, WhitespaceTile1_0 + WhitespaceTile1_1 + WhitespaceTile1_2, WhitespaceTile1_3, 1);
    HoldsLeft(x, WhitespaceTile1_0 + WhitespaceTile1_1, WhitespaceTile1_2, 1);
    HoldsLeft(x, WhitespaceTile1_0, WhitespaceTile1_1, 1);
  }

  lemma WhitespacePiece1_1(x: seq<byte>)
    requires Holds(x, WhitespaceLine1, 1)
    ensures Holds(x, WhitespaceTile1_1, 13)
  {
    HoldsLeft(x, WhitespaceTile1_0 + WhitespaceTile1_1 + WhitespaceTile1_2 + WhitespaceTile1_3, WhitespaceTile1_4, 1);
    HoldsLeft(x, WhitespaceTile1_0 + WhitespaceTile1_1 + WhitespaceTile1_2, WhitespaceTile1_3, 1);
    HoldsLeft(x, WhitespaceTile1_0 + WhitespaceTile1_1, WhitespaceTile1_2, 1);
    HoldsRight(x, WhitespaceTile1_0, WhitespaceTile1_1, 1);
  }

  lemma WhitespacePiece1_2(x: seq<byte>)
    requires Holds(x, WhitespaceLine1, 1)
    ensures Holds(x, WhitespaceTile1_2, 17)
  {
    HoldsLeft(x, WhitespaceTile1_0 + WhitespaceTile1_1 + WhitespaceTile1_2 + WhitespaceTile1_3, WhitespaceTile1_4, 1);
    HoldsLeft(x, WhitespaceTile1_0 + WhitespaceTile1_1 + WhitespaceTile1_2, WhitespaceTile1_3, 1);
    HoldsRight(x, WhitespaceTile1_0 + WhitespaceTile1_1, WhitespaceTile1_2, 1);
  }

  lemma WhitespacePiece1_3(x: seq<byte>)
    requires Holds(x, WhitespaceLine1, 1)
    ensures Holds(x, WhitespaceTile1_3, 22)
  {
    HoldsLeft(x, WhitespaceTile1_0 + WhitespaceTile1_1 + WhitespaceTile1_2 + WhitespaceTile1_3, WhitespaceTile1_4, 1);
    HoldsRight(x, WhitespaceTile1_0 + WhitespaceTile1_1 + WhitespaceTile1_2, WhitespaceTile1_3, 1);
  }

  lemma WhitespacePiece1_4(x: seq<byte>)
    requires Holds(x, WhitespaceLine1, 1)
    ensures Holds(x, WhitespaceTile1_4, 24)
  {
    HoldsRight(x, WhitespaceTile1_0 + WhitespaceTile1_1 + WhitespaceTile1_2 + WhitespaceTile1_3, WhitespaceTile1_4, 1);
  }

  lemma WhitespacePiece2_0(x: seq<byte>)
    requires Holds(x, WhitespaceLine2, 27)
    ensures Holds(x, WhitespaceTile2_0, 27)
  {
    HoldsLeft(x, WhitespaceTile2_0 + WhitespaceTile2_1 + WhitespaceTile2_2 + WhitespaceTile2_3, WhitespaceTile2_4, 27);
    HoldsLeft(x, WhitespaceTile2_0 + WhitespaceTile2_1 + WhitespaceTile2_2, WhitespaceTile2_3, 27);
    HoldsLeft(x, WhitespaceTile2_0 + WhitespaceTile2_1, WhitespaceTile2_2, 27);
    HoldsLeft(x, WhitespaceTile2_0, WhitespaceTile2_1, 27);
  }

  lemma WhitespacePiece2_1(x: seq<byte>)
    requires Holds(x, WhitespaceLine2, 27)
    ensures Holds(x, WhitespaceTile2_1, 39)
  {
    HoldsLeft(x, WhitespaceTile2_0 + WhitespaceTile2_1 + WhitespaceTile2_2 + WhitespaceTile2_3, WhitespaceTile2_4, 27);
    HoldsLeft(x, WhitespaceTile2_0 + WhitespaceTile2_1 + WhitespaceTile2_2, WhitespaceTile2_3, 27);
    HoldsLeft(x, WhitespaceTile2_0 + WhitespaceTile2_1, WhitespaceTile2_2, 27);
    HoldsRight(x, WhitespaceTile2_0, WhitespaceTile2_1, 27);
  }

  lemma WhitespacePiece2_2(x: seq<byte>)
    requires Holds(x, WhitespaceLine2, 27)
    ensures Holds(x, WhitespaceTile2_2, 43)
  {
    HoldsLeft(x, WhitespaceTile2_0 + WhitespaceTile2_1 + WhitespaceTile2_2 + WhitespaceTile2_3, WhitespaceTile2_4, 27);
    HoldsLeft(x, WhitespaceTile2_0 + WhitespaceTile2_1 + WhitespaceTile2_2, WhitespaceTile2_3, 27);
    HoldsRight(x, WhitespaceTile2_0 + WhitespaceTile2_1, WhitespaceTile2_2, 27);
  }

  lemma WhitespacePiece2_3(x: seq<byte>)
    requires Holds(x, WhitespaceLine2, 27)
    ensures Holds(x, WhitespaceTile2_3, 47)
  {
    HoldsLeft(x, WhitespaceTile2_0 + WhitespaceTile2_1 + WhitespaceTile2_2 + WhitespaceTile2_3, WhitespaceTile2_4, 27);
    HoldsRight(x, WhitespaceTile2_0 + WhitespaceTile2_1 + WhitespaceTile2_2, WhitespaceTile2_3, 27);
  }

  lemma WhitespacePiece2_4(x: seq<byte>)
    requires Holds(x, WhitespaceLine2, 27)
    ensures Holds(x, WhitespaceTile2_4, 49)
  {
    HoldsRight(x, WhitespaceTile2_0 + WhitespaceTile2_1 + WhitespaceTile2_2 + WhitespaceTile2_3, WhitespaceTile2_4, 27);
  }

  lemma WhitespacePiece4_0(x: seq<byte>)
    requires Holds(x, WhitespaceLine4, 54)
    ensures Holds(x, WhitespaceTile4_0, 54)
  {
    HoldsLeft(x, WhitespaceTile4_0 + WhitespaceTile4_1 + WhitespaceTile4_2 + WhitespaceTile4_3 + WhitespaceTile4_4 + WhitespaceTile4_5, WhitespaceTile4_6, 54);
    HoldsLeft(x, WhitespaceTile4_0 + WhitespaceTile4_1 + WhitespaceTile4_2 + WhitespaceTile4_3 + WhitespaceTile4_4, WhitespaceTile4_5, 54);
    HoldsLeft(x, WhitespaceTile4_0 + WhitespaceTile4_1 + WhitespaceTile4_2 + WhitespaceTile4_3, WhitespaceTile4_4, 54);
    HoldsLeft(x, WhitespaceTile4_0 + WhitespaceTile4_1 + WhitespaceTile4_2, WhitespaceTile4_3, 54);
    HoldsLeft(x, WhitespaceTile4_0 + WhitespaceTile4_1, WhitespaceTile4_2, 54);
    HoldsLeft(x, WhitespaceTile4_0, WhitespaceTile4_1, 54);
  }

  lemma WhitespacePiece4_1(x: seq<byte>)
    requires Holds(x, WhitespaceLine4, 54)
    ensures Holds(x, WhitespaceTile4_1, 66)
  {
    HoldsLeft(x, WhitespaceTile4_0 + WhitespaceTile4_1 + WhitespaceTile4_2 + WhitespaceTile4_3 + WhitespaceTile4_4 + WhitespaceTile4_5, WhitespaceTile4_6, 54);
    HoldsLeft(x, WhitespaceTile4_0 + WhitespaceTile4_1 + WhitespaceTile4_2 + WhitespaceTile4_3 + WhitespaceTile4_4, WhitespaceTile4_5, 54);
    HoldsLeft(x, WhitespaceTile4_0 + WhitespaceTile4_1 + WhitespaceTile4_2 + WhitespaceTile4_3, WhitespaceTile4_4, 54);
    HoldsLeft(x, WhitespaceTile4_0 + WhitespaceTile4_1 + WhitespaceTile4_2, WhitespaceTile4_3, 54);
    HoldsLeft(x, WhitespaceTile4_0 + WhitespaceTile4_1, WhitespaceTile4_2, 54);
    HoldsRight(x, WhitespaceTile4_0, WhitespaceTile4_1, 54);
  }

  lemma WhitespacePiece4_2(x: seq<byte>)
    requires Holds(x, WhitespaceLine4, 54)
    ensures Holds(x, WhitespaceTile4_2, 70)
  {
    HoldsLeft(x, WhitespaceTile4_0 + WhitespaceTile4_1 + WhitespaceTile4_2 + WhitespaceTile4_3 + WhitespaceTile4_4 + WhitespaceTile4_5, WhitespaceTile4_6, 54);
    HoldsLeft(x, WhitespaceTile4_0 + WhitespaceTile4_1 + WhitespaceTile4_2 + WhitespaceTile4_3 + WhitespaceTile4_4, WhitespaceTile4_5, 54);
    HoldsLeft(x, WhitespaceTile4_0 + WhitespaceTile4_1 + WhitespaceTile4_2 + WhitespaceTile4_3, WhitespaceTile4_4, 54);
    HoldsLeft(x, WhitespaceTile4_0 + WhitespaceTile4_1 + WhitespaceTile4_2, WhitespaceTile4_3, 54);
    HoldsRight(x, WhitespaceTile4_0 + WhitespaceTile4_1, WhitespaceTile4_2, 54);
  }

  lemma WhitespacePiece4_3(x: seq<byte>)
    requires Holds(x, WhitespaceLine4, 54)
    ensures Holds(x, WhitespaceTile4_3, 74)
  {
    HoldsLeft(x, WhitespaceTile4_0 + WhitespaceTile4_1 + WhitespaceTile4_2 + WhitespaceTile4_3 + WhitespaceTile4_4 + WhitespaceTile4_5, WhitespaceTile4_6, 54);
    HoldsLeft(x, WhitespaceTile4_0 + WhitespaceTile4_1 + WhitespaceTile4_2 + WhitespaceTile4_3 + WhitespaceTile4_4, WhitespaceTile4_5, 54);
    HoldsLeft(x, WhitespaceTile4_0 + WhitespaceTile4_1 + WhitespaceTile4_2 + WhitespaceTile4_3, WhitespaceTile4_4, 54);
    HoldsRight(x, WhitespaceTile4_0 + WhitespaceTile4_1 + WhitespaceTile4_2, WhitespaceTile4_3, 54);
  }

  lemma WhitespacePiece4_4(x: seq<byte>)
    requires Holds(x, WhitespaceLine4, 54)
    ensures Holds(x, WhitespaceTile4_4, 76)
  {
    HoldsLeft(x, WhitespaceTile4_0 + WhitespaceTile4_1 + WhitespaceTile4_2 + WhitespaceTile4_3 + WhitespaceTile4_4 + WhitespaceTile4_5, WhitespaceTile4_6, 54);
    HoldsLeft(x, WhitespaceTile4_0 + WhitespaceTile4_1 + WhitespaceTile4_2 + WhitespaceTile4_3 + WhitespaceTile4_4, WhitespaceTile4_5, 54);
    HoldsRight(x, WhitespaceTile4_0 + WhitespaceTile4_1 + WhitespaceTile4_2 + WhitespaceTile4_3, WhitespaceTile4_4, 54);
  }

  lemma WhitespacePiece4_5(x: seq<byte>)
    requires Holds(x, WhitespaceLine4, 54)
    ensures Holds(x, WhitespaceTile4_5, 82)
  {
    HoldsLeft(x, WhitespaceTile4_0 + WhitespaceTile4_1 + WhitespaceTile4_2 + WhitespaceTile4_3 + WhitespaceTile4_4 + WhitespaceTile4_5, WhitespaceTile4_6, 54);
    HoldsRight(x, WhitespaceTile4_0 + WhitespaceTile4_1 + WhitespaceTile4_2 + WhitespaceTile4_3 + WhitespaceTile4_4, WhitespaceTile4_5, 54);
  }

  lemma WhitespacePiece4_6(x: seq<byte>)
    requires Holds(x, WhitespaceLine4, 54)
    ensures Holds(x, WhitespaceTile4_6, 85)
  {
    HoldsRight(x, WhitespaceTile4_0 + WhitespaceTile4_1 + WhitespaceTile4_2 + WhitespaceTile4_3 + WhitespaceTile4_4 + WhitespaceTile4_5, WhitespaceTile4_6, 54);
  }

  lemma WhitespacePiece5_0(x: seq<byte>)
    requires Holds(x, WhitespaceLine5, 87)
    ensures Holds(x, WhitespaceTile5_0, 87)
  {
    HoldsLeft(x, WhitespaceTile5_0 + WhitespaceTile5_1 + WhitespaceTile5_2, WhitespaceTile5_3, 87);
    HoldsLeft(x, WhitespaceTile5_0 + WhitespaceTile5_1, WhitespaceTile5_2, 87);
    HoldsLeft(x, WhitespaceTile5_0, WhitespaceTile5_1, 87);
  }

  lemma WhitespacePiece5_1(x: seq<byte>)
    requires Holds(x, WhitespaceLine5, 87)
    ensures Holds(x, WhitespaceTile5_1, 101)
  {
    HoldsLeft(x, WhitespaceTile5_0 + WhitespaceTile5_1 + WhitespaceTile5_2, WhitespaceTile5_3, 87);
    HoldsLeft(x, WhitespaceTile5_0 + WhitespaceTile5_1, WhitespaceTile5_2, 87);
    HoldsRight(x, WhitespaceTile5_0, WhitespaceTile5_1, 87);
  }

  lemma WhitespacePiece5_2(x: seq<byte>)
    requires Holds(x, WhitespaceLine5, 87)
    ensures Holds(x, WhitespaceTile5_2, 103)
  {
    HoldsLeft(x, WhitespaceTile5_0 + WhitespaceTile5_1 + WhitespaceTile5_2, WhitespaceTile5_3, 87);
    HoldsRight(x, WhitespaceTile5_0 + WhitespaceTile5_1, WhitespaceTile5_2, 87);
  }

  lemma WhitespacePiece5_3(x: seq<byte>)
    requires Holds(x, WhitespaceLine5, 87)
    ensures Holds(x, WhitespaceTile5_3, 105)
  {
    HoldsRight(x, WhitespaceTile5_0 + WhitespaceTile5_1 + WhitespaceTile5_2, WhitespaceTile5_3, 87);
  }

  lemma WhitespacePiece6_0(x: seq<byte>)
    requires Holds(x, WhitespaceLine6, 108)
    ensures Holds(x, WhitespaceTile6_0, 108)
  {
    HoldsLeft(x, WhitespaceTile6_0, WhitespaceTile6_1, 108);
  }

  lemma WhitespacePiece6_1(x: seq<byte>)
    requires Holds(x, WhitespaceLine6, 108)
    ensures Holds(x, WhitespaceTile6_1, 120)
  {
    HoldsRight(x, WhitespaceTile6_0, WhitespaceTile6_1, 108);
  }

  lemma WhitespacePiece8_0(x: seq<byte>)
    requires Holds(x, WhitespaceLine8, 124)
    ensures Holds(x, WhitespaceTile8_0, 124)
  {
    HoldsLeft(x, WhitespaceTile8_0 + WhitespaceTile8_1 + WhitespaceTile8_2 + WhitespaceTile8_3 + WhitespaceTile8_4, WhitespaceTile8_5, 124);
    HoldsLeft(x, WhitespaceTile8_0 + WhitespaceTile8_1 + WhitespaceTile8_2 + WhitespaceTile8_3, WhitespaceTile8_4, 124);
    HoldsLeft(x, WhitespaceTile8_0 + WhitespaceTile8_1 + WhitespaceTile8_2, WhitespaceTile8_3, 124);
    HoldsLeft(x, WhitespaceTile8_0 + WhitespaceTile8_1, WhitespaceTile8_2, 124);
    HoldsLeft(x, WhitespaceTile8_0, WhitespaceTile8_1, 124);
  }

  lemma WhitespacePiece8_1(x: seq<byte>)
    requires Holds(x, WhitespaceLine8, 124)
    ensures Holds(x, WhitespaceTile8_1, 136)
  {
    HoldsLeft(x, WhitespaceTile8_0 + WhitespaceTile8_1 + WhitespaceTile8_2 + WhitespaceTile8_3 + WhitespaceTile8_4, WhitespaceTile8_5, 124);
    HoldsLeft(x, WhitespaceTile8_0 + WhitespaceTile8_1 + WhitespaceTile8_2 + WhitespaceTile8_3, WhitespaceTile8_4, 124);
    HoldsLeft(x, WhitespaceTile8_0 + WhitespaceTile8_1 + WhitespaceTile8_2, WhitespaceTile8_3, 124);
    HoldsLeft(x, WhitespaceTile8_0 + WhitespaceTile8_1, WhitespaceTile8_2, 124);
    HoldsRight(x, WhitespaceTile8_0, WhitespaceTile8_1, 124);
  }

  lemma WhitespacePiece8_2(x: seq<byte>)
    requires Holds(x, WhitespaceLine8, 124)
    ensures Holds(x, WhitespaceTile8_2, 140)
  {
    HoldsLeft(x, WhitespaceTile8_0 + WhitespaceTile8_1 + WhitespaceTile8_2 + WhitespaceTile8_3 + WhitespaceTile8_4, WhitespaceTile8_5, 124);
    HoldsLeft(x, WhitespaceTile8_0 + WhitespaceTile8_1 + WhitespaceTile8_2 + WhitespaceTile8_3, WhitespaceTile8_4, 124);
    HoldsLeft(x, WhitespaceTile8_0 + WhitespaceTile8_1 + WhitespaceTile8_2, WhitespaceTile8_3, 124);
    HoldsRight(x, WhitespaceTile8_0 + WhitespaceTile8_1, WhitespaceTile8_2, 124);
  }

  lemma WhitespacePiece8_3(x: seq<byte>)
    requires Holds(x, WhitespaceLine8, 124)
    ensures Holds(x, WhitespaceTile8_3, 147)
  {
    HoldsLeft(x, WhitespaceTile8_0 + WhitespaceTile8_1 + WhitespaceTile8_2 + WhitespaceTile8_3 + WhitespaceTile8_4, WhitespaceTile8_5, 124);
    HoldsLeft(x, WhitespaceTile8_0 + WhitespaceTile8_1 + WhitespaceTile8_2 + WhitespaceTile8_3, WhitespaceTile8_4, 124);
    HoldsRight(x, WhitespaceTile8_0 + WhitespaceTile8_1 + WhitespaceTile8_2, WhitespaceTile8_3, 124);
  }

  lemma WhitespacePiece8_4(x: seq<byte>)
    requires Holds(x, WhitespaceLine8, 124)
    ensures Holds(x, WhitespaceTile8_4, 149)
  {
    HoldsLeft(x, WhitespaceTile8_0 + WhitespaceTile8_1 + WhitespaceTile8_2 + WhitespaceTile8_3 + WhitespaceTile8_4, WhitespaceTile8_5, 124);
    HoldsRight(x, WhitespaceTile8_0 + WhitespaceTile8_1 + WhitespaceTile8_2 + WhitespaceTile8_3, WhitespaceTile8_4, 124);
  }

  lemma WhitespacePiece8_5(x: seq<byte>)
    requires Holds(x, WhitespaceLine8, 124)
    ensures Holds(x, WhitespaceTile8_5, 159)
  {
    HoldsRight(x, WhitespaceTile8_0 + WhitespaceTile8_1 + WhitespaceTile8_2 + WhitespaceTile8_3 + WhitespaceTile8_4, WhitespaceTile8_5, 124);
  }

  lemma WhitespaceInputLayout()
    ensures WhitespaceLayout(WhitespaceInput)
  {
    WhitespaceHolds0();
    WhitespaceHolds1();
    WhitespacePiece1_0(WhitespaceInput);
    WhitespacePiece1_1(WhitespaceInput);
    WhitespacePiece1_2(WhitespaceInput);
    WhitespacePiece1_3(WhitespaceInput);
    WhitespacePiece1_4(WhitespaceInput);
    WhitespaceHolds2();
    WhitespacePiece2_0(WhitespaceInput);
    WhitespacePiece2_1(WhitespaceInput);
    WhitespacePiece2_2(WhitespaceInput);
    WhitespacePiece2_3(WhitespaceInput);
    WhitespacePiece2_4(WhitespaceInput);
    WhitespaceHolds3();
    WhitespaceHolds4();
    WhitespacePiece4_0(WhitespaceInput);
    WhitespacePiece4_1(WhitespaceInput);
    WhitespacePiece4_2(WhitespaceInput);
    WhitespacePiece4_3(WhitespaceInput);
    WhitespacePiece4_4(WhitespaceInput);
    WhitespacePiece4_5(WhitespaceInput);
    WhitespacePiece4_6(WhitespaceInput);
    WhitespaceHolds5();
    WhitespacePiece5_0(WhitespaceInput);
    WhitespacePiece5_1(WhitespaceInput);
    WhitespacePiece5_2(WhitespaceInput);
    WhitespacePiece5_3(WhitespaceInput);
    WhitespaceHolds6();
    WhitespacePiece6_0(WhitespaceInput);
    WhitespacePiece6_1(WhitespaceInput);
    WhitespaceHolds7();
    WhitespaceHolds8();
    WhitespacePiece8_0(WhitespaceInput);
    WhitespacePiece8_1(WhitespaceInput);
    WhitespacePiece8_2(WhitespaceInput);
    WhitespacePiece8_3(WhitespaceInput);
    WhitespacePiece8_4(WhitespaceInput);
    WhitespacePiece8_5(WhitespaceInput);
    WhitespaceHolds9();
  }

  lemma WhitespaceSkip0(x: seq<byte>)
    requires Holds(x, WhitespaceTile0_0, 0) && Holds(x, WhitespaceTile1_0, 1)
    ensures Lex(x, 0) == Lex(x, 13)
  {
    SkipAcrossSpace(x, WhitespaceTile0_0, 0, 0);
    SkipAcrossSpace(x, WhitespaceTile1_0, 1, 0);
    LexAfterSkip(x, 0, 13);
  }

  lemma WhitespaceLex0()
    ensures CharAt(WhitespaceTile1_1, SkipEnd(WhitespaceTile1_1, 0)) != 0 && Lex(WhitespaceTile1_1, 0) == Step(Token(LET, Literal(AsciiBytes("let"))), 3)
  {
    RunEndAt(WhitespaceTile1_1, 0, 0, IsWhitespace);
    LexWordAt(WhitespaceTile1_1, 0, 0, AsciiBytes("let"));
    Word_let();
  }

  lemma WhitespaceAt0(x: seq<byte>)
    requires Holds(x, WhitespaceTile1_1, 13)
    ensures Lex(x, 13) == Step(Token(LET, Literal(AsciiBytes("let"))), 16)
  {
    WhitespaceLex0();
    LexWindow(x, WhitespaceTile1_1, 13, 0);
  }

  lemma WhitespaceSkip16(x: seq<byte>)
    requires Holds(x, WhitespaceTile1_1, 13)
    ensures Lex(x, 16) == Lex(x, 17)
  {
    SkipAcrossSpace(x, WhitespaceTile1_1, 13, 3);
    LexAfterSkip(x, 16, 17);
  }

  lemma WhitespaceLex16()
    ensures CharAt(WhitespaceTile1_2, SkipEnd(WhitespaceTile1_2, 0)) != 0 && Lex(WhitespaceTile1_2, 0) == Step(Token(IDENT("five"), Literal(AsciiBytes("five"))), 4)
  {
    RunEndAt(WhitespaceTile1_2, 0, 0, IsWhitespace);
    LexWordAt(WhitespaceTile1_2, 0, 0, AsciiBytes("five"));
    Word_five();
  }

  lemma WhitespaceAt16(x: seq<byte>)
    requires Holds(x, WhitespaceTile1_2, 17)
    ensures Lex(x, 17) == Step(Token(IDENT("five"), Literal(AsciiBytes("five"))), 21)
  {
    WhitespaceLex16();
    LexWindow(x, WhitespaceTile1_2, 17, 0);
  }

  lemma WhitespaceSkip21(x: seq<byte>)
    requires Holds(x, WhitespaceTile1_2, 17)
    ensures Lex(x, 21) == Lex(x, 22)
  {
    SkipAcrossSpace(x, WhitespaceTile1_2, 17, 4);
    LexAfterSkip(x, 21, 22);
  }

  lemma WhitespaceLex21()
    ensures CharAt(WhitespaceTile1_3, SkipEnd(WhitespaceTile1_3, 0)) != 0 && Lex(WhitespaceTile1_3, 0) == Step(Token(ASSIGN, Literal(AsciiBytes("="))), 1)
  {
    RunEndAt(WhitespaceTile1_3, 0, 0, IsWhitespace);
  }

  lemma WhitespaceAt21(x: seq<byte>)
    requires Holds(x, WhitespaceTile1_3, 22)
    ensures Lex(x, 22) == Step(Token(ASSIGN, Literal(AsciiBytes("="))), 23)
  {
    WhitespaceLex21();
    LexWindow(x, WhitespaceTile1_3, 22, 0);
  }

  lemma WhitespaceSkip23(x: seq<byte>)
    requires Holds(x, WhitespaceTile1_3, 22)
    ensures Lex(x, 23) == Lex(x, 24)
  {
    SkipAcrossSpace(x, WhitespaceTile1_3, 22, 1);
    LexAfterSkip(x, 23, 24);
  }

  lemma WhitespaceLex23()
    ensures CharAt(WhitespaceTile1_4, SkipEnd(WhitespaceTile1_4, 0)) != 0 && Lex(WhitespaceTile1_4, 0) == Step(Token(INT(5), Literal(AsciiBytes("5"))), 1)
  {
    RunEndAt(WhitespaceTile1_4, 0, 0, IsWhitespace);
    LexNumberAt(WhitespaceTile1_4, 0, 0, AsciiBytes("5"));
    Number_5();
  }

  lemma WhitespaceAt23(x: seq<byte>)
    requires Holds(x, WhitespaceTile1_4, 24)
    ensures Lex(x, 24) == Step(Token(INT(5), Literal(AsciiBytes("5"))), 25)
  {
    WhitespaceLex23();
    LexWindow(x, WhitespaceTile1_4, 24, 0);
  }

  lemma WhitespaceLex25()
    ensures CharAt(WhitespaceTile1_4, SkipEnd(WhitespaceTile1_4, 1)) != 0 && Lex(WhitespaceTile1_4, 1) == Step(Token(SEMICOLON, Literal(AsciiBytes(";"))), 2)
  {
    RunEndAt(WhitespaceTile1_4, 1, 1, IsWhitespace);
  }

  lemma WhitespaceAt25(x: seq<byte>)
    requires Holds(x, WhitespaceTile1_4, 24)
    ensures Lex(x, 25) == Step(Token(SEMICOLON, Literal(AsciiBytes(";"))), 26)
  {
    WhitespaceLex25();
    LexWindow(x, WhitespaceTile1_4, 24, 1);
  }

  lemma WhitespaceSkip26(x: seq<byte>)
    requires Holds(x, WhitespaceTile1_4, 24) && Holds(x, WhitespaceTile2_0, 27)
    ensures Lex(x, 26) == Lex(x, 39)
  {
    SkipAcrossSpace(x, WhitespaceTile1_4, 24, 2);
    SkipAcrossSpace(x, WhitespaceTile2_0, 27, 0);
    LexAfterSkip(x, 26, 39);
  }

  lemma WhitespaceLex26()
    ensures CharAt(WhitespaceTile2_1, SkipEnd(WhitespaceTile2_1, 0)) != 0 && Lex(WhitespaceTile2_1, 0) == Step(Token(LET, Literal(AsciiBytes("let"))), 3)
  {
    RunEndAt(WhitespaceTile2_1, 0, 0, IsWhitespace);
    LexWordAt(WhitespaceTile2_1, 0, 0, AsciiBytes("let"));
    Word_let();
  }

  lemma WhitespaceAt26(x: seq<byte>)
    requires Holds(x, WhitespaceTile2_1, 39)
    ensures Lex(x, 39) == Step(Token(LET, Literal(AsciiBytes("let"))), 42)
  {
    WhitespaceLex26();
    LexWindow(x, WhitespaceTile2_1, 39, 0);
  }

  lemma WhitespaceSkip42(x: seq<byte>)
    requires Holds(x, WhitespaceTile2_1, 39)
    ensures Lex(x, 42) == Lex(x, 43)
  {
    SkipAcrossSpace(x, WhitespaceTile2_1, 39, 3);
    LexAfterSkip(x, 42, 43);
  }

  lemma WhitespaceLex42()
    ensures CharAt(WhitespaceTile2_2, SkipEnd(WhitespaceTile2_2, 0)) != 0 && Lex(WhitespaceTile2_2, 0) == Step(Token(IDENT("ten"), Literal(AsciiBytes("ten"))), 3)
  {
    RunEndAt(WhitespaceTile2_2, 0, 0, IsWhitespace);
    LexWordAt(WhitespaceTile2_2, 0, 0, AsciiBytes("ten"));
    Word_ten();
  }

  lemma WhitespaceAt42(x: seq<byte>)
    requires Holds(x, WhitespaceTile2_2, 43)
    ensures Lex(x, 43) == Step(Token(IDENT("ten"), Literal(AsciiBytes("ten"))), 46)
  {
    WhitespaceLex42();
    LexWindow(x, WhitespaceTile2_2, 43, 0);
  }

  lemma WhitespaceSkip46(x: seq<byte>)
    requires Holds(x, WhitespaceTile2_2, 43)
    ensures Lex(x, 46) == Lex(x, 47)
  {
    SkipAcrossSpace(x, WhitespaceTile2_2, 43, 3);
    LexAfterSkip(x, 46, 47);
  }

  lemma WhitespaceLex46()
    ensures CharAt(WhitespaceTile2_3, SkipEnd(WhitespaceTile2_3, 0)) != 0 && Lex(WhitespaceTile2_3, 0) == Step(Token(ASSIGN, Literal(AsciiBytes("="))), 1)
  {
    RunEndAt(WhitespaceTile2_3, 0, 0, IsWhitespace);
  }

  lemma WhitespaceAt46(x: seq<byte>)
    requires Holds(x, WhitespaceTile2_3, 47)
    ensures Lex(x, 47) == Step(Token(ASSIGN, Literal(AsciiBytes("="))), 48)
  {
    WhitespaceLex46();
    LexWindow(x, WhitespaceTile2_3, 47, 0);
  }

  lemma WhitespaceSkip48(x: seq<byte>)
    requires Holds(x, WhitespaceTile2_3, 47)
    ensures Lex(x, 48) == Lex(x, 49)
  {
    SkipAcrossSpace(x, WhitespaceTile2_3, 47, 1);
    LexAfterSkip(x, 48, 49);
  }

  lemma WhitespaceLex48()
    ensures CharAt(WhitespaceTile2_4, SkipEnd(WhitespaceTile2_4, 0)) != 0 && Lex(WhitespaceTile2_4, 0) == Step(Token(INT(10), Literal(AsciiBytes("10"))), 2)
  {
    RunEndAt(WhitespaceTile2_4, 0, 0, IsWhitespace);
    LexNumberAt(WhitespaceTile2_4, 0, 0, AsciiBytes("10"));
    Number_10();
  }

  lemma WhitespaceAt48(x: seq<byte>)
    requires Holds(x, WhitespaceTile2_4, 49)
    ensures Lex(x, 49) == Step(Token(INT(10), Literal(AsciiBytes("10"))), 51)
  {
    WhitespaceLex48();
    LexWindow(x, WhitespaceTile2_4, 49, 0);
  }

  lemma WhitespaceLex51()
    ensures CharAt(WhitespaceTile2_4, SkipEnd(WhitespaceTile2_4, 2)) != 0 && Lex(WhitespaceTile2_4, 2) == Step(Token(SEMICOLON, Literal(AsciiBytes(";"))), 3)
  {
    RunEndAt(WhitespaceTile2_4, 2, 2, IsWhitespace);
  }

  lemma WhitespaceAt51(x: seq<byte>)
    requires Holds(x, WhitespaceTile2_4, 49)
    ensures Lex(x, 51) == Step(Token(SEMICOLON, Literal(AsciiBytes(";"))), 52)
  {
    WhitespaceLex51();
    LexWindow(x, WhitespaceTile2_4, 49, 2);
  }

  lemma WhitespaceSkip52(x: seq<byte>)
    requires Holds(x, WhitespaceTile2_4, 49) && Holds(x, WhitespaceTile3_0, 53) && Holds(x, WhitespaceTile4_0, 54)
    ensures Lex(x, 52) == Lex(x, 66)
  {
    SkipAcrossSpace(x, WhitespaceTile2_4, 49, 3);
    SkipAcrossSpace(x, WhitespaceTile3_0, 53, 0);
    SkipAcrossSpace(x, WhitespaceTile4_0, 54, 0);
    LexAfterSkip(x, 52, 66);
  }

  lemma WhitespaceLex52()
    ensures CharAt(WhitespaceTile4_1, SkipEnd(WhitespaceTile4_1, 0)) != 0 && Lex(WhitespaceTile4_1, 0) == Step(Token(LET, Literal(AsciiBytes("let"))), 3)
  {
    RunEndAt(WhitespaceTile4_1, 0, 0, IsWhitespace);
    LexWordAt(WhitespaceTile4_1, 0, 0, AsciiBytes("let"));
    Word_let();
  }

  lemma WhitespaceAt52(x: seq<byte>)
    requires Holds(x, WhitespaceTile4_1, 66)
    ensures Lex(x, 66) == Step(Token(LET, Literal(AsciiBytes("let"))), 69)
  {
    WhitespaceLex52();
    LexWindow(x, WhitespaceTile4_1, 66, 0);
  }

  lemma WhitespaceSkip69(x: seq<byte>)
    requires Holds(x, WhitespaceTile4_1, 66)
    ensures Lex(x, 69) == Lex(x, 70)
  {
    SkipAcrossSpace(x, WhitespaceTile4_1, 66, 3);
    LexAfterSkip(x, 69, 70);
  }

  lemma WhitespaceLex69()
    ensures CharAt(WhitespaceTile4_2, SkipEnd(WhitespaceTile4_2, 0)) != 0 && Lex(WhitespaceTile4_2, 0) == Step(Token(IDENT("add"), Literal(AsciiBytes("add"))), 3)
  {
    RunEndAt(WhitespaceTile4_2, 0, 0, IsWhitespace);
    LexWordAt(WhitespaceTile4_2, 0, 0, AsciiBytes("add"));
    Word_add();
  }

  lemma WhitespaceAt69(x: seq<byte>)
    requires Holds(x, WhitespaceTile4_2, 70)
    ensures Lex(x, 70) == Step(Token(IDENT("add"), Literal(AsciiBytes("add"))), 73)
  {
    WhitespaceLex69();
    LexWindow(x, WhitespaceTile4_2, 70, 0);
  }

  lemma WhitespaceSkip73(x: seq<byte>)
    requires Holds(x, WhitespaceTile4_2, 70)
    ensures Lex(x, 73) == Lex(x, 74)
  {
    SkipAcrossSpace(x, WhitespaceTile4_2, 70, 3);
    LexAfterSkip(x, 73, 74);
  }

  lemma WhitespaceLex73()
    ensures CharAt(WhitespaceTile4_3, SkipEnd(WhitespaceTile4_3, 0)) != 0 && Lex(WhitespaceTile4_3, 0) == Step(Token(ASSIGN, Literal(AsciiBytes("="))), 1)
  {
    RunEndAt(WhitespaceTile4_3, 0, 0, IsWhitespace);
  }

  lemma WhitespaceAt73(x: seq<byte>)
    requires Holds(x, WhitespaceTile4_3, 74)
    ensures Lex(x, 74) == Step(Token(ASSIGN, Literal(AsciiBytes("="))), 75)
  {
    WhitespaceLex73();
    LexWindow(x, WhitespaceTile4_3, 74, 0);
  }

  lemma WhitespaceSkip75(x: seq<byte>)
    requires Holds(x, WhitespaceTile4_3, 74)
    ensures Lex(x, 75) == Lex(x, 76)
  {
    SkipAcrossSpace(x, WhitespaceTile4_3, 74, 1);
    LexAfterSkip(x, 75, 76);
  }

  lemma WhitespaceLex75()
    ensures CharAt(WhitespaceTile4_4, SkipEnd(WhitespaceTile4_4, 0)) != 0 && Lex(WhitespaceTile4_4, 0) == Step(Token(FUNCTION, Literal(AsciiBytes("fn"))), 2)
  {
    RunEndAt(WhitespaceTile4_4, 0, 0, IsWhitespace);
    LexWordAt(WhitespaceTile4_4, 0, 0, AsciiBytes("fn"));
    Word_fn();
  }

  lemma WhitespaceAt75(x: seq<byte>)
    requires Holds(x, WhitespaceTile4_4, 76)
    ensures Lex(x, 76) == Step(Token(FUNCTION, Literal(AsciiBytes("fn"))), 78)
  {
    WhitespaceLex75();
    LexWindow(x, WhitespaceTile4_4, 76, 0);
  }

  lemma WhitespaceLex78()
    ensures CharAt(WhitespaceTile4_4, SkipEnd(WhitespaceTile4_4, 2)) != 0 && Lex(WhitespaceTile4_4, 2) == Step(Token(LPAREN, Literal(AsciiBytes("("))), 3)
  {
    RunEndAt(WhitespaceTile4_4, 2, 2, IsWhitespace);
  }

  lemma WhitespaceAt78(x: seq<byte>)
    requires Holds(x, WhitespaceTile4_4, 76)
    ensures Lex(x, 78) == Step(Token(LPAREN, Literal(AsciiBytes("("))), 79)
  {
    WhitespaceLex78();
    LexWindow(x, WhitespaceTile4_4, 76, 2);
  }

  lemma WhitespaceLex79()
    ensures CharAt(WhitespaceTile4_4, SkipEnd(WhitespaceTile4_4, 3)) != 0 && Lex(WhitespaceTile4_4, 3) == Step(Token(IDENT("x"), Literal(AsciiBytes("x"))), 4)
  {
    RunEndAt(WhitespaceTile4_4, 3, 3, IsWhitespace);
    LexWordAt(WhitespaceTile4_4, 3, 3, AsciiBytes("x"));
    Word_x();
  }

  lemma WhitespaceAt79(x: seq<byte>)
    requires Holds(x, WhitespaceTile4_4, 76)
    ensures Lex(x, 79) == Step(Token(IDENT("x"), Literal(AsciiBytes("x"))), 80)
  {
    WhitespaceLex79();
    LexWindow(x, WhitespaceTile4_4, 76, 3);
  }

  lemma WhitespaceLex80()
    ensures CharAt(WhitespaceTile4_4, SkipEnd(WhitespaceTile4_4, 4)) != 0 && Lex(WhitespaceTile4_4, 4) == Step(Token(COMMA, Literal(AsciiBytes(","))), 5)
  {
    RunEndAt(WhitespaceTile4_4, 4, 4, IsWhitespace);
  }

  lemma WhitespaceAt80(x: seq<byte>)
    requires Holds(x, WhitespaceTile4_4, 76)
    ensures Lex(x, 80) == Step(Token(COMMA, Literal(AsciiBytes(","))), 81)
  {
    WhitespaceLex80();
    LexWindow(x, WhitespaceTile4_4, 76, 4);
  }

  lemma WhitespaceSkip81(x: seq<byte>)
    requires Holds(x, WhitespaceTile4_4, 76)
    ensures Lex(x, 81) == Lex(x, 82)
  {
    SkipAcrossSpace(x, WhitespaceTile4_4, 76, 5);
    LexAfterSkip(x, 81, 82);
  }

  lemma WhitespaceLex81()
    ensures CharAt(WhitespaceTile4_5, SkipEnd(WhitespaceTile4_5, 0)) != 0 && Lex(WhitespaceTile4_5, 0) == Step(Token(IDENT("y"), Literal(AsciiBytes("y"))), 1)
  {
    RunEndAt(WhitespaceTile4_5, 0, 0, IsWhitespace);
    LexWordAt(WhitespaceTile4_5, 0, 0, AsciiBytes("y"));
    Word_y();
  }

  lemma WhitespaceAt81(x: seq<byte>)
    requires Holds(x, WhitespaceTile4_5, 82)
    ensures Lex(x, 82) == Step(Token(IDENT("y"), Literal(AsciiBytes("y"))), 83)
  {
    WhitespaceLex81();
    LexWindow(x, WhitespaceTile4_5, 82, 0);
  }

  lemma WhitespaceLex83()
    ensures CharAt(WhitespaceTile4_5, SkipEnd(WhitespaceTile4_5, 1)) != 0 && Lex(WhitespaceTile4_5, 1) == Step(Token(RPAREN, Literal(AsciiBytes(")"))), 2)
  {
    RunEndAt(WhitespaceTile4_5, 1, 1, IsWhitespace);
  }

  lemma WhitespaceAt83(x: seq<byte>)
    requires Holds(x, WhitespaceTile4_5, 82)
    ensures Lex(x, 83) == Step(Token(RPAREN, Literal(AsciiBytes(")"))), 84)
  {
    WhitespaceLex83();
    LexWindow(x, WhitespaceTile4_5, 82, 1);
  }

  lemma WhitespaceSkip84(x: seq<byte>)
    requires Holds(x, WhitespaceTile4_5, 82)
    ensures Lex(x, 84) == Lex(x, 85)
  {
    SkipAcrossSpace(x, WhitespaceTile4_5, 82, 2);
    LexAfterSkip(x, 84, 85);
  }

  lemma WhitespaceLex84()
    ensures CharAt(WhitespaceTile4_6, SkipEnd(WhitespaceTile4_6, 0)) != 0 && Lex(WhitespaceTile4_6, 0) == Step(Token(LBRACE, Literal(AsciiBytes("{"))), 1)
  {
    RunEndAt(WhitespaceTile4_6, 0, 0, IsWhitespace);
  }

  lemma WhitespaceAt84(x: seq<byte>)
    requires Holds(x, WhitespaceTile4_6, 85)
    ensures Lex(x, 85) == Step(Token(LBRACE, Literal(AsciiBytes("{"))), 86)
  {
    WhitespaceLex84();
    LexWindow(x, WhitespaceTile4_6, 85, 0);
  }

  lemma WhitespaceSkip86(x: seq<byte>)
    requires Holds(x, WhitespaceTile4_6, 85) && Holds(x, WhitespaceTile5_0, 87)
    ensures Lex(x, 86) == Lex(x, 101)
  {
    SkipAcrossSpace(x, WhitespaceTile4_6, 85, 1);
    SkipAcrossSpace(x, WhitespaceTile5_0, 87, 0);
    LexAfterSkip(x, 86, 101);
  }

  lemma WhitespaceLex86()
    ensures CharAt(WhitespaceTile5_1, SkipEnd(WhitespaceTile5_1, 0)) != 0 && Lex(WhitespaceTile5_1, 0) == Step(Token(IDENT("x"), Literal(AsciiBytes("x"))), 1)
  {
    RunEndAt(WhitespaceTile5_1, 0, 0, IsWhitespace);
    LexWordAt(WhitespaceTile5_1, 0, 0, AsciiBytes("x"));
    Word_x();
  }

  lemma WhitespaceAt86(x: seq<byte>)
    requires Holds(x, WhitespaceTile5_1, 101)
    ensures Lex(x, 101) == Step(Token(IDENT("x"), Literal(AsciiBytes("x"))), 102)
  {
    WhitespaceLex86();
    LexWindow(x, WhitespaceTile5_1, 101, 0);
  }

  lemma WhitespaceSkip102(x: seq<byte>)
    requires Holds(x, WhitespaceTile5_1, 101)
    ensures Lex(x, 102) == Lex(x, 103)
  {
    SkipAcrossSpace(x, WhitespaceTile5_1, 101, 1);
    LexAfterSkip(x, 102, 103);
  }

  lemma WhitespaceLex102()
    ensures CharAt(WhitespaceTile5_2, SkipEnd(WhitespaceTile5_2, 0)) != 0 && Lex(WhitespaceTile5_2, 0) == Step(Token(PLUS, Literal(AsciiBytes("+"))), 1)
  {
    RunEndAt(WhitespaceTile5_2, 0, 0, IsWhitespace);
  }

  lemma WhitespaceAt102(x: seq<byte>)
    requires Holds(x, WhitespaceTile5_2, 103)
    ensures Lex(x, 103) == Step(Token(PLUS, Literal(AsciiBytes("+"))), 104)
  {
    WhitespaceLex102();
    LexWindow(x, WhitespaceTile5_2, 103, 0);
  }

  lemma WhitespaceSkip104(x: seq<byte>)
    requires Holds(x, WhitespaceTile5_2, 103)
    ensures Lex(x, 104) == Lex(x, 105)
  {
    SkipAcrossSpace(x, WhitespaceTile5_2, 103, 1);
    LexAfterSkip(x, 104, 105);
  }

  lemma WhitespaceLex104()
    ensures CharAt(WhitespaceTile5_3, SkipEnd(WhitespaceTile5_3, 0)) != 0 && Lex(WhitespaceTile5_3, 0) == Step(Token(IDENT("y"), Literal(AsciiBytes("y"))), 1)
  {
    RunEndAt(WhitespaceTile5_3, 0, 0, IsWhitespace);
    LexWordAt(WhitespaceTile5_3, 0, 0, AsciiBytes("y"));
    Word_y();
  }

  lemma WhitespaceAt104(x: seq<byte>)
    requires Holds(x, WhitespaceTile5_3, 105)
    ensures Lex(x, 105) == Step(Token(IDENT("y"), Literal(AsciiBytes("y"))), 106)
  {
    WhitespaceLex104();
    LexWindow(x, WhitespaceTile5_3, 105, 0);
  }

  lemma WhitespaceLex106()
    ensures CharAt(WhitespaceTile5_3, SkipEnd(WhitespaceTile5_3, 1)) != 0 && Lex(WhitespaceTile5_3, 1) == Step(Token(SEMICOLON, Literal(AsciiBytes(";"))), 2)
  {
    RunEndAt(WhitespaceTile5_3, 1, 1, IsWhitespace);
  }

  lemma WhitespaceAt106(x: seq<byte>)
    requires Holds(x, WhitespaceTile5_3, 105)
    ensures Lex(x, 106) == Step(Token(SEMICOLON, Literal(AsciiBytes(";"))), 107)
  {
    WhitespaceLex106();
    LexWindow(x, WhitespaceTile5_3, 105, 1);
  }

  lemma WhitespaceSkip107(x: seq<byte>)
    requires Holds(x, WhitespaceTile5_3, 105) && Holds(x, WhitespaceTile6_0, 108)
    ensures Lex(x, 107) == Lex(x, 120)
  {
    SkipAcrossSpace(x, WhitespaceTile5_3, 105, 2);
    SkipAcrossSpace(x, WhitespaceTile6_0, 108, 0);
    LexAfterSkip(x, 107, 120);
  }

  lemma WhitespaceLex107()
    ensures CharAt(WhitespaceTile6_1, SkipEnd(WhitespaceTile6_1, 0)) != 0 && Lex(WhitespaceTile6_1, 0) == Step(Token(RBRACE, Literal(AsciiBytes("}"))), 1)
  {
    RunEndAt(WhitespaceTile6_1, 0, 0, IsWhitespace);
  }

  lemma WhitespaceAt107(x: seq<byte>)
    requires Holds(x, WhitespaceTile6_1, 120)
    ensures Lex(x, 120) == Step(Token(RBRACE, Literal(AsciiBytes("}"))), 121)
  {
    WhitespaceLex107();
    LexWindow(x, WhitespaceTile6_1, 120, 0);
  }

  lemma WhitespaceLex121()
    ensures CharAt(WhitespaceTile6_1, SkipEnd(WhitespaceTile6_1, 1)) != 0 && Lex(WhitespaceTile6_1, 1) == Step(Token(SEMICOLON, Literal(AsciiBytes(";"))), 2)
  {
    RunEndAt(WhitespaceTile6_1, 1, 1, IsWhitespace);
  }

  lemma WhitespaceAt121(x: seq<byte>)
    requires Holds(x, WhitespaceTile6_1, 120)
    ensures Lex(x, 121) == Step(Token(SEMICOLON, Literal(AsciiBytes(";"))), 122)
  {
    WhitespaceLex121();
    LexWindow(x, WhitespaceTile6_1, 120, 1);
  }

  lemma WhitespaceSkip122(x: seq<byte>)
    requires Holds(x, WhitespaceTile6_1, 120) && Holds(x, WhitespaceTile7_0, 123) && Holds(x, WhitespaceTile8_0, 124)
    ensures Lex(x, 122) == Lex(x, 136)
  {
    SkipAcrossSpace(x, WhitespaceTile6_1, 120, 2);
    SkipAcrossSpace(x, WhitespaceTile7_0, 123, 0);
    SkipAcrossSpace(x, WhitespaceTile8_0, 124, 0);
    LexAfterSkip(x, 122, 136);
  }

  lemma WhitespaceLex122()
    ensures CharAt(WhitespaceTile8_1, SkipEnd(WhitespaceTile8_1, 0)) != 0 && Lex(WhitespaceTile8_1, 0) == Step(Token(LET, Literal(AsciiBytes("let"))), 3)
  {
    RunEndAt(WhitespaceTile8_1, 0, 0, IsWhitespace);
    LexWordAt(WhitespaceTile8_1, 0, 0, AsciiBytes("let"));
    Word_let();
  }

  lemma WhitespaceAt122(x: seq<byte>)
    requires Holds(x, WhitespaceTile8_1, 136)
    ensures Lex(x, 136) == Step(Token(LET, Literal(AsciiBytes("let"))), 139)
  {
    WhitespaceLex122();
    LexWindow(x, WhitespaceTile8_1, 136, 0);
  }

  lemma WhitespaceSkip139(x: seq<byte>)
    requires Holds(x, WhitespaceTile8_1, 136)
    ensures Lex(x, 139) == Lex(x, 140)
  {
    SkipAcrossSpace(x, WhitespaceTile8_1, 136, 3);
    LexAfterSkip(x, 139, 140);
  }

  lemma WhitespaceLex139()
    ensures CharAt(WhitespaceTile8_2, SkipEnd(WhitespaceTile8_2, 0)) != 0 && Lex(WhitespaceTile8_2, 0) == Step(Token(IDENT("result"), Literal(AsciiBytes("result"))), 6)
  {
    RunEndAt(WhitespaceTile8_2, 0, 0, IsWhitespace);
    LexWordAt(WhitespaceTile8_2, 0, 0, AsciiBytes("result"));
    Word_result();
  }

  lemma WhitespaceAt139(x: seq<byte>)
    requires Holds(x, WhitespaceTile8_2, 140)
    ensures Lex(x, 140) == Step(Token(IDENT("result"), Literal(AsciiBytes("result"))), 146)
  {
    WhitespaceLex139();
    LexWindow(x, WhitespaceTile8_2, 140, 0);
  }

  lemma WhitespaceSkip146(x: seq<byte>)
    requires Holds(x, WhitespaceTile8_2, 140)
    ensures Lex(x, 146) == Lex(x, 147)
  {
    SkipAcrossSpace(x, WhitespaceTile8_2, 140, 6);
    LexAfterSkip(x, 146, 147);
  }

  lemma WhitespaceLex146()
    ensures CharAt(WhitespaceTile8_3, SkipEnd(WhitespaceTile8_3, 0)) != 0 && Lex(WhitespaceTile8_3, 0) == Step(Token(ASSIGN, Literal(AsciiBytes("="))), 1)
  {
    RunEndAt(WhitespaceTile8_3, 0, 0, IsWhitespace);
  }

  lemma WhitespaceAt146(x: seq<byte>)
    requires Holds(x, WhitespaceTile8_3, 147)
    ensures Lex(x, 147) == Step(Token(ASSIGN, Literal(AsciiBytes("="))), 148)
  {
    WhitespaceLex146();
    LexWindow(x, WhitespaceTile8_3, 147, 0);
  }

  lemma WhitespaceSkip148(x: seq<byte>)
    requires Holds(x, WhitespaceTile8_3, 147)
    ensures Lex(x, 148) == Lex(x, 149)
  {
    SkipAcrossSpace(x, WhitespaceTile8_3, 147, 1);
    LexAfterSkip(x, 148, 149);
  }

  lemma WhitespaceLex148()
    ensures CharAt(WhitespaceTile8_4, SkipEnd(WhitespaceTile8_4, 0)) != 0 && Lex(WhitespaceTile8_4, 0) == Step(Token(IDENT("add"), Literal(AsciiBytes("add"))), 3)
  {
    RunEndAt(WhitespaceTile8_4, 0, 0, IsWhitespace);
    LexWordAt(WhitespaceTile8_4, 0, 0, AsciiBytes("add"));
    Word_add();
  }

  lemma WhitespaceAt148(x: seq<byte>)
    requires Holds(x, WhitespaceTile8_4, 149)
    ensures Lex(x, 149) == Step(Token(IDENT("add"), Literal(AsciiBytes("add"))), 152)
  {
    WhitespaceLex148();
    LexWindow(x, WhitespaceTile8_4, 149, 0);
  }

  lemma WhitespaceLex152()
    ensures CharAt(WhitespaceTile8_4, SkipEnd(WhitespaceTile8_4, 3)) != 0 && Lex(WhitespaceTile8_4, 3) == Step(Token(LPAREN, Literal(AsciiBytes("("))), 4)
  {
    RunEndAt(WhitespaceTile8_4, 3, 3, IsWhitespace);
  }

  lemma WhitespaceAt152(x: seq<byte>)
    requires Holds(x, WhitespaceTile8_4, 149)
    ensures Lex(x, 152) == Step(Token(LPAREN, Literal(AsciiBytes("("))), 153)
  {
    WhitespaceLex152();
    LexWindow(x, WhitespaceTile8_4, 149, 3);
  }

  lemma WhitespaceLex153()
    ensures CharAt(WhitespaceTile8_4, SkipEnd(WhitespaceTile8_4, 4)) != 0 && Lex(WhitespaceTile8_4, 4) == Step(Token(IDENT("five"), Literal(AsciiBytes("five"))), 8)
  {
    RunEndAt(WhitespaceTile8_4, 4, 4, IsWhitespace);
    LexWordAt(WhitespaceTile8_4, 4, 4, AsciiBytes("five"));
    Word_five();
  }

  lemma WhitespaceAt153(x: seq<byte>)
    requires Holds(x, WhitespaceTile8_4, 149)
    ensures Lex(x, 153) == Step(Token(IDENT("five"), Literal(AsciiBytes("five"))), 157)
  {
    WhitespaceLex153();
    LexWindow(x, WhitespaceTile8_4, 149, 4);
  }

  lemma WhitespaceLex157()
    ensures CharAt(WhitespaceTile8_4, SkipEnd(WhitespaceTile8_4, 8)) != 0 && Lex(WhitespaceTile8_4, 8) == Step(Token(COMMA, Literal(AsciiBytes(","))), 9)
  {
    RunEndAt(WhitespaceTile8_4, 8, 8, IsWhitespace);
  }

  lemma WhitespaceAt157(x: seq<byte>)
    requires Holds(x, WhitespaceTile8_4, 149)
    ensures Lex(x, 157) == Step(Token(COMMA, Literal(AsciiBytes(","))), 158)
  {
    WhitespaceLex157();
    LexWindow(x, WhitespaceTile8_4, 149, 8);
  }

  lemma WhitespaceSkip158(x: seq<byte>)
    requires Holds(x, WhitespaceTile8_4, 149)
    ensures Lex(x, 158) == Lex(x, 159)
  {
    SkipAcrossSpace(x, WhitespaceTile8_4, 149, 9);
    LexAfterSkip(x, 158, 159);
  }

  lemma WhitespaceLex158()
    ensures CharAt(WhitespaceTile8_5, SkipEnd(WhitespaceTile8_5, 0)) != 0 && Lex(WhitespaceTile8_5, 0) == Step(Token(IDENT("ten"), Literal(AsciiBytes("ten"))), 3)
  {
    RunEndAt(WhitespaceTile8_5, 0, 0, IsWhitespace);
    LexWordAt(WhitespaceTile8_5, 0, 0, AsciiBytes("ten"));
    Word_ten();
  }

  lemma WhitespaceAt158(x: seq<byte>)
    requires Holds(x, WhitespaceTile8_5, 159)
    ensures Lex(x, 159) == Step(Token(IDENT("ten"), Literal(AsciiBytes("ten"))), 162)
  {
    WhitespaceLex158();
    LexWindow(x, WhitespaceTile8_5, 159, 0);
  }

  lemma WhitespaceLex162()
    ensures CharAt(WhitespaceTile8_5, SkipEnd(WhitespaceTile8_5, 3)) != 0 && Lex(WhitespaceTile8_5, 3) == Step(Token(RPAREN, Literal(AsciiBytes(")"))), 4)
  {
    RunEndAt(WhitespaceTile8_5, 3, 3, IsWhitespace);
  }

  lemma WhitespaceAt162(x: seq<byte>)
    requires Holds(x, WhitespaceTile8_5, 159)
    ensures Lex(x, 162) == Step(Token(RPAREN, Literal(AsciiBytes(")"))), 163)
  {
    WhitespaceLex162();
    LexWindow(x, WhitespaceTile8_5, 159, 3);
  }

  lemma WhitespaceLex163()
    ensures CharAt(WhitespaceTile8_5, SkipEnd(WhitespaceTile8_5, 4)) != 0 && Lex(WhitespaceTile8_5, 4) == Step(Token(SEMICOLON, Literal(AsciiBytes(";"))), 5)
  {
    RunEndAt(WhitespaceTile8_5, 4, 4, IsWhitespace);
  }

  lemma WhitespaceAt163(x: seq<byte>)
    requires Holds(x, WhitespaceTile8_5, 159)
    ensures Lex(x, 163) == Step(Token(SEMICOLON, Literal(AsciiBytes(";"))), 164)
  {
    WhitespaceLex163();
    LexWindow(x, WhitespaceTile8_5, 159, 4);
  }

  lemma WhitespaceSkip164(x: seq<byte>)
    requires Holds(x, WhitespaceTile8_5, 159) && Holds(x, WhitespaceTile9_0, 165)
    ensures Lex(x, 164) == Lex(x, 173)
  {
    SkipAcrossSpace(x, WhitespaceTile8_5, 159, 5);
    SkipAcrossSpace(x, WhitespaceTile9_0, 165, 0);
    LexAfterSkip(x, 164, 173);
  }

  lemma WhitespaceStep0(x: seq<byte>)
    requires Holds(x, WhitespaceTile0_0, 0) && Holds(x, WhitespaceTile1_0, 1) && Holds(x, WhitespaceTile1_1, 13)
    ensures Names(TokensFrom(x, 0)) == [LET] + Names(TokensFrom(x, 16))
  {
    WhitespaceSkip0(x);
    WhitespaceAt0(x);
    NamesStep(x, 0, Token(LET, Literal(AsciiBytes("let"))), 16);
  }

  lemma WhitespaceStep16(x: seq<byte>)
    requires Holds(x, WhitespaceTile1_1, 13) && Holds(x, WhitespaceTile1_2, 17)
    ensures Names(TokensFrom(x, 16)) == [IDENT("five")] + Names(TokensFrom(x, 21))
  {
    WhitespaceSkip16(x);
    WhitespaceAt16(x);
    NamesStep(x, 16, Token(IDENT("five"), Literal(AsciiBytes("five"))), 21);
  }

  lemma WhitespaceStep21(x: seq<byte>)
    requires Holds(x, WhitespaceTile1_2, 17) && Holds(x, WhitespaceTile1_3, 22)
    ensures Names(TokensFrom(x, 21)) == [ASSIGN] + Names(TokensFrom(x, 23))
  {
    WhitespaceSkip21(x);
    WhitespaceAt21(x);
    NamesStep(x, 21, Token(ASSIGN, Literal(AsciiBytes("="))), 23);
  }

  lemma WhitespaceStep23(x: seq<byte>)
    requires Holds(x, WhitespaceTile1_3, 22) && Holds(x, WhitespaceTile1_4, 24)
    ensures Names(TokensFrom(x, 23)) == [INT(5)] + Names(TokensFrom(x, 25))
  {
    WhitespaceSkip23(x);
    WhitespaceAt23(x);
    NamesStep(x, 23, Token(INT(5), Literal(AsciiBytes("5"))), 25);
  }

  lemma WhitespaceStep25(x: seq<byte>)
    requires Holds(x, WhitespaceTile1_4, 24)
    ensures Names(TokensFrom(x, 25)) == [SEMICOLON] + Names(TokensFrom(x, 26))
  {
    WhitespaceAt25(x);
    NamesStep(x, 25, Token(SEMICOLON, Literal(AsciiBytes(";"))), 26);
  }

  lemma WhitespaceStep26(x: seq<byte>)
    requires Holds(x, WhitespaceTile1_4, 24) && Holds(x, WhitespaceTile2_0, 27) && Holds(x, WhitespaceTile2_1, 39)
    ensures Names(TokensFrom(x, 26)) == [LET] + Names(TokensFrom(x, 42))
  {
    WhitespaceSkip26(x);
    WhitespaceAt26(x);
    NamesStep(x, 26, Token(LET, Literal(AsciiBytes("let"))), 42);
  }

  lemma WhitespaceStep42(x: seq<byte>)
    requires Holds(x, WhitespaceTile2_1, 39) && Holds(x, WhitespaceTile2_2, 43)
    ensures Names(TokensFrom(x, 42)) == [IDENT("ten")] + Names(TokensFrom(x, 46))
  {
    WhitespaceSkip42(x);
    WhitespaceAt42(x);
    NamesStep(x, 42, Token(IDENT("ten"), Literal(AsciiBytes("ten"))), 46);
  }

  lemma WhitespaceStep46(x: seq<byte>)
    requires Holds(x, WhitespaceTile2_2, 43) && Holds(x, WhitespaceTile2_3, 47)
    ensures Names(TokensFrom(x, 46)) == [ASSIGN] + Names(TokensFrom(x, 48))
  {
    WhitespaceSkip46(x);
    WhitespaceAt46(x);
    NamesStep(x, 46, Token(ASSIGN, Literal(AsciiBytes("="))), 48);
  }

  lemma WhitespaceStep48(x: seq<byte>)
    requires Holds(x, WhitespaceTile2_3, 47) && Holds(x, WhitespaceTile2_4, 49)
    ensures Names(TokensFrom(x, 48)) == [INT(10)] + Names(TokensFrom(x, 51))
  {
    WhitespaceSkip48(x);
    WhitespaceAt48(x);
    NamesStep(x, 48, Token(INT(10), Literal(AsciiBytes("10"))), 51);
  }

  lemma WhitespaceStep51(x: seq<byte>)
    requires Holds(x, WhitespaceTile2_4, 49)
    ensures Names(TokensFrom(x, 51)) == [SEMICOLON] + Names(TokensFrom(x, 52))
  {
    WhitespaceAt51(x);
    NamesStep(x, 51, Token(SEMICOLON, Literal(AsciiBytes(";"))), 52);
  }

  lemma WhitespaceStep52(x: seq<byte>)
    requires Holds(x, WhitespaceTile2_4, 49) && Holds(x, WhitespaceTile3_0, 53) && Holds(x, WhitespaceTile4_0, 54) && Holds(x, WhitespaceTile4_1, 66)
    ensures Names(TokensFrom(x, 52)) == [LET] + Names(TokensFrom(x, 69))
  {
    WhitespaceSkip52(x);
    WhitespaceAt52(x);
    NamesStep(x, 52, Token(LET, Literal(AsciiBytes("let"))), 69);
  }

  lemma WhitespaceStep69(x: seq<byte>)
    requires Holds(x, WhitespaceTile4_1, 66) && Holds(x, WhitespaceTile4_2, 70)
    ensures Names(TokensFrom(x, 69)) == [IDENT("add")] + Names(TokensFrom(x, 73))
  {
    WhitespaceSkip69(x);
    WhitespaceAt69(x);
    NamesStep(x, 69, Token(IDENT("add"), Literal(AsciiBytes("add"))), 73);
  }

  lemma WhitespaceStep73(x: seq<byte>)
    requires Holds(x, WhitespaceTile4_2, 70) && Holds(x, WhitespaceTile4_3, 74)
    ensures Names(TokensFrom(x, 73)) == [ASSIGN] + Names(TokensFrom(x, 75))
  {
    WhitespaceSkip73(x);
    WhitespaceAt73(x);
    NamesStep(x, 73, Token(ASSIGN, Literal(AsciiBytes("="))), 75);
  }

  lemma WhitespaceStep75(x: seq<byte>)
    requires Holds(x, WhitespaceTile4_3, 74) && Holds(x, WhitespaceTile4_4, 76)
    ensures Names(TokensFrom(x, 75)) == [FUNCTION] + Names(TokensFrom(x, 78))
  {
    WhitespaceSkip75(x);
    WhitespaceAt75(x);
    NamesStep(x, 75, Token(FUNCTION, Literal(AsciiBytes("fn"))), 78);
  }

  lemma WhitespaceStep78(x: seq<byte>)
    requires Holds(x, WhitespaceTile4_4, 76)
    ensures Names(TokensFrom(x, 78)) == [LPAREN] + Names(TokensFrom(x, 79))
  {
    WhitespaceAt78(x);
    NamesStep(x, 78, Token(LPAREN, Literal(AsciiBytes("("))), 79);
  }

  lemma WhitespaceStep79(x: seq<byte>)
    requires Holds(x, WhitespaceTile4_4, 76)
    ensures Names(TokensFrom(x, 79)) == [IDENT("x")] + Names(TokensFrom(x, 80))
  {
    WhitespaceAt79(x);
    NamesStep(x, 79, Token(IDENT("x"), Literal(AsciiBytes("x"))), 80);
  }

  lemma WhitespaceStep80(x: seq<byte>)
    requires Holds(x, WhitespaceTile4_4, 76)
    ensures Names(TokensFrom(x, 80)) == [COMMA] + Names(TokensFrom(x, 81))
  {
    WhitespaceAt80(x);
    NamesStep(x, 80, Token(COMMA, Literal(AsciiBytes(","))), 81);
  }

  lemma WhitespaceStep81(x: seq<byte>)
    requires Holds(x, WhitespaceTile4_4, 76) && Holds(x, WhitespaceTile4_5, 82)
    ensures Names(TokensFrom(x, 81)) == [IDENT("y")] + Names(TokensFrom(x, 83))
  {
    WhitespaceSkip81(x);
    WhitespaceAt81(x);
    NamesStep(x, 81, Token(IDENT("y"), Literal(AsciiBytes("y"))), 83);
  }

  lemma WhitespaceStep83(x: seq<byte>)
    requires Holds(x, WhitespaceTile4_5, 82)
    ensures Names(TokensFrom(x, 83)) == [RPAREN] + Names(TokensFrom(x, 84))
  {
    WhitespaceAt83(x);
    NamesStep(x, 83, Token(RPAREN, Literal(AsciiBytes(")"))), 84);
  }

  lemma WhitespaceStep84(x: seq<byte>)
    requires Holds(x, WhitespaceTile4_5, 82) && Holds(x, WhitespaceTile4_6, 85)
    ensures Names(TokensFrom(x, 84)) == [LBRACE] + Names(TokensFrom(x, 86))
  {
    WhitespaceSkip84(x);
    WhitespaceAt84(x);
    NamesStep(x, 84, Token(LBRACE, Literal(AsciiBytes("{"))), 86);
  }

  lemma WhitespaceStep86(x: seq<byte>)
    requires Holds(x, WhitespaceTile4_6, 85) && Holds(x, WhitespaceTile5_0, 87) && Holds(x, WhitespaceTile5_1, 101)
    ensures Names(TokensFrom(x, 86)) == [IDENT("x")] + Names(TokensFrom(x, 102))
  {
    WhitespaceSkip86(x);
    WhitespaceAt86(x);
    NamesStep(x, 86, Token(IDENT("x"), Literal(AsciiBytes("x"))), 102);
  }

  lemma WhitespaceStep102(x: seq<byte>)
    requires Holds(x, WhitespaceTile5_1, 101) && Holds(x, WhitespaceTile5_2, 103)
    ensures Names(TokensFrom(x, 102)) == [PLUS] + Names(TokensFrom(x, 104))
  {
    WhitespaceSkip102(x);
    WhitespaceAt102(x);
    NamesStep(x, 102, Token(PLUS, Literal(AsciiBytes("+"))), 104);
  }

  lemma WhitespaceStep104(x: seq<byte>)
    requires Holds(x, WhitespaceTile5_2, 103) && Holds(x, WhitespaceTile5_3, 105)
    ensures Names(TokensFrom(x, 104)) == [IDENT("y")] + Names(TokensFrom(x, 106))
  {
    WhitespaceSkip104(x);
    WhitespaceAt104(x);
    NamesStep(x, 104, Token(IDENT("y"), Literal(AsciiBytes("y"))), 106);
  }

  lemma WhitespaceStep106(x: seq<byte>)
    requires Holds(x, WhitespaceTile5_3, 105)
    ensures Names(TokensFrom(x, 106)) == [SEMICOLON] + Names(TokensFrom(x, 107))
  {
    WhitespaceAt106(x);
    NamesStep(x, 106, Token(SEMICOLON, Literal(AsciiBytes(";"))), 107);
  }

  lemma WhitespaceStep107(x: seq<byte>)
    requires Holds(x, WhitespaceTile5_3, 105) && Holds(x, WhitespaceTile6_0, 108) && Holds(x, WhitespaceTile6_1, 120)
    ensures Names(TokensFrom(x, 107)) == [RBRACE] + Names(TokensFrom(x, 121))
  {
    WhitespaceSkip107(x);
    WhitespaceAt107(x);
    NamesStep(x, 107, Token(RBRACE, Literal(AsciiBytes("}"))), 121);
  }

  lemma WhitespaceStep121(x: seq<byte>)
    requires Holds(x, WhitespaceTile6_1, 120)
    ensures Names(TokensFrom(x, 121)) == [SEMICOLON] + Names(TokensFrom(x, 122))
  {
    WhitespaceAt121(x);
    NamesStep(x, 121, Token(SEMICOLON, Literal(AsciiBytes(";"))), 122);
  }

  lemma WhitespaceStep122(x: seq<byte>)
    requires Holds(x, WhitespaceTile6_1, 120) && Holds(x, WhitespaceTile7_0, 123) && Holds(x, WhitespaceTile8_0, 124) && Holds(x, WhitespaceTile8_1, 136)
    ensures Names(TokensFrom(x, 122)) == [LET] + Names(TokensFrom(x, 139))
  {
    WhitespaceSkip122(x);
    WhitespaceAt122(x);
    NamesStep(x, 122, Token(LET, Literal(AsciiBytes("let"))), 139);
  }

  lemma WhitespaceStep139(x: seq<byte>)
    requires Holds(x, WhitespaceTile8_1, 136) && Holds(x, WhitespaceTile8_2, 140)
    ensures Names(TokensFrom(x, 139)) == [IDENT("result")] + Names(TokensFrom(x, 146))
  {
    WhitespaceSkip139(x);
    WhitespaceAt139(x);
    NamesStep(x, 139, Token(IDENT("result"), Literal(AsciiBytes("result"))), 146);
  }

  lemma WhitespaceStep146(x: seq<byte>)
    requires Holds(x, WhitespaceTile8_2, 140) && Holds(x, WhitespaceTile8_3, 147)
    ensures Names(TokensFrom(x, 146)) == [ASSIGN] + Names(TokensFrom(x, 148))
  {
    WhitespaceSkip146(x);
    WhitespaceAt146(x);
    NamesStep(x, 146, Token(ASSIGN, Literal(AsciiBytes("="))), 148);
  }

  lemma WhitespaceStep148(x: seq<byte>)
    requires Holds(x, WhitespaceTile8_3, 147) && Holds(x, WhitespaceTile8_4, 149)
    ensures Names(TokensFrom(x, 148)) == [IDENT("add")] + Names(TokensFrom(x, 152))
  {
    WhitespaceSkip148(x);
    WhitespaceAt148(x);
    NamesStep(x, 148, Token(IDENT("add"), Literal(AsciiBytes("add"))), 152);
  }

  lemma WhitespaceStep152(x: seq<byte>)
    requires Holds(x, WhitespaceTile8_4, 149)
    ensures Names(TokensFrom(x, 152)) == [LPAREN] + Names(TokensFrom(x, 153))
  {
    WhitespaceAt152(x);
    NamesStep(x, 152, Token(LPAREN, Literal(AsciiBytes("("))), 153);
  }

  lemma WhitespaceStep153(x: seq<byte>)
    requires Holds(x, WhitespaceTile8_4, 149)
    ensures Names(TokensFrom(x, 153)) == [IDENT("five")] + Names(TokensFrom(x, 157))
  {
    WhitespaceAt153(x);
    NamesStep(x, 153, Token(IDENT("five"), Literal(AsciiBytes("five"))), 157);
  }

  lemma WhitespaceStep157(x: seq<byte>)
    requires Holds(x, WhitespaceTile8_4, 149)
    ensures Names(TokensFrom(x, 157)) == [COMMA] + Names(TokensFrom(x, 158))
  {
    WhitespaceAt157(x);
    NamesStep(x, 157, Token(COMMA, Literal(AsciiBytes(","))), 158);
  }

  lemma WhitespaceStep158(x: seq<byte>)
    requires Holds(x, WhitespaceTile8_4, 149) && Holds(x, WhitespaceTile8_5, 159)
    ensures Names(TokensFrom(x, 158)) == [IDENT("ten")] + Names(TokensFrom(x, 162))
  {
    WhitespaceSkip158(x);
    WhitespaceAt158(x);
    NamesStep(x, 158, Token(IDENT("ten"), Literal(AsciiBytes("ten"))), 162);
  }

  lemma WhitespaceStep162(x: seq<byte>)
    requires Holds(x, WhitespaceTile8_5, 159)
    ensures Names(TokensFrom(x, 162)) == [RPAREN] + Names(TokensFrom(x, 163))
  {
    WhitespaceAt162(x);
    NamesStep(x, 162, Token(RPAREN, Literal(AsciiBytes(")"))), 163);
  }

  lemma WhitespaceStep163(x: seq<byte>)
    requires Holds(x, WhitespaceTile8_5, 159)
    ensures Names(TokensFrom(x, 163)) == [SEMICOLON] + Names(TokensFrom(x, 164))
  {
    WhitespaceAt163(x);
    NamesStep(x, 163, Token(SEMICOLON, Literal(AsciiBytes(";"))), 164);
  }

  lemma WhitespaceStep164(x: seq<byte>)
    requires |x| == 173 && Holds(x, WhitespaceTile8_5, 159) && Holds(x, WhitespaceTile9_0, 165)
    ensures Names(TokensFrom(x, 164)) == [EOF]
  {
    WhitespaceSkip164(x);
    LexAtEnd(x, 173);
    NamesLast(x, 164, Token(EOF, Literal([0])), 174);
  }

  lemma WhitespaceGroup0Chain(a0: seq<Name>, a1: seq<Name>, a2: seq<Name>, a3: seq<Name>, a4: seq<Name>, a5: seq<Name>)
    requires a0 == [LET] + a1
    requires a1 == [IDENT("five")] + a2
    requires a2 == [ASSIGN] + a3
    requires a3 == [INT(5)] + a4
    requires a4 == [SEMICOLON] + a5
    ensures a0 == [LET, IDENT("five"), ASSIGN, INT(5), SEMICOLON] + a5
  {
  }

  lemma WhitespaceGroup0(x: seq<byte>)
    requires WhitespaceLayout(x)
    ensures Names(TokensFrom(x, 0)) == [LET, IDENT("five"), ASSIGN, INT(5), SEMICOLON] + Names(TokensFrom(x, 26))
  {
    WhitespaceStep0(x);
    WhitespaceStep16(x);
    WhitespaceStep21(x);
    WhitespaceStep23(x);
    WhitespaceStep25(x);
    WhitespaceGroup0Chain(Names(TokensFrom(x, 0)), Names(TokensFrom(x, 16)), Names(TokensFrom(x, 21)), Names(TokensFrom(x, 23)), Names(TokensFrom(x, 25)), Names(TokensFrom(x, 26)));
  }

  lemma WhitespaceGroup1Chain(a0: seq<Name>, a1: seq<Name>, a2: seq<Name>, a3: seq<Name>, a4: seq<Name>, a5: seq<Name>)
    requires a0 == [LET] + a1
    requires a1 == [IDENT("ten")] + a2
    requires a2 == [ASSIGN] + a3
    requires a3 == [INT(10)] + a4
    requires a4 == [SEMICOLON] + a5
    ensures a0 == [LET, IDENT("ten"), ASSIGN, INT(10), SEMICOLON] + a5
  {
  }

  lemma WhitespaceGroup1(x: seq<byte>)
    requires WhitespaceLayout(x)
    ensures Names(TokensFrom(x, 26)) == [LET, IDENT("ten"), ASSIGN, INT(10), SEMICOLON] + Names(TokensFrom(x, 52))
  {
    WhitespaceStep26(x);
    WhitespaceStep42(x);
    WhitespaceStep46(x);
    WhitespaceStep48(x);
    WhitespaceStep51(x);
    WhitespaceGroup1Chain(Names(TokensFrom(x, 26)), Names(TokensFrom(x, 42)), Names(TokensFrom(x, 46)), Names(TokensFrom(x, 48)), Names(TokensFrom(x, 51)), Names(TokensFrom(x, 52)));
  }

  lemma WhitespaceGroup2Chain(a0: seq<Name>, a1: seq<Name>, a2: seq<Name>, a3: seq<Name>, a4: seq<Name>, a5: seq<Name>, a6: seq<Name>, a7: seq<Name>, a8: seq<Name>, a9: seq<Name>, a10: seq<Name>)
    requires a0 == [LET] + a1
    requires a1 == [IDENT("add")] + a2
    requires a2 == [ASSIGN] + a3
    requires a3 == [FUNCTION] + a4
    requires a4 == [LPAREN] + a5
    requires a5 == [IDENT("x")] + a6
    requires a6 == [COMMA] + a7
    requires a7 == [IDENT("y")] + a8
    requires a8 == [RPAREN] + a9
    requires a9 == [LBRACE] + a10
    ensures a0 == [LET, IDENT("add"), ASSIGN, FUNCTION, LPAREN, IDENT("x"), COMMA, IDENT("y"), RPAREN, LBRACE] + a10
  {
  }

  lemma WhitespaceGroup2(x: seq<byte>)
    requires WhitespaceLayout(x)
    ensures Names(TokensFrom(x, 52)) == [LET, IDENT("add"), ASSIGN, FUNCTION, LPAREN, IDENT("x"), COMMA, IDENT("y"), RPAREN, LBRACE] + Names(TokensFrom(x, 86))
  {
    WhitespaceStep52(x);
    WhitespaceStep69(x);
    WhitespaceStep73(x);
    WhitespaceStep75(x);
    WhitespaceStep78(x);
    WhitespaceStep79(x);
    WhitespaceStep80(x);
    WhitespaceStep81(x);
    WhitespaceStep83(x);
    WhitespaceStep84(x);
    WhitespaceGroup2Chain(Names(TokensFrom(x, 52)), Names(TokensFrom(x, 69)), Names(TokensFrom(x, 73)), Names(TokensFrom(x, 75)), Names(TokensFrom(x, 78)), Names(TokensFrom(x, 79)), Names(TokensFrom(x, 80)), Names(TokensFrom(x, 81)), Names(TokensFrom(x, 83)), Names(TokensFrom(x, 84)), Names(TokensFrom(x, 86)));
  }

  lemma WhitespaceGroup3Chain(a0: seq<Name>, a1: seq<Name>, a2: seq<Name>, a3: seq<Name>, a4: seq<Name>)
    requires a0 == [IDENT("x")] + a1
    requires a1 == [PLUS] + a2
    requires a2 == [IDENT("y")] + a3
    requires a3 == [SEMICOLON] + a4
    ensures a0 == [IDENT("x"), PLUS, IDENT("y"), SEMICOLON] + a4
  {
  }

  lemma WhitespaceGroup3(x: seq<byte>)
    requires WhitespaceLayout(x)
    ensures Names(TokensFrom(x, 86)) == [IDENT("x"), PLUS, IDENT("y"), SEMICOLON] + Names(TokensFrom(x, 107))
  {
    WhitespaceStep86(x);
    WhitespaceStep102(x);
    WhitespaceStep104(x);
    WhitespaceStep106(x);
    WhitespaceGroup3Chain(Names(TokensFrom(x, 86)), Names(TokensFrom(x, 102)), Names(TokensFrom(x, 104)), Names(TokensFrom(x, 106)), Names(TokensFrom(x, 107)));
  }

  lemma WhitespaceGroup4Chain(a0: seq<Name>, a1: seq<Name>, a2: seq<Name>)
    requires a0 == [RBRACE] + a1
    requires a1 == [SEMICOLON] + a2
    ensures a0 == [RBRACE, SEMICOLON] + a2
  {
  }

  lemma WhitespaceGroup4(x: seq<byte>)
    requires WhitespaceLayout(x)
    ensures Names(TokensFrom(x, 107)) == [RBRACE, SEMICOLON] + Names(TokensFrom(x, 122))
  {
    WhitespaceStep107(x);
    WhitespaceStep121(x);
    WhitespaceGroup4Chain(Names(TokensFrom(x, 107)), Names(TokensFrom(x, 121)), Names(TokensFrom(x, 122)));
  }

  lemma WhitespaceGroup5Chain(a0: seq<Name>, a1: seq<Name>, a2: seq<Name>, a3: seq<Name>, a4: seq<Name>, a5: seq<Name>, a6: seq<Name>, a7: seq<Name>, a8: seq<Name>, a9: seq<Name>, a10: seq<Name>)
    requires a0 == [LET] + a1
    requires a1 == [IDENT("result")] + a2
    requires a2 == [ASSIGN] + a3
    requires a3 == [IDENT("add")] + a4
    requires a4 == [LPAREN] + a5
    requires a5 == [IDENT("five")] + a6
    requires a6 == [COMMA] + a7
    requires a7 == [IDENT("ten")] + a8
    requires a8 == [RPAREN] + a9
    requires a9 == [SEMICOLON] + a10
    ensures a0 == [LET, IDENT("result"), ASSIGN, IDENT("add"), LPAREN, IDENT("five"), COMMA, IDENT("ten"), RPAREN, SEMICOLON] + a10
  {
  }

  lemma WhitespaceGroup5(x: seq<byte>)
    requires WhitespaceLayout(x)
    ensures Names(TokensFrom(x, 122)) == [LET, IDENT("result"), ASSIGN, IDENT("add"), LPAREN, IDENT("five"), COMMA, IDENT("ten"), RPAREN, SEMICOLON] + Names(TokensFrom(x, 164))
  {
    WhitespaceStep122(x);
    WhitespaceStep139(x);
    WhitespaceStep146(x);
    WhitespaceStep148(x);
    WhitespaceStep152(x);
    WhitespaceStep153(x);
    WhitespaceStep157(x);
    WhitespaceStep158(x);
    WhitespaceStep162(x);
    WhitespaceStep163(x);
    WhitespaceGroup5Chain(Names(TokensFrom(x, 122)), Names(TokensFrom(x, 139)), Names(TokensFrom(x, 146)), Names(TokensFrom(x, 148)), Names(TokensFrom(x, 152)), Names(TokensFrom(x, 153)), Names(TokensFrom(x, 157)), Names(TokensFrom(x, 158)), Names(TokensFrom(x, 162)), Names(TokensFrom(x, 163)), Names(TokensFrom(x, 164)));
  }

  lemma WhitespaceChain(a0: seq<Name>, a1: seq<Name>, a2: seq<Name>, a3: seq<Name>, a4: seq<Name>, a5: seq<Name>, a6: seq<Name>)
    requires a0 == [LET, IDENT("five"), ASSIGN, INT(5), SEMICOLON] + a1
    requires a1 == [LET, IDENT("ten"), ASSIGN, INT(10), SEMICOLON] + a2
    requires a2 == [LET, IDENT("add"), ASSIGN, FUNCTION, LPAREN, IDENT("x"), COMMA, IDENT("y"), RPAREN, LBRACE] + a3
    requires a3 == [IDENT("x"), PLUS, IDENT("y"), SEMICOLON] + a4
    requires a4 == [RBRACE, SEMICOLON] + a5
    requires a5 == [LET, IDENT("result"), ASSIGN, IDENT("add"), LPAREN, IDENT("five"), COMMA, IDENT("ten"), RPAREN, SEMICOLON] + a6
    requires a6 == [EOF]
    ensures a0 == [LET, IDENT("five"), ASSIGN, INT(5), SEMICOLON, LET, IDENT("ten"), ASSIGN, INT(10), SEMICOLON, LET, IDENT("add"), ASSIGN, FUNCTION, LPAREN, IDENT("x"), COMMA, IDENT("y"), RPAREN, LBRACE, IDENT("x"), PLUS, IDENT("y"), SEMICOLON, RBRACE, SEMICOLON, LET, IDENT("result"), ASSIGN, IDENT("add"), LPAREN, IDENT("five"), COMMA, IDENT("ten"), RPAREN, SEMICOLON, EOF]
  {
  }

  /** The token kinds successive `next_token` calls return on any input laid out as this one. */
  lemma WhitespaceTokens(x: seq<byte>)
    requires WhitespaceLayout(x)
    ensures Names(Tokenize(x)) == [LET, IDENT("five"), ASSIGN, INT(5), SEMICOLON, LET, IDENT("ten"), ASSIGN, INT(10), SEMICOLON, LET, IDENT("add"), ASSIGN, FUNCTION, LPAREN, IDENT("x"), COMMA, IDENT("y"), RPAREN, LBRACE, IDENT("x"), PLUS, IDENT("y"), SEMICOLON, RBRACE, SEMICOLON, LET, IDENT("result"), ASSIGN, IDENT("add"), LPAREN, IDENT("five"), COMMA, IDENT("ten"), RPAREN, SEMICOLON, EOF]
  {
    WhitespaceGroup0(x);
    WhitespaceGroup1(x);
    WhitespaceGroup2(x);
    WhitespaceGroup3(x);
    WhitespaceGroup4(x);
    WhitespaceGroup5(x);
    WhitespaceStep164(x);
    WhitespaceChain(Names(TokensFrom(x, 0)), Names(TokensFrom(x, 26)), Names(TokensFrom(x, 52)), Names(TokensFrom(x, 86)), Names(TokensFrom(x, 107)), Names(TokensFrom(x, 122)), Names(TokensFrom(x, 164)));
  }

  /** The token kinds successive `next_token` calls return on this input. */
  lemma WhitespaceSample()
    ensures Names(Tokenize(WhitespaceInput)) == [LET, IDENT("five"), ASSIGN, INT(5), SEMICOLON, LET, IDENT("ten"), ASSIGN, INT(10), SEMICOLON, LET, IDENT("add"), ASSIGN, FUNCTION, LPAREN, IDENT("x"), COMMA, IDENT("y"), RPAREN, LBRACE, IDENT("x"), PLUS, IDENT("y"), SEMICOLON, RBRACE, SEMICOLON, LET, IDENT("result"), ASSIGN, IDENT("add"), LPAREN, IDENT("five"), COMMA, IDENT("ten"), RPAREN, SEMICOLON, EOF]
  {
    WhitespaceInputLayout();
    WhitespaceTokens(WhitespaceInput);
  }

  /** The input of the `Gibberish` unit test, line by line; each line is cut after
      each run of whitespace. */
  const GibberishTile0_0: seq<byte> := AsciiBytes("\n")
  const GibberishLine0: seq<byte> := GibberishTile0_0
  const GibberishTile1_0: seq<byte> := Spaces(12)
  const GibberishTile1_1: seq<byte> := AsciiBytes("!-/*5;\n")
  const GibberishLine1: seq<byte> := GibberishTile1_0 + GibberishTile1_1
  const GibberishTile2_0: seq<byte> := Spaces(12)
  const GibberishTile2_1: seq<byte> := AsciiBytes("5 ")
  const GibberishTile2_2: seq<byte> := AsciiBytes("< ")
  const GibberishTile2_3: seq<byte> := AsciiBytes("10 ")
  const GibberishTile2_4: seq<byte> := AsciiBytes("> ")
  const GibberishTile2_5: seq<byte> := AsciiBytes("5;\n")
  const GibberishLine2: seq<byte> := GibberishTile2_0 + GibberishTile2_1 + GibberishTile2_2 + GibberishTile2_3 + GibberishTile2_4 + GibberishTile2_5
  const GibberishTile3_0: seq<byte> := Spaces(8)
  const GibberishLine3: seq<byte> := GibberishTile3_0
  const GibberishInput: seq<byte> :=
    GibberishLine0
    + GibberishLine1
    + GibberishLine2
    + GibberishLine3

  /** An input of the length of the `Gibberish` input that holds each piece of its lines in place. */
  predicate GibberishLayout(x: seq<byte>) {
    && |x| == 52
    && Holds(x, GibberishTile0_0, 0)
    && Holds(x, GibberishTile1_0, 1)
    && Holds(x, GibberishTile1_1, 13)
    && Holds(x, GibberishTile2_0, 20)
    && Holds(x, GibberishTile2_1, 32)
    && Holds(x, GibberishTile2_2, 34)
    && Holds(x, GibberishTile2_3, 36)
    && Holds(x, GibberishTile2_4, 39)
    && Holds(x, GibberishTile2_5, 41)
    && Holds(x, GibberishTile3_0, 44)
  }

  lemma GibberishHolds0In1()
    ensures Holds(GibberishLine0, GibberishLine0, 0)
  {
    HoldsSelf(GibberishLine0);
  }

  lemma GibberishHolds0In2()
    ensures Holds(GibberishLine0 + GibberishLine1, GibberishLine0, 0)
  {
    GibberishHolds0In1();
    HoldsExtend(GibberishLine0, GibberishLine1, GibberishLine0, 0);
  }

  lemma GibberishHolds0In3()
    ensures Holds(GibberishLine0 + GibberishLine1 + GibberishLine2, GibberishLine0, 0)
  {
    GibberishHolds0In2();
    HoldsExtend(GibberishLine0 + GibberishLine1, GibberishLine2, GibberishLine0, 0);
  }

  lemma GibberishHolds0()
    ensures Holds(GibberishInput, GibberishLine0, 0)
  {
    GibberishHolds0In3();
    HoldsExtend(GibberishLine0 + GibberishLine1 + GibberishLine2, GibberishLine3, GibberishLine0, 0);
  }

  lemma GibberishHolds1In2()
    ensures Holds(GibberishLine0 + GibberishLine1, GibberishLine1, 1)
  {
    HoldsLast(GibberishLine0, GibberishLine1);
  }

  lemma GibberishHolds1In3()
    ensures Holds(GibberishLine0 + GibberishLine1 + GibberishLine2, GibberishLine1, 1)
  {
    GibberishHolds1In2();
    HoldsExtend(GibberishLine0 + GibberishLine1, GibberishLine2, GibberishLine1, 1);
  }

  lemma GibberishHolds1()
    ensures Holds(GibberishInput, GibberishLine1, 1)
  {
    GibberishHolds1In3();
    HoldsExtend(GibberishLine0 + GibberishLine1 + GibberishLine2, GibberishLine3, GibberishLine1, 1);
  }

  lemma GibberishHolds2In3()
    ensures Holds(GibberishLine0 + GibberishLine1 + GibberishLine2, GibberishLine2, 20)
  {
    HoldsLast(GibberishLine0 + GibberishLine1, GibberishLine2);
  }

  lemma GibberishHolds2()
    ensures Holds(GibberishInput, GibberishLine2, 20)
  {
    GibberishHolds2In3();
    HoldsExtend(GibberishLine0 + GibberishLine1 + GibberishLine2, GibberishLine3, GibberishLine2, 20);
  }

  lemma GibberishHolds3()
    ensures Holds(GibberishInput, GibberishLine3, 44)
  {
    HoldsLast(GibberishLine0 + GibberishLine1 + GibberishLine2, GibberishLine3);
  }

  lemma GibberishPiece1_0(x: seq<byte>)
    requires Holds(x, GibberishLine1, 1)
    ensures Holds(x, GibberishTile1_0, 1)
  {
    HoldsLeft(x, GibberishTile1_0, GibberishTile1_1, 1);
  }

  lemma GibberishPiece1_1(x: seq<byte>)
    requires Holds(x, GibberishLine1, 1)
    ensures Holds(x, GibberishTile1_1, 13)
  {
    HoldsRight(x, GibberishTile1_0, GibberishTile1_1, 1);
  }

  lemma GibberishPiece2_0(x: seq<byte>)
    requires Holds(x, GibberishLine2, 20)
    ensures Holds(x, GibberishTile2_0, 20)
  {
    HoldsLeft(x, GibberishTile2_0 + GibberishTile2_1 + GibberishTile2_2 + GibberishTile2_3 + GibberishTile2_4, GibberishTile2_5, 20);
    HoldsLeft(x, GibberishTile2_0 + GibberishTile2_1 + GibberishTile2_2 + GibberishTile2_3, GibberishTile2_4, 20);
    HoldsLeft(x, GibberishTile2_0 + GibberishTile2_1 + GibberishTile2_2, GibberishTile2_3, 20);
    HoldsLeft(x, GibberishTile2_0 + GibberishTile2_1, GibberishTile2_2, 20);
    HoldsLeft(x, GibberishTile2_0, GibberishTile2_1, 20);
  }

  lemma GibberishPiece2_1(x: seq<byte>)
    requires Holds(x, GibberishLine2, 20)
    ensures Holds(x, GibberishTile2_1, 32)
  {
    HoldsLeft(x, GibberishTile2_0 + GibberishTile2_1 + GibberishTile2_2 + GibberishTile2_3 + GibberishTile2_4, GibberishTile2_5, 20);
    HoldsLeft(x, GibberishTile2_0 + GibberishTile2_1 + GibberishTile2_2 + GibberishTile2_3, GibberishTile2_4, 20);
    HoldsLeft(x, GibberishTile2_0 + GibberishTile2_1 + GibberishTile2_2, GibberishTile2_3, 20);
    HoldsLeft(x, GibberishTile2_0 + GibberishTile2_1, GibberishTile2_2, 20);
    HoldsRight(x, GibberishTile2_0, GibberishTile2_1, 20);
  }

  lemma GibberishPiece2_2(x: seq<byte>)
    requires Holds(x, GibberishLine2, 20)
    ensures Holds(x, GibberishTile2_2, 34)
  {
    HoldsLeft(x, GibberishTile2_0 + GibberishTile2_1 + GibberishTile2_2 + GibberishTile2_3 + GibberishTile2_4, GibberishTile2_5, 20);
    HoldsLeft(x, GibberishTile2_0 + GibberishTile2_1 + GibberishTile2_2 + GibberishTile2_3, GibberishTile2_4, 20);
    HoldsLeft(x, GibberishTile2_0 + GibberishTile2_1 + GibberishTile2_2, GibberishTile2_3, 20);
    HoldsRight(x, GibberishTile2_0 + GibberishTile2_1, GibberishTile2_2, 20);
  }

  lemma GibberishPiece2_3(x: seq<byte>)
    requires Holds(x, GibberishLine2, 20)
    ensures Holds(x, GibberishTile2_3, 36)
  {
    HoldsLeft(x, GibberishTile2_0 + GibberishTile2_1 + GibberishTile2_2 + GibberishTile2_3 + GibberishTile2_4, GibberishTile2_5, 20);
    HoldsLeft(x, GibberishTile2_0 + GibberishTile2_1 + GibberishTile2_2 + GibberishTile2_3, GibberishTile2_4, 20);
    HoldsRight(x, GibberishTile2_0 + GibberishTile2_1 + GibberishTile2_2, GibberishTile2_3, 20);
  }

  lemma GibberishPiece2_4(x: seq<byte>)
    requires Holds(x, GibberishLine2, 20)
    ensures Holds(x, GibberishTile2_4, 39)
  {
    HoldsLeft(x, GibberishTile2_0 + GibberishTile2_1 + GibberishTile2_2 + GibberishTile2_3 + GibberishTile2_4, GibberishTile2_5, 20);
    HoldsRight(x, GibberishTile2_0 + GibberishTile2_1 + GibberishTile2_2 + GibberishTile2_3, GibberishTile2_4, 20);
  }

  lemma GibberishPiece2_5(x: seq<byte>)
    requires Holds(x, GibberishLine2, 20)
    ensures Holds(x, GibberishTile2_5, 41)
  {
    HoldsRight(x, GibberishTile2_0 + GibberishTile2_1 + GibberishTile2_2 + GibberishTile2_3 + GibberishTile2_4, GibberishTile2_5, 20);
  }

  lemma GibberishInputLayout()
    ensures GibberishLayout(GibberishInput)
  {
    GibberishHolds0();
    GibberishHolds1();
    GibberishPiece1_0(GibberishInput);
    GibberishPiece1_1(GibberishInput);
    GibberishHolds2();
    GibberishPiece2_0(GibberishInput);
    GibberishPiece2_1(GibberishInput);
    GibberishPiece2_2(GibberishInput);
    GibberishPiece2_3(GibberishInput);
    GibberishPiece2_4(GibberishInput);
    GibberishPiece2_5(GibberishInput);
    GibberishHolds3();
  }

  lemma GibberishSkip0(x: seq<byte>)
    requires Holds(x, GibberishTile0_0, 0) && Holds(x, GibberishTile1_0, 1)
    ensures Lex(x, 0) == Lex(x, 13)
  {
    SkipAcrossSpace(x, GibberishTile0_0, 0, 0);
    SkipAcrossSpace(x, GibberishTile1_0, 1, 0);
    LexAfterSkip(x, 0, 13);
  }

  lemma GibberishLex0()
    ensures CharAt(GibberishTile1_1, SkipEnd(GibberishTile1_1, 0)) != 0 && Lex(GibberishTile1_1, 0) == Step(Token(BANG, Literal(AsciiBytes("!"))), 1)
  {
    RunEndAt(GibberishTile1_1, 0, 0, IsWhitespace);
  }

  lemma GibberishAt0(x: seq<byte>)
    requires Holds(x, GibberishTile1_1, 13)
    ensures Lex(x, 13) == Step(Token(BANG, Literal(AsciiBytes("!"))), 14)
  {
    GibberishLex0();
    LexWindow(x, GibberishTile1_1, 13, 0);
  }

  lemma GibberishLex14()
    ensures CharAt(GibberishTile1_1, SkipEnd(GibberishTile1_1, 1)) != 0 && Lex(GibberishTile1_1, 1) == Step(Token(MINUS, Literal(AsciiBytes("-"))), 2)
  {
    RunEndAt(GibberishTile1_1, 1, 1, IsWhitespace);
  }

  lemma GibberishAt14(x: seq<byte>)
    requires Holds(x, GibberishTile1_1, 13)
    ensures Lex(x, 14) == Step(Token(MINUS, Literal(AsciiBytes("-"))), 15)
  {
    GibberishLex14();
    LexWindow(x, GibberishTile1_1, 13, 1);
  }

  lemma GibberishLex15()
    ensures CharAt(GibberishTile1_1, SkipEnd(GibberishTile1_1, 2)) != 0 && Lex(GibberishTile1_1, 2) == Step(Token(SLASH, Literal(AsciiBytes("/"))), 3)
  {
    RunEndAt(GibberishTile1_1, 2, 2, IsWhitespace);
  }

  lemma GibberishAt15(x: seq<byte>)
    requires Holds(x, GibberishTile1_1, 13)
    ensures Lex(x, 15) == Step(Token(SLASH, Literal(AsciiBytes("/"))), 16)
  {
    GibberishLex15();
    LexWindow(x, GibberishTile1_1, 13, 2);
  }

  lemma GibberishLex16()
    ensures CharAt(GibberishTile1_1, SkipEnd(GibberishTile1_1, 3)) != 0 && Lex(GibberishTile1_1, 3) == Step(Token(ASTERISK, Literal(AsciiBytes("*"))), 4)
  {
    RunEndAt(GibberishTile1_1, 3, 3, IsWhitespace);
  }

  lemma GibberishAt16(x: seq<byte>)
    requires Holds(x, GibberishTile1_1, 13)
    ensures Lex(x, 16) == Step(Token(ASTERISK, Literal(AsciiBytes("*"))), 17)
  {
    GibberishLex16();
    LexWindow(x, GibberishTile1_1, 13, 3);
  }

  lemma GibberishLex17()
    ensures CharAt(GibberishTile1_1, SkipEnd(GibberishTile1_1, 4)) != 0 && Lex(GibberishTile1_1, 4) == Step(Token(INT(5), Literal(AsciiBytes("5"))), 5)
  {
    RunEndAt(GibberishTile1_1, 4, 4, IsWhitespace);
    LexNumberAt(GibberishTile1_1, 4, 4, AsciiBytes("5"));
    Number_5();
  }

  lemma GibberishAt17(x: seq<byte>)
    requires Holds(x, GibberishTile1_1, 13)
    ensures Lex(x, 17) == Step(Token(INT(5), Literal(AsciiBytes("5"))), 18)
  {
    GibberishLex17();
    LexWindow(x, GibberishTile1_1, 13, 4);
  }

  lemma GibberishLex18()
    ensures CharAt(GibberishTile1_1, SkipEnd(GibberishTile1_1, 5)) != 0 && Lex(GibberishTile1_1, 5) == Step(Token(SEMICOLON, Literal(AsciiBytes(";"))), 6)
  {
    RunEndAt(GibberishTile1_1, 5, 5, IsWhitespace);
  }

  lemma GibberishAt18(x: seq<byte>)
    requires Holds(x, GibberishTile1_1, 13)
    ensures Lex(x, 18) == Step(Token(SEMICOLON, Literal(AsciiBytes(";"))), 19)
  {
    GibberishLex18();
    LexWindow(x, GibberishTile1_1, 13, 5);
  }

  lemma GibberishSkip19(x: seq<byte>)
    requires Holds(x, GibberishTile1_1, 13) && Holds(x, GibberishTile2_0, 20)
    ensures Lex(x, 19) == Lex(x, 32)
  {
    SkipAcrossSpace(x, GibberishTile1_1, 13, 6);
    SkipAcrossSpace(x, GibberishTile2_0, 20, 0);
    LexAfterSkip(x, 19, 32);
  }

  lemma GibberishLex19()
    ensures CharAt(GibberishTile2_1, SkipEnd(GibberishTile2_1, 0)) != 0 && Lex(GibberishTile2_1, 0) == Step(Token(INT(5), Literal(AsciiBytes("5"))), 1)
  {
    RunEndAt(GibberishTile2_1, 0, 0, IsWhitespace);
    LexNumberAt(GibberishTile2_1, 0, 0, AsciiBytes("5"));
    Number_5();
  }

  lemma GibberishAt19(x: seq<byte>)
    requires Holds(x, GibberishTile2_1, 32)
    ensures Lex(x, 32) == Step(Token(INT(5), Literal(AsciiBytes("5"))), 33)
  {
    GibberishLex19();
    LexWindow(x, GibberishTile2_1, 32, 0);
  }

  lemma GibberishSkip33(x: seq<byte>)
    requires Holds(x, GibberishTile2_1, 32)
    ensures Lex(x, 33) == Lex(x, 34)
  {
    SkipAcrossSpace(x, GibberishTile2_1, 32, 1);
    LexAfterSkip(x, 33, 34);
  }

  lemma GibberishLex33()
    ensures CharAt(GibberishTile2_2, SkipEnd(GibberishTile2_2, 0)) != 0 && Lex(GibberishTile2_2, 0) == Step(Token(LT, Literal(AsciiBytes("<"))), 1)
  {
    RunEndAt(GibberishTile2_2, 0, 0, IsWhitespace);
  }

  lemma GibberishAt33(x: seq<byte>)
    requires Holds(x, GibberishTile2_2, 34)
    ensures Lex(x, 34) == Step(Token(LT, Literal(AsciiBytes("<"))), 35)
  {
    GibberishLex33();
    LexWindow(x, GibberishTile2_2, 34, 0);
  }

  lemma GibberishSkip35(x: seq<byte>)
    requires Holds(x, GibberishTile2_2, 34)
    ensures Lex(x, 35) == Lex(x, 36)
  {
    SkipAcrossSpace(x, GibberishTile2_2, 34, 1);
    LexAfterSkip(x, 35, 36);
  }

  lemma GibberishLex35()
    ensures CharAt(GibberishTile2_3, SkipEnd(GibberishTile2_3, 0)) != 0 && Lex(GibberishTile2_3, 0) == Step(Token(INT(10), Literal(AsciiBytes("10"))), 2)
  {
    RunEndAt(GibberishTile2_3, 0, 0, IsWhitespace);
    LexNumberAt(GibberishTile2_3, 0, 0, AsciiBytes("10"));
    Number_10();
  }

  lemma GibberishAt35(x: seq<byte>)
    requires Holds(x, GibberishTile2_3, 36)
    ensures Lex(x, 36) == Step(Token(INT(10), Literal(AsciiBytes("10"))), 38)
  {
    GibberishLex35();
    LexWindow(x, GibberishTile2_3, 36, 0);
  }

  lemma GibberishSkip38(x: seq<byte>)
    requires Holds(x, GibberishTile2_3, 36)
    ensures Lex(x, 38) == Lex(x, 39)
  {
    SkipAcrossSpace(x, GibberishTile2_3, 36, 2);
    LexAfterSkip(x, 38, 39);
  }

  lemma GibberishLex38()
    ensures CharAt(GibberishTile2_4, SkipEnd(GibberishTile2_4, 0)) != 0 && Lex(GibberishTile2_4, 0) == Step(Token(GT, Literal(AsciiBytes(">"))), 1)
  {
    RunEndAt(GibberishTile2_4, 0, 0, IsWhitespace);
  }

  lemma GibberishAt38(x: seq<byte>)
    requires Holds(x, GibberishTile2_4, 39)
    ensures Lex(x, 39) == Step(Token(GT, Literal(AsciiBytes(">"))), 40)
  {
    GibberishLex38();
    LexWindow(x, GibberishTile2_4, 39, 0);
  }

  lemma GibberishSkip40(x: seq<byte>)
    requires Holds(x, GibberishTile2_4, 39)
    ensures Lex(x, 40) == Lex(x, 41)
  {
    SkipAcrossSpace(x, GibberishTile2_4, 39, 1);
    LexAfterSkip(x, 40, 41);
  }

  lemma GibberishLex40()
    ensures CharAt(GibberishTile2_5, SkipEnd(GibberishTile2_5, 0)) != 0 && Lex(GibberishTile2_5, 0) == Step(Token(INT(5), Literal(AsciiBytes("5"))), 1)
  {
    RunEndAt(GibberishTile2_5, 0, 0, IsWhitespace);
    LexNumberAt(GibberishTile2_5, 0, 0, AsciiBytes("5"));
    Number_5();
  }

  lemma GibberishAt40(x: seq<byte>)
    requires Holds(x, GibberishTile2_5, 41)
    ensures Lex(x, 41) == Step(Token(INT(5), Literal(AsciiBytes("5"))), 42)
  {
    GibberishLex40();
    LexWindow(x, GibberishTile2_5, 41, 0);
  }

  lemma GibberishLex42()
    ensures CharAt(GibberishTile2_5, SkipEnd(GibberishTile2_5, 1)) != 0 && Lex(GibberishTile2_5, 1) == Step(Token(SEMICOLON, Literal(AsciiBytes(";"))), 2)
  {
    RunEndAt(GibberishTile2_5, 1, 1, IsWhitespace);
  }

  lemma GibberishAt42(x: seq<byte>)
    requires Holds(x, GibberishTile2_5, 41)
    ensures Lex(x, 42) == Step(Token(SEMICOLON, Literal(AsciiBytes(";"))), 43)
  {
    GibberishLex42();
    LexWindow(x, GibberishTile2_5, 41, 1);
  }

  lemma GibberishSkip43(x: seq<byte>)
    requires Holds(x, GibberishTile2_5, 41) && Holds(x, GibberishTile3_0, 44)
    ensures Lex(x, 43) == Lex(x, 52)
  {
    SkipAcrossSpace(x, GibberishTile2_5, 41, 2);
    SkipAcrossSpace(x, GibberishTile3_0, 44, 0);
    LexAfterSkip(x, 43, 52);
  }

  lemma GibberishStep0(x: seq<byte>)
    requires Holds(x, GibberishTile0_0, 0) && Holds(x, GibberishTile1_0, 1) && Holds(x, GibberishTile1_1, 13)
    ensures Names(TokensFrom(x, 0)) == [BANG] + Names(TokensFrom(x, 14))
  {
    GibberishSkip0(x);
    GibberishAt0(x);
    NamesStep(x, 0, Token(BANG, Literal(AsciiBytes("!"))), 14);
  }

  lemma GibberishStep14(x: seq<byte>)
    requires Holds(x, GibberishTile1_1, 13)
    ensures Names(TokensFrom(x, 14)) == [MINUS] + Names(TokensFrom(x, 15))
  {
    GibberishAt14(x);
    NamesStep(x, 14, Token(MINUS, Literal(AsciiBytes("-"))), 15);
  }

  lemma GibberishStep15(x: seq<byte>)
    requires Holds(x, GibberishTile1_1, 13)
    ensures Names(TokensFrom(x, 15)) == [SLASH] + Names(TokensFrom(x, 16))
  {
    GibberishAt15(x);
    NamesStep(x, 15, Token(SLASH, Literal(AsciiBytes("/"))), 16);
  }

  lemma GibberishStep16(x: seq<byte>)
    requires Holds(x, GibberishTile1_1, 13)
    ensures Names(TokensFrom(x, 16)) == [ASTERISK] + Names(TokensFrom(x, 17))
  {
    GibberishAt16(x);
    NamesStep(x, 16, Token(ASTERISK, Literal(AsciiBytes("*"))), 17);
  }

  lemma GibberishStep17(x: seq<byte>)
    requires Holds(x, GibberishTile1_1, 13)
    ensures Names(TokensFrom(x, 17)) == [INT(5)] + Names(TokensFrom(x, 18))
  {
    GibberishAt17(x);
    NamesStep(x, 17, Token(INT(5), Literal(AsciiBytes("5"))), 18);
  }

  lemma GibberishStep18(x: seq<byte>)
    requires Holds(x, GibberishTile1_1, 13)
    ensures Names(TokensFrom(x, 18)) == [SEMICOLON] + Names(TokensFrom(x, 19))
  {
    GibberishAt18(x);
    NamesStep(x, 18, Token(SEMICOLON, Literal(AsciiBytes(";"))), 19);
  }

  lemma GibberishStep19(x: seq<byte>)
    requires Holds(x, GibberishTile1_1, 13) && Holds(x, GibberishTile2_0, 20) && Holds(x, GibberishTile2_1, 32)
    ensures Names(TokensFrom(x, 19)) == [INT(5)] + Names(TokensFrom(x, 33))
  {
    GibberishSkip19(x);
    GibberishAt19(x);
    NamesStep(x, 19, Token(INT(5), Literal(AsciiBytes("5"))), 33);
  }

  lemma GibberishStep33(x: seq<byte>)
    requires Holds(x, GibberishTile2_1, 32) && Holds(x, GibberishTile2_2, 34)
    ensures Names(TokensFrom(x, 33)) == [LT] + Names(TokensFrom(x, 35))
  {
    GibberishSkip33(x);
    GibberishAt33(x);
    NamesStep(x, 33, Token(LT, Literal(AsciiBytes("<"))), 35);
  }

  lemma GibberishStep35(x: seq<byte>)
    requires Holds(x, GibberishTile2_2, 34) && Holds(x, GibberishTile2_3, 36)
    ensures Names(TokensFrom(x, 35)) == [INT(10)] + Names(TokensFrom(x, 38))
  {
    GibberishSkip35(x);
    GibberishAt35(x);
    NamesStep(x, 35, Token(INT(10), Literal(AsciiBytes("10"))), 38);
  }

  lemma GibberishStep38(x: seq<byte>)
    requires Holds(x, GibberishTile2_3, 36) && Holds(x, GibberishTile2_4, 39)
    ensures Names(TokensFrom(x, 38)) == [GT] + Names(TokensFrom(x, 40))
  {
    GibberishSkip38(x);
    GibberishAt38(x);
    NamesStep(x, 38, Token(GT, Literal(AsciiBytes(">"))), 40);
  }

  lemma GibberishStep40(x: seq<byte>)
    requires Holds(x, GibberishTile2_4, 39) && Holds(x, GibberishTile2_5, 41)
    ensures Names(TokensFrom(x, 40)) == [INT(5)] + Names(TokensFrom(x, 42))
  {
    GibberishSkip40(x);
    GibberishAt40(x);
    NamesStep(x, 40, Token(INT(5), Literal(AsciiBytes("5"))), 42);
  }

  lemma GibberishStep42(x: seq<byte>)
    requires Holds(x, GibberishTile2_5, 41)
    ensures Names(TokensFrom(x, 42)) == [SEMICOLON] + Names(TokensFrom(x, 43))
  {
    GibberishAt42(x);
    NamesStep(x, 42, Token(SEMICOLON, Literal(AsciiBytes(";"))), 43);
  }

  lemma GibberishStep43(x: seq<byte>)
    requires |x| == 52 && Holds(x, GibberishTile2_5, 41) && Holds(x, GibberishTile3_0, 44)
    ensures Names(TokensFrom(x, 43)) == [EOF]
  {
    GibberishSkip43(x);
    LexAtEnd(x, 52);
    NamesLast(x, 43, Token(EOF, Literal([0])), 53);
  }

  lemma GibberishGroup0Chain(a0: seq<Name>, a1: seq<Name>, a2: seq<Name>, a3: seq<Name>, a4: seq<Name>, a5: seq<Name>, a6: seq<Name>)
    requires a0 == [BANG] + a1
    requires a1 == [MINUS] + a2
    requires a2 == [SLASH] + a3
    requires a3 == [ASTERISK] + a4
    requires a4 == [INT(5)] + a5
    requires a5 == [SEMICOLON] + a6
    ensures a0 == [BANG, MINUS, SLASH, ASTERISK, INT(5), SEMICOLON] + a6
  {
  }

  lemma GibberishGroup0(x: seq<byte>)
    requires GibberishLayout(x)
    ensures Names(TokensFrom(x, 0)) == [BANG, MINUS, SLASH, ASTERISK, INT(5), SEMICOLON] + Names(TokensFrom(x, 19))
  {
    GibberishStep0(x);
    GibberishStep14(x);
    GibberishStep15(x);
    GibberishStep16(x);
    GibberishStep17(x);
    GibberishStep18(x);
    GibberishGroup0Chain(Names(TokensFrom(x, 0)), Names(TokensFrom(x, 14)), Names(TokensFrom(x, 15)), Names(TokensFrom(x, 16)), Names(TokensFrom(x, 17)), Names(TokensFrom(x, 18)), Names(TokensFrom(x, 19)));
  }

  lemma GibberishGroup1Chain(a0: seq<Name>, a1: seq<Name>, a2: seq<Name>, a3: seq<Name>, a4: seq<Name>, a5: seq<Name>, a6: seq<Name>)
    requires a0 == [INT(5)] + a1
    requires a1 == [LT] + a2
    requires a2 == [INT(10)] + a3
    requires a3 == [GT] + a4
    requires a4 == [INT(5)] + a5
    requires a5 == [SEMICOLON] + a6
    ensures a0 == [INT(5), LT, INT(10), GT, INT(5), SEMICOLON] + a6
  {
  }

  lemma GibberishGroup1(x: seq<byte>)
    requires GibberishLayout(x)
    ensures Names(TokensFrom(x, 19)) == [INT(5), LT, INT(10), GT, INT(5), SEMICOLON] + Names(TokensFrom(x, 43))
  {
    GibberishStep19(x);
    GibberishStep33(x);
    GibberishStep35(x);
    GibberishStep38(x);
    GibberishStep40(x);
    GibberishStep42(x);
    GibberishGroup1Chain(Names(TokensFrom(x, 19)), Names(TokensFrom(x, 33)), Names(TokensFrom(x, 35)), Names(TokensFrom(x, 38)), Names(TokensFrom(x, 40)), Names(TokensFrom(x, 42)), Names(TokensFrom(x, 43)));
  }

  lemma GibberishChain(a0: seq<Name>, a1: seq<Name>, a2: seq<Name>)
    requires a0 == [BANG, MINUS, SLASH, ASTERISK, INT(5), SEMICOLON] + a1
    requires a1 == [INT(5), LT, INT(10), GT, INT(5), SEMICOLON] + a2
    requires a2 == [EOF]
    ensures a0 == [BANG, MINUS, SLASH, ASTERISK, INT(5), SEMICOLON, INT(5), LT, INT(10), GT, INT(5), SEMICOLON, EOF]
  {
  }

  /** The token kinds successive `next_token` calls return on any input laid out as this one. */
  lemma GibberishTokens(x: seq<byte>)
    requires GibberishLayout(x)
    ensures Names(Tokenize(x)) == [BANG, MINUS, SLASH, ASTERISK, INT(5), SEMICOLON, INT(5), LT, INT(10), GT, INT(5), SEMICOLON, EOF]
  {
    GibberishGroup0(x);
    GibberishGroup1(x);
    GibberishStep43(x);
    GibberishChain(Names(TokensFrom(x, 0)), Names(TokensFrom(x, 19)), Names(TokensFrom(x, 43)));
  }

  /** The token kinds successive `next_token` calls return on this input. */
  lemma GibberishSample()
    ensures Names(Tokenize(GibberishInput)) == [BANG, MINUS, SLASH, ASTERISK, INT(5), SEMICOLON, INT(5), LT, INT(10), GT, INT(5), SEMICOLON, EOF]
  {
    GibberishInputLayout();
    GibberishTokens(GibberishInput);
  }

  /** The input of the `Conditions` unit test, line by line; each line is cut after
      each run of whitespace. */
  const ConditionsTile0_0: seq<byte> := AsciiBytes("\n")
  const ConditionsLine0: seq<byte> := ConditionsTile0_0
  const ConditionsTile1_0: seq<byte> := Spaces(12)
  const ConditionsTile1_1: seq<byte> := AsciiBytes("if ")
  const ConditionsTile1_2: seq<byte> := AsciiBytes("(5 ")
  const ConditionsTile1_3: seq<byte> := AsciiBytes("< ")
  const ConditionsTile1_4: seq<byte> := AsciiBytes("10) ")
  const ConditionsTile1_5: seq<byte> := AsciiBytes("{\n")
  const ConditionsLine1: seq<byte> := ConditionsTile1_0 + ConditionsTile1_1 + ConditionsTile1_2 + ConditionsTile1_3 + ConditionsTile1_4 + ConditionsTile1_5
  const ConditionsTile2_0: seq<byte> := Spaces(16)
  const ConditionsTile2_1: seq<byte> := AsciiBytes("return ")
  const ConditionsTile2_2: seq<byte> := AsciiBytes("true;\n")
  const ConditionsLine2: seq<byte> := ConditionsTile2_0 + ConditionsTile2_1 + ConditionsTile2_2
  const ConditionsTile3_0: seq<byte> := Spaces(12)
  const ConditionsTile3_1: seq<byte> := AsciiBytes("} ")
  const ConditionsTile3_2: seq<byte> := AsciiBytes("else ")
  const ConditionsTile3_3: seq<byte> := AsciiBytes("{\n")
  const ConditionsLine3: seq<byte> := ConditionsTile3_0 + ConditionsTile3_1 + ConditionsTile3_2 + ConditionsTile3_3
  const ConditionsTile4_0: seq<byte> := Spaces(16)
  const ConditionsTile4_1: seq<byte> := AsciiBytes("return ")
  const ConditionsTile4_2: seq<byte> := AsciiBytes("false;\n")
  const ConditionsLine4: seq<byte> := ConditionsTile4_0 + ConditionsTile4_1 + ConditionsTile4_2
  const ConditionsTile5_0: seq<byte> := Spaces(12)
  const ConditionsTile5_1: seq<byte> := AsciiBytes("}\n")
  const ConditionsLine5: seq<byte> := ConditionsTile5_0 + ConditionsTile5_1
  const ConditionsTile6_0: seq<byte> := Spaces(8)
  const ConditionsLine6: seq<byte> := ConditionsTile6_0
  const ConditionsInput: seq<byte> :=
    ConditionsLine0
    + ConditionsLine1
    + ConditionsLine2
    + ConditionsLine3
    + ConditionsLine4
    + ConditionsLine5
    + ConditionsLine6

  /** An input of the length of the `Conditions` input that holds each piece of its lines in place. */
  predicate ConditionsLayout(x: seq<byte>) {
    && |x| == 129
    && Holds(x, ConditionsTile0_0, 0)
    && Holds(x, ConditionsTile1_0, 1)
    && Holds(x, ConditionsTile1_1, 13)
    && Holds(x, ConditionsTile1_2, 16)
    && Holds(x, ConditionsTile1_3, 19)
    && Holds(x, ConditionsTile1_4, 21)
    && Holds(x, ConditionsTile1_5, 25)
    && Holds(x, ConditionsTile2_0, 27)
    && Holds(x, ConditionsTile2_1, 43)
    && Holds(x, ConditionsTile2_2, 50)
    && Holds(x, ConditionsTile3_0, 56)
    && Holds(x, ConditionsTile3_1, 68)
    && Holds(x, ConditionsTile3_2, 70)
    && Holds(x, ConditionsTile3_3, 75)
    && Holds(x, ConditionsTile4_0, 77)
    && Holds(x, ConditionsTile4_1, 93)
    && Holds(x, ConditionsTile4_2, 100)
    && Holds(x, ConditionsTile5_0, 107)
    && Holds(x, ConditionsTile5_1, 119)
    && Holds(x, ConditionsTile6_0, 121)
  }

  lemma ConditionsHolds0In1()
    ensures Holds(ConditionsLine0, ConditionsLine0, 0)
  {
    HoldsSelf(ConditionsLine0);
  }

  lemma ConditionsHolds0In2()
    ensures Holds(ConditionsLine0 + ConditionsLine1, ConditionsLine0, 0)
  {
    ConditionsHolds0In1();
    HoldsExtend(ConditionsLine0, ConditionsLine1, ConditionsLine0, 0);
  }

  lemma ConditionsHolds0In3()
    ensures Holds(ConditionsLine0 + ConditionsLine1 + ConditionsLine2, ConditionsLine0, 0)
  {
    ConditionsHolds0In2();
    HoldsExtend(ConditionsLine0 + ConditionsLine1, ConditionsLine2, ConditionsLine0, 0);
  }

  lemma ConditionsHolds0In4()
    ensures Holds(ConditionsLine0 + ConditionsLine1 + ConditionsLine2 + ConditionsLine3, ConditionsLine0, 0)
  {
    ConditionsHolds0In3();
    HoldsExtend(ConditionsLine0 + ConditionsLine1 + ConditionsLine2, ConditionsLine3, ConditionsLine0, 0);
  }

  lemma ConditionsHolds0In5()
    ensures Holds(ConditionsLine0 + ConditionsLine1 + ConditionsLine2 + ConditionsLine3 + ConditionsLine4, ConditionsLine0, 0)
  {
    ConditionsHolds0In4();
    HoldsExtend(ConditionsLine0 + ConditionsLine1 + ConditionsLine2 + ConditionsLine3, ConditionsLine4, ConditionsLine0, 0);
  }

  lemma ConditionsHolds0In6()
    ensures Holds(ConditionsLine0 + ConditionsLine1 + ConditionsLine2 + ConditionsLine3 + ConditionsLine4 + ConditionsLine5, ConditionsLine0, 0)
  {
    ConditionsHolds0In5();
    HoldsExtend(ConditionsLine0 + ConditionsLine1 + ConditionsLine2 + ConditionsLine3 + ConditionsLine4, ConditionsLine5, ConditionsLine0, 0);
  }

  lemma ConditionsHolds0()
    ensures Holds(ConditionsInput, ConditionsLine0, 0)
  {
    ConditionsHolds0In6();
    HoldsExtend(ConditionsLine0 + ConditionsLine1 + ConditionsLine2 + ConditionsLine3 + ConditionsLine4 + ConditionsLine5, ConditionsLine6, ConditionsLine0, 0);
  }

  lemma ConditionsHolds1In2()
    ensures Holds(ConditionsLine0 + ConditionsLine1, ConditionsLine1, 1)
  {
    HoldsLast(ConditionsLine0, ConditionsLine1);
  }

  lemma ConditionsHolds1In3()
    ensures Holds(ConditionsLine0 + ConditionsLine1 + ConditionsLine2, ConditionsLine1, 1)
  {
    ConditionsHolds1In2();
    HoldsExtend(ConditionsLine0 + ConditionsLine1, ConditionsLine2, ConditionsLine1, 1);
  }

  lemma ConditionsHolds1In4()
    ensures Holds(ConditionsLine0 + ConditionsLine1 + ConditionsLine2 + ConditionsLine3, ConditionsLine1, 1)
  {
    ConditionsHolds1In3();
    HoldsExtend(ConditionsLine0 + ConditionsLine1 + ConditionsLine2, ConditionsLine3, ConditionsLine1, 1);
  }

  lemma ConditionsHolds1In5()
    ensures Holds(ConditionsLine0 + ConditionsLine1 + ConditionsLine2 + ConditionsLine3 + ConditionsLine4, ConditionsLine1, 1)
  {
    ConditionsHolds1In4();
    HoldsExtend(ConditionsLine0 + ConditionsLine1 + ConditionsLine2 + ConditionsLine3, ConditionsLine4, ConditionsLine1, 1);
  }

  lemma ConditionsHolds1In6()
    ensures Holds(ConditionsLine0 + ConditionsLine1 + ConditionsLine2 + ConditionsLine3 + ConditionsLine4 + ConditionsLine5, ConditionsLine1, 1)
  {
    ConditionsHolds1In5();
    HoldsExtend(ConditionsLine0 + ConditionsLine1 + ConditionsLine2 + ConditionsLine3 + ConditionsLine4, ConditionsLine5, ConditionsLine1, 1);
  }

  lemma ConditionsHolds1()
    ensures Holds(ConditionsInput, ConditionsLine1, 1)
  {
    ConditionsHolds1In6();
    HoldsExtend(ConditionsLine0 + ConditionsLine1 + ConditionsLine2 + ConditionsLine3 + ConditionsLine4 + ConditionsLine5, ConditionsLine6, ConditionsLine1, 1);
  }

  lemma ConditionsHolds2In3()
    ensures Holds(ConditionsLine0 + ConditionsLine1 + ConditionsLine2, ConditionsLine2, 27)
  {
    HoldsLast(ConditionsLine0 + ConditionsLine1, ConditionsLine2);
  }

  lemma ConditionsHolds2In4()
    ensures Holds(ConditionsLine0 + ConditionsLine1 + ConditionsLine2 + ConditionsLine3, ConditionsLine2, 27)
  {
    ConditionsHolds2In3();
    HoldsExtend(ConditionsLine0 + ConditionsLine1 + ConditionsLine2, ConditionsLine3, ConditionsLine2, 27);
  }

  lemma ConditionsHolds2In5()
    ensures Holds(ConditionsLine0 + ConditionsLine1 + ConditionsLine2 + ConditionsLine3 + ConditionsLine4, ConditionsLine2, 27)
  {
    ConditionsHolds2In4();
    HoldsExtend(ConditionsLine0 + ConditionsLine1 + ConditionsLine2 + ConditionsLine3, ConditionsLine4, ConditionsLine2, 27);
  }

  lemma ConditionsHolds2In6()
    ensures Holds(ConditionsLine0 + ConditionsLine1 + ConditionsLine2 + ConditionsLine3 + ConditionsLine4 + ConditionsLine5, ConditionsLine2, 27)
  {
    ConditionsHolds2In5();
    HoldsExtend(ConditionsLine0 + ConditionsLine1 + ConditionsLine2 + ConditionsLine3 + ConditionsLine4, ConditionsLine5, ConditionsLine2, 27);
  }

  lemma ConditionsHolds2()
    ensures Holds(ConditionsInput, ConditionsLine2, 27)
  {
    ConditionsHolds2In6();
    HoldsExtend(ConditionsLine0 + ConditionsLine1 + ConditionsLine2 + ConditionsLine3 + ConditionsLine4 + ConditionsLine5, ConditionsLine6, ConditionsLine2, 27);
  }

  lemma ConditionsHolds3In4()
    ensures Holds(ConditionsLine0 + ConditionsLine1 + ConditionsLine2 + ConditionsLine3, ConditionsLine3, 56)
  {
    HoldsLast(ConditionsLine0 + ConditionsLine1 + ConditionsLine2, ConditionsLine3);
  }

  lemma ConditionsHolds3In5()
    ensures Holds(ConditionsLine0 + ConditionsLine1 + ConditionsLine2 + ConditionsLine3 + ConditionsLine4, ConditionsLine3, 56)
  {
    ConditionsHolds3In4();
    HoldsExtend(ConditionsLine0 + ConditionsLine1 + ConditionsLine2 + ConditionsLine3, ConditionsLine4, ConditionsLine3, 56);
  }

  lemma ConditionsHolds3In6()
    ensures Holds(ConditionsLine0 + ConditionsLine1 + ConditionsLine2 + ConditionsLine3 + ConditionsLine4 + ConditionsLine5, ConditionsLine3, 56)
  {
    ConditionsHolds3In5();
    HoldsExtend(ConditionsLine0 + ConditionsLine1 + ConditionsLine2 + ConditionsLine3 + ConditionsLine4, ConditionsLine5, ConditionsLine3, 56);
  }

  lemma ConditionsHolds3()
    ensures Holds(ConditionsInput, ConditionsLine3, 56)
  {
    ConditionsHolds3In6();
    HoldsExtend(ConditionsLine0 + ConditionsLine1 + ConditionsLine2 + ConditionsLine3 + ConditionsLine4 + ConditionsLine5, ConditionsLine6, ConditionsLine3, 56);
  }

  lemma ConditionsHolds4In5()
    ensures Holds(ConditionsLine0 + ConditionsLine1 + ConditionsLine2 + ConditionsLine3 + ConditionsLine4, ConditionsLine4, 77)
  {
    HoldsLast(ConditionsLine0 + ConditionsLine1 + ConditionsLine2 + ConditionsLine3, ConditionsLine4);
  }

  lemma ConditionsHolds4In6()
    ensures Holds(ConditionsLine0 + ConditionsLine1 + ConditionsLine2 + ConditionsLine3 + ConditionsLine4 + ConditionsLine5, ConditionsLine4, 77)
  {
    ConditionsHolds4In5();
    HoldsExtend(ConditionsLine0 + ConditionsLine1 + ConditionsLine2 + ConditionsLine3 + ConditionsLine4, ConditionsLine5, ConditionsLine4, 77);
  }

  lemma ConditionsHolds4()
    ensures Holds(ConditionsInput, ConditionsLine4, 77)
  {
    ConditionsHolds4In6();
    HoldsExtend(ConditionsLine0 + ConditionsLine1 + ConditionsLine2 + ConditionsLine3 + ConditionsLine4 + ConditionsLine5, ConditionsLine6, ConditionsLine4, 77);
  }

  lemma ConditionsHolds5In6()
    ensures Holds(ConditionsLine0 + ConditionsLine1 + ConditionsLine2 + ConditionsLine3 + ConditionsLine4 + ConditionsLine5, ConditionsLine5, 107)
  {
    HoldsLast(ConditionsLine0 + ConditionsLine1 + ConditionsLine2 + ConditionsLine3 + ConditionsLine4, ConditionsLine5);
  }

  lemma ConditionsHolds5()
    ensures Holds(ConditionsInput, ConditionsLine5, 107)
  {
    ConditionsHolds5In6();
    HoldsExtend(ConditionsLine0 + ConditionsLine1 + ConditionsLine2 + ConditionsLine3 + ConditionsLine4 + ConditionsLine5, ConditionsLine6, ConditionsLine5, 107);
  }

  lemma ConditionsHolds6()
    ensures Holds(ConditionsInput, ConditionsLine6, 121)
  {
    HoldsLast(ConditionsLine0 + ConditionsLine1 + ConditionsLine2 + ConditionsLine3 + ConditionsLine4 + ConditionsLine5, ConditionsLine6);
  }

  lemma ConditionsPiece1_0(x: seq<byte>)
    requires Holds(x, ConditionsLine1, 1)
    ensures Holds(x, ConditionsTile1_0, 1)
  {
    HoldsLeft(x, ConditionsTile1_0 + ConditionsTile1_1 + ConditionsTile1_2 + ConditionsTile1_3 + ConditionsTile1_4, ConditionsTile1_5, 1);
    HoldsLeft(x, ConditionsTile1_0 + ConditionsTile1_1 + ConditionsTile1_2 + ConditionsTile1_3, ConditionsTile1_4, 1);
    HoldsLeft(x, ConditionsTile1_0 + ConditionsTile1_1 + ConditionsTile1_2, ConditionsTile1_3, 1);
    HoldsLeft(x, ConditionsTile1_0 + ConditionsTile1_1, ConditionsTile1_2, 1);
    HoldsLeft(x, ConditionsTile1_0, ConditionsTile1_1, 1);
  }

  lemma ConditionsPiece1_1(x: seq<byte>)
    requires Holds(x, ConditionsLine1, 1)
    ensures Holds(x, ConditionsTile1_1, 13)
  {
    HoldsLeft(x, ConditionsTile1_0 + ConditionsTile1_1 + ConditionsTile1_2 + ConditionsTile1_3 + ConditionsTile1_4, ConditionsTile1_5, 1);
    HoldsLeft(x, ConditionsTile1_0 + ConditionsTile1_1 + ConditionsTile1_2 + ConditionsTile1_3, ConditionsTile1_4, 1);
    HoldsLeft(x, ConditionsTile1_0 + ConditionsTile1_1 + ConditionsTile1_2, ConditionsTile1_3, 1);
    HoldsLeft(x, ConditionsTile1_0 + ConditionsTile1_1, ConditionsTile1_2, 1);
    HoldsRight(x, ConditionsTile1_0, ConditionsTile1_1, 1);
  }

  lemma ConditionsPiece1_2(x: seq<byte>)
    requires Holds(x, ConditionsLine1, 1)
    ensures Holds(x, ConditionsTile1_2, 16)
  {
    HoldsLeft(x, ConditionsTile1_0 + ConditionsTile1_1 + ConditionsTile1_2 + ConditionsTile1_3 + ConditionsTile1_4, ConditionsTile1_5, 1);
    HoldsLeft(x, ConditionsTile1_0 + ConditionsTile1_1 + ConditionsTile1_2 + ConditionsTile1_3, ConditionsTile1_4, 1);
    HoldsLeft(x, ConditionsTile1_0 + ConditionsTile1_1 + ConditionsTile1_2, ConditionsTile1_3, 1);
    HoldsRight(x, ConditionsTile1_0 + ConditionsTile1_1, ConditionsTile1_2, 1);
  }

  lemma ConditionsPiece1_3(x: seq<byte>)
    requires Holds(x, ConditionsLine1, 1)
    ensures Holds(x, ConditionsTile1_3, 19)
  {
    HoldsLeft(x, ConditionsTile1_0 + ConditionsTile1_1 + ConditionsTile1_2 + ConditionsTile1_3 + ConditionsTile1_4, ConditionsTile1_5, 1);
    HoldsLeft(x, ConditionsTile1_0 + ConditionsTile1_1 + ConditionsTile1_2 + ConditionsTile1_3, ConditionsTile1_4, 1);
    HoldsRight(x, ConditionsTile1_0 + ConditionsTile1_1 + ConditionsTile1_2, ConditionsTile1_3, 1);
  }

  lemma ConditionsPiece1_4(x: seq<byte>)
    requires Holds(x, ConditionsLine1, 1)
    ensures Holds(x, ConditionsTile1_4, 21)
  {
    HoldsLeft(x, ConditionsTile1_0 + ConditionsTile1_1 + ConditionsTile1_2 + ConditionsTile1_3 + ConditionsTile1_4, ConditionsTile1_5, 1);
    HoldsRight(x, ConditionsTile1_0 + ConditionsTile1_1 + ConditionsTile1_2 + ConditionsTile1_3, ConditionsTile1_4, 1);
  }

  lemma ConditionsPiece1_5(x: seq<byte>)
    requires Holds(x, ConditionsLine1, 1)
    ensures Holds(x, ConditionsTile1_5, 25)
  {
    HoldsRight(x, ConditionsTile1_0 + ConditionsTile1_1 + ConditionsTile1_2 + ConditionsTile1_3 + ConditionsTile1_4, ConditionsTile1_5, 1);
  }

  lemma ConditionsPiece2_0(x: seq<byte>)
    requires Holds(x, ConditionsLine2, 27)
    ensures Holds(x, ConditionsTile2_0, 27)
  {
    HoldsLeft(x, ConditionsTile2_0 + ConditionsTile2_1, ConditionsTile2_2, 27);
    HoldsLeft(x, ConditionsTile2_0, ConditionsTile2_1, 27);
  }

  lemma ConditionsPiece2_1(x: seq<byte>)
    requires Holds(x, ConditionsLine2, 27)
    ensures Holds(x, ConditionsTile2_1, 43)
  {
    HoldsLeft(x, ConditionsTile2_0 + ConditionsTile2_1, ConditionsTile2_2, 27);
    HoldsRight(x, ConditionsTile2_0, ConditionsTile2_1, 27);
  }

  lemma ConditionsPiece2_2(x: seq<byte>)
    requires Holds(x, ConditionsLine2, 27)
    ensures Holds(x, ConditionsTile2_2, 50)
  {
    HoldsRight(x, ConditionsTile2_0 + ConditionsTile2_1, ConditionsTile2_2, 27);
  }

  lemma ConditionsPiece3_0(x: seq<byte>)
    requires Holds(x, ConditionsLine3, 56)
    ensures Holds(x, ConditionsTile3_0, 56)
  {
    HoldsLeft(x, ConditionsTile3_0 + ConditionsTile3_1 + ConditionsTile3_2, ConditionsTile3_3, 56);
    HoldsLeft(x, ConditionsTile3_0 + ConditionsTile3_1, ConditionsTile3_2, 56);
    HoldsLeft(x, ConditionsTile3_0, ConditionsTile3_1, 56);
  }

  lemma ConditionsPiece3_1(x: seq<byte>)
    requires Holds(x, ConditionsLine3, 56)
    ensures Holds(x, ConditionsTile3_1, 68)
  {
    HoldsLeft(x, ConditionsTile3_0 + ConditionsTile3_1 + ConditionsTile3_2, ConditionsTile3_3, 56);
    HoldsLeft(x, ConditionsTile3_0 + ConditionsTile3_1, ConditionsTile3_2, 56);
    HoldsRight(x, ConditionsTile3_0, ConditionsTile3_1, 56);
  }

  lemma ConditionsPiece3_2(x: seq<byte>)
    requires Holds(x, ConditionsLine3, 56)
    ensures Holds(x, ConditionsTile3_2, 70)
  {
    HoldsLeft(x, ConditionsTile3_0 + ConditionsTile3_1 + ConditionsTile3_2, ConditionsTile3_3, 56);
    HoldsRight(x, ConditionsTile3_0 + ConditionsTile3_1, ConditionsTile3_2, 56);
  }

  lemma ConditionsPiece3_3(x: seq<byte>)
    requires Holds(x, ConditionsLine3, 56)
    ensures Holds(x, ConditionsTile3_3, 75)
  {
    HoldsRight(x, ConditionsTile3_0 + ConditionsTile3_1 + ConditionsTile3_2, ConditionsTile3_3, 56);
  }

  lemma ConditionsPiece4_0(x: seq<byte>)
    requires Holds(x, ConditionsLine4, 77)
    ensures Holds(x, ConditionsTile4_0, 77)
  {
    HoldsLeft(x, ConditionsTile4_0 + ConditionsTile4_1, ConditionsTile4_2, 77);
    HoldsLeft(x, ConditionsTile4_0, ConditionsTile4_1, 77);
  }

  lemma ConditionsPiece4_1(x: seq<byte>)
    requires Holds(x, ConditionsLine4, 77)
    ensures Holds(x, ConditionsTile4_1, 93)
  {
    HoldsLeft(x, ConditionsTile4_0 + ConditionsTile4_1, ConditionsTile4_2, 77);
    HoldsRight(x, ConditionsTile4_0, ConditionsTile4_1, 77);
  }

  lemma ConditionsPiece4_2(x: seq<byte>)
    requires Holds(x, ConditionsLine4, 77)
    ensures Holds(x, ConditionsTile4_2, 100)
  {
    HoldsRight(x, ConditionsTile4_0 + ConditionsTile4_1, ConditionsTile4_2, 77);
  }

  lemma ConditionsPiece5_0(x: seq<byte>)
    requires Holds(x, ConditionsLine5, 107)
    ensures Holds(x, ConditionsTile5_0, 107)
  {
    HoldsLeft(x, ConditionsTile5_0, ConditionsTile5_1, 107);
  }

  lemma ConditionsPiece5_1(x: seq<byte>)
    requires Holds(x, ConditionsLine5, 107)
    ensures Holds(x, ConditionsTile5_1, 119)
  {
    HoldsRight(x, ConditionsTile5_0, ConditionsTile5_1, 107);
  }

  lemma ConditionsInputLayout()
    ensures ConditionsLayout(ConditionsInput)
  {
    ConditionsHolds0();
    ConditionsHolds1();
    ConditionsPiece1_0(ConditionsInput);
    ConditionsPiece1_1(ConditionsInput);
    ConditionsPiece1_2(ConditionsInput);
    ConditionsPiece1_3(ConditionsInput);
    ConditionsPiece1_4(ConditionsInput);
    ConditionsPiece1_5(ConditionsInput);
    ConditionsHolds2();
    ConditionsPiece2_0(ConditionsInput);
    ConditionsPiece2_1(ConditionsInput);
    ConditionsPiece2_2(ConditionsInput);
    ConditionsHolds3();
    ConditionsPiece3_0(ConditionsInput);
    ConditionsPiece3_1(ConditionsInput);
    ConditionsPiece3_2(ConditionsInput);
    ConditionsPiece3_3(ConditionsInput);
    ConditionsHolds4();
    ConditionsPiece4_0(ConditionsInput);
    ConditionsPiece4_1(ConditionsInput);
    ConditionsPiece4_2(ConditionsInput);
    ConditionsHolds5();
    ConditionsPiece5_0(ConditionsInput);
    ConditionsPiece5_1(ConditionsInput);
    ConditionsHolds6();
  }

  lemma ConditionsSkip0(x: seq<byte>)
    requires Holds(x, ConditionsTile0_0, 0) && Holds(x, ConditionsTile1_0, 1)
    ensures Lex(x, 0) == Lex(x, 13)
  {
    SkipAcrossSpace(x, ConditionsTile0_0, 0, 0);
    SkipAcrossSpace(x, ConditionsTile1_0, 1, 0);
    LexAfterSkip(x, 0, 13);
  }

  lemma ConditionsLex0()
    ensures CharAt(ConditionsTile1_1, SkipEnd(ConditionsTile1_1, 0)) != 0 && Lex(ConditionsTile1_1, 0) == Step(Token(IF, Literal(AsciiBytes("if"))), 2)
  {
    RunEndAt(ConditionsTile1_1, 0, 0, IsWhitespace);
    LexWordAt(ConditionsTile1_1, 0, 0, AsciiBytes("if"));
    Word_if();
  }

  lemma ConditionsAt0(x: seq<byte>)
    requires Holds(x, ConditionsTile1_1, 13)
    ensures Lex(x, 13) == Step(Token(IF, Literal(AsciiBytes("if"))), 15)
  {
    ConditionsLex0();
    LexWindow(x, ConditionsTile1_1, 13, 0);
  }

  lemma ConditionsSkip15(x: seq<byte>)
    requires Holds(x, ConditionsTile1_1, 13)
    ensures Lex(x, 15) == Lex(x, 16)
  {
    SkipAcrossSpace(x, ConditionsTile1_1, 13, 2);
    LexAfterSkip(x, 15, 16);
  }

  lemma ConditionsLex15()
    ensures CharAt(ConditionsTile1_2, SkipEnd(ConditionsTile1_2, 0)) != 0 && Lex(ConditionsTile1_2, 0) == Step(Token(LPAREN, Literal(AsciiBytes("("))), 1)
  {
    RunEndAt(ConditionsTile1_2, 0, 0, IsWhitespace);
  }

  lemma ConditionsAt15(x: seq<byte>)
    requires Holds(x, ConditionsTile1_2, 16)
    ensures Lex(x, 16) == Step(Token(LPAREN, Literal(AsciiBytes("("))), 17)
  {
    ConditionsLex15();
    LexWindow(x, ConditionsTile1_2, 16, 0);
  }

  lemma ConditionsLex17()
    ensures CharAt(ConditionsTile1_2, SkipEnd(ConditionsTile1_2, 1)) != 0 && Lex(ConditionsTile1_2, 1) == Step(Token(INT(5), Literal(AsciiBytes("5"))), 2)
  {
    RunEndAt(ConditionsTile1_2, 1, 1, IsWhitespace);
    LexNumberAt(ConditionsTile1_2, 1, 1, AsciiBytes("5"));
    Number_5();
  }

  lemma ConditionsAt17(x: seq<byte>)
    requires Holds(x, ConditionsTile1_2, 16)
    ensures Lex(x, 17) == Step(Token(INT(5), Literal(AsciiBytes("5"))), 18)
  {
    ConditionsLex17();
    LexWindow(x, ConditionsTile1_2, 16, 1);
  }

  lemma ConditionsSkip18(x: seq<byte>)
    requires Holds(x, ConditionsTile1_2, 16)
    ensures Lex(x, 18) == Lex(x, 19)
  {
    SkipAcrossSpace(x, ConditionsTile1_2, 16, 2);
    LexAfterSkip(x, 18, 19);
  }

  lemma ConditionsLex18()
    ensures CharAt(ConditionsTile1_3, SkipEnd(ConditionsTile1_3, 0)) != 0 && Lex(ConditionsTile1_3, 0) == Step(Token(LT, Literal(AsciiBytes("<"))), 1)
  {
    RunEndAt(ConditionsTile1_3, 0, 0, IsWhitespace);
  }

  lemma ConditionsAt18(x: seq<byte>)
    requires Holds(x, ConditionsTile1_3, 19)
    ensures Lex(x, 19) == Step(Token(LT, Literal(AsciiBytes("<"))), 20)
  {
    ConditionsLex18();
    LexWindow(x, ConditionsTile1_3, 19, 0);
  }

  lemma ConditionsSkip20(x: seq<byte>)
    requires Holds(x, ConditionsTile1_3, 19)
    ensures Lex(x, 20) == Lex(x, 21)
  {
    SkipAcrossSpace(x, ConditionsTile1_3, 19, 1);
    LexAfterSkip(x, 20, 21);
  }

  lemma ConditionsLex20()
    ensures CharAt(ConditionsTile1_4, SkipEnd(ConditionsTile1_4, 0)) != 0 && Lex(ConditionsTile1_4, 0) == Step(Token(INT(10), Literal(AsciiBytes("10"))), 2)
  {
    RunEndAt(ConditionsTile1_4, 0, 0, IsWhitespace);
    LexNumberAt(ConditionsTile1_4, 0, 0, AsciiBytes("10"));
    Number_10();
  }

  lemma ConditionsAt20(x: seq<byte>)
    requires Holds(x, ConditionsTile1_4, 21)
    ensures Lex(x, 21) == Step(Token(INT(10), Literal(AsciiBytes("10"))), 23)
  {
    ConditionsLex20();
    LexWindow(x, ConditionsTile1_4, 21, 0);
  }

  lemma ConditionsLex23()
    ensures CharAt(ConditionsTile1_4, SkipEnd(ConditionsTile1_4, 2)) != 0 && Lex(ConditionsTile1_4, 2) == Step(Token(RPAREN, Literal(AsciiBytes(")"))), 3)
  {
    RunEndAt(ConditionsTile1_4, 2, 2, IsWhitespace);
  }

  lemma ConditionsAt23(x: seq<byte>)
    requires Holds(x, ConditionsTile1_4, 21)
    ensures Lex(x, 23) == Step(Token(RPAREN, Literal(AsciiBytes(")"))), 24)
  {
    ConditionsLex23();
    LexWindow(x, ConditionsTile1_4, 21, 2);
  }

  lemma ConditionsSkip24(x: seq<byte>)
    requires Holds(x, ConditionsTile1_4, 21)
    ensures Lex(x, 24) == Lex(x, 25)
  {
    SkipAcrossSpace(x, ConditionsTile1_4, 21, 3);
    LexAfterSkip(x, 24, 25);
  }

  lemma ConditionsLex24()
    ensures CharAt(ConditionsTile1_5, SkipEnd(ConditionsTile1_5, 0)) != 0 && Lex(ConditionsTile1_5, 0) == Step(Token(LBRACE, Literal(AsciiBytes("{"))), 1)
  {
    RunEndAt(ConditionsTile1_5, 0, 0, IsWhitespace);
  }

  lemma ConditionsAt24(x: seq<byte>)
    requires Holds(x, ConditionsTile1_5, 25)
    ensures Lex(x, 25) == Step(Token(LBRACE, Literal(AsciiBytes("{"))), 26)
  {
    ConditionsLex24();
    LexWindow(x, ConditionsTile1_5, 25, 0);
  }

  lemma ConditionsSkip26(x: seq<byte>)
    requires Holds(x, ConditionsTile1_5, 25) && Holds(x, ConditionsTile2_0, 27)
    ensures Lex(x, 26) == Lex(x, 43)
  {
    SkipAcrossSpace(x, ConditionsTile1_5, 25, 1);
    SkipAcrossSpace(x, ConditionsTile2_0, 27, 0);
    LexAfterSkip(x, 26, 43);
  }

  lemma ConditionsLex26()
    ensures CharAt(ConditionsTile2_1, SkipEnd(ConditionsTile2_1, 0)) != 0 && Lex(ConditionsTile2_1, 0) == Step(Token(RETURN, Literal(AsciiBytes("return"))), 6)
  {
    RunEndAt(ConditionsTile2_1, 0, 0, IsWhitespace);
    LexWordAt(ConditionsTile2_1, 0, 0, AsciiBytes("return"));
    Word_return();
  }

  lemma ConditionsAt26(x: seq<byte>)
    requires Holds(x, ConditionsTile2_1, 43)
    ensures Lex(x, 43) == Step(Token(RETURN, Literal(AsciiBytes("return"))), 49)
  {
    ConditionsLex26();
    LexWindow(x, ConditionsTile2_1, 43, 0);
  }

  lemma ConditionsSkip49(x: seq<byte>)
    requires Holds(x, ConditionsTile2_1, 43)
    ensures Lex(x, 49) == Lex(x, 50)
  {
    SkipAcrossSpace(x, ConditionsTile2_1, 43, 6);
    LexAfterSkip(x, 49, 50);
  }

  lemma ConditionsLex49()
    ensures CharAt(ConditionsTile2_2, SkipEnd(ConditionsTile2_2, 0)) != 0 && Lex(ConditionsTile2_2, 0) == Step(Token(TRUE, Literal(AsciiBytes("true"))), 4)
  {
    RunEndAt(ConditionsTile2_2, 0, 0, IsWhitespace);
    LexWordAt(ConditionsTile2_2, 0, 0, AsciiBytes("true"));
    Word_true();
  }

  lemma ConditionsAt49(x: seq<byte>)
    requires Holds(x, ConditionsTile2_2, 50)
    ensures Lex(x, 50) == Step(Token(TRUE, Literal(AsciiBytes("true"))), 54)
  {
    ConditionsLex49();
    LexWindow(x, ConditionsTile2_2, 50, 0);
  }

  lemma ConditionsLex54()
    ensures CharAt(ConditionsTile2_2, SkipEnd(ConditionsTile2_2, 4)) != 0 && Lex(ConditionsTile2_2, 4) == Step(Token(SEMICOLON, Literal(AsciiBytes(";"))), 5)
  {
    RunEndAt(ConditionsTile2_2, 4, 4, IsWhitespace);
  }

  lemma ConditionsAt54(x: seq<byte>)
    requires Holds(x, ConditionsTile2_2, 50)
    ensures Lex(x, 54) == Step(Token(SEMICOLON, Literal(AsciiBytes(";"))), 55)
  {
    ConditionsLex54();
    LexWindow(x, ConditionsTile2_2, 50, 4);
  }

  lemma ConditionsSkip55(x: seq<byte>)
    requires Holds(x, ConditionsTile2_2, 50) && Holds(x, ConditionsTile3_0, 56)
    ensures Lex(x, 55) == Lex(x, 68)
  {
    SkipAcrossSpace(x, ConditionsTile2_2, 50, 5);
    SkipAcrossSpace(x, ConditionsTile3_0, 56, 0);
    LexAfterSkip(x, 55, 68);
  }

  lemma ConditionsLex55()
    ensures CharAt(ConditionsTile3_1, SkipEnd(ConditionsTile3_1, 0)) != 0 && Lex(ConditionsTile3_1, 0) == Step(Token(RBRACE, Literal(AsciiBytes("}"))), 1)
  {
    RunEndAt(ConditionsTile3_1, 0, 0, IsWhitespace);
  }

  lemma ConditionsAt55(x: seq<byte>)
    requires Holds(x, ConditionsTile3_1, 68)
    ensures Lex(x, 68) == Step(Token(RBRACE, Literal(AsciiBytes("}"))), 69)
  {
    ConditionsLex55();
    LexWindow(x, ConditionsTile3_1, 68, 0);
  }

  lemma ConditionsSkip69(x: seq<byte>)
    requires Holds(x, ConditionsTile3_1, 68)
    ensures Lex(x, 69) == Lex(x, 70)
  {
    SkipAcrossSpace(x, ConditionsTile3_1, 68, 1);
    LexAfterSkip(x, 69, 70);
  }

  lemma ConditionsLex69()
    ensures CharAt(ConditionsTile3_2, SkipEnd(ConditionsTile3_2, 0)) != 0 && Lex(ConditionsTile3_2, 0) == Step(Token(ELSE, Literal(AsciiBytes("else"))), 4)
  {
    RunEndAt(ConditionsTile3_2, 0, 0, IsWhitespace);
    LexWordAt(ConditionsTile3_2, 0, 0, AsciiBytes("else"));
    Word_else();
  }

  lemma ConditionsAt69(x: seq<byte>)
    requires Holds(x, ConditionsTile3_2, 70)
    ensures Lex(x, 70) == Step(Token(ELSE, Literal(AsciiBytes("else"))), 74)
  {
    ConditionsLex69();
    LexWindow(x, ConditionsTile3_2, 70, 0);
  }

  lemma ConditionsSkip74(x: seq<byte>)
    requires Holds(x, ConditionsTile3_2, 70)
    ensures Lex(x, 74) == Lex(x, 75)
  {
    SkipAcrossSpace(x, ConditionsTile3_2, 70, 4);
    LexAfterSkip(x, 74, 75);
  }

  lemma ConditionsLex74()
    ensures CharAt(ConditionsTile3_3, SkipEnd(ConditionsTile3_3, 0)) != 0 && Lex(ConditionsTile3_3, 0) == Step(Token(LBRACE, Literal(AsciiBytes("{"))), 1)
  {
    RunEndAt(ConditionsTile3_3, 0, 0, IsWhitespace);
  }

  lemma ConditionsAt74(x: seq<byte>)
    requires Holds(x, ConditionsTile3_3, 75)
    ensures Lex(x, 75) == Step(Token(LBRACE, Literal(AsciiBytes("{"))), 76)
  {
    ConditionsLex74();
    LexWindow(x, ConditionsTile3_3, 75, 0);
  }

  lemma ConditionsSkip76(x: seq<byte>)
    requires Holds(x, ConditionsTile3_3, 75) && Holds(x, ConditionsTile4_0, 77)
    ensures Lex(x, 76) == Lex(x, 93)
  {
    SkipAcrossSpace(x, ConditionsTile3_3, 75, 1);
    SkipAcrossSpace(x, ConditionsTile4_0, 77, 0);
    LexAfterSkip(x, 76, 93);
  }

  lemma ConditionsLex76()
    ensures CharAt(ConditionsTile4_1, SkipEnd(ConditionsTile4_1, 0)) != 0 && Lex(ConditionsTile4_1, 0) == Step(Token(RETURN, Literal(AsciiBytes("return"))), 6)
  {
    RunEndAt(ConditionsTile4_1, 0, 0, IsWhitespace);
    LexWordAt(ConditionsTile4_1, 0, 0, AsciiBytes("return"));
    Word_return();
  }

  lemma ConditionsAt76(x: seq<byte>)
    requires Holds(x, ConditionsTile4_1, 93)
    ensures Lex(x, 93) == Step(Token(RETURN, Literal(AsciiBytes("return"))), 99)
  {
    ConditionsLex76();
    LexWindow(x, ConditionsTile4_1, 93, 0);
  }

  lemma ConditionsSkip99(x: seq<byte>)
    requires Holds(x, ConditionsTile4_1, 93)
    ensures Lex(x, 99) == Lex(x, 100)
  {
    SkipAcrossSpace(x, ConditionsTile4_1, 93, 6);
    LexAfterSkip(x, 99, 100);
  }

  lemma ConditionsLex99()
    ensures CharAt(ConditionsTile4_2, SkipEnd(ConditionsTile4_2, 0)) != 0 && Lex(ConditionsTile4_2, 0) == Step(Token(FALSE, Literal(AsciiBytes("false"))), 5)
  {
    RunEndAt(ConditionsTile4_2, 0, 0, IsWhitespace);
    LexWordAt(ConditionsTile4_2, 0, 0, AsciiBytes("false"));
    Word_false();
  }

  lemma ConditionsAt99(x: seq<byte>)
    requires Holds(x, ConditionsTile4_2, 100)
    ensures Lex(x, 100) == Step(Token(FALSE, Literal(AsciiBytes("false"))), 105)
  {
    ConditionsLex99();
    LexWindow(x, ConditionsTile4_2, 100, 0);
  }

  lemma ConditionsLex105()
    ensures CharAt(ConditionsTile4_2, SkipEnd(ConditionsTile4_2, 5)) != 0 && Lex(ConditionsTile4_2, 5) == Step(Token(SEMICOLON, Literal(AsciiBytes(";"))), 6)
  {
    RunEndAt(ConditionsTile4_2, 5, 5, IsWhitespace);
  }

  lemma ConditionsAt105(x: seq<byte>)
    requires Holds(x, ConditionsTile4_2, 100)
    ensures Lex(x, 105) == Step(Token(SEMICOLON, Literal(AsciiBytes(";"))), 106)
  {
    ConditionsLex105();
    LexWindow(x, ConditionsTile4_2, 100, 5);
  }

  lemma ConditionsSkip106(x: seq<byte>)
    requires Holds(x, ConditionsTile4_2, 100) && Holds(x, ConditionsTile5_0, 107)
    ensures Lex(x, 106) == Lex(x, 119)
  {
    SkipAcrossSpace(x, ConditionsTile4_2, 100, 6);
    SkipAcrossSpace(x, ConditionsTile5_0, 107, 0);
    LexAfterSkip(x, 106, 119);
  }

  lemma ConditionsLex106()
    ensures CharAt(ConditionsTile5_1, SkipEnd(ConditionsTile5_1, 0)) != 0 && Lex(ConditionsTile5_1, 0) == Step(Token(RBRACE, Literal(AsciiBytes("}"))), 1)
  {
    RunEndAt(ConditionsTile5_1, 0, 0, IsWhitespace);
  }

  lemma ConditionsAt106(x: seq<byte>)
    requires Holds(x, ConditionsTile5_1, 119)
    ensures Lex(x, 119) == Step(Token(RBRACE, Literal(AsciiBytes("}"))), 120)
  {
    ConditionsLex106();
    LexWindow(x, ConditionsTile5_1, 119, 0);
  }

  lemma ConditionsSkip120(x: seq<byte>)
    requires Holds(x, ConditionsTile5_1, 119) && Holds(x, ConditionsTile6_0, 121)
    ensures Lex(x, 120) == Lex(x, 129)
  {
    SkipAcrossSpace(x, ConditionsTile5_1, 119, 1);
    SkipAcrossSpace(x, ConditionsTile6_0, 121, 0);
    LexAfterSkip(x, 120, 129);
  }

  lemma ConditionsStep0(x: seq<byte>)
    requires Holds(x, ConditionsTile0_0, 0) && Holds(x, ConditionsTile1_0, 1) && Holds(x, ConditionsTile1_1, 13)
    ensures Names(TokensFrom(x, 0)) == [IF] + Names(TokensFrom(x, 15))
  {
    ConditionsSkip0(x);
    ConditionsAt0(x);
    NamesStep(x, 0, Token(IF, Literal(AsciiBytes("if"))), 15);
  }

  lemma ConditionsStep15(x: seq<byte>)
    requires Holds(x, ConditionsTile1_1, 13) && Holds(x, ConditionsTile1_2, 16)
    ensures Names(TokensFrom(x, 15)) == [LPAREN] + Names(TokensFrom(x, 17))
  {
    ConditionsSkip15(x);
    ConditionsAt15(x);
    NamesStep(x, 15, Token(LPAREN, Literal(AsciiBytes("("))), 17);
  }

  lemma ConditionsStep17(x: seq<byte>)
    requires Holds(x, ConditionsTile1_2, 16)
    ensures Names(TokensFrom(x, 17)) == [INT(5)] + Names(TokensFrom(x, 18))
  {
    ConditionsAt17(x);
    NamesStep(x, 17, Token(INT(5), Literal(AsciiBytes("5"))), 18);
  }

  lemma ConditionsStep18(x: seq<byte>)
    requires Holds(x, ConditionsTile1_2, 16) && Holds(x, ConditionsTile1_3, 19)
    ensures Names(TokensFrom(x, 18)) == [LT] + Names(TokensFrom(x, 20))
  {
    ConditionsSkip18(x);
    ConditionsAt18(x);
    NamesStep(x, 18, Token(LT, Literal(AsciiBytes("<"))), 20);
  }

  lemma ConditionsStep20(x: seq<byte>)
    requires Holds(x, ConditionsTile1_3, 19) && Holds(x, ConditionsTile1_4, 21)
    ensures Names(TokensFrom(x, 20)) == [INT(10)] + Names(TokensFrom(x, 23))
  {
    ConditionsSkip20(x);
    ConditionsAt20(x);
    NamesStep(x, 20, Token(INT(10), Literal(AsciiBytes("10"))), 23);
  }

  lemma ConditionsStep23(x: seq<byte>)
    requires Holds(x, ConditionsTile1_4, 21)
    ensures Names(TokensFrom(x, 23)) == [RPAREN] + Names(TokensFrom(x, 24))
  {
    ConditionsAt23(x);
    NamesStep(x, 23, Token(RPAREN, Literal(AsciiBytes(")"))), 24);
  }

  lemma ConditionsStep24(x: seq<byte>)
    requires Holds(x, ConditionsTile1_4, 21) && Holds(x, ConditionsTile1_5, 25)
    ensures Names(TokensFrom(x, 24)) == [LBRACE] + Names(TokensFrom(x, 26))
  {
    ConditionsSkip24(x);
    ConditionsAt24(x);
    NamesStep(x, 24, Token(LBRACE, Literal(AsciiBytes("{"))), 26);
  }

  lemma ConditionsStep26(x: seq<byte>)
    requires Holds(x, ConditionsTile1_5, 25) && Holds(x, ConditionsTile2_0, 27) && Holds(x, ConditionsTile2_1, 43)
    ensures Names(TokensFrom(x, 26)) == [RETURN] + Names(TokensFrom(x, 49))
  {
    ConditionsSkip26(x);
    ConditionsAt26(x);
    NamesStep(x, 26, Token(RETURN, Literal(AsciiBytes("return"))), 49);
  }

  lemma ConditionsStep49(x: seq<byte>)
    requires Holds(x, ConditionsTile2_1, 43) && Holds(x, ConditionsTile2_2, 50)
    ensures Names(TokensFrom(x, 49)) == [TRUE] + Names(TokensFrom(x, 54))
  {
    ConditionsSkip49(x);
    ConditionsAt49(x);
    NamesStep(x, 49, Token(TRUE, Literal(AsciiBytes("true"))), 54);
  }

  lemma ConditionsStep54(x: seq<byte>)
    requires Holds(x, ConditionsTile2_2, 50)
    ensures Names(TokensFrom(x, 54)) == [SEMICOLON] + Names(TokensFrom(x, 55))
  {
    ConditionsAt54(x);
    NamesStep(x, 54, Token(SEMICOLON, Literal(AsciiBytes(";"))), 55);
  }

  lemma ConditionsStep55(x: seq<byte>)
    requires Holds(x, ConditionsTile2_2, 50) && Holds(x, ConditionsTile3_0, 56) && Holds(x, ConditionsTile3_1, 68)
    ensures Names(TokensFrom(x, 55)) == [RBRACE] + Names(TokensFrom(x, 69))
  {
    ConditionsSkip55(x);
    ConditionsAt55(x);
    NamesStep(x, 55, Token(RBRACE, Literal(AsciiBytes("}"))), 69);
  }

  lemma ConditionsStep69(x: seq<byte>)
    requires Holds(x, ConditionsTile3_1, 68) && Holds(x, ConditionsTile3_2, 70)
    ensures Names(TokensFrom(x, 69)) == [ELSE] + Names(TokensFrom(x, 74))
  {
    ConditionsSkip69(x);
    ConditionsAt69(x);
    NamesStep(x, 69, Token(ELSE, Literal(AsciiBytes("else"))), 74);
  }

  lemma ConditionsStep74(x: seq<byte>)
    requires Holds(x, ConditionsTile3_2, 70) && Holds(x, ConditionsTile3_3, 75)
    ensures Names(TokensFrom(x, 74)) == [LBRACE] + Names(TokensFrom(x, 76))
  {
    ConditionsSkip74(x);
    ConditionsAt74(x);
    NamesStep(x, 74, Token(LBRACE, Literal(AsciiBytes("{"))), 76);
  }

  lemma ConditionsStep76(x: seq<byte>)
    requires Holds(x, ConditionsTile3_3, 75) && Holds(x, ConditionsTile4_0, 77) && Holds(x, ConditionsTile4_1, 93)
    ensures Names(TokensFrom(x, 76)) == [RETURN] + Names(TokensFrom(x, 99))
  {
    ConditionsSkip76(x);
    ConditionsAt76(x);
    NamesStep(x, 76, Token(RETURN, Literal(AsciiBytes("return"))), 99);
  }

  lemma ConditionsStep99(x: seq<byte>)
    requires Holds(x, ConditionsTile4_1, 93) && Holds(x, ConditionsTile4_2, 100)
    ensures Names(TokensFrom(x, 99)) == [FALSE] + Names(TokensFrom(x, 105))
  {
    ConditionsSkip99(x);
    ConditionsAt99(x);
    NamesStep(x, 99, Token(FALSE, Literal(AsciiBytes("false"))), 105);
  }

  lemma ConditionsStep105(x: seq<byte>)
    requires Holds(x, ConditionsTile4_2, 100)
    ensures Names(TokensFrom(x, 105)) == [SEMICOLON] + Names(TokensFrom(x, 106))
  {
    ConditionsAt105(x);
    NamesStep(x, 105, Token(SEMICOLON, Literal(AsciiBytes(";"))), 106);
  }

  lemma ConditionsStep106(x: seq<byte>)
    requires Holds(x, ConditionsTile4_2, 100) && Holds(x, ConditionsTile5_0, 107) && Holds(x, ConditionsTile5_1, 119)
    ensures Names(TokensFrom(x, 106)) == [RBRACE] + Names(TokensFrom(x, 120))
  {
    ConditionsSkip106(x);
    ConditionsAt106(x);
    NamesStep(x, 106, Token(RBRACE, Literal(AsciiBytes("}"))), 120);
  }

  lemma ConditionsStep120(x: seq<byte>)
    requires |x| == 129 && Holds(x, ConditionsTile5_1, 119) && Holds(x, ConditionsTile6_0, 121)
    ensures Names(TokensFrom(x, 120)) == [EOF]
  {
    ConditionsSkip120(x);
    LexAtEnd(x, 129);
    NamesLast(x, 120, Token(EOF, Literal([0])), 130);
  }

  lemma ConditionsGroup0Chain(a0: seq<Name>, a1: seq<Name>, a2: seq<Name>, a3: seq<Name>, a4: seq<Name>, a5: seq<Name>, a6: seq<Name>, a7: seq<Name>)
    requires a0 == [IF] + a1
    requires a1 == [LPAREN] + a2
    requires a2 == [INT(5)] + a3
    requires a3 == [LT] + a4
    requires a4 == [INT(10)] + a5
    requires a5 == [RPAREN] + a6
    requires a6 == [LBRACE] + a7
    ensures a0 == [IF, LPAREN, INT(5), LT, INT(10), RPAREN, LBRACE] + a7
  {
  }

  lemma ConditionsGroup0(x: seq<byte>)
    requires ConditionsLayout(x)
    ensures Names(TokensFrom(x, 0)) == [IF, LPAREN, INT(5), LT, INT(10), RPAREN, LBRACE] + Names(TokensFrom(x, 26))
  {
    ConditionsStep0(x);
    ConditionsStep15(x);
    ConditionsStep17(x);
    ConditionsStep18(x);
    ConditionsStep20(x);
    ConditionsStep23(x);
    ConditionsStep24(x);
    ConditionsGroup0Chain(Names(TokensFrom(x, 0)), Names(TokensFrom(x, 15)), Names(TokensFrom(x, 17)), Names(TokensFrom(x, 18)), Names(TokensFrom(x, 20)), Names(TokensFrom(x, 23)), Names(TokensFrom(x, 24)), Names(TokensFrom(x, 26)));
  }

  lemma ConditionsGroup1Chain(a0: seq<Name>, a1: seq<Name>, a2: seq<Name>, a3: seq<Name>)
    requires a0 == [RETURN] + a1
    requires a1 == [TRUE] + a2
    requires a2 == [SEMICOLON] + a3
    ensures a0 == [RETURN, TRUE, SEMICOLON] + a3
  {
  }

  lemma ConditionsGroup1(x: seq<byte>)
    requires ConditionsLayout(x)
    ensures Names(TokensFrom(x, 26)) == [RETURN, TRUE, SEMICOLON] + Names(TokensFrom(x, 55))
  {
    ConditionsStep26(x);
    ConditionsStep49(x);
    ConditionsStep54(x);
    ConditionsGroup1Chain(Names(TokensFrom(x, 26)), Names(TokensFrom(x, 49)), Names(TokensFrom(x, 54)), Names(TokensFrom(x, 55)));
  }

  lemma ConditionsGroup2Chain(a0: seq<Name>, a1: seq<Name>, a2: seq<Name>, a3: seq<Name>)
    requires a0 == [RBRACE] + a1
    requires a1 == [ELSE] + a2
    requires a2 == [LBRACE] + a3
    ensures a0 == [RBRACE, ELSE, LBRACE] + a3
  {
  }

  lemma ConditionsGroup2(x: seq<byte>)
    requires ConditionsLayout(x)
    ensures Names(TokensFrom(x, 55)) == [RBRACE, ELSE, LBRACE] + Names(TokensFrom(x, 76))
  {
    ConditionsStep55(x);
    ConditionsStep69(x);
    ConditionsStep74(x);
    ConditionsGroup2Chain(Names(TokensFrom(x, 55)), Names(TokensFrom(x, 69)), Names(TokensFrom(x, 74)), Names(TokensFrom(x, 76)));
  }

  lemma ConditionsGroup3Chain(a0: seq<Name>, a1: seq<Name>, a2: seq<Name>, a3: seq<Name>)
    requires a0 == [RETURN] + a1
    requires a1 == [FALSE] + a2
    requires a2 == [SEMICOLON] + a3
    ensures a0 == [RETURN, FALSE, SEMICOLON] + a3
  {
  }

  lemma ConditionsGroup3(x: seq<byte>)
    requires ConditionsLayout(x)
    ensures Names(TokensFrom(x, 76)) == [RETURN, FALSE, SEMICOLON] + Names(TokensFrom(x, 106))
  {
    ConditionsStep76(x);
    ConditionsStep99(x);
    ConditionsStep105(x);
    ConditionsGroup3Chain(Names(TokensFrom(x, 76)), Names(TokensFrom(x, 99)), Names(TokensFrom(x, 105)), Names(TokensFrom(x, 106)));
  }

  lemma ConditionsChain(a0: seq<Name>, a1: seq<Name>, a2: seq<Name>, a3: seq<Name>, a4: seq<Name>, a5: seq<Name>)
    requires a0 == [IF, LPAREN, INT(5), LT, INT(10), RPAREN, LBRACE] + a1
    requires a1 == [RETURN, TRUE, SEMICOLON] + a2
    requires a2 == [RBRACE, ELSE, LBRACE] + a3
    requires a3 == [RETURN, FALSE, SEMICOLON] + a4
    requires a4 == [RBRACE] + a5
    requires a5 == [EOF]
    ensures a0 == [IF, LPAREN, INT(5), LT, INT(10), RPAREN, LBRACE, RETURN, TRUE, SEMICOLON, RBRACE, ELSE, LBRACE, RETURN, FALSE, SEMICOLON, RBRACE, EOF]
  {
  }

  /** The token kinds successive `next_token` calls return on any input laid out as this one. */
  lemma ConditionsTokens(x: seq<byte>)
    requires ConditionsLayout(x)
    ensures Names(Tokenize(x)) == [IF, LPAREN, INT(5), LT, INT(10), RPAREN, LBRACE, RETURN, TRUE, SEMICOLON, RBRACE, ELSE, LBRACE, RETURN, FALSE, SEMICOLON, RBRACE, EOF]
  {
    ConditionsGroup0(x);
    ConditionsGroup1(x);
    ConditionsGroup2(x);
    ConditionsGroup3(x);
    ConditionsStep106(x);
    ConditionsStep120(x);
    ConditionsChain(Names(TokensFrom(x, 0)), Names(TokensFrom(x, 26)), Names(TokensFrom(x, 55)), Names(TokensFrom(x, 76)), Names(TokensFrom(x, 106)), Names(TokensFrom(x, 120)));
  }

  /** The token kinds successive `next_token` calls return on this input. */
  lemma ConditionsSample()
    ensures Names(Tokenize(ConditionsInput)) == [IF, LPAREN, INT(5), LT, INT(10), RPAREN, LBRACE, RETURN, TRUE, SEMICOLON, RBRACE, ELSE, LBRACE, RETURN, FALSE, SEMICOLON, RBRACE, EOF]
  {
    ConditionsInputLayout();
    ConditionsTokens(ConditionsInput);
  }

  /** The input of the `TwoCharOperators` unit test, line by line; each line is cut after
      each run of whitespace. */
  const TwoCharOperatorsTile0_0: seq<byte> := AsciiBytes("\n")
  const TwoCharOperatorsLine0: seq<byte> := TwoCharOperatorsTile0_0
  const TwoCharOperatorsTile1_0: seq<byte> := Spaces(12)
  const TwoCharOperatorsTile1_1: seq<byte> := AsciiBytes("10 ")
  const TwoCharOperatorsTile1_2: seq<byte> := AsciiBytes("== ")
  const TwoCharOperatorsTile1_3: seq<byte> := AsciiBytes("10;\n")
  const TwoCharOperatorsLine1: seq<byte> := TwoCharOperatorsTile1_0 + TwoCharOperatorsTile1_1 + TwoCharOperatorsTile1_2 + TwoCharOperatorsTile1_3
  const TwoCharOperatorsTile2_0: seq<byte> := Spaces(12)
  const TwoCharOperatorsTile2_1: seq<byte> := AsciiBytes("10 ")
  const TwoCharOperatorsTile2_2: seq<byte> := AsciiBytes("!= ")
  const TwoCharOperatorsTile2_3: seq<byte> := AsciiBytes("9;\n")
  const TwoCharOperatorsLine2: seq<byte> := TwoCharOperatorsTile2_0 + TwoCharOperatorsTile2_1 + TwoCharOperatorsTile2_2 + TwoCharOperatorsTile2_3
  const TwoCharOperatorsTile3_0: seq<byte> := Spaces(8)
  const TwoCharOperatorsLine3: seq<byte> := TwoCharOperatorsTile3_0
  const TwoCharOperatorsInput: seq<byte> :=
    TwoCharOperatorsLine0
    + TwoCharOperatorsLine1
    + TwoCharOperatorsLine2
    + TwoCharOperatorsLine3

  /** An input of the length of the `TwoCharOperators` input that holds each piece of its lines in place. */
  predicate TwoCharOperatorsLayout(x: seq<byte>) {
    && |x| == 52
    && Holds(x, TwoCharOperatorsTile0_0, 0)
    && Holds(x, TwoCharOperatorsTile1_0, 1)
    && Holds(x, TwoCharOperatorsTile1_1, 13)
    && Holds(x, TwoCharOperatorsTile1_2, 16)
    && Holds(x, TwoCharOperatorsTile1_3, 19)
    && Holds(x, TwoCharOperatorsTile2_0, 23)
    && Holds(x, TwoCharOperatorsTile2_1, 35)
    && Holds(x, TwoCharOperatorsTile2_2, 38)
    && Holds(x, TwoCharOperatorsTile2_3, 41)
    && Holds(x, TwoCharOperatorsTile3_0, 44)
  }

  lemma TwoCharOperatorsHolds0In1()
    ensures Holds(TwoCharOperatorsLine0, TwoCharOperatorsLine0, 0)
  {
    HoldsSelf(TwoCharOperatorsLine0);
  }

  lemma TwoCharOperatorsHolds0In2()
    ensures Holds(TwoCharOperatorsLine0 + TwoCharOperatorsLine1, TwoCharOperatorsLine0, 0)
  {
    TwoCharOperatorsHolds0In1();
    HoldsExtend(TwoCharOperatorsLine0, TwoCharOperatorsLine1, TwoCharOperatorsLine0, 0);
  }

  lemma TwoCharOperatorsHolds0In3()
    ensures Holds(TwoCharOperatorsLine0 + TwoCharOperatorsLine1 + TwoCharOperatorsLine2, TwoCharOperatorsLine0, 0)
  {
    TwoCharOperatorsHolds0In2();
    HoldsExtend(TwoCharOperatorsLine0 + TwoCharOperatorsLine1, TwoCharOperatorsLine2, TwoCharOperatorsLine0, 0);
  }

  lemma TwoCharOperatorsHolds0()
    ensures Holds(TwoCharOperatorsInput, TwoCharOperatorsLine0, 0)
  {
    TwoCharOperatorsHolds0In3();
    HoldsExtend(TwoCharOperatorsLine0 + TwoCharOperatorsLine1 + TwoCharOperatorsLine2, TwoCharOperatorsLine3, TwoCharOperatorsLine0, 0);
  }

  lemma TwoCharOperatorsHolds1In2()
    ensures Holds(TwoCharOperatorsLine0 + TwoCharOperatorsLine1, TwoCharOperatorsLine1, 1)
  {
    HoldsLast(TwoCharOperatorsLine0, TwoCharOperatorsLine1);
  }

  lemma TwoCharOperatorsHolds1In3()
    ensures Holds(TwoCharOperatorsLine0 + TwoCharOperatorsLine1 + TwoCharOperatorsLine2, TwoCharOperatorsLine1, 1)
  {
    TwoCharOperatorsHolds1In2();
    HoldsExtend(TwoCharOperatorsLine0 + TwoCharOperatorsLine1, TwoCharOperatorsLine2, TwoCharOperatorsLine1, 1);
  }

  lemma TwoCharOperatorsHolds1()
    ensures Holds(TwoCharOperatorsInput, TwoCharOperatorsLine1, 1)
  {
    TwoCharOperatorsHolds1In3();
    HoldsExtend(TwoCharOperatorsLine0 + TwoCharOperatorsLine1 + TwoCharOperatorsLine2, TwoCharOperatorsLine3, TwoCharOperatorsLine1, 1);
  }

  lemma TwoCharOperatorsHolds2In3()
    ensures Holds(TwoCharOperatorsLine0 + TwoCharOperatorsLine1 + TwoCharOperatorsLine2, TwoCharOperatorsLine2, 23)
  {
    HoldsLast(TwoCharOperatorsLine0 + TwoCharOperatorsLine1, TwoCharOperatorsLine2);
  }

  lemma TwoCharOperatorsHolds2()
    ensures Holds(TwoCharOperatorsInput, TwoCharOperatorsLine2, 23)
  {
    TwoCharOperatorsHolds2In3();
    HoldsExtend(TwoCharOperatorsLine0 + TwoCharOperatorsLine1 + TwoCharOperatorsLine2, TwoCharOperatorsLine3, TwoCharOperatorsLine2, 23);
  }

  lemma TwoCharOperatorsHolds3()
    ensures Holds(TwoCharOperatorsInput, TwoCharOperatorsLine3, 44)
  {
    HoldsLast(TwoCharOperatorsLine0 + TwoCharOperatorsLine1 + TwoCharOperatorsLine2, TwoCharOperatorsLine3);
  }

  lemma TwoCharOperatorsPiece1_0(x: seq<byte>)
    requires Holds(x, TwoCharOperatorsLine1, 1)
    ensures Holds(x, TwoCharOperatorsTile1_0, 1)
  {
    HoldsLeft(x, TwoCharOperatorsTile1_0 + TwoCharOperatorsTile1_1 + TwoCharOperatorsTile1_2, TwoCharOperatorsTile1_3, 1);
    HoldsLeft(x, TwoCharOperatorsTile1_0 + TwoCharOperatorsTile1_1, TwoCharOperatorsTile1_2, 1);
    HoldsLeft(x, TwoCharOperatorsTile1_0, TwoCharOperatorsTile1_1, 1);
  }

  lemma TwoCharOperatorsPiece1_1(x: seq<byte>)
    requires Holds(x, TwoCharOperatorsLine1, 1)
    ensures Holds(x, TwoCharOperatorsTile1_1, 13)
  {
    HoldsLeft(x, TwoCharOperatorsTile1_0 + TwoCharOperatorsTile1_1 + TwoCharOperatorsTile1_2, TwoCharOperatorsTile1_3, 1);
    HoldsLeft(x, TwoCharOperatorsTile1_0 + TwoCharOperatorsTile1_1, TwoCharOperatorsTile1_2, 1);
    HoldsRight(x, TwoCharOperatorsTile1_0, TwoCharOperatorsTile1_1, 1);
  }

  lemma TwoCharOperatorsPiece1_2(x: seq<byte>)
    requires Holds(x, TwoCharOperatorsLine1, 1)
    ensures Holds(x, TwoCharOperatorsTile1_2, 16)
  {
    HoldsLeft(x, TwoCharOperatorsTile1_0 + TwoCharOperatorsTile1_1 + TwoCharOperatorsTile1_2, TwoCharOperatorsTile1_3, 1);
    HoldsRight(x, TwoCharOperatorsTile1_0 + TwoCharOperatorsTile1_1, TwoCharOperatorsTile1_2, 1);
  }

  lemma TwoCharOperatorsPiece1_3(x: seq<byte>)
    requires Holds(x, TwoCharOperatorsLine1, 1)
    ensures Holds(x, TwoCharOperatorsTile1_3, 19)
  {
    HoldsRight(x, TwoCharOperatorsTile1_0 + TwoCharOperatorsTile1_1 + TwoCharOperatorsTile1_2, TwoCharOperatorsTile1_3, 1);
  }

  lemma TwoCharOperatorsPiece2_0(x: seq<byte>)
    requires Holds(x, TwoCharOperatorsLine2, 23)
    ensures Holds(x, TwoCharOperatorsTile2_0, 23)
  {
    HoldsLeft(x, TwoCharOperatorsTile2_0 + TwoCharOperatorsTile2_1 + TwoCharOperatorsTile2_2, TwoCharOperatorsTile2_3, 23);
    HoldsLeft(x, TwoCharOperatorsTile2_0 + TwoCharOperatorsTile2_1, TwoCharOperatorsTile2_2, 23);
    HoldsLeft(x, TwoCharOperatorsTile2_0, TwoCharOperatorsTile2_1, 23);
  }

  lemma TwoCharOperatorsPiece2_1(x: seq<byte>)
    requires Holds(x, TwoCharOperatorsLine2, 23)
    ensures Holds(x, TwoCharOperatorsTile2_1, 35)
  {
    HoldsLeft(x, TwoCharOperatorsTile2_0 + TwoCharOperatorsTile2_1 + TwoCharOperatorsTile2_2, TwoCharOperatorsTile2_3, 23);
    HoldsLeft(x, TwoCharOperatorsTile2_0 + TwoCharOperatorsTile2_1, TwoCharOperatorsTile2_2, 23);
    HoldsRight(x, TwoCharOperatorsTile2_0, TwoCharOperatorsTile2_1, 23);
  }

  lemma TwoCharOperatorsPiece2_2(x: seq<byte>)
    requires Holds(x, TwoCharOperatorsLine2, 23)
    ensures Holds(x, TwoCharOperatorsTile2_2, 38)
  {
    HoldsLeft(x, TwoCharOperatorsTile2_0 + TwoCharOperatorsTile2_1 + TwoCharOperatorsTile2_2, TwoCharOperatorsTile2_3, 23);
    HoldsRight(x, TwoCharOperatorsTile2_0 + TwoCharOperatorsTile2_1, TwoCharOperatorsTile2_2, 23);
  }

  lemma TwoCharOperatorsPiece2_3(x: seq<byte>)
    requires Holds(x, TwoCharOperatorsLine2, 23)
    ensures Holds(x, TwoCharOperatorsTile2_3, 41)
  {
    HoldsRight(x, TwoCharOperatorsTile2_0 + TwoCharOperatorsTile2_1 + TwoCharOperatorsTile2_2, TwoCharOperatorsTile2_3, 23);
  }

  lemma TwoCharOperatorsInputLayout()
    ensures TwoCharOperatorsLayout(TwoCharOperatorsInput)
  {
    TwoCharOperatorsHolds0();
    TwoCharOperatorsHolds1();
    TwoCharOperatorsPiece1_0(TwoCharOperatorsInput);
    TwoCharOperatorsPiece1_1(TwoCharOperatorsInput);
    TwoCharOperatorsPiece1_2(TwoCharOperatorsInput);
    TwoCharOperatorsPiece1_3(TwoCharOperatorsInput);
    TwoCharOperatorsHolds2();
    TwoCharOperatorsPiece2_0(TwoCharOperatorsInput);
    TwoCharOperatorsPiece2_1(TwoCharOperatorsInput);
    TwoCharOperatorsPiece2_2(TwoCharOperatorsInput);
    TwoCharOperatorsPiece2_3(TwoCharOperatorsInput);
    TwoCharOperatorsHolds3();
  }

  lemma TwoCharOperatorsSkip0(x: seq<byte>)
    requires Holds(x, TwoCharOperatorsTile0_0, 0) && Holds(x, TwoCharOperatorsTile1_0, 1)
    ensures Lex(x, 0) == Lex(x, 13)
  {
    SkipAcrossSpace(x, TwoCharOperatorsTile0_0, 0, 0);
    SkipAcrossSpace(x, TwoCharOperatorsTile1_0, 1, 0);
    LexAfterSkip(x, 0, 13);
  }

  lemma TwoCharOperatorsLex0()
    ensures CharAt(TwoCharOperatorsTile1_1, SkipEnd(TwoCharOperatorsTile1_1, 0)) != 0 && Lex(TwoCharOperatorsTile1_1, 0) == Step(Token(INT(10), Literal(AsciiBytes("10"))), 2)
  {
    RunEndAt(TwoCharOperatorsTile1_1, 0, 0, IsWhitespace);
    LexNumberAt(TwoCharOperatorsTile1_1, 0, 0, AsciiBytes("10"));
    Number_10();
  }

  lemma TwoCharOperatorsAt0(x: seq<byte>)
    requires Holds(x, TwoCharOperatorsTile1_1, 13)
    ensures Lex(x, 13) == Step(Token(INT(10), Literal(AsciiBytes("10"))), 15)
  {
    TwoCharOperatorsLex0();
    LexWindow(x, TwoCharOperatorsTile1_1, 13, 0);
  }

  lemma TwoCharOperatorsSkip15(x: seq<byte>)
    requires Holds(x, TwoCharOperatorsTile1_1, 13)
    ensures Lex(x, 15) == Lex(x, 16)
  {
    SkipAcrossSpace(x, TwoCharOperatorsTile1_1, 13, 2);
    LexAfterSkip(x, 15, 16);
  }

  lemma TwoCharOperatorsLex15()
    ensures CharAt(TwoCharOperatorsTile1_2, SkipEnd(TwoCharOperatorsTile1_2, 0)) != 0 && Lex(TwoCharOperatorsTile1_2, 0) == Step(Token(EQ, Literal(AsciiBytes("=="))), 2)
  {
    RunEndAt(TwoCharOperatorsTile1_2, 0, 0, IsWhitespace);
  }

  lemma TwoCharOperatorsAt15(x: seq<byte>)
    requires Holds(x, TwoCharOperatorsTile1_2, 16)
    ensures Lex(x, 16) == Step(Token(EQ, Literal(AsciiBytes("=="))), 18)
  {
    TwoCharOperatorsLex15();
    LexWindow(x, TwoCharOperatorsTile1_2, 16, 0);
  }

  lemma TwoCharOperatorsSkip18(x: seq<byte>)
    requires Holds(x, TwoCharOperatorsTile1_2, 16)
    ensures Lex(x, 18) == Lex(x, 19)
  {
    SkipAcrossSpace(x, TwoCharOperatorsTile1_2, 16, 2);
    LexAfterSkip(x, 18, 19);
  }

  lemma TwoCharOperatorsLex18()
    ensures CharAt(TwoCharOperatorsTile1_3, SkipEnd(TwoCharOperatorsTile1_3, 0)) != 0 && Lex(TwoCharOperatorsTile1_3, 0) == Step(Token(INT(10), Literal(AsciiBytes("10"))), 2)
  {
    RunEndAt(TwoCharOperatorsTile1_3, 0, 0, IsWhitespace);
    LexNumberAt(TwoCharOperatorsTile1_3, 0, 0, AsciiBytes("10"));
    Number_10();
  }

  lemma TwoCharOperatorsAt18(x: seq<byte>)
    requires Holds(x, TwoCharOperatorsTile1_3, 19)
    ensures Lex(x, 19) == Step(Token(INT(10), Literal(AsciiBytes("10"))), 21)
  {
    TwoCharOperatorsLex18();
    LexWindow(x, TwoCharOperatorsTile1_3, 19, 0);
  }

  lemma TwoCharOperatorsLex21()
    ensures CharAt(TwoCharOperatorsTile1_3, SkipEnd(TwoCharOperatorsTile1_3, 2)) != 0 && Lex(TwoCharOperatorsTile1_3, 2) == Step(Token(SEMICOLON, Literal(AsciiBytes(";"))), 3)
  {
    RunEndAt(TwoCharOperatorsTile1_3, 2, 2, IsWhitespace);
  }

  lemma TwoCharOperatorsAt21(x: seq<byte>)
    requires Holds(x, TwoCharOperatorsTile1_3, 19)
    ensures Lex(x, 21) == Step(Token(SEMICOLON, Literal(AsciiBytes(";"))), 22)
  {
    TwoCharOperatorsLex21();
    LexWindow(x, TwoCharOperatorsTile1_3, 19, 2);
  }

  lemma TwoCharOperatorsSkip22(x: seq<byte>)
    requires Holds(x, TwoCharOperatorsTile1_3, 19) && Holds(x, TwoCharOperatorsTile2_0, 23)
    ensures Lex(x, 22) == Lex(x, 35)
  {
    SkipAcrossSpace(x, TwoCharOperatorsTile1_3, 19, 3);
    SkipAcrossSpace(x, TwoCharOperatorsTile2_0, 23, 0);
    LexAfterSkip(x, 22, 35);
  }

  lemma TwoCharOperatorsLex22()
    ensures CharAt(TwoCharOperatorsTile2_1, SkipEnd(TwoCharOperatorsTile2_1, 0)) != 0 && Lex(TwoCharOperatorsTile2_1, 0) == Step(Token(INT(10), Literal(AsciiBytes("10"))), 2)
  {
    RunEndAt(TwoCharOperatorsTile2_1, 0, 0, IsWhitespace);
    LexNumberAt(TwoCharOperatorsTile2_1, 0, 0, AsciiBytes("10"));
    Number_10();
  }

  lemma TwoCharOperatorsAt22(x: seq<byte>)
    requires Holds(x, TwoCharOperatorsTile2_1, 35)
    ensures Lex(x, 35) == Step(Token(INT(10), Literal(AsciiBytes("10"))), 37)
  {
    TwoCharOperatorsLex22();
    LexWindow(x, TwoCharOperatorsTile2_1, 35, 0);
  }

  lemma TwoCharOperatorsSkip37(x: seq<byte>)
    requires Holds(x, TwoCharOperatorsTile2_1, 35)
    ensures Lex(x, 37) == Lex(x, 38)
  {
    SkipAcrossSpace(x, TwoCharOperatorsTile2_1, 35, 2);
    LexAfterSkip(x, 37, 38);
  }

  lemma TwoCharOperatorsLex37()
    ensures CharAt(TwoCharOperatorsTile2_2, SkipEnd(TwoCharOperatorsTile2_2, 0)) != 0 && Lex(TwoCharOperatorsTile2_2, 0) == Step(Token(NOTEQ, Literal(AsciiBytes("!="))), 2)
  {
    RunEndAt(TwoCharOperatorsTile2_2, 0, 0, IsWhitespace);
  }

  lemma TwoCharOperatorsAt37(x: seq<byte>)
    requires Holds(x, TwoCharOperatorsTile2_2, 38)
    ensures Lex(x, 38) == Step(Token(NOTEQ, Literal(AsciiBytes("!="))), 40)
  {
    TwoCharOperatorsLex37();
    LexWindow(x, TwoCharOperatorsTile2_2, 38, 0);
  }

  lemma TwoCharOperatorsSkip40(x: seq<byte>)
    requires Holds(x, TwoCharOperatorsTile2_2, 38)
    ensures Lex(x, 40) == Lex(x, 41)
  {
    SkipAcrossSpace(x, TwoCharOperatorsTile2_2, 38, 2);
    LexAfterSkip(x, 40, 41);
  }

  lemma TwoCharOperatorsLex40()
    ensures CharAt(TwoCharOperatorsTile2_3, SkipEnd(TwoCharOperatorsTile2_3, 0)) != 0 && Lex(TwoCharOperatorsTile2_3, 0) == Step(Token(INT(9), Literal(AsciiBytes("9"))), 1)
  {
    RunEndAt(TwoCharOperatorsTile2_3, 0, 0, IsWhitespace);
    LexNumberAt(TwoCharOperatorsTile2_3, 0, 0, AsciiBytes("9"));
    Number_9();
  }

  lemma TwoCharOperatorsAt40(x: seq<byte>)
    requires Holds(x, TwoCharOperatorsTile2_3, 41)
    ensures Lex(x, 41) == Step(Token(INT(9), Literal(AsciiBytes("9"))), 42)
  {
    TwoCharOperatorsLex40();
    LexWindow(x, TwoCharOperatorsTile2_3, 41, 0);
  }

  lemma TwoCharOperatorsLex42()
    ensures CharAt(TwoCharOperatorsTile2_3, SkipEnd(TwoCharOperatorsTile2_3, 1)) != 0 && Lex(TwoCharOperatorsTile2_3, 1) == Step(Token(SEMICOLON, Literal(AsciiBytes(";"))), 2)
  {
    RunEndAt(TwoCharOperatorsTile2_3, 1, 1, IsWhitespace);
  }

  lemma TwoCharOperatorsAt42(x: seq<byte>)
    requires Holds(x, TwoCharOperatorsTile2_3, 41)
    ensures Lex(x, 42) == Step(Token(SEMICOLON, Literal(AsciiBytes(";"))), 43)
  {
    TwoCharOperatorsLex42();
    LexWindow(x, TwoCharOperatorsTile2_3, 41, 1);
  }

  lemma TwoCharOperatorsSkip43(x: seq<byte>)
    requires Holds(x, TwoCharOperatorsTile2_3, 41) && Holds(x, TwoCharOperatorsTile3_0, 44)
    ensures Lex(x, 43) == Lex(x, 52)
  {
    SkipAcrossSpace(x, TwoCharOperatorsTile2_3, 41, 2);
    SkipAcrossSpace(x, TwoCharOperatorsTile3_0, 44, 0);
    LexAfterSkip(x, 43, 52);
  }

  lemma TwoCharOperatorsStep0(x: seq<byte>)
    requires Holds(x, TwoCharOperatorsTile0_0, 0) && Holds(x, TwoCharOperatorsTile1_0, 1) && Holds(x, TwoCharOperatorsTile1_1, 13)
    ensures Names(TokensFrom(x, 0)) == [INT(10)] + Names(TokensFrom(x, 15))
  {
    TwoCharOperatorsSkip0(x);
    TwoCharOperatorsAt0(x);
    NamesStep(x, 0, Token(INT(10), Literal(AsciiBytes("10"))), 15);
  }

  lemma TwoCharOperatorsStep15(x: seq<byte>)
    requires Holds(x, TwoCharOperatorsTile1_1, 13) && Holds(x, TwoCharOperatorsTile1_2, 16)
    ensures Names(TokensFrom(x, 15)) == [EQ] + Names(TokensFrom(x, 18))
  {
    TwoCharOperatorsSkip15(x);
    TwoCharOperatorsAt15(x);
    NamesStep(x, 15, Token(EQ, Literal(AsciiBytes("=="))), 18);
  }

  lemma TwoCharOperatorsStep18(x: seq<byte>)
    requires Holds(x, TwoCharOperatorsTile1_2, 16) && Holds(x, TwoCharOperatorsTile1_3, 19)
    ensures Names(TokensFrom(x, 18)) == [INT(10)] + Names(TokensFrom(x, 21))
  {
    TwoCharOperatorsSkip18(x);
    TwoCharOperatorsAt18(x);
    NamesStep(x, 18, Token(INT(10), Literal(AsciiBytes("10"))), 21);
  }

  lemma TwoCharOperatorsStep21(x: seq<byte>)
    requires Holds(x, TwoCharOperatorsTile1_3, 19)
    ensures Names(TokensFrom(x, 21)) == [SEMICOLON] + Names(TokensFrom(x, 22))
  {
    TwoCharOperatorsAt21(x);
    NamesStep(x, 21, Token(SEMICOLON, Literal(AsciiBytes(";"))), 22);
  }

  lemma TwoCharOperatorsStep22(x: seq<byte>)
    requires Holds(x, TwoCharOperatorsTile1_3, 19) && Holds(x, TwoCharOperatorsTile2_0, 23) && Holds(x, TwoCharOperatorsTile2_1, 35)
    ensures Names(TokensFrom(x, 22)) == [INT(10)] + Names(TokensFrom(x, 37))
  {
    TwoCharOperatorsSkip22(x);
    TwoCharOperatorsAt22(x);
    NamesStep(x, 22, Token(INT(10), Literal(AsciiBytes("10"))), 37);
  }

  lemma TwoCharOperatorsStep37(x: seq<byte>)
    requires Holds(x, TwoCharOperatorsTile2_1, 35) && Holds(x, TwoCharOperatorsTile2_2, 38)
    ensures Names(TokensFrom(x, 37)) == [NOTEQ] + Names(TokensFrom(x, 40))
  {
    TwoCharOperatorsSkip37(x);
    TwoCharOperatorsAt37(x);
    NamesStep(x, 37, Token(NOTEQ, Literal(AsciiBytes("!="))), 40);
  }

  lemma TwoCharOperatorsStep40(x: seq<byte>)
    requires Holds(x, TwoCharOperatorsTile2_2, 38) && Holds(x, TwoCharOperatorsTile2_3, 41)
    ensures Names(TokensFrom(x, 40)) == [INT(9)] + Names(TokensFrom(x, 42))
  {
    TwoCharOperatorsSkip40(x);
    TwoCharOperatorsAt40(x);
    NamesStep(x, 40, Token(INT(9), Literal(AsciiBytes("9"))), 42);
  }

  lemma TwoCharOperatorsStep42(x: seq<byte>)
    requires Holds(x, TwoCharOperatorsTile2_3, 41)
    ensures Names(TokensFrom(x, 42)) == [SEMICOLON] + Names(TokensFrom(x, 43))
  {
    TwoCharOperatorsAt42(x);
    NamesStep(x, 42, Token(SEMICOLON, Literal(AsciiBytes(";"))), 43);
  }

  lemma TwoCharOperatorsStep43(x: seq<byte>)
    requires |x| == 52 && Holds(x, TwoCharOperatorsTile2_3, 41) && Holds(x, TwoCharOperatorsTile3_0, 44)
    ensures Names(TokensFrom(x, 43)) == [EOF]
  {
    TwoCharOperatorsSkip43(x);
    LexAtEnd(x, 52);
    NamesLast(x, 43, Token(EOF, Literal([0])), 53);
  }

  lemma TwoCharOperatorsGroup0Chain(a0: seq<Name>, a1: seq<Name>, a2: seq<Name>, a3: seq<Name>, a4: seq<Name>)
    requires a0 == [INT(10)] + a1
    requires a1 == [EQ] + a2
    requires a2 == [INT(10)] + a3
    requires a3 == [SEMICOLON] + a4
    ensures a0 == [INT(10), EQ, INT(10), SEMICOLON] + a4
  {
  }

  lemma TwoCharOperatorsGroup0(x: seq<byte>)
    requires TwoCharOperatorsLayout(x)
    ensures Names(TokensFrom(x, 0)) == [INT(10), EQ, INT(10), SEMICOLON] + Names(TokensFrom(x, 22))
  {
    TwoCharOperatorsStep0(x);
    TwoCharOperatorsStep15(x);
    TwoCharOperatorsStep18(x);
    TwoCharOperatorsStep21(x);
    TwoCharOperatorsGroup0Chain(Names(TokensFrom(x, 0)), Names(TokensFrom(x, 15)), Names(TokensFrom(x, 18)), Names(TokensFrom(x, 21)), Names(TokensFrom(x, 22)));
  }

  lemma TwoCharOperatorsGroup1Chain(a0: seq<Name>, a1: seq<Name>, a2: seq<Name>, a3: seq<Name>, a4: seq<Name>)
    requires a0 == [INT(10)] + a1
    requires a1 == [NOTEQ] + a2
    requires a2 == [INT(9)] + a3
    requires a3 == [SEMICOLON] + a4
    ensures a0 == [INT(10), NOTEQ, INT(9), SEMICOLON] + a4
  {
  }

  lemma TwoCharOperatorsGroup1(x: seq<byte>)
    requires TwoCharOperatorsLayout(x)
    ensures Names(TokensFrom(x, 22)) == [INT(10), NOTEQ, INT(9), SEMICOLON] + Names(TokensFrom(x, 43))
  {
    TwoCharOperatorsStep22(x);
    TwoCharOperatorsStep37(x);
    TwoCharOperatorsStep40(x);
    TwoCharOperatorsStep42(x);
    TwoCharOperatorsGroup1Chain(Names(TokensFrom(x, 22)), Names(TokensFrom(x, 37)), Names(TokensFrom(x, 40)), Names(TokensFrom(x, 42)), Names(TokensFrom(x, 43)));
  }

  lemma TwoCharOperatorsChain(a0: seq<Name>, a1: seq<Name>, a2: seq<Name>)
    requires a0 == [INT(10), EQ, INT(10), SEMICOLON] + a1
    requires a1 == [INT(10), NOTEQ, INT(9), SEMICOLON] + a2
    requires a2 == [EOF]
    ensures a0 == [INT(10), EQ, INT(10), SEMICOLON, INT(10), NOTEQ, INT(9), SEMICOLON, EOF]
  {
  }

  /** The token kinds successive `next_token` calls return on any input laid out as this one. */
  lemma TwoCharOperatorsTokens(x: seq<byte>)
    requires TwoCharOperatorsLayout(x)
    ensures Names(Tokenize(x)) == [INT(10), EQ, INT(10), SEMICOLON, INT(10), NOTEQ, INT(9), SEMICOLON, EOF]
  {
    TwoCharOperatorsGroup0(x);
    TwoCharOperatorsGroup1(x);
    TwoCharOperatorsStep43(x);
    TwoCharOperatorsChain(Names(TokensFrom(x, 0)), Names(TokensFrom(x, 22)), Names(TokensFrom(x, 43)));
  }

  /** The token kinds successive `next_token` calls return on this input. */
  lemma TwoCharOperatorsSample()
    ensures Names(Tokenize(TwoCharOperatorsInput)) == [INT(10), EQ, INT(10), SEMICOLON, INT(10), NOTEQ, INT(9), SEMICOLON, EOF]
  {
    TwoCharOperatorsInputLayout();
    TwoCharOperatorsTokens(TwoCharOperatorsInput);
  }

  /** The input of the `LetStatements` unit test, line by line; each line is cut after
      each run of whitespace. */
  const LetStatementsTile0_0: seq<byte> := AsciiBytes("\n")
  const LetStatementsLine0: seq<byte> := LetStatementsTile0_0
  const LetStatementsTile1_0: seq<byte> := Spaces(12)
  const LetStatementsTile1_1: seq<byte> := AsciiBytes("let ")
  const LetStatementsTile1_2: seq<byte> := AsciiBytes("x ")
  const LetStatementsTile1_3: seq<byte> := AsciiBytes("= ")
  const LetStatementsTile1_4: seq<byte> := AsciiBytes("5;\n")
  const LetStatementsLine1: seq<byte> := LetStatementsTile1_0 + LetStatementsTile1_1 + LetStatementsTile1_2 + LetStatementsTile1_3 + LetStatementsTile1_4
  const LetStatementsTile2_0: seq<byte> := Spaces(12)
  const LetStatementsTile2_1: seq<byte> := AsciiBytes("let ")
  const LetStatementsTile2_2: seq<byte> := AsciiBytes("y ")
  const LetStatementsTile2_3: seq<byte> := AsciiBytes("= ")
  const LetStatementsTile2_4: seq<byte> := AsciiBytes("10;\n")
  const LetStatementsLine2: seq<byte> := LetStatementsTile2_0 + LetStatementsTile2_1 + LetStatementsTile2_2 + LetStatementsTile2_3 + LetStatementsTile2_4
  const LetStatementsTile3_0: seq<byte> := Spaces(12)
  const LetStatementsTile3_1: seq<byte> := AsciiBytes("let ")
  const LetStatementsTile3_2: seq<byte> := AsciiBytes("foobar ")
  const LetStatementsTile3_3: seq<byte> := AsciiBytes("= ")
  const LetStatementsTile3_4: seq<byte> := AsciiBytes("838383;\n")
  const LetStatementsLine3: seq<byte> := LetStatementsTile3_0 + LetStatementsTile3_1 + LetStatementsTile3_2 + LetStatementsTile3_3 + LetStatementsTile3_4
  const LetStatementsTile4_0: seq<byte> := Spaces(8)
  const LetStatementsLine4: seq<byte> := LetStatementsTile4_0
  const LetStatementsInput: seq<byte> :=
    LetStatementsLine0
    + LetStatementsLine1
    + LetStatementsLine2
    + LetStatementsLine3
    + LetStatementsLine4

  /** An input of the length of the `LetStatements` input that holds each piece of its lines in place. */
  predicate LetStatementsLayout(x: seq<byte>) {
    && |x| == 89
    && Holds(x, LetStatementsTile0_0, 0)
    && Holds(x, LetStatementsTile1_0, 1)
    && Holds(x, LetStatementsTile1_1, 13)
    && Holds(x, LetStatementsTile1_2, 17)
    && Holds(x, LetStatementsTile1_3, 19)
    && Holds(x, LetStatementsTile1_4, 21)
    && Holds(x, LetStatementsTile2_0, 24)
    && Holds(x, LetStatementsTile2_1, 36)
    && Holds(x, LetStatementsTile2_2, 40)
    && Holds(x, LetStatementsTile2_3, 42)
    && Holds(x, LetStatementsTile2_4, 44)
    && Holds(x, LetStatementsTile3_0, 48)
    && Holds(x, LetStatementsTile3_1, 60)
    && Holds(x, LetStatementsTile3_2, 64)
    && Holds(x, LetStatementsTile3_3, 71)
    && Holds(x, LetStatementsTile3_4, 73)
    && Holds(x, LetStatementsTile4_0, 81)
  }

  lemma LetStatementsHolds0In1()
    ensures Holds(LetStatementsLine0, LetStatementsLine0, 0)
  {
    HoldsSelf(LetStatementsLine0);
  }

  lemma LetStatementsHolds0In2()
    ensures Holds(LetStatementsLine0 + LetStatementsLine1, LetStatementsLine0, 0)
  {
    LetStatementsHolds0In1();
    HoldsExtend(LetStatementsLine0, LetStatementsLine1, LetStatementsLine0, 0);
  }

  lemma LetStatementsHolds0In3()
    ensures Holds(LetStatementsLine0 + LetStatementsLine1 + LetStatementsLine2, LetStatementsLine0, 0)
  {
    LetStatementsHolds0In2();
    HoldsExtend(LetStatementsLine0 + LetStatementsLine1, LetStatementsLine2, LetStatementsLine0, 0);
  }

  lemma LetStatementsHolds0In4()
    ensures Holds(LetStatementsLine0 + LetStatementsLine1 + LetStatementsLine2 + LetStatementsLine3, LetStatementsLine0, 0)
  {
    LetStatementsHolds0In3();
    HoldsExtend(LetStatementsLine0 + LetStatementsLine1 + LetStatementsLine2, LetStatementsLine3, LetStatementsLine0, 0);
  }

  lemma LetStatementsHolds0()
    ensures Holds(LetStatementsInput, LetStatementsLine0, 0)
  {
    LetStatementsHolds0In4();
    HoldsExtend(LetStatementsLine0 + LetStatementsLine1 + LetStatementsLine2 + LetStatementsLine3, LetStatementsLine4, LetStatementsLine0, 0);
  }

  lemma LetStatementsHolds1In2()
    ensures Holds(LetStatementsLine0 + LetStatementsLine1, LetStatementsLine1, 1)
  {
    HoldsLast(LetStatementsLine0, LetStatementsLine1);
  }

  lemma LetStatementsHolds1In3()
    ensures Holds(LetStatementsLine0 + LetStatementsLine1 + LetStatementsLine2, LetStatementsLine1, 1)
  {
    LetStatementsHolds1In2();
    HoldsExtend(LetStatementsLine0 + LetStatementsLine1, LetStatementsLine2, LetStatementsLine1, 1);
  }

  lemma LetStatementsHolds1In4()
    ensures Holds(LetStatementsLine0 + LetStatementsLine1 + LetStatementsLine2 + LetStatementsLine3, LetStatementsLine1, 1)
  {
    LetStatementsHolds1In3();
    HoldsExtend(LetStatementsLine0 + LetStatementsLine1 + LetStatementsLine2, LetStatementsLine3, LetStatementsLine1, 1);
  }

  lemma LetStatementsHolds1()
    ensures Holds(LetStatementsInput, LetStatementsLine1, 1)
  {
    LetStatementsHolds1In4();
    HoldsExtend(LetStatementsLine0 + LetStatementsLine1 + LetStatementsLine2 + LetStatementsLine3, LetStatementsLine4, LetStatementsLine1, 1);
  }

  lemma LetStatementsHolds2In3()
    ensures Holds(LetStatementsLine0 + LetStatementsLine1 + LetStatementsLine2, LetStatementsLine2, 24)
  {
    HoldsLast(LetStatementsLine0 + LetStatementsLine1, LetStatementsLine2);
  }

  lemma LetStatementsHolds2In4()
    ensures Holds(LetStatementsLine0 + LetStatementsLine1 + LetStatementsLine2 + LetStatementsLine3, LetStatementsLine2, 24)
  {
    LetStatementsHolds2In3();
    HoldsExtend(LetStatementsLine0 + LetStatementsLine1 + LetStatementsLine2, LetStatementsLine3, LetStatementsLine2, 24);
  }

  lemma LetStatementsHolds2()
    ensures Holds(LetStatementsInput, LetStatementsLine2, 24)
  {
    LetStatementsHolds2In4();
    HoldsExtend(LetStatementsLine0 + LetStatementsLine1 + LetStatementsLine2 + LetStatementsLine3, LetStatementsLine4, LetStatementsLine2, 24);
  }

  lemma LetStatementsHolds3In4()
    ensures Holds(LetStatementsLine0 + LetStatementsLine1 + LetStatementsLine2 + LetStatementsLine3, LetStatementsLine3, 48)
  {
    HoldsLast(LetStatementsLine0 + LetStatementsLine1 + LetStatementsLine2, LetStatementsLine3);
  }

  lemma LetStatementsHolds3()
    ensures Holds(LetStatementsInput, LetStatementsLine3, 48)
  {
    LetStatementsHolds3In4();
    HoldsExtend(LetStatementsLine0 + LetStatementsLine1 + LetStatementsLine2 + LetStatementsLine3, LetStatementsLine4, LetStatementsLine3, 48);
  }

  lemma LetStatementsHolds4()
    ensures Holds(LetStatementsInput, LetStatementsLine4, 81)
  {
    HoldsLast(LetStatementsLine0 + LetStatementsLine1 + LetStatementsLine2 + LetStatementsLine3, LetStatementsLine4);
  }

  lemma LetStatementsPiece1_0(x: seq<byte>)
    requires Holds(x, LetStatementsLine1, 1)
    ensures Holds(x, LetStatementsTile1_0, 1)
  {
    HoldsLeft(x, LetStatementsTile1_0 + LetStatementsTile1_1 + LetStatementsTile1_2 + LetStatementsTile1_3, LetStatementsTile1_4, 1);
    HoldsLeft(x, LetStatementsTile1_0 + LetStatementsTile1_1 + LetStatementsTile1_2, LetStatementsTile1_3, 1);
    HoldsLeft(x, LetStatementsTile1_0 + LetStatementsTile1_1, LetStatementsTile1_2, 1);
    HoldsLeft(x, LetStatementsTile1_0, LetStatementsTile1_1, 1);
  }

  lemma LetStatementsPiece1_1(x: seq<byte>)
    requires Holds(x, LetStatementsLine1, 1)
    ensures Holds(x, LetStatementsTile1_1, 13)
  {
    HoldsLeft(x, LetStatementsTile1_0 + LetStatementsTile1_1 + LetStatementsTile1_2 + LetStatementsTile1_3, LetStatementsTile1_4, 1);
    HoldsLeft(x, LetStatementsTile1_0 + LetStatementsTile1_1 + LetStatementsTile1_2, LetStatementsTile1_3, 1);
    HoldsLeft(x, LetStatementsTile1_0 + LetStatementsTile1_1, LetStatementsTile1_2, 1);
    HoldsRight(x, LetStatementsTile1_0, LetStatementsTile1_1, 1);
  }

  lemma LetStatementsPiece1_2(x: seq<byte>)
    requires Holds(x, LetStatementsLine1, 1)
    ensures Holds(x, LetStatementsTile1_2, 17)
  {
    HoldsLeft(x, LetStatementsTile1_0 + LetStatementsTile1_1 + LetStatementsTile1_2 + LetStatementsTile1_3, LetStatementsTile1_4, 1);
    HoldsLeft(x, LetStatementsTile1_0 + LetStatementsTile1_1 + LetStatementsTile1_2, LetStatementsTile1_3, 1);
    HoldsRight(x, LetStatementsTile1_0 + LetStatementsTile1_1, LetStatementsTile1_2, 1);
  }

  lemma LetStatementsPiece1_3(x: seq<byte>)
    requires Holds(x, LetStatementsLine1, 1)
    ensures Holds(x, LetStatementsTile1_3, 19)
  {
    HoldsLeft(x, LetStatementsTile1_0 + LetStatementsTile1_1 + LetStatementsTile1_2 + LetStatementsTile1_3, LetStatementsTile1_4, 1);
    HoldsRight(x, LetStatementsTile1_0 + LetStatementsTile1_1 + LetStatementsTile1_2, LetStatementsTile1_3, 1);
  }

  lemma LetStatementsPiece1_4(x: seq<byte>)
    requires Holds(x, LetStatementsLine1, 1)
    ensures Holds(x, LetStatementsTile1_4, 21)
  {
    HoldsRight(x, LetStatementsTile1_0 + LetStatementsTile1_1 + LetStatementsTile1_2 + LetStatementsTile1_3, LetStatementsTile1_4, 1);
  }

  lemma LetStatementsPiece2_0(x: seq<byte>)
    requires Holds(x, LetStatementsLine2, 24)
    ensures Holds(x, LetStatementsTile2_0, 24)
  {
    HoldsLeft(x, LetStatementsTile2_0 + LetStatementsTile2_1 + LetStatementsTile2_2 + LetStatementsTile2_3, LetStatementsTile2_4, 24);
    HoldsLeft(x, LetStatementsTile2_0 + LetStatementsTile2_1 + LetStatementsTile2_2, LetStatementsTile2_3, 24);
    HoldsLeft(x, LetStatementsTile2_0 + LetStatementsTile2_1, LetStatementsTile2_2, 24);
    HoldsLeft(x, LetStatementsTile2_0, LetStatementsTile2_1, 24);
  }

  lemma LetStatementsPiece2_1(x: seq<byte>)
    requires Holds(x, LetStatementsLine2, 24)
    ensures Holds(x, LetStatementsTile2_1, 36)
  {
    HoldsLeft(x, LetStatementsTile2_0 + LetStatementsTile2_1 + LetStatementsTile2_2 + LetStatementsTile2_3, LetStatementsTile2_4, 24);
    HoldsLeft(x, LetStatementsTile2_0 + LetStatementsTile2_1 + LetStatementsTile2_2, LetStatementsTile2_3, 24);
    HoldsLeft(x, LetStatementsTile2_0 + LetStatementsTile2_1, LetStatementsTile2_2, 24);
    HoldsRight(x, LetStatementsTile2_0, LetStatementsTile2_1, 24);
  }

  lemma LetStatementsPiece2_2(x: seq<byte>)
    requires Holds(x, LetStatementsLine2, 24)
    ensures Holds(x, LetStatementsTile2_2, 40)
  {
    HoldsLeft(x, LetStatementsTile2_0 + LetStatementsTile2_1 + LetStatementsTile2_2 + LetStatementsTile2_3, LetStatementsTile2_4, 24);
    HoldsLeft(x, LetStatementsTile2_0 + LetStatementsTile2_1 + LetStatementsTile2_2, LetStatementsTile2_3, 24);
    HoldsRight(x, LetStatementsTile2_0 + LetStatementsTile2_1, LetStatementsTile2_2, 24);
  }

  lemma LetStatementsPiece2_3(x: seq<byte>)
    requires Holds(x, LetStatementsLine2, 24)
    ensures Holds(x, LetStatementsTile2_3, 42)
  {
    HoldsLeft(x, LetStatementsTile2_0 + LetStatementsTile2_1 + LetStatementsTile2_2 + LetStatementsTile2_3, LetStatementsTile2_4, 24);
    HoldsRight(x, LetStatementsTile2_0 + LetStatementsTile2_1 + LetStatementsTile2_2, LetStatementsTile2_3, 24);
  }

  lemma LetStatementsPiece2_4(x: seq<byte>)
    requires Holds(x, LetStatementsLine2, 24)
    ensures Holds(x, LetStatementsTile2_4, 44)
  {
    HoldsRight(x, LetStatementsTile2_0 + LetStatementsTile2_1 + LetStatementsTile2_2 + LetStatementsTile2_3, LetStatementsTile2_4, 24);
  }

  lemma LetStatementsPiece3_0(x: seq<byte>)
    requires Holds(x, LetStatementsLine3, 48)
    ensures Holds(x, LetStatementsTile3_0, 48)
  {
    HoldsLeft(x, LetStatementsTile3_0 + LetStatementsTile3_1 + LetStatementsTile3_2 + LetStatementsTile3_3, LetStatementsTile3_4, 48);
    HoldsLeft(x, LetStatementsTile3_0 + LetStatementsTile3_1 + LetStatementsTile3_2, LetStatementsTile3_3, 48);
    HoldsLeft(x, LetStatementsTile3_0 + LetStatementsTile3_1, LetStatementsTile3_2, 48);
    HoldsLeft(x, LetStatementsTile3_0, LetStatementsTile3_1, 48);
  }

  lemma LetStatementsPiece3_1(x: seq<byte>)
    requires Holds(x, LetStatementsLine3, 48)
    ensures Holds(x, LetStatementsTile3_1, 60)
  {
    HoldsLeft(x, LetStatementsTile3_0 + LetStatementsTile3_1 + LetStatementsTile3_2 + LetStatementsTile3_3, LetStatementsTile3_4, 48);
    HoldsLeft(x, LetStatementsTile3_0 + LetStatementsTile3_1 + LetStatementsTile3_2, LetStatementsTile3_3, 48);
    HoldsLeft(x, LetStatementsTile3_0 + LetStatementsTile3_1, LetStatementsTile3_2, 48);
    HoldsRight(x, LetStatementsTile3_0, LetStatementsTile3_1, 48);
  }

  lemma LetStatementsPiece3_2(x: seq<byte>)
    requires Holds(x, LetStatementsLine3, 48)
    ensures Holds(x, LetStatementsTile3_2, 64)
  {
    HoldsLeft(x, LetStatementsTile3_0 + LetStatementsTile3_1 + LetStatementsTile3_2 + LetStatementsTile3_3, LetStatementsTile3_4, 48);
    HoldsLeft(x, LetStatementsTile3_0 + LetStatementsTile3_1 + LetStatementsTile3_2, LetStatementsTile3_3, 48);
    HoldsRight(x, LetStatementsTile3_0 + LetStatementsTile3_1, LetStatementsTile3_2, 48);
  }

  lemma LetStatementsPiece3_3(x: seq<byte>)
    requires Holds(x, LetStatementsLine3, 48)
    ensures Holds(x, LetStatementsTile3_3, 71)
  {
    HoldsLeft(x, LetStatementsTile3_0 + LetStatementsTile3_1 + LetStatementsTile3_2 + LetStatementsTile3_3, LetStatementsTile3_4, 48);
    HoldsRight(x, LetStatementsTile3_0 + LetStatementsTile3_1 + LetStatementsTile3_2, LetStatementsTile3_3, 48);
  }

  lemma LetStatementsPiece3_4(x: seq<byte>)
    requires Holds(x, LetStatementsLine3, 48)
    ensures Holds(x, LetStatementsTile3_4, 73)
  {
    HoldsRight(x, LetStatementsTile3_0 + LetStatementsTile3_1 + LetStatementsTile3_2 + LetStatementsTile3_3, LetStatementsTile3_4, 48);
  }

  lemma LetStatementsInputLayout()
    ensures LetStatementsLayout(LetStatementsInput)
  {
    LetStatementsHolds0();
    LetStatementsHolds1();
    LetStatementsPiece1_0(LetStatementsInput);
    LetStatementsPiece1_1(LetStatementsInput);
    LetStatementsPiece1_2(LetStatementsInput);
    LetStatementsPiece1_3(LetStatementsInput);
    LetStatementsPiece1_4(LetStatementsInput);
    LetStatementsHolds2();
    LetStatementsPiece2_0(LetStatementsInput);
    LetStatementsPiece2_1(LetStatementsInput);
    LetStatementsPiece2_2(LetStatementsInput);
    LetStatementsPiece2_3(LetStatementsInput);
    LetStatementsPiece2_4(LetStatementsInput);
    LetStatementsHolds3();
    LetStatementsPiece3_0(LetStatementsInput);
    LetStatementsPiece3_1(LetStatementsInput);
    LetStatementsPiece3_2(LetStatementsInput);
    LetStatementsPiece3_3(LetStatementsInput);
    LetStatementsPiece3_4(LetStatementsInput);
    LetStatementsHolds4();
  }

  lemma LetStatementsSkip0(x: seq<byte>)
    requires Holds(x, LetStatementsTile0_0, 0) && Holds(x, LetStatementsTile1_0, 1)
    ensures Lex(x, 0) == Lex(x, 13)
  {
    SkipAcrossSpace(x, LetStatementsTile0_0, 0, 0);
    SkipAcrossSpace(x, LetStatementsTile1_0, 1, 0);
    LexAfterSkip(x, 0, 13);
  }

  lemma LetStatementsLex0()
    ensures CharAt(LetStatementsTile1_1, SkipEnd(LetStatementsTile1_1, 0)) != 0 && Lex(LetStatementsTile1_1, 0) == Step(Token(LET, Literal(AsciiBytes("let"))), 3)
  {
    RunEndAt(LetStatementsTile1_1, 0, 0, IsWhitespace);
    LexWordAt(LetStatementsTile1_1, 0, 0, AsciiBytes("let"));
    Word_let();
  }

  lemma LetStatementsAt0(x: seq<byte>)
    requires Holds(x, LetStatementsTile1_1, 13)
    ensures Lex(x, 13) == Step(Token(LET, Literal(AsciiBytes("let"))), 16)
  {
    LetStatementsLex0();
    LexWindow(x, LetStatementsTile1_1, 13, 0);
  }

  lemma LetStatementsSkip16(x: seq<byte>)
    requires Holds(x, LetStatementsTile1_1, 13)
    ensures Lex(x, 16) == Lex(x, 17)
  {
    SkipAcrossSpace(x, LetStatementsTile1_1, 13, 3);
    LexAfterSkip(x, 16, 17);
  }

  lemma LetStatementsLex16()
    ensures CharAt(LetStatementsTile1_2, SkipEnd(LetStatementsTile1_2, 0)) != 0 && Lex(LetStatementsTile1_2, 0) == Step(Token(IDENT("x"), Literal(AsciiBytes("x"))), 1)
  {
    RunEndAt(LetStatementsTile1_2, 0, 0, IsWhitespace);
    LexWordAt(LetStatementsTile1_2, 0, 0, AsciiBytes("x"));
    Word_x();
  }

  lemma LetStatementsAt16(x: seq<byte>)
    requires Holds(x, LetStatementsTile1_2, 17)
    ensures Lex(x, 17) == Step(Token(IDENT("x"), Literal(AsciiBytes("x"))), 18)
  {
    LetStatementsLex16();
    LexWindow(x, LetStatementsTile1_2, 17, 0);
  }

  lemma LetStatementsSkip18(x: seq<byte>)
    requires Holds(x, LetStatementsTile1_2, 17)
    ensures Lex(x, 18) == Lex(x, 19)
  {
    SkipAcrossSpace(x, LetStatementsTile1_2, 17, 1);
    LexAfterSkip(x, 18, 19);
  }

  lemma LetStatementsLex18()
    ensures CharAt(LetStatementsTile1_3, SkipEnd(LetStatementsTile1_3, 0)) != 0 && Lex(LetStatementsTile1_3, 0) == Step(Token(ASSIGN, Literal(AsciiBytes("="))), 1)
  {
    RunEndAt(LetStatementsTile1_3, 0, 0, IsWhitespace);
  }

  lemma LetStatementsAt18(x: seq<byte>)
    requires Holds(x, LetStatementsTile1_3, 19)
    ensures Lex(x, 19) == Step(Token(ASSIGN, Literal(AsciiBytes("="))), 20)
  {
    LetStatementsLex18();
    LexWindow(x, LetStatementsTile1_3, 19, 0);
  }

  lemma LetStatementsSkip20(x: seq<byte>)
    requires Holds(x, LetStatementsTile1_3, 19)
    ensures Lex(x, 20) == Lex(x, 21)
  {
    SkipAcrossSpace(x, LetStatementsTile1_3, 19, 1);
    LexAfterSkip(x, 20, 21);
  }

  lemma LetStatementsLex20()
    ensures CharAt(LetStatementsTile1_4, SkipEnd(LetStatementsTile1_4, 0)) != 0 && Lex(LetStatementsTile1_4, 0) == Step(Token(INT(5), Literal(AsciiBytes("5"))), 1)
  {
    RunEndAt(LetStatementsTile1_4, 0, 0, IsWhitespace);
    LexNumberAt(LetStatementsTile1_4, 0, 0, AsciiBytes("5"));
    Number_5();
  }

  lemma LetStatementsAt20(x: seq<byte>)
    requires Holds(x, LetStatementsTile1_4, 21)
    ensures Lex(x, 21) == Step(Token(INT(5), Literal(AsciiBytes("5"))), 22)
  {
    LetStatementsLex20();
    LexWindow(x, LetStatementsTile1_4, 21, 0);
  }

  lemma LetStatementsLex22()
    ensures CharAt(LetStatementsTile1_4, SkipEnd(LetStatementsTile1_4, 1)) != 0 && Lex(LetStatementsTile1_4, 1) == Step(Token(SEMICOLON, Literal(AsciiBytes(";"))), 2)
  {
    RunEndAt(LetStatementsTile1_4, 1, 1, IsWhitespace);
  }

  lemma LetStatementsAt22(x: seq<byte>)
    requires Holds(x, LetStatementsTile1_4, 21)
    ensures Lex(x, 22) == Step(Token(SEMICOLON, Literal(AsciiBytes(";"))), 23)
  {
    LetStatementsLex22();
    LexWindow(x, LetStatementsTile1_4, 21, 1);
  }

  lemma LetStatementsSkip23(x: seq<byte>)
    requires Holds(x, LetStatementsTile1_4, 21) && Holds(x, LetStatementsTile2_0, 24)
    ensures Lex(x, 23) == Lex(x, 36)
  {
    SkipAcrossSpace(x, LetStatementsTile1_4, 21, 2);
    SkipAcrossSpace(x, LetStatementsTile2_0, 24, 0);
    LexAfterSkip(x, 23, 36);
  }

  lemma LetStatementsLex23()
    ensures CharAt(LetStatementsTile2_1, SkipEnd(LetStatementsTile2_1, 0)) != 0 && Lex(LetStatementsTile2_1, 0) == Step(Token(LET, Literal(AsciiBytes("let"))), 3)
  {
    RunEndAt(LetStatementsTile2_1, 0, 0, IsWhitespace);
    LexWordAt(LetStatementsTile2_1, 0, 0, AsciiBytes("let"));
    Word_let();
  }

  lemma LetStatementsAt23(x: seq<byte>)
    requires Holds(x, LetStatementsTile2_1, 36)
    ensures Lex(x, 36) == Step(Token(LET, Literal(AsciiBytes("let"))), 39)
  {
    LetStatementsLex23();
    LexWindow(x, LetStatementsTile2_1, 36, 0);
  }

  lemma LetStatementsSkip39(x: seq<byte>)
    requires Holds(x, LetStatementsTile2_1, 36)
    ensures Lex(x, 39) == Lex(x, 40)
  {
    SkipAcrossSpace(x, LetStatementsTile2_1, 36, 3);
    LexAfterSkip(x, 39, 40);
  }

  lemma LetStatementsLex39()
    ensures CharAt(LetStatementsTile2_2, SkipEnd(LetStatementsTile2_2, 0)) != 0 && Lex(LetStatementsTile2_2, 0) == Step(Token(IDENT("y"), Literal(AsciiBytes("y"))), 1)
  {
    RunEndAt(LetStatementsTile2_2, 0, 0, IsWhitespace);
    LexWordAt(LetStatementsTile2_2, 0, 0, AsciiBytes("y"));
    Word_y();
  }

  lemma LetStatementsAt39(x: seq<byte>)
    requires Holds(x, LetStatementsTile2_2, 40)
    ensures Lex(x, 40) == Step(Token(IDENT("y"), Literal(AsciiBytes("y"))), 41)
  {
    LetStatementsLex39();
    LexWindow(x, LetStatementsTile2_2, 40, 0);
  }

  lemma LetStatementsSkip41(x: seq<byte>)
    requires Holds(x, LetStatementsTile2_2, 40)
    ensures Lex(x, 41) == Lex(x, 42)
  {
    SkipAcrossSpace(x, LetStatementsTile2_2, 40, 1);
    LexAfterSkip(x, 41, 42);
  }

  lemma LetStatementsLex41()
    ensures CharAt(LetStatementsTile2_3, SkipEnd(LetStatementsTile2_3, 0)) != 0 && Lex(LetStatementsTile2_3, 0) == Step(Token(ASSIGN, Literal(AsciiBytes("="))), 1)
  {
    RunEndAt(LetStatementsTile2_3, 0, 0, IsWhitespace);
  }

  lemma LetStatementsAt41(x: seq<byte>)
    requires Holds(x, LetStatementsTile2_3, 42)
    ensures Lex(x, 42) == Step(Token(ASSIGN, Literal(AsciiBytes("="))), 43)
  {
    LetStatementsLex41();
    LexWindow(x, LetStatementsTile2_3, 42, 0);
  }

  lemma LetStatementsSkip43(x: seq<byte>)
    requires Holds(x, LetStatementsTile2_3, 42)
    ensures Lex(x, 43) == Lex(x, 44)
  {
    SkipAcrossSpace(x, LetStatementsTile2_3, 42, 1);
    LexAfterSkip(x, 43, 44);
  }

  lemma LetStatementsLex43()
    ensures CharAt(LetStatementsTile2_4, SkipEnd(LetStatementsTile2_4, 0)) != 0 && Lex(LetStatementsTile2_4, 0) == Step(Token(INT(10), Literal(AsciiBytes("10"))), 2)
  {
    RunEndAt(LetStatementsTile2_4, 0, 0, IsWhitespace);
    LexNumberAt(LetStatementsTile2_4, 0, 0, AsciiBytes("10"));
    Number_10();
  }

  lemma LetStatementsAt43(x: seq<byte>)
    requires Holds(x, LetStatementsTile2_4, 44)
    ensures Lex(x, 44) == Step(Token(INT(10), Literal(AsciiBytes("10"))), 46)
  {
    LetStatementsLex43();
    LexWindow(x, LetStatementsTile2_4, 44, 0);
  }

  lemma LetStatementsLex46()
    ensures CharAt(LetStatementsTile2_4, SkipEnd(LetStatementsTile2_4, 2)) != 0 && Lex(LetStatementsTile2_4, 2) == Step(Token(SEMICOLON, Literal(AsciiBytes(";"))), 3)
  {
    RunEndAt(LetStatementsTile2_4, 2, 2, IsWhitespace);
  }

  lemma LetStatementsAt46(x: seq<byte>)
    requires Holds(x, LetStatementsTile2_4, 44)
    ensures Lex(x, 46) == Step(Token(SEMICOLON, Literal(AsciiBytes(";"))), 47)
  {
    LetStatementsLex46();
    LexWindow(x, LetStatementsTile2_4, 44, 2);
  }

  lemma LetStatementsSkip47(x: seq<byte>)
    requires Holds(x, LetStatementsTile2_4, 44) && Holds(x, LetStatementsTile3_0, 48)
    ensures Lex(x, 47) == Lex(x, 60)
  {
    SkipAcrossSpace(x, LetStatementsTile2_4, 44, 3);
    SkipAcrossSpace(x, LetStatementsTile3_0, 48, 0);
    LexAfterSkip(x, 47, 60);
  }

  lemma LetStatementsLex47()
    ensures CharAt(LetStatementsTile3_1, SkipEnd(LetStatementsTile3_1, 0)) != 0 && Lex(LetStatementsTile3_1, 0) == Step(Token(LET, Literal(AsciiBytes("let"))), 3)
  {
    RunEndAt(LetStatementsTile3_1, 0, 0, IsWhitespace);
    LexWordAt(LetStatementsTile3_1, 0, 0, AsciiBytes("let"));
    Word_let();
  }

  lemma LetStatementsAt47(x: seq<byte>)
    requires Holds(x, LetStatementsTile3_1, 60)
    ensures Lex(x, 60) == Step(Token(LET, Literal(AsciiBytes("let"))), 63)
  {
    LetStatementsLex47();
    LexWindow(x, LetStatementsTile3_1, 60, 0);
  }

  lemma LetStatementsSkip63(x: seq<byte>)
    requires Holds(x, LetStatementsTile3_1, 60)
    ensures Lex(x, 63) == Lex(x, 64)
  {
    SkipAcrossSpace(x, LetStatementsTile3_1, 60, 3);
    LexAfterSkip(x, 63, 64);
  }

  lemma LetStatementsLex63()
    ensures CharAt(LetStatementsTile3_2, SkipEnd(LetStatementsTile3_2, 0)) != 0 && Lex(LetStatementsTile3_2, 0) == Step(Token(IDENT("foobar"), Literal(AsciiBytes("foobar"))), 6)
  {
    RunEndAt(LetStatementsTile3_2, 0, 0, IsWhitespace);
    LexWordAt(LetStatementsTile3_2, 0, 0, AsciiBytes("foobar"));
    Word_foobar();
  }

  lemma LetStatementsAt63(x: seq<byte>)
    requires Holds(x, LetStatementsTile3_2, 64)
    ensures Lex(x, 64) == Step(Token(IDENT("foobar"), Literal(AsciiBytes("foobar"))), 70)
  {
    LetStatementsLex63();
    LexWindow(x, LetStatementsTile3_2, 64, 0);
  }

  lemma LetStatementsSkip70(x: seq<byte>)
    requires Holds(x, LetStatementsTile3_2, 64)
    ensures Lex(x, 70) == Lex(x, 71)
  {
    SkipAcrossSpace(x, LetStatementsTile3_2, 64, 6);
    LexAfterSkip(x, 70, 71);
  }

  lemma LetStatementsLex70()
    ensures CharAt(LetStatementsTile3_3, SkipEnd(LetStatementsTile3_3, 0)) != 0 && Lex(LetStatementsTile3_3, 0) == Step(Token(ASSIGN, Literal(AsciiBytes("="))), 1)
  {
    RunEndAt(LetStatementsTile3_3, 0, 0, IsWhitespace);
  }

  lemma LetStatementsAt70(x: seq<byte>)
    requires Holds(x, LetStatementsTile3_3, 71)
    ensures Lex(x, 71) == Step(Token(ASSIGN, Literal(AsciiBytes("="))), 72)
  {
    LetStatementsLex70();
    LexWindow(x, LetStatementsTile3_3, 71, 0);
  }

  lemma LetStatementsSkip72(x: seq<byte>)
    requires Holds(x, LetStatementsTile3_3, 71)
    ensures Lex(x, 72) == Lex(x, 73)
  {
    SkipAcrossSpace(x, LetStatementsTile3_3, 71, 1);
    LexAfterSkip(x, 72, 73);
  }

  lemma LetStatementsLex72()
    ensures CharAt(LetStatementsTile3_4, SkipEnd(LetStatementsTile3_4, 0)) != 0 && Lex(LetStatementsTile3_4, 0) == Step(Token(INT(838383), Literal(AsciiBytes("838383"))), 6)
  {
    RunEndAt(LetStatementsTile3_4, 0, 0, IsWhitespace);
    LexNumberAt(LetStatementsTile3_4, 0, 0, AsciiBytes("838383"));
    Number_838383();
  }

  lemma LetStatementsAt72(x: seq<byte>)
    requires Holds(x, LetStatementsTile3_4, 73)
    ensures Lex(x, 73) == Step(Token(INT(838383), Literal(AsciiBytes("838383"))), 79)
  {
    LetStatementsLex72();
    LexWindow(x, LetStatementsTile3_4, 73, 0);
  }

  lemma LetStatementsLex79()
    ensures CharAt(LetStatementsTile3_4, SkipEnd(LetStatementsTile3_4, 6)) != 0 && Lex(LetStatementsTile3_4, 6) == Step(Token(SEMICOLON, Literal(AsciiBytes(";"))), 7)
  {
    RunEndAt(LetStatementsTile3_4, 6, 6, IsWhitespace);
  }

  lemma LetStatementsAt79(x: seq<byte>)
    requires Holds(x, LetStatementsTile3_4, 73)
    ensures Lex(x, 79) == Step(Token(SEMICOLON, Literal(AsciiBytes(";"))), 80)
  {
    LetStatementsLex79();
    LexWindow(x, LetStatementsTile3_4, 73, 6);
  }

  lemma LetStatementsSkip80(x: seq<byte>)
    requires Holds(x, LetStatementsTile3_4, 73) && Holds(x, LetStatementsTile4_0, 81)
    ensures Lex(x, 80) == Lex(x, 89)
  {
    SkipAcrossSpace(x, LetStatementsTile3_4, 73, 7);
    SkipAcrossSpace(x, LetStatementsTile4_0, 81, 0);
    LexAfterSkip(x, 80, 89);
  }

  lemma LetStatementsNext0(x: seq<byte>)
    requires LetStatementsLayout(x)
    ensures Lex(x, 0) == Step(Token(LET, Literal(AsciiBytes("let"))), 16)
  {
    LetStatementsSkip0(x);
    LetStatementsAt0(x);
  }

  lemma LetStatementsNext16(x: seq<byte>)
    requires LetStatementsLayout(x)
    ensures Lex(x, 16) == Step(Token(IDENT("x"), Literal(AsciiBytes("x"))), 18)
  {
    LetStatementsSkip16(x);
    LetStatementsAt16(x);
  }

  lemma LetStatementsNext18(x: seq<byte>)
    requires LetStatementsLayout(x)
    ensures Lex(x, 18) == Step(Token(ASSIGN, Literal(AsciiBytes("="))), 20)
  {
    LetStatementsSkip18(x);
    LetStatementsAt18(x);
  }

  lemma LetStatementsNext20(x: seq<byte>)
    requires LetStatementsLayout(x)
    ensures Lex(x, 20) == Step(Token(INT(5), Literal(AsciiBytes("5"))), 22)
  {
    LetStatementsSkip20(x);
    LetStatementsAt20(x);
  }

  lemma LetStatementsNext22(x: seq<byte>)
    requires LetStatementsLayout(x)
    ensures Lex(x, 22) == Step(Token(SEMICOLON, Literal(AsciiBytes(";"))), 23)
  {
    LetStatementsAt22(x);
  }

  lemma LetStatementsNext23(x: seq<byte>)
    requires LetStatementsLayout(x)
    ensures Lex(x, 23) == Step(Token(LET, Literal(AsciiBytes("let"))), 39)
  {
    LetStatementsSkip23(x);
    LetStatementsAt23(x);
  }

  lemma LetStatementsNext39(x: seq<byte>)
    requires LetStatementsLayout(x)
    ensures Lex(x, 39) == Step(Token(IDENT("y"), Literal(AsciiBytes("y"))), 41)
  {
    LetStatementsSkip39(x);
    LetStatementsAt39(x);
  }

  lemma LetStatementsNext41(x: seq<byte>)
    requires LetStatementsLayout(x)
    ensures Lex(x, 41) == Step(Token(ASSIGN, Literal(AsciiBytes("="))), 43)
  {
    LetStatementsSkip41(x);
    LetStatementsAt41(x);
  }

  lemma LetStatementsNext43(x: seq<byte>)
    requires LetStatementsLayout(x)
    ensures Lex(x, 43) == Step(Token(INT(10), Literal(AsciiBytes("10"))), 46)
  {
    LetStatementsSkip43(x);
    LetStatementsAt43(x);
  }

  lemma LetStatementsNext46(x: seq<byte>)
    requires LetStatementsLayout(x)
    ensures Lex(x, 46) == Step(Token(SEMICOLON, Literal(AsciiBytes(";"))), 47)
  {
    LetStatementsAt46(x);
  }

  lemma LetStatementsNext47(x: seq<byte>)
    requires LetStatementsLayout(x)
    ensures Lex(x, 47) == Step(Token(LET, Literal(AsciiBytes("let"))), 63)
  {
    LetStatementsSkip47(x);
    LetStatementsAt47(x);
  }

  lemma LetStatementsNext63(x: seq<byte>)
    requires LetStatementsLayout(x)
    ensures Lex(x, 63) == Step(Token(IDENT("foobar"), Literal(AsciiBytes("foobar"))), 70)
  {
    LetStatementsSkip63(x);
    LetStatementsAt63(x);
  }

  lemma LetStatementsNext70(x: seq<byte>)
    requires LetStatementsLayout(x)
    ensures Lex(x, 70) == Step(Token(ASSIGN, Literal(AsciiBytes("="))), 72)
  {
    LetStatementsSkip70(x);
    LetStatementsAt70(x);
  }

  lemma LetStatementsNext72(x: seq<byte>)
    requires LetStatementsLayout(x)
    ensures Lex(x, 72) == Step(Token(INT(838383), Literal(AsciiBytes("838383"))), 79)
  {
    LetStatementsSkip72(x);
    LetStatementsAt72(x);
  }

  lemma LetStatementsNext79(x: seq<byte>)
    requires LetStatementsLayout(x)
    ensures Lex(x, 79) == Step(Token(SEMICOLON, Literal(AsciiBytes(";"))), 80)
  {
    LetStatementsAt79(x);
  }

  lemma LetStatementsNext80(x: seq<byte>)
    requires LetStatementsLayout(x)
    ensures Lex(x, 80) == Step(Token(EOF, Literal([0])), 90)
  {
    LetStatementsSkip80(x);
    LexAtEnd(x, 89);
  }

  lemma LetStatementsStep0(x: seq<byte>)
    requires Holds(x, LetStatementsTile0_0, 0) && Holds(x, LetStatementsTile1_0, 1) && Holds(x, LetStatementsTile1_1, 13)
    ensures Names(TokensFrom(x, 0)) == [LET] + Names(TokensFrom(x, 16))
  {
    LetStatementsSkip0(x);
    LetStatementsAt0(x);
    NamesStep(x, 0, Token(LET, Literal(AsciiBytes("let"))), 16);
  }

  lemma LetStatementsStep16(x: seq<byte>)
    requires Holds(x, LetStatementsTile1_1, 13) && Holds(x, LetStatementsTile1_2, 17)
    ensures Names(TokensFrom(x, 16)) == [IDENT("x")] + Names(TokensFrom(x, 18))
  {
    LetStatementsSkip16(x);
    LetStatementsAt16(x);
    NamesStep(x, 16, Token(IDENT("x"), Literal(AsciiBytes("x"))), 18);
  }

  lemma LetStatementsStep18(x: seq<byte>)
    requires Holds(x, LetStatementsTile1_2, 17) && Holds(x, LetStatementsTile1_3, 19)
    ensures Names(TokensFrom(x, 18)) == [ASSIGN] + Names(TokensFrom(x, 20))
  {
    LetStatementsSkip18(x);
    LetStatementsAt18(x);
    NamesStep(x, 18, Token(ASSIGN, Literal(AsciiBytes("="))), 20);
  }

  lemma LetStatementsStep20(x: seq<byte>)
    requires Holds(x, LetStatementsTile1_3, 19) && Holds(x, LetStatementsTile1_4, 21)
    ensures Names(TokensFrom(x, 20)) == [INT(5)] + Names(TokensFrom(x, 22))
  {
    LetStatementsSkip20(x);
    LetStatementsAt20(x);
    NamesStep(x, 20, Token(INT(5), Literal(AsciiBytes("5"))), 22);
  }

  lemma LetStatementsStep22(x: seq<byte>)
    requires Holds(x, LetStatementsTile1_4, 21)
    ensures Names(TokensFrom(x, 22)) == [SEMICOLON] + Names(TokensFrom(x, 23))
  {
    LetStatementsAt22(x);
    NamesStep(x, 22, Token(SEMICOLON, Literal(AsciiBytes(";"))), 23);
  }

  lemma LetStatementsStep23(x: seq<byte>)
    requires Holds(x, LetStatementsTile1_4, 21) && Holds(x, LetStatementsTile2_0, 24) && Holds(x, LetStatementsTile2_1, 36)
    ensures Names(TokensFrom(x, 23)) == [LET] + Names(TokensFrom(x, 39))
  {
    LetStatementsSkip23(x);
    LetStatementsAt23(x);
    NamesStep(x, 23, Token(LET, Literal(AsciiBytes("let"))), 39);
  }

  lemma LetStatementsStep39(x: seq<byte>)
    requires Holds(x, LetStatementsTile2_1, 36) && Holds(x, LetStatementsTile2_2, 40)
    ensures Names(TokensFrom(x, 39)) == [IDENT("y")] + Names(TokensFrom(x, 41))
  {
    LetStatementsSkip39(x);
    LetStatementsAt39(x);
    NamesStep(x, 39, Token(IDENT("y"), Literal(AsciiBytes("y"))), 41);
  }

  lemma LetStatementsStep41(x: seq<byte>)
    requires Holds(x, LetStatementsTile2_2, 40) && Holds(x, LetStatementsTile2_3, 42)
    ensures Names(TokensFrom(x, 41)) == [ASSIGN] + Names(TokensFrom(x, 43))
  {
    LetStatementsSkip41(x);
    LetStatementsAt41(x);
    NamesStep(x, 41, Token(ASSIGN, Literal(AsciiBytes("="))), 43);
  }

  lemma LetStatementsStep43(x: seq<byte>)
    requires Holds(x, LetStatementsTile2_3, 42) && Holds(x, LetStatementsTile2_4, 44)
    ensures Names(TokensFrom(x, 43)) == [INT(10)] + Names(TokensFrom(x, 46))
  {
    LetStatementsSkip43(x);
    LetStatementsAt43(x);
    NamesStep(x, 43, Token(INT(10), Literal(AsciiBytes("10"))), 46);
  }

  lemma LetStatementsStep46(x: seq<byte>)
    requires Holds(x, LetStatementsTile2_4, 44)
    ensures Names(TokensFrom(x, 46)) == [SEMICOLON] + Names(TokensFrom(x, 47))
  {
    LetStatementsAt46(x);
    NamesStep(x, 46, Token(SEMICOLON, Literal(AsciiBytes(";"))), 47);
  }

  lemma LetStatementsStep47(x: seq<byte>)
    requires Holds(x, LetStatementsTile2_4, 44) && Holds(x, LetStatementsTile3_0, 48) && Holds(x, LetStatementsTile3_1, 60)
    ensures Names(TokensFrom(x, 47)) == [LET] + Names(TokensFrom(x, 63))
  {
    LetStatementsSkip47(x);
    LetStatementsAt47(x);
    NamesStep(x, 47, Token(LET, Literal(AsciiBytes("let"))), 63);
  }

  lemma LetStatementsStep63(x: seq<byte>)
    requires Holds(x, LetStatementsTile3_1, 60) && Holds(x, LetStatementsTile3_2, 64)
    ensures Names(TokensFrom(x, 63)) == [IDENT("foobar")] + Names(TokensFrom(x, 70))
  {
    LetStatementsSkip63(x);
    LetStatementsAt63(x);
    NamesStep(x, 63, Token(IDENT("foobar"), Literal(AsciiBytes("foobar"))), 70);
  }

  lemma LetStatementsStep70(x: seq<byte>)
    requires Holds(x, LetStatementsTile3_2, 64) && Holds(x, LetStatementsTile3_3, 71)
    ensures Names(TokensFrom(x, 70)) == [ASSIGN] + Names(TokensFrom(x, 72))
  {
    LetStatementsSkip70(x);
    LetStatementsAt70(x);
    NamesStep(x, 70, Token(ASSIGN, Literal(AsciiBytes("="))), 72);
  }

  lemma LetStatementsStep72(x: seq<byte>)
    requires Holds(x, LetStatementsTile3_3, 71) && Holds(x, LetStatementsTile3_4, 73)
    ensures Names(TokensFrom(x, 72)) == [INT(838383)] + Names(TokensFrom(x, 79))
  {
    LetStatementsSkip72(x);
    LetStatementsAt72(x);
    NamesStep(x, 72, Token(INT(838383), Literal(AsciiBytes("838383"))), 79);
  }

  lemma LetStatementsStep79(x: seq<byte>)
    requires Holds(x, LetStatementsTile3_4, 73)
    ensures Names(TokensFrom(x, 79)) == [SEMICOLON] + Names(TokensFrom(x, 80))
  {
    LetStatementsAt79(x);
    NamesStep(x, 79, Token(SEMICOLON, Literal(AsciiBytes(";"))), 80);
  }

  lemma LetStatementsStep80(x: seq<byte>)
    requires |x| == 89 && Holds(x, LetStatementsTile3_4, 73) && Holds(x, LetStatementsTile4_0, 81)
    ensures Names(TokensFrom(x, 80)) == [EOF]
  {
    LetStatementsSkip80(x);
    LexAtEnd(x, 89);
    NamesLast(x, 80, Token(EOF, Literal([0])), 90);
  }

  lemma LetStatementsGroup0Chain(a0: seq<Name>, a1: seq<Name>, a2: seq<Name>, a3: seq<Name>, a4: seq<Name>, a5: seq<Name>)
    requires a0 == [LET] + a1
    requires a1 == [IDENT("x")] + a2
    requires a2 == [ASSIGN] + a3
    requires a3 == [INT(5)] + a4
    requires a4 == [SEMICOLON] + a5
    ensures a0 == [LET, IDENT("x"), ASSIGN, INT(5), SEMICOLON] + a5
  {
  }

  lemma LetStatementsGroup0(x: seq<byte>)
    requires LetStatementsLayout(x)
    ensures Names(TokensFrom(x, 0)) == [LET, IDENT("x"), ASSIGN, INT(5), SEMICOLON] + Names(TokensFrom(x, 23))
  {
    LetStatementsStep0(x);
    LetStatementsStep16(x);
    LetStatementsStep18(x);
    LetStatementsStep20(x);
    LetStatementsStep22(x);
    LetStatementsGroup0Chain(Names(TokensFrom(x, 0)), Names(TokensFrom(x, 16)), Names(TokensFrom(x, 18)), Names(TokensFrom(x, 20)), Names(TokensFrom(x, 22)), Names(TokensFrom(x, 23)));
  }

  lemma LetStatementsGroup1Chain(a0: seq<Name>, a1: seq<Name>, a2: seq<Name>, a3: seq<Name>, a4: seq<Name>, a5: seq<Name>)
    requires a0 == [LET] + a1
    requires a1 == [IDENT("y")] + a2
    requires a2 == [ASSIGN] + a3
    requires a3 == [INT(10)] + a4
    requires a4 == [SEMICOLON] + a5
    ensures a0 == [LET, IDENT("y"), ASSIGN, INT(10), SEMICOLON] + a5
  {
  }

  lemma LetStatementsGroup1(x: seq<byte>)
    requires LetStatementsLayout(x)
    ensures Names(TokensFrom(x, 23)) == [LET, IDENT("y"), ASSIGN, INT(10), SEMICOLON] + Names(TokensFrom(x, 47))
  {
    LetStatementsStep23(x);
    LetStatementsStep39(x);
    LetStatementsStep41(x);
    LetStatementsStep43(x);
    LetStatementsStep46(x);
    LetStatementsGroup1Chain(Names(TokensFrom(x, 23)), Names(TokensFrom(x, 39)), Names(TokensFrom(x, 41)), Names(TokensFrom(x, 43)), Names(TokensFrom(x, 46)), Names(TokensFrom(x, 47)));
  }

  lemma LetStatementsGroup2Chain(a0: seq<Name>, a1: seq<Name>, a2: seq<Name>, a3: seq<Name>, a4: seq<Name>, a5: seq<Name>)
    requires a0 == [LET] + a1
    requires a1 == [IDENT("foobar")] + a2
    requires a2 == [ASSIGN] + a3
    requires a3 == [INT(838383)] + a4
    requires a4 == [SEMICOLON] + a5
    ensures a0 == [LET, IDENT("foobar"), ASSIGN, INT(838383), SEMICOLON] + a5
  {
  }

  lemma LetStatementsGroup2(x: seq<byte>)
    requires LetStatementsLayout(x)
    ensures Names(TokensFrom(x, 47)) == [LET, IDENT("foobar"), ASSIGN, INT(838383), SEMICOLON] + Names(TokensFrom(x, 80))
  {
    LetStatementsStep47(x);
    LetStatementsStep63(x);
    LetStatementsStep70(x);
    LetStatementsStep72(x);
    LetStatementsStep79(x);
    LetStatementsGroup2Chain(Names(TokensFrom(x, 47)), Names(TokensFrom(x, 63)), Names(TokensFrom(x, 70)), Names(TokensFrom(x, 72)), Names(TokensFrom(x, 79)), Names(TokensFrom(x, 80)));
  }

  lemma LetStatementsChain(a0: seq<Name>, a1: seq<Name>, a2: seq<Name>, a3: seq<Name>)
    requires a0 == [LET, IDENT("x"), ASSIGN, INT(5), SEMICOLON] + a1
    requires a1 == [LET, IDENT("y"), ASSIGN, INT(10), SEMICOLON] + a2
    requires a2 == [LET, IDENT("foobar"), ASSIGN, INT(838383), SEMICOLON] + a3
    requires a3 == [EOF]
    ensures a0 == [LET, IDENT("x"), ASSIGN, INT(5), SEMICOLON, LET, IDENT("y"), ASSIGN, INT(10), SEMICOLON, LET, IDENT("foobar"), ASSIGN, INT(838383), SEMICOLON, EOF]
  {
  }

  /** The token kinds successive `next_token` calls return on any input laid out as this one. */
  lemma LetStatementsTokens(x: seq<byte>)
    requires LetStatementsLayout(x)
    ensures Names(Tokenize(x)) == [LET, IDENT("x"), ASSIGN, INT(5), SEMICOLON, LET, IDENT("y"), ASSIGN, INT(10), SEMICOLON, LET, IDENT("foobar"), ASSIGN, INT(838383), SEMICOLON, EOF]
  {
    LetStatementsGroup0(x);
    LetStatementsGroup1(x);
    LetStatementsGroup2(x);
    LetStatementsStep80(x);
    LetStatementsChain(Names(TokensFrom(x, 0)), Names(TokensFrom(x, 23)), Names(TokensFrom(x, 47)), Names(TokensFrom(x, 80)));
  }

  /** The token kinds successive `next_token` calls return on this input. */
  lemma LetStatementsSample()
    ensures Names(Tokenize(LetStatementsInput)) == [LET, IDENT("x"), ASSIGN, INT(5), SEMICOLON, LET, IDENT("y"), ASSIGN, INT(10), SEMICOLON, LET, IDENT("foobar"), ASSIGN, INT(838383), SEMICOLON, EOF]
  {
    LetStatementsInputLayout();
    LetStatementsTokens(LetStatementsInput);
  }

  /** The input `let = 5;` of a parser sample, cut after each run of whitespace. */
  const LetWithoutNameTile0_0: seq<byte> := AsciiBytes("let ")
  const LetWithoutNameTile0_1: seq<byte> := AsciiBytes("= ")
  const LetWithoutNameTile0_2: seq<byte> := AsciiBytes("5;")
  const LetWithoutNameLine0: seq<byte> := LetWithoutNameTile0_0 + LetWithoutNameTile0_1 + LetWithoutNameTile0_2
  const LetWithoutNameInput: seq<byte> :=
    LetWithoutNameLine0

  /** An input of the length of the `LetWithoutName` input that holds each piece of its lines in place. */
  predicate LetWithoutNameLayout(x: seq<byte>) {
    && |x| == 8
    && Holds(x, LetWithoutNameTile0_0, 0)
    && Holds(x, LetWithoutNameTile0_1, 4)
    && Holds(x, LetWithoutNameTile0_2, 6)
  }

  lemma LetWithoutNameHolds0()
    ensures Holds(LetWithoutNameInput, LetWithoutNameLine0, 0)
  {
    HoldsSelf(LetWithoutNameLine0);
  }

  lemma LetWithoutNamePiece0_0(x: seq<byte>)
    requires Holds(x, LetWithoutNameLine0, 0)
    ensures Holds(x, LetWithoutNameTile0_0, 0)
  {
    HoldsLeft(x, LetWithoutNameTile0_0 + LetWithoutNameTile0_1, LetWithoutNameTile0_2, 0);
    HoldsLeft(x, LetWithoutNameTile0_0, LetWithoutNameTile0_1, 0);
  }

  lemma LetWithoutNamePiece0_1(x: seq<byte>)
    requires Holds(x, LetWithoutNameLine0, 0)
    ensures Holds(x, LetWithoutNameTile0_1, 4)
  {
    HoldsLeft(x, LetWithoutNameTile0_0 + LetWithoutNameTile0_1, LetWithoutNameTile0_2, 0);
    HoldsRight(x, LetWithoutNameTile0_0, LetWithoutNameTile0_1, 0);
  }

  lemma LetWithoutNamePiece0_2(x: seq<byte>)
    requires Holds(x, LetWithoutNameLine0, 0)
    ensures Holds(x, LetWithoutNameTile0_2, 6)
  {
    HoldsRight(x, LetWithoutNameTile0_0 + LetWithoutNameTile0_1, LetWithoutNameTile0_2, 0);
  }

  lemma LetWithoutNameInputLayout()
    ensures LetWithoutNameLayout(LetWithoutNameInput)
  {
    LetWithoutNameHolds0();
    LetWithoutNamePiece0_0(LetWithoutNameInput);
    LetWithoutNamePiece0_1(LetWithoutNameInput);
    LetWithoutNamePiece0_2(LetWithoutNameInput);
  }

  lemma LetWithoutNameLex0()
    ensures CharAt(LetWithoutNameTile0_0, SkipEnd(LetWithoutNameTile0_0, 0)) != 0 && Lex(LetWithoutNameTile0_0, 0) == Step(Token(LET, Literal(AsciiBytes("let"))), 3)
  {
    RunEndAt(LetWithoutNameTile0_0, 0, 0, IsWhitespace);
    LexWordAt(LetWithoutNameTile0_0, 0, 0, AsciiBytes("let"));
    Word_let();
  }

  lemma LetWithoutNameAt0(x: seq<byte>)
    requires Holds(x, LetWithoutNameTile0_0, 0)
    ensures Lex(x, 0) == Step(Token(LET, Literal(AsciiBytes("let"))), 3)
  {
    LetWithoutNameLex0();
    LexWindow(x, LetWithoutNameTile0_0, 0, 0);
  }

  lemma LetWithoutNameSkip3(x: seq<byte>)
    requires Holds(x, LetWithoutNameTile0_0, 0)
    ensures Lex(x, 3) == Lex(x, 4)
  {
    SkipAcrossSpace(x, LetWithoutNameTile0_0, 0, 3);
    LexAfterSkip(x, 3, 4);
  }

  lemma LetWithoutNameLex3()
    ensures CharAt(LetWithoutNameTile0_1, SkipEnd(LetWithoutNameTile0_1, 0)) != 0 && Lex(LetWithoutNameTile0_1, 0) == Step(Token(ASSIGN, Literal(AsciiBytes("="))), 1)
  {
    RunEndAt(LetWithoutNameTile0_1, 0, 0, IsWhitespace);
  }

  lemma LetWithoutNameAt3(x: seq<byte>)
    requires Holds(x, LetWithoutNameTile0_1, 4)
    ensures Lex(x, 4) == Step(Token(ASSIGN, Literal(AsciiBytes("="))), 5)
  {
    LetWithoutNameLex3();
    LexWindow(x, LetWithoutNameTile0_1, 4, 0);
  }

  lemma LetWithoutNameSkip5(x: seq<byte>)
    requires Holds(x, LetWithoutNameTile0_1, 4)
    ensures Lex(x, 5) == Lex(x, 6)
  {
    SkipAcrossSpace(x, LetWithoutNameTile0_1, 4, 1);
    LexAfterSkip(x, 5, 6);
  }

  lemma LetWithoutNameLex5()
    ensures CharAt(LetWithoutNameTile0_2, SkipEnd(LetWithoutNameTile0_2, 0)) != 0 && Lex(LetWithoutNameTile0_2, 0) == Step(Token(INT(5), Literal(AsciiBytes("5"))), 1)
  {
    RunEndAt(LetWithoutNameTile0_2, 0, 0, IsWhitespace);
    LexNumberAt(LetWithoutNameTile0_2, 0, 0, AsciiBytes("5"));
    Number_5();
  }

  lemma LetWithoutNameAt5(x: seq<byte>)
    requires Holds(x, LetWithoutNameTile0_2, 6)
    ensures Lex(x, 6) == Step(Token(INT(5), Literal(AsciiBytes("5"))), 7)
  {
    LetWithoutNameLex5();
    LexWindow(x, LetWithoutNameTile0_2, 6, 0);
  }

  lemma LetWithoutNameLex7()
    ensures CharAt(LetWithoutNameTile0_2, SkipEnd(LetWithoutNameTile0_2, 1)) != 0 && Lex(LetWithoutNameTile0_2, 1) == Step(Token(SEMICOLON, Literal(AsciiBytes(";"))), 2)
  {
    RunEndAt(LetWithoutNameTile0_2, 1, 1, IsWhitespace);
  }

  lemma LetWithoutNameAt7(x: seq<byte>)
    requires Holds(x, LetWithoutNameTile0_2, 6)
    ensures Lex(x, 7) == Step(Token(SEMICOLON, Literal(AsciiBytes(";"))), 8)
  {
    LetWithoutNameLex7();
    LexWindow(x, LetWithoutNameTile0_2, 6, 1);
  }

  lemma LetWithoutNameNext0(x: seq<byte>)
    requires LetWithoutNameLayout(x)
    ensures Lex(x, 0) == Step(Token(LET, Literal(AsciiBytes("let"))), 3)
  {
    LetWithoutNameAt0(x);
  }

  lemma LetWithoutNameNext3(x: seq<byte>)
    requires LetWithoutNameLayout(x)
    ensures Lex(x, 3) == Step(Token(ASSIGN, Literal(AsciiBytes("="))), 5)
  {
    LetWithoutNameSkip3(x);
    LetWithoutNameAt3(x);
  }

  lemma LetWithoutNameNext5(x: seq<byte>)
    requires LetWithoutNameLayout(x)
    ensures Lex(x, 5) == Step(Token(INT(5), Literal(AsciiBytes("5"))), 7)
  {
    LetWithoutNameSkip5(x);
    LetWithoutNameAt5(x);
  }

  lemma LetWithoutNameNext7(x: seq<byte>)
    requires LetWithoutNameLayout(x)
    ensures Lex(x, 7) == Step(Token(SEMICOLON, Literal(AsciiBytes(";"))), 8)
  {
    LetWithoutNameAt7(x);
  }

  lemma LetWithoutNameNext8(x: seq<byte>)
    requires LetWithoutNameLayout(x)
    ensures Lex(x, 8) == Step(Token(EOF, Literal([0])), 9)
  {
    LexAtEnd(x, 8);
  }

  /** The input `let x 5;` of a parser sample, cut after each run of whitespace. */
  const LetWithoutAssignTile0_0: seq<byte> := AsciiBytes("let ")
  const LetWithoutAssignTile0_1: seq<byte> := AsciiBytes("x ")
  const LetWithoutAssignTile0_2: seq<byte> := AsciiBytes("5;")
  const LetWithoutAssignLine0: seq<byte> := LetWithoutAssignTile0_0 + LetWithoutAssignTile0_1 + LetWithoutAssignTile0_2
  const LetWithoutAssignInput: seq<byte> :=
    LetWithoutAssignLine0

  /** An input of the length of the `LetWithoutAssign` input that holds each piece of its lines in place. */
  predicate LetWithoutAssignLayout(x: seq<byte>) {
    && |x| == 8
    && Holds(x, LetWithoutAssignTile0_0, 0)
    && Holds(x, LetWithoutAssignTile0_1, 4)
    && Holds(x, LetWithoutAssignTile0_2, 6)
  }

  lemma LetWithoutAssignHolds0()
    ensures Holds(LetWithoutAssignInput, LetWithoutAssignLine0, 0)
  {
    HoldsSelf(LetWithoutAssignLine0);
  }

  lemma LetWithoutAssignPiece0_0(x: seq<byte>)
    requires Holds(x, LetWithoutAssignLine0, 0)
    ensures Holds(x, LetWithoutAssignTile0_0, 0)
  {
    HoldsLeft(x, LetWithoutAssignTile0_0 + LetWithoutAssignTile0_1, LetWithoutAssignTile0_2, 0);
    HoldsLeft(x, LetWithoutAssignTile0_0, LetWithoutAssignTile0_1, 0);
  }

  lemma LetWithoutAssignPiece0_1(x: seq<byte>)
    requires Holds(x, LetWithoutAssignLine0, 0)
    ensures Holds(x, LetWithoutAssignTile0_1, 4)
  {
    HoldsLeft(x, LetWithoutAssignTile0_0 + LetWithoutAssignTile0_1, LetWithoutAssignTile0_2, 0);
    HoldsRight(x, LetWithoutAssignTile0_0, LetWithoutAssignTile0_1, 0);
  }

  lemma LetWithoutAssignPiece0_2(x: seq<byte>)
    requires Holds(x, LetWithoutAssignLine0, 0)
    ensures Holds(x, LetWithoutAssignTile0_2, 6)
  {
    HoldsRight(x, LetWithoutAssignTile0_0 + LetWithoutAssignTile0_1, LetWithoutAssignTile0_2, 0);
  }

  lemma LetWithoutAssignInputLayout()
    ensures LetWithoutAssignLayout(LetWithoutAssignInput)
  {
    LetWithoutAssignHolds0();
    LetWithoutAssignPiece0_0(LetWithoutAssignInput);
    LetWithoutAssignPiece0_1(LetWithoutAssignInput);
    LetWithoutAssignPiece0_2(LetWithoutAssignInput);
  }

  lemma LetWithoutAssignLex0()
    ensures CharAt(LetWithoutAssignTile0_0, SkipEnd(LetWithoutAssignTile0_0, 0)) != 0 && Lex(LetWithoutAssignTile0_0, 0) == Step(Token(LET, Literal(AsciiBytes("let"))), 3)
  {
    RunEndAt(LetWithoutAssignTile0_0, 0, 0, IsWhitespace);
    LexWordAt(LetWithoutAssignTile0_0, 0, 0, AsciiBytes("let"));
    Word_let();
  }

  lemma LetWithoutAssignAt0(x: seq<byte>)
    requires Holds(x, LetWithoutAssignTile0_0, 0)
    ensures Lex(x, 0) == Step(Token(LET, Literal(AsciiBytes("let"))), 3)
  {
    LetWithoutAssignLex0();
    LexWindow(x, LetWithoutAssignTile0_0, 0, 0);
  }

  lemma LetWithoutAssignSkip3(x: seq<byte>)
    requires Holds(x, LetWithoutAssignTile0_0, 0)
    ensures Lex(x, 3) == Lex(x, 4)
  {
    SkipAcrossSpace(x, LetWithoutAssignTile0_0, 0, 3);
    LexAfterSkip(x, 3, 4);
  }

  lemma LetWithoutAssignLex3()
    ensures CharAt(LetWithoutAssignTile0_1, SkipEnd(LetWithoutAssignTile0_1, 0)) != 0 && Lex(LetWithoutAssignTile0_1, 0) == Step(Token(IDENT("x"), Literal(AsciiBytes("x"))), 1)
  {
    RunEndAt(LetWithoutAssignTile0_1, 0, 0, IsWhitespace);
    LexWordAt(LetWithoutAssignTile0_1, 0, 0, AsciiBytes("x"));
    Word_x();
  }

  lemma LetWithoutAssignAt3(x: seq<byte>)
    requires Holds(x, LetWithoutAssignTile0_1, 4)
    ensures Lex(x, 4) == Step(Token(IDENT("x"), Literal(AsciiBytes("x"))), 5)
  {
    LetWithoutAssignLex3();
    LexWindow(x, LetWithoutAssignTile0_1, 4, 0);
  }

  lemma LetWithoutAssignSkip5(x: seq<byte>)
    requires Holds(x, LetWithoutAssignTile0_1, 4)
    ensures Lex(x, 5) == Lex(x, 6)
  {
    SkipAcrossSpace(x, LetWithoutAssignTile0_1, 4, 1);
    LexAfterSkip(x, 5, 6);
  }

  lemma LetWithoutAssignLex5()
    ensures CharAt(LetWithoutAssignTile0_2, SkipEnd(LetWithoutAssignTile0_2, 0)) != 0 && Lex(LetWithoutAssignTile0_2, 0) == Step(Token(INT(5), Literal(AsciiBytes("5"))), 1)
  {
    RunEndAt(LetWithoutAssignTile0_2, 0, 0, IsWhitespace);
    LexNumberAt(LetWithoutAssignTile0_2, 0, 0, AsciiBytes("5"));
    Number_5();
  }

  lemma LetWithoutAssignAt5(x: seq<byte>)
    requires Holds(x, LetWithoutAssignTile0_2, 6)
    ensures Lex(x, 6) == Step(Token(INT(5), Literal(AsciiBytes("5"))), 7)
  {
    LetWithoutAssignLex5();
    LexWindow(x, LetWithoutAssignTile0_2, 6, 0);
  }

  lemma LetWithoutAssignLex7()
    ensures CharAt(LetWithoutAssignTile0_2, SkipEnd(LetWithoutAssignTile0_2, 1)) != 0 && Lex(LetWithoutAssignTile0_2, 1) == Step(Token(SEMICOLON, Literal(AsciiBytes(";"))), 2)
  {
    RunEndAt(LetWithoutAssignTile0_2, 1, 1, IsWhitespace);
  }

  lemma LetWithoutAssignAt7(x: seq<byte>)
    requires Holds(x, LetWithoutAssignTile0_2, 6)
    ensures Lex(x, 7) == Step(Token(SEMICOLON, Literal(AsciiBytes(";"))), 8)
  {
    LetWithoutAssignLex7();
    LexWindow(x, LetWithoutAssignTile0_2, 6, 1);
  }

  lemma LetWithoutAssignNext0(x: seq<byte>)
    requires LetWithoutAssignLayout(x)
    ensures Lex(x, 0) == Step(Token(LET, Literal(AsciiBytes("let"))), 3)
  {
    LetWithoutAssignAt0(x);
  }

  lemma LetWithoutAssignNext3(x: seq<byte>)
    requires LetWithoutAssignLayout(x)
    ensures Lex(x, 3) == Step(Token(IDENT("x"), Literal(AsciiBytes("x"))), 5)
  {
    LetWithoutAssignSkip3(x);
    LetWithoutAssignAt3(x);
  }

  lemma LetWithoutAssignNext5(x: seq<byte>)
    requires LetWithoutAssignLayout(x)
    ensures Lex(x, 5) == Step(Token(INT(5), Literal(AsciiBytes("5"))), 7)
  {
    LetWithoutAssignSkip5(x);
    LetWithoutAssignAt5(x);
  }

  lemma LetWithoutAssignNext7(x: seq<byte>)
    requires LetWithoutAssignLayout(x)
    ensures Lex(x, 7) == Step(Token(SEMICOLON, Literal(AsciiBytes(";"))), 8)
  {
    LetWithoutAssignAt7(x);
  }

  lemma LetWithoutAssignNext8(x: seq<byte>)
    requires LetWithoutAssignLayout(x)
    ensures Lex(x, 8) == Step(Token(EOF, Literal([0])), 9)
  {
    LexAtEnd(x, 8);
  }

  /** The input `let x = 5` of a parser sample, cut after each run of whitespace. */
  const LetWithoutSemicolonTile0_0: seq<byte> := AsciiBytes("let ")
  const LetWithoutSemicolonTile0_1: seq<byte> := AsciiBytes("x ")
  const LetWithoutSemicolonTile0_2: seq<byte> := AsciiBytes("= ")
  const LetWithoutSemicolonTile0_3: seq<byte> := AsciiBytes("5")
  const LetWithoutSemicolonLine0: seq<byte> := LetWithoutSemicolonTile0_0 + LetWithoutSemicolonTile0_1 + LetWithoutSemicolonTile0_2 + LetWithoutSemicolonTile0_3
  const LetWithoutSemicolonInput: seq<byte> :=
    LetWithoutSemicolonLine0

  /** An input of the length of the `LetWithoutSemicolon` input that holds each piece of its lines in place. */
  predicate LetWithoutSemicolonLayout(x: seq<byte>) {
    && |x| == 9
    && Holds(x, LetWithoutSemicolonTile0_0, 0)
    && Holds(x, LetWithoutSemicolonTile0_1, 4)
    && Holds(x, LetWithoutSemicolonTile0_2, 6)
    && Holds(x, LetWithoutSemicolonTile0_3, 8)
  }

  lemma LetWithoutSemicolonHolds0()
    ensures Holds(LetWithoutSemicolonInput, LetWithoutSemicolonLine0, 0)
  {
    HoldsSelf(LetWithoutSemicolonLine0);
  }

  lemma LetWithoutSemicolonPiece0_0(x: seq<byte>)
    requires Holds(x, LetWithoutSemicolonLine0, 0)
    ensures Holds(x, LetWithoutSemicolonTile0_0, 0)
  {
    HoldsLeft(x, LetWithoutSemicolonTile0_0 + LetWithoutSemicolonTile0_1 + LetWithoutSemicolonTile0_2, LetWithoutSemicolonTile0_3, 0);
    HoldsLeft(x, LetWithoutSemicolonTile0_0 + LetWithoutSemicolonTile0_1, LetWithoutSemicolonTile0_2, 0);
    HoldsLeft(x, LetWithoutSemicolonTile0_0, LetWithoutSemicolonTile0_1, 0);
  }

  lemma LetWithoutSemicolonPiece0_1(x: seq<byte>)
    requires Holds(x, LetWithoutSemicolonLine0, 0)
    ensures Holds(x, LetWithoutSemicolonTile0_1, 4)
  {
    HoldsLeft(x, LetWithoutSemicolonTile0_0 + LetWithoutSemicolonTile0_1 + LetWithoutSemicolonTile0_2, LetWithoutSemicolonTile0_3, 0);
    HoldsLeft(x, LetWithoutSemicolonTile0_0 + LetWithoutSemicolonTile0_1, LetWithoutSemicolonTile0_2, 0);
    HoldsRight(x, LetWithoutSemicolonTile0_0, LetWithoutSemicolonTile0_1, 0);
  }

  lemma LetWithoutSemicolonPiece0_2(x: seq<byte>)
    requires Holds(x, LetWithoutSemicolonLine0, 0)
    ensures Holds(x, LetWithoutSemicolonTile0_2, 6)
  {
    HoldsLeft(x, LetWithoutSemicolonTile0_0 + LetWithoutSemicolonTile0_1 + LetWithoutSemicolonTile0_2, LetWithoutSemicolonTile0_3, 0);
    HoldsRight(x, LetWithoutSemicolonTile0_0 + LetWithoutSemicolonTile0_1, LetWithoutSemicolonTile0_2, 0);
  }

  lemma LetWithoutSemicolonPiece0_3(x: seq<byte>)
    requires Holds(x, LetWithoutSemicolonLine0, 0)
    ensures Holds(x, LetWithoutSemicolonTile0_3, 8)
  {
    HoldsRight(x, LetWithoutSemicolonTile0_0 + LetWithoutSemicolonTile0_1 + LetWithoutSemicolonTile0_2, LetWithoutSemicolonTile0_3, 0);
  }

  lemma LetWithoutSemicolonInputLayout()
    ensures LetWithoutSemicolonLayout(LetWithoutSemicolonInput)
  {
    LetWithoutSemicolonHolds0();
    LetWithoutSemicolonPiece0_0(LetWithoutSemicolonInput);
    LetWithoutSemicolonPiece0_1(LetWithoutSemicolonInput);
    LetWithoutSemicolonPiece0_2(LetWithoutSemicolonInput);
    LetWithoutSemicolonPiece0_3(LetWithoutSemicolonInput);
  }

  lemma LetWithoutSemicolonLex0()
    ensures CharAt(LetWithoutSemicolonTile0_0, SkipEnd(LetWithoutSemicolonTile0_0, 0)) != 0 && Lex(LetWithoutSemicolonTile0_0, 0) == Step(Token(LET, Literal(AsciiBytes("let"))), 3)
  {
    RunEndAt(LetWithoutSemicolonTile0_0, 0, 0, IsWhitespace);
    LexWordAt(LetWithoutSemicolonTile0_0, 0, 0, AsciiBytes("let"));
    Word_let();
  }

  lemma LetWithoutSemicolonAt0(x: seq<byte>)
    requires Holds(x, LetWithoutSemicolonTile0_0, 0)
    ensures Lex(x, 0) == Step(Token(LET, Literal(AsciiBytes("let"))), 3)
  {
    LetWithoutSemicolonLex0();
    LexWindow(x, LetWithoutSemicolonTile0_0, 0, 0);
  }

  lemma LetWithoutSemicolonSkip3(x: seq<byte>)
    requires Holds(x, LetWithoutSemicolonTile0_0, 0)
    ensures Lex(x, 3) == Lex(x, 4)
  {
    SkipAcrossSpace(x, LetWithoutSemicolonTile0_0, 0, 3);
    LexAfterSkip(x, 3, 4);
  }

  lemma LetWithoutSemicolonLex3()
    ensures CharAt(LetWithoutSemicolonTile0_1, SkipEnd(LetWithoutSemicolonTile0_1, 0)) != 0 && Lex(LetWithoutSemicolonTile0_1, 0) == Step(Token(IDENT("x"), Literal(AsciiBytes("x"))), 1)
  {
    RunEndAt(LetWithoutSemicolonTile0_1, 0, 0, IsWhitespace);
    LexWordAt(LetWithoutSemicolonTile0_1, 0, 0, AsciiBytes("x"));
    Word_x();
  }

  lemma LetWithoutSemicolonAt3(x: seq<byte>)
    requires Holds(x, LetWithoutSemicolonTile0_1, 4)
    ensures Lex(x, 4) == Step(Token(IDENT("x"), Literal(AsciiBytes("x"))), 5)
  {
    LetWithoutSemicolonLex3();
    LexWindow(x, LetWithoutSemicolonTile0_1, 4, 0);
  }

  lemma LetWithoutSemicolonSkip5(x: seq<byte>)
    requires Holds(x, LetWithoutSemicolonTile0_1, 4)
    ensures Lex(x, 5) == Lex(x, 6)
  {
    SkipAcrossSpace(x, LetWithoutSemicolonTile0_1, 4, 1);
    LexAfterSkip(x, 5, 6);
  }

  lemma LetWithoutSemicolonLex5()
    ensures CharAt(LetWithoutSemicolonTile0_2, SkipEnd(LetWithoutSemicolonTile0_2, 0)) != 0 && Lex(LetWithoutSemicolonTile0_2, 0) == Step(Token(ASSIGN, Literal(AsciiBytes("="))), 1)
  {
    RunEndAt(LetWithoutSemicolonTile0_2, 0, 0, IsWhitespace);
  }

  lemma LetWithoutSemicolonAt5(x: seq<byte>)
    requires Holds(x, LetWithoutSemicolonTile0_2, 6)
    ensures Lex(x, 6) == Step(Token(ASSIGN, Literal(AsciiBytes("="))), 7)
  {
    LetWithoutSemicolonLex5();
    LexWindow(x, LetWithoutSemicolonTile0_2, 6, 0);
  }

  lemma LetWithoutSemicolonSkip7(x: seq<byte>)
    requires Holds(x, LetWithoutSemicolonTile0_2, 6)
    ensures Lex(x, 7) == Lex(x, 8)
  {
    SkipAcrossSpace(x, LetWithoutSemicolonTile0_2, 6, 1);
    LexAfterSkip(x, 7, 8);
  }

  lemma LetWithoutSemicolonLex7()
    ensures CharAt(LetWithoutSemicolonTile0_3, SkipEnd(LetWithoutSemicolonTile0_3, 0)) != 0 && Lex(LetWithoutSemicolonTile0_3, 0) == Step(Token(INT(5), Literal(AsciiBytes("5"))), 1)
  {
    RunEndAt(LetWithoutSemicolonTile0_3, 0, 0, IsWhitespace);
    LexNumberAt(LetWithoutSemicolonTile0_3, 0, 0, AsciiBytes("5"));
    Number_5();
  }

  lemma LetWithoutSemicolonAt7(x: seq<byte>)
    requires Holds(x, LetWithoutSemicolonTile0_3, 8)
    ensures Lex(x, 8) == Step(Token(INT(5), Literal(AsciiBytes("5"))), 9)
  {
    LetWithoutSemicolonLex7();
    LexWindow(x, LetWithoutSemicolonTile0_3, 8, 0);
  }

  lemma LetWithoutSemicolonNext0(x: seq<byte>)
    requires LetWithoutSemicolonLayout(x)
    ensures Lex(x, 0) == Step(Token(LET, Literal(AsciiBytes("let"))), 3)
  {
    LetWithoutSemicolonAt0(x);
  }

  lemma LetWithoutSemicolonNext3(x: seq<byte>)
    requires LetWithoutSemicolonLayout(x)
    ensures Lex(x, 3) == Step(Token(IDENT("x"), Literal(AsciiBytes("x"))), 5)
  {
    LetWithoutSemicolonSkip3(x);
    LetWithoutSemicolonAt3(x);
  }

  lemma LetWithoutSemicolonNext5(x: seq<byte>)
    requires LetWithoutSemicolonLayout(x)
    ensures Lex(x, 5) == Step(Token(ASSIGN, Literal(AsciiBytes("="))), 7)
  {
    LetWithoutSemicolonSkip5(x);
    LetWithoutSemicolonAt5(x);
  }

  lemma LetWithoutSemicolonNext7(x: seq<byte>)
    requires LetWithoutSemicolonLayout(x)
    ensures Lex(x, 7) == Step(Token(INT(5), Literal(AsciiBytes("5"))), 9)
  {
    LetWithoutSemicolonSkip7(x);
    LetWithoutSemicolonAt7(x);
  }

  lemma LetWithoutSemicolonNext9(x: seq<byte>)
    requires LetWithoutSemicolonLayout(x)
    ensures Lex(x, 9) == Step(Token(EOF, Literal([0])), 10)
  {
    LexAtEnd(x, 9);
  }

  /** The input `return 5;` of a parser sample, cut after each run of whitespace. */
  const ReturnFiveTile0_0: seq<byte> := AsciiBytes("return ")
  const ReturnFiveTile0_1: seq<byte> := AsciiBytes("5;")
  const ReturnFiveLine0: seq<byte> := ReturnFiveTile0_0 + ReturnFiveTile0_1
  const ReturnFiveInput: seq<byte> :=
    ReturnFiveLine0

  /** An input of the length of the `ReturnFive` input that holds each piece of its lines in place. */
  predicate ReturnFiveLayout(x: seq<byte>) {
    && |x| == 9
    && Holds(x, ReturnFiveTile0_0, 0)
    && Holds(x, ReturnFiveTile0_1, 7)
  }

  lemma ReturnFiveHolds0()
    ensures Holds(ReturnFiveInput, ReturnFiveLine0, 0)
  {
    HoldsSelf(ReturnFiveLine0);
  }

  lemma ReturnFivePiece0_0(x: seq<byte>)
    requires Holds(x, ReturnFiveLine0, 0)
    ensures Holds(x, ReturnFiveTile0_0, 0)
  {
    HoldsLeft(x, ReturnFiveTile0_0, ReturnFiveTile0_1, 0);
  }

  lemma ReturnFivePiece0_1(x: seq<byte>)
    requires Holds(x, ReturnFiveLine0, 0)
    ensures Holds(x, ReturnFiveTile0_1, 7)
  {
    HoldsRight(x, ReturnFiveTile0_0, ReturnFiveTile0_1, 0);
  }

  lemma ReturnFiveInputLayout()
    ensures ReturnFiveLayout(ReturnFiveInput)
  {
    ReturnFiveHolds0();
    ReturnFivePiece0_0(ReturnFiveInput);
    ReturnFivePiece0_1(ReturnFiveInput);
  }

  lemma ReturnFiveLex0()
    ensures CharAt(ReturnFiveTile0_0, SkipEnd(ReturnFiveTile0_0, 0)) != 0 && Lex(ReturnFiveTile0_0, 0) == Step(Token(RETURN, Literal(AsciiBytes("return"))), 6)
  {
    RunEndAt(ReturnFiveTile0_0, 0, 0, IsWhitespace);
    LexWordAt(ReturnFiveTile0_0, 0, 0, AsciiBytes("return"));
    Word_return();
  }

  lemma ReturnFiveAt0(x: seq<byte>)
    requires Holds(x, ReturnFiveTile0_0, 0)
    ensures Lex(x, 0) == Step(Token(RETURN, Literal(AsciiBytes("return"))), 6)
  {
    ReturnFiveLex0();
    LexWindow(x, ReturnFiveTile0_0, 0, 0);
  }

  lemma ReturnFiveSkip6(x: seq<byte>)
    requires Holds(x, ReturnFiveTile0_0, 0)
    ensures Lex(x, 6) == Lex(x, 7)
  {
    SkipAcrossSpace(x, ReturnFiveTile0_0, 0, 6);
    LexAfterSkip(x, 6, 7);
  }

  lemma ReturnFiveLex6()
    ensures CharAt(ReturnFiveTile0_1, SkipEnd(ReturnFiveTile0_1, 0)) != 0 && Lex(ReturnFiveTile0_1, 0) == Step(Token(INT(5), Literal(AsciiBytes("5"))), 1)
  {
    RunEndAt(ReturnFiveTile0_1, 0, 0, IsWhitespace);
    LexNumberAt(ReturnFiveTile0_1, 0, 0, AsciiBytes("5"));
    Number_5();
  }

  lemma ReturnFiveAt6(x: seq<byte>)
    requires Holds(x, ReturnFiveTile0_1, 7)
    ensures Lex(x, 7) == Step(Token(INT(5), Literal(AsciiBytes("5"))), 8)
  {
    ReturnFiveLex6();
    LexWindow(x, ReturnFiveTile0_1, 7, 0);
  }

  lemma ReturnFiveLex8()
    ensures CharAt(ReturnFiveTile0_1, SkipEnd(ReturnFiveTile0_1, 1)) != 0 && Lex(ReturnFiveTile0_1, 1) == Step(Token(SEMICOLON, Literal(AsciiBytes(";"))), 2)
  {
    RunEndAt(ReturnFiveTile0_1, 1, 1, IsWhitespace);
  }

  lemma ReturnFiveAt8(x: seq<byte>)
    requires Holds(x, ReturnFiveTile0_1, 7)
    ensures Lex(x, 8) == Step(Token(SEMICOLON, Literal(AsciiBytes(";"))), 9)
  {
    ReturnFiveLex8();
    LexWindow(x, ReturnFiveTile0_1, 7, 1);
  }

  lemma ReturnFiveNext0(x: seq<byte>)
    requires ReturnFiveLayout(x)
    ensures Lex(x, 0) == Step(Token(RETURN, Literal(AsciiBytes("return"))), 6)
  {
    ReturnFiveAt0(x);
  }

  lemma ReturnFiveNext6(x: seq<byte>)
    requires ReturnFiveLayout(x)
    ensures Lex(x, 6) == Step(Token(INT(5), Literal(AsciiBytes("5"))), 8)
  {
    ReturnFiveSkip6(x);
    ReturnFiveAt6(x);
  }

  lemma ReturnFiveNext8(x: seq<byte>)
    requires ReturnFiveLayout(x)
    ensures Lex(x, 8) == Step(Token(SEMICOLON, Literal(AsciiBytes(";"))), 9)
  {
    ReturnFiveAt8(x);
  }

  lemma ReturnFiveNext9(x: seq<byte>)
    requires ReturnFiveLayout(x)
    ensures Lex(x, 9) == Step(Token(EOF, Literal([0])), 10)
  {
    LexAtEnd(x, 9);
  }

}
