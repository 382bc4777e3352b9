/**
 * What one `next_token` call does, stated case by case, and what the
 * whole token stream looks like.
 */
module LexerFacts {
  import opened Bytes
  import opened Tokens
  import opened Lexing

  /** At or past the end of input a call returns `EOF` (its literal is the
      sentinel byte) and still moves the cursor on by one. */
  lemma LexAtEnd(input: seq<byte>, pos: nat)
    requires pos >= |input|
    ensures Lex(input, pos) == Step(Token(EOF, Literal([0])), pos + 1)
  {
  }

  /** The cursor position after `n` calls starting at `pos`. */
  function CursorAfter(input: seq<byte>, pos: nat, n: nat): (c: nat)
    ensures c >= pos + n
    decreases n
  {
    if n == 0 then pos else CursorAfter(input, Lex(input, pos).next, n - 1)
  }

  /** Once the cursor is at or past the end, every later call returns `EOF`. */
  lemma {:induction false} EofForever(input: seq<byte>, pos: nat, n: nat)
    requires pos >= |input|
    ensures CursorAfter(input, pos, n) >= |input|
    ensures Lex(input, CursorAfter(input, pos, n)).token.name == EOF
    decreases n
  {
    if n > 0 {
      LexAtEnd(input, pos);
      EofForever(input, pos + 1, n - 1);
    }
  }

  /** `is_letter` and `is_digit` on the bytes their unit tests try: the
      two classes do not meet, and `_` is a letter. */
  lemma LetterAndDigitClasses()
    ensures forall c: byte :: !(IsLetter(c) && IsDigit(c))
    ensures forall c :: c in "abcyxzABCXYZ_" ==> IsLetter(c as byte)
    ensures !IsLetter('0' as byte) && !IsLetter('9' as byte)
    ensures forall c :: c in "0123456789" ==> IsDigit(c as byte)
    ensures forall c :: c in "azAZ_" ==> !IsDigit(c as byte)
  {
  }

  /** `skip_whitespace` passes over nothing but space, tab, line feed and
      carriage return, and stops on the first byte that is none of them. */
  lemma SkipsOnlyWhitespace(input: seq<byte>, pos: nat)
    ensures var q := SkipEnd(input, pos);
            && (forall i :: pos <= i < q ==> i < |input| && IsWhitespace(input[i]))
            && !IsWhitespace(CharAt(input, q))
  {
    RunEndInside(input, pos, IsWhitespace);
  }

  /** `=` and `!` look one byte ahead: followed by `=` they form one two-byte
      `EQ` or `NOTEQ` token, and otherwise they are `ASSIGN` and `BANG`. */
  lemma LexTwoCharOperators(input: seq<byte>, pos: nat)
    ensures var p := SkipEnd(input, pos);
            var r := Lex(input, pos);
            && (r.token.name == EQ <==> CharAt(input, p) == '=' as byte && CharAt(input, p + 1) == '=' as byte)
            && (r.token.name == ASSIGN <==> CharAt(input, p) == '=' as byte && CharAt(input, p + 1) != '=' as byte)
            && (r.token.name == NOTEQ <==> CharAt(input, p) == '!' as byte && CharAt(input, p + 1) == '=' as byte)
            && (r.token.name == BANG <==> CharAt(input, p) == '!' as byte && CharAt(input, p + 1) != '=' as byte)
            && (r.token.name in {EQ, NOTEQ} ==> r.next == p + 2 && r.token.literal.chars == [CharAt(input, p), '=' as byte])
            && (r.token.name in {ASSIGN, BANG} ==> r.next == p + 1 && r.token.literal.chars == [CharAt(input, p)])
  {
    var p := SkipEnd(input, pos);
    var c := CharAt(input, p);
    if c != '=' as byte && c != '!' as byte {
      NoOperatorElsewhere(input, p);
    }
  }

  /** The four kinds `EQ`, `ASSIGN`, `NOTEQ` and `BANG` come only from a
      scan that starts on `=` or `!`. */
  lemma NoOperatorElsewhere(input: seq<byte>, p: nat)
    requires CharAt(input, p) != '=' as byte && CharAt(input, p) != '!' as byte
    ensures Scan(input, p).token.name !in {EQ, ASSIGN, NOTEQ, BANG}
  {
    var c := CharAt(input, p);
    if SymbolName(c).None? && IsLetter(c) {
      var q := RunEnd(input, p, IsLetter);
      RunEndInside(input, p, IsLetter);
      assert IsAscii(input[p..q]);
      LookupIdentCases(Literal(input[p..q]));
    }
  }

  /** Each fixed one-byte symbol is a token of its own kind, one byte wide. */
  lemma LexSymbol(input: seq<byte>, pos: nat)
    requires SymbolName(CharAt(input, SkipEnd(input, pos))).Some?
    ensures var p := SkipEnd(input, pos);
            var c := CharAt(input, p);
            Lex(input, pos) == Step(Token(SymbolName(c).value, Literal([c])), p + 1)
  {
  }

  /** A letter starts a maximal run of letters (digits excluded), which is
      looked up in the keyword table; the cursor stops on the first byte
      outside the run. */
  lemma LexLetterRun(input: seq<byte>, pos: nat)
    requires IsLetter(CharAt(input, SkipEnd(input, pos)))
    ensures var p := SkipEnd(input, pos);
            var r := Lex(input, pos);
            && p < r.next <= |input|
            && (forall i :: p <= i < r.next ==> IsLetter(input[i]))
            && !IsLetter(CharAt(input, r.next))
            && r.token == Token(LookupIdent(Literal(input[p..r.next])), Literal(input[p..r.next]))
  {
    RunEndInside(input, SkipEnd(input, pos), IsLetter);
  }

  /** An `IDENT` token carries exactly its literal's text, which is a maximal
      letter run and never a keyword spelling. */
  lemma LexIdent(input: seq<byte>, pos: nat)
    requires Lex(input, pos).token.name.IDENT?
    ensures var r := Lex(input, pos);
            && IsLetter(CharAt(input, SkipEnd(input, pos)))
            && (forall i :: 0 <= i < |r.token.literal.chars| ==> IsLetter(r.token.literal.chars[i]))
            && IsAscii(r.token.literal.chars)
            && r.token.name.text == r.token.literal.ToString()
            && (forall k :: k in Keywords ==> KeywordSpelling(k) != r.token.name.text)
            && !IsLetter(CharAt(input, r.next))
  {
    var p := SkipEnd(input, pos);
    var c := CharAt(input, p);
    assert IsLetter(c);
    var q := RunEnd(input, p, IsLetter);
    RunEndInside(input, p, IsLetter);
    assert IsAscii(input[p..q]);
    LookupIdentCases(Literal(input[p..q]));
  }

  /** A digit starts a maximal run of digits; it is `INT` of its decimal value
      when that fits in an i64 (leading zeros allowed) and `ILLEGAL` otherwise. */
  lemma LexDigitRun(input: seq<byte>, pos: nat)
    requires IsDigit(CharAt(input, SkipEnd(input, pos)))
    ensures var p := SkipEnd(input, pos);
            var r := Lex(input, pos);
            && p < r.next <= |input|
            && AllDigits(input[p..r.next])
            && !IsDigit(CharAt(input, r.next))
            && r.token.literal == Literal(input[p..r.next])
            && (DecimalValue(input[p..r.next]) <= I64_MAX ==>
                  r.token.name == INT(DecimalValue(input[p..r.next]) as i64))
            && (DecimalValue(input[p..r.next]) > I64_MAX ==> r.token.name == ILLEGAL)
  {
    var p := SkipEnd(input, pos);
    var q := RunEnd(input, p, IsDigit);
    RunEndInside(input, p, IsDigit);
    assert AllDigits(input[p..q]);
    assert IsAscii(input[p..q]);
    IntLiteralCases(Literal(input[p..q]));
  }

  /** An `INT` token comes only from a maximal digit run: its literal is
      that run, and the integer is the run's decimal value. */
  lemma LexInt(input: seq<byte>, pos: nat)
    requires Lex(input, pos).token.name.INT?
    ensures var p := SkipEnd(input, pos);
            var r := Lex(input, pos);
            && IsDigit(CharAt(input, p))
            && r.token.literal.chars == input[p..r.next]
            && AllDigits(r.token.literal.chars)
            && !IsDigit(CharAt(input, r.next))
            && r.token.name.value as int == DecimalValue(r.token.literal.chars)
  {
    if IsDigit(CharAt(input, SkipEnd(input, pos))) {
      LexDigitRun(input, pos);
    }
  }

  /** A keyword kind comes only from a maximal letter run that spells that
      keyword. */
  lemma LexKeyword(input: seq<byte>, pos: nat)
    requires Lex(input, pos).token.name in Keywords
    ensures var p := SkipEnd(input, pos);
            var r := Lex(input, pos);
            && IsLetter(CharAt(input, p))
            && r.token.literal.chars == input[p..r.next]
            && (forall i :: p <= i < r.next ==> IsLetter(input[i]))
            && !IsLetter(CharAt(input, r.next))
            && IsAscii(r.token.literal.chars)
            && r.token.literal.ToString() == KeywordSpelling(r.token.name)
  {
    var p := SkipEnd(input, pos);
    var c := CharAt(input, p);
    if IsLetter(c) {
      var q := RunEnd(input, p, IsLetter);
      LexLetterRun(input, pos);
      assert IsAscii(input[p..q]);
      LookupIdentCases(Literal(input[p..q]));
    }
  }

  /** `ILLEGAL` comes from exactly two places: a digit run too large for an
      i64, and a single byte that starts no token. */
  lemma LexIllegal(input: seq<byte>, pos: nat)
    ensures var p := SkipEnd(input, pos);
            var c := CharAt(input, p);
            var r := Lex(input, pos);
            r.token.name == ILLEGAL <==>
              || (IsDigit(c) && AllDigits(input[p..r.next]) && DecimalValue(input[p..r.next]) > I64_MAX)
              || (c != 0 && c != '=' as byte && c != '!' as byte && SymbolName(c).None?
                  && !IsLetter(c) && !IsDigit(c) && r == Step(Token(ILLEGAL, Literal([c])), p + 1))
  {
    var p := SkipEnd(input, pos);
    var c := CharAt(input, p);
    if IsDigit(c) {
      LexDigitRun(input, pos);
    } else if IsLetter(c) {
      var q := RunEnd(input, p, IsLetter);
      RunEndInside(input, p, IsLetter);
      assert IsAscii(input[p..q]);
      LookupIdentCases(Literal(input[p..q]));
    }
  }

  /** A NUL byte inside the input also reads as `EOF`, and the cursor moves
      past it, so lexing can go on after it. */
  lemma LexNulByte(input: seq<byte>, pos: nat)
    requires SkipEnd(input, pos) < |input| && input[SkipEnd(input, pos)] == 0
    ensures var p := SkipEnd(input, pos);
            Lex(input, pos) == Step(Token(EOF, Literal([0])), p + 1) && p + 1 <= |input|
  {
  }

  /** With no NUL byte ahead, `EOF` is returned exactly when the cursor is
      left past the end, so nothing but `EOF` can follow it. */
  lemma EofOnlyAtEnd(input: seq<byte>, pos: nat)
    requires forall i :: pos <= i < |input| ==> input[i] != 0
    ensures Lex(input, pos).token.name == EOF <==> Lex(input, pos).next > |input|
  {
  }

  /** A letter run `w` found at `p` once whitespace from `pos` is skipped,
      and followed by a byte that is no letter, is one word token. */
  lemma LexWordAt(input: seq<byte>, pos: nat, p: nat, w: seq<byte>)
    requires SkipEnd(input, pos) == p
    requires |w| > 0 && p + |w| <= |input|
    requires forall i :: 0 <= i < |w| ==> input[p + i] == w[i] && IsLetter(w[i])
    requires !IsLetter(CharAt(input, p + |w|))
    ensures Lex(input, pos) == Step(WordToken(w), p + |w|)
  {
    forall i | p <= i < p + |w| ensures IsLetter(CharAt(input, i)) {
      assert input[p + (i - p)] == w[i - p];
    }
    RunEndAt(input, p, p + |w|, IsLetter);
    assert input[p..p + |w|] == w;
  }

  /** The same for a digit run `w` and its number token. */
  lemma LexNumberAt(input: seq<byte>, pos: nat, p: nat, w: seq<byte>)
    requires SkipEnd(input, pos) == p
    requires |w| > 0 && p + |w| <= |input|
    requires forall i :: 0 <= i < |w| ==> input[p + i] == w[i] && IsDigit(w[i])
    requires !IsDigit(CharAt(input, p + |w|))
    ensures Lex(input, pos) == Step(NumberToken(w), p + |w|)
  {
    forall i | p <= i < p + |w| ensures IsDigit(CharAt(input, i)) {
      assert input[p + (i - p)] == w[i - p];
    }
    RunEndAt(input, p, p + |w|, IsDigit);
    assert input[p..p + |w|] == w;
  }

  /** A word that is no keyword spelling is an identifier carrying that word. */
  lemma IdentWord(s: string)
    requires IsAsciiText(s) && forall i :: 0 <= i < |s| ==> IsLetter(s[i] as int as byte)
    requires forall k :: k in Keywords ==> KeywordSpelling(k) != s
    ensures WordToken(AsciiBytes(s)) == Token(IDENT(s), Literal(AsciiBytes(s)))
  {
    TextOfBytes(s);
    LookupIdentCases(Literal(AsciiBytes(s)));
  }

  /** A keyword's spelling is a word token of that keyword's kind. */
  lemma KeywordWord(k: Name)
    requires k in Keywords
    ensures var w := AsciiBytes(KeywordSpelling(k));
            (forall i :: 0 <= i < |w| ==> IsLetter(w[i])) && WordToken(w) == Token(k, Literal(w))
  {
    LookupKeyword(k);
  }

  /** The decimal rendering of a value in range is that `INT` token. */
  lemma NumberWord(n: nat)
    requires n <= I64_MAX
    ensures NumberToken(DecimalDigits(n)) == Token(INT(n as i64), Literal(DecimalDigits(n)))
  {
    IntLiteralOfRendering(n, 0);
    assert Zeros(0) + DecimalDigits(n) == DecimalDigits(n);
  }

  /** The tokens a caller draws from `pos` up to and including the first `EOF`. */
  function TokensFrom(input: seq<byte>, pos: nat): (ts: seq<Token>)
    ensures |ts| > 0
    decreases |input| + 1 - pos
  {
    var r := Lex(input, pos);
    if r.token.name == EOF then [r.token] else [r.token] + TokensFrom(input, r.next)
  }

  /** A stream ends with its first `EOF`: the last token is `EOF` and no
      earlier one is. */
  lemma {:induction false} StreamEndsAtEof(input: seq<byte>, pos: nat)
    ensures var ts := TokensFrom(input, pos);
            && ts[|ts| - 1].name == EOF
            && forall i :: 0 <= i < |ts| - 1 ==> ts[i].name != EOF
    decreases |input| + 1 - pos
  {
    var r := Lex(input, pos);
    if r.token.name != EOF {
      StreamEndsAtEof(input, r.next);
    }
  }

  /** A call returning a token other than `EOF` contributes its kind to the
      stream, which goes on from where the call left the cursor. */
  lemma NamesStep(input: seq<byte>, pos: nat, t: Token, next: nat)
    requires Lex(input, pos) == Step(t, next) && t.name != EOF
    ensures Names(TokensFrom(input, pos)) == [t.name] + Names(TokensFrom(input, next))
  {
    assert TokensFrom(input, pos) == [t] + TokensFrom(input, next);
    assert ([t] + TokensFrom(input, next))[1..] == TokensFrom(input, next);
  }

  /** A call returning `EOF` ends the stream. */
  lemma NamesLast(input: seq<byte>, pos: nat, t: Token, next: nat)
    requires Lex(input, pos) == Step(t, next) && t.name == EOF
    ensures Names(TokensFrom(input, pos)) == [EOF]
  {
    assert TokensFrom(input, pos) == [t];
  }

  /** The token stream of a whole input, from a freshly made lexer. */
  function Tokenize(input: seq<byte>): seq<Token> {
    TokensFrom(input, 0)
  }

  /** The kinds of a sequence of tokens. */
  function Names(ts: seq<Token>): seq<Name> {
    if ts == [] then [] else [ts[0].name] + Names(ts[1..])
  }

  /** `Names` keeps the order and the number of the tokens. */
  lemma {:induction false} NamesPointwise(ts: seq<Token>)
    ensures |Names(ts)| == |ts| && forall i :: 0 <= i < |ts| ==> Names(ts)[i] == ts[i].name
  {
    if ts != [] {
      NamesPointwise(ts[1..]);
    }
  }
}
