/**
 * The lexer: a cursor over the input bytes that hands out one token per
 * call. `Lex` states, as a function of the input and the cursor position,
 * which token one call returns and where the cursor is left; the class
 * `Lexer` is the cursor itself, and its methods are proved to follow `Lex`.
 */
module Lexing {
  import opened Bytes
  import opened Tokens

  /** The byte the cursor sees at index `i`: past the end it is the sentinel 0. */
  function CharAt(input: seq<byte>, i: nat): byte {
    if i < |input| then input[i] else 0
  }

  /** `is_letter`: an ASCII letter or underscore (digits are not letters). */
  predicate IsLetter(ch: byte)
    ensures IsLetter(ch) ==> 0 < ch < 128 && !IsDigit(ch)
  {
    'a' as byte <= ch <= 'z' as byte || 'A' as byte <= ch <= 'Z' as byte || ch == '_' as byte
  }

  /** The bytes `skip_whitespace` passes over: space, tab, line feed, carriage return. */
  predicate IsWhitespace(ch: byte)
    ensures IsWhitespace(ch) ==> 0 < ch < 128 && !IsLetter(ch) && !IsDigit(ch)
  {
    ch == ' ' as byte || ch == '\t' as byte || ch == '\n' as byte || ch == '\r' as byte
  }

  /** Where a maximal run of bytes satisfying `f` that starts at `p` ends.
      Since `f` rejects the sentinel, the run never extends past the input. */
  function RunEnd(input: seq<byte>, p: nat, f: byte -> bool): (q: nat)
    requires !f(0)
    ensures p <= q
    ensures q == p || q <= |input|
    ensures !f(CharAt(input, q))
    decreases |input| - p
  {
    if f(CharAt(input, p)) then RunEnd(input, p + 1, f) else p
  }

  /** Every byte of the run satisfies `f`: with the stopping byte, the run is maximal. */
  lemma {:induction false} RunEndInside(input: seq<byte>, p: nat, f: byte -> bool)
    requires !f(0)
    ensures forall i :: p <= i < RunEnd(input, p, f) ==> i < |input| && f(input[i])
    decreases |input| - p
  {
    if f(CharAt(input, p)) {
      assert p < |input| && f(input[p]);
      assert RunEnd(input, p, f) == RunEnd(input, p + 1, f);
      RunEndInside(input, p + 1, f);
    } else {
      assert RunEnd(input, p, f) == p;
    }
  }

  /** Conversely, a position `q` reached from `p` through bytes satisfying
      `f`, and holding a byte that does not, is where the run ends. */
  lemma {:induction false} RunEndAt(input: seq<byte>, p: nat, q: nat, f: byte -> bool)
    requires !f(0) && p <= q
    requires forall i :: p <= i < q ==> f(CharAt(input, i))
    requires !f(CharAt(input, q))
    ensures RunEnd(input, p, f) == q
    decreases q - p
  {
    if p < q {
      assert f(CharAt(input, p));
      RunEndAt(input, p + 1, q, f);
    }
  }

  /** Where `skip_whitespace` leaves the cursor when it starts at `pos`. */
  function SkipEnd(input: seq<byte>, pos: nat): (q: nat)
    ensures pos <= q && !IsWhitespace(CharAt(input, q))
    ensures q == pos || q <= |input|
  {
    RunEnd(input, pos, IsWhitespace)
  }

  /** The kinds of the fixed one-byte symbols other than `=` and `!`. */
  function SymbolName(c: byte): (r: Option<Name>)
    ensures r.Some? ==> c != 0 && !IsLetter(c) && !IsDigit(c) && !IsWhitespace(c)
    ensures r.Some? ==> c != '=' as byte && c != '!' as byte
  {
    if c == '+' as byte then Some(PLUS)
    else if c == '-' as byte then Some(MINUS)
    else if c == '*' as byte then Some(ASTERISK)
    else if c == '/' as byte then Some(SLASH)
    else if c == '<' as byte then Some(LT)
    else if c == '>' as byte then Some(GT)
    else if c == '(' as byte then Some(LPAREN)
    else if c == ')' as byte then Some(RPAREN)
    else if c == '{' as byte then Some(LBRACE)
    else if c == '}' as byte then Some(RBRACE)
    else if c == ',' as byte then Some(COMMA)
    else if c == ';' as byte then Some(SEMICOLON)
    else None
  }

  /** The outcome of one `next_token` call: the token and the new cursor position. */
  datatype Step = Step(token: Token, next: nat)

  /** The token of a byte that is the end-of-input sentinel, `=`, `!` or a
      fixed symbol, given that byte `c` at `p` and the byte `d` after it. */
  function Punct(c: byte, d: byte, p: nat): (r: Step)
    requires c == 0 || c == '=' as byte || c == '!' as byte || SymbolName(c).Some?
    ensures r.token.name == EOF <==> c == 0
    ensures || (r.token.literal.chars == [c] && r.next == p + 1)
            || (r.token.literal.chars == [c, d] && d == '=' as byte && r.next == p + 2)
  {
    var single := Literal([c]);
    if c == 0 then Step(Token(EOF, single), p + 1)
    else if c == '=' as byte then
      if d == '=' as byte then Step(Token(EQ, Literal([c, d])), p + 2)
      else Step(Token(ASSIGN, single), p + 1)
    else if c == '!' as byte then
      if d == '=' as byte then Step(Token(NOTEQ, Literal([c, d])), p + 2)
      else Step(Token(BANG, single), p + 1)
    else Step(Token(SymbolName(c).value, single), p + 1)
  }

  /** The token of the maximal letter run at `p`: a keyword or an identifier. */
  function Word(input: seq<byte>, p: nat): (r: Step)
    requires IsLetter(CharAt(input, p))
    ensures p < r.next <= |input| && r.next == RunEnd(input, p, IsLetter)
    ensures r.token.name != EOF
  {
    var q := RunEnd(input, p, IsLetter);
    RunEndInside(input, p, IsLetter);
    Step(WordToken(input[p..q]), q)
  }

  /** The token of the letters `chars`, looked up in the keyword table. */
  function WordToken(chars: seq<byte>): (t: Token)
    requires forall i :: 0 <= i < |chars| ==> IsLetter(chars[i])
    ensures t.literal.chars == chars && t.name != EOF
  {
    assert IsAscii(chars) by {
      forall i | 0 <= i < |chars| ensures chars[i] < 128 {
        assert IsLetter(chars[i]);
      }
    }
    Token(LookupIdent(Literal(chars)), Literal(chars))
  }

  /** The token of the maximal digit run at `p`: an integer, or `ILLEGAL`
      when it does not fit. */
  function Number(input: seq<byte>, p: nat): (r: Step)
    requires IsDigit(CharAt(input, p))
    ensures p < r.next <= |input| && r.next == RunEnd(input, p, IsDigit)
    ensures r.token.name != EOF
  {
    var q := RunEnd(input, p, IsDigit);
    RunEndInside(input, p, IsDigit);
    Step(NumberToken(input[p..q]), q)
  }

  /** The token of the digits `chars`, converted to an integer. */
  function NumberToken(chars: seq<byte>): (t: Token)
    requires AllDigits(chars)
    ensures t.literal.chars == chars && t.name != EOF
  {
    assert IsAscii(chars);
    Token(IntLiteral(Literal(chars)), Literal(chars))
  }

  /** Classifying the byte at `p` (whitespace already skipped): the token
      that starts there and the position after it. */
  function Scan(input: seq<byte>, p: nat): (r: Step)
    ensures |r.token.literal.chars| > 0
    ensures r.next == p + |r.token.literal.chars|
    ensures r.token.name != EOF ==> r.next <= |input|
    ensures r.token.name == EOF <==> CharAt(input, p) == 0
  {
    var c := CharAt(input, p);
    if c == 0 || c == '=' as byte || c == '!' as byte || SymbolName(c).Some? then
      Punct(c, CharAt(input, p + 1), p)
    else if IsLetter(c) then Word(input, p)
    else if IsDigit(c) then Number(input, p)
    else Step(Token(ILLEGAL, Literal([c])), p + 1)
  }

  /** The token's literal is exactly the bytes consumed, except for the
      end-of-input token past the end, whose literal is the sentinel. */
  lemma ScanLiteral(input: seq<byte>, p: nat)
    ensures var r := Scan(input, p);
            r.token.name != EOF ==> input[p..r.next] == r.token.literal.chars
  {
    var c := CharAt(input, p);
    if c != 0 && c != '=' as byte && c != '!' as byte && SymbolName(c).None? && !IsLetter(c) && !IsDigit(c) {
      assert input[p..p + 1] == [c];
    } else if c != 0 && !IsLetter(c) && !IsDigit(c) {
      var r := Scan(input, p);
      if r.next == p + 1 {
        assert input[p..p + 1] == [c];
      } else {
        assert input[p..p + 2] == [c, CharAt(input, p + 1)];
      }
    }
  }

  /** One `next_token` call from cursor position `pos`: skip whitespace, then scan. */
  function Lex(input: seq<byte>, pos: nat): (r: Step)
    ensures r.next > pos
    ensures r.token.name != EOF ==> r.next <= |input|
  {
    Scan(input, SkipEnd(input, pos))
  }

  /** The cursor state of the lexer: `position` is the index of `ch`, and
      `read_position` the index of the byte after it. */
  class Lexer {
    const input: seq<byte>
    var position: nat
    var readPosition: nat
    var ch: byte

    /** The cursor invariant established by `new` and by every `read_char`. */
    ghost predicate Valid()
      reads this
    {
      readPosition == position + 1 && ch == CharAt(input, position)
    }

    /** `new`: the cursor on the first byte (or the sentinel, for empty input). */
    constructor (input: seq<byte>)
      ensures Valid()
      ensures this.input == input && position == 0
    {
      this.input := input;
      position, readPosition, ch := 0, 0, 0;
      new;
      var _ := ReadChar();
    }

    /** `read_char`: move the cursor to `read_position` and return the byte there. */
    method ReadChar() returns (c: byte)
      modifies this
      ensures Valid()
      ensures position == old(readPosition) && c == ch
    {
      ch := if readPosition >= |input| then 0 else input[readPosition];
      position := readPosition;
      readPosition := readPosition + 1;
      c := ch;
    }

    /** `peek_char`: the byte after the cursor, without moving it. */
    method PeekChar() returns (c: byte)
      requires Valid()
      ensures c == CharAt(input, position + 1)
    {
      c := if readPosition >= |input| then 0 else input[readPosition];
    }

    /** `skip_whitespace`: move the cursor past a run of whitespace. */
    method SkipWhitespace()
      requires Valid()
      modifies this
      ensures Valid()
      ensures position == SkipEnd(input, old(position))
    {
      while ch == ' ' as byte || ch == '\t' as byte || ch == '\n' as byte || ch == '\r' as byte
        invariant Valid()
        invariant SkipEnd(input, position) == SkipEnd(input, old(position))
        decreases |input| - position
      {
        var _ := ReadChar();
      }
    }

    /** `read_chars`: collect the bytes of the run satisfying `f` at the cursor,
        leaving the cursor on the first byte after it. */
    method ReadChars(f: byte -> bool) returns (literal: Literal)
      requires Valid() && !f(0)
      modifies this
      ensures Valid()
      ensures position == RunEnd(input, old(position), f)
      ensures position > old(position) ==> literal.chars == input[old(position)..position]
      ensures position == old(position) ==> literal.chars == []
    {
      var chars: seq<byte> := [];
      while f(ch)
        invariant Valid()
        invariant old(position) <= position
        invariant RunEnd(input, position, f) == RunEnd(input, old(position), f)
        invariant position > old(position) ==> position <= |input| && chars == input[old(position)..position]
        invariant position == old(position) ==> chars == []
        decreases |input| - position
      {
        chars := chars + [ch];
        var _ := ReadChar();
      }
      literal := Literal(chars);
    }

    /** `next_token`: skip whitespace, classify the byte at the cursor and
        return its token, leaving the cursor after the bytes it consumed. */
    method NextToken() returns (token: Token)
      requires Valid()
      modifies this
      ensures Valid()
      ensures Lex(input, old(position)) == Step(token, position)
    {
      SkipWhitespace();
      ghost var p := position;
      assert Lex(input, old(position)) == Scan(input, p);
      var literal := Literal([ch]);
      if ch == 0 {
        token := Token(EOF, literal);
      } else if ch == '=' as byte {
        var peek := PeekChar();
        if peek == '=' as byte {
          var first := ch;
          var second := ReadChar();
          token := Token(EQ, Literal([first, second]));
        } else {
          token := Token(ASSIGN, literal);
        }
      } else if ch == '!' as byte {
        var peek := PeekChar();
        if peek == '=' as byte {
          var first := ch;
          var second := ReadChar();
          token := Token(NOTEQ, Literal([first, second]));
        } else {
          token := Token(BANG, literal);
        }
      } else if SymbolName(ch).Some? {
        token := Token(SymbolName(ch).value, literal);
      } else if IsLetter(ch) {
        var run := ReadChars(IsLetter);
        RunEndInside(input, p, IsLetter);
        assert IsAscii(run.chars);
        token := Token(LookupIdent(run), run);
        return;
      } else if IsDigit(ch) {
        var run := ReadChars(IsDigit);
        RunEndInside(input, p, IsDigit);
        assert IsAscii(run.chars);
        token := Token(IntLiteral(run), run);
        return;
      } else {
        token := Token(ILLEGAL, literal);
      }
      var _ := ReadChar();
    }
  }
}
