/**
 * Tokens of the Monkey language: the token kinds (`Name`), the raw bytes
 * behind a token (`Literal`), the keyword table and the integer
 * conversion used for digit runs.
 */
module Tokens {
  import opened Bytes

  datatype Option<T> = None | Some(value: T)

  /** A signed 64-bit integer, the payload of an `INT` token. */
  newtype i64 = x: int | -0x8000_0000_0000_0000 <= x <= 0x7fff_ffff_ffff_ffff

  const I64_MAX: int := 0x7fff_ffff_ffff_ffff
  const I64_MIN: int := -0x8000_0000_0000_0000

  /** The kind of a token; `IDENT` and `INT` carry the identifier text and the value. */
  datatype Name =
    // special
    | ILLEGAL | EOF
    // identifiers and literals
    | IDENT(text: string) | INT(value: i64)
    // operators
    | ASSIGN | PLUS | MINUS | BANG | ASTERISK | SLASH
    // comparison
    | EQ | NOTEQ | LT | GT
    // delimiters
    | COMMA | SEMICOLON
    // braces
    | LPAREN | RPAREN | LBRACE | RBRACE
    // keywords
    | FUNCTION | LET | TRUE | FALSE | IF | ELSE | RETURN

  /** The raw bytes a token was read from. */
  datatype Literal = Literal(chars: seq<byte>)
  {
    /** `to_string`: the literal's bytes as text, one character per byte. */
    function ToString(): (s: string)
      requires IsAscii(chars)
      ensures |s| == |chars|
      ensures forall i :: 0 <= i < |chars| ==> s[i] as int == chars[i] as int
    {
      AsciiText(chars)
    }
  }

  /** A token: its kind and the literal bytes behind it. */
  datatype Token = Token(name: Name, literal: Literal)
  {
    /** `is_eof`: the token marks the end of input. */
    predicate IsEof()
      ensures IsEof() <==> name.EOF?
    {
      name == EOF
    }

    /** `is_semicolon`: the token is a `;`. The lexer's token type has no such
        method, although the parser calls one; it is modelled on `IsEof`. */
    predicate IsSemicolon()
      ensures IsSemicolon() <==> name.SEMICOLON?
    {
      name == SEMICOLON
    }
  }

  /** The seven keyword kinds, in the order of the keyword table. */
  const Keywords: seq<Name> := [FUNCTION, LET, TRUE, FALSE, IF, ELSE, RETURN]

  /** The spelling the keyword table gives to a keyword kind. */
  function KeywordSpelling(k: Name): (s: string)
    requires k in Keywords
    ensures IsAsciiText(s) && |s| > 0
    ensures forall i :: 0 <= i < |s| ==> 'a' <= s[i] <= 'z'
  {
    match k
    case FUNCTION => "fn"
    case LET => "let"
    case TRUE => "true"
    case FALSE => "false"
    case IF => "if"
    case ELSE => "else"
    case RETURN => "return"
  }

  /** `lookup_ident`: a keyword kind for a keyword spelling, otherwise an
      identifier carrying the literal's text. */
  function LookupIdent(literal: Literal): (r: Name)
    requires IsAscii(literal.chars)
    ensures r.IDENT? || r in Keywords
    ensures r.IDENT? ==> r.text == literal.ToString()
  {
    var s := literal.ToString();
    if s == "fn" then FUNCTION
    else if s == "let" then LET
    else if s == "true" then TRUE
    else if s == "false" then FALSE
    else if s == "if" then IF
    else if s == "else" then ELSE
    else if s == "return" then RETURN
    else IDENT(s)
  }

  /** `lookup_ident` gives an identifier carrying exactly the literal's text,
      which is then no keyword spelling, or else the keyword so spelled. */
  lemma LookupIdentCases(literal: Literal)
    requires IsAscii(literal.chars)
    ensures var r := LookupIdent(literal);
            && (r.IDENT? ==> r.text == literal.ToString())
            && (r.IDENT? ==> forall k :: k in Keywords ==> KeywordSpelling(k) != r.text)
            && (!r.IDENT? ==> r in Keywords && KeywordSpelling(r) == literal.ToString())
  {
  }

  /** Looking up the spelling of a keyword gives that keyword back. */
  lemma LookupKeyword(k: Name)
    requires k in Keywords
    ensures LookupIdent(Literal(AsciiBytes(KeywordSpelling(k)))) == k
  {
    TextOfBytes(KeywordSpelling(k));
  }

  /** The numeric value of one decimal digit. */
  function DigitValue(d: byte): (v: nat)
    requires IsDigit(d)
    ensures v < 10
  {
    (d - '0' as byte) as int
  }

  /** The value of a digit string read as a decimal number (empty reads as 0). */
  function DecimalValue(ds: seq<byte>): nat
    requires AllDigits(ds)
    decreases |ds|
  {
    if ds == [] then 0 else DecimalValue(ds[..|ds| - 1]) * 10 + DigitValue(ds[|ds| - 1])
  }

  /** The shortest decimal rendering of a natural number. */
  function DecimalDigits(n: nat): (ds: seq<byte>)
    ensures AllDigits(ds) && |ds| > 0
  {
    if n < 10 then [('0' as int + n) as byte]
    else DecimalDigits(n / 10) + [('0' as int + n % 10) as byte]
  }

  /** Reading back a rendering gives the number rendered. */
  lemma {:induction false} DecimalRoundTrip(n: nat)
    ensures DecimalValue(DecimalDigits(n)) == n
  {
    var ds := DecimalDigits(n);
    if n >= 10 {
      DecimalRoundTrip(n / 10);
      assert ds[..|ds| - 1] == DecimalDigits(n / 10);
    }
  }

  /** `k` copies of the digit `0`. */
  function Zeros(k: nat): (zs: seq<byte>)
    ensures |zs| == k && AllDigits(zs)
  {
    if k == 0 then [] else Zeros(k - 1) + ['0' as byte]
  }

  /** Leading zeros do not change the value of a digit string. */
  lemma {:induction false} LeadingZeros(k: nat, ds: seq<byte>)
    requires AllDigits(ds)
    ensures AllDigits(Zeros(k) + ds)
    ensures DecimalValue(Zeros(k) + ds) == DecimalValue(ds)
  {
    var s := Zeros(k) + ds;
    if ds == [] {
      assert s == Zeros(k);
      ZerosValue(k);
    } else {
      assert s[..|s| - 1] == Zeros(k) + ds[..|ds| - 1];
      LeadingZeros(k, ds[..|ds| - 1]);
    }
  }

  lemma {:induction false} ZerosValue(k: nat)
    ensures DecimalValue(Zeros(k)) == 0
  {
    if k > 0 {
      assert Zeros(k)[..k - 1] == Zeros(k - 1);
      ZerosValue(k - 1);
    }
  }

  /** Rust's `str::parse::<i64>` on bytes: an optional `+` or `-`, then one or
      more decimal digits whose value fits in 64 signed bits; anything else fails. */
  function ParseI64(bs: seq<byte>): (r: Option<i64>)
    ensures r.Some? ==> bs != []
    ensures r.Some? ==> forall i :: 0 <= i < |bs| ==>
              IsDigit(bs[i]) || (i == 0 && |bs| > 1 && (bs[0] == '+' as byte || bs[0] == '-' as byte))
    ensures r.Some? && AllDigits(bs) ==> r.value as int == DecimalValue(bs)
  {
    if bs == [] then None
    else
      var signed := bs[0] == '+' as byte || bs[0] == '-' as byte;
      var digits := if signed then bs[1..] else bs;
      if digits == [] || !AllDigits(digits) then None
      else if bs[0] == '-' as byte then
        var magnitude: int := DecimalValue(digits);
        if magnitude <= -I64_MIN then Some((-magnitude) as i64) else None
      else
        if DecimalValue(digits) <= I64_MAX then Some(DecimalValue(digits) as i64) else None
  }

  /** `int_literal`: an `INT` token kind for text that parses as an i64,
      otherwise `ILLEGAL` (the failed parse leaves no value behind). */
  function IntLiteral(literal: Literal): (r: Name)
    requires IsAscii(literal.chars)
    ensures r.INT? || r == ILLEGAL
    ensures literal.chars == [] ==> r == ILLEGAL
  {
    match ParseI64(literal.chars)
    case Some(v) => INT(v)
    case None => ILLEGAL
  }

  /** `int_literal` gives `INT` or `ILLEGAL`; `ILLEGAL` for empty text; and
      for a digit string, `INT` of its value exactly when the value fits. */
  lemma IntLiteralCases(literal: Literal)
    requires IsAscii(literal.chars)
    ensures var r := IntLiteral(literal);
            && (r.INT? || r == ILLEGAL)
            && (literal.chars == [] ==> r == ILLEGAL)
            && (AllDigits(literal.chars) && literal.chars != [] ==>
                  (r.INT? <==> DecimalValue(literal.chars) <= I64_MAX))
            && (AllDigits(literal.chars) && r.INT? ==> r.value as int == DecimalValue(literal.chars))
  {
  }

  /** The rendering of any value in range reads back as that `INT`, and with
      any number of leading zeros too. */
  lemma IntLiteralOfRendering(n: nat, k: nat)
    requires n <= I64_MAX
    ensures IntLiteral(Literal(Zeros(k) + DecimalDigits(n))) == INT(n as i64)
  {
    DecimalRoundTrip(n);
    LeadingZeros(k, DecimalDigits(n));
    IntLiteralCases(Literal(Zeros(k) + DecimalDigits(n)));
  }

  /** A digit string whose value exceeds the i64 maximum is `ILLEGAL`. */
  lemma IntLiteralOverflow(n: nat, k: nat)
    requires n > I64_MAX
    ensures IntLiteral(Literal(Zeros(k) + DecimalDigits(n))) == ILLEGAL
  {
    DecimalRoundTrip(n);
    LeadingZeros(k, DecimalDigits(n));
    IntLiteralCases(Literal(Zeros(k) + DecimalDigits(n)));
  }
}
