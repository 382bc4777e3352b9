/**
 * Raw bytes of the source text and the ASCII facts the lexer and the
 * integer parser rely on.
 */
module Bytes {

  /** An unsigned 8-bit value, the element type of the lexer's input. */
  newtype byte = b: int | 0 <= b < 256

  /** True when every byte is 7-bit ASCII. */
  predicate IsAscii(bs: seq<byte>) {
    forall i :: 0 <= i < |bs| ==> bs[i] < 128
  }

  /** True when every character of `s` is 7-bit ASCII. */
  predicate IsAsciiText(s: string) {
    forall i :: 0 <= i < |s| ==> s[i] as int < 128
  }

  /** The bytes of an ASCII string: each character becomes its code. */
  function AsciiBytes(s: string): (bs: seq<byte>)
    requires IsAsciiText(s)
    ensures |bs| == |s|
    ensures forall i :: 0 <= i < |s| ==> bs[i] as int == s[i] as int
    ensures IsAscii(bs)
  {
    seq(|s|, i requires 0 <= i < |s| => s[i] as int as byte)
  }

  /** The text of ASCII bytes: each byte becomes the character with that code. */
  function AsciiText(bs: seq<byte>): (s: string)
    requires IsAscii(bs)
    ensures |s| == |bs|
    ensures forall i :: 0 <= i < |bs| ==> s[i] as int == bs[i] as int
    ensures IsAsciiText(s)
  {
    seq(|bs|, i requires 0 <= i < |bs| => bs[i] as int as char)
  }

  /** Decoding the encoding of an ASCII string gives the string back. */
  lemma TextOfBytes(s: string)
    requires IsAsciiText(s)
    ensures AsciiText(AsciiBytes(s)) == s
  {
    var t := AsciiText(AsciiBytes(s));
    assert |t| == |s|;
    forall i | 0 <= i < |s| ensures t[i] == s[i] {
      assert t[i] as int == s[i] as int;
    }
  }

  /** Encoding the text of ASCII bytes gives the bytes back. */
  lemma BytesOfText(bs: seq<byte>)
    requires IsAscii(bs)
    ensures AsciiBytes(AsciiText(bs)) == bs
  {
    var t := AsciiBytes(AsciiText(bs));
    assert |t| == |bs|;
    forall i | 0 <= i < |bs| ensures t[i] == bs[i] {
      assert t[i] as int == bs[i] as int;
    }
  }

  /** `is_digit`: an ASCII decimal digit `0`..`9`. */
  predicate IsDigit(ch: byte)
    ensures IsDigit(ch) ==> 0 < ch < 128
  {
    '0' as byte <= ch <= '9' as byte
  }

  /** True when every byte is a decimal digit. */
  predicate AllDigits(bs: seq<byte>) {
    forall i :: 0 <= i < |bs| ==> IsDigit(bs[i])
  }
}
