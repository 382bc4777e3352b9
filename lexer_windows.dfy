/**
 * Locality of the lexer: a token depends only on the bytes it is read
 * from. A stretch of input that ends in whitespace, or at the end of the
 * input, yields the same tokens inside it whatever surrounds it.
 */
module LexerWindows {
  import opened Bytes
  import opened Tokens
  import opened Lexing
  import opened LexerFacts

  /** `x` holds the bytes of `w` from index `d` on, and `w` ends in
      whitespace or where `x` ends, so no token runs on past it. */
  predicate Holds(x: seq<byte>, w: seq<byte>, d: nat) {
    && d + |w| <= |x|
    && (forall i :: 0 <= i < |w| ==> x[d + i] == w[i])
    && (d + |w| == |x| || (|w| > 0 && IsWhitespace(w[|w| - 1])))
  }

  /** Where `x` holds `w` it shows the same bytes, and past the end of a
      `w` that ends `x` both show the sentinel. */
  lemma CharWindow(x: seq<byte>, w: seq<byte>, d: nat, k: nat)
    requires Holds(x, w, d) && (k < |w| || d + |w| == |x|)
    ensures CharAt(x, d + k) == CharAt(w, k)
  {
  }

  /** A run of `f` that stops inside `w`, or at its end when `w` ends `x`,
      is the same run, moved along, in `x`. */
  lemma {:induction false} RunEndWindow(x: seq<byte>, w: seq<byte>, d: nat, k: nat, f: byte -> bool)
    requires Holds(x, w, d) && !f(0)
    requires RunEnd(w, k, f) < |w| || d + |w| == |x|
    ensures RunEnd(x, d + k, f) == d + RunEnd(w, k, f)
    decreases |w| - k
  {
    if k < |w| || d + |w| == |x| {
      CharWindow(x, w, d, k);
    }
    if f(CharAt(w, k)) {
      RunEndWindow(x, w, d, k + 1, f);
    }
  }

  /** The bytes of a stretch of `w` are the bytes of that stretch of `x`. */
  lemma SliceWindow(x: seq<byte>, w: seq<byte>, d: nat, q: nat, r: nat)
    requires Holds(x, w, d) && q <= r <= |w|
    ensures x[d + q..d + r] == w[q..r]
  {
    forall i | 0 <= i < r - q ensures x[d + q..d + r][i] == w[q..r][i] {
      assert x[d + q..d + r][i] == x[d + (q + i)];
    }
  }

  /** A letter run of `w` is the same word in `x`. */
  lemma WordWindow(x: seq<byte>, w: seq<byte>, d: nat, q: nat)
    requires Holds(x, w, d) && q < |w| && IsLetter(w[q])
    ensures IsLetter(CharAt(x, d + q))
    ensures Word(x, d + q) == Step(Word(w, q).token, d + Word(w, q).next)
  {
    CharWindow(x, w, d, q);
    var r := RunEnd(w, q, IsLetter);
    RunEndInside(w, q, IsLetter);
    RunEndWindow(x, w, d, q, IsLetter);
    SliceWindow(x, w, d, q, r);
  }

  /** A digit run of `w` is the same number in `x`. */
  lemma NumberWindow(x: seq<byte>, w: seq<byte>, d: nat, q: nat)
    requires Holds(x, w, d) && q < |w| && IsDigit(w[q])
    ensures IsDigit(CharAt(x, d + q))
    ensures Number(x, d + q) == Step(Number(w, q).token, d + Number(w, q).next)
  {
    CharWindow(x, w, d, q);
    var r := RunEnd(w, q, IsDigit);
    RunEndInside(w, q, IsDigit);
    RunEndWindow(x, w, d, q, IsDigit);
    SliceWindow(x, w, d, q, r);
  }

  /** Scanning a byte of `w` that is no whitespace is scanning it in `x`. */
  lemma ScanWindow(x: seq<byte>, w: seq<byte>, d: nat, q: nat)
    requires Holds(x, w, d) && q < |w| && !IsWhitespace(w[q])
    ensures Scan(x, d + q) == Step(Scan(w, q).token, d + Scan(w, q).next)
  {
    CharWindow(x, w, d, q);
    CharWindow(x, w, d, q + 1);
    if IsLetter(w[q]) {
      WordWindow(x, w, d, q);
    } else if IsDigit(w[q]) {
      NumberWindow(x, w, d, q);
    }
  }

  /** A token that `w` yields on its own is yielded, moved along, by every
      input that holds `w`. */
  lemma LexWindow(x: seq<byte>, w: seq<byte>, d: nat, k: nat)
    requires Holds(x, w, d)
    requires CharAt(w, SkipEnd(w, k)) != 0
    ensures Lex(x, d + k) == Step(Lex(w, k).token, d + Lex(w, k).next)
  {
    var q := SkipEnd(w, k);
    SkipWindow(x, w, d, k);
    assert Lex(x, d + k) == Scan(x, d + q);
    ScanWindow(x, w, d, q);
  }

  /** Skipping whitespace inside `w` up to a byte that is no sentinel
      skips the same bytes in `x`. */
  lemma SkipWindow(x: seq<byte>, w: seq<byte>, d: nat, k: nat)
    requires Holds(x, w, d)
    requires CharAt(w, SkipEnd(w, k)) != 0
    ensures SkipEnd(w, k) < |w| && !IsWhitespace(w[SkipEnd(w, k)])
    ensures SkipEnd(x, d + k) == d + SkipEnd(w, k)
  {
    RunEndWindow(x, w, d, k, IsWhitespace);
  }

  /** Whitespace up to the end of `w` is skipped on into what follows `w`. */
  lemma {:induction false} SkipAcrossSpace(x: seq<byte>, w: seq<byte>, d: nat, k: nat)
    requires Holds(x, w, d) && k <= |w|
    requires forall i :: k <= i < |w| ==> IsWhitespace(w[i])
    ensures SkipEnd(x, d + k) == SkipEnd(x, d + |w|)
    decreases |w| - k
  {
    if k < |w| {
      CharWindow(x, w, d, k);
      SkipAcrossSpace(x, w, d, k + 1);
    }
  }

  /** Two cursor positions with the same whitespace ahead give the same call. */
  lemma LexAfterSkip(x: seq<byte>, p: nat, q: nat)
    requires SkipEnd(x, p) == SkipEnd(x, q)
    ensures Lex(x, p) == Lex(x, q)
  {
  }

  /** Every input holds itself. */
  lemma HoldsSelf(x: seq<byte>)
    ensures Holds(x, x, 0)
  {
  }

  /** `a + b` holds `b` after `a`, where `b` ends the input. */
  lemma HoldsLast(a: seq<byte>, b: seq<byte>)
    ensures Holds(a + b, b, |a|)
  {
  }

  /** What `a` holds, ending in whitespace, `a + b` holds too. */
  lemma HoldsExtend(a: seq<byte>, b: seq<byte>, w: seq<byte>, d: nat)
    requires Holds(a, w, d) && |w| > 0 && IsWhitespace(w[|w| - 1])
    ensures Holds(a + b, w, d)
  {
  }

  /** The front part of a held window, ending in whitespace, is held. */
  lemma HoldsLeft(x: seq<byte>, a: seq<byte>, b: seq<byte>, d: nat)
    requires Holds(x, a + b, d) && |a| > 0 && IsWhitespace(a[|a| - 1])
    ensures Holds(x, a, d)
  {
    assert forall i :: 0 <= i < |a| ==> (a + b)[i] == a[i];
  }

  /** The back part of a held window is held, right after the front part. */
  lemma HoldsRight(x: seq<byte>, a: seq<byte>, b: seq<byte>, d: nat)
    requires Holds(x, a + b, d) && |b| > 0
    ensures Holds(x, b, d + |a|)
  {
    assert forall i :: 0 <= i < |b| ==> (a + b)[|a| + i] == b[i];
  }
}
