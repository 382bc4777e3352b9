/**
 * Whitespace between tokens does not matter: replacing one non-empty run
 * of spaces, tabs, line feeds and carriage returns by another leaves the
 * token stream unchanged. No run of letters or digits crosses whitespace,
 * and the byte `=` and `!` look ahead at is whitespace, never `=`.
 */
module LexerSpacing {
  import opened Bytes
  import opened Tokens
  import opened Lexing
  import opened LexerFacts
  import opened LexerWindows

  /** Every byte of `w` is whitespace. */
  predicate AllWhitespace(w: seq<byte>) {
    forall i :: 0 <= i < |w| ==> IsWhitespace(w[i])
  }

  /** `x` and `y` hold the same bytes below `e`, and whitespace at `e`. */
  predicate Agree(x: seq<byte>, y: seq<byte>, e: nat) {
    && e < |x| && e < |y|
    && (forall i :: 0 <= i < e ==> x[i] == y[i])
    && IsWhitespace(x[e]) && IsWhitespace(y[e])
  }

  /** A run that stops at whitespace ends at the same place in both inputs,
      and no later than `e`. */
  lemma {:induction false} RunEndAgree(x: seq<byte>, y: seq<byte>, e: nat, k: nat, f: byte -> bool)
    requires Agree(x, y, e) && k <= e && !f(0) && !f(x[e]) && !f(y[e])
    ensures RunEnd(x, k, f) == RunEnd(y, k, f) <= e
    decreases e - k
  {
    if k < e {
      assert CharAt(x, k) == CharAt(y, k);
      if f(x[k]) {
        RunEndAgree(x, y, e, k + 1, f);
      }
    }
  }

  /** A token that starts below `e` is the same token in both inputs, and
      ends no later than `e`. */
  lemma ScanAgree(x: seq<byte>, y: seq<byte>, e: nat, s: nat)
    requires Agree(x, y, e) && s < e
    ensures Scan(x, s) == Scan(y, s) && Scan(x, s).next <= e
  {
    var c := x[s];
    assert CharAt(x, s) == c == CharAt(y, s);
    if IsLetter(c) {
      RunEndAgree(x, y, e, s, IsLetter);
      var q := RunEnd(x, s, IsLetter);
      assert x[s..q] == y[s..q];
    } else if IsDigit(c) {
      RunEndAgree(x, y, e, s, IsDigit);
      var q := RunEnd(x, s, IsDigit);
      assert x[s..q] == y[s..q];
    } else if s + 1 < e {
      assert CharAt(x, s + 1) == CharAt(y, s + 1);
    } else {
      assert CharAt(x, s + 1) != '=' as byte && CharAt(y, s + 1) != '=' as byte;
    }
  }

  /** Skipping whitespace from `p` goes on past any whitespace up to `q`. */
  lemma {:induction false} SkipThrough(x: seq<byte>, p: nat, q: nat)
    requires p <= q && forall i :: p <= i < q ==> IsWhitespace(CharAt(x, i))
    ensures SkipEnd(x, p) == SkipEnd(x, q)
    decreases q - p
  {
    if p < q {
      assert IsWhitespace(CharAt(x, p));
      assert RunEnd(x, p, IsWhitespace) == RunEnd(x, p + 1, IsWhitespace);
      SkipThrough(x, p + 1, q);
    }
  }

  /** A call from inside `b`, which ends `x`, reads `b` alone, whatever
      comes before it. */
  lemma LexSuffix(x: seq<byte>, b: seq<byte>, d: nat, k: nat)
    requires Holds(x, b, d) && d + |b| == |x|
    ensures Lex(x, d + k) == Step(Lex(b, k).token, d + Lex(b, k).next)
  {
    RunEndWindow(x, b, d, k, IsWhitespace);
    var q := SkipEnd(b, k);
    CharWindow(x, b, d, q);
    if CharAt(b, q) != 0 {
      ScanWindow(x, b, d, q);
    }
  }

  /** One call, returning `t` and leaving the cursor at `n`, heads the stream. */
  lemma TokensCons(input: seq<byte>, pos: nat, t: Token, n: nat)
    requires Lex(input, pos) == Step(t, n)
    ensures t.name == EOF ==> TokensFrom(input, pos) == [t]
    ensures t.name != EOF ==> TokensFrom(input, pos) == [t] + TokensFrom(input, n)
  {
  }

  /** Every call from inside `b`, placed at `d` in `x`, returns what it
      returns on `b` alone, with the cursor moved by `d`. */
  ghost predicate Shifted(x: seq<byte>, b: seq<byte>, d: nat) {
    forall j: nat :: Lex(x, d + j) == Step(Lex(b, j).token, d + Lex(b, j).next)
  }

  /** A `b` that ends `x` is read from inside `x` as it is alone. */
  lemma ShiftedSuffix(x: seq<byte>, b: seq<byte>, d: nat)
    requires Holds(x, b, d) && d + |b| == |x|
    ensures Shifted(x, b, d)
  {
    forall j: nat
      ensures Lex(x, d + j) == Step(Lex(b, j).token, d + Lex(b, j).next)
    {
      LexSuffix(x, b, d, j);
    }
  }

  /** The tokens drawn from inside `b`, at `k` in `b` and so at `p` in `x`,
      are those of `b` alone. */
  lemma {:induction false} TokensShifted(x: seq<byte>, b: seq<byte>, d: nat, k: nat, p: nat)
    requires Shifted(x, b, d) && p == d + k
    ensures TokensFrom(x, p) == TokensFrom(b, k)
    decreases |b| + 1 - k
  {
    var r := Lex(b, k);
    var n := d + r.next;
    assert Lex(x, p) == Step(r.token, n);
    TokensCons(b, k, r.token, r.next);
    TokensCons(x, p, r.token, n);
    if r.token.name != EOF {
      TokensShifted(x, b, d, r.next, n);
    }
  }

  /** Two cursors whose first calls agree draw the same tokens. */
  lemma SameStart(input: seq<byte>, p: nat, q: nat)
    requires Lex(input, p) == Lex(input, q)
    ensures TokensFrom(input, p) == TokensFrom(input, q)
  {
    var r := Lex(input, p);
    TokensCons(input, p, r.token, r.next);
    TokensCons(input, q, r.token, r.next);
  }

  /** A cursor before whitespace up to `q` draws the tokens drawn from `q`. */
  lemma SkipTokens(x: seq<byte>, p: nat, q: nat)
    requires p <= q && forall i :: p <= i < q ==> IsWhitespace(CharAt(x, i))
    ensures TokensFrom(x, p) == TokensFrom(x, q)
  {
    SkipThrough(x, p, q);
    assert Lex(x, p) == Lex(x, q);
    SameStart(x, p, q);
  }

  /** A `b` that ends `x` draws, from its start inside `x`, its own tokens. */
  lemma TokensSuffix(x: seq<byte>, b: seq<byte>, d: nat)
    requires Holds(x, b, d) && d + |b| == |x|
    ensures TokensFrom(x, d) == TokensFrom(b, 0)
  {
    ShiftedSuffix(x, b, d);
    TokensShifted(x, b, d, 0, d);
  }

  /** A cursor at `d`, before `n` bytes of whitespace and then `b`, which
      ends `x`, draws the tokens of `b`. */
  lemma WhitespaceRun(x: seq<byte>, d: nat, n: nat, b: seq<byte>)
    requires forall i :: d <= i < d + n ==> IsWhitespace(CharAt(x, i))
    requires Holds(x, b, d + n) && d + n + |b| == |x|
    ensures TokensFrom(x, d) == TokensFrom(b, 0)
  {
    SkipTokens(x, d, d + n);
    TokensSuffix(x, b, d + n);
  }

  /** From any cursor up to `e`, the two inputs draw the same tokens, given
      that they do from `e`. */
  lemma {:induction false} PrefixPart(x: seq<byte>, y: seq<byte>, e: nat, p: nat)
    requires Agree(x, y, e) && p <= e
    requires TokensFrom(x, e) == TokensFrom(y, e)
    ensures TokensFrom(x, p) == TokensFrom(y, p)
    decreases e - p
  {
    var s := SkipEnd(x, p);
    SkipsOnlyWhitespace(x, p);
    if s < e {
      forall i | p <= i <= s
        ensures CharAt(y, i) == CharAt(x, i)
      {
      }
      RunEndAt(y, p, s, IsWhitespace);
      ScanAgree(x, y, e, s);
      var r := Lex(x, p);
      assert r == Lex(y, p);
      if r.token.name != EOF {
        PrefixPart(x, y, e, r.next);
      }
    } else {
      forall i | p <= i < e
        ensures IsWhitespace(CharAt(x, i)) && IsWhitespace(CharAt(y, i))
      {
        assert y[i] == x[i];
      }
      SkipThrough(x, p, e);
      SkipThrough(y, p, e);
      assert Lex(x, p) == Lex(x, e) && Lex(y, p) == Lex(y, e);
    }
  }

  /** In `a + w + b`, the bytes of `w` stand after `a`, and `b` ends the input. */
  lemma Spaced(a: seq<byte>, w: seq<byte>, b: seq<byte>)
    requires AllWhitespace(w)
    ensures forall i :: |a| <= i < |a| + |w| ==> IsWhitespace(CharAt(a + w + b, i))
    ensures Holds(a + w + b, b, |a| + |w|)
  {
    var x := a + w + b;
    forall i | |a| <= i < |a| + |w|
      ensures IsWhitespace(CharAt(x, i))
    {
      assert x[i] == w[i - |a|];
    }
    HoldsLast(a + w, b);
  }

  /** Any non-empty run of whitespace between two stretches of input may
      be replaced by any other without changing the token stream. */
  lemma SpacingInvariance(a: seq<byte>, w1: seq<byte>, w2: seq<byte>, b: seq<byte>)
    requires |w1| > 0 && |w2| > 0 && AllWhitespace(w1) && AllWhitespace(w2)
    ensures Tokenize(a + w1 + b) == Tokenize(a + w2 + b)
  {
    var x := a + w1 + b;
    var y := a + w2 + b;
    assert x[|a|] == w1[0] && y[|a|] == w2[0];
    assert Agree(x, y, |a|);
    Spaced(a, w1, b);
    Spaced(a, w2, b);
    WhitespaceRun(x, |a|, |w1|, b);
    WhitespaceRun(y, |a|, |w2|, b);
    PrefixPart(x, y, |a|, 0);
  }
}
