/**
 * The parser: a current token and a one-token lookahead drawn from a
 * lexer. The functions over `PState` say what each parsing step does as a
 * function of the input and the state it starts from; the class `Parser`
 * holds the lexer and the two tokens, and its methods are proved to follow
 * those functions.
 *
 * The loop in `parse_let_statement` that skips to the next `;` never ends
 * when no `;` follows: the lexer then hands out `EOF` forever. The model
 * gives such a parse the outcome `Diverges`, reached as soon as the current
 * token is an `EOF` and the lexer has passed the end of the input, after
 * which every token is `EOF` again.
 */
module Parsing {
  import opened Bytes
  import opened Tokens
  import opened Lexing
  import opened LexerFacts
  import opened Ast

  /** What the parser holds between calls: the current token, the
      lookahead, and the position of the lexer it draws from. */
  datatype PState = PState(token: Token, peek: Token, pos: nat)

  /** The two checks of `parse_let_statement` that panic, each with the
      kind of token found instead. */
  datatype ParseError = ExpectedIdent(got: Name) | ExpectedAssign(got: Name)

  /** How a parse ends: with its result and the parser's state after it,
      with one of the panics, or never. */
  datatype Outcome<T> = Ok(value: T, state: PState) | Fatal(error: ParseError) | Diverges

  /** `Parser::new` on a lexer at `pos`: the first two tokens it hands out. */
  function Start(input: seq<byte>, pos: nat): (s: PState)
    ensures s.pos >= pos + 2
    ensures pos >= |input| ==> s.token.name == EOF && s.peek.name == EOF
  {
    var first := Lex(input, pos);
    var second := Lex(input, first.next);
    PState(first.token, second.token, second.next)
  }

  /** `next_token`: the lookahead becomes the current token, and a fresh
      lookahead is drawn from the lexer. */
  function Advance(input: seq<byte>, s: PState): (r: PState)
    ensures r.token == s.peek && r.pos > s.pos
    ensures s.pos >= |input| ==> r.peek.name == EOF && r.pos == s.pos + 1
  {
    var r := Lex(input, s.pos);
    PState(s.peek, r.token, r.next)
  }

  /** The state after `n` calls of `next_token`. */
  function AdvanceN(input: seq<byte>, s: PState, n: nat): PState
    decreases n
  {
    if n == 0 then s else AdvanceN(input, Advance(input, s), n - 1)
  }

  /** The states the parser can be in: both tokens came from the lexer, so
      an identifier token carries its own text, and a lexer that has gone
      past the end has just handed out `EOF`. */
  predicate Drawn(input: seq<byte>, s: PState) {
    && IdentifierReady(s.token)
    && IdentifierReady(s.peek)
    && (s.pos > |input| ==> s.peek.name == EOF)
  }

  /** The parser's state after `new` is such a state, as is every state
      `next_token` leads to from one. */
  lemma StartDrawn(input: seq<byte>, pos: nat)
    ensures Drawn(input, Start(input, pos))
  {
    LexedIdentifier(input, pos);
    LexedIdentifier(input, Lex(input, pos).next);
  }

  lemma AdvanceDrawn(input: seq<byte>, s: PState)
    requires Drawn(input, s)
    ensures Drawn(input, Advance(input, s))
  {
    LexedIdentifier(input, s.pos);
  }

  /** `new` on a fresh lexer holds the first two tokens of the input's
      token stream (only one, `EOF`, when the stream ends at once). */
  lemma StartTokens(input: seq<byte>)
    ensures Start(input, 0).token == Tokenize(input)[0]
    ensures Start(input, 0).token.name != EOF ==>
              |Tokenize(input)| > 1 && Start(input, 0).peek == Tokenize(input)[1]
  {
    var r := Lex(input, 0);
    if r.token.name != EOF {
      assert Tokenize(input) == [r.token] + TokensFrom(input, r.next);
    }
  }

  /** The current token is an `EOF` and the lexer has passed the end of the
      input: from here on it hands out nothing else. */
  predicate Exhausted(input: seq<byte>, s: PState) {
    s.token.name == EOF && s.pos > |input|
  }

  /** An exhausted state stays exhausted, whatever number of tokens is drawn. */
  lemma {:induction false} ExhaustedForever(input: seq<byte>, s: PState, n: nat)
    requires Drawn(input, s) && Exhausted(input, s)
    ensures Drawn(input, AdvanceN(input, s, n)) && Exhausted(input, AdvanceN(input, s, n))
    decreases n
  {
    if n > 0 {
      LexAtEnd(input, s.pos);
      AdvanceDrawn(input, s);
      ExhaustedForever(input, Advance(input, s), n - 1);
    }
  }

  /** A bound on what is left to draw: it falls with every `next_token`
      call, unless the state is already exhausted. */
  function Remaining(input: seq<byte>, s: PState): nat {
    3 * (if s.pos <= |input| then |input| + 1 - s.pos else 0)
    + 2 * (if s.peek.name == EOF then 0 else 1)
    + (if s.token.name == EOF then 0 else 1)
  }

  lemma AdvanceDecreases(input: seq<byte>, s: PState)
    requires !Exhausted(input, s)
    ensures Remaining(input, Advance(input, s)) < Remaining(input, s)
  {
    if s.pos > |input| {
      LexAtEnd(input, s.pos);
    }
  }

  /** The loop `while !token.is_semicolon() { next_token() }`: the state
      at the first `SEMICOLON`, or `None` once the state is exhausted
      without one, from where the loop would run forever. */
  function SkipToSemicolon(input: seq<byte>, s: PState): (r: Option<PState>)
    ensures r.Some? ==> r.value.token.name == SEMICOLON
    ensures r.Some? ==> Remaining(input, r.value) <= Remaining(input, s)
    ensures r.Some? && Drawn(input, s) ==> Drawn(input, r.value)
    decreases Remaining(input, s)
  {
    if s.token.IsSemicolon() then Some(s)
    else if s.token.IsEof() && s.pos > |input| then None
    else
      AdvanceDecreases(input, s);
      if Drawn(input, s) then AdvanceDrawn(input, s); SkipToSemicolon(input, Advance(input, s))
      else SkipToSemicolon(input, Advance(input, s))
  }

  /** How many `next_token` calls the loop makes before it stops at a `SEMICOLON`. */
  function CallsToSemicolon(input: seq<byte>, s: PState): nat
    requires SkipToSemicolon(input, s).Some?
    decreases Remaining(input, s)
  {
    if s.token.IsSemicolon() then 0
    else AdvanceDecreases(input, s); 1 + CallsToSemicolon(input, Advance(input, s))
  }

  /** The loop stops at the first `SEMICOLON` among the states it passes. */
  lemma SkipFindsFirstSemicolon(input: seq<byte>, s: PState)
    requires SkipToSemicolon(input, s).Some?
    ensures var n := CallsToSemicolon(input, s);
            && SkipToSemicolon(input, s).value == AdvanceN(input, s, n)
            && forall m: nat :: m < n ==> AdvanceN(input, s, m).token.name != SEMICOLON
  {
    SkipStopsAfterCalls(input, s);
    SkipPassesNoSemicolon(input, s);
  }

  lemma {:induction false} SkipStopsAfterCalls(input: seq<byte>, s: PState)
    requires SkipToSemicolon(input, s).Some?
    ensures SkipToSemicolon(input, s).value == AdvanceN(input, s, CallsToSemicolon(input, s))
    decreases Remaining(input, s)
  {
    if !s.token.IsSemicolon() {
      AdvanceDecreases(input, s);
      var t := Advance(input, s);
      SkipStopsAfterCalls(input, t);
      var k := CallsToSemicolon(input, t);
      assert CallsToSemicolon(input, s) == k + 1;
      assert SkipToSemicolon(input, s) == SkipToSemicolon(input, t);
      assert AdvanceN(input, s, k + 1) == AdvanceN(input, t, k);
    }
  }

  lemma {:induction false} SkipPassesNoSemicolon(input: seq<byte>, s: PState)
    requires SkipToSemicolon(input, s).Some?
    ensures forall m: nat :: m < CallsToSemicolon(input, s) ==> AdvanceN(input, s, m).token.name != SEMICOLON
    decreases Remaining(input, s)
  {
    if !s.token.IsSemicolon() {
      AdvanceDecreases(input, s);
      var t := Advance(input, s);
      SkipPassesNoSemicolon(input, t);
      forall m: nat | 0 < m < CallsToSemicolon(input, s)
        ensures AdvanceN(input, s, m).token.name != SEMICOLON
      {
        assert AdvanceN(input, s, m) == AdvanceN(input, t, m - 1);
      }
    }
  }

  /** The loop runs forever only when no `SEMICOLON` ever comes. */
  lemma {:induction false} SkipDivergesWithoutSemicolon(input: seq<byte>, s: PState)
    requires Drawn(input, s) && SkipToSemicolon(input, s).None?
    ensures forall n: nat :: AdvanceN(input, s, n).token.name != SEMICOLON
    decreases Remaining(input, s)
  {
    if Exhausted(input, s) {
      forall n: nat
        ensures AdvanceN(input, s, n).token.name != SEMICOLON
      {
        ExhaustedForever(input, s, n);
      }
    } else {
      AdvanceDecreases(input, s);
      AdvanceDrawn(input, s);
      var t := Advance(input, s);
      SkipDivergesWithoutSemicolon(input, t);
      forall n: nat
        ensures AdvanceN(input, s, n).token.name != SEMICOLON
      {
        if n > 0 {
          assert AdvanceN(input, s, n) == AdvanceN(input, t, n - 1);
        }
      }
    }
  }

  /** The identifier a `let` names, made from the token after `let`. */
  function LetOf(identifier: Identifier): Statement {
    LetStatement(identifier, IdentifierExpression(identifier))
  }

  /** `parse_let_statement` from state `s` (the current token is `let`):
      the lookahead must be an identifier and the token after it `=`; then
      the tokens up to the next `;` are skipped, and the statement binds
      the identifier to itself. */
  function LetStatementAt(input: seq<byte>, s: PState): (r: Outcome<Statement>)
    requires Drawn(input, s)
    ensures r == Fatal(ExpectedIdent(s.peek.name)) <==> !s.peek.name.IDENT?
    ensures r == Fatal(ExpectedAssign(Lex(input, s.pos).token.name)) <==>
              s.peek.name.IDENT? && !Lex(input, s.pos).token.name.ASSIGN?
    ensures r.Fatal? ==> r.error == ExpectedIdent(s.peek.name)
                         || r.error == ExpectedAssign(Lex(input, s.pos).token.name)
    ensures r.Ok? ==> r.value == LetOf(Identifier(s.peek, s.peek.name.text))
    ensures r.Ok? ==> r.state.token.name == SEMICOLON && Drawn(input, r.state)
    ensures r.Ok? ==> Remaining(input, r.state) <= Remaining(input, s)
  {
    if !s.peek.name.IDENT? then Fatal(ExpectedIdent(s.peek.name))
    else
      var s1 := Advance(input, s);
      var identifier := NewIdentifier(s1.token);
      if !s1.peek.name.ASSIGN? then Fatal(ExpectedAssign(s1.peek.name))
      else
        AdvanceDrawn(input, s);
        AdvanceDrawn(input, s1);
        AdvanceDecreases(input, s);
        AdvanceDecreases(input, s1);
        match SkipToSemicolon(input, Advance(input, s1))
        case None => Diverges
        case Some(s2) => Ok(LetOf(identifier), s2)
  }

  /** Two calls of `next_token`, then `n` more, are `n + 2` calls. */
  lemma AdvanceTwice(input: seq<byte>, s: PState, n: nat, m: nat)
    requires m == n + 2
    ensures AdvanceN(input, s, m) == AdvanceN(input, Advance(input, Advance(input, s)), n)
  {
    assert AdvanceN(input, s, m) == AdvanceN(input, Advance(input, s), n + 1);
  }

  /** Once both checks pass, a `let` statement is the skip loop started
      two calls after the `let`. */
  lemma LetStatementSkipsFrom(input: seq<byte>, s: PState)
    requires Drawn(input, s) && s.peek.name.IDENT? && Lex(input, s.pos).token.name.ASSIGN?
    ensures var s2 := Advance(input, Advance(input, s));
            var r := LetStatementAt(input, s);
            && Drawn(input, s2)
            && !r.Fatal?
            && (r.Diverges? <==> SkipToSemicolon(input, s2).None?)
            && (r.Ok? ==> r.state == SkipToSemicolon(input, s2).value)
  {
    AdvanceDrawn(input, s);
    AdvanceDrawn(input, Advance(input, s));
  }

  /** No `SEMICOLON` among the first `k` states from two calls on is none
      among states 2 to `k + 1` from here. */
  lemma NoSemicolonAfterTwo(input: seq<byte>, s: PState, s2: PState, k: nat)
    requires s2 == Advance(input, Advance(input, s))
    requires forall m: nat :: m < k ==> AdvanceN(input, s2, m).token.name != SEMICOLON
    ensures forall m: nat :: 2 <= m < k + 2 ==> AdvanceN(input, s, m).token.name != SEMICOLON
  {
    forall m: nat | 2 <= m < k + 2
      ensures AdvanceN(input, s, m).token.name != SEMICOLON
    {
      AdvanceTwice(input, s, m - 2, m);
    }
  }

  /** A `let` statement that ends does so at the first `;` drawn after the `=`. */
  lemma LetStatementEndsAtSemicolon(input: seq<byte>, s: PState)
    requires Drawn(input, s) && s.peek.name.IDENT? && Lex(input, s.pos).token.name.ASSIGN?
    requires LetStatementAt(input, s).Ok?
    ensures exists n: nat :: n >= 2 && LetStatementAt(input, s).state == AdvanceN(input, s, n)
              && forall m: nat :: 2 <= m < n ==> AdvanceN(input, s, m).token.name != SEMICOLON
  {
    var s2 := Advance(input, Advance(input, s));
    LetStatementSkipsFrom(input, s);
    SkipFindsFirstSemicolon(input, s2);
    var k := CallsToSemicolon(input, s2);
    AdvanceTwice(input, s, k, k + 2);
    NoSemicolonAfterTwo(input, s, s2, k);
    assert k + 2 >= 2 && LetStatementAt(input, s).state == AdvanceN(input, s, k + 2);
  }

  /** Once both checks pass, a `let` statement runs forever exactly when no
      `;` is ever drawn after the `=`. */
  lemma LetStatementDiverges(input: seq<byte>, s: PState)
    requires Drawn(input, s) && s.peek.name.IDENT? && Lex(input, s.pos).token.name.ASSIGN?
    ensures LetStatementAt(input, s).Diverges? <==>
              forall n: nat :: n >= 2 ==> AdvanceN(input, s, n).token.name != SEMICOLON
  {
    var s2 := Advance(input, Advance(input, s));
    LetStatementSkipsFrom(input, s);
    if LetStatementAt(input, s).Diverges? {
      SkipDivergesWithoutSemicolon(input, s2);
      forall n: nat | n >= 2
        ensures AdvanceN(input, s, n).token.name != SEMICOLON
      {
        AdvanceTwice(input, s, n - 2, n);
      }
    } else {
      LetStatementEndsAtSemicolon(input, s);
    }
  }

  /** `parse_statement`: `let` goes to the let parser; `return` and every
      other token give their markers and consume nothing. */
  function StatementAt(input: seq<byte>, s: PState): (r: Outcome<Statement>)
    requires Drawn(input, s)
    ensures r.Ok? ==> (r.value.LetStatement? <==> s.token.name == LET)
    ensures r.Ok? ==> (r.value.ReturnStatement? <==> s.token.name == RETURN)
    ensures !s.token.name.LET? ==> r.Ok? && r.state == s
    ensures r.Ok? ==> Drawn(input, r.state) && Remaining(input, r.state) <= Remaining(input, s)
    ensures r.Ok? && s.token.name != EOF ==> !Exhausted(input, r.state)
  {
    match s.token.name
    case LET => LetStatementAt(input, s)
    case RETURN => Ok(ReturnStatement, s)
    case _ => Ok(ExpressionStatement, s)
  }

  /** What a statement of a parsed program can be: a `let` binds an
      identifier token to itself, with the token's text as its value. */
  predicate WellFormedStatement(st: Statement) {
    st.LetStatement? ==>
      && st.name.token.name.IDENT?
      && st.name.value == st.name.token.name.text
      && st.value == IdentifierExpression(st.name)
  }

  /** `parse_program` from state `s`: one statement per pass, each followed
      by one `next_token` call, until the current token is `EOF`. */
  function StatementsAt(input: seq<byte>, s: PState): (r: Outcome<Program>)
    requires Drawn(input, s)
    ensures s.token.name == EOF ==> r == Ok([], s)
    ensures r.Ok? ==> (r.value == [] <==> s.token.name == EOF)
    ensures r.Ok? ==> r.state.token.name == EOF && Drawn(input, r.state)
    ensures r.Ok? ==> forall i :: 0 <= i < |r.value| ==> WellFormedStatement(r.value[i])
    decreases Remaining(input, s)
  {
    if s.token.IsEof() then Ok([], s)
    else
      match StatementAt(input, s)
      case Fatal(e) => Fatal(e)
      case Diverges => Diverges
      case Ok(statement, s1) =>
        AdvanceDecreases(input, s1);
        AdvanceDrawn(input, s1);
        Prepend([statement], StatementsAt(input, Advance(input, s1)))
  }

  /** One pass of `parse_program`'s loop: the statement parsed where the
      current token is not `EOF`, then the program after one more call. */
  lemma StatementsStep(input: seq<byte>, s: PState)
    requires Drawn(input, s) && s.token.name != EOF && StatementAt(input, s).Ok?
    ensures var r := StatementAt(input, s);
            && Drawn(input, Advance(input, r.state))
            && StatementsAt(input, s) == Prepend([r.value], StatementsAt(input, Advance(input, r.state)))
  {
    AdvanceDrawn(input, StatementAt(input, s).state);
  }

  /** Statements parsed before the rest of the program. */
  function Prepend(p: Program, o: Outcome<Program>): (r: Outcome<Program>)
    ensures o.Ok? <==> r.Ok?
    ensures r.Ok? ==> r.value == p + o.value && r.state == o.state
    ensures !o.Ok? ==> r == o
  {
    match o
    case Ok(rest, t) => Ok(p + rest, t)
    case Fatal(e) => Fatal(e)
    case Diverges => Diverges
  }

  lemma PrependPrepend(p: Program, q: Program, o: Outcome<Program>)
    ensures Prepend(p, Prepend(q, o)) == Prepend(p + q, o)
  {
    if o.Ok? {
      assert p + (q + o.value) == (p + q) + o.value;
    }
  }

  /** The steps of `parse_program`'s loop, with the statements `p` parsed so far. */
  lemma ProgramBegins(input: seq<byte>, s: PState)
    requires Drawn(input, s)
    ensures Prepend([], StatementsAt(input, s)) == StatementsAt(input, s)
  {
    if StatementsAt(input, s).Ok? {
      assert [] + StatementsAt(input, s).value == StatementsAt(input, s).value;
    }
  }

  lemma ProgramGoesOn(input: seq<byte>, p: Program, s: PState)
    requires Drawn(input, s) && s.token.name != EOF && StatementAt(input, s).Ok?
    ensures var r := StatementAt(input, s);
            && Drawn(input, Advance(input, r.state))
            && Remaining(input, Advance(input, r.state)) < Remaining(input, s)
            && Prepend(p, StatementsAt(input, s)) == Prepend(p + [r.value], StatementsAt(input, Advance(input, r.state)))
  {
    var r := StatementAt(input, s);
    AdvanceDecreases(input, r.state);
    AdvanceDrawn(input, r.state);
    PrependPrepend(p, [r.value], StatementsAt(input, Advance(input, r.state)));
  }

  lemma ProgramStops(input: seq<byte>, p: Program, s: PState)
    requires Drawn(input, s) && s.token.name != EOF && !StatementAt(input, s).Ok?
    ensures StatementAt(input, s).Fatal? ==> Prepend(p, StatementsAt(input, s)) == Fatal(StatementAt(input, s).error)
    ensures StatementAt(input, s).Diverges? ==> Prepend(p, StatementsAt(input, s)) == Diverges
  {
  }

  lemma ProgramEnds(input: seq<byte>, p: Program, s: PState)
    requires Drawn(input, s) && s.token.name == EOF
    ensures Prepend(p, StatementsAt(input, s)) == Ok(p, s)
  {
    assert p + [] == p;
  }

  /** A whole input: `Parser::new` on a fresh lexer, then `parse_program`. */
  function ProgramOf(input: seq<byte>): (r: Outcome<Program>)
    ensures r.Ok? ==> (r.value == [] <==> Tokenize(input)[0].name == EOF)
  {
    StartDrawn(input, 0);
    StartTokens(input);
    StatementsAt(input, Start(input, 0))
  }

  /** The parser: the lexer it owns, the current token and the lookahead. */
  class Parser {
    var lexer: Lexer
    var token: Token
    var peekToken: Token

    /** The parser's state as the functions above see it. */
    function State(): PState
      reads this, lexer
    {
      PState(token, peekToken, lexer.position)
    }

    ghost predicate Valid()
      reads this, lexer
    {
      lexer.Valid() && Drawn(lexer.input, State())
    }

    /** `Parser::new`: draw the current token and the lookahead. */
    constructor (lexer: Lexer)
      requires lexer.Valid()
      modifies lexer
      ensures this.lexer == lexer && Valid()
      ensures State() == Start(lexer.input, old(lexer.position))
    {
      var first := lexer.NextToken();
      var second := lexer.NextToken();
      this.lexer := lexer;
      token := first;
      peekToken := second;
      new;
      StartDrawn(lexer.input, old(lexer.position));
    }

    /** `next_token`: shift the lookahead into the current token and draw a
        new lookahead; nothing else changes. */
    method NextToken()
      requires Valid()
      modifies this, lexer
      ensures Valid() && lexer == old(lexer)
      ensures State() == Advance(lexer.input, old(State()))
    {
      AdvanceDrawn(lexer.input, State());
      token := peekToken;
      peekToken := lexer.NextToken();
    }

    /** `parse_program`. */
    method ParseProgram() returns (r: Outcome<Program>)
      requires Valid()
      modifies this, lexer
      ensures lexer == old(lexer)
      ensures r == StatementsAt(lexer.input, old(State()))
      ensures r.Ok? ==> Valid() && r.state == State()
    {
      ghost var input := lexer.input;
      var program: Program := [];
      ProgramBegins(input, State());
      while !token.IsEof()
        invariant Valid() && lexer == old(lexer)
        invariant StatementsAt(input, old(State())) == Prepend(program, StatementsAt(input, State()))
        decreases Remaining(input, State())
      {
        ghost var before := State();
        var statement := ParseStatement();
        if statement.Fatal? {
          ProgramStops(input, program, before);
          return Fatal(statement.error);
        } else if statement.Diverges? {
          ProgramStops(input, program, before);
          return Diverges;
        }
        ProgramGoesOn(input, program, before);
        program := program + [statement.value];
        NextToken();
      }
      ProgramEnds(input, program, State());
      r := Ok(program, State());
    }

    /** `parse_statement`. */
    method ParseStatement() returns (r: Outcome<Statement>)
      requires Valid()
      modifies this, lexer
      ensures lexer == old(lexer)
      ensures r == StatementAt(lexer.input, old(State()))
      ensures r.Ok? ==> Valid() && r.state == State()
    {
      match token.name
      case LET =>
        r := ParseLetStatement();
      case RETURN =>
        var statement := ParseReturnStatement();
        r := Ok(statement, State());
      case _ =>
        var statement := ParseExpressionStatement();
        r := Ok(statement, State());
    }

    /** `parse_let_statement`. */
    method ParseLetStatement() returns (r: Outcome<Statement>)
      requires Valid()
      modifies this, lexer
      ensures lexer == old(lexer)
      ensures r == LetStatementAt(lexer.input, old(State()))
      ensures r.Ok? ==> Valid() && r.state == State()
    {
      if !peekToken.name.IDENT? {
        return Fatal(ExpectedIdent(peekToken.name));
      }
      NextToken();
      var identifier := NewIdentifier(token);
      if !peekToken.name.ASSIGN? {
        return Fatal(ExpectedAssign(peekToken.name));
      }
      NextToken();
      while !token.IsSemicolon()
        invariant Valid() && lexer == old(lexer)
        invariant SkipToSemicolon(lexer.input, State())
                  == SkipToSemicolon(lexer.input, Advance(lexer.input, Advance(lexer.input, old(State()))))
        decreases Remaining(lexer.input, State())
      {
        if token.IsEof() && lexer.position > |lexer.input| {
          return Diverges;
        }
        AdvanceDecreases(lexer.input, State());
        NextToken();
      }
      r := Ok(LetOf(identifier), State());
    }

    /** `parse_return_statement`: the marker, consuming nothing. */
    method ParseReturnStatement() returns (statement: Statement)
      ensures statement == ReturnStatement
    {
      statement := ReturnStatement;
    }

    /** `parse_expression_statement`: the marker, consuming nothing. */
    method ParseExpressionStatement() returns (statement: Statement)
      ensures statement == ExpressionStatement
    {
      statement := ExpressionStatement;
    }
  }
}
