/**
 * The syntax tree the parser builds: a program is a sequence of
 * statements; only `let` statements carry data, and their expression is
 * (so far) always an identifier.
 */
module Ast {
  import opened Bytes
  import opened Tokens
  import opened Lexing
  import opened LexerFacts

  /** An identifier: the token it was read from and its text. */
  datatype Identifier = Identifier(token: Token, value: string)

  /** `Identifier::new`: keep the token and take its literal's text as the value. */
  function NewIdentifier(token: Token): (id: Identifier)
    requires IsAscii(token.literal.chars)
    ensures id.token == token
    ensures |id.value| == |token.literal.chars|
    ensures forall i :: 0 <= i < |id.value| ==> id.value[i] as int == token.literal.chars[i] as int
  {
    Identifier(token, token.literal.ToString())
  }

  /** The only kind of expression: an identifier. (The constructor has its
      own name, since the type of its payload is also called `Identifier`.) */
  datatype Expression = IdentifierExpression(identifier: Identifier)

  /** A statement: `let` with its name and value, or a marker for a `return`
      or an expression statement, which the parser does not yet read. */
  datatype Statement =
    | LetStatement(name: Identifier, value: Expression)
    | ReturnStatement
    | ExpressionStatement

  /** A program: its statements, in source order. */
  type Program = seq<Statement>

  /** A token the lexer can hand out that names an identifier holds the
      identifier's text as its literal, so the identifier made from it has
      that text as its value. */
  predicate IdentifierReady(t: Token) {
    t.name.IDENT? ==> IsAscii(t.literal.chars) && t.literal.ToString() == t.name.text
  }

  /** Every token the lexer returns is `IdentifierReady`. */
  lemma LexedIdentifier(input: seq<byte>, pos: nat)
    ensures IdentifierReady(Lex(input, pos).token)
  {
    if Lex(input, pos).token.name.IDENT? {
      LexIdent(input, pos);
    }
  }

  /** For an `IDENT(s)` token from the lexer, `Identifier::new` gives the value `s`. */
  lemma IdentifierOfLexed(input: seq<byte>, pos: nat)
    requires Lex(input, pos).token.name.IDENT?
    ensures var t := Lex(input, pos).token;
            IsAscii(t.literal.chars) && NewIdentifier(t) == Identifier(t, t.name.text)
  {
    LexedIdentifier(input, pos);
  }
}
