/**
 * The reader's cursor over the token sequence, as pure functions.
 * Position 0 is the start-of-file state before the first MoveNext; position p
 * (1 <= p <= |ts|) is token ts[p - 1]; every later position reads as end of file,
 * and MoveNext does not move past it.
 */
module Cursor {
  import opened Tokens
  import opened Errors

  function TokenAt(ts: seq<Token>, p: nat): Token
  {
    if p == 0 then Token(StartOfFile, [])
    else if p <= |ts| then ts[p - 1]
    else Token(EndOfFile, [])
  }

  function KindAt(ts: seq<Token>, p: nat): TokenKind
  {
    TokenAt(ts, p).kind
  }

  /** The position after MoveNext. */
  function Next(ts: seq<Token>, p: nat): (q: nat)
    ensures p <= |ts| ==> q == p + 1
    ensures p > |ts| ==> q == p
  {
    if p <= |ts| then p + 1 else p
  }

  /** The reader's Expect(kind): the current token's bytes and one step forward, or a syntax error. */
  function ExpectAt(ts: seq<Token>, p: nat, kind: TokenKind): (r: Result<Parsed<seq<byte>>>)
    ensures r.Ok? <==> KindAt(ts, p) == kind
    ensures r.Ok? ==> r.value.value == TokenAt(ts, p).value
    ensures r.Ok? && kind != EndOfFile ==> p <= |ts| && r.value.next == p + 1
    ensures r.Err? ==> r.error == SyntaxError(p, ExpectedKind(kind))
  {
    if KindAt(ts, p) == kind then Ok(Parsed(TokenAt(ts, p).value, Next(ts, p)))
    else Err(SyntaxError(p, ExpectedKind(kind)))
  }
}
