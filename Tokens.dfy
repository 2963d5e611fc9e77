/** Bytes and lexical tokens as the request parser receives them from the GraphQL lexer. */
module Tokens {

  /** One byte of the UTF-8 request payload. */
  newtype byte = x: int | 0 <= x < 256

  /** The lexer's token classification (HotChocolate's TokenKind). */
  datatype TokenKind =
    | StartOfFile | EndOfFile
    | Bang | Dollar | Ampersand | LeftParenthesis | RightParenthesis | Spread
    | Colon | Equal | At | LeftBracket | RightBracket | LeftBrace | RightBrace | Pipe
    | Name | Integer | Float | String | BlockString | Comment

  /** A token: its kind and its raw bytes (for a String token, the still-escaped text between the quotes). */
  datatype Token = Token(kind: TokenKind, value: seq<byte>)

  /** The byte of an ASCII character; the model only applies it to ASCII literals. */
  function AsciiByte(ch: char): byte
  {
    if ch as int < 256 then ch as int as byte else 0
  }

  // GraphQLKeywords.True, .False and .Null, byte by byte
  const TrueKeyword: seq<byte> := [0x74, 0x72, 0x75, 0x65]         // t r u e
  const FalseKeyword: seq<byte> := [0x66, 0x61, 0x6C, 0x73, 0x65]  // f a l s e
  const NullKeyword: seq<byte> := [0x6E, 0x75, 0x6C, 0x6C]         // n u l l

  /** The three keywords are pairwise different byte sequences. */
  lemma KeywordsDistinct()
    ensures TrueKeyword != FalseKeyword && TrueKeyword != NullKeyword && FalseKeyword != NullKeyword
  {
    assert TrueKeyword[0] != NullKeyword[0];
  }
}
