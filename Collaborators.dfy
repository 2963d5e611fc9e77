/**
 * The code the request parser calls but does not contain: the reader's string
 * decoding, the numeric conversions, the unescaper and the document compiler.
 * Each is a function parameter; only the facts the parser relies on are stated.
 */
module Collaborators {
  import opened Tokens
  import opened Errors

  /** A compiled GraphQL document; its syntax tree is not modelled. */
  datatype DocumentNode = DocumentNode(id: nat)

  /** A value of the decimal type: mantissa / 10^scale. */
  datatype DecimalNumber = DecimalNumber(mantissa: int, scale: nat)

  /** The parser options handed through to the document compiler; their contents are not modelled. */
  class ParserOptions {
    constructor ()
    {
    }
  }

  /** Unescaping never lengthens the text, so the result fits a buffer of the escaped length. */
  ghost predicate FitsInput(unescape: seq<byte> -> Option<seq<byte>>, escaped: seq<byte>)
  {
    unescape(escaped).Some? ==> |unescape(escaped).value| <= |escaped|
  }

  /** Utf8Helper.Unescape: the unescaped bytes, or None when it throws. */
  type Unescaper = f: seq<byte> -> Option<seq<byte>> | forall escaped :: FitsInput(f, escaped)
    witness (escaped: seq<byte>) => None

  datatype Runtime = Runtime(
    getString: seq<byte> -> string,                              // the reader's GetString on a String token
    readInteger: seq<byte> -> Option<int>,                       // long.Parse's reading of the numeral, before its range check
    readDecimal: seq<byte> -> Option<DecimalNumber>,             // decimal.Parse
    unescape: Unescaper,                                         // Utf8Helper.Unescape
    compile: (seq<byte>, ParserOptions) -> Option<DocumentNode>  // Utf8GraphQLParser.Parse
  )
}
