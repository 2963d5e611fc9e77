/** The outcomes of parsing: a value, or the exception the parser would throw. */
module Errors {
  import opened Tokens

  datatype Option<T> = None | Some(value: T)

  /** Why a SyntaxException was raised. */
  datatype Reason =
    | ExpectedKind(kind: TokenKind)       // the reader's Expect(kind) met another token
    | InvalidOpenToken(kind: TokenKind)   // ParseObject / ParseList not at their opening token
    | ExpectedFieldName                   // ParseObjectField not at a String token
    | InvalidValue                        // no value of the demanded shape at the cursor
    | UnknownField                        // an envelope field name outside the five recognised ones
    | MissingQuery                        // the envelope closed without query text
    | UnexpectedRequestStructure          // the payload starts with neither `{` nor `[`

  /** Every way a parse can fail; `at` is the reader position the exception refers to. */
  datatype ParseError =
    | SyntaxError(at: nat, reason: Reason)  // SyntaxException
    | IndexOutOfRange                       // fieldName[0] on an empty field name
    | Overflow(at: nat)                     // long.Parse: OverflowException
    | BadNumber(at: nat)                    // long.Parse / decimal.Parse rejected the numeral
    | NotImplemented                        // the batch path
    | ArgumentNull(parameter: string)       // ArgumentNullException from a constructor
    | UnescapeFailed                        // Utf8Helper.Unescape threw
    | CompileFailed                         // Utf8GraphQLParser.Parse threw
    | NoProgress(at: nat)                   // ParseList's cursor stuck on a scalar: the list grows until allocation fails

  datatype Result<T> = Ok(value: T) | Err(error: ParseError)

  /** A value together with the reader position after it. */
  datatype Parsed<T> = Parsed(value: T, next: nat)

  /** Pairs a method's result with the cursor it left, for comparison with a specification. */
  function Lift<T>(r: Result<T>, next: nat): Result<Parsed<T>>
  {
    match r
    case Ok(v) => Ok(Parsed(v, next))
    case Err(e) => Err(e)
  }
}
