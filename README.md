# HotChocolate's UTF-8 GraphQL request parser, modelled in Dafny

This project models `Utf8GraphQLRequestParser`, the parser that reads a GraphQL-over-HTTP
request envelope:

```
{"operationName": ..., "namedQuery": ..., "query": "...", "variables": {...}, "extensions": {...}}
```

The parser takes the envelope from the token stream of the GraphQL lexer and produces a
`GraphQLRequest`. That request carries the operation name, the query alias, the compiled
query document, and the variables and extensions.

The model covers:

- the two constructors and their null checks;
- the top-level dispatch on `{` or `[`;
- the property loop and the five-way field router;
- the recursive value decoder (null, booleans, 64-bit integers, decimals, strings, lists and
  objects);
- the nullable readers `ExpectStringValue` and `ExpectObjectValue`;
- the missing-query check;
- the document-cache path;
- the scratch buffer of `ParseQuery`, which lives on the stack or is rented from a pool, and
  is cleared and returned.

## Structure

- `Tokens.dfy`: bytes, token kinds, tokens, and the `true`/`false`/`null` keywords.
- `Errors.dfy`: the error outcomes, where C# throws an exception, plus `Result`, `Option` and
  `Parsed` (a value and the cursor position after it).
- `Cursor.dfy`: the reader cursor over a token sequence, as functions. Position 0 is the
  start-of-file token, position `p` in `1..|ts|` is `ts[p-1]`, and every later position is
  end of file; `Next` stays there. `ExpectAt` checks the kind, returns the token's bytes and
  advances.
- `Collaborators.dfy`: the code the parser calls but that is not part of this model, as
  function values. These are `GetString`, `long.Parse`, `decimal.Parse`, `Utf8Helper.Unescape`
  and `Utf8GraphQLParser.Parse`. The unescaper never writes more bytes than it reads.
- `Values.dfy`: the value decoder as specification functions. It has one function per
  routine, plus lemmas about order, progress and shape.
- `Envelope.dfy`: the field router, the `Request` record, the property loop, query
  resolution through the cache, `ParseRequest` and `Parse`, all as specification functions.
  It also holds the envelope-level lemmas and worked example envelopes.
- `RequestParser.dfy`: the parser as the object it is. It is a class holding a `Reader`
  (token sequence plus position) that its methods advance. The property loop and the list
  loop are `while` loops. `ParseQuery` fills an `array` and hands it back to a `BufferPool`.
  Every method is proved to return its specification function's result for the old cursor
  position, and on success to leave the cursor where that function says.

## Cursor behaviour, as written

Three routines move the cursor in ways that shape what the parser accepts. The model keeps
each one as the code has it and proves what follows:

- `ParseScalarValue` reads the current token and does not advance. A list loop whose element
  is a scalar therefore leaves the cursor where it was every turn, while `list.Add` grows the
  list by one element each time; in C# the loop ends only when allocating the list fails.
  `ListItemsFrom` and `ParseList` detect the unchanged cursor and return `NoProgress`, which
  stands for that allocation failure.
  `ScalarElementNoProgress` proves that `[` followed by a scalar never decodes.
- `ParseObjectField` calls `GetString` (no advance) and then `Expect(Colon)` on the key's own
  `String` token, which always fails. Only `{}` decodes as an object (`ObjectAt`), and lists
  decode only when they are built of empty objects and such lists (`ListShape`). The
  `ParseValue` call and the `Dictionary.Add` after the colon are never reached, so a
  duplicate key fails at its first key (`DuplicateKeyEnvelope`). `ParseObject`'s
  `while (Kind != RightBrace)` is written as an `if`, because its body never completes.
- `ParseObject` consumes its `}`, and `ParseRequest` still calls `MoveNext` after each
  property. The token after an object-valued field is therefore skipped. For
  `{"query": "{a}", "variables": {}}` this is the envelope's own `}`, so the loop runs into
  end of file and fails there (`ObjectFieldSkipsClosingBrace`).

## Model

| member | source | states |
|---|---|---|
| Cursor.Next | src/Core/Language/Utf8/Utf8GraphQLRequestParser.cs:125 | MoveNext advances by one token until end of file and then stays put |
| RequestParser.Reader.Kind | src/Core/Language/Utf8/Utf8GraphQLRequestParser.cs:154 | the current kind is the start-of-file marker before the first MoveNext, the kind of token `p` at position `p`, and end of file past the last token |
| RequestParser.Reader.Value | src/Core/Language/Utf8/Utf8GraphQLRequestParser.cs:223 | the current bytes are those of the token under the cursor, and empty at start and end of file |
| Cursor.ExpectAt | src/Core/Language/Utf8/Utf8GraphQLRequestParser.cs:197-198 | Expect succeeds iff the current kind is the expected one; it returns the token's bytes and advances by one; otherwise it is a syntax error at that position naming the expected kind |
| RequestParser.Reader.MoveNext | src/Core/Language/Utf8/Utf8GraphQLRequestParser.cs:157 | the cursor moves to `Next` of its old position |
| RequestParser.Reader.Expect | src/Core/Language/Utf8/Utf8GraphQLRequestParser.cs:151 | the method's result and new position are `ExpectAt` of the old position |
| RequestParser.Utf8GraphQLRequestParser.WithCache | src/Core/Language/Utf8/Utf8GraphQLRequestParser.cs:93-108 | the four-argument constructor rejects a null options, cache or hash provider, checked in that order and naming the parameter; otherwise it builds a parser with the cache on and the reader at the start |
| RequestParser.Utf8GraphQLRequestParser.WithoutCache | src/Core/Language/Utf8/Utf8GraphQLRequestParser.cs:110-121 | the two-argument constructor rejects null options; otherwise the cache is off and there is no cache or hash provider |
| RequestParser.Utf8GraphQLRequestParser.constructor | src/Core/Language/Utf8/Utf8GraphQLRequestParser.cs:87-91 | the parser's fields are those given, and a parser with the cache on has both a cache and a hash provider |
| Envelope.ParseAt | src/Core/Language/Utf8/Utf8GraphQLRequestParser.cs:123-140 | after one MoveNext: `{` gives a list of exactly one request, which is ParseRequest's result, or ParseRequest's error; `[` gives NotImplemented; any other token is an unexpected-structure syntax error at that token |
| RequestParser.Utf8GraphQLRequestParser.Parse | src/Core/Language/Utf8/Utf8GraphQLRequestParser.cs:123-140 | the result and final cursor are `ParseAt` of the configuration and the old cursor; ParseQuery runs once exactly when the envelope needs compiling; every rented buffer is returned |
| RequestParser.Utf8GraphQLRequestParser.ParseBatchRequest | src/Core/Language/Utf8/Utf8GraphQLRequestParser.cs:142-145 | the batch form always fails with NotImplemented |
| Envelope.FieldName | src/Core/Language/Utf8/Utf8GraphQLRequestParser.cs:14-85 | each of the five field names is a non-empty byte string whose first byte is its field's case label in the switch |
| Envelope.ClassifyField | src/Core/Language/Utf8/Utf8GraphQLRequestParser.cs:201-246 | the switch fails with an index error exactly on the empty name; a routed name equals that field's name byte for byte; every other outcome is an unknown-field syntax error at the given position |
| Envelope.ClassifyFieldExact | src/Core/Language/Utf8/Utf8GraphQLRequestParser.cs:201-246 | a field name is accepted exactly when it equals one of the five names byte for byte, and it is routed to that field; an empty name fails on the `fieldName[0]` index; any other name, including one with a matching first byte, is an unknown-field syntax error |
| Envelope.PropertyAt | src/Core/Language/Utf8/Utf8GraphQLRequestParser.cs:195-247 | a property that parses was a String token and a Colon, its name is the name of the field it updates, and it consumed at least those two tokens; a first token that is not a String fails Expect(String) there, and a String not followed by a Colon fails Expect(Colon) on the next token |
| Envelope.PropertyRouting | src/Core/Language/Utf8/Utf8GraphQLRequestParser.cs:195-247 | for `String`, `:` tokens: the empty name fails with an index error; an unrecognised name fails with UnknownField at the value position; a recognised name parses that field's value there |
| Envelope.FieldValue | src/Core/Language/Utf8/Utf8GraphQLRequestParser.cs:203-242 | each value updates the field it was routed to; `operationName` and `namedQuery` store ExpectStringValue's result without advancing, or fail with its error; `variables` and `extensions` store ExpectObjectValue's result and take its cursor, or fail with its error; `query` takes the raw bytes of whatever token follows, with no kind check and no advance |
| RequestParser.Utf8GraphQLRequestParser.ParseProperty | src/Core/Language/Utf8/Utf8GraphQLRequestParser.cs:195-247 | the updated request and the new cursor are the request with `PropertyAt`'s update applied, or `PropertyAt`'s error |
| Envelope.EmptyRequestUnset | src/Core/Language/Utf8/Utf8GraphQLRequestParser.cs:439-450 | a new `Request` (line 149) has every field null and a query span of no bytes |
| Envelope.ApplyReplacesOneField | src/Core/Language/Utf8/Utf8GraphQLRequestParser.cs:439-450 | storing into one field of the `Request` record replaces that field and leaves the other four as they were |
| Envelope.PropertiesFrom | src/Core/Language/Utf8/Utf8GraphQLRequestParser.cs:154-158 | the property loop, when it ends, stops on a `}` at or after its start |
| Envelope.PropertiesFromIsFold | src/Core/Language/Utf8/Utf8GraphQLRequestParser.cs:154-158 | the property loop is the in-order application of the updates its properties make, failing with the first property error |
| Envelope.LastForFront | src/Core/Language/Utf8/Utf8GraphQLRequestParser.cs:154-158 | an earlier update to a field decides its value only if no later update writes that field |
| Envelope.ApplyAllLastWins | src/Core/Language/Utf8/Utf8GraphQLRequestParser.cs:154-158 | after a sequence of updates each field holds the last value written to it, or its initial value if it was never written |
| Envelope.RepeatedFieldLastWins | src/Core/Language/Utf8/Utf8GraphQLRequestParser.cs:154-158 | a recognised field given more than once in an envelope keeps the last value given |
| Envelope.ScannedRequest | src/Core/Language/Utf8/Utf8GraphQLRequestParser.cs:149-158 | a scanned envelope starts with `{` at its first position and stops on its `}` after it |
| Envelope.MissingQueryOfScanned | src/Core/Language/Utf8/Utf8GraphQLRequestParser.cs:160-163 | once the envelope is scanned, ParseRequest fails with MissingQuery at the `}` exactly when the captured query is empty; resolution errors are never MissingQuery |
| Envelope.ScannedIsFold | src/Core/Language/Utf8/Utf8GraphQLRequestParser.cs:149-158 | the request scanned from an envelope is the empty request with the envelope's field updates applied in order |
| Envelope.MissingQueryWhateverElse | src/Core/Language/Utf8/Utf8GraphQLRequestParser.cs:160-163 | an envelope that closes fails with MissingQuery exactly when its last `query` value was empty or it had none, whatever its other fields and the cache hold |
| Envelope.QueryDocument | src/Core/Language/Utf8/Utf8GraphQLRequestParser.cs:376-405 | ParseQuery's document is the compilation of the unescaped query; a failed unescape is UnescapeFailed, and a failed compilation of a successfully unescaped query is CompileFailed; no other error arises |
| Envelope.CacheKey | src/Core/Language/Utf8/Utf8GraphQLRequestParser.cs:169-172 | the cache key is the client's named query when one was given, and otherwise the hash of the raw, still escaped, query bytes |
| Envelope.Resolve | src/Core/Language/Utf8/Utf8GraphQLRequestParser.cs:165-183 | with the cache on, the alias is the named query, or else the hash of the raw query bytes, and that key is both the lookup key and the alias returned; a hit returns the stored document; a miss, or the cache off, returns ParseQuery's outcome; with the cache off the alias is the named query as given |
| Envelope.RequestAt | src/Core/Language/Utf8/Utf8GraphQLRequestParser.cs:147-193 | scanning errors pass through; an empty query is a MissingQuery error at the closing `}`; with a non-empty query, the request succeeds exactly when resolution does, and a resolution failure (the unescaper's or compiler's) passes through unchanged; on success the result carries the operation name, variables and extensions exactly as accumulated, the alias and document as resolved, in the `GraphQLRequest` built at lines 185-192, and the cursor on `}` |
| Envelope.CachePaths | src/Core/Language/Utf8/Utf8GraphQLRequestParser.cs:167-183 | a cache hit returns the stored document without calling ParseQuery; a miss and the uncached parser call ParseQuery and return its document; a defaulted alias is the hash of the raw query |
| RequestParser.DocumentCache.TryGet | src/Core/Language/Utf8/Utf8GraphQLRequestParser.cs:175 | the lookup finds a document iff the key is stored, and returns the stored document; it has no `modifies`, so it changes nothing |
| RequestParser.Utf8GraphQLRequestParser.ParseRequest | src/Core/Language/Utf8/Utf8GraphQLRequestParser.cs:147-193 | the result and final cursor are `RequestAt` of the old cursor; ParseQuery runs once exactly when the envelope has a query and the cache path needs compiling, and not at all otherwise; the cache is outside `modifies`, so ParseRequest never writes to it; every rented buffer is returned |
| RequestParser.Utf8GraphQLRequestParser.ResolveDocument | src/Core/Language/Utf8/Utf8GraphQLRequestParser.cs:165-183 | the alias and document are `Resolve` of the request, and ParseQuery runs exactly on the compiling paths |
| RequestParser.BufferPool.Rent | src/Core/Language/Utf8/Utf8GraphQLRequestParser.cs:386 | a rented array is fresh and at least as long as asked; the rent count goes up by one |
| RequestParser.BufferPool.Return | src/Core/Language/Utf8/Utf8GraphQLRequestParser.cs:402 | the array's contents at return time are appended to the returned log |
| RequestParser.Utf8GraphQLRequestParser.ParseQuery | src/Core/Language/Utf8/Utf8GraphQLRequestParser.cs:376-405 | the document is `QueryDocument` of the raw query; a query of at most StackallocThreshold bytes uses a buffer of exactly its length that is neither rented nor cleared, and holds the unescaped bytes; a longer query rents exactly one array that is returned exactly once, with the written bytes cleared on success and the whole buffer on an unescape failure |
| Values.ScalarOf | src/Core/Language/Utf8/Utf8GraphQLRequestParser.cs:341-374 | a Name decodes to true, false or null iff its bytes equal that keyword, and fails otherwise; the three keywords are pairwise different (`Tokens.KeywordsDistinct`), so at most one keyword branch matches; an Integer decodes iff `long.Parse` reads it within the signed 64-bit range, is an overflow error when read outside it and a number error when unreadable; a Float decodes to `decimal.Parse`'s value when it reads the numeral, and is a number error otherwise; a String decodes to its string; other kinds fail |
| RequestParser.Utf8GraphQLRequestParser.ParseScalarValue | src/Core/Language/Utf8/Utf8GraphQLRequestParser.cs:341-374 | the result is `ScalarOf` of the current token, and the cursor does not move |
| Values.StringOrNullOf | src/Core/Language/Utf8/Utf8GraphQLRequestParser.cs:407-421 | only a String token or the `null` keyword is accepted; the keyword gives no value, a String gives its string, and anything else is a syntax error |
| RequestParser.Utf8GraphQLRequestParser.ExpectStringValue | src/Core/Language/Utf8/Utf8GraphQLRequestParser.cs:407-421 | the result is `StringOrNullOf` of the current token, without advancing |
| Values.ObjectOrNullAt | src/Core/Language/Utf8/Utf8GraphQLRequestParser.cs:423-437 | only `{` (then as ParseObject) or the `null` keyword is accepted; `null` does not advance, `{}` advances past the `}`; a `{` that ParseObject rejects fails with ParseObject's error, and any other token is an invalid-value syntax error at the current token |
| RequestParser.Utf8GraphQLRequestParser.ExpectObjectValue | src/Core/Language/Utf8/Utf8GraphQLRequestParser.cs:423-437 | the result and the new cursor are `ObjectOrNullAt` of the old cursor |
| Values.ObjectAt | src/Core/Language/Utf8/Utf8GraphQLRequestParser.cs:270-295 | an object decodes iff it is `{` `}`, giving the empty dictionary two tokens on; a first key that is a String fails at the Colon check on that same token; a first token that is neither `}` nor a String is a field-name error there; a missing `{` is an invalid-open-token error |
| RequestParser.Utf8GraphQLRequestParser.ParseObject | src/Core/Language/Utf8/Utf8GraphQLRequestParser.cs:270-295 | the result and the new cursor are `ObjectAt` of the old cursor |
| Values.ObjectFieldError | src/Core/Language/Utf8/Utf8GraphQLRequestParser.cs:298-310 | an object field always fails, at the key's own position: a key that is not a String is a field-name error, and a String key fails the Colon check because the cursor is still on it |
| RequestParser.Utf8GraphQLRequestParser.ParseObjectField | src/Core/Language/Utf8/Utf8GraphQLRequestParser.cs:298-310 | the error raised is `ObjectFieldError` at the current cursor |
| Values.ValueAt | src/Core/Language/Utf8/Utf8GraphQLRequestParser.cs:249-268 | a decoded value leaves the cursor in bounds and in place exactly for the scalar kinds; any kind other than `[`, `{`, Name, String, Integer and Float is an invalid-value error |
| Values.ValueDispatch | src/Core/Language/Utf8/Utf8GraphQLRequestParser.cs:253-263 | ParseValue on `[` is ParseList; on `{` it is ParseObject's dictionary as an object, with ParseObject's cursor or error; on a String, Name, Integer or Float it is ParseScalarValue's value or error, with the cursor left in place |
| RequestParser.Utf8GraphQLRequestParser.ParseValue | src/Core/Language/Utf8/Utf8GraphQLRequestParser.cs:249-268 | the result and the new cursor are `ValueAt` of the old cursor |
| Values.ListAt | src/Core/Language/Utf8/Utf8GraphQLRequestParser.cs:312-339 | a decoded list started on `[` and consumed its tokens through a `]`, the last token before the new cursor; a missing `[` is an invalid-open-token error |
| Values.ListItemsFrom | src/Core/Language/Utf8/Utf8GraphQLRequestParser.cs:330-336 | the list loop, when it ends, has consumed a `]` |
| RequestParser.Utf8GraphQLRequestParser.ParseList | src/Core/Language/Utf8/Utf8GraphQLRequestParser.cs:312-339 | the result and the new cursor are `ListAt` of the old cursor |
| Values.ListItemsAccumulate | src/Core/Language/Utf8/Utf8GraphQLRequestParser.cs:330-333 | the list loop only appends: its outcome is the elements decoded so far followed by what a fresh loop decodes |
| Values.ListOrder | src/Core/Language/Utf8/Utf8GraphQLRequestParser.cs:330-333 | list elements keep their source order: the first element is the value decoded at the first position, followed by the list decoded after it |
| Values.ScalarElementNoProgress | src/Core/Language/Utf8/Utf8GraphQLRequestParser.cs:330-333 | a list whose first element is a scalar never decodes, and for a readable scalar the loop makes no progress at that element |
| Values.ValueShape | src/Core/Language/Utf8/Utf8GraphQLRequestParser.cs:249-339 | every value that consumed tokens is built only of empty objects and lists of such values |
| Values.ListShape | src/Core/Language/Utf8/Utf8GraphQLRequestParser.cs:312-339 | a decoded list is built only of empty objects and lists of such values |
| Values.ListItemsShape | src/Core/Language/Utf8/Utf8GraphQLRequestParser.cs:330-333 | the list loop keeps every accumulated element built of empty containers |
| Envelope.QueryPropertyAt | src/Core/Language/Utf8/Utf8GraphQLRequestParser.cs:219-225 | a `"query":` property stores the raw bytes of the next token, whatever its kind, and leaves the cursor on that token |
| Envelope.VariablesPropertyAt | src/Core/Language/Utf8/Utf8GraphQLRequestParser.cs:228-233 | a `"variables":` property holding `{}` stores the empty dictionary and ends after the `}`; one whose object starts with a String key fails at that key's Colon check |
| Envelope.ScanErrorIsParseError | src/Core/Language/Utf8/Utf8GraphQLRequestParser.cs:123-158 | an envelope that opens with `{` and fails while its properties are read makes Parse fail with that same error |
| Envelope.PropertiesStep | src/Core/Language/Utf8/Utf8GraphQLRequestParser.cs:154-158 | one turn of the property loop applies the property's update and continues after a MoveNext |
| Envelope.QueryOnlyEnvelope | src/Core/Language/Utf8/Utf8GraphQLRequestParser.cs:123-193 | `{"query": q}` with a non-empty `q` gives exactly one request, with no operation name, variables or extensions, whenever its query resolves |
| Envelope.EmptyEnvelope | src/Core/Language/Utf8/Utf8GraphQLRequestParser.cs:160-163 | `{}` fails with MissingQuery at its `}` |
| Envelope.UnknownFieldEnvelope | src/Core/Language/Utf8/Utf8GraphQLRequestParser.cs:243-246 | `{"foo": 1, "query": "{a}"}` fails with UnknownField before the query is read |
| Envelope.QueryThenEmptyVariablesScan | src/Core/Language/Utf8/Utf8GraphQLRequestParser.cs:154-158 | the property loop over `{"query": q, "variables": {}}` steps past both `}` and fails at end of file, expecting a String |
| Envelope.ObjectFieldSkipsClosingBrace | src/Core/Language/Utf8/Utf8GraphQLRequestParser.cs:154-158 | `{"query": "{a}", "variables": {}}` fails at end of file, because the MoveNext after the object skips the envelope's `}` |
| Envelope.QueryTurn | src/Core/Language/Utf8/Utf8GraphQLRequestParser.cs:154-158 | a turn of the property loop over `"query": q` stores the bytes of `q` and continues on the token after `q` |
| Envelope.VariablesTurn | src/Core/Language/Utf8/Utf8GraphQLRequestParser.cs:154-158 | a turn over `"variables": {}` stores the empty dictionary, and its MoveNext continues one token past the object's `}` |
| Envelope.PropertiesAtEndOfFile | src/Core/Language/Utf8/Utf8GraphQLRequestParser.cs:154-158 | the property loop never sees a `}` at end of file, so it fails there, expecting a String field name |
| Envelope.DuplicateKeyEnvelope | src/Core/Language/Utf8/Utf8GraphQLRequestParser.cs:306-309 | a variables object with a duplicated key fails at its first key, on the Colon check, before any key is added |
| Envelope.NullQueryKeptAsText | src/Core/Language/Utf8/Utf8GraphQLRequestParser.cs:219-225 | `"query": null` stores the four bytes of the keyword, so it is not a missing query |

## Left out

- The lexer (`Utf8GraphQLReader`) is not part of this model. Its token stream is the input sequence, lexer errors are not modelled, and `MoveNext`'s boolean result is dropped because the parser ignores it.
- `GetString`, `Utf8Helper.Unescape`, `Utf8GraphQLParser.Parse`, `long.Parse`'s reading of digits and `decimal.Parse` are parameters (function values). Their internals are not modelled. `long.Parse` is split into an opaque numeral reading and the explicit signed 64-bit range check.
- Values.ScalarOf: the range and precision of `decimal` are not modelled; a Float decodes whenever the decimal reader accepts it.
- The hash computation and the cache's storage are parameters. The thread-safety of a cache shared between requests is not modelled.
- `GraphQLConstants.StackallocThreshold` is not part of this model; its value is taken as 256 (`RequestParser.StackallocThreshold`), and `ParseQuery`'s contract states the two sides of the test at line 380.
- RequestParser.Utf8GraphQLRequestParser.ParseQuery: the stack buffer is an `array` of the query's length and `stackalloc` memory layout is not modelled. `ArrayPool` is a pool that hands out arrays at least as long as asked and logs returned contents; its internals are not modelled. The `checked` length at line 378 cannot overflow in the model, because lengths are unbounded.
- After an error, the reader's position is not constrained: in C# the exception leaves `Parse`, so no caller can observe where the cursor stopped. The methods' contracts relate only their results to the specification functions in that case.
- Exceptions become `Err` results. Their message texts (`"RESOURCES"`, the invalid-open-token format string) are reduced to a reason code and a token position.
- RequestParser.Utf8GraphQLRequestParser.ParseList: on a scalar element the C# cursor stays put and the list grows without bound until allocation fails; the model returns `NoProgress` at that element in place of that failure, and does not model memory.
- Envelope.CacheKey, Envelope.Resolve, RequestParser.DocumentCache.TryGet: `ComputeHash` and the cache lookup are modelled as total functions that never fail, so a failure of the hash provider or of the cache, which would propagate unchanged in C#, is not modelled.
- RequestParser.Utf8GraphQLRequestParser.ParseObject: the `while` loop at lines 286-289 is an `if`, because its body always fails on the first turn. The `Dictionary` it would fill, the `ParseValue` call and `obj.Add` at lines 308-309, and the duplicate-key exception they would raise are unreachable as written, so they are not modelled.
- RequestParser.Utf8GraphQLRequestParser.ParseObjectField: the dictionary parameter is dropped; the method returns the syntax error it always raises.
- RequestParser.Utf8GraphQLRequestParser.ResolveDocument: the cache branch of `ParseRequest` (lines 165-183) is a separate method in the model; it runs the same steps in the same order.
- The batch form (`ParseBatchRequest`) has no semantics beyond its `NotImplementedException`, and `AggressiveInlining` has no effect on behaviour.
