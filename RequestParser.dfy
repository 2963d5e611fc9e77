/**
 * The request parser as the object it is: a reader cursor that its methods advance,
 * the injected cache and hash provider, and the scratch buffer taken from a pool.
 * Each method is proved equal to its function in Values or Envelope.
 */
module RequestParser {
  import opened Tokens
  import opened Errors
  import opened Cursor
  import opened Collaborators
  import opened Values
  import opened Envelope

  /** GraphQLConstants.StackallocThreshold: queries up to this many bytes are unescaped on the stack. */
  const StackallocThreshold: nat := 256

  /** The reader (Utf8GraphQLReader) over the lexer's tokens of the request data. */
  class Reader {
    const tokens: seq<Token>
    var pos: nat

    ghost predicate Valid()
      reads this
    {
      pos <= |tokens| + 1
    }

    constructor (tokens: seq<Token>)
      ensures Valid() && this.tokens == tokens && pos == 0
    {
      this.tokens := tokens;
      pos := 0;
    }

    /** The current token's kind: the start-of-file marker before the first MoveNext, end of file past the last token. */
    function Kind(): (k: TokenKind)
      reads this
      ensures pos == 0 ==> k == StartOfFile
      ensures 1 <= pos <= |tokens| ==> k == tokens[pos - 1].kind
      ensures pos > |tokens| ==> k == EndOfFile
    {
      KindAt(tokens, pos)
    }

    /** The current token's raw bytes. */
    function Value(): (v: seq<byte>)
      reads this
      ensures 1 <= pos <= |tokens| ==> v == tokens[pos - 1].value
      ensures pos == 0 || pos > |tokens| ==> v == []
    {
      TokenAt(tokens, pos).value
    }

    method MoveNext()
      requires Valid()
      modifies this
      ensures Valid() && pos == Next(tokens, old(pos))
    {
      if pos <= |tokens| {
        pos := pos + 1;
      }
    }

    method Expect(kind: TokenKind) returns (r: Result<seq<byte>>)
      requires Valid()
      modifies this
      ensures Valid() && Lift(r, pos) == ExpectAt(tokens, old(pos), kind)
    {
      if Kind() != kind {
        return Err(SyntaxError(pos, ExpectedKind(kind)));
      }
      r := Ok(Value());
      MoveNext();
    }
  }

  /** IDocumentCache: documents stored under their keys by whoever fills the cache. */
  class DocumentCache {
    var entries: map<string, DocumentNode>

    constructor (entries: map<string, DocumentNode>)
      ensures this.entries == entries
    {
      this.entries := entries;
    }

    /** TryGet: the stored document, or None. */
    method TryGet(key: string) returns (document: Option<DocumentNode>)
      ensures document.Some? <==> key in entries
      ensures document.Some? ==> document.value == entries[key]
    {
      if key in entries {
        document := Some(entries[key]);
      } else {
        document := None;
      }
    }
  }

  /** IDocumentHashProvider. */
  class HashProvider {
    const computeHash: seq<byte> -> string

    constructor (computeHash: seq<byte> -> string)
      ensures this.computeHash == computeHash
    {
      this.computeHash := computeHash;
    }
  }

  /** ArrayPool<byte>.Shared, reduced to what the parser does with it: rents, and the contents it gets back. */
  class BufferPool {
    ghost var rents: nat
    ghost var returned: seq<seq<byte>>

    constructor ()
      ensures rents == 0 && returned == []
    {
      rents := 0;
      returned := [];
    }

    /** Rent: an array of at least the requested length. */
    method Rent(minimumLength: nat) returns (buffer: array<byte>)
      modifies this
      ensures fresh(buffer) && buffer.Length >= minimumLength
      ensures rents == old(rents) + 1 && returned == old(returned)
    {
      buffer := new byte[minimumLength];
      rents := rents + 1;
    }

    /** Return: the pool takes the array back with whatever it holds. */
    method Return(buffer: array<byte>)
      modifies this
      ensures rents == old(rents) && returned == old(returned) + [buffer[..]]
    {
      returned := returned + [buffer[..]];
    }
  }

  class Utf8GraphQLRequestParser {
    const reader: Reader
    const rt: Runtime
    const options: ParserOptions
    const cache: DocumentCache?
    const hashProvider: HashProvider?
    const useCache: bool
    const pool: BufferPool
    /** How many times ParseQuery ran. */
    ghost var queryParses: nat

    ghost predicate Valid()
      reads this, reader
    {
      reader.Valid() && (useCache ==> cache != null && hashProvider != null)
    }

    /** The configuration the specification functions read. */
    ghost function Config(): Config
      reads this, cache
    {
      Envelope.Config(rt, options,
        if useCache && cache != null && hashProvider != null
        then UseCache(cache.entries, hashProvider.computeHash)
        else NoCache)
    }

    constructor (tokens: seq<Token>, rt: Runtime, pool: BufferPool, options: ParserOptions,
                 cache: DocumentCache?, hashProvider: HashProvider?, useCache: bool)
      requires useCache ==> cache != null && hashProvider != null
      ensures Valid() && fresh(reader) && reader.tokens == tokens && reader.pos == 0
      ensures this.rt == rt && this.pool == pool && this.options == options
      ensures this.cache == cache && this.hashProvider == hashProvider && this.useCache == useCache
      ensures queryParses == 0
    {
      this.reader := new Reader(tokens);
      this.rt := rt;
      this.pool := pool;
      this.options := options;
      this.cache := cache;
      this.hashProvider := hashProvider;
      this.useCache := useCache;
      queryParses := 0;
    }

    /** The four-argument constructor: options, cache and hash provider are required; the cache is on. */
    static method WithCache(tokens: seq<Token>, rt: Runtime, pool: BufferPool, options: ParserOptions?,
                            cache: DocumentCache?, hashProvider: HashProvider?)
      returns (r: Result<Utf8GraphQLRequestParser>)
      ensures options == null ==> r == Err(ArgumentNull("options"))
      ensures options != null && cache == null ==> r == Err(ArgumentNull("cache"))
      ensures options != null && cache != null && hashProvider == null ==> r == Err(ArgumentNull("hashProvider"))
      ensures r.Ok? <==> options != null && cache != null && hashProvider != null
      ensures r.Ok? ==> fresh(r.value) && fresh(r.value.reader) && r.value.Valid()
      ensures r.Ok? ==> r.value.useCache && r.value.reader.tokens == tokens && r.value.reader.pos == 0
      ensures r.Ok? ==> r.value.options == options && r.value.cache == cache && r.value.hashProvider == hashProvider
      ensures r.Ok? ==> r.value.rt == rt && r.value.pool == pool
    {
      if options == null {
        return Err(ArgumentNull("options"));
      }
      if cache == null {
        return Err(ArgumentNull("cache"));
      }
      if hashProvider == null {
        return Err(ArgumentNull("hashProvider"));
      }
      var parser := new Utf8GraphQLRequestParser(tokens, rt, pool, options, cache, hashProvider, true);
      return Ok(parser);
    }

    /** The two-argument constructor: options are required; there is no cache. */
    static method WithoutCache(tokens: seq<Token>, rt: Runtime, pool: BufferPool, options: ParserOptions?)
      returns (r: Result<Utf8GraphQLRequestParser>)
      ensures r.Ok? <==> options != null
      ensures options == null ==> r == Err(ArgumentNull("options"))
      ensures r.Ok? ==> fresh(r.value) && fresh(r.value.reader) && r.value.Valid()
      ensures r.Ok? ==> !r.value.useCache && r.value.cache == null && r.value.hashProvider == null
      ensures r.Ok? ==> r.value.reader.tokens == tokens && r.value.reader.pos == 0
      ensures r.Ok? ==> r.value.options == options && r.value.rt == rt && r.value.pool == pool
    {
      if options == null {
        return Err(ArgumentNull("options"));
      }
      var parser := new Utf8GraphQLRequestParser(tokens, rt, pool, options, null, null, false);
      return Ok(parser);
    }

    method Parse() returns (r: Result<seq<GraphQLRequest>>)
      requires Valid()
      modifies this, reader, pool
      ensures Valid()
      ensures Lift(r, reader.pos) == ParseAt(old(Config()), reader.tokens, old(reader.pos))
      ensures queryParses == old(queryParses) +
                if KindAt(reader.tokens, Next(reader.tokens, old(reader.pos))) == LeftBrace &&
                   RequestCompiles(old(Config()), reader.tokens, Next(reader.tokens, old(reader.pos)))
                then 1 else 0
      ensures |pool.returned| - |old(pool.returned)| == pool.rents - old(pool.rents) <= 1
    {
      reader.MoveNext();
      if reader.Kind() == LeftBrace {
        var single := ParseRequest();
        if single.Err? {
          return Err(single.error);
        }
        return Ok([single.value]);
      }
      if reader.Kind() == LeftBracket {
        r := ParseBatchRequest();
        return;
      }
      return Err(SyntaxError(reader.pos, UnexpectedRequestStructure));
    }

    method ParseBatchRequest() returns (r: Result<seq<GraphQLRequest>>)
      ensures r == Err(NotImplemented)
    {
      return Err(NotImplemented);
    }

    method ParseRequest() returns (r: Result<GraphQLRequest>)
      requires Valid()
      modifies this, reader, pool
      ensures Valid()
      ensures Lift(r, reader.pos) == RequestAt(old(Config()), reader.tokens, old(reader.pos))
      ensures queryParses == old(queryParses) + if RequestCompiles(old(Config()), reader.tokens, old(reader.pos)) then 1 else 0
      ensures |pool.returned| - |old(pool.returned)| == pool.rents - old(pool.rents) <= 1
      ensures old(pool.returned) <= pool.returned
    {
      var ts := reader.tokens;
      ghost var cfg, p0 := Config(), reader.pos;
      var request := EmptyRequest;
      var openBrace := reader.Expect(LeftBrace);
      if openBrace.Err? {
        assert ScannedRequest(rt, ts, p0) == Err(openBrace.error);
        return Err(openBrace.error);
      }
      ghost var start := reader.pos;
      while reader.Kind() != RightBrace
        invariant reader.Valid() && start <= reader.pos
        invariant unchanged(this) && unchanged(pool)
        invariant PropertiesFrom(rt, ts, reader.pos, request) == PropertiesFrom(rt, ts, start, EmptyRequest)
        decreases |ts| + 2 - reader.pos
      {
        var updated := ParseProperty(request);
        if updated.Err? {
          assert ScannedRequest(rt, ts, p0) == Err(updated.error);
          return Err(updated.error);
        }
        request := updated.value;
        reader.MoveNext();
      }
      assert ScannedRequest(rt, ts, p0) == Ok(Parsed(request, reader.pos));
      assert !RequestCompiles(cfg, ts, p0) <==> |request.query| == 0 || !CompilesQuery(cfg.cache, request);
      if |request.query| == 0 {
        return Err(SyntaxError(reader.pos, MissingQuery));
      }
      var resolved := ResolveDocument(request);
      if resolved.Err? {
        return Err(resolved.error);
      }
      var (alias, document) := resolved.value;
      return Ok(GraphQLRequest(request.operationName, alias, document, request.variables, request.extensions));
    }

    /**
     * The query-resolution part of ParseRequest: with the cache on, default the named
     * query to the hash of the raw query and look it up, calling ParseQuery only on a
     * miss (nothing is stored back); with the cache off, always call ParseQuery.
     */
    method ResolveDocument(request: Request) returns (r: Result<(Option<string>, DocumentNode)>)
      requires Valid()
      modifies this, pool
      ensures Valid()
      ensures r == Resolve(old(Config()), request)
      ensures queryParses == old(queryParses) + if CompilesQuery(old(Config()).cache, request) then 1 else 0
      ensures |pool.returned| - |old(pool.returned)| == pool.rents - old(pool.rents) <= 1
      ensures old(pool.returned) <= pool.returned
    {
      var document: DocumentNode;
      var namedQuery := request.namedQuery;
      ghost var scratch;
      if useCache {
        if namedQuery.None? {
          namedQuery := Some(hashProvider.computeHash(request.query));
        }
        var cached := cache.TryGet(namedQuery.value);
        if cached.Some? {
          document := cached.value;
        } else {
          var compiled;
          compiled, scratch := ParseQuery(request);
          if compiled.Err? {
            return Err(compiled.error);
          }
          document := compiled.value;
        }
      } else {
        var compiled;
        compiled, scratch := ParseQuery(request);
        if compiled.Err? {
          return Err(compiled.error);
        }
        document := compiled.value;
      }
      return Ok((namedQuery, document));
    }

    /** ParseProperty, updating the request the source passes by reference. */
    method ParseProperty(request: Request) returns (r: Result<Request>)
      requires Valid()
      modifies reader
      ensures Valid()
      ensures Lift(r, reader.pos) == ApplyPropertyResult(PropertyAt(rt, reader.tokens, old(reader.pos)), request)
    {
      var fieldName := reader.Expect(String);
      if fieldName.Err? {
        return Err(fieldName.error);
      }
      var colon := reader.Expect(Colon);
      if colon.Err? {
        return Err(colon.error);
      }
      var field := ClassifyField(fieldName.value, reader.pos);
      if field.Err? {
        return Err(field.error);
      }
      match field.value {
        case OperationName =>
          var v := ExpectStringValue();
          if v.Err? {
            return Err(v.error);
          }
          return Ok(request.(operationName := v.value));
        case NamedQuery =>
          var v := ExpectStringValue();
          if v.Err? {
            return Err(v.error);
          }
          return Ok(request.(namedQuery := v.value));
        case Query =>
          return Ok(request.(query := reader.Value()));
        case Variables =>
          var v := ExpectObjectValue();
          if v.Err? {
            return Err(v.error);
          }
          return Ok(request.(variables := v.value));
        case Extensions =>
          var v := ExpectObjectValue();
          if v.Err? {
            return Err(v.error);
          }
          return Ok(request.(extensions := v.value));
      }
    }

    method ParseValue() returns (r: Result<Value>)
      requires reader.Valid()
      modifies reader
      ensures reader.Valid()
      ensures Lift(r, reader.pos) == ValueAt(rt, reader.tokens, old(reader.pos))
      decreases |reader.tokens| + 2 - reader.pos, 1
    {
      match reader.Kind() {
        case LeftBracket =>
          r := ParseList();
        case LeftBrace =>
          var obj := ParseObject();
          r := if obj.Ok? then Ok(Object(obj.value)) else Err(obj.error);
        case Name | String | Integer | Float =>
          r := ParseScalarValue();
        case _ =>
          r := Err(SyntaxError(reader.pos, InvalidValue));
      }
    }

    /**
     * ParseObject. The source loops on ParseObjectField until `}`, but ParseObjectField
     * never returns normally, so that loop's body runs at most once and is written here
     * as a test.
     */
    method ParseObject() returns (r: Result<map<string, Value>>)
      requires reader.Valid()
      modifies reader
      ensures reader.Valid()
      ensures Lift(r, reader.pos) == ObjectAt(reader.tokens, old(reader.pos))
    {
      if reader.Kind() != LeftBrace {
        return Err(SyntaxError(reader.pos, InvalidOpenToken(LeftBrace)));
      }
      var opening := reader.Expect(LeftBrace);
      assert opening.Ok?;
      var obj: map<string, Value> := map[];
      if reader.Kind() != RightBrace {
        var e := ParseObjectField();
        return Err(e);
      }
      var closing := reader.Expect(RightBrace);
      assert closing.Ok?;
      return Ok(obj);
    }

    /**
     * ParseObjectField: requires a String key, reads it with GetString (which does not
     * advance), then Expect(Colon) meets that same String token and fails.
     */
    method ParseObjectField() returns (e: ParseError)
      requires reader.Valid()
      modifies reader
      ensures reader.Valid()
      ensures e == ObjectFieldError(reader.tokens, old(reader.pos))
    {
      if reader.Kind() != String {
        return SyntaxError(reader.pos, ExpectedFieldName);
      }
      var colon := reader.Expect(Colon);
      assert colon.Err?;
      return colon.error;
    }

    method ParseList() returns (r: Result<Value>)
      requires reader.Valid()
      modifies reader
      ensures reader.Valid()
      ensures Lift(r, reader.pos) == ListAt(rt, reader.tokens, old(reader.pos))
      decreases |reader.tokens| + 2 - reader.pos, 0
    {
      var ts := reader.tokens;
      if reader.Kind() != LeftBracket {
        return Err(SyntaxError(reader.pos, InvalidOpenToken(LeftBracket)));
      }
      var list: seq<Value> := [];
      reader.MoveNext();
      ghost var start := reader.pos;
      while reader.Kind() != RightBracket
        invariant reader.Valid() && old(reader.pos) < start <= reader.pos
        invariant ListItemsFrom(rt, ts, reader.pos, list) == ListItemsFrom(rt, ts, start, [])
        decreases |ts| + 2 - reader.pos
      {
        var before := reader.pos;
        var element := ParseValue();
        if element.Err? {
          return Err(element.error);
        }
        if reader.pos == before {
          // the cursor is where this turn began: the source re-adds the same element until allocation fails
          return Err(NoProgress(before));
        }
        list := list + [element.value];
      }
      var closing := reader.Expect(RightBracket);
      assert closing.Ok?;
      return Ok(List(list));
    }

    /** ParseScalarValue: reads the current token without advancing. */
    method ParseScalarValue() returns (r: Result<Value>)
      ensures r == ScalarOf(rt, TokenAt(reader.tokens, reader.pos), reader.pos)
    {
      var kind := reader.Kind();
      if kind == String {
        return Ok(Str(rt.getString(reader.Value())));
      }
      if kind == Integer {
        var n := rt.readInteger(reader.Value());
        if n.None? {
          return Err(BadNumber(reader.pos));
        }
        if !(MinLong <= n.value <= MaxLong) {
          return Err(Overflow(reader.pos));
        }
        return Ok(Long(n.value));
      }
      if kind == Float {
        var d := rt.readDecimal(reader.Value());
        if d.None? {
          return Err(BadNumber(reader.pos));
        }
        return Ok(Decimal(d.value));
      }
      if kind == Name {
        if reader.Value() == TrueKeyword {
          return Ok(Bool(true));
        }
        if reader.Value() == FalseKeyword {
          return Ok(Bool(false));
        }
        if reader.Value() == NullKeyword {
          return Ok(Null);
        }
      }
      return Err(SyntaxError(reader.pos, InvalidValue));
    }

    /**
     * ParseQuery: unescape the raw query into a scratch buffer of its length (on the
     * stack up to StackallocThreshold bytes, otherwise rented from the pool), compile
     * it, and in every case clear and return a rented buffer. `scratch` is the
     * buffer's final contents.
     */
    method ParseQuery(request: Request) returns (r: Result<DocumentNode>, ghost scratch: seq<byte>)
      modifies this, pool
      ensures r == QueryDocument(rt, options, request.query)
      ensures queryParses == old(queryParses) + 1
      ensures |request.query| <= StackallocThreshold ==>
                |scratch| == |request.query| && pool.rents == old(pool.rents) && pool.returned == old(pool.returned)
      ensures |request.query| <= StackallocThreshold && rt.unescape(request.query).Some? ==>
                scratch[..|rt.unescape(request.query).value|] == rt.unescape(request.query).value
      ensures |request.query| > StackallocThreshold ==>
                |scratch| >= |request.query| && pool.rents == old(pool.rents) + 1 &&
                pool.returned == old(pool.returned) + [scratch]
      ensures |request.query| > StackallocThreshold && rt.unescape(request.query).Some? ==>
                forall i :: 0 <= i < |rt.unescape(request.query).value| ==> scratch[i] == 0
      ensures |request.query| > StackallocThreshold && rt.unescape(request.query).None? ==>
                forall i :: 0 <= i < |scratch| ==> scratch[i] == 0
    {
      var length := |request.query|;
      var useStackalloc := length <= StackallocThreshold;
      var buffer: array<byte>;
      if useStackalloc {
        buffer := new byte[length];
      } else {
        buffer := pool.Rent(length);
      }
      // the span over the buffer; Unescape narrows it to the bytes it wrote
      var spanLength := buffer.Length;
      var unescaped := rt.unescape(request.query);
      assert FitsInput(rt.unescape, request.query);
      if unescaped.Some? {
        var u := unescaped.value;
        forall i | 0 <= i < |u| {
          buffer[i] := u[i];
        }
        spanLength := |u|;
        assert buffer[..spanLength] == u;
        var compiled := rt.compile(buffer[..spanLength], options);
        r := if compiled.Some? then Ok(compiled.value) else Err(CompileFailed);
      } else {
        r := Err(UnescapeFailed);
      }
      // finally
      if !useStackalloc {
        forall i | 0 <= i < spanLength {
          buffer[i] := 0;
        }
        pool.Return(buffer);
      }
      scratch := buffer[..];
      queryParses := queryParses + 1;
    }

    /** ExpectStringValue: reads the current token without advancing. */
    method ExpectStringValue() returns (r: Result<Option<string>>)
      ensures r == StringOrNullOf(rt, TokenAt(reader.tokens, reader.pos), reader.pos)
    {
      if reader.Kind() == String {
        return Ok(Some(rt.getString(reader.Value())));
      }
      if reader.Kind() == Name && reader.Value() == NullKeyword {
        return Ok(None);
      }
      return Err(SyntaxError(reader.pos, InvalidValue));
    }

    method ExpectObjectValue() returns (r: Result<Option<map<string, Value>>>)
      requires reader.Valid()
      modifies reader
      ensures reader.Valid()
      ensures Lift(r, reader.pos) == ObjectOrNullAt(reader.tokens, old(reader.pos))
    {
      if reader.Kind() == LeftBrace {
        var obj := ParseObject();
        if obj.Err? {
          return Err(obj.error);
        }
        return Ok(Some(obj.value));
      }
      if reader.Kind() == Name && reader.Value() == NullKeyword {
        return Ok(None);
      }
      return Err(SyntaxError(reader.pos, InvalidValue));
    }
  }
}
