/**
 * The request envelope: the field router (ParseProperty), the property loop of
 * ParseRequest, query resolution with the optional document cache (ParseRequest and
 * ParseQuery), and the top-level dispatch (Parse), as functions of the token
 * sequence, the cursor position and the configuration.
 */
module Envelope {
  import opened Tokens
  import opened Errors
  import opened Cursor
  import opened Collaborators
  import opened Values

  /** The five recognised envelope fields. */
  datatype Field = OperationName | NamedQuery | Query | Variables | Extensions

  /** The case labels of ParseProperty's switch on the first byte of the name. */
  function SwitchByte(f: Field): byte
  {
    match f
    case OperationName => AsciiByte('o')
    case NamedQuery => AsciiByte('n')
    case Query => AsciiByte('q')
    case Variables => AsciiByte('v')
    case Extensions => AsciiByte('e')
  }

  /**
   * The exact bytes of each recognised field name, as the byte arrays of the source
   * spell them. Each starts with its field's case label, so the switch leads every
   * name to its own comparison.
   */
  function FieldName(f: Field): (n: seq<byte>)
    ensures |n| > 0 && n[0] == SwitchByte(f)
  {
    match f
    case OperationName => [0x6F, 0x70, 0x65, 0x72, 0x61, 0x74, 0x69, 0x6F, 0x6E, 0x4E, 0x61, 0x6D, 0x65]  // operationName
    case NamedQuery => [0x6E, 0x61, 0x6D, 0x65, 0x64, 0x51, 0x75, 0x65, 0x72, 0x79]  // namedQuery
    case Query => [0x71, 0x75, 0x65, 0x72, 0x79]  // query
    case Variables => [0x76, 0x61, 0x72, 0x69, 0x61, 0x62, 0x6C, 0x65, 0x73]  // variables
    case Extensions => [0x65, 0x78, 0x74, 0x65, 0x6E, 0x73, 0x69, 0x6F, 0x6E, 0x73]  // extensions
  }

  /**
   * The switch of ParseProperty: dispatch on the first byte, then compare the whole
   * name. An empty name fails on the fieldName[0] index; any other mismatch is an
   * unknown field, reported at position `at`.
   */
  function ClassifyField(name: seq<byte>, at: nat): (r: Result<Field>)
    ensures r == Err(IndexOutOfRange) <==> name == []
    ensures r.Ok? ==> name == FieldName(r.value)
    ensures r.Err? ==> r == Err(IndexOutOfRange) || r == Err(SyntaxError(at, UnknownField))
  {
    if |name| == 0 then Err(IndexOutOfRange)
    else
      var first := name[0];
      if first == SwitchByte(OperationName) && name == FieldName(OperationName) then Ok(OperationName)
      else if first == SwitchByte(NamedQuery) && name == FieldName(NamedQuery) then Ok(NamedQuery)
      else if first == SwitchByte(Query) && name == FieldName(Query) then Ok(Query)
      else if first == SwitchByte(Variables) && name == FieldName(Variables) then Ok(Variables)
      else if first == SwitchByte(Extensions) && name == FieldName(Extensions) then Ok(Extensions)
      else Err(SyntaxError(at, UnknownField))
  }

  /** A field name is accepted exactly when it equals one of the five names byte for byte. */
  lemma ClassifyFieldExact(name: seq<byte>, at: nat)
    ensures name == [] ==> ClassifyField(name, at) == Err(IndexOutOfRange)
    ensures forall f :: name == FieldName(f) ==> ClassifyField(name, at) == Ok(f)
    ensures ClassifyField(name, at).Ok? ==> name == FieldName(ClassifyField(name, at).value)
    ensures name != [] && (forall f :: name != FieldName(f)) ==>
              ClassifyField(name, at) == Err(SyntaxError(at, UnknownField))
  {
  }

  /** The Request being accumulated: the raw query bytes are still escaped. */
  datatype Request = Request(
    operationName: Option<string>,
    namedQuery: Option<string>,
    query: seq<byte>,
    variables: Option<map<string, Value>>,
    extensions: Option<map<string, Value>>)

  /** A new Request: every field absent, the query span empty. */
  const EmptyRequest: Request := Request(None, None, [], None, None)

  /** A new Request holds no value in any field: each field reads as absent, the query as no bytes. */
  lemma EmptyRequestUnset(f: Field)
    ensures f == OperationName ==> Get(EmptyRequest, f) == SetOperationName(None)
    ensures f == NamedQuery ==> Get(EmptyRequest, f) == SetNamedQuery(None)
    ensures f == Query ==> Get(EmptyRequest, f) == SetQuery([])
    ensures f == Variables ==> Get(EmptyRequest, f) == SetVariables(None)
    ensures f == Extensions ==> Get(EmptyRequest, f) == SetExtensions(None)
  {
  }

  /** The assignment one property makes to the Request. */
  datatype FieldUpdate =
    | SetOperationName(operationName: Option<string>)
    | SetNamedQuery(namedQuery: Option<string>)
    | SetQuery(query: seq<byte>)
    | SetVariables(variables: Option<map<string, Value>>)
    | SetExtensions(extensions: Option<map<string, Value>>)

  function FieldOf(u: FieldUpdate): Field
  {
    match u
    case SetOperationName(_) => OperationName
    case SetNamedQuery(_) => NamedQuery
    case SetQuery(_) => Query
    case SetVariables(_) => Variables
    case SetExtensions(_) => Extensions
  }

  function Apply(u: FieldUpdate, req: Request): Request
  {
    match u
    case SetOperationName(v) => req.(operationName := v)
    case SetNamedQuery(v) => req.(namedQuery := v)
    case SetQuery(v) => req.(query := v)
    case SetVariables(v) => req.(variables := v)
    case SetExtensions(v) => req.(extensions := v)
  }

  /** The current content of one field of a Request. */
  function Get(req: Request, f: Field): FieldUpdate
  {
    match f
    case OperationName => SetOperationName(req.operationName)
    case NamedQuery => SetNamedQuery(req.namedQuery)
    case Query => SetQuery(req.query)
    case Variables => SetVariables(req.variables)
    case Extensions => SetExtensions(req.extensions)
  }

  /** An update replaces its own field and leaves the other four alone. */
  lemma ApplyReplacesOneField(u: FieldUpdate, req: Request, f: Field)
    ensures Get(Apply(u, req), f) == if FieldOf(u) == f then u else Get(req, f)
  {
  }

  /**
   * The value after the colon, routed by field. operationName and namedQuery take a
   * string or null; query keeps the raw bytes of whatever token follows, with no kind
   * check and no advance; variables and extensions take an object or null.
   */
  function FieldValue(rt: Runtime, ts: seq<Token>, p: nat, f: Field): (r: Result<Parsed<FieldUpdate>>)
    requires p <= |ts| + 1
    ensures r.Ok? ==> FieldOf(r.value.value) == f && p <= r.value.next <= |ts| + 1
    ensures f == Query ==> r == Ok(Parsed(SetQuery(TokenAt(ts, p).value), p))
    ensures f == OperationName ==>
              (r.Ok? <==> StringOrNullOf(rt, TokenAt(ts, p), p).Ok?) &&
              (r.Ok? ==> r.value == Parsed(SetOperationName(StringOrNullOf(rt, TokenAt(ts, p), p).value), p))
    ensures f == NamedQuery ==>
              (r.Ok? <==> StringOrNullOf(rt, TokenAt(ts, p), p).Ok?) &&
              (r.Ok? ==> r.value == Parsed(SetNamedQuery(StringOrNullOf(rt, TokenAt(ts, p), p).value), p))
    ensures f == Variables ==>
              (r.Ok? <==> ObjectOrNullAt(ts, p).Ok?) &&
              (r.Ok? ==> r.value == Parsed(SetVariables(ObjectOrNullAt(ts, p).value.value), ObjectOrNullAt(ts, p).value.next))
    ensures f == Extensions ==>
              (r.Ok? <==> ObjectOrNullAt(ts, p).Ok?) &&
              (r.Ok? ==> r.value == Parsed(SetExtensions(ObjectOrNullAt(ts, p).value.value), ObjectOrNullAt(ts, p).value.next))
    ensures r.Err? && (f == OperationName || f == NamedQuery) ==> r.error == StringOrNullOf(rt, TokenAt(ts, p), p).error
    ensures r.Err? && (f == Variables || f == Extensions) ==> r.error == ObjectOrNullAt(ts, p).error
  {
    match f
    case OperationName =>
      (match StringOrNullOf(rt, TokenAt(ts, p), p)
       case Err(e) => Err(e)
       case Ok(v) => Ok(Parsed(SetOperationName(v), p)))
    case NamedQuery =>
      (match StringOrNullOf(rt, TokenAt(ts, p), p)
       case Err(e) => Err(e)
       case Ok(v) => Ok(Parsed(SetNamedQuery(v), p)))
    case Query => Ok(Parsed(SetQuery(TokenAt(ts, p).value), p))
    case Variables =>
      (match ObjectOrNullAt(ts, p)
       case Err(e) => Err(e)
       case Ok(Parsed(v, q)) => Ok(Parsed(SetVariables(v), q)))
    case Extensions =>
      (match ObjectOrNullAt(ts, p)
       case Err(e) => Err(e)
       case Ok(Parsed(v, q)) => Ok(Parsed(SetExtensions(v), q)))
  }

  /** ParseProperty: Expect(String) gives the name, Expect(Colon), then the routed value. */
  function PropertyAt(rt: Runtime, ts: seq<Token>, p: nat): (r: Result<Parsed<FieldUpdate>>)
    requires p <= |ts| + 1
    ensures r.Ok? ==> p + 2 <= r.value.next <= |ts| + 1
    ensures r.Ok? ==> KindAt(ts, p) == String && KindAt(ts, p + 1) == Colon
    ensures r.Ok? ==> TokenAt(ts, p).value == FieldName(FieldOf(r.value.value))
    ensures KindAt(ts, p) != String ==> r == Err(SyntaxError(p, ExpectedKind(String)))
    ensures KindAt(ts, p) == String && KindAt(ts, p + 1) != Colon ==> r == Err(SyntaxError(p + 1, ExpectedKind(Colon)))
  {
    match ExpectAt(ts, p, String)
    case Err(e) => Err(e)
    case Ok(Parsed(name, p1)) =>
      match ExpectAt(ts, p1, Colon)
      case Err(e) => Err(e)
      case Ok(Parsed(_, p2)) =>
        ClassifyFieldExact(name, p2);
        match ClassifyField(name, p2)
        case Err(e) => Err(e)
        case Ok(f) => FieldValue(rt, ts, p2, f)
  }

  /** The router, end to end: which name is accepted, and what a rejected name fails with. */
  lemma PropertyRouting(rt: Runtime, ts: seq<Token>, p: nat)
    requires p <= |ts| + 1
    requires KindAt(ts, p) == String && KindAt(ts, p + 1) == Colon
    ensures TokenAt(ts, p).value == [] ==> PropertyAt(rt, ts, p) == Err(IndexOutOfRange)
    ensures (forall f :: TokenAt(ts, p).value != FieldName(f)) && TokenAt(ts, p).value != [] ==>
              PropertyAt(rt, ts, p) == Err(SyntaxError(p + 2, UnknownField))
    ensures forall f :: TokenAt(ts, p).value == FieldName(f) ==>
              PropertyAt(rt, ts, p) == FieldValue(rt, ts, p + 2, f)
  {
    ClassifyFieldExact(TokenAt(ts, p).value, p + 2);
  }

  /** The while loop of ParseRequest: properties until `}`, with a MoveNext after each. */
  function PropertiesFrom(rt: Runtime, ts: seq<Token>, p: nat, req: Request): (r: Result<Parsed<Request>>)
    requires p <= |ts| + 1
    ensures r.Ok? ==> p <= r.value.next <= |ts| && KindAt(ts, r.value.next) == RightBrace
    decreases |ts| + 2 - p
  {
    if KindAt(ts, p) == RightBrace then Ok(Parsed(req, p))
    else
      match PropertyAt(rt, ts, p)
      case Err(e) => Err(e)
      case Ok(Parsed(u, q)) => PropertiesFrom(rt, ts, Next(ts, q), Apply(u, req))
  }

  /** The same loop, listing the updates in source order instead of applying them. */
  function UpdatesFrom(rt: Runtime, ts: seq<Token>, p: nat): (r: Result<Parsed<seq<FieldUpdate>>>)
    requires p <= |ts| + 1
    decreases |ts| + 2 - p
  {
    if KindAt(ts, p) == RightBrace then Ok(Parsed([], p))
    else
      match PropertyAt(rt, ts, p)
      case Err(e) => Err(e)
      case Ok(Parsed(u, q)) =>
        match UpdatesFrom(rt, ts, Next(ts, q))
        case Err(e) => Err(e)
        case Ok(Parsed(us, n)) => Ok(Parsed([u] + us, n))
  }

  /** Applies updates from first to last. */
  function ApplyAll(us: seq<FieldUpdate>, req: Request): Request
    decreases |us|
  {
    if |us| == 0 then req else ApplyAll(us[1..], Apply(us[0], req))
  }

  /** The last update to field f, searching from the end; d when there is none. */
  function LastFor(us: seq<FieldUpdate>, f: Field, d: FieldUpdate): FieldUpdate
    decreases |us|
  {
    if |us| == 0 then d
    else if FieldOf(us[|us| - 1]) == f then us[|us| - 1]
    else LastFor(us[..|us| - 1], f, d)
  }

  function ApplyResult(r: Result<Parsed<seq<FieldUpdate>>>, req: Request): Result<Parsed<Request>>
  {
    match r
    case Err(e) => Err(e)
    case Ok(Parsed(us, n)) => Ok(Parsed(ApplyAll(us, req), n))
  }

  /** Applies the update one property makes to a given request. */
  function ApplyPropertyResult(r: Result<Parsed<FieldUpdate>>, req: Request): Result<Parsed<Request>>
  {
    match r
    case Err(e) => Err(e)
    case Ok(Parsed(u, n)) => Ok(Parsed(Apply(u, req), n))
  }

  /** The property loop is the in-order application of the updates its properties make. */
  lemma {:induction false} PropertiesFromIsFold(rt: Runtime, ts: seq<Token>, p: nat, req: Request)
    requires p <= |ts| + 1
    ensures PropertiesFrom(rt, ts, p, req) == ApplyResult(UpdatesFrom(rt, ts, p), req)
    decreases |ts| + 2 - p
  {
    if KindAt(ts, p) != RightBrace {
      match PropertyAt(rt, ts, p)
      case Err(e) =>
      case Ok(Parsed(u, q)) =>
        PropertiesFromIsFold(rt, ts, Next(ts, q), Apply(u, req));
        match UpdatesFrom(rt, ts, Next(ts, q))
        case Err(e) =>
        case Ok(Parsed(us, n)) =>
          assert ([u] + us)[1..] == us;
    }
  }

  /** Pushing one update to the front of the search: it matters only if nothing later writes the field. */
  lemma {:induction false} LastForFront(u: FieldUpdate, us: seq<FieldUpdate>, f: Field, d: FieldUpdate)
    ensures LastFor([u] + us, f, d) == LastFor(us, f, if FieldOf(u) == f then u else d)
    decreases |us|
  {
    if |us| > 0 {
      var w := [u] + us;
      assert w[|w| - 1] == us[|us| - 1];
      assert w[..|w| - 1] == [u] + us[..|us| - 1];
      LastForFront(u, us[..|us| - 1], f, d);
    } else {
      assert [u] + us == [u];
      assert ([u] + us)[..0] == [];
    }
  }

  /** A field written several times ends with the last value written; an unwritten field keeps its value. */
  lemma {:induction false} ApplyAllLastWins(us: seq<FieldUpdate>, req: Request, f: Field)
    ensures Get(ApplyAll(us, req), f) == LastFor(us, f, Get(req, f))
    decreases |us|
  {
    if |us| > 0 {
      ApplyAllLastWins(us[1..], Apply(us[0], req), f);
      ApplyReplacesOneField(us[0], req, f);
      assert [us[0]] + us[1..] == us;
      LastForFront(us[0], us[1..], f, Get(req, f));
    }
  }

  // ---------------------------------------------------------------- query resolution

  /** Whether the parser consults a document cache (the four-argument constructor) or not. */
  datatype CacheView =
    | NoCache
    | UseCache(entries: map<string, DocumentNode>, computeHash: seq<byte> -> string)

  datatype Config = Config(rt: Runtime, options: ParserOptions, cache: CacheView)

  /** ParseQuery's result: unescape the raw query, then compile the unescaped bytes. */
  function QueryDocument(rt: Runtime, options: ParserOptions, query: seq<byte>): (r: Result<DocumentNode>)
    ensures r.Ok? <==> rt.unescape(query).Some? && rt.compile(rt.unescape(query).value, options).Some?
    ensures r.Ok? ==> r.value == rt.compile(rt.unescape(query).value, options).value
    ensures rt.unescape(query).None? ==> r == Err(UnescapeFailed)
    ensures rt.unescape(query).Some? ==> |rt.unescape(query).value| <= |query|
    ensures rt.unescape(query).Some? && rt.compile(rt.unescape(query).value, options).None? ==>
              r == Err(CompileFailed)
    ensures r.Err? ==> r.error == UnescapeFailed || r.error == CompileFailed
  {
    assert FitsInput(rt.unescape, query);
    match rt.unescape(query)
    case None => Err(UnescapeFailed)
    case Some(u) =>
      match rt.compile(u, options)
      case None => Err(CompileFailed)
      case Some(d) => Ok(d)
  }

  /** The cache key: the named query when one was given, otherwise the hash of the raw query bytes. */
  function CacheKey(computeHash: seq<byte> -> string, req: Request): (k: string)
    ensures req.namedQuery.Some? ==> k == req.namedQuery.value
    ensures req.namedQuery.None? ==> k == computeHash(req.query)
  {
    if req.namedQuery.Some? then req.namedQuery.value else computeHash(req.query)
  }

  /** Whether resolving this request calls ParseQuery: always without a cache, on a miss with one. */
  predicate CompilesQuery(cache: CacheView, req: Request)
  {
    cache.NoCache? || CacheKey(cache.computeHash, req) !in cache.entries
  }

  /** The alias recorded on the result and the document. */
  function Resolve(cfg: Config, req: Request): (r: Result<(Option<string>, DocumentNode)>)
    ensures cfg.cache.NoCache? && r.Ok? ==> r.value.0 == req.namedQuery
    ensures cfg.cache.UseCache? && r.Ok? ==> r.value.0 == Some(CacheKey(cfg.cache.computeHash, req))
    ensures cfg.cache.UseCache? && req.namedQuery.None? && r.Ok? ==>
              r.value.0 == Some(cfg.cache.computeHash(req.query))
    ensures !CompilesQuery(cfg.cache, req) ==>
              r == Ok((Some(CacheKey(cfg.cache.computeHash, req)),
                       cfg.cache.entries[CacheKey(cfg.cache.computeHash, req)]))
    ensures CompilesQuery(cfg.cache, req) ==>
              (r.Ok? <==> QueryDocument(cfg.rt, cfg.options, req.query).Ok?) &&
              (r.Ok? ==> r.value.1 == QueryDocument(cfg.rt, cfg.options, req.query).value) &&
              (r.Err? ==> r.error == QueryDocument(cfg.rt, cfg.options, req.query).error)
  {
    match cfg.cache
    case NoCache =>
      (match QueryDocument(cfg.rt, cfg.options, req.query)
       case Err(e) => Err(e)
       case Ok(d) => Ok((req.namedQuery, d)))
    case UseCache(entries, computeHash) =>
      var key := CacheKey(computeHash, req);
      if key in entries then Ok((Some(key), entries[key]))
      else
        match QueryDocument(cfg.rt, cfg.options, req.query)
        case Err(e) => Err(e)
        case Ok(d) => Ok((Some(key), d))
  }

  /** What ParseRequest returns. */
  datatype GraphQLRequest = GraphQLRequest(
    operationName: Option<string>,
    namedQuery: Option<string>,
    document: DocumentNode,
    variables: Option<map<string, Value>>,
    extensions: Option<map<string, Value>>)

  /** The envelope up to its closing `}`: Expect(LeftBrace), then the property loop. */
  function ScannedRequest(rt: Runtime, ts: seq<Token>, p: nat): (r: Result<Parsed<Request>>)
    requires p <= |ts| + 1
    ensures r.Ok? ==> KindAt(ts, p) == LeftBrace
    ensures r.Ok? ==> p < r.value.next <= |ts| && KindAt(ts, r.value.next) == RightBrace
  {
    match ExpectAt(ts, p, LeftBrace)
    case Err(e) => Err(e)
    case Ok(Parsed(_, p1)) => PropertiesFrom(rt, ts, p1, EmptyRequest)
  }

  /** ParseRequest. The cursor is left on the envelope's `}`. */
  function RequestAt(cfg: Config, ts: seq<Token>, p: nat): (r: Result<Parsed<GraphQLRequest>>)
    requires p <= |ts| + 1
    ensures r.Ok? ==> ScannedRequest(cfg.rt, ts, p).Ok?
    ensures ScannedRequest(cfg.rt, ts, p).Err? ==> r == Err(ScannedRequest(cfg.rt, ts, p).error)
    ensures ScannedRequest(cfg.rt, ts, p).Ok? && |ScannedRequest(cfg.rt, ts, p).value.value.query| == 0 ==>
              r == Err(SyntaxError(ScannedRequest(cfg.rt, ts, p).value.next, MissingQuery))
    ensures r.Ok? ==>
              var Parsed(req, q) := ScannedRequest(cfg.rt, ts, p).value;
              |req.query| > 0 && r.value.next == q &&
              r.value.value.operationName == req.operationName &&
              r.value.value.variables == req.variables &&
              r.value.value.extensions == req.extensions &&
              Resolve(cfg, req) == Ok((r.value.value.namedQuery, r.value.value.document))
    ensures var s := ScannedRequest(cfg.rt, ts, p);
            s.Ok? && |s.value.value.query| > 0 ==>
              (r.Ok? <==> Resolve(cfg, s.value.value).Ok?) &&
              (r.Err? ==> r.error == Resolve(cfg, s.value.value).error)
  {
    match ScannedRequest(cfg.rt, ts, p)
    case Err(e) => Err(e)
    case Ok(Parsed(req, q)) =>
      if |req.query| == 0 then Err(SyntaxError(q, MissingQuery))
      else
        match Resolve(cfg, req)
        case Err(e) => Err(e)
        case Ok((alias, document)) =>
          Ok(Parsed(GraphQLRequest(req.operationName, alias, document, req.variables, req.extensions), q))
  }

  /** Whether ParseRequest calls ParseQuery. */
  predicate RequestCompiles(cfg: Config, ts: seq<Token>, p: nat)
    requires p <= |ts| + 1
  {
    var s := ScannedRequest(cfg.rt, ts, p);
    s.Ok? && |s.value.value.query| > 0 && CompilesQuery(cfg.cache, s.value.value)
  }

  /** The single request of a non-batch envelope, as the one-element list Parse returns. */
  function OneRequest(r: Result<Parsed<GraphQLRequest>>): (s: Result<Parsed<seq<GraphQLRequest>>>)
    ensures s.Ok? <==> r.Ok?
    ensures s.Ok? ==> s.value == Parsed([r.value.value], r.value.next)
    ensures s.Err? ==> s.error == r.error
  {
    match r
    case Err(e) => Err(e)
    case Ok(Parsed(single, q)) => Ok(Parsed([single], q))
  }

  /** Parse: MoveNext onto the first token, then one envelope, the unimplemented batch, or an error. */
  function ParseAt(cfg: Config, ts: seq<Token>, p: nat): (r: Result<Parsed<seq<GraphQLRequest>>>)
    requires p <= |ts| + 1
    ensures r.Ok? ==> KindAt(ts, Next(ts, p)) == LeftBrace && |r.value.value| == 1
    ensures KindAt(ts, Next(ts, p)) == LeftBrace ==>
              (r.Ok? <==> RequestAt(cfg, ts, Next(ts, p)).Ok?) &&
              (r.Ok? ==> r.value == Parsed([RequestAt(cfg, ts, Next(ts, p)).value.value],
                                           RequestAt(cfg, ts, Next(ts, p)).value.next)) &&
              (r.Err? ==> r.error == RequestAt(cfg, ts, Next(ts, p)).error)
    ensures KindAt(ts, Next(ts, p)) == LeftBracket ==> r == Err(NotImplemented)
    ensures KindAt(ts, Next(ts, p)) != LeftBrace && KindAt(ts, Next(ts, p)) != LeftBracket ==>
              r == Err(SyntaxError(Next(ts, p), UnexpectedRequestStructure))
  {
    var first := Next(ts, p);
    if KindAt(ts, first) == LeftBrace then
      OneRequest(RequestAt(cfg, ts, first))
    else if KindAt(ts, first) == LeftBracket then Err(NotImplemented)
    else Err(SyntaxError(first, UnexpectedRequestStructure))
  }

  // ---------------------------------------------------------------- envelope-level properties

  /**
   * A recognised field given more than once keeps the last value: each field of the
   * scanned request is the last update the envelope made to it, or its initial value.
   */
  lemma RepeatedFieldLastWins(rt: Runtime, ts: seq<Token>, p: nat, f: Field)
    requires p <= |ts| + 1
    requires UpdatesFrom(rt, ts, p).Ok?
    ensures PropertiesFrom(rt, ts, p, EmptyRequest).Ok?
    ensures Get(PropertiesFrom(rt, ts, p, EmptyRequest).value.value, f) ==
            LastFor(UpdatesFrom(rt, ts, p).value.value, f, Get(EmptyRequest, f))
  {
    PropertiesFromIsFold(rt, ts, p, EmptyRequest);
    ApplyAllLastWins(UpdatesFrom(rt, ts, p).value.value, EmptyRequest, f);
  }

  /** Once scanned, an envelope fails with MissingQuery exactly when its query is empty. */
  lemma MissingQueryOfScanned(cfg: Config, ts: seq<Token>, p: nat)
    requires p <= |ts| + 1 && ScannedRequest(cfg.rt, ts, p).Ok?
    ensures RequestAt(cfg, ts, p) == Err(SyntaxError(ScannedRequest(cfg.rt, ts, p).value.next, MissingQuery)) <==>
            |ScannedRequest(cfg.rt, ts, p).value.value.query| == 0
  {
    var req := ScannedRequest(cfg.rt, ts, p).value.value;
    if |req.query| > 0 {
      assert RequestAt(cfg, ts, p).Err? ==> RequestAt(cfg, ts, p).error == Resolve(cfg, req).error;
    }
  }

  /**
   * An envelope that closes fails with MissingQuery exactly when its last query field
   * was empty or it had none, whatever its other fields and the cache hold.
   */
  lemma MissingQueryWhateverElse(cfg: Config, ts: seq<Token>, p: nat)
    requires p <= |ts| + 1 && KindAt(ts, p) == LeftBrace
    requires UpdatesFrom(cfg.rt, ts, p + 1).Ok?
    ensures
      var Parsed(us, q) := UpdatesFrom(cfg.rt, ts, p + 1).value;
      RequestAt(cfg, ts, p) == Err(SyntaxError(q, MissingQuery)) <==> LastFor(us, Query, SetQuery([])) == SetQuery([])
  {
    var Parsed(us, q) := UpdatesFrom(cfg.rt, ts, p + 1).value;
    ScannedIsFold(cfg.rt, ts, p);
    assert ScannedRequest(cfg.rt, ts, p) == Ok(Parsed(ApplyAll(us, EmptyRequest), q));
    ApplyAllLastWins(us, EmptyRequest, Query);
    MissingQueryOfScanned(cfg, ts, p);
  }

  /** The scanned envelope is the fold of its updates over the empty request. */
  lemma ScannedIsFold(rt: Runtime, ts: seq<Token>, p: nat)
    requires p <= |ts| + 1 && KindAt(ts, p) == LeftBrace
    ensures ScannedRequest(rt, ts, p) == ApplyResult(UpdatesFrom(rt, ts, p + 1), EmptyRequest)
  {
    PropertiesFromIsFold(rt, ts, p + 1, EmptyRequest);
  }

  /**
   * The cache paths of ParseRequest, once the envelope has been scanned with a
   * non-empty query: a hit returns the stored document under the key and does not
   * call ParseQuery; a miss and the uncached parser call it and return its document.
   */
  lemma CachePaths(cfg: Config, ts: seq<Token>, p: nat, req: Request, q: nat)
    requires p <= |ts| + 1
    requires ScannedRequest(cfg.rt, ts, p) == Ok(Parsed(req, q)) && |req.query| > 0
    ensures cfg.cache.UseCache? && CacheKey(cfg.cache.computeHash, req) in cfg.cache.entries ==>
              !RequestCompiles(cfg, ts, p) &&
              RequestAt(cfg, ts, p) ==
                Ok(Parsed(GraphQLRequest(req.operationName, Some(CacheKey(cfg.cache.computeHash, req)),
                                         cfg.cache.entries[CacheKey(cfg.cache.computeHash, req)],
                                         req.variables, req.extensions), q))
    ensures cfg.cache.UseCache? && CacheKey(cfg.cache.computeHash, req) !in cfg.cache.entries ==>
              RequestCompiles(cfg, ts, p) &&
              (RequestAt(cfg, ts, p).Ok? <==> QueryDocument(cfg.rt, cfg.options, req.query).Ok?) &&
              (RequestAt(cfg, ts, p).Ok? ==>
                 RequestAt(cfg, ts, p).value.value.document == QueryDocument(cfg.rt, cfg.options, req.query).value &&
                 RequestAt(cfg, ts, p).value.value.namedQuery == Some(CacheKey(cfg.cache.computeHash, req)))
    ensures cfg.cache.UseCache? && req.namedQuery.None? && RequestAt(cfg, ts, p).Ok? ==>
              RequestAt(cfg, ts, p).value.value.namedQuery == Some(cfg.cache.computeHash(req.query))
    ensures cfg.cache.NoCache? ==>
              RequestCompiles(cfg, ts, p) &&
              (RequestAt(cfg, ts, p).Ok? <==> QueryDocument(cfg.rt, cfg.options, req.query).Ok?) &&
              (RequestAt(cfg, ts, p).Ok? ==>
                 RequestAt(cfg, ts, p).value.value.document == QueryDocument(cfg.rt, cfg.options, req.query).value &&
                 RequestAt(cfg, ts, p).value.value.namedQuery == req.namedQuery)
  {
  }

  // ---------------------------------------------------------------- example envelopes

  /** The String token naming a field. */
  function FieldToken(f: Field): Token { Token(String, FieldName(f)) }

  /** A `"query": <token>` property at positions p .. p+2 stores the token's raw bytes and ends on that token. */
  lemma QueryPropertyAt(rt: Runtime, ts: seq<Token>, p: nat)
    requires 1 <= p && p + 1 <= |ts| && TokenAt(ts, p) == FieldToken(Query) && KindAt(ts, p + 1) == Colon
    ensures PropertyAt(rt, ts, p) == Ok(Parsed(SetQuery(TokenAt(ts, p + 2).value), p + 2))
  {
    ClassifyFieldExact(FieldName(Query), p + 2);
  }

  /** A `"variables": { ...` property at positions p .. p+3: `{}` parses and ends after its `}`; a String key fails at the Colon check. */
  lemma VariablesPropertyAt(rt: Runtime, ts: seq<Token>, p: nat)
    requires 1 <= p && p + 3 <= |ts| && TokenAt(ts, p) == FieldToken(Variables) && KindAt(ts, p + 1) == Colon
    requires KindAt(ts, p + 2) == LeftBrace
    ensures KindAt(ts, p + 3) == RightBrace ==> PropertyAt(rt, ts, p) == Ok(Parsed(SetVariables(Some(map[])), p + 4))
    ensures KindAt(ts, p + 3) == String ==> PropertyAt(rt, ts, p) == Err(SyntaxError(p + 3, ExpectedKind(Colon)))
  {
    ClassifyFieldExact(FieldName(Variables), p + 2);
  }

  /** Past its `{`, the scan is the property loop from the empty request. */
  lemma ScannedFromProperties(rt: Runtime, ts: seq<Token>, p: nat)
    requires p <= |ts| && KindAt(ts, p) == LeftBrace
    ensures ScannedRequest(rt, ts, p) == PropertiesFrom(rt, ts, p + 1, EmptyRequest)
  {
  }

  /** An envelope whose scan fails makes Parse fail with the same error. */
  lemma ScanErrorIsParseError(cfg: Config, ts: seq<Token>)
    requires |ts| >= 1 && ts[0].kind == LeftBrace && ScannedRequest(cfg.rt, ts, 1).Err?
    ensures ParseAt(cfg, ts, 0) == Err(ScannedRequest(cfg.rt, ts, 1).error)
  {
    assert Next(ts, 0) == 1 && KindAt(ts, 1) == LeftBrace;
    assert RequestAt(cfg, ts, 1) == Err(ScannedRequest(cfg.rt, ts, 1).error);
  }

  /** `{"query": q}`, where q is any token with non-empty bytes: one request, every other field absent. */
  lemma QueryOnlyEnvelope(cfg: Config, ts: seq<Token>)
    requires |ts| == 5 && ts[0].kind == LeftBrace && ts[1] == FieldToken(Query) && ts[2].kind == Colon
    requires |ts[3].value| > 0 && ts[4].kind == RightBrace
    ensures ParseAt(cfg, ts, 0).Ok? <==> Resolve(cfg, EmptyRequest.(query := ts[3].value)).Ok?
    ensures
      var res := Resolve(cfg, EmptyRequest.(query := ts[3].value));
      ParseAt(cfg, ts, 0).Ok? ==> ParseAt(cfg, ts, 0).value.value == [GraphQLRequest(None, res.value.0, res.value.1, None, None)]
  {
    QueryTurn(cfg.rt, ts, 2, EmptyRequest);
    ScannedFromProperties(cfg.rt, ts, 1);
    assert ScannedRequest(cfg.rt, ts, 1) == Ok(Parsed(EmptyRequest.(query := ts[3].value), 5));
  }

  /** `{}` fails with MissingQuery at its closing brace. */
  lemma EmptyEnvelope(cfg: Config, ts: seq<Token>)
    requires |ts| >= 2 && ts[0].kind == LeftBrace && ts[1].kind == RightBrace
    ensures ParseAt(cfg, ts, 0) == Err(SyntaxError(2, MissingQuery))
  {
    assert ScannedRequest(cfg.rt, ts, 1) == Ok(Parsed(EmptyRequest, 2));
  }

  /** `{"foo": ...` fails on the unknown field, whatever follows it (a later query is never read). */
  lemma UnknownFieldEnvelope(cfg: Config, ts: seq<Token>)
    requires |ts| >= 3 && ts[0].kind == LeftBrace && ts[1] == Token(String, [0x66, 0x6F, 0x6F]) && ts[2].kind == Colon
    ensures ParseAt(cfg, ts, 0) == Err(SyntaxError(4, UnknownField))
  {
    ClassifyFieldExact(ts[1].value, 4);
    assert PropertyAt(cfg.rt, ts, 2) == Err(SyntaxError(4, UnknownField));
    ScannedFromProperties(cfg.rt, ts, 1);
    ScanErrorIsParseError(cfg, ts);
  }

  /**
   * `{"query": "{a}", "variables": {}}`: ParseObject consumes the object's `}`, and the
   * MoveNext of the property loop then skips the envelope's own `}`; the loop goes on
   * at end of file and Expect(String) fails there.
   */
  lemma ObjectFieldSkipsClosingBrace(cfg: Config, ts: seq<Token>)
    requires QueryThenEmptyVariables(ts)
    ensures ParseAt(cfg, ts, 0) == Err(SyntaxError(10, ExpectedKind(String)))
  {
    QueryThenEmptyVariablesScan(cfg.rt, ts);
    ScanErrorIsParseError(cfg, ts);
  }

  /** The scan of `{"query": q, "variables": {}}` runs past both `}` and fails at end of file. */
  lemma QueryThenEmptyVariablesScan(rt: Runtime, ts: seq<Token>)
    requires QueryThenEmptyVariables(ts)
    ensures ScannedRequest(rt, ts, 1) == Err(SyntaxError(10, ExpectedKind(String)))
  {
    QueryThenEmptyVariablesLoop(rt, ts);
    ScannedFromProperties(rt, ts, 1);
  }

  /** The property loop of that envelope: two turns, then end of file. */
  lemma QueryThenEmptyVariablesLoop(rt: Runtime, ts: seq<Token>)
    requires QueryThenEmptyVariables(ts)
    ensures PropertiesFrom(rt, ts, 2, EmptyRequest) == Err(SyntaxError(10, ExpectedKind(String)))
  {
    QueryThenEmptyVariablesFirstTurn(rt, ts);
    QueryThenEmptyVariablesSecondTurn(rt, ts);
    PropertiesAtEndOfFile(rt, ts, 10, EmptyRequest.(query := ts[3].value).(variables := Some(map[])));
  }

  /** Its first turn stores the query bytes. */
  lemma QueryThenEmptyVariablesFirstTurn(rt: Runtime, ts: seq<Token>)
    requires QueryThenEmptyVariables(ts)
    ensures PropertiesFrom(rt, ts, 2, EmptyRequest) == PropertiesFrom(rt, ts, 5, EmptyRequest.(query := ts[3].value))
  {
    assert TokenAt(ts, 2) == ts[1] && TokenAt(ts, 4) == ts[3];
    QueryTurn(rt, ts, 2, EmptyRequest);
  }

  /** Its second turn stores the empty variables object and its MoveNext steps past the closing `}`. */
  lemma QueryThenEmptyVariablesSecondTurn(rt: Runtime, ts: seq<Token>)
    requires QueryThenEmptyVariables(ts)
    ensures PropertiesFrom(rt, ts, 5, EmptyRequest.(query := ts[3].value)) ==
            PropertiesFrom(rt, ts, 10, EmptyRequest.(query := ts[3].value).(variables := Some(map[])))
  {
    VariablesTurn(rt, ts, 5, EmptyRequest.(query := ts[3].value));
  }

  /** The tokens of `{"query": q, "variables": {}}`. */
  predicate QueryThenEmptyVariables(ts: seq<Token>)
  {
    && |ts| == 9 && ts[0].kind == LeftBrace && ts[1] == FieldToken(Query) && ts[2].kind == Colon
    && ts[4] == FieldToken(Variables) && ts[5].kind == Colon && ts[6].kind == LeftBrace
    && ts[7].kind == RightBrace && ts[8].kind == RightBrace
  }

  /** A turn of the property loop over `"query": q` stores the bytes of q and goes on after them. */
  lemma QueryTurn(rt: Runtime, ts: seq<Token>, p: nat, req: Request)
    requires 1 <= p && p + 2 <= |ts| && TokenAt(ts, p) == FieldToken(Query) && KindAt(ts, p + 1) == Colon
    ensures PropertiesFrom(rt, ts, p, req) == PropertiesFrom(rt, ts, p + 3, req.(query := TokenAt(ts, p + 2).value))
  {
    QueryPropertyAt(rt, ts, p);
    PropertiesStep(rt, ts, p, req);
  }

  /** A turn over `"variables": {}` stores the empty object, and its MoveNext steps over the token after the `}`. */
  lemma VariablesTurn(rt: Runtime, ts: seq<Token>, p: nat, req: Request)
    requires 1 <= p && p + 3 <= |ts| && TokenAt(ts, p) == FieldToken(Variables) && KindAt(ts, p + 1) == Colon
    requires KindAt(ts, p + 2) == LeftBrace && KindAt(ts, p + 3) == RightBrace
    ensures PropertiesFrom(rt, ts, p, req) == PropertiesFrom(rt, ts, Next(ts, p + 4), req.(variables := Some(map[])))
  {
    VariablesPropertyAt(rt, ts, p);
    assert PropertyAt(rt, ts, p) == Ok(Parsed(SetVariables(Some(map[])), p + 4));
    PropertiesStep(rt, ts, p, req);
  }

  /** One turn of the property loop: apply the property's update, MoveNext, go on. */
  lemma PropertiesStep(rt: Runtime, ts: seq<Token>, p: nat, req: Request)
    requires p <= |ts| + 1 && KindAt(ts, p) != RightBrace && PropertyAt(rt, ts, p).Ok?
    ensures PropertiesFrom(rt, ts, p, req) ==
            PropertiesFrom(rt, ts, Next(ts, PropertyAt(rt, ts, p).value.next), Apply(PropertyAt(rt, ts, p).value.value, req))
  {
  }

  /** The property loop at end of file fails there, expecting a field name. */
  lemma PropertiesAtEndOfFile(rt: Runtime, ts: seq<Token>, p: nat, req: Request)
    requires p == |ts| + 1
    ensures PropertiesFrom(rt, ts, p, req) == Err(SyntaxError(p, ExpectedKind(String)))
  {
    assert KindAt(ts, p) == EndOfFile;
    assert PropertyAt(rt, ts, p) == Err(SyntaxError(p, ExpectedKind(String)));
  }

  /**
   * `{"query": "{ f }", "variables": {"a": 1, "a": 2}}` and every envelope that starts
   * like it: it fails at the first key, on the Colon check, before any duplicate is seen.
   */
  lemma DuplicateKeyEnvelope(cfg: Config, ts: seq<Token>)
    requires |ts| >= 8 && ts[0].kind == LeftBrace && ts[1] == FieldToken(Query) && ts[2].kind == Colon
    requires ts[4] == FieldToken(Variables) && ts[5].kind == Colon && ts[6].kind == LeftBrace && ts[7].kind == String
    ensures ParseAt(cfg, ts, 0) == Err(SyntaxError(8, ExpectedKind(Colon)))
  {
    QueryTurn(cfg.rt, ts, 2, EmptyRequest);
    VariablesPropertyAt(cfg.rt, ts, 5);
    assert PropertiesFrom(cfg.rt, ts, 5, EmptyRequest.(query := ts[3].value)) == Err(SyntaxError(8, ExpectedKind(Colon)));
    ScannedFromProperties(cfg.rt, ts, 1);
    ScanErrorIsParseError(cfg, ts);
  }

  /** `{"query": null}` does not count as a missing query: the query field keeps the bytes of the keyword. */
  lemma NullQueryKeptAsText(cfg: Config, ts: seq<Token>)
    requires |ts| == 5 && ts[0].kind == LeftBrace && ts[1] == FieldToken(Query) && ts[2].kind == Colon
    requires ts[3] == Token(Name, NullKeyword) && ts[4].kind == RightBrace
    ensures ScannedRequest(cfg.rt, ts, 1) == Ok(Parsed(EmptyRequest.(query := NullKeyword), 5))
    ensures RequestAt(cfg, ts, 1) != Err(SyntaxError(5, MissingQuery))
  {
    QueryTurn(cfg.rt, ts, 2, EmptyRequest);
    ScannedFromProperties(cfg.rt, ts, 1);
    MissingQueryOfScanned(cfg, ts, 1);
  }
}
