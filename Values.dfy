/**
 * The value decoder: ParseValue, ParseList, ParseObject, ParseObjectField,
 * ParseScalarValue, ExpectStringValue and ExpectObjectValue, as functions of the
 * token sequence and the cursor position (the class methods in RequestParser.dfy
 * are proved equal to them).
 */
module Values {
  import opened Tokens
  import opened Errors
  import opened Cursor
  import opened Collaborators

  /** A decoded value: what the C# code returns as `object`. */
  datatype Value =
    | Null
    | Bool(b: bool)
    | Long(n: int)
    | Decimal(d: DecimalNumber)
    | Str(s: string)
    | List(items: seq<Value>)
    | Object(fields: map<string, Value>)

  const MinLong: int := -0x8000_0000_0000_0000
  const MaxLong: int := 0x7FFF_FFFF_FFFF_FFFF

  predicate IsScalarKind(k: TokenKind)
  {
    k == Name || k == String || k == Integer || k == Float
  }

  /** ParseScalarValue at a token: keywords by exact bytes, long with its range check, decimal, string. */
  function ScalarOf(rt: Runtime, tok: Token, at: nat): (r: Result<Value>)
    ensures !IsScalarKind(tok.kind) ==> r == Err(SyntaxError(at, InvalidValue))
    ensures tok.kind == Name ==> (r == Ok(Bool(true)) <==> tok.value == TrueKeyword)
    ensures tok.kind == Name ==> (r == Ok(Bool(false)) <==> tok.value == FalseKeyword)
    ensures tok.kind == Name ==> (r == Ok(Null) <==> tok.value == NullKeyword)
    ensures tok.kind == Name ==> (r.Ok? <==> tok.value in {TrueKeyword, FalseKeyword, NullKeyword})
    ensures tok.kind == Name && r.Err? ==> r.error == SyntaxError(at, InvalidValue)
    ensures tok.kind == Integer && r.Ok? ==> r.value.Long? && MinLong <= r.value.n <= MaxLong
    ensures tok.kind == Integer && r.Ok? ==> rt.readInteger(tok.value) == Some(r.value.n)
    ensures tok.kind == Integer && rt.readInteger(tok.value).Some? ==>
              (r.Err? <==> !(MinLong <= rt.readInteger(tok.value).value <= MaxLong))
    ensures tok.kind == Integer && rt.readInteger(tok.value).None? ==> r == Err(BadNumber(at))
    ensures tok.kind == Integer && rt.readInteger(tok.value).Some? &&
              !(MinLong <= rt.readInteger(tok.value).value <= MaxLong) ==>
              r == Err(Overflow(at))
    ensures tok.kind == Float ==>
              r == if rt.readDecimal(tok.value).Some? then Ok(Decimal(rt.readDecimal(tok.value).value))
                   else Err(BadNumber(at))
    ensures tok.kind == String ==> r == Ok(Str(rt.getString(tok.value)))
  {
    match tok.kind
    case String => Ok(Str(rt.getString(tok.value)))
    case Integer =>
      (match rt.readInteger(tok.value)
       case None => Err(BadNumber(at))
       case Some(n) => if MinLong <= n <= MaxLong then Ok(Long(n)) else Err(Overflow(at)))
    case Float =>
      (match rt.readDecimal(tok.value)
       case None => Err(BadNumber(at))
       case Some(d) => Ok(Decimal(d)))
    case Name =>
      KeywordsDistinct();
      if tok.value == TrueKeyword then Ok(Bool(true))
      else if tok.value == FalseKeyword then Ok(Bool(false))
      else if tok.value == NullKeyword then Ok(Null)
      else Err(SyntaxError(at, InvalidValue))
    case _ => Err(SyntaxError(at, InvalidValue))
  }

  /** ExpectStringValue: a String token gives its text, the keyword null gives no value. */
  function StringOrNullOf(rt: Runtime, tok: Token, at: nat): (r: Result<Option<string>>)
    ensures r.Ok? <==> tok.kind == String || (tok.kind == Name && tok.value == NullKeyword)
    ensures r == Ok(None) <==> tok.kind == Name && tok.value == NullKeyword
    ensures tok.kind == String ==> r == Ok(Some(rt.getString(tok.value)))
    ensures r.Err? ==> r.error == SyntaxError(at, InvalidValue)
  {
    if tok.kind == String then Ok(Some(rt.getString(tok.value)))
    else if tok.kind == Name && tok.value == NullKeyword then Ok(None)
    else Err(SyntaxError(at, InvalidValue))
  }

  /**
   * ParseObject. Its loop calls ParseObjectField until `}`; ParseObjectField reads
   * the key with GetString, which does not advance, so its Expect(Colon) meets the
   * key's own String token and fails. The loop body therefore never completes: an
   * object decodes only when it is empty, and the value parsing and the duplicate-key
   * check after the colon are never reached.
   */
  function ObjectAt(ts: seq<Token>, p: nat): (r: Result<Parsed<map<string, Value>>>)
    ensures r.Ok? <==> KindAt(ts, p) == LeftBrace && KindAt(ts, p + 1) == RightBrace
    ensures r.Ok? ==> r.value == Parsed(map[], p + 2) && p + 2 <= |ts| + 1
    ensures KindAt(ts, p) != LeftBrace ==> r == Err(SyntaxError(p, InvalidOpenToken(LeftBrace)))
    ensures KindAt(ts, p) == LeftBrace && KindAt(ts, p + 1) == String ==>
              r == Err(SyntaxError(p + 1, ExpectedKind(Colon)))
    ensures KindAt(ts, p) == LeftBrace && KindAt(ts, p + 1) != RightBrace && KindAt(ts, p + 1) != String ==>
              r == Err(SyntaxError(p + 1, ExpectedFieldName))
  {
    if KindAt(ts, p) != LeftBrace then Err(SyntaxError(p, InvalidOpenToken(LeftBrace)))
    else
      var q := Next(ts, p);
      if KindAt(ts, q) == RightBrace then Ok(Parsed(map[], Next(ts, q)))
      else Err(ObjectFieldError(ts, q))
  }

  /** ParseObjectField, which never returns normally. */
  function ObjectFieldError(ts: seq<Token>, p: nat): (e: ParseError)
    ensures e.SyntaxError? && e.at == p
    ensures e.reason == if KindAt(ts, p) == String then ExpectedKind(Colon) else ExpectedFieldName
  {
    if KindAt(ts, p) != String then SyntaxError(p, ExpectedFieldName)
    else SyntaxError(p, ExpectedKind(Colon))
  }

  /** ExpectObjectValue: an object, or the keyword null for no object. */
  function ObjectOrNullAt(ts: seq<Token>, p: nat): (r: Result<Parsed<Option<map<string, Value>>>>)
    ensures r.Ok? <==> (KindAt(ts, p) == LeftBrace && KindAt(ts, p + 1) == RightBrace)
                       || (KindAt(ts, p) == Name && TokenAt(ts, p).value == NullKeyword)
    ensures r.Ok? && r.value.value.None? ==> r.value.next == p
    ensures r.Ok? && r.value.value.Some? ==> r.value.value.value == map[] && r.value.next == p + 2
    ensures r.Ok? ==> r.value.next <= |ts| + 1 || r.value.next == p
    ensures KindAt(ts, p) == LeftBrace && ObjectAt(ts, p).Err? ==> r == Err(ObjectAt(ts, p).error)
    ensures KindAt(ts, p) != LeftBrace && !(KindAt(ts, p) == Name && TokenAt(ts, p).value == NullKeyword) ==>
              r == Err(SyntaxError(p, InvalidValue))
  {
    if KindAt(ts, p) == LeftBrace then
      match ObjectAt(ts, p)
      case Err(e) => Err(e)
      case Ok(Parsed(m, q)) => Ok(Parsed(Some(m), q))
    else if KindAt(ts, p) == Name && TokenAt(ts, p).value == NullKeyword then Ok(Parsed(None, p))
    else Err(SyntaxError(p, InvalidValue))
  }

  /** ParseValue: dispatch on the current token kind. */
  function ValueAt(rt: Runtime, ts: seq<Token>, p: nat): (r: Result<Parsed<Value>>)
    requires p <= |ts| + 1
    ensures r.Ok? ==> p <= r.value.next <= |ts| + 1
    ensures r.Ok? ==> (r.value.next == p <==> IsScalarKind(KindAt(ts, p)))
    ensures !IsScalarKind(KindAt(ts, p)) && KindAt(ts, p) != LeftBracket && KindAt(ts, p) != LeftBrace ==>
              r == Err(SyntaxError(p, InvalidValue))
    decreases |ts| + 2 - p, 1
  {
    match KindAt(ts, p)
    case LeftBracket => ListAt(rt, ts, p)
    case LeftBrace =>
      (match ObjectAt(ts, p)
       case Err(e) => Err(e)
       case Ok(Parsed(m, q)) => Ok(Parsed(Object(m), q)))
    case Name | String | Integer | Float =>
      (match ScalarOf(rt, TokenAt(ts, p), p)
       case Err(e) => Err(e)
       case Ok(v) => Ok(Parsed(v, p)))
    case _ => Err(SyntaxError(p, InvalidValue))
  }

  /** ParseList: `[`, then values until `]`, which is consumed. */
  function ListAt(rt: Runtime, ts: seq<Token>, p: nat): (r: Result<Parsed<Value>>)
    requires p <= |ts| + 1
    ensures r.Ok? ==> p < r.value.next <= |ts| + 1 && r.value.value.List?
    ensures r.Ok? ==> KindAt(ts, p) == LeftBracket && KindAt(ts, r.value.next - 1) == RightBracket
    ensures KindAt(ts, p) != LeftBracket ==> r == Err(SyntaxError(p, InvalidOpenToken(LeftBracket)))
    decreases |ts| + 2 - p, 0
  {
    if KindAt(ts, p) != LeftBracket then Err(SyntaxError(p, InvalidOpenToken(LeftBracket)))
    else
      match ListItemsFrom(rt, ts, Next(ts, p), [])
      case Err(e) => Err(e)
      case Ok(Parsed(items, q)) => Ok(Parsed(List(items), q))
  }

  /**
   * The loop of ParseList from position p with the elements decoded so far. An
   * element that leaves the cursor where it was (a scalar: ParseScalarValue does not
   * advance) is decoded again on every turn while the list grows by one element each
   * time, until allocating the list fails; the model reports that as NoProgress.
   */
  function ListItemsFrom(rt: Runtime, ts: seq<Token>, p: nat, acc: seq<Value>): (r: Result<Parsed<seq<Value>>>)
    requires p <= |ts| + 1
    ensures r.Ok? ==> p < r.value.next <= |ts| + 1 && KindAt(ts, r.value.next - 1) == RightBracket
    decreases |ts| + 2 - p, 2
  {
    if KindAt(ts, p) == RightBracket then Ok(Parsed(acc, Next(ts, p)))
    else
      match ValueAt(rt, ts, p)
      case Err(e) => Err(e)
      case Ok(Parsed(v, q)) =>
        if q == p then Err(NoProgress(p))
        else ListItemsFrom(rt, ts, q, acc + [v])
  }

  /** ParseValue's dispatch: `[` is ParseList, `{` is ParseObject as an object, and a scalar kind is ParseScalarValue in place. */
  lemma ValueDispatch(rt: Runtime, ts: seq<Token>, p: nat)
    requires p <= |ts| + 1
    ensures KindAt(ts, p) == LeftBracket ==> ValueAt(rt, ts, p) == ListAt(rt, ts, p)
    ensures KindAt(ts, p) == LeftBrace ==>
              (ValueAt(rt, ts, p).Ok? <==> ObjectAt(ts, p).Ok?) &&
              (ValueAt(rt, ts, p).Ok? ==>
                 ValueAt(rt, ts, p).value == Parsed(Object(ObjectAt(ts, p).value.value), ObjectAt(ts, p).value.next)) &&
              (ValueAt(rt, ts, p).Err? ==> ValueAt(rt, ts, p).error == ObjectAt(ts, p).error)
    ensures IsScalarKind(KindAt(ts, p)) ==>
              (ValueAt(rt, ts, p).Ok? <==> ScalarOf(rt, TokenAt(ts, p), p).Ok?) &&
              (ValueAt(rt, ts, p).Ok? ==> ValueAt(rt, ts, p).value == Parsed(ScalarOf(rt, TokenAt(ts, p), p).value, p)) &&
              (ValueAt(rt, ts, p).Err? ==> ValueAt(rt, ts, p).error == ScalarOf(rt, TokenAt(ts, p), p).error)
  {
  }

  /** A value made only of empty objects and lists of such values. */
  predicate EmptyContainer(v: Value)
  {
    match v
    case Object(fields) => fields == map[]
    case List(items) => forall i :: 0 <= i < |items| ==> EmptyContainer(items[i])
    case _ => false
  }

  /** Prepends decoded elements to a list-loop outcome. */
  function Prepend(acc: seq<Value>, r: Result<Parsed<seq<Value>>>): Result<Parsed<seq<Value>>>
  {
    match r
    case Ok(Parsed(items, q)) => Ok(Parsed(acc + items, q))
    case Err(e) => Err(e)
  }

  /** The list loop only ever appends: its outcome is the accumulated prefix followed by a fresh loop's outcome. */
  lemma {:induction false} ListItemsAccumulate(rt: Runtime, ts: seq<Token>, p: nat, acc: seq<Value>)
    requires p <= |ts| + 1
    ensures ListItemsFrom(rt, ts, p, acc) == Prepend(acc, ListItemsFrom(rt, ts, p, []))
    decreases |ts| + 2 - p
  {
    if KindAt(ts, p) == RightBracket {
      assert acc + [] == acc;
    } else {
      var r := ValueAt(rt, ts, p);
      if r.Ok? && r.value.next != p {
        var v, q := r.value.value, r.value.next;
        ListItemsStep(rt, ts, p, acc);
        ListItemsStep(rt, ts, p, []);
        assert [] + [v] == [v];
        ListItemsAccumulate(rt, ts, q, acc + [v]);
        ListItemsAccumulate(rt, ts, q, [v]);
        PrependTwice(acc, v, ListItemsFrom(rt, ts, q, []));
      }
    }
  }

  /** One turn of the list loop on an element that advances the cursor. */
  lemma ListItemsStep(rt: Runtime, ts: seq<Token>, p: nat, acc: seq<Value>)
    requires p <= |ts| + 1
    requires KindAt(ts, p) != RightBracket
    requires ValueAt(rt, ts, p).Ok? && ValueAt(rt, ts, p).value.next != p
    ensures ListItemsFrom(rt, ts, p, acc) ==
            ListItemsFrom(rt, ts, ValueAt(rt, ts, p).value.next, acc + [ValueAt(rt, ts, p).value.value])
  {
  }

  /** Prepending in two steps is prepending once: a helper for ListItemsAccumulate. */
  lemma PrependTwice(acc: seq<Value>, v: Value, r: Result<Parsed<seq<Value>>>)
    ensures Prepend(acc + [v], r) == Prepend(acc, Prepend([v], r))
  {
    if r.Ok? {
      assert acc + [v] + r.value.value == acc + ([v] + r.value.value);
    }
  }

  /**
   * List elements keep their source order: the first element is the value decoded
   * at the first element position, and the rest is the list decoded after it.
   */
  lemma ListOrder(rt: Runtime, ts: seq<Token>, p: nat)
    requires p <= |ts| + 1
    requires KindAt(ts, p) != RightBracket
    requires ValueAt(rt, ts, p).Ok? && ValueAt(rt, ts, p).value.next != p
    ensures ListItemsFrom(rt, ts, p, []) ==
            Prepend([ValueAt(rt, ts, p).value.value], ListItemsFrom(rt, ts, ValueAt(rt, ts, p).value.next, []))
  {
    var Parsed(v, q) := ValueAt(rt, ts, p).value;
    assert [] + [v] == [v];
    ListItemsAccumulate(rt, ts, q, [v]);
  }

  /** A list whose first element is a scalar never completes: the loop makes no progress. */
  lemma ScalarElementNoProgress(rt: Runtime, ts: seq<Token>, p: nat)
    requires p <= |ts| + 1
    requires KindAt(ts, p) == LeftBracket && IsScalarKind(KindAt(ts, p + 1))
    ensures ListAt(rt, ts, p).Err?
    ensures ScalarOf(rt, TokenAt(ts, p + 1), p + 1).Ok? ==> ListAt(rt, ts, p) == Err(NoProgress(p + 1))
  {
    assert 1 <= p <= |ts| && Next(ts, p) == p + 1;
    assert KindAt(ts, p + 1) != RightBracket;
    var s := ScalarOf(rt, TokenAt(ts, p + 1), p + 1);
    if s.Ok? {
      assert ValueAt(rt, ts, p + 1) == Ok(Parsed(s.value, p + 1));
      assert ListItemsFrom(rt, ts, p + 1, []) == Err(NoProgress(p + 1));
    }
  }

  /** Every decoded list or object that consumed tokens is built only of empty containers. */
  lemma {:induction false} ValueShape(rt: Runtime, ts: seq<Token>, p: nat)
    requires p <= |ts| + 1
    requires ValueAt(rt, ts, p).Ok? && ValueAt(rt, ts, p).value.next != p
    ensures EmptyContainer(ValueAt(rt, ts, p).value.value)
    decreases |ts| + 2 - p, 1
  {
    if KindAt(ts, p) == LeftBracket {
      ListShape(rt, ts, p);
    }
  }

  /** As written, ParseList succeeds only on lists built of empty objects and such lists. */
  lemma {:induction false} ListShape(rt: Runtime, ts: seq<Token>, p: nat)
    requires p <= |ts| + 1
    requires ListAt(rt, ts, p).Ok?
    ensures EmptyContainer(ListAt(rt, ts, p).value.value)
    decreases |ts| + 2 - p, 0
  {
    ListItemsShape(rt, ts, Next(ts, p), []);
  }

  lemma {:induction false} ListItemsShape(rt: Runtime, ts: seq<Token>, p: nat, acc: seq<Value>)
    requires p <= |ts| + 1
    requires forall i :: 0 <= i < |acc| ==> EmptyContainer(acc[i])
    requires ListItemsFrom(rt, ts, p, acc).Ok?
    ensures forall i :: 0 <= i < |ListItemsFrom(rt, ts, p, acc).value.value| ==>
              EmptyContainer(ListItemsFrom(rt, ts, p, acc).value.value[i])
    decreases |ts| + 2 - p, 2
  {
    if KindAt(ts, p) != RightBracket {
      var Parsed(v, q) := ValueAt(rt, ts, p).value;
      ValueShape(rt, ts, p);
      ListItemsShape(rt, ts, q, acc + [v]);
    }
  }
}
