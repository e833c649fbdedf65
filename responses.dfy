/** Response shaping (pprika/helpers.py): `make_response` turns whatever a view
    function returned into a response, by a case analysis on the shape of the
    value. The JSON text of a dict body is kept symbolic: `Json(d)` stands for
    the compact encoding of `d`. */
module Responses {
  import opened Common

  /** The Python values a view function can hand back. */
  datatype Value =
    | VNone
    | VInt(i: int)
    | VStr(s: string)
    | VBytes(bytes: seq<bv8>)
    | VByteArray(bytes: seq<bv8>)
    | VTuple(items: seq<Value>)
    | VList(items: seq<Value>)
    | VDict(entries: seq<(Value, Value)>)
    | VHeaders(pairs: seq<(string, string)>)
    | VResponse(response: Response)
    | VOther(typeName: string)

  /** What the response carries: nothing, a str/bytes/bytearray as given, or
      the compact JSON text of a dict. */
  datatype Body = Empty | Data(data: Value) | Json(dict: seq<(Value, Value)>)

  /** A response: body, status (None leaves the server default) and headers
      (None, or what was supplied). */
  datatype Response = Response(body: Body, status: Value, headers: Value)

  /** The TypeError `make_response` raises, or a header value that cannot be
      turned into a header list. */
  datatype ResponseError = TupleArity(length: nat) | IllegalBody(typeName: string) | NotSerializable(message: string) | BadHeaders

  /** `isinstance(v, (Headers, dict, tuple, list))`. */
  predicate IsHeaderLike(v: Value)
  {
    v.VHeaders? || v.VDict? || v.VTuple? || v.VList?
  }

  /** `isinstance(v, (str, bytes, bytearray))`. */
  predicate IsTextOrBytes(v: Value)
  {
    v.VStr? || v.VBytes? || v.VByteArray?
  }

  /** The class name `type(v)` shows: a built-in type by its bare name, a
      werkzeug class by its module-qualified name. */
  function TypeName(v: Value): (r: string)
    ensures v.VOther? ==> r == v.typeName
    ensures v.VHeaders? || v.VResponse? ==> "werkzeug." <= r
    ensures !v.VOther? && !v.VHeaders? && !v.VResponse? ==> r != "" && forall i :: 0 <= i < |r| ==> r[i] != '.'
    ensures v.VNone? ==> r == "NoneType"
    ensures v.VInt? ==> r == "int"
    ensures v.VStr? ==> r == "str"
    ensures v.VBytes? ==> r == "bytes"
    ensures v.VByteArray? ==> r == "bytearray"
    ensures v.VTuple? ==> r == "tuple"
    ensures v.VList? ==> r == "list"
    ensures v.VDict? ==> r == "dict"
  {
    match v
    case VNone => "NoneType"
    case VInt(_) => "int"
    case VStr(_) => "str"
    case VBytes(_) => "bytes"
    case VByteArray(_) => "bytearray"
    case VTuple(_) => "tuple"
    case VList(_) => "list"
    case VDict(_) => "dict"
    case VHeaders(_) => "werkzeug.datastructures.Headers"
    case VResponse(_) => "werkzeug.wrappers.response.Response"
    case VOther(t) => t
  }

  /** `type(v).__name__`: the class name without its module. */
  function ClassName(v: Value): (r: string)
    ensures '.' !in r
    ensures v.VHeaders? ==> r == "Headers"
    ensures v.VResponse? ==> r == "Response"
    ensures !v.VOther? && !v.VHeaders? && !v.VResponse? ==> r == TypeName(v)
  {
    LastSegment(TypeName(v))
  }

  /** The TypeError text of `json.dumps` for a value it cannot encode. */
  function NotSerializableText(className: string): string
  {
    "Object of type " + className + " is not JSON serializable"
  }

  /** The TypeError text of `json.dumps` for a dict key it cannot encode. */
  function BadKeyText(className: string): string
  {
    "keys must be str, int, float, bool or None, not " + className
  }

  /** A value usable as a JSON object key: str, int, float, bool or None. */
  predicate IsJsonKey(v: Value)
  {
    v.VNone? || v.VInt? || v.VStr? || (v.VOther? && v.typeName in {"float", "bool"})
  }

  /** A value `json.dumps` encodes without a TypeError: None, numbers,
      booleans and strings, and lists, tuples and dicts (with key-like keys)
      of such values. Bytes, werkzeug objects and any other type fail. */
  predicate JsonEncodable(v: Value)
  {
    match v
    case VNone => true
    case VInt(_) => true
    case VStr(_) => true
    case VTuple(xs) => forall i :: 0 <= i < |xs| ==> JsonEncodable(xs[i])
    case VList(xs) => forall i :: 0 <= i < |xs| ==> JsonEncodable(xs[i])
    case VDict(es) => forall i :: 0 <= i < |es| ==> IsJsonKey(es[i].0) && JsonEncodable(es[i].1)
    case VOther(t) => t in {"float", "bool"}
    case _ => false
  }

  /** The first item from `i` on that does not encode, or `|xs|`. */
  function FirstBadItem(xs: seq<Value>, i: nat): (k: nat)
    requires i <= |xs|
    ensures i <= k <= |xs|
    ensures forall j :: i <= j < k ==> JsonEncodable(xs[j])
    ensures k < |xs| ==> !JsonEncodable(xs[k])
    decreases |xs| - i
  {
    if i == |xs| || !JsonEncodable(xs[i]) then i else FirstBadItem(xs, i + 1)
  }

  /** The first entry from `i` on whose key or value does not encode, or `|es|`. */
  function FirstBadEntry(es: seq<(Value, Value)>, i: nat): (k: nat)
    requires i <= |es|
    ensures i <= k <= |es|
    ensures forall j :: i <= j < k ==> IsJsonKey(es[j].0) && JsonEncodable(es[j].1)
    ensures k < |es| ==> !(IsJsonKey(es[k].0) && JsonEncodable(es[k].1))
    decreases |es| - i
  {
    if i == |es| || !(IsJsonKey(es[i].0) && JsonEncodable(es[i].1)) then i else FirstBadEntry(es, i + 1)
  }

  /** The TypeError `json.dumps` raises for `v`, if any. The encoder walks
      lists, tuples and dicts in order, checking each dict key before its
      value, and stops at the first thing it cannot encode. */
  function JsonFailure(v: Value): (r: Option<string>)
    ensures r.None? <==> JsonEncodable(v)
    ensures r.Some? ==> r.value != ""
    ensures !v.VTuple? && !v.VList? && !v.VDict? && !JsonEncodable(v) ==> r == Some(NotSerializableText(ClassName(v)))
    ensures v.VDict? && FirstBadEntry(v.entries, 0) < |v.entries| && !IsJsonKey(v.entries[FirstBadEntry(v.entries, 0)].0) ==>
      r == Some(BadKeyText(ClassName(v.entries[FirstBadEntry(v.entries, 0)].0)))
  {
    match v
    case VNone => None
    case VInt(_) => None
    case VStr(_) => None
    case VTuple(xs) =>
      var k := FirstBadItem(xs, 0);
      if k == |xs| then None else JsonFailure(xs[k])
    case VList(xs) =>
      var k := FirstBadItem(xs, 0);
      if k == |xs| then None else JsonFailure(xs[k])
    case VDict(es) =>
      var k := FirstBadEntry(es, 0);
      if k == |es| then None
      else if !IsJsonKey(es[k].0) then Some(BadKeyText(ClassName(es[k].0)))
      else JsonFailure(es[k].1)
    case VOther(t) => if t in {"float", "bool"} then None else Some(NotSerializableText(ClassName(v)))
    case _ => Some(NotSerializableText(ClassName(v)))
  }

  predicate IsStringPair(v: Value)
  {
    v.VTuple? && |v.items| == 2 && v.items[0].VStr? && v.items[1].VStr?
  }

  /** The header list `Headers(v)` builds, for the shapes this model accepts:
      None, a Headers, a dict of strings, or a list/tuple of string pairs. */
  function HeaderPairs(v: Value): (r: Option<seq<(string, string)>>)
    ensures v.VNone? ==> r == Some([])
    ensures v.VHeaders? ==> r == Some(v.pairs)
    ensures r.Some? ==> v.VNone? || IsHeaderLike(v)
    ensures v.VDict? ==> (r.Some? <==> forall i :: 0 <= i < |v.entries| ==> v.entries[i].0.VStr? && v.entries[i].1.VStr?)
    ensures v.VDict? && r.Some? ==>
      |r.value| == |v.entries| && forall i :: 0 <= i < |v.entries| ==> r.value[i] == (v.entries[i].0.s, v.entries[i].1.s)
    ensures v.VTuple? || v.VList? ==> (r.Some? <==> forall i :: 0 <= i < |v.items| ==> IsStringPair(v.items[i]))
    ensures (v.VTuple? || v.VList?) && r.Some? ==>
      |r.value| == |v.items| && forall i :: 0 <= i < |v.items| ==> r.value[i] == (v.items[i].items[0].s, v.items[i].items[1].s)
  {
    match v
    case VNone => Some([])
    case VHeaders(p) => Some(p)
    case VDict(es) =>
      if forall i :: 0 <= i < |es| ==> es[i].0.VStr? && es[i].1.VStr? then
        Some(seq(|es|, i requires 0 <= i < |es| && es[i].0.VStr? && es[i].1.VStr? => (es[i].0.s, es[i].1.s)))
      else None
    case VTuple(xs) =>
      if forall i :: 0 <= i < |xs| ==> IsStringPair(xs[i]) then
        Some(seq(|xs|, i requires 0 <= i < |xs| && IsStringPair(xs[i]) => (xs[i].items[0].s, xs[i].items[1].s)))
      else None
    case VList(xs) =>
      if forall i :: 0 <= i < |xs| ==> IsStringPair(xs[i]) then
        Some(seq(|xs|, i requires 0 <= i < |xs| && IsStringPair(xs[i]) => (xs[i].items[0].s, xs[i].items[1].s)))
      else None
    case _ => None
  }

  /** Header names compare without regard to ASCII case. */
  predicate HasHeader(pairs: seq<(string, string)>, key: string)
  {
    exists i :: 0 <= i < |pairs| && Lower(pairs[i].0) == Lower(key)
  }

  /** `Headers.setdefault(key, value)`: add the header unless one with that
      name (in any case) is already there. */
  function SetDefault(pairs: seq<(string, string)>, key: string, value: string): (r: seq<(string, string)>)
    ensures HasHeader(r, key)
    ensures |pairs| <= |r| <= |pairs| + 1 && r[..|pairs|] == pairs
    ensures |r| == |pairs| + 1 <==> !HasHeader(pairs, key)
    ensures |r| == |pairs| + 1 ==> r[|pairs|] == (key, value)
  {
    if HasHeader(pairs, key) then pairs
    else
      var r := pairs + [(key, value)];
      assert r[|pairs|] == (key, value);
      r
  }

  /** Spreading a view's return value into (body, status, headers): a
      3-tuple gives all three; a 2-tuple gives headers when its second item is
      header-like and a status otherwise; a 1-tuple gives the body; any other
      tuple length is a TypeError; a non-tuple is the body itself. */
  function Unpack(rv: Value): (r: Result<(Value, Value, Value), ResponseError>)
    ensures !rv.VTuple? ==> r == Ok((rv, VNone, VNone))
    ensures rv.VTuple? && |rv.items| == 3 ==> r == Ok((rv.items[0], rv.items[1], rv.items[2]))
    ensures rv.VTuple? && |rv.items| == 2 && IsHeaderLike(rv.items[1]) ==> r == Ok((rv.items[0], VNone, rv.items[1]))
    ensures rv.VTuple? && |rv.items| == 2 && !IsHeaderLike(rv.items[1]) ==> r == Ok((rv.items[0], rv.items[1], VNone))
    ensures rv.VTuple? && |rv.items| == 1 ==> r == Ok((rv.items[0], VNone, VNone))
    ensures r.Err? <==> rv.VTuple? && (|rv.items| == 0 || |rv.items| > 3)
    ensures r.Err? ==> r.error == TupleArity(|rv.items|)
  {
    if !rv.VTuple? then Ok((rv, VNone, VNone))
    else
      var xs := rv.items;
      if |xs| == 3 then Ok((xs[0], xs[1], xs[2]))
      else if |xs| == 2 then
        if IsHeaderLike(xs[1]) then Ok((xs[0], VNone, xs[1])) else Ok((xs[0], xs[1], VNone))
      else if |xs| == 1 then Ok((xs[0], VNone, VNone))
      else Err(TupleArity(|xs|))
  }

  /** The body half of `make_response`: a dict is encoded as JSON (a
      TypeError when it holds something JSON cannot encode) and gets a JSON
      Content-type header unless one is present; None, str, bytes and
      bytearray pass; anything else is a TypeError. */
  function ShapeBody(body: Value, status: Value, headers: Value): (r: Result<Response, ResponseError>)
    ensures r.Ok? <==> IsTextOrBytes(body) || body.VNone? || (body.VDict? && JsonEncodable(body) && HeaderPairs(headers).Some?)
    ensures body.VDict? && !JsonEncodable(body) ==> r == Err(NotSerializable(JsonFailure(body).value))
    ensures r.Err? && r.error.NotSerializable? ==> r.error.message != ""
    ensures r.Ok? ==> r.value.status == status
    ensures r.Ok? && body.VDict? ==>
      && r.value.body == Json(body.entries)
      && r.value.headers.VHeaders?
      && HasHeader(r.value.headers.pairs, "Content-type")
      && HeaderPairs(headers).value <= r.value.headers.pairs
    ensures r.Ok? && body.VDict? && !HasHeader(HeaderPairs(headers).value, "Content-type") ==>
      r.value.headers.pairs == HeaderPairs(headers).value + [("Content-type", "application/json")]
    ensures r.Ok? && body.VDict? && HasHeader(HeaderPairs(headers).value, "Content-type") ==>
      r.value.headers.pairs == HeaderPairs(headers).value
    ensures r.Ok? && !body.VDict? ==> r.value.headers == headers
    ensures r.Ok? && body.VNone? ==> r.value.body == Empty
    ensures r.Ok? && IsTextOrBytes(body) ==> r.value.body == Data(body)
    ensures r.Err? && !body.VDict? ==> r.error == IllegalBody(TypeName(body))
  {
    if body.VDict? then
      if !JsonEncodable(body) then Err(NotSerializable(JsonFailure(body).value))
      else match HeaderPairs(headers)
      case None => Err(BadHeaders)
      case Some(pairs) =>
        Ok(Response(Json(body.entries), status, VHeaders(SetDefault(pairs, "Content-type", "application/json"))))
    else if body.VNone? then Ok(Response(Empty, status, headers))
    else if IsTextOrBytes(body) then Ok(Response(Data(body), status, headers))
    else Err(IllegalBody(TypeName(body)))
  }

  /** A dict body whose dict headers already name a Content-type keeps that
      header as given and gains no second one. */
  lemma DictHeadersKeepContentType(body: seq<(Value, Value)>, status: Value, name: string, value: string)
    requires JsonEncodable(VDict(body))
    requires Lower(name) == Lower("Content-type")
    ensures ShapeBody(VDict(body), status, VDict([(VStr(name), VStr(value))]))
            == Ok(Response(Json(body), status, VHeaders([(name, value)])))
  {
    var pairs := HeaderPairs(VDict([(VStr(name), VStr(value))])).value;
    assert pairs == [(name, value)];
    assert Lower(pairs[0].0) == Lower("Content-type");
    assert HasHeader(pairs, "Content-type");
  }

  /** `make_response(rv)`. */
  function MakeResponse(rv: Value): (r: Result<Response, ResponseError>)
    ensures rv.VResponse? ==> r == Ok(rv.response)
    ensures rv.VTuple? && (|rv.items| == 0 || |rv.items| > 3) ==> r == Err(TupleArity(|rv.items|))
    ensures !rv.VTuple? && !rv.VResponse? ==> r == ShapeBody(rv, VNone, VNone)
    ensures rv.VTuple? && 1 <= |rv.items| <= 3 ==>
      r == ShapeBody(Unpack(rv).value.0, Unpack(rv).value.1, Unpack(rv).value.2)
    ensures r.Ok? && !rv.VTuple? && !rv.VResponse? ==> r.value.status == VNone
    ensures r.Err? && r.error.NotSerializable? ==> r.error.message != ""
  {
    if rv.VResponse? then Ok(rv.response)
    else
      match Unpack(rv)
      case Err(e) => Err(e)
      case Ok((body, status, headers)) => ShapeBody(body, status, headers)
  }

  /** A response handed back again is returned unchanged, so shaping is
      idempotent on its own results. */
  lemma MakeResponseIdempotent(rv: Value)
    requires MakeResponse(rv).Ok?
    ensures MakeResponse(VResponse(MakeResponse(rv).value)) == MakeResponse(rv)
  {
  }

  /** `(body,)` behaves like `body`, except when `body` is itself a tuple or a
      response: those are not unwrapped a second time and fail as bodies. */
  lemma OneTupleIsBody(body: Value)
    ensures !body.VTuple? && !body.VResponse? ==> MakeResponse(VTuple([body])) == MakeResponse(body)
    ensures body.VTuple? || body.VResponse? ==> MakeResponse(VTuple([body])) == Err(IllegalBody(TypeName(body)))
  {
  }

  /** A None status is the same as giving no status at all. */
  lemma NoneStatusIsNoStatus(body: Value)
    ensures MakeResponse(VTuple([body, VNone])) == MakeResponse(VTuple([body]))
  {
  }

  /** The 2-tuple `(body, status)` with a status that is not header-like is
      the 3-tuple with no headers. */
  lemma PairIsTripleWithoutHeaders(body: Value, status: Value)
    requires !IsHeaderLike(status)
    ensures MakeResponse(VTuple([body, status])) == MakeResponse(VTuple([body, status, VNone]))
  {
  }
}
