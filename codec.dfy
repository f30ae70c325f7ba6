/** Inbound classification (testRpcMessage), frame splitting (parseData) and the
    envelope `send` serialises. The transport's text is taken as already parsed:
    a frame is either the value JSON.parse returns or a parse failure. */
module Codec {
  import opened Json

  /** A frame as the socket delivers it, after JSON.parse. */
  datatype Frame = Unparsable | Parsed(value: Json)

  /** Reference definition of an acceptable JSON-RPC 2.0 envelope: the protocol tag
      is the string "2.0", and either a method is present, or an id is present
      together with an error or a result (both at once is accepted). */
  predicate IsRpcMessage(m: Json)
  {
    && Member(m, "jsonrpc") == Some(String("2.0"))
    && (Member(m, "method").Some?
        || (Member(m, "id").Some? && (Member(m, "error").Some? || Member(m, "result").Some?)))
  }

  /** testRpcMessage: returns the message it accepts, None where it throws. A value
      that is not an object has no `jsonrpc` property (null throws on the read), so
      it is rejected on the first test. */
  function TestRpcMessage(m: Json): (r: Option<Json>)
    ensures r.Some? <==> IsRpcMessage(m)
    ensures r.Some? ==> r.value == m
  {
    if Member(m, "jsonrpc") != Some(String("2.0")) then None
    else if Member(m, "method").Some? then Some(m)
    else if Member(m, "id").None? then None
    else if Member(m, "error").Some? then Some(m)
    else if Member(m, "result").Some? then Some(m)
    else None
  }

  /** `items.map(testRpcMessage)`: the first rejected element throws out of the map. */
  function TestAll(items: seq<Json>): (r: Option<seq<Json>>)
    ensures r.Some? <==> forall i | 0 <= i < |items| :: IsRpcMessage(items[i])
    ensures r.Some? ==> r.value == items
  {
    if items == [] then Some([])
    else match TestRpcMessage(items[0])
      case None => None
      case Some(m) =>
        match TestAll(items[1..])
        case None => None
        case Some(rest) => Some([m] + rest)
  }

  /** parseData: an array is a batch kept in order, any other value a batch of one;
      a parse failure or any rejected element drops the whole frame (None). */
  function ParseData(frame: Frame): (r: Option<seq<Json>>)
    ensures r.Some? <==>
      frame.Parsed? &&
      (if frame.value.Array?
       then forall i | 0 <= i < |frame.value.items| :: IsRpcMessage(frame.value.items[i])
       else IsRpcMessage(frame.value))
    ensures r.Some? ==> r.value == (if frame.value.Array? then frame.value.items else [frame.value])
  {
    match frame
    case Unparsable => None
    case Parsed(v) =>
      if v.Array? then TestAll(v.items)
      else match TestRpcMessage(v)
        case None => None
        case Some(m) => Some([m])
  }

  /** What `send` hands to JSON.stringify: `{ id, method, params, jsonrpc: '2.0' }`.
      `send` takes any method value; an undefined id, method or params (and a function,
      which JSON.stringify also drops) leaves its key out of the text. */
  datatype Request = Request(id: Option<nat>, methodValue: Option<Json>, params: Option<Json>)

  /** The envelope a request is written as, as JSON.parse would read it back. */
  function Encode(r: Request): Json
  {
    Object(
      map["jsonrpc" := String("2.0")]
      + (if r.methodValue.Some? then map["method" := r.methodValue.value] else map[])
      + (if r.id.Some? then map["id" := Number(r.id.value)] else map[])
      + (if r.params.Some? then map["params" := r.params.value] else map[]))
  }

  /** An envelope the client sends passes its own classifier exactly when it carries a
      method; one whose method was dropped by JSON.stringify has no error or result
      either and is rejected. The envelope carries exactly the id, method and params it
      was built from. */
  lemma EncodeIsRpcMessage(r: Request)
    ensures TestRpcMessage(Encode(r)).Some? <==> r.methodValue.Some?
    ensures r.methodValue.Some? ==> TestRpcMessage(Encode(r)) == Some(Encode(r))
    ensures Member(Encode(r), "method") == r.methodValue
    ensures Member(Encode(r), "id") == (if r.id.Some? then Some(Number(r.id.value)) else None)
    ensures Member(Encode(r), "params") == r.params
    ensures Member(Encode(r), "jsonrpc") == Some(String("2.0"))
    ensures Encode(r).Object? && Encode(r).fields.Keys <= {"jsonrpc", "method", "id", "params"}
  {
    var e := Encode(r);
    assert Member(e, "error") == None && Member(e, "result") == None;
  }

  /** A response carries an id and a result or an error; an id alone is rejected,
      and so is any envelope whose tag is not the string "2.0". */
  lemma ResponseShapes(id: Json, v: Json, tag: Json)
    ensures IsRpcMessage(Object(map["jsonrpc" := String("2.0"), "id" := id, "result" := v]))
    ensures IsRpcMessage(Object(map["jsonrpc" := String("2.0"), "id" := id, "error" := v]))
    ensures IsRpcMessage(Object(map["jsonrpc" := String("2.0"), "id" := id, "error" := v, "result" := v]))
    ensures !IsRpcMessage(Object(map["jsonrpc" := String("2.0"), "id" := id]))
    ensures tag != String("2.0") ==> !IsRpcMessage(Object(map["jsonrpc" := tag, "method" := v]))
  {
    assert Member(Object(map["jsonrpc" := String("2.0"), "id" := id]), "method") == None;
    assert Member(Object(map["jsonrpc" := String("2.0"), "id" := id]), "result") == None;
    assert Member(Object(map["jsonrpc" := String("2.0"), "id" := id]), "error") == None;
  }
}
