/** onMessage as a function of the listener table and the registry: each accepted
    message of a frame, in order, fires `rpc.message`, fires its method's listeners
    and resolves the pending entry its id addresses. */
module Dispatch {
  import opened Json
  import opened Codec
  import opened Trace
  import opened Events
  import opened Registry

  /** The name runEvent is given for `message.method`: undefined stays undefined (no
      dispatch), any other value is looked up under its property key. */
  function MethodName(m: Json): Option<string>
  {
    match Member(m, "method")
    case None => None
    case Some(v) => Some(JsString(v))
  }

  function PayloadOf(v: Option<Json>): Payload
  {
    if v.Some? then Value(v.value) else Undefined
  }

  function AppendCalls(c: Core, calls: seq<Invocation>): Core
  {
    Core(c.pending, c.log + calls)
  }

  /** One pass of onMessage's loop body. */
  function HandleMessage(events: Table, c: Core, m: Json): Core
  {
    var c1 := AppendCalls(c, Notify(Lookup(events, Some("rpc.message")), Value(m)));
    var c2 := AppendCalls(c1, Notify(Lookup(events, MethodName(m)), PayloadOf(Member(m, "params"))));
    Resolve(c2, Member(m, "id"), ResponseReply(Member(m, "error"), Member(m, "result")))
  }

  /** The loop over a frame's messages, first to last. */
  function Deliver(events: Table, c: Core, msgs: seq<Json>): Core
    decreases |msgs|
  {
    if msgs == [] then c else Deliver(events, HandleMessage(events, c, msgs[0]), msgs[1..])
  }

  /** onMessage: a frame that fails to parse or holds a rejected element changes nothing. */
  function Receive(events: Table, c: Core, frame: Frame): Core
  {
    match ParseData(frame)
    case None => c
    case Some(msgs) => Deliver(events, c, msgs)
  }

  lemma HandleMessagePreservesInv(nextId: nat, events: Table, c: Core, m: Json)
    requires RegistryInv(nextId, c)
    ensures RegistryInv(nextId, HandleMessage(events, c, m))
  {
    var calls1 := Notify(Lookup(events, Some("rpc.message")), Value(m));
    var calls2 := Notify(Lookup(events, MethodName(m)), PayloadOf(Member(m, "params")));
    AppendUnresolvedPreservesInv(nextId, c, calls1);
    var c1 := AppendCalls(c, calls1);
    AppendUnresolvedPreservesInv(nextId, c1, calls2);
    ResolvePreservesInv(nextId, AppendCalls(c1, calls2), Member(m, "id"), ResponseReply(Member(m, "error"), Member(m, "result")));
  }

  /** Handling any sequence of messages keeps every pending id below nextId and
      resolves no id twice. */
  lemma {:induction false} DeliverPreservesInv(nextId: nat, events: Table, c: Core, msgs: seq<Json>)
    requires RegistryInv(nextId, c)
    ensures RegistryInv(nextId, Deliver(events, c, msgs))
    decreases |msgs|
  {
    if msgs != [] {
      HandleMessagePreservesInv(nextId, events, c, msgs[0]);
      DeliverPreservesInv(nextId, events, HandleMessage(events, c, msgs[0]), msgs[1..]);
    }
  }

  lemma ReceivePreservesInv(nextId: nat, events: Table, c: Core, frame: Frame)
    requires RegistryInv(nextId, c)
    ensures RegistryInv(nextId, Receive(events, c, frame))
  {
    if ParseData(frame).Some? {
      DeliverPreservesInv(nextId, events, c, ParseData(frame).value);
    }
  }

  /** Inbound messages only ever remove pending entries, never add or change one, and
      only append to the log. */
  lemma {:induction false} DeliverOnlyRemoves(events: Table, c: Core, msgs: seq<Json>)
    ensures Deliver(events, c, msgs).pending.Keys <= c.pending.Keys
    ensures forall n | n in Deliver(events, c, msgs).pending :: Deliver(events, c, msgs).pending[n] == c.pending[n]
    ensures c.log <= Deliver(events, c, msgs).log
    decreases |msgs|
  {
    if msgs != [] {
      DeliverOnlyRemoves(events, HandleMessage(events, c, msgs[0]), msgs[1..]);
    }
  }

  /** A frame with any rejected element is dropped whole: no listener or callback runs
      and the registry is unchanged, even for the accepted elements before it. */
  lemma RejectedElementDropsFrame(events: Table, c: Core, items: seq<Json>, k: nat)
    requires k < |items| && !IsRpcMessage(items[k])
    ensures Receive(events, c, Parsed(Array(items))) == c
  {
  }

  /** A batch is handled exactly as its messages arriving one frame each, in array order. */
  function ReceiveEach(events: Table, c: Core, items: seq<Json>): Core
    decreases |items|
  {
    if items == [] then c else ReceiveEach(events, Receive(events, c, Parsed(items[0])), items[1..])
  }

  lemma {:induction false} BatchIsInOrder(events: Table, c: Core, items: seq<Json>)
    requires forall i | 0 <= i < |items| :: IsRpcMessage(items[i])
    ensures Receive(events, c, Parsed(Array(items))) == ReceiveEach(events, c, items)
  {
    DeliverEach(events, c, items);
  }

  lemma {:induction false} DeliverEach(events: Table, c: Core, items: seq<Json>)
    requires forall i | 0 <= i < |items| :: IsRpcMessage(items[i])
    ensures Deliver(events, c, items) == ReceiveEach(events, c, items)
    decreases |items|
  {
    if items != [] {
      assert IsRpcMessage(items[0]);
      assert ParseData(Parsed(items[0])) == Some([items[0]]);
      assert [items[0]][1..] == [];
      assert Deliver(events, c, [items[0]]) == HandleMessage(events, c, items[0]);
      DeliverEach(events, HandleMessage(events, c, items[0]), items[1..]);
    }
  }

  /** A response envelope `{id: n, result: r, jsonrpc: "2.0"}`. */
  function ResultResponse(n: nat, r: Json): Json
  {
    Object(map["jsonrpc" := String("2.0"), "id" := Number(n), "result" := r])
  }

  lemma ResultResponseFacts(n: nat, r: Json)
    ensures IsRpcMessage(ResultResponse(n, r))
    ensures MethodName(ResultResponse(n, r)) == None
    ensures Member(ResultResponse(n, r), "params") == None
    ensures Addressed(Member(ResultResponse(n, r), "id")) == Some(n)
    ensures ResponseReply(Member(ResultResponse(n, r), "error"), Member(ResultResponse(n, r), "result")) == Success(Some(r))
  {
    var m := ResultResponse(n, r);
    EchoedIdAddresses(n);
    assert Member(m, "method") == None && Member(m, "error") == None;
    assert Member(m, "id") == Some(Number(n)) && Member(m, "result") == Some(r);
  }

  /** What one result response does: fire `rpc.message`, then settle its id. */
  lemma HandleResultResponse(events: Table, c: Core, n: nat, r: Json)
    ensures HandleMessage(events, c, ResultResponse(n, r))
      == Settle(AppendCalls(c, Notify(Lookup(events, Some("rpc.message")), Value(ResultResponse(n, r)))), n, Success(Some(r)))
  {
    ResultResponseFacts(n, r);
  }

  /** A frame holding one result response fires `rpc.message`, then settles its id
      with `(undefined, result)`. */
  lemma ReceiveResultResponse(events: Table, c: Core, n: nat, r: Json)
    ensures Receive(events, c, Parsed(ResultResponse(n, r)))
      == Settle(AppendCalls(c, Notify(Lookup(events, Some("rpc.message")), Value(ResultResponse(n, r)))), n, Success(Some(r)))
  {
    var m := ResultResponse(n, r);
    ResultResponseFacts(n, r);
    HandleResultResponse(events, c, n, r);
    assert ParseData(Parsed(m)) == Some([m]);
    assert [m][1..] == [];
    assert Deliver(events, c, [m]) == Deliver(events, HandleMessage(events, c, m), []);
  }

  /** A response to a pending request resolves its callback once with
      `(undefined, result)`; the same response again, later in the batch, only fires
      `rpc.message`. */
  lemma DuplicateResponseResolvesOnce(events: Table, c: Core, n: nat, r: Json)
    requires n in c.pending
    ensures
      var m := ResultResponse(n, r);
      var heard := Notify(Lookup(events, Some("rpc.message")), Value(m));
      Receive(events, c, Parsed(Array([m, m])))
        == Core(c.pending - {n}, c.log + heard + [Resolved(n, c.pending[n], Success(Some(r)))] + heard)
  {
    var m := ResultResponse(n, r);
    ResultResponseFacts(n, r);
    assert ParseData(Parsed(Array([m, m]))) == Some([m, m]);
    var heard := Notify(Lookup(events, Some("rpc.message")), Value(m));
    var once := Core(c.pending - {n}, c.log + heard + [Resolved(n, c.pending[n], Success(Some(r)))]);
    HandleResultResponse(events, c, n, r);
    assert HandleMessage(events, c, m) == once;
    HandleResultResponse(events, once, n, r);
    assert HandleMessage(events, once, m) == AppendCalls(once, heard);
    assert [m, m][1..] == [m];
    assert Deliver(events, c, [m, m]) == Deliver(events, once, [m]);
    assert [m][1..] == [];
    assert Deliver(events, once, [m]) == Deliver(events, HandleMessage(events, once, m), []);
  }

  /** A message carrying both a method and an id is a notification to the method's
      listeners and also resolves the request its id addresses, with
      `(undefined, result)` or the error it carries. */
  lemma MethodWithIdAlsoResolves(events: Table, c: Core, m: Json, n: nat)
    requires Member(m, "method").Some? && Member(m, "id") == Some(Number(n)) && n in c.pending
    ensures HandleMessage(events, c, m) == Core(
      c.pending - {n},
      c.log
        + Notify(Lookup(events, Some("rpc.message")), Value(m))
        + Notify(Lookup(events, MethodName(m)), PayloadOf(Member(m, "params")))
        + [Resolved(n, c.pending[n], ResponseReply(Member(m, "error"), Member(m, "result")))])
  {
    EchoedIdAddresses(n);
  }

  // ---------------------------------------------------------------------------
  // The listener lookup as written. `_events` is a plain object, so a name that is
  // a property of Object.prototype reads an inherited value rather than undefined;
  // runEvent then iterates that value, which is not iterable, and throws.

  /** The property names every plain object inherits from Object.prototype. */
  const ObjectPrototypeNames: set<string> := {
    "constructor", "__proto__", "toString", "toLocaleString", "valueOf", "hasOwnProperty",
    "isPrototypeOf", "propertyIsEnumerable", "__defineGetter__", "__defineSetter__",
    "__lookupGetter__", "__lookupSetter__"}

  /** Where the handler stopped: it finished the frame, or a TypeError ended it. */
  datatype Outcome = Finished(core: Core) | Threw(core: Core)

  /** One pass of the loop body as written: a method name that is inherited (and not
      an own key of the table) throws after `rpc.message` has fired, so the message's
      id is never resolved. */
  function HandleMessageAsWritten(events: Table, c: Core, m: Json): Outcome
  {
    var name := MethodName(m);
    if name.Some? && name.value !in events && name.value in ObjectPrototypeNames then
      Threw(AppendCalls(c, Notify(Lookup(events, Some("rpc.message")), Value(m))))
    else Finished(HandleMessage(events, c, m))
  }

  /** The loop as written: a throw ends the handler and the rest of the frame is lost. */
  function DeliverAsWritten(events: Table, c: Core, msgs: seq<Json>): Outcome
    decreases |msgs|
  {
    if msgs == [] then Finished(c)
    else match HandleMessageAsWritten(events, c, msgs[0])
      case Threw(d) => Threw(d)
      case Finished(d) => DeliverAsWritten(events, d, msgs[1..])
  }

  function ReceiveAsWritten(events: Table, c: Core, frame: Frame): Outcome
  {
    match ParseData(frame)
    case None => Finished(c)
    case Some(msgs) => DeliverAsWritten(events, c, msgs)
  }

  /** A notification for a method nobody listens to, `{method: "toString"}`. */
  const ToStringNotification: Json := Object(map["jsonrpc" := String("2.0"), "method" := String("toString")])

  lemma ToStringNotificationFacts()
    ensures IsRpcMessage(ToStringNotification)
    ensures MethodName(ToStringNotification) == Some("toString")
    ensures Member(ToStringNotification, "id") == None
  {
    assert Member(ToStringNotification, "method") == Some(String("toString"));
  }

  /** With own-key lookup, the notification reaches only the `rpc.message` listeners. */
  lemma HandleToStringNotification(events: Table, c: Core)
    requires "toString" !in events
    ensures HandleMessage(events, c, ToStringNotification)
      == AppendCalls(c, Notify(Lookup(events, Some("rpc.message")), Value(ToStringNotification)))
  {
    ToStringNotificationFacts();
  }

  /** A batch of two is the loop body run on the first message, then on the second. */
  lemma DeliverTwo(events: Table, c: Core, a: Json, b: Json)
    ensures Deliver(events, c, [a, b]) == HandleMessage(events, HandleMessage(events, c, a), b)
  {
    assert [a, b][1..] == [b];
    assert [b][1..] == [];
    var d := HandleMessage(events, c, a);
    assert Deliver(events, d, [b]) == Deliver(events, HandleMessage(events, d, b), []);
  }

  /** With own-key lookup, a notification named "toString" that nobody listens to only
      fires `rpc.message`, and the response after it in the same batch resolves its
      request once with `(undefined, result)`. */
  lemma UnknownMethodKeepsBatch(events: Table, c: Core, n: nat, r: Json)
    requires n in c.pending && "toString" !in events
    ensures
      var frame := Parsed(Array([ToStringNotification, ResultResponse(n, r)]));
      var heard := Notify(Lookup(events, Some("rpc.message")), Value(ToStringNotification))
        + Notify(Lookup(events, Some("rpc.message")), Value(ResultResponse(n, r)));
      Receive(events, c, frame) == Core(c.pending - {n}, c.log + heard + [Resolved(n, c.pending[n], Success(Some(r)))])
  {
    var note := ToStringNotification;
    var m := ResultResponse(n, r);
    var heard1 := Notify(Lookup(events, Some("rpc.message")), Value(note));
    var heard2 := Notify(Lookup(events, Some("rpc.message")), Value(m));
    ToStringNotificationFacts();
    ResultResponseFacts(n, r);
    assert ParseData(Parsed(Array([note, m]))) == Some([note, m]);
    DeliverTwo(events, c, note, m);
    HandleToStringNotification(events, c);
    var after := AppendCalls(c, heard1);
    HandleResultResponse(events, after, n, r);
    var before := AppendCalls(after, heard2);
    assert before.pending == c.pending && before.log == c.log + heard1 + heard2;
    assert Settle(before, n, Success(Some(r)))
      == Core(c.pending - {n}, c.log + heard1 + heard2 + [Resolved(n, c.pending[n], Success(Some(r)))]);
    assert c.log + heard1 + heard2 == c.log + (heard1 + heard2);
  }

  /** As written, a batch holding a notification named "toString" ahead of a response
      throws before the response is handled: the request stays pending, to be failed
      by its timeout. With own-key lookup (Receive), the response resolves it. */
  lemma InheritedNameLosesResponse(events: Table, c: Core, n: nat, r: Json)
    requires n in c.pending && "toString" !in events
    ensures
      var frame := Parsed(Array([ToStringNotification, ResultResponse(n, r)]));
      && ReceiveAsWritten(events, c, frame).Threw?
      && ReceiveAsWritten(events, c, frame).core.pending == c.pending
      && Receive(events, c, frame).pending == c.pending - {n}
  {
    var note := ToStringNotification;
    var frame := Parsed(Array([note, ResultResponse(n, r)]));
    ToStringNotificationFacts();
    ResultResponseFacts(n, r);
    assert ParseData(frame) == Some([note, ResultResponse(n, r)]);
    assert HandleMessageAsWritten(events, c, note).Threw?;
    UnknownMethodKeepsBatch(events, c, n, r);
  }
}
