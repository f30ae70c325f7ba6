/** The client, class Passage. The WebSocket is replaced by the record of what the
    client asks of it (open a socket, close it, send an envelope) plus a flag saying
    whether `this.connection` is set; socket events arrive as calls to OnOpen,
    OnClose, OnError and OnMessage; each setTimeout becomes a pending Timer that
    the Fire methods run; and every call to a callback or listener is appended to `log`. */
module Client {
  import opened Json
  import opened Codec
  import opened Trace
  import opened Events
  import opened Registry
  import opened Reconnect
  import opened Dispatch

  /** What the client asks of the transport: `new WebSocket(uri)`, `connection.close()`
      and `connection.send(JSON.stringify(Encode(request)))`. */
  datatype TransportOp = Opened | Closed | Sent(request: Request)

  /** A pending setTimeout: runTimeout for a request id, or a reconnect. */
  datatype Timer = RequestTimer(id: nat, ms: int) | ReconnectTimer(ms: int)

  /** The params given to send, as JSON.stringify sees them: left out of the text,
      written as a value, or making stringify throw (a cycle, a BigInt). */
  datatype Params = Omitted | Given(value: Json) | Unserializable(reason: string)

  function Sendable(p: Params): Option<Json>
  {
    if p.Given? then Some(p.value) else None
  }

  /** The exception JSON.stringify throws, handed to the callback as is. */
  function SerializationError(reason: string): Reply
  {
    Failure(ErrorValue(reason, None, None))
  }

  /** The ids of sent requests lie in 1 .. nextId - 1 and strictly increase in
      sending order, so no id is ever sent twice. */
  ghost predicate SentIdsFresh(transport: seq<TransportOp>, nextId: nat)
  {
    && (forall i | 0 <= i < |transport| && transport[i].Sent? && transport[i].request.id.Some? ::
          1 <= transport[i].request.id.value < nextId)
    && (forall i, j | 0 <= i < j < |transport| && transport[i].Sent? && transport[j].Sent?
          && transport[i].request.id.Some? && transport[j].request.id.Some? ::
          transport[i].request.id.value < transport[j].request.id.value)
  }

  lemma AppendNonSentKeepsIds(transport: seq<TransportOp>, nextId: nat, op: TransportOp)
    requires SentIdsFresh(transport, nextId) && !op.Sent?
    ensures SentIdsFresh(transport + [op], nextId)
  {
    var t := transport + [op];
    forall i | 0 <= i < |transport|
      ensures t[i] == transport[i]
    {
    }
  }

  lemma AppendSentKeepsIds(transport: seq<TransportOp>, nextId: nat, r: Request)
    requires SentIdsFresh(transport, nextId)
    requires r.id.Some? ==> r.id.value == nextId && nextId >= 1
    ensures SentIdsFresh(transport + [Sent(r)], nextId + 1)
  {
    var t := transport + [Sent(r)];
    forall i | 0 <= i < |transport|
      ensures t[i] == transport[i]
    {
    }
  }

  /** Every pending request has a timer still armed for its id: the one-shot deadline
      that will resolve it if no response does. */
  ghost predicate TimersCover(callbacks: map<nat, Callback>, timers: seq<Timer>)
  {
    forall n | n in callbacks :: exists k | 0 <= k < |timers| :: timers[k].RequestTimer? && timers[k].id == n
  }

  /** A timer that fires leaves every other pending request covered, as long as the
      request it was for, if any, is no longer pending. */
  lemma DropTimerKeepsCover(callbacks: map<nat, Callback>, timers: seq<Timer>, k: nat, after: map<nat, Callback>)
    requires TimersCover(callbacks, timers) && k < |timers|
    requires after.Keys <= callbacks.Keys
    requires timers[k].RequestTimer? ==> timers[k].id !in after
    ensures TimersCover(after, timers[..k] + timers[k + 1..])
  {
    var rest := timers[..k] + timers[k + 1..];
    forall n | n in after
      ensures exists j | 0 <= j < |rest| :: rest[j].RequestTimer? && rest[j].id == n
    {
      var i :| 0 <= i < |timers| && timers[i].RequestTimer? && timers[i].id == n;
      if i < k {
        assert rest[i] == timers[i];
      } else {
        assert i != k;
        assert rest[i - 1] == timers[i];
      }
    }
  }

  /** Removing pending requests, or arming one more timer, keeps the rest covered. */
  lemma ShrinkKeepsCover(callbacks: map<nat, Callback>, timers: seq<Timer>, after: map<nat, Callback>, added: seq<Timer>)
    requires TimersCover(callbacks, timers) && after.Keys <= callbacks.Keys
    ensures TimersCover(after, timers + added)
  {
    forall n | n in after
      ensures exists j | 0 <= j < |timers + added| :: (timers + added)[j].RequestTimer? && (timers + added)[j].id == n
    {
      var i :| 0 <= i < |timers| && timers[i].RequestTimer? && timers[i].id == n;
      assert (timers + added)[i] == timers[i];
    }
  }

  /** An inbound frame only resolves requests, so the ones still pending keep their timers. */
  lemma ReceiveKeepsCover(events: Table, c: Core, frame: Frame, timers: seq<Timer>)
    requires TimersCover(c.pending, timers)
    ensures TimersCover(Receive(events, c, frame).pending, timers)
  {
    if ParseData(frame).Some? {
      DeliverOnlyRemoves(events, c, ParseData(frame).value);
    }
    ShrinkKeepsCover(c.pending, timers, Receive(events, c, frame).pending, []);
    assert timers + [] == timers;
  }

  /** Registering a request together with its timer keeps every request covered. */
  lemma RegisterKeepsCover(callbacks: map<nat, Callback>, timers: seq<Timer>, n: nat, cb: Callback, ms: int)
    requires TimersCover(callbacks, timers)
    ensures TimersCover(callbacks[n := cb], timers + [RequestTimer(n, ms)])
  {
    var t := timers + [RequestTimer(n, ms)];
    var after := callbacks[n := cb];
    forall m | m in after
      ensures exists j | 0 <= j < |t| :: t[j].RequestTimer? && t[j].id == m
    {
      if m == n {
        assert t[|timers|] == RequestTimer(n, ms);
      } else {
        var i :| 0 <= i < |timers| && timers[i].RequestTimer? && timers[i].id == m;
        assert t[i] == timers[i];
      }
    }
  }

  class Passage {
    const uri: string
    const options: Options
    var nextId: nat
    var tries: nat
    var callbacks: map<nat, Callback>
    var events: Table
    var hasConnection: bool
    var transport: seq<TransportOp>
    var timers: seq<Timer>
    var log: seq<Invocation>

    /** Every pending id is below nextId and has a timer armed, no id is resolved twice,
        no id is sent twice, and the listener table keeps no empty list. */
    ghost predicate Valid()
      reads this
    {
      && RegistryInv(nextId, Core(callbacks, log))
      && SentIdsFresh(transport, nextId)
      && NoEmptyLists(events)
      && TimersCover(callbacks, timers)
    }

    /** new Passage(uri, options): normalises the options, starts ids at 1 and the
        retry counter at 0, and connects. */
    constructor (uri: string, input: OptionsInput)
      ensures Valid()
      ensures this.uri == uri && options == Normalize(input)
      ensures nextId == 1 && tries == 0 && callbacks == map[] && events == map[]
      ensures hasConnection && transport == [Opened] && timers == [] && log == []
    {
      this.uri := uri;
      options := Normalize(input);
      nextId := 1;
      tries := 0;
      callbacks := map[];
      events := map[];
      hasConnection := false;
      transport := [];
      timers := [];
      log := [];
      new;
      assert RegistryInv(1, Core(map[], [])) && SentIdsFresh([], 1) && NoEmptyLists(map[]) && TimersCover(map[], []);
      Connect();
    }

    /** close(): asks the current socket, if any, to close. It resets nothing: the
        closed socket stays the connection, and a scheduled reconnect stays scheduled. */
    method Close()
      requires Valid()
      modifies this`transport
      ensures Valid()
      ensures transport == old(transport) + (if hasConnection then [Closed] else [])
    {
      if hasConnection {
        AppendNonSentKeepsIds(transport, nextId, Closed);
        transport := transport + [Closed];
      }
    }

    /** connect(): closes the current socket, if any, and opens a new one whose events
        are wired to OnOpen, OnClose, OnError and OnMessage. */
    method Connect()
      requires Valid()
      modifies this`transport, this`hasConnection
      ensures Valid()
      ensures hasConnection
      ensures transport == old(transport) + (if old(hasConnection) then [Closed] else []) + [Opened]
    {
      Close();
      AppendNonSentKeepsIds(transport, nextId, Opened);
      transport := transport + [Opened];
      hasConnection := true;
    }

    /** send(method, params, callback, timeout). The method is any value (None where it
        is undefined or a function, which the text leaves out). Without a connection the callback alone
        hears "No connection". Otherwise a callback takes the id nextId (even when
        stringify then fails); a stringify failure goes to the callback and nothing is
        sent; else exactly one envelope is sent, and a callback is registered under its
        id with a timeout of `timeout` ms, or requestTimeout when that is no number. */
    method Send(methodValue: Option<Json>, params: Params, callback: Option<Callback>, timeout: Option<Json>)
      requires Valid()
      modifies this`nextId, this`callbacks, this`transport, this`timers, this`log
      ensures Valid()
      ensures !old(hasConnection) ==>
        && nextId == old(nextId) && callbacks == old(callbacks)
        && transport == old(transport) && timers == old(timers)
        && log == old(log) + (if callback.Some? then [Refused(callback.value, NoConnection)] else [])
      ensures old(hasConnection) ==> nextId == old(nextId) + (if callback.Some? then 1 else 0)
      ensures old(hasConnection) && params.Unserializable? ==>
        && callbacks == old(callbacks) && transport == old(transport) && timers == old(timers)
        && log == old(log) + (if callback.Some? then [Refused(callback.value, SerializationError(params.reason))] else [])
      ensures old(hasConnection) && !params.Unserializable? && callback.None? ==>
        && callbacks == old(callbacks) && timers == old(timers) && log == old(log)
        && transport == old(transport) + [Sent(Request(None, methodValue, Sendable(params)))]
      ensures old(hasConnection) && !params.Unserializable? && callback.Some? ==>
        && old(nextId) !in old(callbacks)
        && callbacks == old(callbacks)[old(nextId) := callback.value]
        && timers == old(timers) + [RequestTimer(old(nextId), NumOrDef(timeout, options.requestTimeout))]
        && log == old(log)
        && transport == old(transport) + [Sent(Request(Some(old(nextId)), methodValue, Sendable(params)))]
    {
      if !hasConnection {
        if callback.Some? {
          AppendUnresolvedPreservesInv(nextId, Core(callbacks, log), [Refused(callback.value, NoConnection)]);
          log := log + [Refused(callback.value, NoConnection)];
        }
        return;
      }
      var id: Option<nat> := None;
      if callback.Some? {
        id := Some(nextId);
        RegisterPreservesInv(nextId, Core(callbacks, log), callback.value);
        nextId := nextId + 1;
      }
      if params.Unserializable? {
        if callback.Some? {
          AppendUnresolvedPreservesInv(nextId, Core(callbacks, log), [Refused(callback.value, SerializationError(params.reason))]);
          log := log + [Refused(callback.value, SerializationError(params.reason))];
        }
        return;
      }
      var request := Request(id, methodValue, Sendable(params));
      if callback.Some? {
        callbacks := callbacks[id.value := callback.value];
        var ms := NumOrDef(timeout, options.requestTimeout);
        RegisterKeepsCover(old(callbacks), timers, id.value, callback.value, ms);
        timers := timers + [RequestTimer(id.value, ms)];
        AppendSentKeepsIds(transport, nextId - 1, request);
      } else {
        AppendSentKeepsIds(transport, nextId, request);
      }
      transport := transport + [Sent(request)];
    }

    /** addEventListener(name, listener). */
    method AddEventListener(name: string, listener: Listener)
      requires Valid()
      modifies this`events
      ensures Valid()
      ensures events == Add(old(events), name, listener)
    {
      var list := if name in events then events[name] else [];
      events := events[name := list + [listener]];
    }

    /** removeEventListener(name, listener). */
    method RemoveEventListener(name: string, listener: Listener)
      requires Valid()
      modifies this`events
      ensures Valid()
      ensures events == Remove(old(events), name, listener)
    {
      if name !in events {
        return;
      }
      var index := IndexOf(events[name], listener);
      if index < 0 {
        return;
      }
      var rest := events[name][..index] + events[name][index + 1..];
      if |rest| < 1 {
        events := events - {name};
      } else {
        events := events[name := rest];
      }
    }

    /** runEvent(name, payload): each listener of the name, in order; nothing for an
        undefined or unmapped name. */
    method RunEvent(name: Option<string>, payload: Payload)
      modifies this`log
      ensures log == old(log) + Notify(Lookup(events, name), payload)
    {
      if name.None? || name.value !in events {
        return;
      }
      var listeners := events[name.value];
      var i := 0;
      while i < |listeners|
        invariant 0 <= i <= |listeners|
        invariant log == old(log) + Notify(listeners[..i], payload)
      {
        assert listeners[..i + 1][..i] == listeners[..i];
        log := log + [Listened(listeners[i], payload)];
        i := i + 1;
      }
      assert listeners[..i] == listeners;
    }

    /** runCallback(id, error, result). */
    method RunCallback(id: Option<Json>, error: Option<Json>, result: Option<Json>)
      modifies this`callbacks, this`log
      ensures Core(callbacks, log) == Resolve(old(Core(callbacks, log)), id, ResponseReply(error, result))
    {
      var key := Addressed(id);
      if key.Some? && key.value in callbacks {
        log := log + [Resolved(key.value, callbacks[key.value], ResponseReply(error, result))];
      }
      if key.Some? {
        callbacks := callbacks - {key.value};
      }
    }

    /** runTimeout(id). */
    method RunTimeout(id: nat)
      modifies this`callbacks, this`log
      ensures Core(callbacks, log) == Expire(old(Core(callbacks, log)), id)
    {
      if id !in callbacks {
        return;
      }
      log := log + [Resolved(id, callbacks[id], TimedOut)];
      callbacks := callbacks - {id};
    }

    /** onMessage(event): see Dispatch.Receive. A frame that does not parse, or holds a
        rejected element, is only logged to the console. */
    method OnMessage(frame: Frame)
      requires Valid()
      modifies this`callbacks, this`log
      ensures Valid()
      ensures Core(callbacks, log) == Receive(events, old(Core(callbacks, log)), frame)
    {
      ReceivePreservesInv(nextId, events, Core(callbacks, log), frame);
      ReceiveKeepsCover(events, Core(callbacks, log), frame, timers);
      var messages := ParseData(frame);
      if messages.None? {
        return;
      }
      var msgs := messages.value;
      var i := 0;
      while i < |msgs|
        invariant 0 <= i <= |msgs|
        invariant Deliver(events, Core(callbacks, log), msgs[i..]) == Deliver(events, old(Core(callbacks, log)), msgs)
      {
        var m := msgs[i];
        ghost var before := Core(callbacks, log);
        assert msgs[i..][0] == m && msgs[i..][1..] == msgs[i + 1..];
        RunEvent(Some("rpc.message"), Value(m));
        assert Core(callbacks, log) == AppendCalls(before, Notify(Lookup(events, Some("rpc.message")), Value(m)));
        RunEvent(MethodName(m), PayloadOf(Member(m, "params")));
        RunCallback(Member(m, "id"), Member(m, "error"), Member(m, "result"));
        assert Core(callbacks, log) == HandleMessage(events, before, m);
        i := i + 1;
      }
    }

    /** onOpen: resets the retry counter, then fires `rpc.open`. */
    method OnOpen()
      requires Valid()
      modifies this`tries, this`log
      ensures Valid()
      ensures tries == 0
      ensures log == old(log) + Notify(Lookup(events, Some("rpc.open")), Undefined)
    {
      tries := 0;
      AppendUnresolvedPreservesInv(nextId, Core(callbacks, log), Notify(Lookup(events, Some("rpc.open")), Undefined));
      RunEvent(Some("rpc.open"), Undefined);
    }

    /** onClose: when reconnecting is on and the counter has not passed reconnectTries,
        counts the attempt and schedules one reconnect; then fires `rpc.close`. */
    method OnClose()
      requires Valid()
      modifies this`tries, this`timers, this`log
      ensures Valid()
      ensures tries == TriesAfterClose(options, old(tries))
      ensures timers == old(timers)
        + (if SchedulesReconnect(options, old(tries)) then [ReconnectTimer(options.reconnectTimeout)] else [])
      ensures log == old(log) + Notify(Lookup(events, Some("rpc.close")), Undefined)
    {
      if options.reconnect && tries <= options.reconnectTries {
        tries := tries + 1;
        ShrinkKeepsCover(callbacks, timers, callbacks, [ReconnectTimer(options.reconnectTimeout)]);
        timers := timers + [ReconnectTimer(options.reconnectTimeout)];
      }
      AppendUnresolvedPreservesInv(nextId, Core(callbacks, log), Notify(Lookup(events, Some("rpc.close")), Undefined));
      RunEvent(Some("rpc.close"), Undefined);
    }

    /** onError(event): fires `rpc.error` with the transport's error event. */
    method OnError(event: nat)
      requires Valid()
      modifies this`log
      ensures Valid()
      ensures log == old(log) + Notify(Lookup(events, Some("rpc.error")), TransportError(event))
    {
      AppendUnresolvedPreservesInv(nextId, Core(callbacks, log), Notify(Lookup(events, Some("rpc.error")), TransportError(event)));
      RunEvent(Some("rpc.error"), TransportError(event));
    }

    /** A request's timer fires: runTimeout for its id. */
    method FireRequestTimer(k: nat)
      requires Valid() && k < |timers| && timers[k].RequestTimer?
      modifies this`timers, this`callbacks, this`log
      ensures Valid()
      ensures timers == old(timers[..k] + timers[k + 1..])
      ensures Core(callbacks, log) == Expire(old(Core(callbacks, log)), old(timers[k].id))
    {
      var id := timers[k].id;
      SettleEffect(Core(callbacks, log), id, TimedOut);
      DropTimerKeepsCover(callbacks, timers, k, callbacks - {id});
      timers := timers[..k] + timers[k + 1..];
      SettlePreservesInv(nextId, Core(callbacks, log), id, TimedOut);
      RunTimeout(id);
    }

    /** The reconnect timer fires, with connect bound to this client: the old socket is
        closed and a new one opened. */
    method FireReconnectTimer(k: nat)
      requires Valid() && k < |timers| && timers[k].ReconnectTimer?
      modifies this`timers, this`transport, this`hasConnection
      ensures Valid()
      ensures timers == old(timers[..k] + timers[k + 1..])
      ensures hasConnection
      ensures transport == old(transport) + (if old(hasConnection) then [Closed] else []) + [Opened]
    {
      DropTimerKeepsCover(callbacks, timers, k, callbacks);
      timers := timers[..k] + timers[k + 1..];
      Connect();
    }

    /** The reconnect timer as written: setTimeout receives `this.connect` without its
        object, so the call does not run on this client; whatever it does, the client's
        socket is not replaced and no state of the client changes. */
    method FireReconnectAsWritten(k: nat)
      requires Valid() && k < |timers| && timers[k].ReconnectTimer?
      modifies this`timers
      ensures Valid()
      ensures timers == old(timers[..k] + timers[k + 1..])
    {
      DropTimerKeepsCover(callbacks, timers, k, callbacks);
      timers := timers[..k] + timers[k + 1..];
    }
  }

  /** Reconnecting on, with no retry limit reached. */
  const Reconnecting: OptionsInput := OptionsInput(None, Some(Bool(true)), Some(Number(0)), None)

  lemma ReconnectingOptions()
    ensures Normalize(Reconnecting) == Options(6000, true, 0, 60)
  {
    assert TruthyOrUndefined(Some(Bool(true)));
  }

  /** A client with reconnecting on whose first socket opened and then closed: one
      reconnect is scheduled and counted. */
  method LoseConnection() returns (client: Passage)
    ensures fresh(client) && client.Valid()
    ensures client.hasConnection && client.transport == [Opened]
    ensures client.timers == [ReconnectTimer(0)] && client.tries == 1
  {
    client := new Passage("ws://localhost", Reconnecting);
    ReconnectingOptions();
    assert client.options == Options(6000, true, 0, 60);
    client.OnOpen();
    assert client.tries == 0 && client.timers == [];
    client.OnClose();
    assert SchedulesReconnect(client.options, 0);
  }

  /** As written: a client with reconnecting on loses its socket and the scheduled
      reconnect fires, yet no new socket is opened for the client. */
  method LostConnectionAsWritten() returns (client: Passage)
    ensures client.transport == [Opened] && client.timers == [] && client.tries == 1
  {
    client := LoseConnection();
    client.FireReconnectAsWritten(0);
  }

  /** With connect bound to the client, the reconnect closes the lost socket and opens
      a new one. */
  method LostConnectionCorrected() returns (client: Passage)
    ensures client.transport == [Opened, Closed, Opened] && client.timers == [] && client.tries == 1
  {
    client := LoseConnection();
    client.FireReconnectTimer(0);
  }

  /** A fresh client with default options, once its socket has opened, sends its first
      request with a callback. */
  method SendFirstRequest(callback: Callback, timeout: Option<Json>) returns (client: Passage)
    ensures fresh(client) && client.Valid() && client.events == map[]
    ensures client.transport == [Opened, Sent(Request(Some(1), Some(String("test")), None))]
    ensures client.callbacks == map[1 := callback] && client.log == []
    ensures client.timers == [RequestTimer(1, NumOrDef(timeout, 6000))]
  {
    client := new Passage("ws://localhost", NoOptions);
    NormalizeDefaults(NoOptions);
    assert client.options.requestTimeout == 6000;
    client.OnOpen();
    assert Lookup(client.events, Some("rpc.open")) == [];
    client.Send(Some(String("test")), Omitted, Some(callback), timeout);
  }

  /** A request and its response: the first request with a callback is sent with id 1
      and no params key, and the response `{id: 1, result: r}` calls the callback once
      with `(undefined, r)` and clears the registry. */
  method RequestGetsResponse(callback: Callback, r: Json) returns (client: Passage)
    ensures client.transport == [Opened, Sent(Request(Some(1), Some(String("test")), None))]
    ensures client.callbacks == map[] && client.timers == [RequestTimer(1, 6000)]
    ensures client.log == [Resolved(1, callback, Success(Some(r)))]
  {
    client := SendFirstRequest(callback, None);
    ReceiveResultResponse(client.events, Core(client.callbacks, client.log), 1, r);
    assert Lookup(client.events, Some("rpc.message")) == [];
    assert map[1 := callback] - {1} == map[];
    client.OnMessage(Parsed(ResultResponse(1, r)));
  }

  /** A request nobody answers: its timer, of the given 0 ms, fails the callback once
      with the Timeout error (code 408), and a response arriving afterwards is ignored. */
  method RequestTimesOut(callback: Callback, r: Json) returns (client: Passage)
    ensures client.callbacks == map[] && client.timers == []
    ensures client.log == [Resolved(1, callback, TimedOut)]
  {
    client := SendFirstRequest(callback, Some(Number(0)));
    client.FireRequestTimer(0);
    assert map[1 := callback] - {1} == map[];
    assert client.callbacks == map[] && client.log == [Resolved(1, callback, TimedOut)];
    ReceiveResultResponse(client.events, Core(client.callbacks, client.log), 1, r);
    assert Lookup(client.events, Some("rpc.message")) == [];
    client.OnMessage(Parsed(ResultResponse(1, r)));
  }
}
