# passage-client in Dafny

A model of `Passage`, the browser JSON-RPC 2.0 client over a WebSocket in
`src/passage-client.js`, with proofs about it. The client:

- sends request envelopes `{id, method, params, jsonrpc: "2.0"}`;
- keeps the callbacks of pending requests in `_callbacks` under sequential ids
  starting at 1;
- fails a request with `Timeout` (code 408) when its timer fires first;
- classifies every inbound frame with `testRpcMessage` and dispatches each message
  to `rpc.message` listeners, to the listeners of its method and to the callback
  its id addresses;
- notifies `rpc.open`, `rpc.close` and `rpc.error` listeners;
- schedules reconnects on close while the retry counter allows.

The modules follow the source's parts:

- `Json` (json.dfy): parsed JSON values and the JavaScript coercions the client
  relies on: property reads, truthiness, and ToString. ToString is how a value
  becomes a property key of the plain objects `_callbacks` and `_events`, so an
  inbound id `7`, `"7"` or `[7]` addresses request 7.
- `Codec` (codec.dfy): `testRpcMessage`, `parseData` and the outbound envelope.
- `Trace` (trace.dfy): callbacks and listeners as opaque tokens, the arguments
  they receive, and the log of every call the client makes to them.
- `Events` (events.dfy): the listener table `_events` and `runEvent`'s calls.
- `Registry` (registry.dfy): the pending table `_callbacks`, and how
  `runCallback` and `runTimeout` resolve an entry. Its invariant says every
  pending and every resolved id lies below `_nextId`, and no id is resolved twice.
- `Reconnect` (reconnect.dfy): option normalisation and the `_tries` counter.
- `Dispatch` (dispatch.dfy): `onMessage` as a function of the table and the
  registry.
- `Client` (client.dfy): the class `Passage`. Its fields are those of the source.
  The socket is replaced by the list of what the client asks of it (open,
  close, send) and a flag standing for `this.connection !== undefined`. Socket
  events arrive as calls to `OnOpen`, `OnClose`, `OnError` and `OnMessage`.
  Each `setTimeout` is a pending `Timer` that a `Fire…` method runs, in any
  order the caller picks. The class invariant adds to the registry's that every
  request still pending has a request timer armed for its id, so it can still be
  resolved by its deadline if no response comes.

The model follows `src/passage-client.js` wherever a reader, or the tests, might
expect otherwise:

- `onClose` tests `_tries <= reconnectTries`. With `reconnectTries` 2, the
  third consecutive close still schedules a reconnect; only the fourth does not
  (`TwoTriesAllowThreeReconnects`).
- `onClose` schedules the reconnect before it fires `rpc.close`.
- `rpc.message` listeners receive each parsed message of a frame, not the raw
  text that test/passage.test.js:67-74 expects, and a frame that fails to parse
  fires nothing.
- A message that carries both `error` and `result` is accepted; a truthy error
  wins.
- `close()` sets no flag: a close that follows still schedules a reconnect when
  the options allow it.
- There is no `sendAll`, which test/messages.test.js:56-73 calls.

## Model

| member | source | states |
|---|---|---|
| Json.Decimal | src/passage-client.js:129 | the key `_callbacks[id]` is stored under is a non-empty digit string with no leading zero except for 0 |
| Json.DigitsValueOfDecimal | src/passage-client.js:129 | reading the stored key back as digits gives the id |
| Json.ParseDecimalOfDecimal | src/passage-client.js:41 | the key of request n, read as a canonical numeral, is n |
| Json.DecimalOfParseDecimal | src/passage-client.js:41 | a canonical numeral is exactly the key of the id it denotes |
| Json.DecimalKey | src/passage-client.js:41 | a property key addresses the entry of n if and only if it is n's numeral |
| Codec.TestRpcMessage | src/passage-client.js:25-32 | accepts (returning the message unchanged) exactly the envelopes tagged "2.0" with a method, or with an id and an error or a result |
| Codec.TestAll | src/passage-client.js:36 | mapping the classifier over a batch succeeds exactly when every element is accepted, and keeps the batch in order |
| Codec.ParseData | src/passage-client.js:34-38 | a frame yields messages exactly when it parses and all its elements are accepted; an array keeps its order, any other value becomes a batch of one |
| Codec.Encode | src/passage-client.js:122 | definition of the envelope send writes, with undefined keys left out; its properties are stated by Codec.EncodeIsRpcMessage |
| Codec.EncodeIsRpcMessage | src/passage-client.js:122 | an envelope send writes passes the client's own classifier exactly when it carries a method (an undefined or function method is dropped from the text and then rejected), and it carries exactly its id, method, params and the tag "2.0" |
| Codec.ResponseShapes | src/passage-client.js:25-32 | result and error responses (and both together) are accepted; an id alone, or a tag other than "2.0", is rejected |
| Events.Add | src/passage-client.js:137-140 | appends the listener to its name's list, duplicates kept, other names untouched, never leaving an empty list |
| Events.IndexOf | src/passage-client.js:144 | the first position of the listener, or -1 exactly when it is absent |
| Events.Remove | src/passage-client.js:142-148 | removes the first copy of the listener from its name's list and drops the name once the list is empty; an unknown name or listener is a no-op |
| Events.RemoveTakesOneCopy | src/passage-client.js:146 | removal takes away exactly one copy of the listener |
| Events.AddThenRemove | src/passage-client.js:137-148 | adding a listener not yet present and removing it gives the table back |
| Events.AddThenRemoveDuplicate | src/passage-client.js:144-146 | with a copy present, add-then-remove drops the earlier copy and keeps the new one last |
| Events.Lookup | src/passage-client.js:2 | definition of runEvent's guard: an undefined or unmapped name has no listeners, otherwise the name's list; its properties are stated by Events.Notify and Client.Passage.RunEvent |
| Events.Notify | src/passage-client.js:1-6 | runEvent calls each listener of the name once, in list order, with the payload |
| Registry.AddressedIff | src/passage-client.js:41 | an inbound id addresses request n if and only if its ToString is n's numeral |
| Registry.EchoedIdAddresses | src/passage-client.js:41 | the number n, the string "n" and the array [n] all address request n |
| Registry.Addressed | src/passage-client.js:41 | definition of the pending id a property key reaches; its properties are stated by Registry.AddressedIff and Registry.EchoedIdAddresses |
| Registry.ErrorMessage | src/passage-client.js:43 | definition of the message `new Error(error.message)` takes, ToString of the error's message or "" when it is undefined; its properties are stated by Registry.ErrorMessageKept |
| Registry.ErrorMessageKept | src/passage-client.js:43 | an error without a message gives the Error the message "", and a string message is kept as it is |
| Registry.ResponseReply | src/passage-client.js:42-49 | the callback gets an Error carrying the error's message, code and data exactly when the error is truthy, and `(undefined, result)` otherwise |
| Registry.Settle | src/passage-client.js:40-79 | definition of settling a pending entry, shared by runCallback (lines 40-52) and runTimeout (lines 71-79): call its callback once and delete it; its properties are stated by Registry.SettleEffect, Registry.SettleOnce and Registry.SettlePreservesInv |
| Registry.Resolve | src/passage-client.js:40-52 | definition of runCallback; its properties are stated by Registry.ResolveEffect, Registry.ResolvePreservesInv and Registry.TimeoutThenResponse |
| Registry.Expire | src/passage-client.js:71-79 | definition of runTimeout; its properties are stated by Registry.ResponseThenTimeout and Registry.SettlePreservesInv |
| Registry.SettleEffect | src/passage-client.js:71-79 | settling removes the id from the pending table whether or not it was there, and logs exactly one call, of that id's own callback, when it was pending and none otherwise |
| Registry.ResolveEffect | src/passage-client.js:40-52 | a response addressing a pending request calls its callback with the reply built from error and result and deletes the entry |
| Registry.SettlePreservesInv | src/passage-client.js:40-79 | settling an id with any reply, a response's (runCallback, lines 40-52) or the timeout's (runTimeout, lines 71-79), keeps the registry invariant |
| Registry.ResolvePreservesInv | src/passage-client.js:40-52 | a response keeps the registry invariant |
| Registry.RegisterPreservesInv | src/passage-client.js:118-129 | the id send takes is neither pending nor already resolved, and registering it keeps the invariant for the next id |
| Registry.AppendUnresolvedPreservesInv | src/passage-client.js:1-6 | listener calls and refusals keep the registry invariant |
| Registry.SettleOnce | src/passage-client.js:51 | a second resolution of the same id is a no-op |
| Registry.ResponseThenTimeout | src/passage-client.js:71-72 | a timer firing after the response does nothing |
| Registry.TimeoutThenResponse | src/passage-client.js:41 | a response arriving after the timeout does nothing |
| Reconnect.NumOrDef | src/passage-client.js:81 | definition of numOrDef; its properties are stated by Reconnect.NormalizeKeepsGiven, Reconnect.NormalizeDefaults and Reconnect.NormalizeRoundTrip |
| Reconnect.Normalize | src/passage-client.js:86-91 | definition of the constructor's options; its properties are stated by Reconnect.NormalizeKeepsGiven, Reconnect.NormalizeDefaults and Reconnect.NormalizeRoundTrip |
| Reconnect.SchedulesReconnect | src/passage-client.js:14 | definition of onClose's test; its properties are stated by Reconnect.ReconnectsScheduledCount and Reconnect.ReconnectBound |
| Reconnect.TriesAfterClose | src/passage-client.js:14-15 | definition of `_tries` after onClose; its properties are stated by Reconnect.ReconnectsScheduledCount |
| Reconnect.NormalizeKeepsGiven | src/passage-client.js:87-90 | each of requestTimeout, reconnectTimeout and reconnectTries, when given as a number, is kept whatever the other options are; `reconnect` is the truthiness of what is given, with undefined meaning false |
| Reconnect.NormalizeDefaults | src/passage-client.js:81-90 | each of requestTimeout, reconnectTimeout and reconnectTries, when not a number, becomes its own default (6000, 2000 and 60), whatever the other options are; no options at all give the defaults |
| Reconnect.NormalizeRoundTrip | src/passage-client.js:86-91 | options already normalised come back unchanged when passed to the constructor again |
| Reconnect.ReconnectsScheduledCount | src/passage-client.js:13-17 | consecutive closes schedule min(closes, reconnectTries + 1 - tries) reconnects when reconnecting is on, and `_tries` grows by exactly that many |
| Reconnect.ReconnectBound | src/passage-client.js:8-17 | after an open at most reconnectTries + 1 reconnects are scheduled, and exactly that many when enough closes follow |
| Reconnect.TwoTriesAllowThreeReconnects | src/passage-client.js:14 | with reconnectTries 2, three closes schedule three reconnects and a fourth schedules none |
| Dispatch.MethodName | src/passage-client.js:66 | definition of the key `message.method` becomes at line 2, its ToString, or undefined when there is no method; its properties are stated by Dispatch.HandleMessage |
| Dispatch.HandleMessage | src/passage-client.js:64-68 | definition of one pass of onMessage's loop; its properties are stated by Dispatch.HandleMessagePreservesInv, Dispatch.HandleResultResponse and Dispatch.MethodWithIdAlsoResolves |
| Dispatch.Deliver | src/passage-client.js:64-68 | definition of onMessage's loop; its properties are stated by Dispatch.DeliverPreservesInv, Dispatch.DeliverOnlyRemoves and Dispatch.DeliverEach |
| Dispatch.Receive | src/passage-client.js:54-69 | definition of onMessage; its properties are stated by Dispatch.ReceivePreservesInv, Dispatch.BatchIsInOrder, Dispatch.RejectedElementDropsFrame, Dispatch.DuplicateResponseResolvesOnce and Dispatch.UnknownMethodKeepsBatch |
| Dispatch.HandleMessageAsWritten | src/passage-client.js:2-3 | definition of one loop pass as written, throwing for an inherited method name; its properties are stated by Dispatch.InheritedNameLosesResponse |
| Dispatch.DeliverAsWritten | src/passage-client.js:64-68 | definition of the loop as written, ending at the first throw; its properties are stated by Dispatch.InheritedNameLosesResponse |
| Dispatch.ReceiveAsWritten | src/passage-client.js:54-69 | definition of onMessage as written; its properties are stated by Dispatch.InheritedNameLosesResponse |
| Dispatch.HandleMessagePreservesInv | src/passage-client.js:64-68 | handling one message keeps the registry invariant |
| Dispatch.DeliverPreservesInv | src/passage-client.js:64-68 | handling any sequence of messages keeps the registry invariant |
| Dispatch.ReceivePreservesInv | src/passage-client.js:54-69 | handling any frame keeps the registry invariant |
| Dispatch.DeliverOnlyRemoves | src/passage-client.js:64-68 | inbound messages only delete pending entries, never add or change one, and only append to the log |
| Dispatch.RejectedElementDropsFrame | src/passage-client.js:36 | a batch with any rejected element is dropped whole, accepted elements before it included |
| Dispatch.BatchIsInOrder | src/passage-client.js:64-68 | a batch is handled exactly as its messages arriving one frame each, in array order |
| Dispatch.DeliverEach | src/passage-client.js:64-68 | the loop over accepted messages equals handling them one frame at a time |
| Dispatch.ResultResponseFacts | src/passage-client.js:25-32 | a result response is accepted, names no method, addresses its id and yields `(undefined, result)` |
| Dispatch.HandleResultResponse | src/passage-client.js:64-68 | a result response fires `rpc.message` and then settles its id with the result |
| Dispatch.ReceiveResultResponse | src/passage-client.js:54-69 | a frame holding one result response fires `rpc.message` and then settles its id with `(undefined, result)` |
| Dispatch.DuplicateResponseResolvesOnce | src/passage-client.js:40-52 | a response repeated in one batch resolves the callback once; the repeat only fires `rpc.message` |
| Dispatch.MethodWithIdAlsoResolves | src/passage-client.js:64-68 | a message with both a method and an id notifies the method's listeners and also resolves the request |
| Dispatch.InheritedNameLosesResponse | src/passage-client.js:2-3 | as written, a "toString" notification ahead of a response throws and leaves the request pending; with own-key lookup the response resolves it |
| Dispatch.HandleToStringNotification | src/passage-client.js:65-67 | with own-key lookup and no "toString" listener, such a notification only fires `rpc.message` and leaves the registry as it was |
| Dispatch.UnknownMethodKeepsBatch | src/passage-client.js:64-68 | with own-key lookup, a batch of a "toString" notification nobody listens to and a response fires `rpc.message` for each in order, then resolves the request once with `(undefined, result)` and removes it from the registry |
| Client.Passage.constructor | src/passage-client.js:84-97 | normalised options, ids from 1, counter 0, empty tables, and one socket opened |
| Client.Passage.Close | src/passage-client.js:99-101 | closes the current socket if there is one, and changes nothing else |
| Client.Passage.Connect | src/passage-client.js:103-110 | closes the current socket if any, then opens a new one |
| Client.Passage.Send | src/passage-client.js:112-135 | the method may be any value; without a connection only the callback hears "No connection"; a callback takes the next id even when serialisation fails; a serialisation failure reaches the callback and sends nothing; otherwise exactly one envelope is sent and a callback is registered with its timer, so the invariant that every pending request has an armed timer is kept |
| Client.Passage.AddEventListener | src/passage-client.js:137-140 | the table becomes `Events.Add` of the old one |
| Client.Passage.RemoveEventListener | src/passage-client.js:142-148 | the table becomes `Events.Remove` of the old one |
| Client.Passage.RunEvent | src/passage-client.js:1-6 | appends one call per listener of the name, in order |
| Client.Passage.RunCallback | src/passage-client.js:40-52 | the registry and log become `Registry.Resolve` of the old ones |
| Client.Passage.RunTimeout | src/passage-client.js:71-79 | the registry and log become `Registry.Expire` of the old ones |
| Client.Passage.OnMessage | src/passage-client.js:54-69 | the registry and log become `Dispatch.Receive` of the old ones, and the invariant holds, every request still pending keeping its armed timer |
| Client.Passage.OnOpen | src/passage-client.js:8-11 | resets the counter and fires `rpc.open` |
| Client.Passage.OnClose | src/passage-client.js:13-19 | schedules a reconnect and counts it exactly when allowed, then fires `rpc.close` |
| Client.Passage.OnError | src/passage-client.js:21-23 | fires `rpc.error` with the transport's error event |
| Client.Passage.FireRequestTimer | src/passage-client.js:131 | a request's timer runs runTimeout for its id, and every request still pending keeps an armed timer |
| Client.Passage.FireReconnectTimer | src/passage-client.js:16 | with connect bound to the client, a reconnect closes the old socket and opens a new one |
| Client.Passage.FireReconnectAsWritten | src/passage-client.js:16 | as written, the reconnect timer changes nothing in the client |
| Client.DropTimerKeepsCover | src/passage-client.js:131 | a timer that fires leaves every other pending request with an armed timer, provided the one it was for is no longer pending |
| Client.ShrinkKeepsCover | src/passage-client.js:13-19 | removing pending requests or arming another timer leaves every pending request with an armed timer |
| Client.RegisterKeepsCover | src/passage-client.js:128-132 | registering a callback under an id together with a timer for that id leaves every pending request with an armed timer |
| Client.ReceiveKeepsCover | src/passage-client.js:54-69 | an inbound frame only resolves requests, so every request still pending keeps its armed timer |
| Client.AppendNonSentKeepsIds | src/passage-client.js:99-110 | opening and closing sockets keep the sent ids fresh |
| Client.AppendSentKeepsIds | src/passage-client.js:118-134 | a sent envelope's id is the one just taken, so sent ids strictly increase |
| Client.LoseConnection | src/passage-client.js:13-17 | after an open and a close, with reconnecting on, one reconnect is scheduled after reconnectTimeout and counted |
| Client.LostConnectionAsWritten | src/passage-client.js:13-17 | as written, a lost connection with reconnecting on is never reopened |
| Client.LostConnectionCorrected | src/passage-client.js:13-17 | with connect bound, the lost socket is closed and a new one opened |
| Client.SendFirstRequest | src/passage-client.js:112-135 | a new client whose socket has opened sends its first request with a callback with id 1, registered, and timed at the given timeout or requestTimeout |
| Client.RequestGetsResponse | src/passage-client.js:112-135 | the first request takes id 1 and its result response calls the callback once with `(undefined, result)` |
| Client.RequestTimesOut | src/passage-client.js:71-79 | an unanswered request fails once with Timeout (code 408), and a late response is ignored |

## Left out

- The WebSocket itself is left out: connecting, the browser's event loop, and what the socket does with `send` while it is still connecting. The model records the client's requests to the socket and takes socket events as method calls.
- Real time is left out. Timers are pending entries fired in any order the caller picks; their delays are recorded, not waited for.
- JSON.parse and JSON.stringify are left out. A frame arrives already parsed or as a parse failure, and an unserialisable `params` is given as such with its exception's message. A method value that makes JSON.stringify throw (a BigInt, a cyclic object) is not modelled: send's method is a parsed JSON value, and such a method would take the same throwing branch as an unserialisable `params`.
- Floating-point numbers, NaN, numbers at or above 1e21, and `_nextId` beyond 2^53 are left out, because numbers are modelled as integers.
- `console.log` of a rejected frame is left out, because it is output only.
- Listeners or callbacks that call back into the client (re-entrancy) or throw are left out, because they are opaque tokens.
- Client.Passage.RunCallback: an inbound id whose ToString is an inherited property name of `_callbacks` (such as "constructor") is treated as addressing nothing, where the source would call that inherited value. For "__proto__" the value read is Object.prototype, which is not callable, and for "__defineGetter__" and "__defineSetter__" the call at line 46 or 48 passes an Error or undefined where a function is required; each throws a TypeError, which escapes onMessage's loop and the rest of the frame is never handled. The listener side of this is under Findings.
- Client.Passage.AddEventListener: a name inherited from Object.prototype (such as "toString", "constructor" or "__proto__") is added like any other name, where the source reads the inherited value at line 138 and its `.push` at line 139 throws a TypeError.
- Client.Passage.RemoveEventListener: for a name inherited from Object.prototype the call is a no-op, where the source finds the inherited value at line 143 and its `.indexOf` at line 144 throws a TypeError.
- Objects with an own `toString` are left out; an object id or method name converts to "[object Object]".
- The `dist/` build, `index.js`, `rollup.config.js`, and the `sendAll` and factory forms used by the tests are not part of this model.
- A `params` or `id` explicitly set to undefined is not distinguished from a missing one; parsed JSON has no undefined, so only locally built values could differ.

## Findings

| source | as written | input that shows it | evidently intended | confidence | as-written member | corrected member |
|---|---|---|---|---|---|---|
| src/passage-client.js:16 | `setTimeout(this.connect, …)` passes `connect` without its object, so the timer calls it with its own `this` (the window in browsers): `this.close()` and `new WebSocket(this.uri)` act on that object, and the client's connection is never replaced | options `{reconnect: true}`, the socket closes, the reconnect timer fires | `connect` runs on the client, closing the old socket and opening a new one | high; not executed | Client.LostConnectionAsWritten | Client.LostConnectionCorrected |
| src/passage-client.js:2-3 | `this._events[method]` reads inherited properties of a plain object, so a notification named "toString" iterates a function and throws, and the rest of the frame's messages are never handled | batch `[{jsonrpc: "2.0", method: "toString"}, {jsonrpc: "2.0", id: 1, result: r}]` with request 1 pending | own keys only: an unknown method notifies nobody, and the response resolves request 1 | high; not executed | Dispatch.InheritedNameLosesResponse | Dispatch.UnknownMethodKeepsBatch |
