/** The request registry: `_callbacks`, mapping each pending id to its callback, and
    how runCallback and runTimeout resolve an entry. Kept together with the log of
    invocations, since resolving an entry is calling its callback. */
module Registry {
  import opened Json
  import opened Trace

  /** The pending table and the invocation log. */
  datatype Core = Core(pending: map<nat, Callback>, log: seq<Invocation>)

  /** The pending id an inbound `id` addresses. `_callbacks[id]` reads the property key
      ToString(id), and request n was stored under the key String(n); so 7, "7" and
      [7] all address request 7, while "07", -7 and an absent id address none. */
  function Addressed(id: Option<Json>): Option<nat>
  {
    if id.Some? then ParseDecimal(JsString(id.value)) else None
  }

  lemma AddressedIff(id: Json, n: nat)
    ensures Addressed(Some(id)) == Some(n) <==> JsString(id) == Decimal(n)
  {
    DecimalKey(JsString(id), n);
  }

  /** The ids a server echoes back, as a number or as its numeral, address the request. */
  lemma EchoedIdAddresses(n: nat)
    ensures Addressed(Some(Number(n))) == Some(n)
    ensures Addressed(Some(String(Decimal(n)))) == Some(n)
    ensures Addressed(Some(Array([Number(n)]))) == Some(n)
  {
    ParseDecimalOfDecimal(n);
    var items := [Number(n)];
    assert seq(|items|, i requires 0 <= i < |items| => if items[i].Null? then "" else JsString(items[i])) == [Decimal(n)];
  }

  /** `error.message` as `new Error(error.message)` records it ("" when undefined). */
  function ErrorMessage(e: Json): string
  {
    match Member(e, "message")
    case None => ""
    case Some(m) => JsString(m)
  }

  /** An error without a message gives the Error an empty message, and a string
      message is kept as it is; other values are converted with ToString. */
  lemma ErrorMessageKept(e: Json, s: string)
    ensures Member(e, "message").None? ==> ErrorMessage(e) == ""
    ensures Member(e, "message") == Some(String(s)) ==> ErrorMessage(e) == s
    ensures Member(e, "message") == Some(Number(408)) ==> ErrorMessage(e) == "408"
  {
    if Member(e, "message") == Some(Number(408)) {
      assert Decimal(408) == Decimal(40) + [DigitChar(8)];
      assert Decimal(40) == Decimal(4) + [DigitChar(0)];
    }
  }

  /** The arguments runCallback passes: a truthy error becomes an Error carrying the
      error's message, code and data; otherwise `(undefined, result)`. */
  function ResponseReply(error: Option<Json>, result: Option<Json>): (r: Reply)
    ensures r.Failure? <==> TruthyOrUndefined(error)
    ensures r.Success? ==> r.result == result
    ensures r.Failure? ==>
      && r.error.message == ErrorMessage(error.value)
      && r.error.code == Member(error.value, "code") && r.error.data == Member(error.value, "data")
  {
    if TruthyOrUndefined(error) then
      Failure(ErrorValue(ErrorMessage(error.value), Member(error.value, "code"), Member(error.value, "data")))
    else Success(result)
  }

  /** Calls the callback pending under n, if any, with the reply, then deletes the entry. */
  function Settle(c: Core, n: nat, reply: Reply): Core
  {
    if n in c.pending then Core(c.pending - {n}, c.log + [Resolved(n, c.pending[n], reply)]) else c
  }

  /** runCallback(id, error, result). */
  function Resolve(c: Core, id: Option<Json>, reply: Reply): Core
  {
    var key := Addressed(id);
    if key.Some? then Settle(c, key.value, reply) else c
  }

  /** runTimeout(id). */
  function Expire(c: Core, id: nat): Core
  {
    Settle(c, id, TimedOut)
  }

  /** Ids start at 1; every pending id and every resolved id lies in 1 .. nextId - 1; a resolved id is
      no longer pending; and no id is resolved twice. */
  ghost predicate RegistryInv(nextId: nat, c: Core)
  {
    && nextId >= 1
    && (forall n | n in c.pending :: 1 <= n < nextId)
    && (forall i | 0 <= i < |c.log| && c.log[i].Resolved? ::
          1 <= c.log[i].id < nextId && c.log[i].id !in c.pending)
    && (forall i, j | 0 <= i < j < |c.log| && c.log[i].Resolved? && c.log[j].Resolved? ::
          c.log[i].id != c.log[j].id)
  }

  /** Settling removes n from the pending table whether or not it was there, and
      appends to the log exactly one call, of n's own callback, when n was pending,
      and nothing otherwise. */
  lemma SettleEffect(c: Core, n: nat, reply: Reply)
    ensures Settle(c, n, reply).pending == c.pending - {n}
    ensures c.log <= Settle(c, n, reply).log
    ensures |Settle(c, n, reply).log| == |c.log| + (if n in c.pending then 1 else 0)
    ensures n in c.pending ==> Settle(c, n, reply).log[|c.log|] == Resolved(n, c.pending[n], reply)
  {
    if n !in c.pending {
      assert c.pending - {n} == c.pending;
    }
  }

  /** A response addressing a pending id resolves it with the reply built from the
      response's error and result. */
  lemma ResolveEffect(c: Core, id: Json, n: nat, error: Option<Json>, result: Option<Json>)
    requires JsString(id) == Decimal(n)
    requires n in c.pending
    ensures Resolve(c, Some(id), ResponseReply(error, result))
      == Core(c.pending - {n}, c.log + [Resolved(n, c.pending[n], ResponseReply(error, result))])
  {
    AddressedIff(id, n);
  }

  lemma SettlePreservesInv(nextId: nat, c: Core, n: nat, reply: Reply)
    requires RegistryInv(nextId, c)
    ensures RegistryInv(nextId, Settle(c, n, reply))
  {
    if n in c.pending {
      var d := Settle(c, n, reply);
      assert d.log[|c.log|].id == n;
      forall i, j | 0 <= i < j < |d.log| && d.log[i].Resolved? && d.log[j].Resolved?
        ensures d.log[i].id != d.log[j].id
      {
        if j == |c.log| {
          assert d.log[i] == c.log[i];
        }
      }
    }
  }

  lemma ResolvePreservesInv(nextId: nat, c: Core, id: Option<Json>, reply: Reply)
    requires RegistryInv(nextId, c)
    ensures RegistryInv(nextId, Resolve(c, id, reply))
  {
    var key := Addressed(id);
    if key.Some? {
      SettlePreservesInv(nextId, c, key.value, reply);
    }
  }

  /** send registers its callback under nextId, which is neither pending nor resolved,
      and the invariant holds for nextId + 1. */
  lemma RegisterPreservesInv(nextId: nat, c: Core, callback: Callback)
    requires RegistryInv(nextId, c)
    ensures nextId !in c.pending
    ensures forall i | 0 <= i < |c.log| && c.log[i].Resolved? :: c.log[i].id != nextId
    ensures RegistryInv(nextId + 1, Core(c.pending[nextId := callback], c.log))
  {
    var pending := c.pending[nextId := callback];
    forall i | 0 <= i < |c.log| && c.log[i].Resolved?
      ensures c.log[i].id !in pending
    {
      assert c.log[i].id < nextId;
    }
  }

  /** Calls that resolve nothing (listener calls, refusals) keep the invariant. */
  lemma AppendUnresolvedPreservesInv(nextId: nat, c: Core, calls: seq<Invocation>)
    requires RegistryInv(nextId, c)
    requires forall i | 0 <= i < |calls| :: !calls[i].Resolved?
    ensures RegistryInv(nextId, Core(c.pending, c.log + calls))
  {
    var log := c.log + calls;
    forall i | |c.log| <= i < |log|
      ensures !log[i].Resolved?
    {
      assert log[i] == calls[i - |c.log|];
    }
  }

  /** Resolution is idempotent: a second response or timeout for the same id is a no-op. */
  lemma SettleOnce(c: Core, n: nat, first: Reply, second: Reply)
    ensures Settle(Settle(c, n, first), n, second) == Settle(c, n, first)
  {
  }

  /** A response followed by the request's timeout resolves it once, with the response. */
  lemma ResponseThenTimeout(c: Core, id: Json, n: nat, reply: Reply)
    requires JsString(id) == Decimal(n)
    ensures Expire(Resolve(c, Some(id), reply), n) == Resolve(c, Some(id), reply)
  {
    AddressedIff(id, n);
  }

  /** A timeout followed by a late response resolves it once, with the timeout. */
  lemma TimeoutThenResponse(c: Core, id: Json, n: nat, reply: Reply)
    requires JsString(id) == Decimal(n)
    ensures Resolve(Expire(c, n), Some(id), reply) == Expire(c, n)
  {
    AddressedIff(id, n);
  }
}
