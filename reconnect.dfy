/** Options normalisation (numOrDef and the constructor) and the reconnect counter
    `_tries` that onOpen resets and onClose advances. */
module Reconnect {
  import opened Json

  /** `this.options` after the constructor. Times are milliseconds. */
  datatype Options = Options(requestTimeout: int, reconnect: bool, reconnectTimeout: int, reconnectTries: int)

  /** The options object a caller passes; a field is None where it is undefined. */
  datatype OptionsInput = OptionsInput(
    requestTimeout: Option<Json>, reconnect: Option<Json>, reconnectTimeout: Option<Json>, reconnectTries: Option<Json>)

  const NoOptions: OptionsInput := OptionsInput(None, None, None, None)

  const Defaults: Options := Options(6000, false, 2000, 60)

  predicate IsNumber(v: Option<Json>)
  {
    v.Some? && v.value.Number?
  }

  /** numOrDef: the value when `typeof` says number, the default otherwise. */
  function NumOrDef(v: Option<Json>, def: int): int
  {
    if IsNumber(v) then v.value.n else def
  }

  /** The constructor's options: numeric fields through numOrDef, `reconnect` as `!!value`. */
  function Normalize(input: OptionsInput): Options
  {
    Options(
      NumOrDef(input.requestTimeout, 6000),
      TruthyOrUndefined(input.reconnect),
      NumOrDef(input.reconnectTimeout, 2000),
      NumOrDef(input.reconnectTries, 60))
  }

  /** Options written back as an options object. */
  function AsInput(o: Options): OptionsInput
  {
    OptionsInput(Some(Number(o.requestTimeout)), Some(Bool(o.reconnect)),
                 Some(Number(o.reconnectTimeout)), Some(Number(o.reconnectTries)))
  }

  /** Each numeric option, on its own, keeps the value given exactly when that value is
      a number; `reconnect` is the truthiness of whatever is given. */
  lemma NormalizeKeepsGiven(input: OptionsInput)
    ensures IsNumber(input.requestTimeout) ==> Normalize(input).requestTimeout == input.requestTimeout.value.n
    ensures IsNumber(input.reconnectTimeout) ==> Normalize(input).reconnectTimeout == input.reconnectTimeout.value.n
    ensures IsNumber(input.reconnectTries) ==> Normalize(input).reconnectTries == input.reconnectTries.value.n
    ensures Normalize(input).reconnect == TruthyOrUndefined(input.reconnect)
  {
  }

  /** Each numeric option that is not given as a number (undefined, a string, null, a
      boolean, ...) takes its own default, 6000, 2000 or 60, whatever the other
      options are; no options at all give the defaults with reconnecting off. */
  lemma NormalizeDefaults(input: OptionsInput)
    ensures !IsNumber(input.requestTimeout) ==> Normalize(input).requestTimeout == 6000
    ensures !IsNumber(input.reconnectTimeout) ==> Normalize(input).reconnectTimeout == 2000
    ensures !IsNumber(input.reconnectTries) ==> Normalize(input).reconnectTries == 60
    ensures Normalize(NoOptions) == Defaults
  {
  }

  /** Options written back as numbers and a boolean normalise to themselves. */
  lemma NormalizeRoundTrip(o: Options)
    ensures Normalize(AsInput(o)) == o
  {
  }

  /** onClose schedules a reconnect exactly when reconnecting is on and the counter
      has not passed reconnectTries. */
  predicate SchedulesReconnect(o: Options, tries: nat)
  {
    o.reconnect && tries <= o.reconnectTries
  }

  /** `_tries` after onClose. */
  function TriesAfterClose(o: Options, tries: nat): nat
  {
    if SchedulesReconnect(o, tries) then tries + 1 else tries
  }

  /** Reconnects scheduled by `closes` consecutive closures with no open in between,
      starting from counter value `tries`. */
  function ReconnectsScheduled(o: Options, tries: nat, closes: nat): nat
    decreases closes
  {
    if closes == 0 then 0
    else (if SchedulesReconnect(o, tries) then 1 else 0) + ReconnectsScheduled(o, TriesAfterClose(o, tries), closes - 1)
  }

  /** `_tries` after `closes` consecutive closures. */
  function TriesAfterCloses(o: Options, tries: nat, closes: nat): nat
    decreases closes
  {
    if closes == 0 then tries else TriesAfterCloses(o, TriesAfterClose(o, tries), closes - 1)
  }

  function Min(a: int, b: int): int { if a <= b then a else b }

  function Max(a: int, b: int): int { if a >= b then a else b }

  /** Closed form of the retry budget: with reconnecting on, each closure schedules one
      reconnect until the counter exceeds reconnectTries; the counter grows by exactly
      the number scheduled. */
  lemma {:induction false} ReconnectsScheduledCount(o: Options, tries: nat, closes: nat)
    ensures ReconnectsScheduled(o, tries, closes)
      == if o.reconnect then Min(closes, Max(0, o.reconnectTries + 1 - tries)) else 0
    ensures TriesAfterCloses(o, tries, closes) == tries + ReconnectsScheduled(o, tries, closes)
    decreases closes
  {
    if closes > 0 {
      ReconnectsScheduledCount(o, TriesAfterClose(o, tries), closes - 1);
    }
  }

  /** After an open (counter 0) at most reconnectTries + 1 reconnects are scheduled,
      however many closures follow. */
  lemma ReconnectBound(o: Options, closes: nat)
    ensures ReconnectsScheduled(o, 0, closes) <= Max(0, o.reconnectTries + 1)
    ensures o.reconnect && closes >= o.reconnectTries + 1 ==> ReconnectsScheduled(o, 0, closes) == Max(0, o.reconnectTries + 1)
  {
    ReconnectsScheduledCount(o, 0, closes);
  }

  /** With reconnectTries 2 the third consecutive closure still schedules a reconnect
      (the test is `_tries <= reconnectTries`); only the fourth schedules none. */
  lemma TwoTriesAllowThreeReconnects(o: Options)
    requires o.reconnect && o.reconnectTries == 2
    ensures ReconnectsScheduled(o, 0, 3) == 3
    ensures ReconnectsScheduled(o, 0, 4) == 3
  {
    ReconnectsScheduledCount(o, 0, 3);
    ReconnectsScheduledCount(o, 0, 4);
  }
}
