/** Parsed JSON values, and the few JavaScript coercions the client applies to them:
    property reads (`message.method`), truthiness (`if (error)`) and ToString, which
    is how a value becomes a property key of the plain objects `_callbacks` and
    `_events` and how `new Error(x)` turns `x` into a message. */
module Json {

  datatype Option<+T> = None | Some(value: T)

  /** A value as JSON.parse returns it. Numbers are modelled as integers. */
  datatype Json =
    | Null
    | Bool(b: bool)
    | Number(n: int)
    | String(s: string)
    | Array(items: seq<Json>)
    | Object(fields: map<string, Json>)

  /** `value.key` for the keys the client reads (jsonrpc, method, id, params, error,
      result, message, code, data): only an object carries them; any other value,
      and an object without the key, reads as undefined (None). */
  function Member(j: Json, key: string): Option<Json>
  {
    if j.Object? && key in j.fields then Some(j.fields[key]) else None
  }

  /** JavaScript truthiness of a parsed value. */
  predicate Truthy(j: Json)
  {
    match j
    case Null => false
    case Bool(b) => b
    case Number(n) => n != 0
    case String(s) => s != ""
    case _ => true
  }

  /** Truthiness of a value that may be undefined (`!!options.reconnect`). */
  predicate TruthyOrUndefined(v: Option<Json>)
  {
    v.Some? && Truthy(v.value)
  }

  predicate IsDigit(c: char)
  {
    '0' <= c <= '9'
  }

  predicate AllDigits(s: string)
  {
    forall i | 0 <= i < |s| :: IsDigit(s[i])
  }

  function DigitChar(d: nat): (c: char)
    requires d < 10
    ensures IsDigit(c) && c as int - '0' as int == d
  {
    ('0' as int + d) as char
  }

  /** The numeral JavaScript's String(n) writes for a non-negative integer (below 10^21). */
  function Decimal(n: nat): (s: string)
    ensures |s| >= 1 && AllDigits(s)
    ensures s[0] == '0' <==> n == 0
    ensures n < 10 <==> |s| == 1
  {
    if n < 10 then [DigitChar(n)] else Decimal(n / 10) + [DigitChar(n % 10)]
  }

  /** Value of a string of decimal digits. */
  function DigitsValue(s: string): nat
    requires AllDigits(s)
  {
    if s == [] then 0 else DigitsValue(s[..|s| - 1]) * 10 + (s[|s| - 1] as int - '0' as int)
  }

  /** A numeral exactly as Decimal writes it: digits, no superfluous leading zero. */
  predicate IsCanonical(s: string)
  {
    |s| >= 1 && AllDigits(s) && (s[0] == '0' ==> |s| == 1)
  }

  /** The non-negative integer a property key names, if it is a canonical numeral. */
  function ParseDecimal(s: string): Option<nat>
  {
    if IsCanonical(s) then Some(DigitsValue(s)) else None
  }

  lemma {:induction false} DigitsValueOfDecimal(n: nat)
    ensures DigitsValue(Decimal(n)) == n
  {
    if n >= 10 {
      var s := Decimal(n);
      assert s[..|s| - 1] == Decimal(n / 10);
      DigitsValueOfDecimal(n / 10);
    }
  }

  /** Decimal then ParseDecimal is the identity. */
  lemma ParseDecimalOfDecimal(n: nat)
    ensures ParseDecimal(Decimal(n)) == Some(n)
  {
    DigitsValueOfDecimal(n);
  }

  lemma {:induction false} LeadingDigitBound(s: string)
    requires |s| >= 1 && AllDigits(s)
    ensures DigitsValue(s) >= s[0] as int - '0' as int
  {
    if |s| > 1 {
      var p := s[..|s| - 1];
      assert p[0] == s[0];
      LeadingDigitBound(p);
    }
  }

  /** A canonical numeral is exactly the Decimal of the value it denotes. */
  lemma {:induction false} DecimalOfParseDecimal(s: string)
    requires IsCanonical(s)
    ensures Decimal(DigitsValue(s)) == s
  {
    if |s| > 1 {
      var p := s[..|s| - 1];
      assert p[0] == s[0] && s[0] != '0';
      assert IsCanonical(p);
      LeadingDigitBound(p);
      DecimalOfParseDecimal(p);
      var n := DigitsValue(s);
      assert n / 10 == DigitsValue(p) && n % 10 == s[|s| - 1] as int - '0' as int;
      assert s == p + [s[|s| - 1]];
    }
  }

  /** A property key addresses the entry stored under n exactly when it is n's numeral. */
  lemma DecimalKey(s: string, n: nat)
    ensures ParseDecimal(s) == Some(n) <==> Decimal(n) == s
  {
    if ParseDecimal(s) == Some(n) {
      DecimalOfParseDecimal(s);
    }
    if Decimal(n) == s {
      ParseDecimalOfDecimal(n);
    }
  }

  /** String(n) for an integer. */
  function IntString(n: int): string
  {
    if n < 0 then "-" + Decimal(-n) else Decimal(n)
  }

  /** Array.prototype.join(",") over the already converted elements. */
  function Join(parts: seq<string>): string
  {
    if parts == [] then "" else if |parts| == 1 then parts[0] else parts[0] + "," + Join(parts[1..])
  }

  /** JavaScript's ToString of a parsed value: the property key it becomes when it
      indexes a plain object, and the message `new Error(value)` records. An array
      joins its elements with commas, writing null elements as empty strings. */
  function JsString(j: Json): string
  {
    match j
    case Null => "null"
    case Bool(b) => if b then "true" else "false"
    case Number(n) => IntString(n)
    case String(s) => s
    case Array(items) =>
      Join(seq(|items|, i requires 0 <= i < |items| => if items[i].Null? then "" else JsString(items[i])))
    case Object(_) => "[object Object]"
  }
}
