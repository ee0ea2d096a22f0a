/**
 * The part of JavaScript's value semantics the REST helpers depend on: which
 * arguments are falsy, how the `!id && id !== 0` guard treats them, how a
 * property is read from a payload, and what a value becomes inside a template
 * literal such as `/api/plants/${plantId}`. Numbers are integers.
 */
module JsValues {

  datatype JsValue =
    | Undefined
    | Null
    | Bool(b: bool)
    | Num(n: int)
    | NaN
    | Str(s: string)
    | Obj(fields: map<string, JsValue>)

  /** JavaScript truthiness: `!v` is `!Truthy(v)`. */
  predicate Truthy(v: JsValue)
  {
    match v
    case Undefined => false
    case Null => false
    case NaN => false
    case Bool(b) => b
    case Num(n) => n != 0
    case Str(s) => s != ""
    case Obj(_) => true
  }

  /**
   * The guard `if (!id && id !== 0) throw ...` lets `id` through exactly when
   * this holds.
   */
  function IdGiven(id: JsValue): (ok: bool)
    ensures id.Num? ==> ok
    ensures id.Str? ==> (ok <==> id.s != "")
    ensures id.Bool? ==> (ok <==> id.b)
    ensures id.Undefined? || id.Null? || id.NaN? ==> !ok
    ensures id.Obj? ==> ok
    ensures ok <==> Truthy(id) || id == Num(0)
  {
    !(!Truthy(id) && id != Num(0))
  }

  /** `v.key`: absent keys and non-object receivers read as `undefined`. */
  function Field(v: JsValue, key: string): (r: JsValue)
    ensures r != Undefined ==> v.Obj? && key in v.fields && r == v.fields[key]
  {
    if v.Obj? && key in v.fields then v.fields[key] else Undefined
  }

  /** Decimal digits of a natural number, most significant first. */
  function NatToDecimal(n: nat): (s: string)
    ensures |s| > 0
    ensures forall i :: 0 <= i < |s| ==> '0' <= s[i] <= '9'
    ensures |s| > 1 ==> s[0] != '0'
  {
    if n < 10 then [(48 + n) as char] else NatToDecimal(n / 10) + [(48 + n % 10) as char]
  }

  /** The number a string of decimal digits denotes. */
  function DecimalValue(s: string): int
  {
    if s == [] then 0 else DecimalValue(s[..|s| - 1]) * 10 + (s[|s| - 1] as int - 48)
  }

  lemma {:induction false} NatDecimalRoundTrip(n: nat)
    ensures DecimalValue(NatToDecimal(n)) == n
  {
    if n >= 10 {
      var s := NatToDecimal(n);
      assert s[..|s| - 1] == NatToDecimal(n / 10);
      NatDecimalRoundTrip(n / 10);
    }
  }

  /** `${n}` for an integer `n`. */
  function IntToDecimal(n: int): string
  {
    if n < 0 then "-" + NatToDecimal(-n) else NatToDecimal(n)
  }

  /** Reads back what `IntToDecimal` writes. */
  function ParseInt(s: string): int
  {
    if |s| > 0 && s[0] == '-' then -DecimalValue(s[1..]) else DecimalValue(s)
  }

  lemma IntDecimalRoundTrip(n: int)
    ensures ParseInt(IntToDecimal(n)) == n
  {
    if n < 0 {
      var d := NatToDecimal(-n);
      assert IntToDecimal(n) == "-" + d;
      assert ("-" + d)[1..] == d;
      NatDecimalRoundTrip(-n);
    } else {
      var d := NatToDecimal(n);
      assert d[0] != '-';
      NatDecimalRoundTrip(n);
    }
  }

  /**
   * What `v` becomes when interpolated into a template literal. A number's
   * text starts with a digit or `-` and reads back as that number.
   */
  function Stringify(v: JsValue): (s: string)
    ensures v.Num? ==> |s| > 0 && (s[0] == '-' || '0' <= s[0] <= '9') && ParseInt(s) == v.n
    ensures v.Str? ==> s == v.s
  {
    match v
    case Undefined => "undefined"
    case Null => "null"
    case Bool(b) => if b then "true" else "false"
    case Num(n) => IntDecimalRoundTrip(n); IntToDecimal(n)
    case NaN => "NaN"
    case Str(s) => s
    case Obj(_) => "[object Object]"
  }

  /** Two different numeric ids never interpolate to the same text. */
  lemma NumericIdsStayDistinct(a: int, b: int)
    requires a != b
    ensures Stringify(Num(a)) != Stringify(Num(b))
  {
    IntDecimalRoundTrip(a);
    IntDecimalRoundTrip(b);
  }
}
