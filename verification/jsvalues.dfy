/** The JavaScript values the server reads out of JSON documents, with the
    two JavaScript conversions its code relies on: truthiness (`if (x)`,
    `!x`) and the conversion of a value to an object property key
    (`obj[x] = ...`). */
module JsValues {

  /** A JSON/JavaScript scalar. Numbers are modelled as integers. */
  datatype JsValue =
    | Undefined
    | Null
    | Bool(b: bool)
    | Num(n: int)
    | Str(s: string)

  /** A plain JavaScript object read from JSON: property name to value.
      A property that is not present reads as `undefined`. */
  type JsObject = map<string, JsValue>

  function Get(o: JsObject, key: string): JsValue {
    if key in o then o[key] else Undefined
  }

  /** JavaScript truthiness: `undefined`, `null`, `false`, `0` and `""` are
      falsy, every other value is truthy. */
  predicate Truthy(v: JsValue)
    ensures Truthy(v) ==> !Nullish(v) && ToKey(v) != ""
  {
    match v
    case Undefined => false
    case Null => false
    case Bool(b) => b
    case Num(n) => n != 0
    case Str(s) => s != ""
  }

  /** `v === undefined || v === null` */
  predicate Nullish(v: JsValue) {
    v == Undefined || v == Null
  }

  function Digit(d: nat): (c: char)
    requires d < 10
    ensures '0' <= c <= '9' && c as int - '0' as int == d
  {
    "0123456789"[d]
  }

  /** The number a string of decimal digits denotes, read left to right. */
  function DecimalValue(s: string): nat
    requires forall k :: 0 <= k < |s| ==> '0' <= s[k] <= '9'
    decreases |s|
  {
    if s == [] then 0 else DecimalValue(s[..|s| - 1]) * 10 + (s[|s| - 1] as int - '0' as int)
  }

  /** Decimal notation of a natural number, as JavaScript's `String(n)`
      writes an integer. */
  function NatToDecimal(n: nat): (s: string)
    ensures 1 <= |s|
    ensures forall k :: 0 <= k < |s| ==> '0' <= s[k] <= '9'
    ensures DecimalValue(s) == n
    ensures |s| > 1 ==> s[0] != '0'
    decreases n
  {
    if n < 10 then
      assert [Digit(n)][..0] == [];
      [Digit(n)]
    else
      var prefix := NatToDecimal(n / 10);
      assert (prefix + [Digit(n % 10)])[..|prefix|] == prefix;
      prefix + [Digit(n % 10)]
  }

  /** The property key JavaScript uses when a value indexes an object. Only
      the empty string gives the empty key. */
  function ToKey(v: JsValue): (key: string)
    ensures key == "" <==> v == Str("")
  {
    match v
    case Undefined => "undefined"
    case Null => "null"
    case Bool(b) => if b then "true" else "false"
    case Num(n) => if n < 0 then "-" + NatToDecimal(-n) else NatToDecimal(n)
    case Str(s) => s
  }
}
