/**
  The slice of JavaScript's dynamic values that the validators and the
  field decorator inspect: component props, validator parameters and
  interpolation parameters. Numbers are integers or NaN; fractions and
  the infinities are not part of this model.
 */
module JsValues {
  import opened Options

  datatype JsValue =
    | Undefined
    | Null
    | Bool(b: bool)
    | Num(n: int)
    | NaN
    | Str(s: string)
      /** Any object, array or function (truthy, not a boolean); `tag` tells them apart. */
    | Obj(tag: string)

  /** What `parseFloat` can return. */
  type JsNumber = v: JsValue | v.Num? || v.NaN? witness NaN

  /**
    JavaScript truthiness, the test behind `if (value)` and `!value`. The
    falsy values are exactly undefined, null, false, 0, NaN and "".
   */
  predicate Truthy(v: JsValue)
    ensures !Truthy(v) <==> v in {Undefined, Null, Bool(false), Num(0), NaN, Str("")}
  {
    match v
    case Undefined => false
    case Null => false
    case Bool(b) => b
    case Num(n) => n != 0
    case NaN => false
    case Str(s) => s != ""
    case Obj(_) => true
  }

  /** Truthiness of a `string | undefined` result: only a non-empty string is truthy. */
  predicate TruthyString(o: Option<string>)
  {
    o.Some? && o.value != ""
  }

  function DigitChar(d: nat): (c: char)
    requires d < 10
    ensures c as int - '0' as int == d
  {
    "0123456789"[d]
  }

  /** The number a string of decimal digits denotes, most significant first. */
  function DigitsValue(s: string): int
  {
    if s == [] then 0 else DigitsValue(s[..|s| - 1]) * 10 + (s[|s| - 1] as int - '0' as int)
  }

  /** The number a decimal numeral with an optional leading minus sign denotes. */
  function NumeralValue(s: string): int
  {
    if s != [] && s[0] == '-' then -DigitsValue(s[1..]) else DigitsValue(s)
  }

  /** Decimal digits of a natural number, most significant first, no leading zeros. */
  function NatToString(n: nat): (r: string)
    ensures |r| > 0
    ensures forall i :: 0 <= i < |r| ==> '0' <= r[i] <= '9'
    ensures n > 0 ==> r[0] != '0'
    ensures DigitsValue(r) == n
    decreases n
  {
    if n < 10 then
      assert [DigitChar(n)][..0] == [];
      [DigitChar(n)]
    else
      var r := NatToString(n / 10) + [DigitChar(n % 10)];
      assert r[..|r| - 1] == NatToString(n / 10);
      r
  }

  /**
    `String(v)`: the text `String.prototype.replace` inserts for a parameter
    value. A number is written as its decimal numeral; every object is
    written `[object Object]`.
   */
  function ToStr(v: JsValue): (r: string)
    ensures Truthy(v) ==> r != ""
    ensures v.Str? ==> r == v.s
    ensures v.Num? ==> r != "" && NumeralValue(r) == v.n && (r[0] == '-' <==> v.n < 0)
  {
    match v
    case Undefined => "undefined"
    case Null => "null"
    case Bool(b) => if b then "true" else "false"
    case Num(n) =>
      if n < 0 then
        var digits := NatToString(-n);
        assert ("-" + digits)[1..] == digits;
        "-" + digits
      else NatToString(n)
    case NaN => "NaN"
    case Str(s) => s
    case Obj(_) => "[object Object]"
  }
}
