/** JavaScript values as they arrive in a parsed JSON request body, with the
    two things the server does to them: test them for truthiness (`!x`) and
    interpolate them into a template string (`${x}`). */
module JsValues {

  /** A field of the request body. Numbers are integers here; `NaN` and
      fractional numbers are not modelled. `Obj` stands for any object. */
  datatype JsValue =
    | Undefined
    | Null
    | Bool(b: bool)
    | Number(n: int)
    | Str(s: string)
    | Obj

  /** JavaScript truthiness: `undefined`, `null`, `false`, `0` and `""` are falsy. */
  predicate Truthy(v: JsValue)
  {
    match v
    case Undefined => false
    case Null => false
    case Bool(b) => b
    case Number(n) => n != 0
    case Str(s) => s != ""
    case Obj => true
  }

  function DigitChar(d: nat): (c: char)
    requires d < 10
    ensures '0' <= c <= '9'
  {
    ('0' as int + d) as char
  }

  /** Decimal digits of a natural number, most significant first. */
  function NatText(n: nat): (r: string)
    ensures |r| >= 1
    ensures forall i :: 0 <= i < |r| ==> '0' <= r[i] <= '9'
    ensures n < 10 <==> |r| == 1
    ensures r[0] == '0' ==> n == 0
  {
    if n < 10 then [DigitChar(n)] else NatText(n / 10) + [DigitChar(n % 10)]
  }

  /** The number a string of decimal digits denotes. */
  function DigitsValue(s: string): nat
    requires forall i :: 0 <= i < |s| ==> '0' <= s[i] <= '9'
  {
    if s == [] then 0
    else 10 * DigitsValue(s[..|s| - 1]) + (s[|s| - 1] as int - '0' as int)
  }

  /** Reading the digits back gives the number: the text is exact. */
  lemma {:induction false} NatTextValue(n: nat)
    ensures DigitsValue(NatText(n)) == n
  {
    var r := NatText(n);
    if n < 10 {
      assert r == [DigitChar(n)];
    } else {
      var q, d := n / 10, n % 10;
      NatTextValue(q);
      assert r == NatText(q) + [DigitChar(d)];
      assert r[..|r| - 1] == NatText(q);
      assert DigitChar(d) as int - '0' as int == d;
      assert n == 10 * q + d;
    }
  }

  /** What `${v}` produces for a value of the body. */
  function Render(v: JsValue): string
  {
    match v
    case Undefined => "undefined"
    case Null => "null"
    case Bool(b) => if b then "true" else "false"
    case Number(n) => if n < 0 then "-" + NatText(-n) else NatText(n)
    case Str(s) => s
    case Obj => "[object Object]"
  }
}
