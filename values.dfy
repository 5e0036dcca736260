/**
 * Values that cross the operation-mapping layer: caller-supplied parameter
 * values (the closed set of kinds the catalogue declares), decoded JSON
 * bodies, and the `str()` image of a parameter value that `str.format`
 * splices into an error template.
 */
module Values {

  datatype Option<T> = None | Some(value: T)

  datatype Result<T, E> = Ok(value: T) | Err(error: E)

  /** The declared `type` of a parameter (int, str or bool); documentation only, never checked at call time. */
  datatype Kind = IntKind | StrKind | BoolKind

  /** A parameter value as a caller passes it, or as a default supplies it. */
  datatype Value = IntVal(i: int) | StrVal(s: string) | BoolVal(b: bool)

  /** A decoded JSON document (numbers restricted to integers). */
  datatype Json =
    | JNull
    | JBool(b: bool)
    | JNum(n: int)
    | JStr(s: string)
    | JArray(items: seq<Json>)
    | JObject(fields: map<string, Json>)

  predicate IsDigit(c: char) {
    '0' <= c <= '9'
  }

  predicate AllDigits(s: string) {
    forall i :: 0 <= i < |s| ==> IsDigit(s[i])
  }

  function Digit(d: nat): (c: char)
    requires d < 10
    ensures IsDigit(c) && (c as int) - ('0' as int) == d
  {
    (('0' as int) + d) as char
  }

  /** Decimal image of a natural number, as Python's `str(int)` writes it: no leading zero. */
  function NatToDecimal(n: nat): (s: string)
    ensures |s| >= 1 && AllDigits(s)
    ensures s[0] == '0' <==> n == 0
    decreases n
  {
    if n < 10 then [Digit(n)] else NatToDecimal(n / 10) + [Digit(n % 10)]
  }

  /** Reads a string of decimal digits back as a number: the reference for NatToDecimal. */
  function DecimalValue(s: string): nat
    requires AllDigits(s)
    decreases |s|
  {
    if s == [] then 0
    else DecimalValue(s[..|s| - 1]) * 10 + ((s[|s| - 1] as int) - ('0' as int))
  }

  lemma {:induction false} DecimalRoundTrip(n: nat)
    ensures DecimalValue(NatToDecimal(n)) == n
  {
    if n >= 10 {
      var s := NatToDecimal(n);
      assert s[..|s| - 1] == NatToDecimal(n / 10);
      DecimalRoundTrip(n / 10);
    }
  }

  function IntToDecimal(i: int): string {
    if i < 0 then "-" + NatToDecimal(-i) else NatToDecimal(i)
  }

  /** `str(v)`: what `"{name}".format(name=v)` inserts for the value. */
  function ToStr(v: Value): string {
    match v
    case IntVal(i) => IntToDecimal(i)
    case StrVal(s) => s
    case BoolVal(b) => if b then "True" else "False"
  }
}
