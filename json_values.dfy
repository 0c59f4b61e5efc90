/**
 * Decoded JSON values as the lead service sees them after `response.json()`,
 * together with the two Python operations the aggregation applies to them:
 * `str(value)` (used for classification keys) and truthiness (used to decide
 * whether a lead has a creation timestamp).
 */
module JsonValues {

  /** A decoded JSON value. Floats, arrays and objects are not inspected by the
      service; they are kept as `Other`, carrying the text Python's `str()` gives
      for them and whether Python considers them true. */
  datatype JsonValue =
    | Null
    | Bool(b: bool)
    | Int(i: int)
    | Str(s: string)
    | Other(text: string, truthy: bool)

  /** The character for a single decimal digit. */
  function DigitChar(d: nat): (c: char)
    requires d < 10
    ensures '0' <= c <= '9' && (c as int) - ('0' as int) == d
  {
    (('0' as int) + d) as char
  }

  predicate IsDigit(c: char) {
    '0' <= c <= '9'
  }

  function DigitValue(c: char): (d: nat)
    requires IsDigit(c)
    ensures d < 10 && DigitChar(d) == c
  {
    (c as int) - ('0' as int)
  }

  /** The value of a string of decimal digits, most significant first. */
  function DigitsValue(s: string): nat
    requires forall k :: 0 <= k < |s| ==> IsDigit(s[k])
  {
    if s == [] then 0 else 10 * DigitsValue(s[..|s| - 1]) + DigitValue(s[|s| - 1])
  }

  /** Python's `str(n)` for a non-negative integer: shortest decimal form. */
  function NatToDecimal(n: nat): (r: string)
    ensures |r| >= 1
    ensures forall k :: 0 <= k < |r| ==> IsDigit(r[k])
    ensures |r| > 1 ==> r[0] != '0'
  {
    if n < 10 then [DigitChar(n)] else NatToDecimal(n / 10) + [DigitChar(n % 10)]
  }

  /** Python's `str(i)` for any integer. */
  function IntToDecimal(i: int): string {
    if i < 0 then "-" + NatToDecimal(-i) else NatToDecimal(i)
  }

  lemma {:induction false} NatToDecimalValue(n: nat)
    ensures DigitsValue(NatToDecimal(n)) == n
  {
    if n >= 10 {
      NatToDecimalValue(n / 10);
      var r := NatToDecimal(n);
      assert r[..|r| - 1] == NatToDecimal(n / 10);
    }
  }

  /** Two integers that print alike are the same integer, so distinct integer
      codes land in distinct classification buckets. */
  lemma IntToDecimalInjective(i: int, j: int)
    requires IntToDecimal(i) == IntToDecimal(j)
    ensures i == j
  {
    SignOfDecimal(i);
    SignOfDecimal(j);
    var s := IntToDecimal(i);
    if i < 0 {
      assert j < 0;
      var a, b := NatToDecimal(-i), NatToDecimal(-j);
      assert a == s[1..] == b;
      NatToDecimalValue(-i);
      NatToDecimalValue(-j);
    } else {
      assert j >= 0;
      var a, b := NatToDecimal(i), NatToDecimal(j);
      assert a == s == b;
      NatToDecimalValue(i);
      NatToDecimalValue(j);
    }
  }

  /** The decimal form starts with '-' exactly for negative integers. */
  lemma SignOfDecimal(i: int)
    ensures |IntToDecimal(i)| >= 1
    ensures IntToDecimal(i)[0] == '-' <==> i < 0
    ensures i < 0 ==> IntToDecimal(i)[1..] == NatToDecimal(-i)
    ensures i >= 0 ==> IntToDecimal(i) == NatToDecimal(i)
  {
    if i >= 0 {
      var r := NatToDecimal(i);
      assert IsDigit(r[0]);
    }
  }

  /** Python's `str(value)`: `None`, `True`/`False`, the decimal form of an
      integer, a string itself, or the given text of any other value. */
  function PyStr(v: JsonValue): string {
    match v
    case Null => "None"
    case Bool(b) => if b then "True" else "False"
    case Int(i) => IntToDecimal(i)
    case Str(s) => s
    case Other(text, _) => text
  }

  /** Python truthiness: `None`, `False`, `0`, `""` are false. */
  predicate Truthy(v: JsonValue) {
    match v
    case Null => false
    case Bool(b) => b
    case Int(i) => i != 0
    case Str(s) => s != ""
    case Other(_, t) => t
  }
}
