/**
 * The Python values the settings record holds: `None`, an `int` or a `str`,
 * with Python's truthiness and `str()` conversion.
 */
module PyValues {
  import opened Wrappers

  /** A Python value as a config field or JSON member holds it. */
  datatype PyVal = PyNone | PyInt(i: int) | PyStr(s: string)

  /** Python truthiness: `None`, `0` and `""` are false, everything else is true. */
  predicate Truthy(v: PyVal): (b: bool)
    ensures !b <==> v in {PyNone, PyInt(0), PyStr("")}
  {
    match v
    case PyNone => false
    case PyInt(i) => i != 0
    case PyStr(s) => s != ""
  }

  predicate IsDigit(c: char) {
    '0' <= c <= '9'
  }

  function DigitChar(d: int): (c: char)
    requires 0 <= d < 10
    ensures IsDigit(c) && (c as int) - ('0' as int) == d
  {
    "0123456789"[d]
  }

  /** The decimal digits of `n`, most significant first, without leading zeroes. */
  function NatToDecimal(n: nat): (r: string)
    ensures |r| >= 1
    ensures forall k :: 0 <= k < |r| ==> IsDigit(r[k])
    ensures |r| > 1 ==> r[0] != '0'
  {
    if n < 10 then [DigitChar(n)] else NatToDecimal(n / 10) + [DigitChar(n % 10)]
  }

  /** Python's `str(i)` for an `int`. */
  function IntToDecimal(i: int): (r: string)
    ensures |r| >= 1
    ensures r[0] == '-' <==> i < 0
    ensures ',' !in r && ' ' !in r
  {
    if i < 0 then "-" + NatToDecimal(-i) else NatToDecimal(i)
  }

  /** Python's `str(v)` on the values a config field can hold. */
  function Str(v: PyVal): (r: string)
    ensures v.PyStr? ==> r == v.s
    ensures v.PyInt? ==> ParseInt(r) == Some(v.i)
  {
    match v
    case PyNone => "None"
    case PyInt(i) => DecimalRoundTrip(i); IntToDecimal(i)
    case PyStr(s) => s
  }

  predicate AllDigits(s: string) {
    forall k :: 0 <= k < |s| ==> IsDigit(s[k])
  }

  /** The number a string of decimal digits denotes. */
  function DigitsValue(s: string): nat
    requires AllDigits(s)
  {
    if s == [] then 0
    else DigitsValue(s[..|s| - 1]) * 10 + ((s[|s| - 1] as int) - ('0' as int))
  }

  /** Python's `int(s)` on the texts `IntToDecimal` produces: an optionally negative run of decimal digits. */
  function ParseInt(s: string): Option<int> {
    if s != [] && s[0] == '-' then
      if s[1..] != [] && AllDigits(s[1..]) then Some(-(DigitsValue(s[1..]) as int)) else None
    else if s != [] && AllDigits(s) then Some(DigitsValue(s))
    else None
  }

  lemma {:induction false} DigitsValueOfDecimal(n: nat)
    ensures DigitsValue(NatToDecimal(n)) == n
  {
    if n >= 10 {
      var r := NatToDecimal(n);
      assert r[..|r| - 1] == NatToDecimal(n / 10);
      DigitsValueOfDecimal(n / 10);
    }
  }

  /** `int(str(i)) == i`: the decimal text of an int reads back as the same int. */
  lemma DecimalRoundTrip(i: int)
    ensures ParseInt(IntToDecimal(i)) == Some(i)
  {
    if i < 0 {
      var d := NatToDecimal(-i);
      var t := "-" + d;
      assert IntToDecimal(i) == t;
      assert t[0] == '-' && t[1..] == d && AllDigits(d);
      DigitsValueOfDecimal(-i);
      assert ParseInt(t) == Some(-(DigitsValue(d) as int));
    } else {
      var d := NatToDecimal(i);
      assert IntToDecimal(i) == d && AllDigits(d) && d[0] != '-';
      DigitsValueOfDecimal(i);
    }
  }

  /** Two ints have the same decimal text only if they are equal. */
  lemma DecimalInjective(i: int, j: int)
    requires IntToDecimal(i) == IntToDecimal(j)
    ensures i == j
  {
    DecimalRoundTrip(i);
    DecimalRoundTrip(j);
  }
}
