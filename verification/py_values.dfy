/** The Python values the core receives, and Python's `str()` on them. */
module PyValues {

  /** A Python value, distinguished as far as the core distinguishes values:
      `isinstance(v, str)`, `isinstance(v, dict)`, `isinstance(v, list)`, `isinstance(v, tuple)`.
      For values whose `str()` is a repr the model does not compute (containers and any other
      object), `shown` is that text. Only the string keys of a dict are kept; every key the
      core looks up is a string. */
  datatype PyValue =
    | Str(s: string)
    | Int(i: int)
    | List(shown: string)
    | Tuple(shown: string)
    | Dict(entries: map<string, PyValue>, shown: string)
    | Other(shown: string)

  predicate IsDigit(c: char) {
    '0' <= c <= '9'
  }

  predicate AllDigits(s: string) {
    forall k :: 0 <= k < |s| ==> IsDigit(s[k])
  }

  function DigitChar(d: nat): (c: char)
    requires d < 10
    ensures IsDigit(c) && c as int - '0' as int == d
  {
    ('0' as int + d) as char
  }

  /** `str(n)` for a non-negative int: its decimal digits, without leading zeros. */
  function NatToDecimal(n: nat): (r: string)
    ensures |r| >= 1 && AllDigits(r)
    ensures r[0] == '0' ==> n == 0
    decreases n
  {
    if n < 10 then [DigitChar(n)] else NatToDecimal(n / 10) + [DigitChar(n % 10)]
  }

  /** The number a string of decimal digits denotes; the reading direction of `NatToDecimal`. */
  function DecimalValue(s: string): nat
    requires AllDigits(s)
  {
    if s == [] then 0
    else DecimalValue(s[..|s| - 1]) * 10 + (s[|s| - 1] as int - '0' as int)
  }

  /** Reading back what `str()` wrote gives the number again. */
  lemma {:induction false} DecimalRoundTrip(n: nat)
    ensures DecimalValue(NatToDecimal(n)) == n
  {
    if n >= 10 {
      var s := NatToDecimal(n);
      assert s[..|s| - 1] == NatToDecimal(n / 10);
      DecimalRoundTrip(n / 10);
    }
  }

  /** `str(i)` for any int: a minus sign before the digits of a negative number. */
  function IntToDecimal(i: int): (r: string)
    ensures |r| >= 1 && (r[0] == '-' <==> i < 0)
    ensures i < 0 ==> AllDigits(r[1..])
    ensures i >= 0 ==> AllDigits(r)
  {
    if i < 0 then "-" + NatToDecimal(-i) else NatToDecimal(i)
  }

  /** The number a signed decimal string denotes. */
  function SignedValue(s: string): int {
    if |s| > 0 && s[0] == '-' && AllDigits(s[1..]) then -(DecimalValue(s[1..]) as int)
    else if AllDigits(s) then DecimalValue(s)
    else 0
  }

  /** `str()` of an int reads back as that int, so distinct ints print differently. */
  lemma IntToDecimalRoundTrip(i: int)
    ensures SignedValue(IntToDecimal(i)) == i
  {
    if i < 0 {
      var digits := NatToDecimal(-i);
      var r := "-" + digits;
      assert r[0] == '-' && r[1..] == digits;
      DecimalRoundTrip(-i);
      assert SignedValue(r) == -(DecimalValue(digits) as int);
    } else {
      DecimalRoundTrip(i);
      assert IntToDecimal(i) == NatToDecimal(i);
      assert NatToDecimal(i)[0] != '-';
    }
  }

  /** Python's `str(v)` (and an f-string's `{v}`). */
  function ToStr(v: PyValue): (r: string)
    ensures v.Str? ==> r == v.s
    ensures v.Int? ==> SignedValue(r) == v.i
  {
    match v
    case Str(s) => s
    case Int(i) => IntToDecimalRoundTrip(i); IntToDecimal(i)
    case List(shown) => shown
    case Tuple(shown) => shown
    case Dict(_, shown) => shown
    case Other(shown) => shown
  }
}
