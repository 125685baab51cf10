/**
 * Kotlin's 32-bit `Int`, its decimal text (`Int.toString()`) and `String.toInt()`
 * (java.lang.Integer.parseInt with radix 10).
 */
module Numerals {
  import opened Wrappers

  const INT_MIN: int := -0x8000_0000
  const INT_MAX: int := 0x7fff_ffff

  /** Kotlin `Int`. */
  type Int32 = x: int | -0x8000_0000 <= x <= 0x7fff_ffff

  predicate IsDigit(c: char) {
    '0' <= c <= '9'
  }

  predicate AllDigits(s: string) {
    forall i | 0 <= i < |s| :: IsDigit(s[i])
  }

  /** The value of a run of decimal digits (most significant first). */
  function DigitsValue(s: string): nat
    requires AllDigits(s)
  {
    if s == [] then 0
    else DigitsValue(s[..|s| - 1]) * 10 + (s[|s| - 1] as int - '0' as int)
  }

  /** The shortest decimal digits of `n`. */
  function Digits(n: nat): (s: string)
    ensures |s| > 0 && AllDigits(s)
  {
    var d := ['0' + (n % 10) as char];
    if n < 10 then d else Digits(n / 10) + d
  }

  /** `Int.toString()`: a minus sign for negative values, then the digits. */
  function ToDecimal(n: int): (s: string)
    ensures |s| > 0 && (n >= 0 ==> AllDigits(s))
    ensures ',' !in s
  {
    if n < 0 then "-" + Digits(-n) else Digits(n)
  }

  /**
   * Decimal text with an optional leading `-` or `+` and at least one digit: its value.
   * The integral texts both `String.toInt()` and `Double.parseDouble` read.
   */
  function SignedDecimal(s: string): (r: Option<int>)
    ensures r.Some? <==> (|s| > 0 && AllDigits(s)) || (|s| > 1 && (s[0] == '-' || s[0] == '+') && AllDigits(s[1..]))
    ensures r.Some? && s[0] == '-' ==> r.value == -(DigitsValue(s[1..]) as int)
    ensures r.Some? && s[0] == '+' ==> r.value == DigitsValue(s[1..])
    ensures r.Some? && IsDigit(s[0]) ==> r.value == DigitsValue(s)
  {
    if |s| > 1 && s[0] == '-' && AllDigits(s[1..]) then Some(-(DigitsValue(s[1..]) as int))
    else if |s| > 1 && s[0] == '+' && AllDigits(s[1..]) then Some(DigitsValue(s[1..]) as int)
    else if |s| > 0 && AllDigits(s) then Some(DigitsValue(s))
    else None
  }

  /**
   * `String.toInt()`: an optional leading `-` or `+`, then at least one digit, and
   * the value must fit in 32 bits; anything else throws NumberFormatException,
   * modelled as `None`. Nothing is trimmed.
   */
  function ParseInt(s: string): (r: Option<Int32>)
    ensures r.Some? ==> |s| > 0 && AllDigits(s[1..])
    ensures r.Some? ==> IsDigit(s[0]) || s[0] == '-' || s[0] == '+'
    ensures |s| > 0 && AllDigits(s) && DigitsValue(s) <= INT_MAX ==> r == Some(DigitsValue(s) as Int32)
    ensures r.Some? <==> SignedDecimal(s).Some? && INT_MIN <= SignedDecimal(s).value <= INT_MAX
    ensures r.Some? ==> r.value == SignedDecimal(s).value
  {
    if |s| == 0 then None
    else
      var digits := if s[0] == '-' || s[0] == '+' then s[1..] else s;
      if |digits| == 0 || !AllDigits(digits) then None
      else
        var v: int := if s[0] == '-' then -(DigitsValue(digits) as int) else DigitsValue(digits);
        if INT_MIN <= v <= INT_MAX then Some(v as Int32) else None
  }

  lemma {:induction false} DigitsValueOfDigits(n: nat)
    ensures DigitsValue(Digits(n)) == n
  {
    var d := ['0' + (n % 10) as char];
    if n >= 10 {
      DigitsValueOfDigits(n / 10);
      var s := Digits(n / 10) + d;
      assert s[..|s| - 1] == Digits(n / 10);
    }
  }

  /** Any integer's decimal text reads back as that integer. */
  lemma SignedDecimalOfToDecimal(n: int)
    ensures SignedDecimal(ToDecimal(n)) == Some(n)
  {
    DigitsValueOfDigits(if n < 0 then -n else n);
    if n < 0 {
      assert ToDecimal(n)[1..] == Digits(-n);
    }
  }

  /** Printing an `Int` and parsing it back gives the same `Int`. */
  lemma ParseIntOfToDecimal(n: Int32)
    ensures ParseInt(ToDecimal(n)) == Some(n)
  {
    SignedDecimalOfToDecimal(n);
  }

  /** Java `Number.intValue()` of an integral value: its low 32 bits, two's complement. */
  function Wrap32(n: int): (r: Int32)
    ensures (r - n) % 0x1_0000_0000 == 0
    ensures INT_MIN <= n <= INT_MAX ==> r == n
  {
    var m := n % 0x1_0000_0000;
    if m <= INT_MAX then m else m - 0x1_0000_0000
  }

  /** Kotlin `Int.absoluteValue`, which keeps `Int.MIN_VALUE` unchanged. */
  function AbsoluteValue(x: Int32): (r: Int32)
    ensures x != INT_MIN ==> r >= 0 && (r == x || r == -x)
    ensures x == INT_MIN ==> r == INT_MIN
  {
    if x < 0 && x != INT_MIN then -x else x
  }

  const LONG_MIN: int := -0x8000_0000_0000_0000
  const LONG_MAX: int := 0x7fff_ffff_ffff_ffff

  /**
   * Java's `(int)` cast of a `double` that holds an integer: values beyond the `Int`
   * range stick at its nearest end.
   */
  function Saturate32(n: int): (r: Int32)
    ensures n <= INT_MIN ==> r == INT_MIN
    ensures n >= INT_MAX ==> r == INT_MAX
    ensures INT_MIN <= n <= INT_MAX ==> r == n
  {
    if n < INT_MIN then INT_MIN else if n > INT_MAX then INT_MAX else n
  }
}
