/** The two JavaScript conversions the controller applies to stored strings:
    `Number(...)` when it reads a key and `String(...)` when it writes a number.
    Only integer values are modelled. */
module JsValues {
  import opened Wrappers

  /** What `Number(...)` yields, as far as the controller looks at it: a finite
      (integer) number, or a value for which `isFinite` is false (NaN). */
  datatype NumberValue = Finite(n: int) | NotFinite

  predicate IsDigit(c: char)
  {
    '0' <= c <= '9'
  }

  predicate IsDigits(s: string)
  {
    forall i :: 0 <= i < |s| ==> IsDigit(s[i])
  }

  function DigitValue(c: char): nat
    requires IsDigit(c)
  {
    c as int - '0' as int
  }

  function DigitChar(d: nat): (c: char)
    requires d < 10
    ensures IsDigit(c) && DigitValue(c) == d
  {
    ('0' as int + d) as char
  }

  /** The value of a decimal numeral, most significant digit first;
      the empty numeral has value 0. */
  function DigitsValue(s: string): nat
    requires IsDigits(s)
  {
    if s == [] then 0 else DigitsValue(s[..|s| - 1]) * 10 + DigitValue(s[|s| - 1])
  }

  /** `Number(v)` for a value read from session storage: `Number(null)` and
      `Number("")` are 0, a decimal numeral with an optional leading minus sign
      is its value, and anything else is NaN. */
  function ToNumber(v: Option<string>): NumberValue
  {
    match v
    case None => Finite(0)
    case Some(s) =>
      if IsDigits(s) then Finite(DigitsValue(s))
      else if |s| > 1 && s[0] == '-' && IsDigits(s[1..]) then Finite(-(DigitsValue(s[1..]) as int))
      else NotFinite
  }

  /** The decimal numeral of a natural number, without leading zeros. */
  function NaturalToString(n: nat): (s: string)
    ensures |s| > 0 && IsDigits(s)
    ensures |s| > 1 ==> s[0] != '0'
    ensures DigitsValue(s) == n
  {
    if n < 10 then [DigitChar(n)]
    else
      var prefix := NaturalToString(n / 10);
      var s := prefix + [DigitChar(n % 10)];
      assert s[..|s| - 1] == prefix;
      s
  }

  /** `String(n)` for an integer-valued number: reading the string back with
      `Number(...)` gives `n` again. */
  function IntegerToString(n: int): (s: string)
    ensures |s| > 0 && ToNumber(Some(s)) == Finite(n)
    ensures n >= 0 ==> IsDigits(s) && (|s| > 1 ==> s[0] != '0')
    ensures n < 0 ==> |s| > 1 && s[0] == '-' && IsDigits(s[1..]) && s[1] != '0'
  {
    if n < 0 then
      var digits := NaturalToString(-n);
      var s := "-" + digits;
      assert !IsDigit(s[0]);
      assert s[1..] == digits;
      assert digits[0] != '0' by {
        if |digits| == 1 {
          assert digits == digits[..0] + [digits[0]];
        }
      }
      s
    else NaturalToString(n)
  }
}
