/** Integers written as decimal strings, and JavaScript's `Number(s)` on such strings. */
module Numbers {
  import opened Store

  function DigitChar(d: int): char
    requires 0 <= d < 10
  {
    "0123456789"[d]
  }

  predicate IsDigit(c: char)
  {
    '0' <= c <= '9'
  }

  predicate AllDigits(s: string)
  {
    forall i :: 0 <= i < |s| ==> IsDigit(s[i])
  }

  /** `String(n)` for a non-negative integer. */
  function NatString(n: nat): (s: string)
    ensures |s| > 0 && AllDigits(s)
  {
    if n < 10 then [DigitChar(n)] else NatString(n / 10) + [DigitChar(n % 10)]
  }

  /** `String(n)` for an integer. */
  function NumberString(n: int): string
  {
    if n < 0 then "-" + NatString(-n) else NatString(n)
  }

  function DigitsValue(s: string): nat
    requires AllDigits(s)
  {
    if s == [] then 0 else DigitsValue(s[..|s| - 1]) * 10 + (s[|s| - 1] as int - '0' as int)
  }

  /** `Number(s)` for the strings a decimal integer can be written as: the empty string
      is 0, an optional minus sign then digits is that integer, anything else is NaN. */
  function JsNumber(s: string): Option<int>
  {
    if s == "" then Some(0)
    else if s[0] == '-' && |s| > 1 && AllDigits(s[1..]) then Some(-(DigitsValue(s[1..]) as int))
    else if AllDigits(s) then Some(DigitsValue(s))
    else None
  }

  lemma {:induction false} NatStringRoundTrip(n: nat)
    ensures DigitsValue(NatString(n)) == n
  {
    if n >= 10 {
      NatStringRoundTrip(n / 10);
      var s := NatString(n);
      assert s[..|s| - 1] == NatString(n / 10);
    }
  }

  lemma {:induction false} ReadNegative(digits: string)
    requires digits != "" && AllDigits(digits)
    ensures JsNumber("-" + digits) == Some(-(DigitsValue(digits) as int))
  {
    var s := "-" + digits;
    assert s[1..] == digits;
  }

  lemma {:induction false} ReadDigits(digits: string)
    requires digits != "" && AllDigits(digits)
    ensures JsNumber(digits) == Some(DigitsValue(digits) as int)
  {
    assert IsDigit(digits[0]);
  }

  /** Printing an integer and reading it back as a number gives the integer. */
  lemma {:induction false} NumberRoundTrip(n: int)
    ensures JsNumber(NumberString(n)) == Some(n)
  {
    if n < 0 {
      var m: nat := -n;
      var d := NatString(m);
      NatStringRoundTrip(m);
      ReadNegative(d);
      assert NumberString(n) == "-" + d;
    } else {
      NatStringRoundTrip(n);
      ReadDigits(NatString(n));
    }
  }
}
