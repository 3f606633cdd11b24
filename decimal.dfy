/**
  Decimal text of integers, as the controller uses it: Python's `'%d' % n`
  when it builds command lines and outlet names, and Python's `int(token)`
  when it reads an outlet token. `int()` is approximated by an optional
  sign followed by one or more ASCII digits.
 */
module Decimal {

  datatype Option<T> = None | Some(value: T)

  predicate IsDigit(c: char) {
    '0' <= c <= '9'
  }

  predicate AllDigits(s: string) {
    forall i :: 0 <= i < |s| ==> IsDigit(s[i])
  }

  function DigitChar(d: nat): (c: char)
    requires d < 10
    ensures IsDigit(c) && c as int - '0' as int == d
  {
    ('0' as int + d) as char
  }

  function DigitValue(c: char): (d: nat)
    requires IsDigit(c)
    ensures d < 10 && DigitChar(d) == c
  {
    c as int - '0' as int
  }

  /** The digits of `n`, most significant first, without leading zeros. */
  function NatToDec(n: nat): (s: string)
    ensures |s| > 0 && AllDigits(s)
    ensures |s| > 1 ==> s[0] != '0'
    ensures n > 0 ==> s[0] != '0'
    decreases n
  {
    if n < 10 then [DigitChar(n)] else NatToDec(n / 10) + [DigitChar(n % 10)]
  }

  /** The value of a string of decimal digits (the empty string reads as 0). */
  function DigitsValue(s: string): nat
    requires AllDigits(s)
  {
    if |s| == 0 then 0 else DigitsValue(s[..|s| - 1]) * 10 + DigitValue(s[|s| - 1])
  }

  /** Python's `'%d' % n`: a minus sign for negative numbers, then the digits. */
  function IntToDec(n: int): (s: string)
    ensures |s| > 0 && AllDigits(s[1..])
    ensures s[0] == '-' <==> n < 0
    ensures s[0] != '-' ==> IsDigit(s[0])
    ensures s[0] == '0' ==> s == "0"
    ensures n < 0 ==> |s| > 1 && s[1] != '0'
  {
    if n < 0 then "-" + NatToDec(-n) else NatToDec(n)
  }

  /** The texts `ParseInt` accepts: an optional `+` or `-`, then at least one digit. */
  predicate Numeral(s: string) {
    |s| > 0 && (AllDigits(s) || (|s| > 1 && (s[0] == '-' || s[0] == '+') && AllDigits(s[1..])))
  }

  /** An approximation of Python's `int(s)`: an optional `+` or `-`, then at least one digit. */
  function ParseInt(s: string): (r: Option<int>)
    ensures r.Some? <==> Numeral(s)
    ensures r.Some? && s[0] != '-' ==> r.value >= 0
    ensures r.Some? && r.value < 0 ==> s[0] == '-'
  {
    if |s| > 0 && (s[0] == '-' || s[0] == '+') then
      var body := s[1..];
      if |body| > 0 && AllDigits(body) then
        var v: int := DigitsValue(body);
        Some(if s[0] == '-' then -v else v)
      else None
    else if |s| > 0 && AllDigits(s) then Some(DigitsValue(s))
    else None
  }

  lemma {:induction false} NatToDecValue(n: nat)
    ensures DigitsValue(NatToDec(n)) == n
    decreases n
  {
    var s := NatToDec(n);
    if n < 10 {
      assert s[..|s| - 1] == [];
    } else {
      assert s[..|s| - 1] == NatToDec(n / 10);
      NatToDecValue(n / 10);
    }
  }

  /** Reading back what `'%d'` wrote gives the number it was written from. */
  lemma ParseIntDec(n: int)
    ensures ParseInt(IntToDec(n)) == Some(n)
  {
    var s := IntToDec(n);
    if n < 0 {
      assert s[1..] == NatToDec(-n);
      NatToDecValue(-n);
    } else {
      NatToDecValue(n);
    }
  }

  /** Distinct numbers have distinct decimal texts. */
  lemma DecInjective(m: int, n: int)
    ensures IntToDec(m) == IntToDec(n) ==> m == n
  {
    ParseIntDec(m);
    ParseIntDec(n);
  }

  /** `'%d' % 30` is `"30"` and `'%d' % -4` is `"-4"`. */
  lemma DecExamples()
    ensures IntToDec(30) == "30" && IntToDec(-4) == "-4" && IntToDec(0) == "0"
  {
  }
}
