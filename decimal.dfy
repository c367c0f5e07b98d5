/**
 * JavaScript's `String(n)` for an integer-valued number: an optional minus
 * sign followed by decimal digits without leading zeros. `ParseDecimal` is
 * the reading direction, used to show that no two statuses print alike.
 */
module Decimal {
  import opened Wrappers
  import Utf8

  predicate IsDigit(c: char) {
    '0' <= c <= '9'
  }

  function DigitChar(d: nat): (c: char)
    requires d < 10
    ensures IsDigit(c) && c as int - '0' as int == d
  {
    ('0' as int + d) as char
  }

  /** The digits of `n`, most significant first. */
  function Digits(n: nat): (s: string)
    ensures |s| >= 1
    ensures forall i :: 0 <= i < |s| ==> IsDigit(s[i])
    ensures s[0] == '0' ==> n == 0 && |s| == 1
  {
    if n < 10 then [DigitChar(n)] else Digits(n / 10) + [DigitChar(n % 10)]
  }

  /** No digit run starts with a redundant zero, and there is no "-0". */
  predicate NoLeadingZero(s: string) {
    |s| >= 1 && (s[0] == '0' ==> s == "0") && (s[0] == '-' ==> |s| >= 2 && s[1] != '0')
  }

  /** `String(n)`: a minus sign for a negative `n`, then the digits of `|n|`. */
  function DecimalString(n: int): (s: string)
    ensures |s| >= 1
    ensures s[0] == '-' <==> n < 0
    ensures forall i :: 0 < i < |s| ==> IsDigit(s[i])
    ensures n >= 0 ==> IsDigit(s[0])
    ensures NoLeadingZero(s)
  {
    if n < 0 then "-" + Digits(-n) else Digits(n)
  }

  predicate AllDigits(s: string) {
    forall i :: 0 <= i < |s| ==> IsDigit(s[i])
  }

  /** The number a run of digits denotes. */
  function DigitsValue(s: string): nat
    requires AllDigits(s)
  {
    if s == [] then 0
    else
      var last := s[|s| - 1];
      assert IsDigit(last);
      DigitsValue(s[..|s| - 1]) * 10 + (last as int - '0' as int)
  }

  /** Reads an optional minus sign followed by at least one digit. */
  function ParseDecimal(s: string): (r: Option<int>)
    ensures r.Some? ==> |s| >= 1
  {
    if |s| >= 2 && s[0] == '-' && AllDigits(s[1..]) then Some(-(DigitsValue(s[1..]) as int))
    else if |s| >= 1 && AllDigits(s) then Some(DigitsValue(s))
    else None
  }

  lemma {:induction false} DigitsValueOfDigits(n: nat)
    ensures DigitsValue(Digits(n)) == n
  {
    var s := Digits(n);
    if n >= 10 {
      DigitsValueOfDigits(n / 10);
      assert s[..|s| - 1] == Digits(n / 10);
    }
  }

  /** Reading back what `DecimalString` writes gives the number again. */
  lemma DecimalRoundTrip(n: int)
    ensures ParseDecimal(DecimalString(n)) == Some(n)
  {
    var s := DecimalString(n);
    if n < 0 {
      assert s[1..] == Digits(-n);
      assert s[0] == '-';
      DigitsValueOfDigits(-n);
    } else {
      assert s[0] != '-';
      DigitsValueOfDigits(n);
    }
  }

  /** The text is ASCII, so its byte length is its number of characters. */
  lemma DecimalByteLength(n: int)
    ensures Utf8.ByteLength(DecimalString(n)) == |DecimalString(n)|
    ensures |DecimalString(n)| >= 1
  {
    var s := DecimalString(n);
    assert Utf8.IsAscii(s) by {
      if n < 0 {
        forall i | 0 <= i < |s| ensures s[i] as int < 0x80 {
          if i > 0 { assert s[i] == Digits(-n)[i - 1]; }
        }
      }
    }
    Utf8.AsciiEncoding(s);
  }

  /** `String(500)` is "500". */
  lemma FiveHundred()
    ensures DecimalString(500) == "500"
  {
  }
}
