/** Decimal text of integers as PHP produces it when an integer is
    interpolated into a string or concatenated, left padding as `str_pad`
    with STR_PAD_LEFT does it, and the parsing that undoes both. */
module Decimal {
  import opened Entities

  predicate IsDigit(c: char)
  {
    '0' <= c <= '9'
  }

  predicate AllDigits(s: string)
  {
    forall i :: 0 <= i < |s| ==> IsDigit(s[i])
  }

  function DigitChar(d: nat): (c: char)
    requires d < 10
    ensures IsDigit(c) && c as int - '0' as int == d
  {
    ('0' as int + d) as char
  }

  function DigitValue(c: char): nat
    requires IsDigit(c)
  {
    c as int - '0' as int
  }

  /** The number a string of digits denotes; leading zeros are allowed. */
  function DecimalValue(s: string): nat
    requires AllDigits(s)
  {
    if s == [] then 0 else DecimalValue(s[..|s| - 1]) * 10 + DigitValue(s[|s| - 1])
  }

  /** The shortest decimal text of a natural number. */
  function NatToDecimal(n: nat): string
  {
    if n < 10 then [DigitChar(n)] else NatToDecimal(n / 10) + [DigitChar(n % 10)]
  }

  /** The decimal text of `n` is digits only, has no leading zero except
      for 0 itself, and denotes `n`. */
  lemma {:induction false} NatToDecimalDigits(n: nat)
    ensures |NatToDecimal(n)| >= 1 && AllDigits(NatToDecimal(n))
    ensures (NatToDecimal(n)[0] == '0') == (n == 0)
    ensures n == 0 ==> NatToDecimal(n) == "0"
    ensures DecimalValue(NatToDecimal(n)) == n
  {
    if n >= 10 {
      var prefix := NatToDecimal(n / 10);
      NatToDecimalDigits(n / 10);
      var s := NatToDecimal(n);
      assert s == prefix + [DigitChar(n % 10)];
      assert s[..|s| - 1] == prefix;
    }
  }

  /** Decimal text of an integer as PHP renders it: a minus sign before the
      digits of a negative number. */
  function IntToDecimal(i: int): string
  {
    if i < 0 then "-" + NatToDecimal(-i) else NatToDecimal(i)
  }

  /** The text of an integer reads back as that integer; it is all digits
      exactly when the integer is not negative, and starts with a zero only
      when it is "0". */
  lemma IntToDecimalRoundTrip(i: int)
    ensures |IntToDecimal(i)| >= 1
    ensures ParseInt(IntToDecimal(i)) == Some(i)
    ensures (i >= 0) == AllDigits(IntToDecimal(i))
    ensures IntToDecimal(i)[0] == '0' ==> IntToDecimal(i) == "0"
  {
    if i < 0 {
      NatToDecimalDigits(-i);
      var s := IntToDecimal(i);
      assert s[1..] == NatToDecimal(-i);
      assert !IsDigit(s[0]);
    } else {
      NatToDecimalDigits(i);
    }
  }

  /** Reads back an optional minus sign followed by at least one digit. */
  function ParseInt(s: string): Option<int>
  {
    if |s| >= 2 && s[0] == '-' && AllDigits(s[1..]) then
      var magnitude: int := DecimalValue(s[1..]);
      Some(-magnitude)
    else if |s| >= 1 && AllDigits(s) then Some(DecimalValue(s))
    else None
  }

  /** `k` copies of `c`. */
  function Repeat(c: char, k: nat): (s: string)
    ensures |s| == k && forall i :: 0 <= i < k ==> s[i] == c
  {
    if k == 0 then [] else [c] + Repeat(c, k - 1)
  }

  /** `s` left-padded with `pad` to at least `width` characters. */
  function PadLeft(s: string, width: nat, pad: char): string
  {
    if |s| >= width then s else Repeat(pad, width - |s|) + s
  }

  /** Padding never truncates: the result is `width` long, or as long as
      `s` when `s` is longer, it ends with `s`, and it starts with `pad`
      only. */
  lemma PadLeftShape(s: string, width: nat, pad: char)
    ensures |PadLeft(s, width, pad)| == if |s| >= width then |s| else width
    ensures PadLeft(s, width, pad)[|PadLeft(s, width, pad)| - |s|..] == s
    ensures forall i :: 0 <= i < |PadLeft(s, width, pad)| - |s| ==> PadLeft(s, width, pad)[i] == pad
  {
    if |s| < width {
      var r := PadLeft(s, width, pad);
      assert r == Repeat(pad, width - |s|) + s;
      assert r[|r| - |s|..] == s;
    }
  }

  /** A leading zero does not change the number a digit string denotes. */
  lemma {:induction false} LeadingZero(s: string)
    requires AllDigits(s)
    ensures AllDigits("0" + s) && DecimalValue("0" + s) == DecimalValue(s)
  {
    var z := "0" + s;
    if s != [] {
      assert z[..|z| - 1] == "0" + s[..|s| - 1];
      LeadingZero(s[..|s| - 1]);
    }
  }

  /** Any number of leading zeros does not change the number either. */
  lemma {:induction false} LeadingZeros(k: nat, s: string)
    requires AllDigits(s)
    ensures AllDigits(Repeat('0', k) + s) && DecimalValue(Repeat('0', k) + s) == DecimalValue(s)
  {
    if k > 0 {
      LeadingZeros(k - 1, s);
      assert Repeat('0', k) == "0" + Repeat('0', k - 1);
      assert Repeat('0', k) + s == "0" + (Repeat('0', k - 1) + s);
      LeadingZero(Repeat('0', k - 1) + s);
    } else {
      assert Repeat('0', k) + s == s;
    }
  }
}
