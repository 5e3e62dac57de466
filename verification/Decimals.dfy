/** Decimal numerals and the rounding of "%lf", as the C library writes and reads them. */
module Decimals {
  import opened Numbers


  function Pow10(n: nat): (p: nat)
    ensures p >= 1
  {
    if n == 0 then 1 else 10 * Pow10(n - 1)
  }

  lemma {:induction false} Pow10Sum(m: nat, n: nat)
    ensures Pow10(m + n) == Pow10(m) * Pow10(n)
  {
    if m != 0 {
      Pow10Sum(m - 1, n);
      assert m + n - 1 == (m - 1) + n;
    }
  }

  predicate IsDigit(c: char) {
    '0' <= c <= '9'
  }

  function Digit(d: nat): (c: char)
    requires d < 10
    ensures IsDigit(c) && DigitValue(c) == d
  {
    '0' + d as char
  }

  function DigitValue(c: char): (d: nat)
    requires IsDigit(c)
    ensures d < 10
  {
    (c - '0') as nat
  }

  predicate AllDigits(s: string) {
    forall c <- s :: IsDigit(c)
  }

  // The number a string of digits denotes.
  function Denoted(s: string): nat
    requires AllDigits(s)
  {
    if s == "" then 0 else 10 * Denoted(s[..|s| - 1]) + DigitValue(s[|s| - 1])
  }

  function Digits(n: nat): (s: string)
    ensures s != "" && AllDigits(s)
  {
    if n < 10 then [Digit(n)] else Digits(n / 10) + [Digit(n % 10)]
  }

  lemma {:induction false} DigitsDenote(n: nat)
    ensures Denoted(Digits(n)) == n
  {
    if n < 10 {
      assert Digits(n)[..0] == "";
    } else {
      DigitsDenote(n / 10);
      assert Digits(n)[..|Digits(n)| - 1] == Digits(n / 10);
    }
  }

  lemma {:induction false} DigitsLength(n: nat, width: nat)
    requires width >= 1 && n < Pow10(width)
    ensures |Digits(n)| <= width
  {
    if n >= 10 {
      assert width > 1;
      DigitsLength(n / 10, width - 1);
    }
  }

  // Exactly `width` digits, with leading zeros.
  function Padded(n: nat, width: nat): (s: string)
    requires n < Pow10(width)
    ensures |s| == width && AllDigits(s)
  {
    if width == 0 then "" else Padded(n / 10, width - 1) + [Digit(n % 10)]
  }

  lemma {:induction false} PaddedDenotes(n: nat, width: nat)
    requires n < Pow10(width)
    ensures Denoted(Padded(n, width)) == n
  {
    if width > 0 {
      PaddedDenotes(n / 10, width - 1);
      assert Padded(n, width)[..width - 1] == Padded(n / 10, width - 1);
    }
  }

  // To the nearest integer, ties to the even one.
  function HalfEven(x: real): (n: int)
    ensures x - 0.5 <= n as real <= x + 0.5
  {
    var low := x.Floor;
    if x - low as real < 0.5 || (x - low as real == 0.5 && low % 2 == 0) then low else low + 1
  }

  lemma HalfEvenMonotone(x: real, y: real)
    requires x <= y
    ensures HalfEven(x) <= HalfEven(y)
  {
  }

  // The magnitude "%lf" prints, in millionths.
  function Millionths(x: real): (n: nat)
  {
    assert HalfEven(Abs(x) * 1000000.0) as real >= -0.5;
    HalfEven(Abs(x) * 1000000.0)
  }

  // The number that is left of x after printing it with "%lf".
  function Rounded(x: real): real {
    if x < 0.0 then -(Millionths(x) as real / 1000000.0) else Millionths(x) as real / 1000000.0
  }

  lemma RoundedMonotone(x: real, y: real)
    requires x <= y
    ensures Rounded(x) <= Rounded(y)
  {
    if 0.0 <= x {
      HalfEvenMonotone(x * 1000000.0, y * 1000000.0);
      assert Millionths(x) <= Millionths(y);
    } else if y < 0.0 {
      HalfEvenMonotone(-y * 1000000.0, -x * 1000000.0);
      assert Millionths(y) <= Millionths(x);
    }
  }

  lemma RoundedOnce(n: nat, negative: bool)
    ensures var x := n as real / 1000000.0; Rounded(if negative then -x else x) == if negative then -x else x
  {
    var x := n as real / 1000000.0;
    assert x * 1000000.0 == n as real;
    assert HalfEven(n as real) == n;
  }

  // No leading zeros
  lemma {:induction false} DigitsLead(n: nat)
    ensures n > 0 ==> Digits(n)[0] != '0'
    ensures n == 0 ==> Digits(n) == "0"
  {
    if n >= 10 {
      DigitsLead(n / 10);
    }
  }

  // "%lf" keeps the nearest millionth, the even one of two.
  lemma RoundedNear(x: real)
    ensures -0.0000005 <= Rounded(x) - x <= 0.0000005
    ensures (Rounded(x) - x == 0.0000005 || Rounded(x) - x == -0.0000005) ==> Millionths(x) % 2 == 0
    ensures 1000000.0 * Rounded(x) == if x < 0.0 then -(Millionths(x) as real) else Millionths(x) as real
  {
    var y := Abs(x) * 1000000.0;
    assert y - 0.5 <= HalfEven(y) as real <= y + 0.5;
  }

  // The characters of the digits, and the weight of the first one
  lemma DigitChar(d: nat)
    requires d < 10
    ensures Digit(d) == "0123456789"[d] && DigitValue("0123456789"[d]) == d
  {
  }

  lemma {:induction false} DenotedFront(d: nat, s: string)
    requires d < 10 && AllDigits(s)
    ensures AllDigits(["0123456789"[d]] + s) && Denoted(["0123456789"[d]] + s) == d * Pow10(|s|) + Denoted(s)
    decreases |s|
  {
    var c := "0123456789"[d];
    DigitChar(d);
    if s == "" {
      assert [c] + s == [c] && [c][..0] == "";
    } else {
      var n := |s| - 1;
      DenotedFront(d, s[..n]);
      assert ([c] + s)[..n + 1] == [c] + s[..n];
      FrontWeight(d, Pow10(n), Pow10(|s|), Denoted(s[..n]), DigitValue(s[n]));
    }
  }

  lemma FrontWeight(d: nat, p: nat, q: nat, m: nat, e: nat)
    requires q == 10 * p
    ensures 10 * (d * p + m) + e == d * q + (10 * m + e)
  {
  }
}
