/**
 * Decimal rendering of numbers as the program produces it: `String(n)` and
 * template interpolation of a non-negative integer, the zero padding date
 * formatting applies, and `toFixed(2)` of an amount held in cents.
 */
module Decimal {
  import opened Wrappers
  import Text

  predicate IsDigit(c: char) {
    '0' <= c <= '9'
  }

  predicate AllDigits(s: string) {
    forall k :: 0 <= k < |s| ==> IsDigit(s[k])
  }

  function DigitChar(d: nat): (c: char)
    requires d < 10
    ensures IsDigit(c)
  {
    ('0' as int + d) as char
  }

  function DigitValue(c: char): (d: nat)
    requires IsDigit(c)
    ensures d < 10 && DigitChar(d) == c
  {
    c as int - '0' as int
  }

  /** The decimal digits of `n`, without leading zeros (`String(n)`). */
  function Digits(n: nat): (s: string)
    ensures |s| > 0 && AllDigits(s)
    ensures s[0] == '0' <==> n == 0
    decreases n
  {
    if n < 10 then [DigitChar(n)] else Digits(n / 10) + [DigitChar(n % 10)]
  }

  /** Reading a string of digits as a number: the inverse of `Digits`. */
  function ParseDigits(s: string): nat
    requires AllDigits(s)
    decreases |s|
  {
    if s == [] then 0 else ParseDigits(s[..|s| - 1]) * 10 + DigitValue(s[|s| - 1])
  }

  lemma {:induction false} ParseDigitsOfDigits(n: nat)
    ensures ParseDigits(Digits(n)) == n
    decreases n
  {
    if n >= 10 {
      var s := Digits(n);
      assert s[..|s| - 1] == Digits(n / 10);
      ParseDigitsOfDigits(n / 10);
    }
  }

  /** Different numbers are written differently. */
  lemma DigitsInjective(m: nat, n: nat)
    requires Digits(m) == Digits(n)
    ensures m == n
  {
    ParseDigitsOfDigits(m);
    ParseDigitsOfDigits(n);
  }

  function Zeros(k: nat): (s: string)
    ensures |s| == k && forall i :: 0 <= i < k ==> s[i] == '0'
  {
    if k == 0 then [] else Zeros(k - 1) + ['0']
  }

  /** `n` padded on the left with zeros to at least `width` characters, as date formatting pads years, months and days. */
  function ZeroPad(n: nat, width: nat): string {
    var d := Digits(n);
    if |d| >= width then d else Zeros(width - |d|) + d
  }

  function Pow10(k: nat): (p: nat)
    ensures p >= 1
  {
    if k == 0 then 1 else 10 * Pow10(k - 1)
  }

  /** The last `width` decimal digits of `n`, zeros included. */
  function FixedWidth(n: nat, width: nat): (s: string)
    ensures |s| == width && AllDigits(s)
  {
    if width == 0 then "" else FixedWidth(n / 10, width - 1) + [DigitChar(n % 10)]
  }

  lemma {:induction false} FixedWidthZero(width: nat)
    ensures FixedWidth(0, width) == Zeros(width)
  {
    if width > 0 {
      FixedWidthZero(width - 1);
      assert Zeros(width) == Zeros(width - 1) + ['0'];
    }
  }

  /** Below `10^width`, zero padding writes exactly the last `width` digits. */
  lemma {:induction false} ZeroPadIsFixedWidth(n: nat, width: nat)
    requires 0 < width && n < Pow10(width)
    ensures ZeroPad(n, width) == FixedWidth(n, width)
    decreases width
  {
    if n < 10 {
      FixedWidthZero(width - 1);
      assert Zeros(width - 1) + [DigitChar(n)] == Zeros(width - 1) + Digits(n);
      if width == 1 {
        assert ZeroPad(n, width) == Digits(n);
      }
    } else {
      assert n / 10 < Pow10(width - 1);
      assert width > 1;
      ZeroPadIsFixedWidth(n / 10, width - 1);
      var d := Digits(n / 10);
      assert Digits(n) == d + [DigitChar(n % 10)];
      if |d| >= width - 1 {
        assert ZeroPad(n / 10, width - 1) == d;
      } else {
        assert ZeroPad(n, width) == Zeros(width - 1 - |d|) + d + [DigitChar(n % 10)];
      }
    }
  }

  /** On numbers below `10^width`, `FixedWidth` is one to one and orders like the numbers. */
  lemma {:induction false} FixedWidthOrder(m: nat, n: nat, width: nat)
    requires m < Pow10(width) && n < Pow10(width)
    ensures FixedWidth(m, width) == FixedWidth(n, width) <==> m == n
    ensures Text.Lt(FixedWidth(m, width), FixedWidth(n, width)) <==> m < n
    decreases width
  {
    if width == 0 {
      Text.LtIrreflexive("");
    } else {
      FixedWidthOrder(m / 10, n / 10, width - 1);
      var p, q := FixedWidth(m / 10, width - 1), FixedWidth(n / 10, width - 1);
      var x, y := [DigitChar(m % 10)], [DigitChar(n % 10)];
      Text.LtAppend(p, x, q, y);
      assert Text.Lt(x, y) <==> m % 10 < n % 10 by {
        assert x[1..] == [] && y[1..] == [];
        assert !Text.Lt([], []);
      }
      assert p + x == q + y <==> p == q && x == y by {
        if p + x == q + y {
          assert (p + x)[..|p|] == p && (q + y)[..|q|] == q;
          assert (p + x)[|p|] == x[0];
        }
      }
      assert x == y <==> m % 10 == n % 10 by {
        if x == y {
          assert DigitValue(x[0]) == m % 10;
        }
      }
    }
  }

  /**
   * `x.toFixed(2)` for an amount `x` held in cents: a minus sign exactly for
   * a negative amount, at least one whole digit, the point, two decimals.
   */
  function ToFixed2(cents: int): (s: string)
    ensures |s| >= 4 && s[|s| - 3] == '.' && IsDigit(s[|s| - 2]) && IsDigit(s[|s| - 1])
    ensures s[0] == '-' <==> cents < 0
    ensures cents < 0 ==> IsDigit(s[1])
  {
    var m: nat := if cents < 0 then -cents else cents;
    (if cents < 0 then "-" else "") + UnsignedFixed2(m)
  }

  function UnsignedFixed2(m: nat): (s: string)
    ensures |s| >= 4 && s[|s| - 3] == '.' && IsDigit(s[0])
    ensures AllDigits(s[..|s| - 3]) && IsDigit(s[|s| - 2]) && IsDigit(s[|s| - 1])
  {
    Digits(m / 100) + "." + [DigitChar(m % 100 / 10), DigitChar(m % 10)]
  }

  /** Reading back a `toFixed(2)` cell as cents. */
  function ParseFixed2(s: string): Option<int> {
    if |s| > 0 && s[0] == '-' then
      match ParseUnsignedFixed2(s[1..])
      case Some(m) => Some(-(m as int))
      case None => None
    else ParseUnsignedFixed2(s)
  }

  function ParseUnsignedFixed2(s: string): Option<nat> {
    if |s| >= 4 && s[|s| - 3] == '.' && AllDigits(s[..|s| - 3]) && IsDigit(s[|s| - 2]) && IsDigit(s[|s| - 1])
    then Some(ParseDigits(s[..|s| - 3]) * 100 + DigitValue(s[|s| - 2]) * 10 + DigitValue(s[|s| - 1]))
    else None
  }

  /** A `toFixed(2)` cell determines its amount exactly. */
  lemma ToFixed2RoundTrip(cents: int)
    ensures ParseFixed2(ToFixed2(cents)) == Some(cents)
  {
    var m: nat := if cents < 0 then -cents else cents;
    var u := UnsignedFixed2(m);
    UnsignedFixed2RoundTrip(m);
    if cents < 0 {
      assert ToFixed2(cents)[1..] == u;
    } else {
      assert ToFixed2(cents) == u && u[0] != '-';
    }
  }

  lemma UnsignedFixed2RoundTrip(m: nat)
    ensures ParseUnsignedFixed2(UnsignedFixed2(m)) == Some(m)
  {
    var u := UnsignedFixed2(m);
    var d, t, c := m / 100, m % 100 / 10, m % 10;
    assert u[..|u| - 3] == Digits(d);
    ParseDigitsOfDigits(d);
    assert DigitValue(u[|u| - 2]) == t && DigitValue(u[|u| - 1]) == c;
    assert d * 100 + t * 10 + c == m;
  }

  /** A `toFixed(2)` cell holds only a sign, digits and the decimal point. */
  lemma ToFixed2Alphabet(cents: int)
    ensures forall c :: c in ToFixed2(cents) ==> c == '-' || c == '.' || IsDigit(c)
  {
    var m: nat := if cents < 0 then -cents else cents;
    var d := Digits(m / 100);
    assert forall c :: c in d ==> IsDigit(c);
  }
}
