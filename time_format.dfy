/**
 * The `m:ss` time text of Views/MediumPlayerView.swift, `mmss(_:)`, with the
 * Swift semantics it relies on written out: `rounded()` (to nearest, halves
 * away from zero), `Int` division and remainder (truncating toward zero),
 * string interpolation of an `Int` and the `%02d` format.
 */
module TimeFormat {

  // ---------------------------------------------------------------------
  // Swift integer semantics

  /** `Int(t.rounded())`: the nearest integer, a half rounded away from zero. */
  function RoundedToInt(t: real): (n: int)
    ensures t >= 0.0 ==> n >= 0 && (n as real) - 0.5 <= t < (n as real) + 0.5
    ensures t < 0.0 ==> n <= 0 && (n as real) - 0.5 < t <= (n as real) + 0.5
  {
    if t >= 0.0 then (t + 0.5).Floor else -((-t + 0.5).Floor)
  }

  function Abs(x: real): real { if x >= 0.0 then x else -x }

  /** No integer is closer to `t` than `RoundedToInt(t)`. */
  lemma RoundedIsNearest(t: real, m: int)
    ensures Abs(t - RoundedToInt(t) as real) <= Abs(t - m as real)
  {
    var n := RoundedToInt(t);
    if m < n {
      assert m as real <= n as real - 1.0;
    } else if m > n {
      assert m as real >= n as real + 1.0;
    }
  }

  /** Swift's `a / b` for a positive divisor: the quotient truncated toward zero. */
  function SwiftDiv(a: int, b: int): (q: int)
    requires b > 0
  {
    if a >= 0 then a / b else -((-a) / b)
  }

  /** Swift's `a % b` for a positive divisor: the remainder takes the sign of `a`. */
  function SwiftRem(a: int, b: int): (r: int)
    requires b > 0
    ensures a == SwiftDiv(a, b) * b + r
    ensures a >= 0 ==> 0 <= r < b
    ensures a < 0 ==> -b < r <= 0
  {
    if a >= 0 then a % b else -((-a) % b)
  }

  // ---------------------------------------------------------------------
  // Decimal text

  predicate IsDigit(c: char) { '0' <= c <= '9' }

  predicate AllDigits(s: string) { forall i :: 0 <= i < |s| ==> IsDigit(s[i]) }

  function DigitChar(d: int): (c: char)
    requires 0 <= d < 10
    ensures IsDigit(c)
  {
    ('0' as int + d) as char
  }

  function DigitValue(c: char): (d: nat)
    requires IsDigit(c)
    ensures d < 10 && DigitChar(d) == c
  {
    (c as int - '0' as int) as nat
  }

  /** The decimal digits of `n`, most significant first, without leading zeros. */
  function NatToString(n: nat): (s: string)
    ensures |s| >= 1 && AllDigits(s)
    ensures |s| > 1 ==> s[0] != '0'
    ensures n < 10 <==> |s| == 1
    decreases n
  {
    if n < 10 then [DigitChar(n)] else NatToString(n / 10) + [DigitChar(n % 10)]
  }

  /** `"\(n)"` for an `Int`. */
  function IntToString(n: int): (s: string)
  {
    if n < 0 then "-" + NatToString(-n) else NatToString(n)
  }

  /** The number a string of decimal digits denotes. */
  function ParseNat(s: string): (n: nat)
    requires AllDigits(s)
    decreases |s|
  {
    if s == [] then 0 else 10 * ParseNat(s[..|s| - 1]) + DigitValue(s[|s| - 1])
  }

  /** Reading the digits back gives the number. */
  lemma {:induction false} ParseNatToString(n: nat)
    ensures ParseNat(NatToString(n)) == n
    decreases n
  {
    var s := NatToString(n);
    if n >= 10 {
      ParseNatToString(n / 10);
      assert s[..|s| - 1] == NatToString(n / 10);
      assert s[|s| - 1] == DigitChar(n % 10);
    }
  }

  /** `String(format: "%02d", n)`: at least two characters, zero-padded after any sign. */
  function ZeroPad2(n: int): (s: string)
  {
    if 0 <= n < 10 then "0" + IntToString(n) else IntToString(n)
  }

  /** A value in [0, 100) is printed as exactly two digits that read back as it. */
  lemma ZeroPad2TwoDigits(n: int)
    requires 0 <= n < 100
    ensures |ZeroPad2(n)| == 2 && AllDigits(ZeroPad2(n)) && ParseNat(ZeroPad2(n)) == n
  {
    var s := ZeroPad2(n);
    if n < 10 {
      assert s == ['0', DigitChar(n)];
      assert s[..1] == ['0'];
      assert ParseNat(['0']) == 0 by { assert ['0'][..0] == []; }
    } else {
      var hi, lo := DigitChar(n / 10), DigitChar(n % 10);
      assert NatToString(n / 10) == [hi];
      assert s == [hi, lo];
      assert ParseNat([hi]) == n / 10 by {
        assert [hi][..0] == [];
        assert DigitValue(hi) == n / 10;
      }
      assert s[..|s| - 1] == [hi];
      assert DigitValue(lo) == n % 10;
      assert ParseNat(s) == 10 * ParseNat([hi]) + DigitValue(lo);
    }
  }

  // ---------------------------------------------------------------------
  // m:ss

  /** `mmss(_:)`: whole minutes, a colon, and the seconds of the minute in two digits. */
  function Mmss(t: real): (s: string)
  {
    var total := RoundedToInt(t);
    IntToString(SwiftDiv(total, 60)) + ":" + ZeroPad2(SwiftRem(total, 60))
  }

  /**
   * For a non-negative time the text is minutes, `:`, two digits of seconds
   * below 60, and reading it back gives the time rounded to whole seconds.
   */
  lemma MmssReadsBack(t: real)
    requires t >= 0.0
    ensures var s := Mmss(t); var k := |s|;
      && k >= 4 && s[k - 3] == ':'
      && AllDigits(s[..k - 3]) && AllDigits(s[k - 2..])
      && ParseNat(s[k - 2..]) < 60
      && ParseNat(s[..k - 3]) * 60 + ParseNat(s[k - 2..]) == RoundedToInt(t)
  {
    var total := RoundedToInt(t);
    var m := total / 60;
    var sec := total % 60;
    var minutes := NatToString(m);
    var seconds := ZeroPad2(sec);
    ZeroPad2TwoDigits(sec);
    ParseNatToString(m);
    var s := Mmss(t);
    assert s == minutes + ":" + seconds;
    assert s[..|s| - 3] == minutes;
    assert s[|s| - 2..] == seconds;
  }

  /** 65.6 seconds rounds to 66 and is shown as "1:06"; no time is "0:00". */
  lemma MmssExamples()
    ensures Mmss(65.6) == "1:06"
    ensures Mmss(0.0) == "0:00"
    ensures Mmss(59.5) == "1:00"
  {
    assert RoundedToInt(65.6) == 66;
    assert RoundedToInt(59.5) == 60;
    assert NatToString(1) == "1";
    assert NatToString(0) == "0";
  }
}
