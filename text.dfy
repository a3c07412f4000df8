/** Decimal rendering of numbers, as Rust's `format!("{}", n)` prints them. */
module Text {

  function DigitChar(d: nat): char
    requires d < 10
  {
    ('0' as int + d) as char
  }

  /** The decimal digits of `n`, most significant first, without leading zeros. */
  function NatText(n: nat): (s: string)
    ensures 1 <= |s|
    ensures 10 <= n ==> 2 <= |s|
    decreases n
  {
    if n < 10 then [DigitChar(n)] else NatText(n / 10) + [DigitChar(n % 10)]
  }

  /** A signed integer in decimal, with a leading `-` when negative. */
  function IntText(i: int): string {
    if i < 0 then "-" + NatText(-i) else NatText(i)
  }

  /** Distinct numbers have distinct decimal renderings. */
  lemma {:induction false} NatTextInjective(a: nat, b: nat)
    requires NatText(a) == NatText(b)
    ensures a == b
    decreases a
  {
    var s := NatText(a);
    if a < 10 {
      assert |s| == 1;
      assert b < 10;
      assert DigitChar(a) == s[0] == DigitChar(b);
    } else {
      assert 2 <= |s|;
      assert 10 <= b;
      var k := |s| - 1;
      assert DigitChar(a % 10) == s[k] == DigitChar(b % 10);
      assert NatText(a / 10) == s[..k] == NatText(b / 10);
      NatTextInjective(a / 10, b / 10);
    }
  }
}
