/**
 * Java's 64-bit `long`: its range, its wrap-around addition and its decimal
 * rendering by `Long.toString` (which is what `StringBuilder.append(long)`
 * writes).
 */
module JavaLong {

  const LONG_MIN: int := -0x8000_0000_0000_0000
  const LONG_MAX: int := 0x7fff_ffff_ffff_ffff
  const LONG_MODULUS: int := 0x1_0000_0000_0000_0000

  newtype int64 = x: int | -0x8000_0000_0000_0000 <= x < 0x8000_0000_0000_0000

  /** Reduces an unbounded integer to the `long` it is congruent to modulo 2^64. */
  function Wrap(x: int): (r: int64)
    ensures (r as int - x) % LONG_MODULUS == 0
    ensures LONG_MIN <= x <= LONG_MAX ==> r as int == x
  {
    ((x - LONG_MIN) % LONG_MODULUS + LONG_MIN) as int64
  }

  /** Java's `a + b` on two longs: two's-complement addition that wraps around. */
  function Add(a: int64, b: int64): (r: int64)
    ensures LONG_MIN <= a as int + b as int <= LONG_MAX ==> r as int == a as int + b as int
    ensures a as int + b as int > LONG_MAX ==> r as int == a as int + b as int - LONG_MODULUS
    ensures a as int + b as int < LONG_MIN ==> r as int == a as int + b as int + LONG_MODULUS
  {
    Wrap(a as int + b as int)
  }

  predicate IsDigit(c: char) {
    '0' <= c <= '9'
  }

  /** The character that writes the digit `d`. */
  function DigitChar(d: nat): (c: char)
    requires d < 10
    ensures IsDigit(c) && c as int - '0' as int == d
  {
    ('0' as int + d) as char
  }

  /** The decimal digits of `n`, most significant first, without leading zeros. */
  function NatToString(n: nat): (s: string)
    ensures |s| >= 1
    ensures forall i :: 0 <= i < |s| ==> IsDigit(s[i])
    ensures |s| > 1 ==> s[0] != '0'
    decreases n
  {
    if n < 10 then [DigitChar(n)] else NatToString(n / 10) + [DigitChar(n % 10)]
  }

  /** `Long.toString(n)`: optional minus sign, then the digits of the magnitude. */
  function LongToString(n: int64): (s: string)
    ensures |s| >= 1
    ensures (s[0] == '-') <==> n < 0
  {
    if n < 0 then "-" + NatToString(-(n as int)) else NatToString(n as nat)
  }

  /** Reads back a string of decimal digits. */
  function ParseNat(s: string): (n: nat)
    requires forall i :: 0 <= i < |s| ==> IsDigit(s[i])
    decreases |s|
  {
    if s == [] then 0
    else
      assert IsDigit(s[|s| - 1]);
      10 * ParseNat(s[..|s| - 1]) + (s[|s| - 1] as int - '0' as int)
  }

  /** Reads back what `LongToString` writes. */
  function ParseLong(s: string): (n: int)
    requires |s| >= 1
    requires s[0] == '-' ==> forall i :: 1 <= i < |s| ==> IsDigit(s[i])
    requires s[0] != '-' ==> forall i :: 0 <= i < |s| ==> IsDigit(s[i])
  {
    if s[0] == '-' then -(ParseNat(s[1..]) as int) else ParseNat(s)
  }

  lemma {:induction false} ParseNatToString(n: nat)
    ensures ParseNat(NatToString(n)) == n
    decreases n
  {
    var s := NatToString(n);
    if n >= 10 {
      ParseNatToString(n / 10);
      assert s[..|s| - 1] == NatToString(n / 10);
    }
  }

  /** Every long is written in a form that reads back as the same number. */
  lemma LongToStringRoundTrip(n: int64)
    ensures var s := LongToString(n); ParseLong(s) == n as int
  {
    var s := LongToString(n);
    if n < 0 {
      ParseNatToString(-(n as int));
      assert s[1..] == NatToString(-(n as int));
    } else {
      ParseNatToString(n as nat);
    }
  }

  /** Distinct longs are written differently. */
  lemma LongToStringInjective(a: int64, b: int64)
    requires LongToString(a) == LongToString(b)
    ensures a == b
  {
    LongToStringRoundTrip(a);
    LongToStringRoundTrip(b);
  }
}
