/**
 * Positional rendering of natural numbers in bases 2..16 with the lower-case
 * alphabet "0123456789abcdef", no sign and no leading zeros. Base 10 is what
 * Rust's `u64::to_string` produces and base 16 is Rust's `format!("{:x}", n)`.
 */
module Numerals {

  const Alphabet: string := "0123456789abcdef"

  const U64Bound: nat := 0x1_0000_0000_0000_0000

  type U64 = x: int | 0 <= x < 0x1_0000_0000_0000_0000

  function Digit(d: nat, base: nat): (c: char)
    requires d < base <= 16
    ensures c in Alphabet[..base]
  {
    Alphabet[d]
  }

  /** The value of a digit character, 16 for a character outside the alphabet. */
  function DigitValue(c: char): (d: nat)
    ensures d <= 16
    ensures d < 16 ==> Alphabet[d] == c
    ensures d == 16 ==> c !in Alphabet
  {
    if '0' <= c <= '9' then (c - '0') as nat
    else if 'a' <= c <= 'f' then (c - 'a') as nat + 10
    else 16
  }

  lemma DigitValueOfDigit(d: nat, base: nat)
    requires d < base <= 16
    ensures DigitValue(Digit(d, base)) == d
  {
  }

  function Render(n: nat, base: nat): (s: string)
    requires 2 <= base <= 16
    decreases n
  {
    if n < base then [Digit(n, base)] else Render(n / base, base) + [Digit(n % base, base)]
  }

  /** Reads a string of digits, most significant first. */
  function Parse(s: string, base: nat): nat
    decreases |s|
  {
    if s == [] then 0 else Parse(s[..|s| - 1], base) * base + DigitValue(s[|s| - 1])
  }

  function Pow(b: nat, k: nat): nat
  {
    if k == 0 then 1 else b * Pow(b, k - 1)
  }

  /** Every rendered character is a digit of the base, and a leading `0` only renders zero. */
  lemma {:induction false} RenderWellFormed(n: nat, base: nat)
    requires 2 <= base <= 16
    ensures 1 <= |Render(n, base)|
    ensures forall i :: 0 <= i < |Render(n, base)| ==> Render(n, base)[i] in Alphabet[..base]
    ensures Render(n, base)[0] == '0' <==> n == 0
    decreases n
  {
    if n >= base {
      var q := n / base;
      DivLess(n, base);
      DivPositive(n, base);
      RenderWellFormed(q, base);
      var d := Digit(n % base, base);
      assert Render(n, base) == Render(q, base) + [d];
      assert Render(n, base)[0] == Render(q, base)[0];
    }
  }

  /** Parsing a rendered number gives the number back. */
  lemma {:induction false} ParseRender(n: nat, base: nat)
    requires 2 <= base <= 16
    ensures Parse(Render(n, base), base) == n
    decreases n
  {
    if n < base {
      assert Render(n, base) == [Digit(n, base)];
      ParseSingle(Digit(n, base), base);
      DigitValueOfDigit(n, base);
    } else {
      var q := Render(n / base, base);
      var d := Digit(n % base, base);
      assert Render(n, base) == q + [d];
      ParseSnoc(q, d, base);
      DivLess(n, base);
      ParseRender(n / base, base);
      DigitValueOfDigit(n % base, base);
      DivMod(n, base, Parse(q, base), DigitValue(d));
    }
  }

  lemma ParseSingle(c: char, base: nat)
    ensures Parse([c], base) == DigitValue(c)
  {
    assert [c][..0] == [];
  }

  lemma ParseSnoc(q: string, c: char, base: nat)
    ensures Parse(q + [c], base) == Parse(q, base) * base + DigitValue(c)
  {
    assert (q + [c])[..|q|] == q;
  }

  lemma DivLess(n: nat, base: nat)
    requires 2 <= base <= n
    ensures n / base < n
  {
    var q := n / base;
    assert q * base + n % base == n;
    MulMonotone(q, 2, base);
    assert q * 2 <= n;
  }

  lemma DivPositive(n: nat, base: nat)
    requires 2 <= base <= n
    ensures 1 <= n / base
  {
    var q := n / base;
    assert q * base + n % base == n;
  }

  lemma DivBelow(n: nat, base: nat, p: nat)
    requires 2 <= base && n < base * p
    ensures n / base < p
  {
    var q := n / base;
    assert q * base + n % base == n;
  }

  lemma {:induction false} MulMonotone(q: nat, a: nat, b: nat)
    requires a <= b
    ensures q * a <= q * b
  {
    if q > 0 {
      MulMonotone(q - 1, a, b);
      assert q * a == (q - 1) * a + a;
      assert q * b == (q - 1) * b + b;
    }
  }

  lemma DivMod(n: nat, base: nat, p: nat, r: nat)
    requires 2 <= base && p == n / base && r == n % base
    ensures p * base + r == n
  {
  }

  /** Distinct numbers render as distinct strings. */
  lemma RenderInjective(a: nat, b: nat, base: nat)
    requires 2 <= base <= 16
    requires Render(a, base) == Render(b, base)
    ensures a == b
  {
    ParseRender(a, base);
    ParseRender(b, base);
  }

  /** A number below base^k needs at most k digits. */
  lemma {:induction false} RenderLength(n: nat, base: nat, k: nat)
    requires 2 <= base <= 16
    requires 1 <= k && n < Pow(base, k)
    ensures |Render(n, base)| <= k
    decreases k
  {
    if n >= base {
      assert Pow(base, 1) == base;
      assert k >= 2;
      assert Pow(base, k) == base * Pow(base, k - 1);
      DivBelow(n, base, Pow(base, k - 1));
      DivLess(n, base);
      RenderLength(n / base, base, k - 1);
    }
  }

  lemma PowSixteen()
    ensures Pow(16, 16) == U64Bound
  {
    assert Pow(16, 1) == 0x10;
    assert Pow(16, 2) == 0x100;
    assert Pow(16, 3) == 0x1000;
    assert Pow(16, 4) == 0x1_0000;
    assert Pow(16, 5) == 0x10_0000;
    assert Pow(16, 6) == 0x100_0000;
    assert Pow(16, 7) == 0x1000_0000;
    assert Pow(16, 8) == 0x1_0000_0000;
    assert Pow(16, 9) == 0x10_0000_0000;
    assert Pow(16, 10) == 0x100_0000_0000;
    assert Pow(16, 11) == 0x1000_0000_0000;
    assert Pow(16, 12) == 0x1_0000_0000_0000;
    assert Pow(16, 13) == 0x10_0000_0000_0000;
    assert Pow(16, 14) == 0x100_0000_0000_0000;
    assert Pow(16, 15) == 0x1000_0000_0000_0000;
  }

  function Decimal(n: nat): string { Render(n, 10) }

  function Hex(n: nat): string { Render(n, 16) }

  /** Rust's `{:x}` rendering of a `u64`: 1 to 16 lower-case hex digits, unpadded. */
  lemma HexOfU64(n: U64)
    ensures 1 <= |Hex(n)| <= 16
    ensures forall i :: 0 <= i < |Hex(n)| ==> Hex(n)[i] in Alphabet
    ensures Hex(n)[0] == '0' <==> n == 0
    ensures Parse(Hex(n), 16) == n
  {
    RenderWellFormed(n, 16);
    PowSixteen();
    RenderLength(n, 16, 16);
    ParseRender(n, 16);
    assert Alphabet[..16] == Alphabet;
  }
}
