/** Powers of two, the logical right shift of a non-negative integer, and
    the monotonicity of products used with them. */
module Bits {

  function Pow2(n: nat): (p: nat)
    ensures p >= 1
  {
    if n == 0 then 1 else 2 * Pow2(n - 1)
  }

  lemma Pow2Table()
    ensures Pow2(4) == 16 && Pow2(8) == 256 && Pow2(12) == 4096 && Pow2(16) == 65536
  {
    assert Pow2(1) == 2;
    assert Pow2(2) == 4;
    assert Pow2(3) == 8;
    assert Pow2(4) == 16;
    assert Pow2(5) == 32;
    assert Pow2(6) == 64;
    assert Pow2(7) == 128;
    assert Pow2(8) == 256;
    assert Pow2(9) == 512;
    assert Pow2(10) == 1024;
    assert Pow2(11) == 2048;
    assert Pow2(12) == 4096;
    assert Pow2(13) == 8192;
    assert Pow2(14) == 16384;
    assert Pow2(15) == 32768;
  }

  /** `x >> s`: s halvings, each dropping the lowest bit. */
  function Shr(x: nat, s: nat): nat
  {
    if s == 0 then x else Shr(x, s - 1) / 2
  }

  /** Shifting by m + n is shifting by m, then by n. */
  lemma {:induction false} ShrAdd(x: nat, m: nat, n: nat)
    ensures Shr(x, m + n) == Shr(Shr(x, m), n)
    decreases n
  {
    if n > 0 {
      ShrAdd(x, m, n - 1);
    }
  }

  lemma ShrFour(x: nat)
    ensures Shr(x, 4) == x / 16
  {
    var a, r := x / 16, x % 16;
    assert x == 16 * a + r;
    assert Shr(x, 1) == 8 * a + r / 2;
    assert Shr(x, 2) == 4 * a + r / 4;
    assert Shr(x, 3) == 2 * a + r / 8;
  }

  /** A value below 2^(k + s) shifted right by s is below 2^k. */
  lemma {:induction false} ShrBelow(x: nat, k: nat, s: nat)
    requires x < Pow2(k + s)
    ensures Shr(x, s) < Pow2(k)
    decreases s
  {
    if s > 0 {
      ShrBelow(x, k + 1, s - 1);
    }
  }

  /** A product grows with its left factor. */
  lemma {:induction false} MulMono(a: int, b: int, s: nat)
    requires a <= b
    ensures a * s <= b * s
    decreases s
  {
    if s > 0 {
      MulMono(a, b, s - 1);
      assert a * s == a * (s - 1) + a && b * s == b * (s - 1) + b;
    }
  }
}
