/** Unsigned 32-bit arithmetic and bitwise AND, written over unbounded naturals. */
module Bits {

  const U32: nat := 0x1_0000_0000

  /** The value a uint32_t expression holds when its mathematical value is n. */
  function Wrap32(n: int): (r: nat)
    ensures r < U32
    ensures 0 <= n < U32 ==> r == n
  {
    n % U32
  }

  function Pow2(k: nat): (r: nat)
    ensures r >= 1
  {
    if k == 0 then 1 else 2 * Pow2(k - 1)
  }

  /** Bitwise AND, bit by bit from the least significant end. */
  function And(a: nat, b: nat): (r: nat)
    ensures r <= a && r <= b
  {
    if a == 0 || b == 0 then 0 else (if a % 2 == 1 && b % 2 == 1 then 1 else 0) + 2 * And(a / 2, b / 2)
  }

  /** `x - 1` and `x` share no bit: the source's IS_POWER_OF_2, with uint32 wrap-around of `x - 1`. */
  predicate PowerOfTwoTest(x: nat)
  {
    And(Wrap32(x - 1), x) == 0
  }

  lemma {:induction false} Pow2Add(i: nat, j: nat)
    ensures Pow2(i + j) == Pow2(i) * Pow2(j)
  {
    if i != 0 {
      Pow2Add(i - 1, j);
      assert Pow2(i) == 2 * Pow2(i - 1);
      assert i + j - 1 == (i - 1) + j;
    }
  }

  lemma Pow2Of32()
    ensures Pow2(32) == U32
  {
    assert Pow2(8) == 256;
    Pow2Add(8, 8);
    assert Pow2(16) == 65536;
    Pow2Add(16, 16);
  }

  lemma {:induction false} Pow2Monotone(i: nat, j: nat)
    requires i <= j
    ensures Pow2(i) <= Pow2(j)
  {
    if i < j { Pow2Monotone(i, j - 1); }
  }

  lemma MulAtLeast(x: int, p: nat)
    requires x >= 1
    ensures x * p >= p
  {
    assert x * p == (x - 1) * p + p;
  }

  /** A multiple of p strictly between -p and p is zero. */
  lemma SmallMultiple(x: int, p: int)
    requires p > 0 && -p < x * p < p
    ensures x == 0
  {
    if x >= 1 {
      MulAtLeast(x, p);
    } else if x <= -1 {
      assert (-x) * p == -(x * p);
      MulAtLeast(-x, p);
    }
  }

  lemma DivMod(n: int, p: nat)
    requires p > 0
    ensures n == (n / p) * p + n % p && 0 <= n % p < p
  {
  }

  /** Euclidean division is unique. */
  lemma ModUnique(n: int, p: nat, q: int, m: int)
    requires p > 0 && n == q * p + m && 0 <= m < p
    ensures n / p == q && n % p == m
  {
    DivMod(n, p);
    var q', m' := n / p, n % p;
    assert (q - q') * p == m' - m by { assert (q - q') * p == q * p - q' * p; }
    SmallMultiple(q - q', p);
  }

  lemma ModOfSum(q: int, p: nat, r: int)
    requires p > 0
    ensures (q * p + r) % p == r % p
  {
    DivMod(r, p);
    var d, m := r / p, r % p;
    assert (q + d) * p == q * p + d * p;
    ModUnique(q * p + r, p, q + d, m);
  }

  /** Distinct integers less than p apart have distinct residues. */
  lemma ResiduesDiffer(a: int, b: int, p: nat)
    requires p > 0 && a < b < a + p
    ensures a % p != b % p
  {
    DivMod(a, p);
    DivMod(b, p);
    var qa, qb, ra, rb := a / p, b / p, a % p, b % p;
    if ra == rb {
      assert (qb - qa) * p == qb * p - qa * p;
      SmallMultiple(qb - qa, p);
    }
  }

  /** Masking with 2^k - 1 keeps the residue modulo 2^k. */
  lemma AndMask(a: nat, k: nat)
    ensures And(a, Pow2(k) - 1) == a % Pow2(k)
  {
    var q := AndMaskQuotient(a, k);
    ModUnique(a, Pow2(k), q, And(a, Pow2(k) - 1));
  }

  lemma {:induction false} AndMaskQuotient(a: nat, k: nat) returns (q: nat)
    ensures a == q * Pow2(k) + And(a, Pow2(k) - 1) && And(a, Pow2(k) - 1) < Pow2(k)
  {
    if k == 0 {
      q := a;
    } else {
      q := AndMaskQuotient(a / 2, k - 1);
      var p := Pow2(k - 1);
      AndOdd(a, p - 1);
      assert Pow2(k) - 1 == 2 * (p - 1) + 1;
      Doubled(a, p, q, And(a / 2, p - 1));
    }
  }

  lemma Doubled(a: nat, p: nat, q: nat, r: nat)
    requires a / 2 == q * p + r && r < p
    ensures a == q * (2 * p) + (a % 2 + 2 * r) && a % 2 + 2 * r < 2 * p
  {
    var m := q * p;
    assert q * (2 * p) == 2 * m;
  }

  lemma AndOdd(a: nat, b: nat)
    ensures And(a, 2 * b + 1) == a % 2 + 2 * And(a / 2, b)
  {
    var c := 2 * b + 1;
    assert c / 2 == b && c % 2 == 1;
    if a != 0 {
      assert And(a, c) == (if a % 2 == 1 && c % 2 == 1 then 1 else 0) + 2 * And(a / 2, c / 2);
    }
  }

  /** Equal residues are what a difference divisible by 2^32 means. */
  lemma EqualResidues(a: nat, b: nat)
    requires a <= b
    ensures a % U32 == b % U32 <==> (b - a) % U32 == 0
  {
  }

  /** A counter kept modulo 2^32 still selects the slot its unbounded value selects. */
  lemma SlotOfResidue(h: nat, k: nat)
    requires k <= 32
    ensures And(h % U32, Pow2(k) - 1) == h % Pow2(k)
  {
    AndMask(h % U32, k);
    Pow2Of32();
    Pow2Add(32 - k, k);
    ModOfMod(h, Pow2(32 - k), Pow2(k));
  }

  /** The slot of an unbounded counter, read off its 32-bit residue. */
  lemma SlotOfCounter(h: nat, units: nat)
    requires 1 <= units < U32 && IsPow2(units)
    ensures And(h % U32, units - 1) == h % units
  {
    var k: nat :| units == Pow2(k);
    Pow2Exponent(k);
    SlotOfResidue(h, k);
  }

  lemma SuccessorResidue(a: nat)
    ensures Wrap32(a % U32 + 1) == (a + 1) % U32
  {
    DivMod(a, U32);
    ModOfSum(a / U32, U32, a % U32 + 1);
  }

  lemma ModOfMod(h: nat, c: nat, p: nat)
    requires c > 0 && p > 0 && c * p > 0
    ensures (h % (c * p)) % p == h % p
  {
    var u := c * p;
    DivMod(h, u);
    var q, r := h / u, h % u;
    assert q * u == (q * c) * p;
    ModOfSum(q * c, p, r);
  }

  lemma {:induction false} AndSelf(a: nat)
    ensures And(a, a) == a
  {
    if a != 0 { AndSelf(a / 2); }
  }

  ghost predicate IsPow2(x: nat)
  {
    exists k: nat :: x == Pow2(k)
  }

  lemma {:induction false} AndPredecessor(x: nat)
    requires x >= 1
    ensures And(x - 1, x) == 0 <==> IsPow2(x)
  {
    if x == 1 {
      assert x == Pow2(0);
    } else if x % 2 == 1 {
      AndSelf(x / 2);
      AndOdd(x - 1, x / 2);
      forall k: nat ensures x != Pow2(k) { if k > 0 { assert Pow2(k) % 2 == 0; } }
    } else {
      var y := x / 2;
      AndPredecessor(y);
      AndShift1(x - 1, y);
      assert (x - 1) / 2 == y - 1;
      if IsPow2(y) {
        var k: nat :| y == Pow2(k);
        assert x == Pow2(k + 1);
      }
      if IsPow2(x) {
        var k: nat :| x == Pow2(k);
        assert k > 0 && y == Pow2(k - 1);
      }
    }
  }

  /** The source's test accepts exactly zero and the powers of two. */
  lemma PowerOfTwoTestExact(x: nat)
    requires x < U32
    ensures PowerOfTwoTest(x) <==> x == 0 || IsPow2(x)
  {
    if x > 0 {
      AndPredecessor(x);
      assert Wrap32(x - 1) == x - 1;
    }
  }

  /** A power of two that fits in 32 bits has its exponent below 32. */
  lemma Pow2Exponent(k: nat)
    requires Pow2(k) < U32
    ensures k < 32
  {
    if k >= 32 {
      Pow2Of32();
      Pow2Monotone(32, k);
    }
  }

  /** Clearing the low six bits of a uint32 rounds down to a multiple of 64. */
  lemma AlignDown64(n: nat)
    requires n < U32
    ensures And(n, U32 - 64) == n - n % 64
  {
    AndShift6(n, U32 / 64 - 1);
    Pow2Of32();
    Pow2Add(26, 6);
    assert Pow2(6) == 64;
    assert U32 / 64 == Pow2(26);
    AndMask(n / 64, 26);
    assert n / 64 < U32 / 64;
  }

  lemma AndShift6(a: nat, b: nat)
    ensures And(a, 64 * b) == 64 * And(a / 64, b)
  {
    hide And;
    AndShift3(a, 8 * b);
    AndShift3(a / 8, b);
    assert a / 8 / 8 == a / 64;
  }

  lemma AndShift3(a: nat, b: nat)
    ensures And(a, 8 * b) == 8 * And(a / 8, b)
  {
    hide And;
    AndShift1(a, 4 * b);
    AndShift1(a / 2, 2 * b);
    AndShift1(a / 4, b);
    assert a / 2 / 2 == a / 4 && a / 4 / 2 == a / 8;
    assert 8 * b == 2 * (4 * b) && 4 * b == 2 * (2 * b);
  }

  lemma {:induction false} AndShift1(a: nat, b: nat)
    ensures And(a, 2 * b) == 2 * And(a / 2, b)
  {
    var c := 2 * b;
    assert c / 2 == b && c % 2 == 0;
    if a != 0 && b != 0 {
      assert And(a, c) == 2 * And(a / 2, c / 2);
    } else {
      assert And(a, c) == 0;
    }
  }
}
