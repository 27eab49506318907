/** Unsigned machine arithmetic used by the loop engine: powers of two, the
    bitwise AND of two `size_t` values, and the mask `N & ~(b - 1)` that the
    loop tiers use to round N down to a multiple of a block size b. */
module Arith {

  /** 2^64: every `size_t` value is below it. */
  function Word(): nat { 0x1_0000_0000_0000_0000 }

  predicate IsPowerOfTwo(m: nat)
    decreases m
  {
    m == 1 || (m >= 2 && m % 2 == 0 && IsPowerOfTwo(m / 2))
  }

  /** Bitwise AND of two unsigned values, bit by bit from the least significant. */
  function BitAnd(a: nat, b: nat): nat
    decreases a
  {
    if a == 0 || b == 0 then 0
    else 2 * BitAnd(a / 2, b / 2) + (if a % 2 == 1 && b % 2 == 1 then 1 else 0)
  }

  /** `~x` on `size_t`. */
  function Complement(x: nat): nat
    requires x < Word()
  {
    Word() - 1 - x
  }

  /** `N & ~(block - 1)` on `size_t`, the loop bound the tiers compute. */
  function Threshold(n: nat, block: nat): nat
    requires 1 <= block <= Word()
  {
    BitAnd(n, Complement(block - 1))
  }

  // ---------------------------------------------------------------------
  // Division and remainder helpers

  lemma MulMonotone(m: int, a: int, b: int)
    requires m >= 0 && a <= b
    ensures m * a <= m * b
  {
  }

  lemma ModUnique(x: int, m: int, q: int, r: int)
    requires m > 0 && 0 <= r < m && x == m * q + r
    ensures x / m == q && x % m == r
  {
    var q0, r0 := x / m, x % m;
    assert x == m * q0 + r0;
    if q0 < q {
      MulMonotone(m, q0 + 1, q);
      assert false;
    } else if q < q0 {
      MulMonotone(m, q + 1, q0);
      assert false;
    }
  }

  lemma MultipleOfProduct(m: int, q: int)
    requires m > 0
    ensures (m * q) % m == 0 && (m * q) / m == q
  {
    ModUnique(m * q, m, q, 0);
  }

  /** Two multiples of m in increasing order are at least m apart. */
  lemma MultipleStep(x: nat, y: nat, m: nat)
    requires m > 0 && x % m == 0 && y % m == 0 && x < y
    ensures x + m <= y
  {
    var qx, qy := x / m, y / m;
    assert x == m * qx && y == m * qy;
    if qy <= qx {
      MulMonotone(m, qy, qx);
      assert false;
    }
    MulMonotone(m, qx + 1, qy);
  }

  lemma MultipleAdd(x: nat, m: nat)
    requires m > 0 && x % m == 0
    ensures (x + m) % m == 0
  {
    ModUnique(x + m, m, x / m + 1, 0);
  }

  /** The quotient brackets the dividend. */
  lemma DivBracket(x: nat, d: nat)
    requires d > 0
    ensures (x / d) * d <= x < (x / d + 1) * d
    ensures x / d <= x && (d == 1 ==> x / d == x)
  {
    var q, r := x / d, x % d;
    assert x == d * q + r && r < d;
    assert (q + 1) * d == q * d + d;
    MulMonotone(q, 1, d);
    if d == 1 {
      ModUnique(x, 1, x, 0);
    }
  }

  /** A larger divisor never gives a larger quotient. */
  lemma DivAntitone(x: nat, a: nat, b: nat)
    requires 0 < a <= b
    ensures x / b <= x / a
  {
    var qa, qb := x / a, x / b;
    DivBracket(x, a);
    DivBracket(x, b);
    if qa < qb {
      MulMonotone(a, qa + 1, qb);
      MulMonotone(qb, a, b);
      assert false;
    }
  }

  /** A multiple of k * m is a multiple of m. */
  lemma MultipleOfFactor(x: nat, k: nat, m: nat)
    requires k > 0 && m > 0 && x % (k * m) == 0
    ensures x % m == 0
  {
    var q := x / (k * m);
    assert x == (k * m) * q;
    assert x == m * (k * q);
    ModUnique(x, m, k * q, 0);
  }

  /** Splitting a remainder modulo 2h into its lowest bit and the rest. */
  lemma ModHalf(n: nat, h: nat)
    requires h >= 1
    ensures n % (2 * h) == 2 * ((n / 2) % h) + n % 2
  {
    var q, r := n / 2, n % 2;
    var t, s := q / h, q % h;
    assert n == 2 * q + r;
    assert q == h * t + s;
    assert n == (2 * h) * t + (2 * s + r);
    ModUnique(n, 2 * h, t, 2 * s + r);
  }

  // ---------------------------------------------------------------------
  // The mask

  lemma HalfIsPowerOfTwo(m: nat)
    requires IsPowerOfTwo(m) && m > 1
    ensures m == 2 * (m / 2) && IsPowerOfTwo(m / 2)
  {
  }

  lemma {:induction false} ProductIsPowerOfTwo(a: nat, b: nat)
    requires IsPowerOfTwo(a) && IsPowerOfTwo(b)
    ensures IsPowerOfTwo(a * b)
    decreases a
  {
    if a > 1 {
      HalfIsPowerOfTwo(a);
      var h := a / 2;
      var hb := h * b;
      ProductIsPowerOfTwo(h, b);
      assert a * b == 2 * hb;
      DoubleIsPowerOfTwo(hb);
    }
  }

  lemma WordIsPowerOfTwo()
    ensures IsPowerOfTwo(Word())
  {
    DoubleIsPowerOfTwo(1);
    ProductIsPowerOfTwo(2, 2);
    ProductIsPowerOfTwo(4, 4);
    ProductIsPowerOfTwo(16, 16);
    ProductIsPowerOfTwo(256, 256);
    ProductIsPowerOfTwo(65536, 65536);
    ProductIsPowerOfTwo(0x1_0000_0000, 0x1_0000_0000);
  }

  lemma {:induction false} AndAllOnes(n: nat, w: nat)
    requires n < w && IsPowerOfTwo(w)
    ensures BitAnd(n, w - 1) == n
    decreases w
  {
    if w == 1 || n == 0 {
    } else {
      var b := w - 1;
      assert b % 2 == 1 && b / 2 == w / 2 - 1;
      assert n / 2 < w / 2;
      AndAllOnes(n / 2, w / 2);
    }
  }

  lemma BitAndEvenMask(n: nat, b: nat)
    requires n > 0 && b > 0 && b % 2 == 0
    ensures BitAnd(n, b) == 2 * BitAnd(n / 2, b / 2)
  {
  }

  lemma HalveDifference(w: nat, m: nat)
    requires w % 2 == 0 && m % 2 == 0 && m <= w
    ensures (w - m) % 2 == 0 && (w - m) / 2 == w / 2 - m / 2
  {
    ModUnique(w - m, 2, w / 2 - m / 2, 0);
  }

  /** Rounding n down to a multiple of 2h, from rounding n / 2 down to a multiple of h. */
  lemma RoundDownDoubled(n: nat, h: nat, r: nat)
    requires h >= 1 && r == n / 2 - (n / 2) % h
    ensures 2 * r == n - n % (2 * h)
  {
    ModHalf(n, h);
  }

  /** Clearing the low bits below a power of two m rounds n down to a multiple of m. */
  lemma {:induction false} MaskRoundsDown(n: nat, w: nat, m: nat)
    requires n < w && IsPowerOfTwo(w) && IsPowerOfTwo(m) && m <= w
    ensures BitAnd(n, w - m) == n - n % m
    decreases m
  {
    if m == 1 {
      AndAllOnes(n, w);
      ModUnique(n, 1, n, 0);
    } else if n == 0 {
      ModUnique(0, m, 0, 0);
    } else if w == m {
      ModUnique(n, m, 0, n);
    } else {
      HalfIsPowerOfTwo(w);
      HalfIsPowerOfTwo(m);
      var n2, w2, m2 := n / 2, w / 2, m / 2;
      assert n2 < w2;
      HalveDifference(w, m);
      BitAndEvenMask(n, w - m);
      MaskRoundsDown(n2, w2, m2);
      RoundDownDoubled(n, m2, BitAnd(n2, w2 - m2));
    }
  }

  lemma DoubleIsPowerOfTwo(m: nat)
    requires IsPowerOfTwo(m)
    ensures IsPowerOfTwo(2 * m)
  {
  }

  /** n - n % b is the largest multiple of b not above n. */
  lemma RoundDown(n: nat, b: nat)
    requires b > 0
    ensures (n - n % b) % b == 0 && n - n % b <= n && n < n - n % b + b
    ensures forall x: nat {:trigger x % b} :: x % b == 0 && x <= n ==> x <= n - n % b
  {
    var t := n - n % b;
    ModUnique(t, b, n / b, 0);
    forall x: nat | x % b == 0 && x <= n
      ensures x <= t
    {
      if t < x {
        MultipleStep(t, x, b);
      }
    }
  }

  /** `N & ~(b - 1)` is the largest multiple of the power of two b not above N. */
  lemma ThresholdIsLargestMultiple(n: nat, b: nat)
    requires n < Word() && IsPowerOfTwo(b) && b <= Word()
    ensures Threshold(n, b) == n - n % b
    ensures Threshold(n, b) <= n && Threshold(n, b) % b == 0 && n < Threshold(n, b) + b
    ensures forall x: nat {:trigger x % b} :: x % b == 0 && x <= n ==> x <= Threshold(n, b)
  {
    WordIsPowerOfTwo();
    assert Complement(b - 1) == Word() - b;
    MaskRoundsDown(n, Word(), b);
    RoundDown(n, b);
  }
}
