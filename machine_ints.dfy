// Fixed-width unsigned integers of the firmware, as subsets of int.
// Arithmetic stays unbounded; every place where the C code truncates or
// wraps writes the modulus out explicitly.
module MachineInts {
  const Two8: int := 0x100
  const Two16: int := 0x1_0000
  const Two32: int := 0x1_0000_0000

  type u8 = x: int | 0 <= x < Two8
  type u16 = x: int | 0 <= x < Two16
  type u32 = x: int | 0 <= x < Two32

  datatype Option<T> = None | Some(value: T)

  /** m to the power n over the unbounded integers. */
  function Power(m: nat, n: nat): (r: nat)
    ensures m > 0 ==> r > 0
  {
    if n == 0 then 1 else m * Power(m, n - 1)
  }

  /** Floor division is monotone in the dividend. */
  lemma DivMonotone(x: nat, y: nat, d: nat)
    requires x <= y && d > 0
    ensures x / d <= y / d
  {
    var q1, q2 := x / d, y / d;
    assert q1 * d <= x && y < (q2 + 1) * d;
    MulMonotone(q2 + 1, q1, d);
  }

  lemma MulMonotone(a: int, b: int, d: nat)
    ensures a <= b ==> a * d <= b * d
  {
    assert b * d == a * d + (b - a) * d;
  }

  /** Quotient and remainder are determined by the division equation. */
  lemma DivModUnique(a: int, p: int, q: int, r: int)
    requires p > 0 && a == q * p + r && 0 <= r < p
    ensures a / p == q && a % p == r
  {
    var d := a / p - q;
    assert d * p == r - a % p;
    if d >= 1 {
      MulMonotone(1, d, p);
    } else if d <= -1 {
      MulMonotone(d, -1, p);
    }
  }

  /** Counting one more moves the remainder one step around the ring. */
  lemma ModSucc(a: nat, p: nat)
    requires p > 0
    ensures (a + 1) % p == if a % p + 1 == p then 0 else a % p + 1
  {
    var q, r := a / p, a % p;
    if r + 1 == p {
      DivModUnique(a + 1, p, q + 1, 0);
    } else {
      DivModUnique(a + 1, p, q, r + 1);
    }
  }

  /** Dividing by a product is dividing twice. */
  lemma DivDiv(n: nat, a: nat, b: nat)
    requires a > 0 && b > 0
    ensures n / (a * b) == (n / a) / b
  {
    var q, r2, r1 := (n / a) / b, (n / a) % b, n % a;
    assert n == (q * b + r2) * a + r1;
    assert (q * b + r2) * a == q * (a * b) + r2 * a;
    MulMonotone(r2, b - 1, a);
    MulMonotone(0, r2, a);
    assert (b - 1) * a == a * b - a;
    DivModUnique(n, a * b, q, r2 * a + r1);
  }

  /** The remainder modulo b * m splits into the low digit and the next ones. */
  lemma ModMulSplit(n: nat, b: nat, m: nat)
    requires b > 0 && m > 0
    ensures (n / b % m) * b + n % b == n % (b * m)
  {
    var q, r2, r1 := (n / b) / m, (n / b) % m, n % b;
    assert n == (q * m + r2) * b + r1;
    assert (q * m + r2) * b == q * (b * m) + r2 * b;
    MulMonotone(r2, m - 1, b);
    MulMonotone(0, r2, b);
    assert (m - 1) * b == b * m - b;
    DivModUnique(n, b * m, q, r2 * b + r1);
  }

  /** Reducing a factor before a wrapping multiplication changes nothing. */
  lemma ModMulMod(a: nat, m: nat, modulus: nat)
    requires modulus > 0
    ensures (a % modulus * m) % modulus == (a * m) % modulus
  {
    var t, s := a / modulus, a % modulus;
    var u, v := (s * m) / modulus, (s * m) % modulus;
    assert a * m == (t * modulus + s) * m;
    assert (t * modulus + s) * m == (t * m + u) * modulus + v;
    DivModUnique(a * m, modulus, t * m + u, v);
  }

  /** A common factor comes out of a remainder. */
  lemma MulModFactor(p: nat, q: nat, r: nat)
    requires p > 0 && r > 0
    ensures (p * q) % (p * r) == p * (q % r)
  {
    var d, m := q / r, q % r;
    assert p * q == p * (d * r + m);
    assert p * (d * r + m) == d * (p * r) + p * m;
    MulMonotone(m, r - 1, p);
    MulMonotone(0, m, p);
    assert (r - 1) * p == p * r - p;
    DivModUnique(p * q, p * r, d, p * m);
  }

  lemma PowerAdd(b: nat, i: nat, j: nat)
    ensures Power(b, i + j) == Power(b, i) * Power(b, j)
  {
    if i > 0 {
      PowerAdd(b, i - 1, j);
      assert Power(b, i + j) == b * Power(b, (i - 1) + j);
      MulAssoc(b, Power(b, i - 1), Power(b, j));
    }
  }

  lemma MulAssoc(a: int, b: int, c: int)
    ensures a * (b * c) == (a * b) * c
  {
  }

  lemma PowerMonotone(b: nat, i: nat, j: nat)
    requires b > 0 && i <= j
    ensures Power(b, i) <= Power(b, j)
  {
    if i < j {
      PowerMonotone(b, i, j - 1);
      MulMonotone(1, b, Power(b, j - 1));
    }
  }

  lemma TwoToThe32()
    ensures Power(2, 32) == Two32
  {
    assert Power(2, 8) == 256;
    PowerAdd(2, 8, 8);
    PowerAdd(2, 16, 16);
  }

  lemma TenPowerSplits(k: nat)
    ensures Power(10, k) == Power(2, k) * Power(5, k)
  {
    if k > 0 {
      TenPowerSplits(k - 1);
      assert 10 * (Power(2, k - 1) * Power(5, k - 1)) == (2 * Power(2, k - 1)) * (5 * Power(5, k - 1));
    }
  }

  lemma FivePowerOdd(k: nat)
    ensures Power(5, k) % 2 == 1
  {
    if k > 0 {
      FivePowerOdd(k - 1);
      var h := Power(5, k - 1) / 2;
      assert Power(5, k) == 5 * (2 * h + 1);
    }
  }

  /** An odd number stays odd modulo an even one. */
  lemma OddModEven(q: nat, r: nat)
    requires q % 2 == 1 && r > 0 && r % 2 == 0
    ensures (q % r) % 2 == 1
  {
    var h, d, m := r / 2, q / r, q % r;
    assert r == 2 * h;
    assert q == d * r + m;
    var x := h * d;
    assert d * r == 2 * x;
    assert m == q - 2 * x;
    DivModUnique(q, 2, q / 2, 1);
    DivModUnique(m, 2, q / 2 - x, 1);
  }

  /**
   * 10^k is not a multiple of 2^32 below k = 32: its power of two is only
   * 2^k, so a uint32_t holding 10^k (mod 2^32) is never zero.
   */
  lemma TenPowerModNonZero(k: nat)
    requires k < 32
    ensures Power(10, k) % Two32 != 0
  {
    var p, q, r := Power(2, k), Power(5, k), Power(2, 32 - k);
    TenPowerSplits(k);
    TwoPowerSplits(k);
    FivePowerOdd(k);
    TwoPowerEven(32 - k);
    OddTimesNotMultiple(p, q, r, Power(10, k), Two32);
  }

  lemma TwoPowerEven(n: nat)
    requires n > 0
    ensures Power(2, n) % 2 == 0
  {
    assert Power(2, n) == 2 * Power(2, n - 1);
  }

  /** p times an odd number is not a multiple of p times an even one. */
  lemma OddTimesNotMultiple(p: nat, q: nat, r: nat, a: nat, b: nat)
    requires p > 0 && r > 0 && q % 2 == 1 && r % 2 == 0
    requires a == p * q && b == p * r
    ensures a % b != 0
  {
    MulModFactor(p, q, r);
    OddModEven(q, r);
    MulMonotone(1, q % r, p);
  }

  /** 2^32 is 2^k times 2^(32 - k). */
  lemma TwoPowerSplits(k: nat)
    requires k <= 32
    ensures Two32 == Power(2, k) * Power(2, 32 - k)
  {
    TwoToThe32();
    PowerAdd(2, k, 32 - k);
  }
}
