/** Powers of two and the bits of unbounded hashes. */
module CbhtBits {
  function Pow2(n: nat): (p: nat)
    ensures p > 0
  {
    if n == 0 then 1 else 2 * Pow2(n - 1)
  }

  /** v >> k */
  function Shr(v: nat, k: nat): nat { Quot(v, Pow2(k)) }

  function Quot(v: nat, a: nat): nat
    requires a > 0
  {
    v / a
  }

  /** v & ((1 << k) - 1) */
  function Low(v: nat, k: nat): (r: nat)
    ensures r < Pow2(k)
  {
    v % Pow2(k)
  }

  /** v & (1 << k) */
  predicate Bit(v: nat, k: nat) { Shr(v, k) % 2 == 1 }

  lemma SmallMultiple(a: int, x: int)
    requires -a < a * x < a
    ensures x == 0
  {
    if x >= 1 { assert a * x == a + a * (x - 1); MulNonNeg(a, x - 1); }
    if x <= -1 { assert a * x == -a - a * (-x - 1); MulNonNeg(a, -x - 1); }
  }

  lemma {:induction false} MulNonNeg(a: int, n: nat)
    requires a >= 0
    ensures a * n >= 0
  {
    if n > 0 { MulNonNeg(a, n - 1); assert a * n == a * (n - 1) + a; }
  }

  lemma DivUnique(v: int, a: int, q: int, r: int)
    requires v == a * q + r && 0 <= r < a
    ensures v / a == q && v % a == r
  {
    var q2, r2 := v / a, v % a;
    assert v == a * q2 + r2;
    assert a * (q2 - q) == a * q2 - a * q;
    SmallMultiple(a, q2 - q);
  }

  lemma ModOfMultiple(v: nat, a: nat, b: nat)
    requires a > 0 && b > 0
    ensures a * b > 0 && v % (a * b) % a == v % a
  {
    assert a * b > 0;
    var q, r := v / (a * b), v % (a * b);
    assert v == (a * b) * q + r;
    assert (a * b) * q == a * (b * q);
    assert r == a * (r / a) + r % a;
    assert a * (b * q) + a * (r / a) == a * (b * q + r / a);
    DivUnique(v, a, b * q + r / a, r % a);
  }

  lemma {:induction false} PowSum(a: nat, b: nat)
    ensures Pow2(a + b) == Pow2(a) * Pow2(b)
  {
    if b == 0 {
    } else {
      PowSum(a, b - 1);
      assert Pow2(a + b) == 2 * Pow2(a + b - 1);
    }
  }

  /** The low d bits are read off the low e bits, for d <= e. */
  lemma LowBits(v: nat, d: nat, e: nat)
    requires d <= e
    ensures Low(Low(v, e), d) == Low(v, d)
    ensures Pow2(d) <= Pow2(e)
  {
    PowSum(d, e - d);
    ModOfMultiple(v, Pow2(d), Pow2(e - d));
    assert Pow2(d) * Pow2(e - d) >= Pow2(d) * 1;
  }

  /** One more low bit. */
  lemma NextBit(v: nat, d: nat)
    ensures Low(v, d + 1) == Low(v, d) + if Bit(v, d) then Pow2(d) else 0
    ensures Pow2(d + 1) == 2 * Pow2(d)
  {
    var p := Pow2(d);
    var q, r := v / p, v % p;
    assert v == p * q + r;
    assert q == 2 * (q / 2) + q % 2;
    assert p * q == p * (2 * (q / 2)) + p * (q % 2);
    assert p * (2 * (q / 2)) == (2 * p) * (q / 2);
    assert p * (q % 2) == if Bit(v, d) then p else 0;
    DivUnique(v, 2 * p, q / 2, p * (q % 2) + r);
  }

  /** Bit k + 1 of a number is bit k of its half. */
  lemma HalfBit(v: nat, k: nat)
    ensures Bit(v, k + 1) == Bit(v / 2, k) && (Bit(v, 0) <==> v % 2 == 1)
  {
    var p := Pow2(k);
    var q, r := v / (2 * p), v % (2 * p);
    assert v == 2 * p * q + r;
    assert 2 * p * q == 2 * (p * q);
    assert v / 2 == p * q + r / 2;
    DivUnique(v / 2, p, q, r / 2);
  }

  /** Every number is below some power of two. */
  lemma {:induction false} BelowPow2(v: nat)
    ensures v < Pow2(v)
  {
    if v > 0 { BelowPow2(v - 1); }
  }

  /** A number with no bit from d on is its low d bits. */
  lemma NoHighBits(v: nat, d: nat)
    ensures Shr(v, d) == 0 <==> v < Pow2(d)
    ensures v < Pow2(d) ==> Low(v, d) == v
  {
    if v < Pow2(d) { DivUnique(v, Pow2(d), 0, v); }
  }

  /** Setting bit d above all bits of v. */
  lemma SetBit(v: nat, d: nat)
    requires v < Pow2(d)
    ensures Low(v + Pow2(d), d) == v && Low(v + Pow2(d), d + 1) == v + Pow2(d)
  {
    DivUnique(v + Pow2(d), Pow2(d), 1, v);
    DivUnique(v + Pow2(d), 2 * Pow2(d), 0, v + Pow2(d));
  }
}
