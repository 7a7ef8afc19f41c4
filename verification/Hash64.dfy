/** The multiplicative hash of include/hvfs_u.h and the ring hash built on it.
    Words are numbers below 2^64; every operation wraps around. */
module Hash64 {
  import opened Common

  const M: int := 0x1_0000_0000_0000_0000

  const GOLDEN_RATIO_PRIME_64: Word := 0x9e37fffffffc0001
  const GOLDEN_RATIO_PRIME_32: Word := 0x9e370001

  /** The number that undoes a multiplication by GOLDEN_RATIO_PRIME_64. */
  const INVERSE: Word := 0x6208001000040001

  /** The word that an integer wraps around to. */
  function Wrap(x: int): Word { x % M }

  function Mul(v: Word, c: Word): Word { Wrap(v * c) }

  /** hash_64(val, 64): shifts and adds, then a shift by 64 - 64.  A shift left
      by k is a multiplication by 2^k. */
  function Hash(val: Word): Word {
    var n1 := Wrap(val * 0x4_0000);
    var h1 := Wrap(val - n1);
    var n2 := Wrap(n1 * 0x2_0000_0000);
    var h2 := Wrap(h1 - n2);
    var n3 := Wrap(n2 * 8);
    var h3 := Wrap(h2 + n3);
    var n4 := Wrap(n3 * 8);
    var h4 := Wrap(h3 - n4);
    var n5 := Wrap(n4 * 16);
    var h5 := Wrap(h4 + n5);
    var n6 := Wrap(n5 * 4);
    Wrap(h5 + n6)
  }

  /** Two integers that differ by a multiple of 2^64 wrap around to the same word. */
  lemma WrapUnique(x: int, y: int, q: int)
    requires x == y + M * q
    ensures Wrap(x) == Wrap(y)
  {
  }

  lemma Quotient(x: int) returns (q: int)
    ensures x == Wrap(x) + M * q
  {
    q := x / M;
  }

  lemma WrapMul(x: int, c: int)
    ensures Wrap(Wrap(x) * c) == Wrap(x * c)
  {
    hide Wrap;
    var q := Quotient(x);
    assert x * c == Wrap(x) * c + M * (q * c);
    WrapUnique(x * c, Wrap(x) * c, q * c);
  }

  lemma WrapSum(x: int, y: int)
    ensures Wrap(Wrap(x) + Wrap(y)) == Wrap(x + y) && Wrap(Wrap(x) - Wrap(y)) == Wrap(x - y)
  {
    hide Wrap;
    var p := Quotient(x);
    var q := Quotient(y);
    WrapUnique(x + y, Wrap(x) + Wrap(y), p + q);
    WrapUnique(x - y, Wrap(x) - Wrap(y), p - q);
  }

  /** The shifts and adds multiply by the golden ratio prime, for every word. */
  lemma HashIsMultiply(v: Word)
    ensures Hash(v) == Mul(v, GOLDEN_RATIO_PRIME_64)
  {
    hide Wrap;
    WrapsToItself(v);
    WrapMul(v * 0x4_0000, 0x2_0000_0000);
    WrapMul(v * 0x8_0000_0000_0000, 8);
    WrapMul(v * 0x40_0000_0000_0000, 8);
    WrapMul(v * 0x200_0000_0000_0000, 16);
    WrapMul(v * 0x2000_0000_0000_0000, 4);
    WrapSum(v, v * 0x4_0000);
    WrapSum(v * -0x3_ffff, v * 0x8_0000_0000_0000);
    WrapSum(v * -0x8_0000_0003_ffff, v * 0x40_0000_0000_0000);
    WrapSum(v * 0x37_ffff_fffc_0001, v * 0x200_0000_0000_0000);
    WrapSum(v * -0x1c8_0000_0003_ffff, v * 0x2000_0000_0000_0000);
    WrapSum(v * 0x1e37_ffff_fffc_0001, v * 0x8000_0000_0000_0000);
  }

  /** Multiplying by the inverse undoes the hash, and the other way round. */
  lemma HashInverts(v: Word)
    ensures Mul(Hash(v), INVERSE) == v && Hash(Mul(v, INVERSE)) == v
  {
    HashIsMultiply(v);
    HashIsMultiply(Mul(v, INVERSE));
    MulInverse(v, GOLDEN_RATIO_PRIME_64, INVERSE);
    MulInverse(v, INVERSE, GOLDEN_RATIO_PRIME_64);
  }

  lemma MulInverse(v: Word, a: Word, b: Word)
    requires (a == GOLDEN_RATIO_PRIME_64 && b == INVERSE) || (a == INVERSE && b == GOLDEN_RATIO_PRIME_64)
    ensures Mul(Mul(v, a), b) == v
  {
    hide Wrap;
    var q := Quotient(v * a);
    var t := a * b / M;
    assert a * b == 1 + M * t;
    assert Wrap(v * a) * b == v * (a * b) - M * (q * b);
    assert v * (a * b) == v + M * (v * t);
    assert Wrap(v * a) * b == v + M * (v * t - q * b);
    WrapUnique(Wrap(v * a) * b, v, v * t - q * b);
    WrapsToItself(v);
  }

  lemma WrapsToItself(v: Word)
    ensures Wrap(v) == v
  {
  }

  /** hash_64 is a bijection on words. */
  lemma HashIsInjective(v: Word, w: Word)
    requires Hash(v) == Hash(w)
    ensures v == w
  {
    hide Hash, Mul;
    HashInverts(v);
    HashInverts(w);
  }

  /** Bitwise exclusive or. */
  function Xor(a: nat, b: nat): nat {
    if a == 0 && b == 0 then 0 else 2 * Xor(a / 2, b / 2) + (a + b) % 2
  }

  lemma XorParts(a: nat, b: nat)
    ensures Xor(a, b) / 2 == Xor(a / 2, b / 2) && Xor(a, b) % 2 == (a + b) % 2
  {
  }

  lemma SameParts(x: nat, y: nat)
    requires x / 2 == y / 2 && x % 2 == y % 2
    ensures x == y
  {
  }

  lemma ParityTwice(a: nat, b: nat, c: nat)
    requires c % 2 == (a + b) % 2
    ensures (a + c) % 2 == b % 2
  {
  }

  lemma {:induction false} XorTwice(a: nat, b: nat)
    ensures Xor(a, Xor(a, b)) == b
    decreases a + b
  {
    if a != 0 || b != 0 {
      XorTwice(a / 2, b / 2);
      hide Xor;
      XorParts(a, b);
      XorParts(a, Xor(a, b));
      ParityTwice(a, b, Xor(a, b));
      SameParts(Xor(a, Xor(a, b)), b);
    }
  }

  lemma {:induction false} XorCommutes(a: nat, b: nat)
    ensures Xor(a, b) == Xor(b, a)
  {
    if a != 0 || b != 0 { XorCommutes(a / 2, b / 2); }
  }

  /** hvfs_hash_ring: the salt is key2. */
  function HashRing(key1: Word, key2: Word): nat {
    Xor(Hash(key2), Xor(Hash(key1), GOLDEN_RATIO_PRIME_32))
  }

  /** Under one salt, distinct keys have distinct ring positions. */
  lemma RingPositionsDiffer(key1: Word, other: Word, salt: Word)
    ensures HashRing(key1, salt) == HashRing(other, salt) <==> key1 == other
  {
    hide Hash, Xor;
    if HashRing(key1, salt) == HashRing(other, salt) {
      var g := GOLDEN_RATIO_PRIME_32;
      XorTwice(Hash(salt), Xor(Hash(key1), g));
      XorTwice(Hash(salt), Xor(Hash(other), g));
      XorCommutes(Hash(key1), g);
      XorCommutes(Hash(other), g);
      XorTwice(g, Hash(key1));
      XorTwice(g, Hash(other));
      HashIsInjective(key1, other);
    }
  }

  lemma {:induction false} XorShuffle(a: nat, b: nat, c: nat)
    ensures Xor(a, Xor(b, c)) == Xor(b, Xor(a, c))
    decreases a + b + c
  {
    if a + b + c != 0 {
      XorShuffle(a / 2, b / 2, c / 2);
      hide Xor;
      XorParts(a, c);
      XorParts(b, c);
      XorParts(a, Xor(b, c));
      XorParts(b, Xor(a, c));
      ParitySwaps(a, b, c, Xor(b, c), Xor(a, c));
      SameParts(Xor(a, Xor(b, c)), Xor(b, Xor(a, c)));
    }
  }

  lemma ParitySwaps(a: nat, b: nat, c: nat, x: nat, y: nat)
    requires x % 2 == (b + c) % 2 && y % 2 == (a + c) % 2
    ensures (a + x) % 2 == (b + y) % 2
  {
  }

  /** Key and salt play the same part, a key salted with itself lies at the golden
      ratio prime, and distinct salts give distinct positions. */
  lemma RingIsSymmetric(a: Word, b: Word, c: Word)
    ensures HashRing(a, b) == HashRing(b, a)
    ensures HashRing(a, a) == 0x9e370001
    ensures HashRing(a, b) == HashRing(a, c) <==> b == c
  {
    hide Hash, Xor;
    XorShuffle(Hash(a), Hash(b), GOLDEN_RATIO_PRIME_32);
    XorShuffle(Hash(a), Hash(c), GOLDEN_RATIO_PRIME_32);
    XorTwice(Hash(a), GOLDEN_RATIO_PRIME_32);
    RingPositionsDiffer(b, c, a);
  }

  /** A key is recovered from its position and the salt. */
  lemma RingInverts(key1: Word, salt: Word)
    ensures var h := Xor(0x9e370001, Xor(Mul(salt, GOLDEN_RATIO_PRIME_64), HashRing(key1, salt)));
            h < M && Mul(h, INVERSE) == key1
  {
    hide Hash, Mul, Xor;
    HashIsMultiply(salt);
    XorTwice(Hash(salt), Xor(Hash(key1), GOLDEN_RATIO_PRIME_32));
    XorCommutes(Hash(key1), GOLDEN_RATIO_PRIME_32);
    XorTwice(GOLDEN_RATIO_PRIME_32, Hash(key1));
    HashInverts(key1);
  }

  /** hvfs_hash_cbht, where ap is the 32-bit string hash of the bytes of itbid. */
  function HashCbht(puuid: Word, ap: Word): nat { Xor(Hash(puuid), ap) }

  lemma {:induction false} XorSame(a: nat)
    ensures Xor(a, a) == 0
  {
    if a != 0 { XorSame(a / 2); }
  }

  /** Under every itbid exactly one directory has the hash 0 in the CBHT. */
  lemma OneKeyHashesToZero(puuid: Word, ap: Word)
    ensures HashCbht(puuid, ap) == 0 <==> puuid == Mul(ap, INVERSE)
  {
    hide Hash, Mul, Xor;
    HashInverts(ap);
    XorSame(ap);
    if HashCbht(puuid, ap) == 0 {
      XorTwice(Hash(puuid), ap);
      XorZero(Hash(puuid));
      HashIsInjective(puuid, Mul(ap, INVERSE));
    }
  }

  lemma {:induction false} XorZero(a: nat)
    ensures Xor(a, 0) == a
  {
    if a != 0 { XorZero(a / 2); }
  }
}
