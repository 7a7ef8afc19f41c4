/** Bitmap slices of a directory (mds/xtable.c): words, and their OR-update in place. */
module Bitmap {
  import opened Common
  import opened CbhtBits

  /** Bits that a slice answers for, and words in its array. */
  const SIZE: nat := 131072
  const WORDS: nat := 16384

  /** test_bit on an array of words. */
  predicate TestBit(words: seq<Word>, k: nat)
    requires k < 64 * |words|
  {
    Bit(words[k / 64], k % 64)
  }

  /** Bitwise or. */
  function OrBits(a: nat, b: nat): nat {
    if a == 0 && b == 0 then 0 else 2 * OrBits(a / 2, b / 2) + if a % 2 == 1 || b % 2 == 1 then 1 else 0
  }

  lemma {:induction false} OrFits(a: nat, b: nat, k: nat)
    requires a < Pow2(k) && b < Pow2(k)
    ensures OrBits(a, b) < Pow2(k)
  {
    if a != 0 || b != 0 { OrFits(a / 2, b / 2, k - 1); }
  }

  lemma Pow64()
    ensures Pow2(64) == 0x1_0000_0000_0000_0000
  {
    assert Pow2(8) == 0x100;
    PowSum(8, 8);
    PowSum(16, 16);
    PowSum(32, 32);
  }

  function Or(a: Word, b: Word): Word {
    Pow64();
    OrFits(a, b, 64);
    OrBits(a, b)
  }

  lemma OrHalves(a: nat, b: nat)
    ensures OrBits(a, b) / 2 == OrBits(a / 2, b / 2) && (OrBits(a, b) % 2 == 1 <==> a % 2 == 1 || b % 2 == 1)
  {
  }

  /** An ORed word has the bits of both. */
  lemma {:induction false} OrHasBoth(a: nat, b: nat, k: nat)
    ensures Bit(OrBits(a, b), k) <==> Bit(a, k) || Bit(b, k)
  {
    hide Bit, OrBits;
    OrHalves(a, b);
    if k == 0 {
      HalfBit(OrBits(a, b), 0);
      HalfBit(a, 0);
      HalfBit(b, 0);
    } else {
      HalfBit(OrBits(a, b), k - 1);
      HalfBit(a, k - 1);
      HalfBit(b, k - 1);
      OrHasBoth(a / 2, b / 2, k - 1);
    }
  }

  /** Words ORed one by one have the bits of both. */
  lemma OrTests(a: seq<Word>, b: seq<Word>, c: seq<Word>, k: nat)
    requires |a| == |b| == |c| && k < 64 * |a| && forall i | 0 <= i < |a| :: c[i] == Or(a[i], b[i])
    ensures TestBit(c, k) <==> TestBit(a, k) || TestBit(b, k)
  {
    hide Bit, OrBits;
    OrHasBoth(a[k / 64], b[k / 64], k % 64);
  }

  /** mds_bitmap_update: the old bitmap gains every bit of the new one and loses none. */
  method BitmapUpdate(o: array<Word>, n: array<Word>)
    requires o.Length == n.Length
    modifies o
    ensures forall k | 0 <= k < 64 * o.Length :: TestBit(o[..], k) <==> old(TestBit(o[..], k)) || old(TestBit(n[..], k))
  {
    hide Bit, TestBit, Or;
    ghost var a, b := o[..], n[..];
    var i := 0;
    while i < o.Length
      invariant 0 <= i <= o.Length
      invariant forall j | 0 <= j < i :: o[j] == Or(a[j], b[j])
      invariant forall j | i <= j < o.Length :: o[j] == a[j] && n[j] == b[j]
    {
      o[i] := Or(o[i], n[i]);
      i := i + 1;
    }
    forall k | 0 <= k < 64 * o.Length ensures TestBit(o[..], k) <==> TestBit(a, k) || TestBit(b, k) {
      OrTests(a, b, o[..], k);
    }
  }
}
