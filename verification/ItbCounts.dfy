/** What the header of an ITB knows of its ITEs, and when that knowledge lasts:
    allocation and release seen only through the set of live ITE numbers, the
    capacity, and the counters max_offset, len and entries. */
module ItbCounts {
  import opened Common

  datatype Counts = Counts(live: set<nat>, max: int, len: nat, entries: int)

  /** __ite_unlink on ITE e. */
  function DelFrom(c: Counts, e: nat): Counts {
    Counts(c.live - {e},
           if c.entries - 1 == 0 then 0 else if c.max == e then c.max - 1 else c.max,
           c.len, c.entries - 1)
  }

  /** itb_add_ite for ITE nr. */
  function AddTo(c: Counts, nr: nat): Counts {
    Counts(c.live + {nr}, if c.max <= nr then nr else c.max, if c.max <= nr then nr + 1 else c.len, c.entries + 1)
  }

  /** The allocator picks the least free ITE. */
  ghost predicate FirstZero(live: set<nat>, nr: nat) { nr !in live && forall x: nat | x < nr :: x in live }

  ghost predicate CanAdd(c: Counts, cap: nat, nr: nat) { c.entries + 1 <= cap && nr < cap && FirstZero(c.live, nr) }

  ghost predicate Moves(c: Counts, c': Counts, cap: nat) {
    || (exists e: nat :: e in c.live && c' == DelFrom(c, e))
    || (exists nr: nat :: CanAdd(c, cap, nr) && c' == AddTo(c, nr))
  }

  /** Every live ITE lies inside len. */
  ghost predicate Covered(c: Counts) { forall e | e in c.live :: e < c.len }

  /** What holds of every header and every bitmap. */
  ghost predicate Ranged(c: Counts, cap: nat) {
    cap > 0 && c.max <= c.len && forall e | e in c.live :: e < cap
  }

  // -------------------------------------------------------- the condition

  /** The largest number up to m that is not live, or -1. */
  ghost function Gap(live: set<nat>, m: int): (g: int)
    ensures g <= m || g == -1
    ensures g >= 0 ==> g !in live
    ensures forall x: nat | g < x <= m :: x in live
    ensures g >= -1
    decreases m + 1
  {
    if m < 0 then -1 else if m !in live then m else Gap(live, m - 1)
  }

  ghost function Floor(live: set<nat>, m: int): nat { if Gap(live, m) < 0 then 0 else Gap(live, m) }

  /** entries is so far ahead of the live ITEs that no add gets down to max_offset while an ITE is above it. */
  ghost predicate Blocked(c: Counts, cap: nat) {
    Floor(c.live, c.max) + (c.entries - |c.live|) + 2 > cap
  }

  /** No live ITE is above max_offset, which counts as 0 if it is negative. */
  ghost predicate Topped(c: Counts) { forall e | e in c.live :: e == 0 || e <= c.max }

  /** The guard on a header: every live ITE is inside len, entries does not lag
      behind them, and none is above max_offset unless adds are blocked. */
  ghost predicate Lasting(c: Counts, cap: nat) {
    Covered(c) && !(1 <= |c.live| - c.entries < cap) && (Topped(c) || Blocked(c, cap))
  }

  // --------------------------------------------------------- it is kept

  lemma LiveFits(c: Counts, cap: nat, x: nat)
    requires Ranged(c, cap)
    ensures |c.live| <= cap && (x < cap && x !in c.live ==> |c.live| < cap)
  {
    Subset(c.live, Below(cap));
    if x < cap && x !in c.live { Subset(c.live, Below(cap) - {x}); }
  }

  lemma GapMono(live: set<nat>, live': set<nat>, m: int)
    requires live' <= live
    ensures Gap(live', m) >= Gap(live, m)
  {
    var g := Gap(live, m);
    if g >= 0 { assert g !in live'; }
  }

  lemma DelKeeps(c: Counts, cap: nat, e: nat)
    requires Ranged(c, cap) && Lasting(c, cap) && e in c.live
    ensures Ranged(DelFrom(c, e), cap) && Lasting(DelFrom(c, e), cap)
  {
    var d := DelFrom(c, e);
    LiveFits(d, cap, e);
    assert |d.live| == |c.live| - 1;
    if d.entries == 0 {
      assert d.live == {};
    } else if Topped(c) {
      assert Topped(d);
    } else {
      DelKeepsBlocked(c, cap, e);
    }
  }

  lemma DelKeepsBlocked(c: Counts, cap: nat, e: nat)
    requires Ranged(c, cap) && Blocked(c, cap) && e in c.live && c.entries != 1
    ensures Blocked(DelFrom(c, e), cap)
  {
    var d := DelFrom(c, e);
    assert |d.live| == |c.live| - 1;
    GapMono(c.live, d.live, d.max);
    var g := Gap(c.live, c.max);
    assert Gap(c.live, d.max) == g || d.max == c.max;
  }

  lemma AddKeeps(c: Counts, cap: nat, nr: nat)
    requires Ranged(c, cap) && Lasting(c, cap) && CanAdd(c, cap, nr)
    ensures Ranged(AddTo(c, nr), cap) && Lasting(AddTo(c, nr), cap)
  {
    var d := AddTo(c, nr);
    assert |d.live| == |c.live| + 1;
    if !Topped(c) {
      var e :| e in c.live && e != 0 && e > c.max;
      AddWhileBlocked(c, cap, nr, e);
    }
  }

  /** While adds are blocked an add stays below the gap. */
  lemma AddWhileBlocked(c: Counts, cap: nat, nr: nat, e: nat)
    requires Ranged(c, cap) && Covered(c) && Blocked(c, cap) && CanAdd(c, cap, nr) && e in c.live && e > c.max
    ensures nr < Gap(c.live, c.max) && Blocked(AddTo(c, nr), cap) && AddTo(c, nr).max == c.max
  {
    var g, d := Gap(c.live, c.max), AddTo(c, nr);
    assert |d.live| == |c.live| + 1;
    if g < 0 {
      Subset({e}, c.live);
    } else if nr >= g {
      assert Below(g) + {e} <= c.live;
      Subset(Below(g) + {e}, c.live);
    } else {
      assert g !in d.live;
      assert Gap(d.live, c.max) >= g;
    }
  }

  ghost predicate Path(cs: seq<Counts>, cap: nat) {
    cs != [] && forall k | 0 <= k < |cs| - 1 :: Moves(cs[k], cs[k + 1], cap)
  }

  lemma MoveKeeps(c: Counts, c': Counts, cap: nat)
    requires Ranged(c, cap) && Lasting(c, cap) && Moves(c, c', cap)
    ensures Ranged(c', cap) && Lasting(c', cap)
  {
    hide Lasting, Ranged;
    if e: nat :| e in c.live && c' == DelFrom(c, e) {
      DelKeeps(c, cap, e);
    } else {
      var nr: nat :| CanAdd(c, cap, nr) && c' == AddTo(c, nr);
      AddKeeps(c, cap, nr);
    }
  }

  lemma {:induction false} LastingIsCovered(cs: seq<Counts>, cap: nat, k: nat)
    requires Path(cs, cap) && k < |cs| && Ranged(cs[0], cap) && Lasting(cs[0], cap)
    ensures Ranged(cs[k], cap) && Lasting(cs[k], cap)
  {
    if k > 0 {
      LastingIsCovered(cs, cap, k - 1);
      assert Moves(cs[k - 1], cs[k], cap);
      MoveKeeps(cs[k - 1], cs[k], cap);
    }
  }

  // ------------------------------------------------- and without it, a loss

  ghost predicate Lossy(c: Counts, cap: nat) {
    exists cs: seq<Counts> :: Path(cs, cap) && cs[0] == c && !Covered(cs[|cs| - 1])
  }

  lemma LossyNow(c: Counts, cap: nat)
    requires !Covered(c)
    ensures Lossy(c, cap)
  {
    assert Path([c], cap);
  }

  lemma LossyNext(c: Counts, c': Counts, cap: nat)
    requires Moves(c, c', cap) && Lossy(c', cap)
    ensures Lossy(c, cap)
  {
    var cs: seq<Counts> :| Path(cs, cap) && cs[0] == c' && !Covered(cs[|cs| - 1]);
    var ds := [c] + cs;
    forall k | 0 <= k < |ds| - 1 ensures Moves(ds[k], ds[k + 1], cap) {
      if k > 0 { assert Moves(cs[k - 1], cs[k], cap); }
    }
    assert Path(ds, cap);
  }

  lemma LossyDel(c: Counts, e: nat, cap: nat)
    requires e in c.live && Lossy(DelFrom(c, e), cap)
    ensures Lossy(c, cap)
  {
    LossyNext(c, DelFrom(c, e), cap);
  }

  lemma LossyAdd(c: Counts, nr: nat, cap: nat)
    requires CanAdd(c, cap, nr) && Lossy(AddTo(c, nr), cap)
    ensures Lossy(c, cap)
  {
    LossyNext(c, AddTo(c, nr), cap);
  }

  lemma {:induction false} LeastFree(live: set<nat>, x: nat) returns (nr: nat)
    requires x !in live
    ensures FirstZero(live, nr) && nr <= x
  {
    nr := 0;
    while nr in live
      invariant nr <= x && forall y: nat | y < nr :: y in live
      decreases x - nr
    {
      nr := nr + 1;
    }
  }

  lemma {:induction false} Least(live: set<nat>) returns (d: nat)
    requires live != {}
    ensures d in live && forall e | e in live :: d <= e
  {
    var x :| x in live;
    d := 0;
    while d !in live
      invariant d <= x && forall y: nat | y < d :: y !in live
      decreases x - d
    {
      d := d + 1;
    }
  }

  /** entries runs out while ITEs are left: max_offset falls to 0, and the next add cuts len. */
  lemma {:induction false} LaggingLoses(c: Counts, cap: nat)
    requires Ranged(c, cap) && 1 <= |c.live| - c.entries < cap
    ensures Lossy(c, cap)
    decreases if c.entries >= 1 then c.entries else cap + 1 - c.entries
  {
    hide Lossy, Moves;
    if c.entries == 1 {
      var d := Least(c.live);
      var c1 := DelFrom(c, d);
      assert |c1.live| == |c.live| - 1;
      var nr := LeastFree(c1.live, d);
      var e :| e in c1.live;
      assert !Covered(AddTo(c1, nr)) by { assert e in AddTo(c1, nr).live; }
      LossyNow(AddTo(c1, nr), cap);
      LossyAdd(c1, nr, cap);
      LossyDel(c, d, cap);
    } else if c.entries > 1 {
      var e :| e in c.live;
      assert |DelFrom(c, e).live| == |c.live| - 1;
      LaggingLoses(DelFrom(c, e), cap);
      LossyDel(c, e, cap);
    } else {
      var x := FreeBelow(c.live, cap);
      var nr := LeastFree(c.live, x);
      assert |AddTo(c, nr).live| == |c.live| + 1;
      if !Covered(AddTo(c, nr)) { LossyNow(AddTo(c, nr), cap); } else { LaggingLoses(AddTo(c, nr), cap); }
      LossyAdd(c, nr, cap);
    }
  }

  lemma FreeBelow(live: set<nat>, cap: nat) returns (x: nat)
    requires |live| < cap
    ensures x < cap && x !in live
  {
    if forall y: nat | y < cap :: y in live { Subset(Below(cap), live); }
    x :| x < cap && x !in live;
  }

  /** An ITE above max_offset: everything else is deleted, and the adds that follow cut len. */
  lemma {:induction false} UntoppedLoses(c: Counts, cap: nat, e: nat)
    requires Ranged(c, cap) && e in c.live && e > 0 && e > c.max
    requires !(1 <= |c.live| - c.entries < cap) && !Blocked(c, cap)
    ensures Lossy(c, cap)
    decreases |c.live|
  {
    hide Lossy, Moves;
    if x :| x in c.live && x != e && (x == c.max || c.max !in c.live) {
      var d := DelFrom(c, x);
      assert |d.live| == |c.live| - 1;
      LiveFits(d, cap, x);
      Subset({e}, d.live);
      DelUnblocks(c, cap, x, e);
      UntoppedLoses(d, cap, e);
      LossyDel(c, x, cap);
    } else {
      assert c.live == {e} by { assert forall x | x in c.live :: x == e; }
      FillLoses(c, cap, e, 0);
    }
  }

  lemma DelUnblocks(c: Counts, cap: nat, x: nat, e: nat)
    requires Ranged(c, cap) && x in c.live && e in c.live && x != e && e > c.max && c.entries != 1
    requires !Blocked(c, cap) && (x == c.max || c.max !in c.live)
    ensures !Blocked(DelFrom(c, x), cap)
  {
    var d := DelFrom(c, x);
    assert |d.live| == |c.live| - 1;
  }

  lemma BelowAnd(n: nat, e: nat)
    requires n <= e
    ensures |Below(n) + {e}| == n + 1 && (n < e ==> FirstZero(Below(n) + {e}, n))
  {
    assert Below(n) * {e} == {};
  }

  /** The add that takes ITE n when it is the least free one. */
  lemma FillAdds(c: Counts, cap: nat, e: nat, n: nat)
    requires Ranged(c, cap) && c.live == Below(n) + {e} && e > n && e > c.max && (n == 0 || n <= c.max)
    requires (if c.max < 0 then 0 else c.max) + (c.entries - |c.live|) + 2 <= cap
    ensures var d := AddTo(c, n);
            && CanAdd(c, cap, n) && d.live == Below(n + 1) + {e}
            && (if c.max <= n then !Covered(d) else d.max == c.max && d.entries - |d.live| == c.entries - |c.live| && Ranged(d, cap))
  {
    hide CanAdd, Ranged;
    BelowAnd(n, e);
    BelowAnd(n + 1, e);
    assert AddTo(c, n).live == Below(n + 1) + {e};
    assert e in AddTo(c, n).live;
    FillCanAdd(c, cap, e, n);
  }

  lemma FillCanAdd(c: Counts, cap: nat, e: nat, n: nat)
    requires Ranged(c, cap) && c.live == Below(n) + {e} && e > n && e > c.max && (n == 0 || n <= c.max)
    requires (if c.max < 0 then 0 else c.max) + (c.entries - |c.live|) + 2 <= cap
    ensures CanAdd(c, cap, n) && (c.max > n ==> Ranged(AddTo(c, n), cap))
  {
    BelowAnd(n, e);
    assert e in c.live;
  }

  /** Only e and the first n ITEs are live, n is not above max_offset's floor. */
  lemma {:induction false} FillLoses(c: Counts, cap: nat, e: nat, n: nat)
    requires Ranged(c, cap) && c.live == Below(n) + {e} && e > n && e > c.max && (n == 0 || n <= c.max)
    requires (if c.max < 0 then 0 else c.max) + (c.entries - |c.live|) + 2 <= cap
    ensures Lossy(c, cap)
    decreases e - n
  {
    hide Lossy, Moves, AddTo, Ranged, CanAdd, Covered;
    var d := AddTo(c, n);
    FillAdds(c, cap, e, n);
    if c.max <= n {
      LossyNow(d, cap);
    } else {
      FillLoses(d, cap, e, n + 1);
    }
    LossyAdd(c, n, cap);
  }

  /** The ITEs stay inside len through every sequence of adds and deletes exactly
      if the header is lasting. */
  lemma LastingIff(c: Counts, cap: nat)
    requires Ranged(c, cap)
    ensures Lossy(c, cap) <==> !Lasting(c, cap)
  {
    if Lasting(c, cap) {
      forall cs: seq<Counts> | Path(cs, cap) && cs[0] == c ensures Covered(cs[|cs| - 1]) {
        LastingIsCovered(cs, cap, |cs| - 1);
      }
    } else if !Covered(c) {
      LossyNow(c, cap);
    } else if 1 <= |c.live| - c.entries < cap {
      LaggingLoses(c, cap);
    } else {
      var e :| e in c.live && e != 0 && e > c.max;
      UntoppedLoses(c, cap, e);
    }
  }
}
