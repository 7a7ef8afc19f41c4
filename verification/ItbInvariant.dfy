/** The full run invariant of an ITB: the shape of its index together with the
    header counters and bounds, kept by every allocation and removal.  Below
    capacity a free ITE and, when one is needed, a free index slot exist, so
    the "no zero bit" and "no free index" error exits cannot be reached. */
module ItbInvariant {
  import opened Common
  import opened ItbTable

  ghost predicate Inv(t: Tab, w: Shape) {
    Shaped(t, w) && Counted(t) && Bounded(t)
  }

  /** The head under which an allocated ITE is found. */
  ghost function HeadOf(t: Tab, w: Shape, e: nat): nat
    requires Shaped(t, w) && e < Cap(t) && t.bits[e]
  {
    assert EntryAt(t, w, e);
    w.home[w.at[e]]
  }

  /** From t to t' exactly the ITEs in `gone` were released; the others stay put. */
  ghost predicate Released(t: Tab, w: Shape, t': Tab, w': Shape, gone: set<nat>)
    requires Shaped(t, w) && Shaped(t', w')
  {
    && Cap(t') == Cap(t) && t'.ite == t.ite
    && (forall e | 0 <= e < Cap(t) :: t'.bits[e] == (t.bits[e] && e !in gone))
    && (forall e | 0 <= e < Cap(t) && t'.bits[e] :: HeadOf(t', w', e) == HeadOf(t, w, e))
  }

  // ------------------------------------------------------------- removal

  lemma UnlinkCounts(t: Tab, s: nat)
    requires Sized(t) && s < |t.index| && Used(t, s) && t.index[s].entry < Cap(t) && t.bits[t.index[s].entry]
    requires Counted(t) && Bounded(t)
    ensures Counted(Unlink(t, s)) && Bounded(Unlink(t, s))
  {
    var t', e := Unlink(t, s), t.index[s].entry;
    assert Live(t') == Live(t) - {e};
    assert Upper(t') == Upper(t) - {s};
    assert forall x | 0 <= x < Cap(t') && t'.bits[x] :: x in Live(t');
  }

  lemma RemoveHead(t: Tab, w: Shape, h: nat)
    requires Inv(t, w) && h < Cap(t) && |w.ch[h]| == 1
    ensures t.index[h].entry < Cap(t)
    ensures Inv(Unlink(t, h), UnlinkHeadShape(w, h))
    ensures Released(t, w, Unlink(t, h), UnlinkHeadShape(w, h), {t.index[h].entry})
  {
    UnlinkHeadKeepsShape(t, w, h);
    ChainSlots(t, w, h, 0);
    UnlinkCounts(t, h);
  }

  lemma RemoveLater(t: Tab, w: Shape, h: nat, k: nat)
    requires Inv(t, w) && h < Cap(t) && 1 <= k < |w.ch[h]|
    ensures w.ch[h][k - 1] < |t.index| && w.ch[h][k] < |t.index| && w.ch[h][k - 1] != w.ch[h][k]
    ensures t.index[w.ch[h][k]].entry < Cap(t)
    ensures Inv(Splice(t, w.ch[h][k - 1], w.ch[h][k]), SpliceShape(w, h, k))
    ensures Released(t, w, Splice(t, w.ch[h][k - 1], w.ch[h][k]), SpliceShape(w, h, k), {t.index[w.ch[h][k]].entry})
  {
    SpliceKeepsShape(t, w, h, k);
    ChainSlots(t, w, h, k);
    ChainSlots(t, w, h, k - 1);
    var p, s := w.ch[h][k - 1], w.ch[h][k];
    var q := if t.index[s].flag == Unique then t.index[p].(flag := Unique)
             else t.index[p].(conflict := t.index[s].conflict);
    var t1 := t.(index := t.index[p := q]);
    assert Live(t1) == Live(t) && Upper(t1) == Upper(t);
    UnlinkCounts(t1, s);
  }

  lemma SwapInChain(t: Tab, w: Shape, h: nat, i: nat, j: nat)
    requires Inv(t, w) && h < Cap(t) && i < j < |w.ch[h]|
    ensures w.ch[h][i] < |t.index| && w.ch[h][j] < |t.index|
    ensures t.index[w.ch[h][i]].entry < |w.at| && t.index[w.ch[h][j]].entry < |w.at|
    ensures Inv(Swap(t, w.ch[h][i], w.ch[h][j]), SwapShape(t, w, w.ch[h][i], w.ch[h][j]))
    ensures Released(t, w, Swap(t, w.ch[h][i], w.ch[h][j]), SwapShape(t, w, w.ch[h][i], w.ch[h][j]), {})
  {
    ChainSlots(t, w, h, i);
    ChainSlots(t, w, h, j);
    assert ChainAt(t, w, h);
    var a, b := w.ch[h][i], w.ch[h][j];
    SwapKeepsShape(t, w, a, b);
    var t' := Swap(t, a, b);
    assert Live(t') == Live(t) && Upper(t') == Upper(t);
  }

  lemma ReleasedTwice(t: Tab, w: Shape, t1: Tab, w1: Shape, t2: Tab, w2: Shape, a: set<nat>, b: set<nat>)
    requires Shaped(t, w) && Shaped(t1, w1) && Shaped(t2, w2)
    requires Released(t, w, t1, w1, a) && Released(t1, w1, t2, w2, b)
    ensures Released(t, w, t2, w2, a + b)
  {
  }

  /** The effect of deleting slot s from the chain of head h: the ITE it names
      is released if the slot is on that chain, else nothing changes. */
  ghost predicate Deleted(t: Tab, w: Shape, h: nat, s: nat, t': Tab, w': Shape)
    requires Shaped(t, w) && h < Cap(t)
  {
    && Inv(t', w')
    && (s in w.ch[h] ==> s < |t.index| && Released(t, w, t', w', {t.index[s].entry}))
    && (s !in w.ch[h] ==> t' == t && w' == w)
  }

  lemma DeletedLater(t: Tab, w: Shape, h: nat, k: nat)
    requires Inv(t, w) && h < Cap(t) && 1 <= k < |w.ch[h]|
    ensures w.ch[h][k - 1] < |t.index| && w.ch[h][k] < |t.index| && w.ch[h][k - 1] != w.ch[h][k]
    ensures t.index[w.ch[h][k]].entry < Cap(t)
    ensures Deleted(t, w, h, w.ch[h][k], Splice(t, w.ch[h][k - 1], w.ch[h][k]), SpliceShape(w, h, k))
  {
    RemoveLater(t, w, h, k);
  }

  /** Deleting the head of a longer chain: swap with its successor, then splice that one out. */
  lemma DeletedBySwap(t: Tab, w: Shape, h: nat)
    requires Inv(t, w) && h < Cap(t) && 2 <= |w.ch[h]|
    ensures w.ch[h][0] == h && w.ch[h][1] < |t.index| && h != w.ch[h][1]
    ensures t.index[h].entry < |w.at| && t.index[w.ch[h][1]].entry < |w.at|
    ensures var w1 := SwapShape(t, w, h, w.ch[h][1]);
            Deleted(t, w, h, h, Splice(Swap(t, h, w.ch[h][1]), h, w.ch[h][1]), SpliceShape(w1, h, 1))
  {
    ChainSlots(t, w, h, 0);
    ChainSlots(t, w, h, 1);
    SwapInChain(t, w, h, 0, 1);
    var n := w.ch[h][1];
    var t1, w1 := Swap(t, h, n), SwapShape(t, w, h, n);
    RemoveLater(t1, w1, h, 1);
    ReleasedTwice(t, w, t1, w1, Splice(t1, h, n), SpliceShape(w1, h, 1), {}, {t.index[h].entry});
    assert {} + {t.index[h].entry} == {t.index[h].entry};
  }

  /** From t0 to t only UNLINKED ITEs under head h were released. */
  ghost predicate Reclaimed(t0: Tab, w0: Shape, h: nat, t: Tab, w: Shape)
    requires Shaped(t0, w0)
  {
    && Inv(t, w) && Cap(t) == Cap(t0) && t.ite == t0.ite
    && (forall e | 0 <= e < Cap(t) && t.bits[e] :: t0.bits[e] && HeadOf(t, w, e) == HeadOf(t0, w0, e))
    && (forall e | 0 <= e < Cap(t) && t0.bits[e] && !t.bits[e] ::
          HeadOf(t0, w0, e) == h && t0.ite[e].state == Unlinked)
  }

  /** No UNLINKED ITE is left under head h. */
  ghost predicate Clean(t: Tab, w: Shape, h: nat)
    requires Shaped(t, w)
  {
    forall e | 0 <= e < Cap(t) && t.bits[e] && HeadOf(t, w, e) == h :: t.ite[e].state != Unlinked
  }

  lemma ReclaimMore(t0: Tab, w0: Shape, h: nat, t: Tab, w: Shape, t': Tab, w': Shape, gone: set<nat>)
    requires Shaped(t0, w0) && Reclaimed(t0, w0, h, t, w) && Inv(t', w') && Released(t, w, t', w', gone)
    requires forall e | e in gone :: e < Cap(t) && t.bits[e] && HeadOf(t, w, e) == h && t.ite[e].state == Unlinked
    ensures Reclaimed(t0, w0, h, t', w')
  {
  }

  /** The ITE named by slot k of a chain is allocated and has that chain's head. */
  lemma ChainEntry(t: Tab, w: Shape, h: nat, k: nat)
    requires Shaped(t, w) && h < Cap(t) && k < |w.ch[h]|
    ensures w.ch[h][k] < |t.index| && t.index[w.ch[h][k]].entry < Cap(t)
    ensures t.bits[t.index[w.ch[h][k]].entry] && HeadOf(t, w, t.index[w.ch[h][k]].entry) == h
  {
    ChainSlots(t, w, h, k);
  }

  /** Slot k of the chain of head h names an ITE that is not UNLINKED. */
  ghost predicate Kept(t: Tab, c: seq<nat>, k: nat)
    requires k < |c|
  {
    c[k] < |t.index| && t.index[c[k]].entry < |t.ite| && t.ite[t.index[c[k]].entry].state != Unlinked
  }

  lemma AllKept(t: Tab, w: Shape, h: nat)
    requires Shaped(t, w) && h < Cap(t)
    requires forall k | 0 <= k < |w.ch[h]| :: Kept(t, w.ch[h], k)
    ensures Clean(t, w, h)
  {
    ChainNames(t, w, h);
    forall e | 0 <= e < Cap(t) && t.bits[e] && HeadOf(t, w, e) == h
      ensures t.ite[e].state != Unlinked
    {
      var es := Entries(t, w.ch[h]);
      var k :| 0 <= k < |es| && es[k] == e;
      assert Kept(t, w.ch[h], k);
    }
  }

  /** The state of a sweep along the chain of head h: the first j slots were
      kept, except the head itself while a swap for it is pending. */
  ghost predicate Sweep(t0: Tab, w0: Shape, h: nat, t: Tab, w: Shape, needswap: bool, j: nat)
    requires Shaped(t0, w0) && h < Cap(t0)
  {
    && Reclaimed(t0, w0, h, t, w) && j <= |w.ch[h]|
    && (needswap ==> j == 1 && !Kept(t, w.ch[h], 0))
    && forall i | (if needswap then 1 else 0) <= i < j :: Kept(t, w.ch[h], i)
  }

  lemma SweepFacts(t0: Tab, w0: Shape, h: nat, t: Tab, w: Shape, needswap: bool, j: nat)
    requires Shaped(t0, w0) && h < Cap(t0) && Sweep(t0, w0, h, t, w, needswap, j)
    ensures Inv(t, w) && Reclaimed(t0, w0, h, t, w) && Cap(t) == Cap(t0) && j <= |w.ch[h]|
    ensures needswap ==> j == 1
    ensures !needswap && j == |w.ch[h]| ==> Clean(t, w, h)
  {
    if !needswap && j == |w.ch[h]| { AllKept(t, w, h); }
  }

  /** What the loop of the sweep reads at slot j of the chain. */
  lemma SweepReads(t0: Tab, w0: Shape, h: nat, t: Tab, w: Shape, needswap: bool, j: nat)
    requires Shaped(t0, w0) && h < Cap(t0) && Sweep(t0, w0, h, t, w, needswap, j) && j < |w.ch[h]|
    ensures Sized(t) && |w.ch| == Cap(t) && |w.at| == Cap(t)
    ensures var s := w.ch[h][j];
            && s < |t.index| && t.index[s].entry < Cap(t) && (s == h <==> j == 0) && (s == h || Cap(t) <= s)
            && (if j == |w.ch[h]| - 1 then t.index[s].flag == Unique
                else t.index[s].flag == Conflict && t.index[s].conflict == w.ch[h][j + 1] < |t.index|)
    ensures Kept(t, w.ch[h], j) <==> t.ite[t.index[w.ch[h][j]].entry].state != Unlinked
  {
    ChainSlots(t, w, h, j);
    ChainEntry(t, w, h, j);
    if j + 1 < |w.ch[h]| { ChainSlots(t, w, h, j + 1); }
  }

  lemma SweepMoves(t0: Tab, w0: Shape, h: nat, t: Tab, w: Shape, j: nat)
    requires Shaped(t0, w0) && h < Cap(t0)
    ensures Inv(t0, w0) ==> Sweep(t0, w0, h, t0, w0, false, 0)
    ensures Sweep(t0, w0, h, t, w, false, 0) && |w.ch[h]| > 0 && !Kept(t, w.ch[h], 0) ==> Sweep(t0, w0, h, t, w, true, 1)
    ensures Sweep(t0, w0, h, t, w, false, j) && j < |w.ch[h]| && Kept(t, w.ch[h], j) ==> Sweep(t0, w0, h, t, w, false, j + 1)
  {
  }

  lemma SweepSplice(t0: Tab, w0: Shape, h: nat, t: Tab, w: Shape, needswap: bool, j: nat)
    requires Shaped(t0, w0) && h < Cap(t0) && Sweep(t0, w0, h, t, w, needswap, j)
    requires 1 <= j < |w.ch[h]| && !Kept(t, w.ch[h], j)
    ensures w.ch[h][j - 1] < |t.index| && w.ch[h][j] < |t.index| && w.ch[h][j - 1] != w.ch[h][j]
    ensures t.index[w.ch[h][j]].entry < Cap(t)
    ensures Sweep(t0, w0, h, Splice(t, w.ch[h][j - 1], w.ch[h][j]), SpliceShape(w, h, j), needswap, j)
    ensures Splice(t, w.ch[h][j - 1], w.ch[h][j]).h.entries == t.h.entries - 1
    ensures var w' := SpliceShape(w, h, j);
            |w'.ch| == |w.ch| && |w'.ch[h]| == |w.ch[h]| - 1 && w'.ch[h][j - 1] == w.ch[h][j - 1]
            && (j < |w'.ch[h]| ==> w'.ch[h][j] == w.ch[h][j + 1])
  {
    RemoveLater(t, w, h, j);
    ChainEntry(t, w, h, j);
    var p, s := w.ch[h][j - 1], w.ch[h][j];
    var t', w' := Splice(t, p, s), SpliceShape(w, h, j);
    ReclaimMore(t0, w0, h, t, w, t', w', {t.index[s].entry});
    forall i | 0 <= i < j
      ensures Kept(t', w'.ch[h], i) == Kept(t, w.ch[h], i)
    {
      assert w'.ch[h][i] == w.ch[h][i];
      ChainSlots(t, w, h, i);
      assert ChainAt(t, w, h);
    }
  }

  lemma SweepSwap(t0: Tab, w0: Shape, h: nat, t: Tab, w: Shape)
    requires Shaped(t0, w0) && h < Cap(t0) && Sweep(t0, w0, h, t, w, true, 1)
    requires 1 < |w.ch[h]| && Kept(t, w.ch[h], 1)
    ensures w.ch[h][0] == h && w.ch[h][1] < |t.index|
    ensures t.index[h].entry < |w.at| && t.index[w.ch[h][1]].entry < |w.at|
    ensures var w' := SwapShape(t, w, h, w.ch[h][1]);
            && w'.ch == w.ch && !Kept(Swap(t, h, w.ch[h][1]), w.ch[h], 1)
            && Swap(t, h, w.ch[h][1]).h == t.h
            && Sweep(t0, w0, h, Swap(t, h, w.ch[h][1]), w', false, 1)
  {
    ChainSlots(t, w, h, 0);
    ChainSlots(t, w, h, 1);
    SwapInChain(t, w, h, 0, 1);
    ReclaimMore(t0, w0, h, t, w, Swap(t, h, w.ch[h][1]), SwapShape(t, w, h, w.ch[h][1]), {});
  }

  /** The head left over by a sweep that found nothing to keep. */
  lemma SweepLast(t0: Tab, w0: Shape, h: nat, t: Tab, w: Shape)
    requires Shaped(t0, w0) && h < Cap(t0) && Sweep(t0, w0, h, t, w, true, 1) && |w.ch[h]| == 1
    ensures t.index[h].flag == Unique && t.index[h].entry < Cap(t)
    ensures var t', w' := Unlink(t, h), UnlinkHeadShape(w, h);
            Reclaimed(t0, w0, h, t', w') && Clean(t', w', h)
  {
    ChainSlots(t, w, h, 0);
    ChainEntry(t, w, h, 0);
    RemoveHead(t, w, h);
    var t', w' := Unlink(t, h), UnlinkHeadShape(w, h);
    ReclaimMore(t0, w0, h, t, w, t', w', {t.index[h].entry});
    AllKept(t', w', h);
  }

  /** The effect of a sweep over the heads below n: of the ITEs under those
      heads exactly the UNLINKED ones are gone, every other ITE stays put. */
  ghost predicate Swept(t0: Tab, w0: Shape, n: nat, t: Tab, w: Shape)
    requires Shaped(t0, w0)
  {
    && Inv(t, w) && Cap(t) == Cap(t0) && t.ite == t0.ite
    && (forall e | 0 <= e < Cap(t) ::
          t.bits[e] <==> t0.bits[e] && !(t0.ite[e].state == Unlinked && HeadOf(t0, w0, e) < n))
    && (forall e | 0 <= e < Cap(t) && t.bits[e] :: HeadOf(t, w, e) == HeadOf(t0, w0, e))
  }

  lemma SweptNone(t: Tab, w: Shape)
    requires Inv(t, w)
    ensures Swept(t, w, 0, t, w)
  {
  }

  lemma SweptOneMore(t0: Tab, w0: Shape, h: nat, t: Tab, w: Shape, t': Tab, w': Shape)
    requires Shaped(t0, w0) && Swept(t0, w0, h, t, w)
    requires Reclaimed(t, w, h, t', w') && Clean(t', w', h)
    ensures Swept(t0, w0, h + 1, t', w')
  {
  }

  // ----------------------------------------------- what a sweep counts

  ghost predicate AliveUnder(t: Tab, w: Shape, h: nat)
    requires Shaped(t, w)
  {
    exists e: nat :: e < Cap(t) && t.bits[e] && HeadOf(t, w, e) == h && t.ite[e].state != Unlinked
  }

  /** The ITE of head h is counted twice: it is dead, but is first exchanged with
      one of its chain that is not. */
  ghost predicate Recounts(t: Tab, w: Shape, h: nat)
    requires Shaped(t, w) && h < Cap(t)
  {
    && Used(t, h) && t.index[h].entry < |t.ite| && t.ite[t.index[h].entry].state == Unlinked
    && AliveUnder(t, w, h)
  }

  ghost function Recounted(t: Tab, w: Shape, n: nat): nat
    requires Shaped(t, w) && n <= Cap(t)
  {
    if n == 0 then 0 else Recounted(t, w, n - 1) + if Recounts(t, w, n - 1) then 1 else 0
  }

  /** The UNLINKED ITEs under the heads below n. */
  ghost function DeadBelow(t: Tab, w: Shape, n: nat): (r: set<nat>)
    requires Shaped(t, w)
    ensures forall e: nat :: e in r <==> e < Cap(t) && t.bits[e] && t.ite[e].state == Unlinked && HeadOf(t, w, e) < n
  {
    set e: nat | e < Cap(t) && t.bits[e] && t.ite[e].state == Unlinked && HeadOf(t, w, e) < n
  }

  /** What a sweep over the heads below n counts. */
  ghost function Tally(t: Tab, w: Shape, n: nat): nat
    requires Shaped(t, w) && n <= Cap(t)
  {
    |DeadBelow(t, w, n)| + Recounted(t, w, n)
  }

  /** The ITE of a used head is allocated under it. */
  lemma HeadEntry(t: Tab, w: Shape, h: nat)
    requires Shaped(t, w) && h < Cap(t) && Used(t, h)
    ensures h < |t.index| && t.index[h].entry < Cap(t) && t.bits[t.index[h].entry] && HeadOf(t, w, t.index[h].entry) == h
  {
    assert ChainAt(t, w, h);
    ChainEntry(t, w, h, 0);
    ChainSlots(t, w, h, 0);
  }

  /** An allocated ITE has a used head. */
  lemma HeadIsUsed(t: Tab, w: Shape, e: nat)
    requires Shaped(t, w) && e < Cap(t) && t.bits[e]
    ensures HeadOf(t, w, e) < Cap(t) && Used(t, HeadOf(t, w, e))
  {
    assert EntryAt(t, w, e);
    assert SlotAt(t, w, w.at[e]);
    assert ChainAt(t, w, w.home[w.at[e]]);
  }

  /** What is kept during the sweep of a chain was alive before. */
  lemma KeptIsAlive(t0: Tab, w0: Shape, h: nat, t: Tab, w: Shape, j: nat)
    requires Shaped(t0, w0) && h < Cap(t0) && Reclaimed(t0, w0, h, t, w) && j < |w.ch[h]| && Kept(t, w.ch[h], j)
    ensures AliveUnder(t0, w0, h)
  {
    ChainEntry(t, w, h, j);
    hide ChainOk, SlotAt, EntryAt, HeadOf;
  }

  /** If the head is free after the sweep of its chain, nothing was alive under it. */
  lemma NoneAlive(t0: Tab, w0: Shape, h: nat, t: Tab, w: Shape)
    requires Shaped(t0, w0) && h < Cap(t0) && Reclaimed(t0, w0, h, t, w) && !Used(t, h)
    ensures !AliveUnder(t0, w0, h)
  {
    hide ChainOk, SlotAt, EntryAt, HeadOf;
    forall e | 0 <= e < Cap(t) && t.bits[e] ensures HeadOf(t, w, e) != h { HeadIsUsed(t, w, e); }
  }

  lemma RecountsIs(t: Tab, w: Shape, h: nat)
    requires Shaped(t, w) && h < Cap(t) && |w.ch[h]| > 0
    ensures h < |t.index| && t.index[h].entry < |t.ite|
    ensures Recounts(t, w, h) <==> t.ite[t.index[h].entry].state == Unlinked && AliveUnder(t, w, h)
  {
    ChainEntry(t, w, h, 0);
    ChainSlots(t, w, h, 0);
  }

  /** A lone head that is dead has nothing alive under it. */
  lemma LoneHead(t: Tab, w: Shape, h: nat)
    requires Shaped(t, w) && h < Cap(t) && w.ch[h] == [h]
    ensures !Recounts(t, w, h)
  {
    ChainNames(t, w, h);
    hide ChainOk, SlotAt, EntryAt, HeadOf;
    assert Entries(t, [h]) == [t.index[h].entry];
  }

  /** Every ITE counted twice is a dead one. */
  lemma {:induction false} TallyAtMost(t: Tab, w: Shape, n: nat)
    requires Shaped(t, w) && n <= Cap(t)
    ensures Recounted(t, w, n) <= |DeadBelow(t, w, n)|
  {
    hide Shaped, HeadOf, AliveUnder;
    if n > 0 {
      TallyAtMost(t, w, n - 1);
      var a, b := DeadBelow(t, w, n - 1), DeadBelow(t, w, n);
      Subset(a, b);
      if Recounts(t, w, n - 1) {
        HeadEntry(t, w, n - 1);
        var e := t.index[n - 1].entry;
        Subset(a + {e}, b);
      }
    }
  }

  /** A sweep has released the dead ITEs of the heads it has scanned. */
  lemma SweptCounts(t0: Tab, w0: Shape, n: nat, t: Tab, w: Shape)
    requires Inv(t0, w0) && Swept(t0, w0, n, t, w)
    ensures t0.h.entries - t.h.entries == |DeadBelow(t0, w0, n)|
  {
    hide Shaped, HeadOf, Bounded;
    var d := DeadBelow(t0, w0, n);
    assert d <= Live(t0);
    assert Live(t) == Live(t0) - d;
  }

  /** The sweep of lower heads changes nothing that counts under head h. */
  lemma RecountsStays(t0: Tab, w0: Shape, h: nat, t: Tab, w: Shape)
    requires Shaped(t0, w0) && h < Cap(t0) && Swept(t0, w0, h, t, w) && t.index[h] == t0.index[h]
    ensures Recounts(t, w, h) == Recounts(t0, w0, h)
  {
    hide Shaped, HeadOf, Counted, Bounded;
  }

  /** The flag of a head tells the length of its chain. */
  lemma HeadChain(t: Tab, w: Shape, h: nat)
    requires Shaped(t, w) && h < Cap(t)
    ensures match t.index[h].flag
            case Free => w.ch[h] == []
            case Unique => w.ch[h] == [h]
            case Conflict => |w.ch[h]| >= 2
            case Overflow => false
  {
    assert ChainAt(t, w, h);
    if w.ch[h] != [] { ChainSlots(t, w, h, 0); }
  }

  lemma CleanWithoutChain(t: Tab, w: Shape, h: nat)
    requires Inv(t, w) && h < Cap(t) && w.ch[h] == []
    ensures Reclaimed(t, w, h, t, w) && Clean(t, w, h)
  {
    AllKept(t, w, h);
  }

  /** A chain of one slot is freed if its ITE is UNLINKED and left alone otherwise. */
  lemma CleanSingle(t: Tab, w: Shape, h: nat)
    requires Inv(t, w) && h < Cap(t) && w.ch[h] == [h]
    ensures t.index[h].entry < Cap(t)
    ensures var e := t.index[h].entry;
            && (t.ite[e].state != Unlinked ==> Reclaimed(t, w, h, t, w) && Clean(t, w, h))
            && (t.ite[e].state == Unlinked ==>
                  Reclaimed(t, w, h, Unlink(t, h), UnlinkHeadShape(w, h)) && Clean(Unlink(t, h), UnlinkHeadShape(w, h), h))
  {
    ChainEntry(t, w, h, 0);
    if t.ite[t.index[h].entry].state == Unlinked {
      SweepMoves(t, w, h, t, w, 0);
      SweepLast(t, w, h, t, w);
    } else {
      AllKept(t, w, h);
    }
  }

  // ---------------------------------------------------------- allocation

  /** itb_add_ite once the ITE nr and, for an occupied head, the slot f are chosen. */
  function AddIte(t: Tab, off: nat, nr: nat, f: nat, e: Ite): Tab
    requires Cap(t) > 0 && off < Cap(t) && nr < Cap(t) && nr < |t.ite| && Cap(t) <= f < |t.index|
  {
    var t1 := t.(bits := t.bits[nr := true], ite := t.ite[nr := e],
                 h := t.h.(entries := t.h.entries + 1));
    var t2 := if t.index[off].flag in {Unique, Conflict}
              then t1.(h := t1.h.(inf := f - Cap(t) + 1, itu := t1.h.itu + 1)) else t1;
    AddIndex(t2, off, nr, f)
  }

  ghost function AddIteShape(t: Tab, w: Shape, off: nat, nr: nat, f: nat): Shape
    requires off < |t.index| && off < |w.ch| && nr < |w.at| && f < |w.home| && off < |w.home|
    requires t.index[off].flag == Conflict ==> t.index[off].entry < |w.at| && w.ch[off] != []
  {
    AddShape(t, w, off, nr, if t.index[off].flag == Free then off else f)
  }

  lemma HeadIsTagged(t: Tab, w: Shape, off: nat)
    requires Shaped(t, w) && off < Cap(t)
    ensures t.index[off].flag != Overflow
    ensures t.index[off].flag == Conflict ==> t.index[off].entry < |w.at| && w.ch[off] != []
  {
    assert ChainAt(t, w, off);
    if w.ch[off] != [] { ChainSlots(t, w, off, 0); }
  }

  lemma AddIteShaped(t: Tab, w: Shape, off: nat, nr: nat, f: nat, e: Ite)
    requires Shaped(t, w) && off < Cap(t) && nr < Cap(t) && !t.bits[nr]
    requires Cap(t) <= f < |t.index| && (Used(t, off) ==> !Used(t, f))
    requires t.index[off].flag == Conflict ==> t.index[off].entry < |w.at| && w.ch[off] != []
    ensures Shaped(AddIte(t, off, nr, f, e), AddIteShape(t, w, off, nr, f))
  {
    HeadIsTagged(t, w, off);
    var t1 := t.(bits := t.bits[nr := true], ite := t.ite[nr := e],
                 h := t.h.(entries := t.h.entries + 1));
    var t2 := if t.index[off].flag in {Unique, Conflict}
              then t1.(h := t1.h.(inf := f - Cap(t) + 1, itu := t1.h.itu + 1)) else t1;
    ClaimedAfterSet(t, w, t2, nr);
    match t.index[off].flag
    case Free => AddToFreeHead(t2, w, off, nr);
    case Unique => AddToUniqueHead(t2, w, off, nr, f);
    case Conflict => AddToConflictHead(t2, w, off, nr, f);
  }

  /** Shape only speaks of the index and the bitmap. */
  lemma ShapeOfParts(t: Tab, w: Shape, t': Tab)
    requires Shaped(t, w) && t'.index == t.index && t'.bits == t.bits && |t'.ite| == |t.ite|
    ensures Shaped(t', w)
  {
    forall h | 0 <= h < Cap(t') ensures ChainAt(t', w, h) { assert ChainAt(t, w, h); }
    forall s | 0 <= s < |t'.index| && Used(t', s) ensures SlotAt(t', w, s) { assert Used(t, s) && SlotAt(t, w, s); }
    forall e | 0 <= e < Cap(t') && t'.bits[e] ensures EntryAt(t', w, e) { assert EntryAt(t, w, e); }
  }

  lemma ClaimedAfterSet(t: Tab, w: Shape, t2: Tab, nr: nat)
    requires Shaped(t, w) && nr < Cap(t) && !t.bits[nr]
    requires t2.index == t.index && t2.bits == t.bits[nr := true] && |t2.ite| == |t.ite|
    ensures Claimed(t2, w, nr)
  {
    assert t2.bits[nr := false] == t.bits;
    ShapeOfParts(t, w, t2.(bits := t2.bits[nr := false]));
  }

  lemma AddIteUpper(t: Tab, off: nat, nr: nat, f: nat, e: Ite)
    requires Sized(t) && off < Cap(t) && nr < Cap(t) && t.index[off].flag != Overflow
    requires Cap(t) <= f < |t.index| && (Used(t, off) ==> !Used(t, f))
    ensures Upper(AddIte(t, off, nr, f, e)) == if Used(t, off) then Upper(t) + {f} else Upper(t)
    ensures Used(t, off) ==> f !in Upper(t)
  {
  }

  lemma AddIteBounded(t: Tab, off: nat, nr: nat, f: nat, e: Ite)
    requires Sized(t) && Bounded(t) && off < Cap(t) && nr < Cap(t) && Cap(t) <= f < |t.index|
    ensures Bounded(AddIte(t, off, nr, f, e))
  {
    var t' := AddIte(t, off, nr, f, e);
    assert t'.bits == t.bits[nr := true];
  }

  lemma AddIteCounts(t: Tab, off: nat, nr: nat, f: nat, e: Ite)
    requires Sized(t) && Counted(t)
    requires off < Cap(t) && nr < Cap(t) && !t.bits[nr] && t.index[off].flag != Overflow
    requires Cap(t) <= f < |t.index| && (Used(t, off) ==> !Used(t, f))
    ensures Counted(AddIte(t, off, nr, f, e))
  {
    var t' := AddIte(t, off, nr, f, e);
    assert t'.bits == t.bits[nr := true];
    assert Live(t') == Live(t) + {nr};
    AddIteUpper(t, off, nr, f, e);
  }

  /** From t to t' exactly the free ITE nr was allocated to e, under head off. */
  ghost predicate Grown(t: Tab, w: Shape, t': Tab, w': Shape, off: nat, nr: nat, e: Ite)
    requires Shaped(t, w) && Shaped(t', w')
  {
    && nr < Cap(t) && !t.bits[nr]
    && t'.bits == t.bits[nr := true] && t'.ite == t.ite[nr := e]
    && HeadOf(t', w', nr) == off
    && forall x | 0 <= x < Cap(t) && t.bits[x] :: HeadOf(t', w', x) == HeadOf(t, w, x)
  }

  lemma AddIteGrows(t: Tab, w: Shape, off: nat, nr: nat, f: nat, e: Ite)
    requires Shaped(t, w) && off < Cap(t) && nr < Cap(t) && !t.bits[nr]
    requires Cap(t) <= f < |t.index| && (Used(t, off) ==> !Used(t, f))
    ensures t.index[off].flag == Conflict ==> t.index[off].entry < |w.at| && w.ch[off] != []
    ensures Shaped(AddIte(t, off, nr, f, e), AddIteShape(t, w, off, nr, f))
    ensures Grown(t, w, AddIte(t, off, nr, f, e), AddIteShape(t, w, off, nr, f), off, nr, e)
  {
    HeadIsTagged(t, w, off);
    AddIteShaped(t, w, off, nr, f, e);
    var t', w' := AddIte(t, off, nr, f, e), AddIteShape(t, w, off, nr, f);
    if Used(t, off) { assert SlotAt(t, w, off); assert ChainAt(t, w, off); ChainSlots(t, w, off, 0); }
    forall x | 0 <= x < Cap(t) && t.bits[x]
      ensures HeadOf(t', w', x) == HeadOf(t, w, x)
    {
      assert EntryAt(t, w, x);
    }
  }

  lemma AddIteKeeps(t: Tab, w: Shape, off: nat, nr: nat, f: nat, e: Ite)
    requires Inv(t, w) && off < Cap(t) && nr < Cap(t) && !t.bits[nr]
    requires Cap(t) <= f < |t.index| && (Used(t, off) ==> !Used(t, f))
    ensures t.index[off].flag == Conflict ==> t.index[off].entry < |w.at| && w.ch[off] != []
    ensures Inv(AddIte(t, off, nr, f, e), AddIteShape(t, w, off, nr, f))
    ensures Grown(t, w, AddIte(t, off, nr, f, e), AddIteShape(t, w, off, nr, f), off, nr, e)
  {
    HeadIsTagged(t, w, off);
    AddIteGrows(t, w, off, nr, f, e);
    AddIteCounts(t, off, nr, f, e);
    AddIteBounded(t, off, nr, f, e);
  }

  // ------------------------------------------------------------- capacity

  /** A set of numbers below n that misses one of them has fewer than n members. */
  lemma MissesOne(a: set<nat>, n: nat, x: nat)
    requires forall i | i in a :: i < n
    requires x < n && x !in a
    ensures |a| < n
  {
    assert a <= Below(n) - {x};
    Subset(a, Below(n) - {x});
  }

  /** Below capacity the bitmap has a zero bit (so -EINVAL is unreachable), at capacity it has none. */
  lemma ZeroBitExists(t: Tab)
    requires Sized(t)
    ensures |Live(t)| <= Cap(t)
    ensures |Live(t)| < Cap(t) <==> exists e | 0 <= e < Cap(t) :: !t.bits[e]
  {
    Subset(Live(t), Below(Cap(t)));
    if e :| 0 <= e < Cap(t) && !t.bits[e] {
      MissesOne(Live(t), Cap(t), e);
    } else {
      assert Live(t) == Below(Cap(t));
    }
  }

  /** The ITE numbers named by a set of used slots are as many as the slots. */
  lemma {:induction false} SlotsInject(t: Tab, w: Shape, a: set<nat>)
    requires Shaped(t, w) && forall s | s in a :: s < |t.index| && Used(t, s)
    ensures |set s | s in a :: t.index[s].entry| == |a|
  {
    var img := set s | s in a :: t.index[s].entry;
    if a != {} {
      var x :| x in a;
      SlotsInject(t, w, a - {x});
      var img' := set s | s in a - {x} :: t.index[s].entry;
      assert SlotAt(t, w, x);
      forall s | s in a - {x} ensures t.index[s].entry != t.index[x].entry { assert SlotAt(t, w, s); }
      assert img == img' + {t.index[x].entry};
    } else {
      assert img == {};
    }
  }

  /** Used slots never outnumber the ITEs, and fall short of them while an ITE is free. */
  lemma SlotsFit(t: Tab, w: Shape, a: set<nat>, nr: nat)
    requires Shaped(t, w) && forall s | s in a :: s < |t.index| && Used(t, s)
    requires nr < Cap(t) && !t.bits[nr]
    ensures |a| < Cap(t)
  {
    SlotsInject(t, w, a);
    var img := set s | s in a :: t.index[s].entry;
    forall e | e in img ensures e < Cap(t) && e != nr {
      var s :| s in a && t.index[s].entry == e;
      assert SlotAt(t, w, s);
    }
    MissesOne(img, Cap(t), nr);
  }

  /** With an ITE still free, the second half has a free slot. */
  lemma FreeSlotExists(t: Tab, w: Shape, nr: nat)
    requires Shaped(t, w) && nr < Cap(t) && !t.bits[nr]
    ensures exists f | Cap(t) <= f < |t.index| :: !Used(t, f)
  {
    if forall f | Cap(t) <= f < |t.index| :: Used(t, f) {
      var up := Below(|t.index|) - Below(Cap(t));
      forall s | s in up ensures s < |t.index| && Used(t, s) {}
      assert Below(Cap(t)) <= Below(|t.index|);
      SlotsFit(t, w, up, nr);
    }
  }

  /** The chain of head h names exactly the ITEs whose head is h, each once. */
  lemma ChainNames(t: Tab, w: Shape, h: nat)
    requires Shaped(t, w) && h < Cap(t)
    ensures forall k | 0 <= k < |w.ch[h]| :: w.ch[h][k] < |t.index|
    ensures forall e | 0 <= e < Cap(t) ::
              (t.bits[e] && HeadOf(t, w, e) == h) <==> e in Entries(t, w.ch[h])
    ensures Distinct(Entries(t, w.ch[h]))
  {
    var c := w.ch[h];
    forall k | 0 <= k < |c|
      ensures c[k] < |t.index| && Used(t, c[k]) && SlotAt(t, w, c[k]) && w.home[c[k]] == h
    {
      ChainSlots(t, w, h, k);
    }
    var es := Entries(t, c);
    forall e | 0 <= e < Cap(t) && t.bits[e] && HeadOf(t, w, e) == h
      ensures e in es
    {
      assert EntryAt(t, w, e);
      assert SlotAt(t, w, w.at[e]);
      var k :| 0 <= k < |c| && c[k] == w.at[e];
      assert es[k] == e;
    }
    assert ChainAt(t, w, h);
  }
}
