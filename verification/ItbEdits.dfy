/** One operation of a request on an ITB, whatever its header says: an ITE is
    added, deleted or changed in place.  Every such edit keeps the shape of the
    table, and moves its counters as ItbCounts says. */
module ItbEdits {
  import opened ItbTable
  import opened ItbInvariant
  import opened ItbCounts

  // ------------------------------------------------------------ the edits

  /** itb_del_ite on slot k of the chain of head h: a lone head is freed, a
      later slot is spliced out, a head with followers is swapped first. */
  ghost function DeleteSlot(t: Tab, w: Shape, h: nat, k: nat): Tab
    requires Shaped(t, w) && h < Cap(t) && k < |w.ch[h]|
  {
    var c := w.ch[h];
    DeletePrepared(t, w, h, k);
    if |c| == 1 then Unlink(t, h)
    else if k > 0 then Splice(t, c[k - 1], c[k])
    else Splice(Swap(t, h, c[1]), h, c[1])
  }

  lemma DeletePrepared(t: Tab, w: Shape, h: nat, k: nat)
    requires Shaped(t, w) && h < Cap(t) && k < |w.ch[h]|
    ensures h < |t.index| && w.ch[h][k] < |t.index| && t.index[w.ch[h][k]].entry < Cap(t)
    ensures t.bits[t.index[w.ch[h][k]].entry]
    ensures k == 0 ==> w.ch[h][k] == h
    ensures k > 0 ==> w.ch[h][k - 1] < |t.index| && w.ch[h][k - 1] != w.ch[h][k]
    ensures k == 0 && |w.ch[h]| > 1 ==> w.ch[h][1] < |t.index| && w.ch[h][1] != h
  {
    ChainSlots(t, w, h, k);
    if k > 0 { ChainSlots(t, w, h, k - 1); }
    if k == 0 && |w.ch[h]| > 1 { ChainSlots(t, w, h, 1); }
  }

  /** If slot s is on the chain of head h, t' is t with that slot deleted. */
  ghost predicate DeletesSlot(t: Tab, w: Shape, h: nat, s: nat, t': Tab)
    requires Shaped(t, w) && h < Cap(t)
  {
    forall k: nat | k < |w.ch[h]| && w.ch[h][k] == s :: t' == DeleteSlot(t, w, h, k)
  }

  /** A slot is on its chain once. */
  lemma SlotDeleted(t: Tab, w: Shape, h: nat, k: nat)
    requires Shaped(t, w) && h < Cap(t) && k < |w.ch[h]|
    ensures DeletesSlot(t, w, h, w.ch[h][k], DeleteSlot(t, w, h, k))
    ensures var c := w.ch[h];
            && (|c| == 1 ==> h < |t.index| && t.index[h].entry < |t.bits| && DeleteSlot(t, w, h, 0) == Unlink(t, h))
            && (k > 0 ==> c[k - 1] < |t.index| && c[k] < |t.index| && t.index[c[k]].entry < |t.bits| && c[k - 1] != c[k]
                          && DeleteSlot(t, w, h, k) == Splice(t, c[k - 1], c[k]))
    ensures var c := w.ch[h];
            |c| > 1 && k == 0 ==> h < |t.index| && c[1] < |t.index| && h != c[1] && t.index[h].entry < |t.bits|
                                  && DeleteSlot(t, w, h, 0) == Splice(Swap(t, h, c[1]), h, c[1])
  {
    assert ChainAt(t, w, h);
    DeletePrepared(t, w, h, k);
  }

  ghost predicate Deletes(t: Tab, t': Tab) {
    exists w: Shape, h: nat, k: nat :: Shaped(t, w) && h < Cap(t) && k < |w.ch[h]| && t' == DeleteSlot(t, w, h, k)
  }

  lemma OffChain(t: Tab, w: Shape, h: nat, s: nat, t': Tab)
    requires Shaped(t, w) && h < Cap(t) && s !in w.ch[h]
    ensures DeletesSlot(t, w, h, s, t')
  {
  }

  lemma DeletedIsEdit(t: Tab, w: Shape, h: nat, s: nat, t': Tab)
    requires Shaped(t, w) && h < Cap(t) && s in w.ch[h] && DeletesSlot(t, w, h, s, t')
    ensures Deletes(t, t')
  {
    hide DeleteSlot;
    var k: nat :| k < |w.ch[h]| && w.ch[h][k] == s;
    assert t' == DeleteSlot(t, w, h, k);
  }

  /** Slot j of the second half in the order in which __itb_get_free_index looks. */
  function RoundRobin(t: Tab, j: nat): nat {
    var from := if t.h.inf < Cap(t) then t.h.inf else 0;
    Cap(t) + if from + j < Cap(t) then from + j else from + j - Cap(t)
  }

  /** __itb_get_free_index picks f: the first free slot in that order. */
  ghost predicate Picks(t: Tab, f: nat)
    requires |t.index| == 2 * |t.bits|
  {
    exists j: nat :: j < Cap(t) && f == RoundRobin(t, j) && !Used(t, f) && forall i: nat | i < j :: Used(t, RoundRobin(t, i))
  }

  /** What the search picks does not depend on the bitmap, the ITEs or the other counters. */
  lemma PickFacts(t: Tab, t': Tab, f: nat)
    requires Sized(t) && Picks(t, f)
    requires t'.index == t.index && |t'.bits| == |t.bits| && t'.h.inf == t.h.inf
    ensures Picks(t', f) && Cap(t) <= f < |t.index| && !Used(t, f)
  {
    var j: nat :| j < Cap(t) && f == RoundRobin(t, j) && !Used(t, f) && forall i: nat | i < j :: Used(t, RoundRobin(t, i));
    assert f == RoundRobin(t', j);
    assert forall i: nat | i < j :: RoundRobin(t', i) == RoundRobin(t, i);
  }

  /** itb_add_ite stores e under head off in the least free ITE nr; an occupied
      head takes the slot that the round-robin search picks. */
  ghost predicate AddsAt(t: Tab, off: nat, nr: nat, f: nat, e: Ite, t': Tab)
    requires |t.index| == 2 * |t.bits| && |t.ite| == |t.bits|
  {
    && t.h.entries + 1 <= Cap(t) && nr < Cap(t) && FirstZero(Live(t), nr)
    && off < Cap(t) && Cap(t) <= f < |t.index| && (Used(t, off) ==> Picks(t, f))
    && t' == AddIte(t, off, nr, f, e)
  }

  ghost predicate Adds(t: Tab, t': Tab) {
    Sized(t) && exists off: nat, nr: nat, f: nat, e: Ite :: AddsAt(t, off, nr, f, e, t')
  }

  /** Only the ITE nr, which is allocated, is changed, in place. */
  ghost predicate UpdatesAt(t: Tab, nr: nat, t': Tab) {
    && nr < |t.bits| && t.bits[nr] && t' == t.(ite := t'.ite) && |t'.ite| == |t.ite|
    && forall e | 0 <= e < |t.ite| && e != nr :: t'.ite[e] == t.ite[e]
  }

  ghost predicate Updates(t: Tab, t': Tab) { exists nr: nat :: UpdatesAt(t, nr, t') }

  ghost predicate Edit(t: Tab, t': Tab) {
    t' == t || Deletes(t, t') || Adds(t, t') || Updates(t, t')
  }

  /** A well-formed table whose max_offset does not exceed its len. */
  ghost predicate Formed(t: Tab) {
    t.h.maxOffset <= t.h.len && exists w: Shape :: Shaped(t, w)
  }

  ghost function CountsOf(t: Tab): Counts { Counts(Live(t), t.h.maxOffset, t.h.len, t.h.entries) }

  lemma FormedIsRanged(t: Tab)
    requires Formed(t)
    ensures Ranged(CountsOf(t), Cap(t))
  {
  }

  // ------------------------------------------------------------ deletion

  lemma UnlinkMoves(t: Tab, s: nat)
    requires Sized(t) && s < |t.index| && t.index[s].entry < Cap(t)
    ensures CountsOf(Unlink(t, s)) == DelFrom(CountsOf(t), t.index[s].entry)
  {
    var e := t.index[s].entry;
    assert Live(Unlink(t, s)) == Live(t) - {e};
  }

  lemma SpliceMoves(t: Tab, p: nat, s: nat)
    requires Sized(t) && p < |t.index| && s < |t.index| && t.index[s].entry < Cap(t) && p != s
    ensures CountsOf(Splice(t, p, s)) == DelFrom(CountsOf(t), t.index[s].entry)
  {
    var q := if t.index[s].flag == Unique then t.index[p].(flag := Unique)
             else t.index[p].(conflict := t.index[s].conflict);
    var t1 := t.(index := t.index[p := q]);
    assert CountsOf(t1) == CountsOf(t);
    UnlinkMoves(t1, s);
  }

  lemma DeleteShaped(t: Tab, w: Shape, h: nat, k: nat) returns (w': Shape)
    requires Shaped(t, w) && h < Cap(t) && k < |w.ch[h]|
    ensures Shaped(DeleteSlot(t, w, h, k), w')
    ensures w.ch[h][k] < |t.index| && Released(t, w, DeleteSlot(t, w, h, k), w', {t.index[w.ch[h][k]].entry})
  {
    hide ChainOk, SlotAt, EntryAt;
    SlotDeleted(t, w, h, k);
    hide DeleteSlot;
    DeletePrepared(t, w, h, k);
    if |w.ch[h]| == 1 {
      w' := UnlinkHeadShape(w, h);
      UnlinkReleases(t, w, h);
    } else if k > 0 {
      w' := SpliceShape(w, h, k);
      SpliceReleases(t, w, h, k);
    } else {
      ChainSlots(t, w, h, 0);
      ChainSlots(t, w, h, 1);
      var n := w.ch[h][1];
      SwapReleases(t, w, h);
      var t1, w1 := Swap(t, h, n), SwapShape(t, w, h, n);
      w' := SpliceShape(w1, h, 1);
      SpliceReleases(t1, w1, h, 1);
      ReleasedTwice(t, w, t1, w1, Splice(t1, h, n), w', {}, {t.index[h].entry});
      assert {} + {t.index[h].entry} == {t.index[h].entry};
    }
  }

  lemma UnlinkReleases(t: Tab, w: Shape, h: nat)
    requires Shaped(t, w) && h < Cap(t) && |w.ch[h]| == 1
    ensures t.index[h].entry < Cap(t) && Shaped(Unlink(t, h), UnlinkHeadShape(w, h))
    ensures Released(t, w, Unlink(t, h), UnlinkHeadShape(w, h), {t.index[h].entry})
  {
    UnlinkHeadKeepsShape(t, w, h);
  }

  lemma SpliceReleases(t: Tab, w: Shape, h: nat, k: nat)
    requires Shaped(t, w) && h < Cap(t) && 1 <= k < |w.ch[h]|
    ensures w.ch[h][k - 1] < |t.index| && w.ch[h][k] < |t.index| && w.ch[h][k - 1] != w.ch[h][k]
    ensures t.index[w.ch[h][k]].entry < Cap(t)
    ensures var t', w' := Splice(t, w.ch[h][k - 1], w.ch[h][k]), SpliceShape(w, h, k);
            Shaped(t', w') && Released(t, w, t', w', {t.index[w.ch[h][k]].entry})
  {
    SpliceKeepsShape(t, w, h, k);
    ChainSlots(t, w, h, k);
    ChainSlots(t, w, h, k - 1);
  }

  lemma SwapReleases(t: Tab, w: Shape, h: nat)
    requires Shaped(t, w) && h < Cap(t) && |w.ch[h]| > 1 && w.ch[h][0] == h
    ensures w.ch[h][1] < |t.index| && h < |t.index| && t.index[h].entry < |w.at| && t.index[w.ch[h][1]].entry < |w.at|
    ensures var t', w' := Swap(t, h, w.ch[h][1]), SwapShape(t, w, h, w.ch[h][1]);
            Shaped(t', w') && Released(t, w, t', w', {})
  {
    ChainSlots(t, w, h, 0);
    ChainSlots(t, w, h, 1);
    SwapKeepsShape(t, w, h, w.ch[h][1]);
  }

  /** Deleting slot k of a chain gives up exactly the ITE it names. */
  lemma DeleteMoves(t: Tab, w: Shape, h: nat, k: nat)
    requires Shaped(t, w) && h < Cap(t) && k < |w.ch[h]|
    ensures w.ch[h][k] < |t.index| && t.index[w.ch[h][k]].entry in Live(t)
    ensures CountsOf(DeleteSlot(t, w, h, k)) == DelFrom(CountsOf(t), t.index[w.ch[h][k]].entry)
    ensures DeleteSlot(t, w, h, k).ite == t.ite && Cap(DeleteSlot(t, w, h, k)) == Cap(t)
  {
    hide ChainOk, SlotAt, EntryAt;
    DeletePrepared(t, w, h, k);
    var c := w.ch[h];
    if |c| == 1 {
      UnlinkMoves(t, h);
    } else if k > 0 {
      SpliceMoves(t, c[k - 1], c[k]);
    } else {
      ChainSlots(t, w, h, 1);
      var t1 := Swap(t, h, c[1]);
      assert CountsOf(t1) == CountsOf(t);
      SpliceMoves(t1, h, c[1]);
    }
  }

  // ---------------------------------------------------------- allocation

  lemma AddMoves(t: Tab, off: nat, nr: nat, f: nat, e: Ite)
    requires Sized(t) && off < Cap(t) && nr < Cap(t) && Cap(t) <= f < |t.index|
    ensures CountsOf(AddIte(t, off, nr, f, e)) == AddTo(CountsOf(t), nr)
    ensures Cap(AddIte(t, off, nr, f, e)) == Cap(t) && |AddIte(t, off, nr, f, e).ite| == |t.ite|
  {
    var t' := AddIte(t, off, nr, f, e);
    assert t'.bits == t.bits[nr := true];
    assert Live(t') == Live(t) + {nr};
  }

  /** While an ITE is free the round-robin search picks a slot. */
  lemma PickExists(t: Tab, w: Shape, nr: nat) returns (f: nat)
    requires Shaped(t, w) && nr < Cap(t) && !t.bits[nr]
    ensures Picks(t, f) && Cap(t) <= f < |t.index|
  {
    FreeSlotExists(t, w, nr);
    var g :| Cap(t) <= g < |t.index| && !Used(t, g);
    var from := if t.h.inf < Cap(t) then t.h.inf else 0;
    var last: nat := if g - Cap(t) >= from then g - Cap(t) - from else g - from;
    assert RoundRobin(t, last) == g;
    var j := 0;
    while Used(t, RoundRobin(t, j))
      invariant j <= last && forall i: nat | i < j :: Used(t, RoundRobin(t, i))
      decreases last - j
    {
      j := j + 1;
    }
    f := RoundRobin(t, j);
  }

  // ---------------------------------------------------------- every edit

  /** An edit of a well-formed table leaves one, and its counters have made one
      move or are as they were. */
  lemma EditKeeps(t: Tab, t': Tab)
    requires Formed(t) && Edit(t, t')
    ensures Formed(t') && Cap(t') == Cap(t) && |t'.ite| == |t.ite|
    ensures CountsOf(t') == CountsOf(t) || Moves(CountsOf(t), CountsOf(t'), Cap(t))
  {
    hide ChainAt, SlotAt, EntryAt, DeleteSlot, AddIte, FirstZero, Picks, Shaped;
    var w: Shape :| Shaped(t, w);
    FormedIsRanged(t);
    assert Sized(t) by { ShapedIsSized(t, w); }
    if t' == t {
    } else if Deletes(t, t') {
      DeleteKeeps(t, t');
    } else if Adds(t, t') {
      var off: nat, nr: nat, f: nat, e: Ite :| AddsAt(t, off, nr, f, e, t');
      FirstZeroIsFree(Live(t), nr);
      AddFormed(t, w, off, nr, f, e);
      AddMoves(t, off, nr, f, e);
      assert CanAdd(CountsOf(t), Cap(t), nr);
    } else {
      ShapeOfParts(t, w, t');
      assert Live(t') == Live(t);
    }
  }

  lemma DeleteKeeps(t: Tab, t': Tab)
    requires Deletes(t, t')
    ensures (exists w :: Shaped(t', w)) && Cap(t') == Cap(t) && t'.ite == t.ite
    ensures exists e: nat :: e in Live(t) && CountsOf(t') == DelFrom(CountsOf(t), e)
  {
    hide ChainAt, SlotAt, EntryAt, DeleteSlot;
    var v: Shape, h: nat, k: nat :| Shaped(t, v) && h < Cap(t) && k < |v.ch[h]| && t' == DeleteSlot(t, v, h, k);
    var w' := DeleteShaped(t, v, h, k);
    DeleteMoves(t, v, h, k);
  }

  lemma ShapedIsSized(t: Tab, w: Shape)
    requires Shaped(t, w)
    ensures Sized(t)
  {
  }

  lemma AddFormed(t: Tab, w: Shape, off: nat, nr: nat, f: nat, e: Ite)
    requires Shaped(t, w) && off < Cap(t) && nr < Cap(t) && nr !in Live(t)
    requires Cap(t) <= f < |t.index| && (Used(t, off) ==> Picks(t, f))
    ensures exists w' :: Shaped(AddIte(t, off, nr, f, e), w')
  {
    hide ChainOk, SlotAt, EntryAt, AddIte, AddIteShape;
    HeadIsTagged(t, w, off);
    AddIteShaped(t, w, off, nr, f, e);
  }

  /** Any move of the counters is the move of some edit. */
  lemma MoveIsEdit(t: Tab, c': Counts) returns (t': Tab)
    requires Formed(t) && Moves(CountsOf(t), c', Cap(t))
    ensures Edit(t, t') && CountsOf(t') == c'
  {
    hide ChainOk, DeleteSlot, AddIte, FirstZero, Picks, Shaped;
    var w: Shape :| Shaped(t, w);
    if e: nat :| e in Live(t) && c' == DelFrom(CountsOf(t), e) {
      t' := DeleteEdit(t, w, e);
    } else {
      var nr: nat :| CanAdd(CountsOf(t), Cap(t), nr) && c' == AddTo(CountsOf(t), nr);
      ShapedIsSized(t, w);
      assert !t.bits[nr] by { assert nr !in Live(t) by { FirstZeroIsFree(Live(t), nr); } }
      var f := PickExists(t, w, nr);
      t' := AddIte(t, 0, nr, f, t.ite[0]);
      AddMoves(t, 0, nr, f, t.ite[0]);
      assert AddsAt(t, 0, nr, f, t.ite[0], t');
    }
  }

  lemma FirstZeroIsFree(live: set<nat>, nr: nat)
    requires FirstZero(live, nr)
    ensures nr !in live
  {
  }

  lemma DeleteEdit(t: Tab, w: Shape, e: nat) returns (t': Tab)
    requires Shaped(t, w) && e in Live(t)
    ensures Deletes(t, t') && CountsOf(t') == DelFrom(CountsOf(t), e)
  {
    hide ChainOk, DeleteSlot;
    assert EntryAt(t, w, e);
    var s := w.at[e];
    assert SlotAt(t, w, s);
    var h := w.home[s];
    var k :| 0 <= k < |w.ch[h]| && w.ch[h][k] == s;
    DeleteMoves(t, w, h, k);
    t' := DeleteSlot(t, w, h, k);
  }

  // ------------------------------------- what a whole table goes through

  /** The table of a fresh ITB. */
  function Empty(cap: nat, blank: Ite): Tab {
    Tab(seq(2 * cap, _ => Slot(Free, 0, 0)), seq(cap, _ => false), seq(cap, _ => blank), Header(0, 0, 0, 0, 0, 0))
  }

  function EmptyShape(cap: nat): Shape { Shape(seq(cap, _ => []), seq(2 * cap, _ => 0), seq(cap, _ => 0)) }

  lemma EmptyIsRight(cap: nat, blank: Ite)
    requires cap > 0
    ensures Inv(Empty(cap, blank), EmptyShape(cap)) && Live(Empty(cap, blank)) == {}
  {
    var t, w := Empty(cap, blank), EmptyShape(cap);
    forall h | 0 <= h < Cap(t) ensures ChainAt(t, w, h) {}
    assert Live(t) == {} && Upper(t) == {};
  }

  /** async_unlink_ite over some heads. */
  ghost predicate Sweeps(t: Tab, t': Tab) {
    exists w: Shape, n: nat, w': Shape :: Shaped(t, w) && Swept(t, w, n, t', w')
  }

  lemma SweptSweeps(t: Tab, w: Shape, n: nat, t': Tab, w': Shape)
    requires Inv(t, w) && Swept(t, w, n, t', w')
    ensures Sweeps(t, t')
  {
  }

  /** While the header is exact an edit keeps it so. */
  lemma EditKeepsInv(t: Tab, w: Shape, t': Tab) returns (w': Shape)
    requires Inv(t, w) && Edit(t, t')
    ensures Inv(t', w')
  {
    hide ChainAt, SlotAt, EntryAt, DeleteSlot, AddIte, FirstZero, Picks, Counted, Bounded, Swept;
    w' := w;
    if t' == t {
    } else if Deletes(t, t') {
      w' := DeleteKeepsInv(t, w, t');
    } else if Adds(t, t') {
      var off: nat, nr: nat, f: nat, e: Ite :| AddsAt(t, off, nr, f, e, t');
      w' := AddKeepsInv(t, w, off, nr, f, e, t');
    } else {
      var nr: nat :| UpdatesAt(t, nr, t');
      ShapeOfParts(t, w, t');
      SameCounts(t, t');
    }
  }

  lemma SameCounts(t: Tab, t': Tab)
    requires Counted(t) && Bounded(t) && t'.index == t.index && t'.bits == t.bits && t'.h == t.h
    ensures Counted(t') && Bounded(t')
  {
    assert Live(t') == Live(t) && Upper(t') == Upper(t);
  }

  lemma AddKeepsInv(t: Tab, w: Shape, off: nat, nr: nat, f: nat, e: Ite, t': Tab) returns (w': Shape)
    requires Inv(t, w) && AddsAt(t, off, nr, f, e, t')
    ensures Inv(t', w')
  {
    hide ChainOk, SlotAt, EntryAt, AddIte, AddIteShape, Counted, Bounded;
    FirstZeroIsFree(Live(t), nr);
    if Used(t, off) { PickFacts(t, t, f); }
    HeadIsTagged(t, w, off);
    AddIteKeeps(t, w, off, nr, f, e);
    w' := AddIteShape(t, w, off, nr, f);
  }

  lemma DeleteKeepsInv(t: Tab, w: Shape, t': Tab) returns (w': Shape)
    requires Inv(t, w) && Deletes(t, t')
    ensures Inv(t', w')
  {
    hide ChainOk, SlotAt, EntryAt, DeleteSlot, Unlink, Splice, Swap, Counted, Bounded;
    var v: Shape, h: nat, k: nat :| Shaped(t, v) && h < Cap(t) && k < |v.ch[h]| && t' == DeleteSlot(t, v, h, k);
    SlotDeleted(t, v, h, k);
    if |v.ch[h]| == 1 {
      RemoveHead(t, v, h);
      w' := UnlinkHeadShape(v, h);
    } else if k > 0 {
      RemoveLater(t, v, h, k);
      w' := SpliceShape(v, h, k);
    } else {
      DeletedBySwap(t, v, h);
      w' := SpliceShape(SwapShape(t, v, h, v.ch[h][1]), h, 1);
    }
  }
}
