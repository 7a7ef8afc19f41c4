/** The ITB as the object mds/itb.c updates in place. */
module ItbObject {
  import opened Common
  import opened ItbTable
  import opened ItbInvariant
  import opened ItbChanges
  import opened ItbEdits
  import opened ItbMatch
  import opened ItbNames

  /** A fresh ITB stands for the empty directory. */
  lemma EmptyIsNamed(cap: nat, blank: Ite, H: string -> nat)
    requires cap > 0
    ensures Named(Empty(cap, blank), EmptyShape(cap), map[], H)
    ensures Meaning(Empty(cap, blank), map[]) == map[] && Tombs(Empty(cap, blank)) == map[]
  {
    EmptyIsRight(cap, blank);
    assert Dead(Empty(cap, blank)) == {};
  }

  /** The heads other than h are as they were. */
  ghost predicate SameHeads(t: Tab, t': Tab, h: nat) {
    && |t.bits| == |t'.bits| && |t.index| == |t'.index| == 2 * |t.bits|
    && forall g | 0 <= g < Cap(t) && g != h :: t'.index[g] == t.index[g]
  }

  lemma ItsOwnHeads(t: Tab, w: Shape, h: nat)
    requires Shaped(t, w)
    ensures SameHeads(t, t, h)
  {
  }

  lemma SpliceKeepsHeads(t0: Tab, t: Tab, h: nat, p: nat, s: nat)
    requires SameHeads(t0, t, h) && p < |t.index| && s < |t.index| && p != s && t.index[s].entry < |t.bits|
    requires (p == h || Cap(t) <= p) && (s == h || Cap(t) <= s)
    ensures SameHeads(t0, Splice(t, p, s), h)
  {
  }

  lemma SwapKeepsHeads(t0: Tab, t: Tab, h: nat, s: nat)
    requires SameHeads(t0, t, h) && h < |t.index| && s < |t.index| && Cap(t) <= s
    ensures SameHeads(t0, Swap(t, h, s), h)
  {
  }

  lemma UnlinkFreesHead(t0: Tab, t: Tab, h: nat)
    requires SameHeads(t0, t, h) && h < Cap(t) && t.index[h].entry < |t.bits|
    ensures SameHeads(t0, Unlink(t, h), h) && Unlink(t, h).index[h].flag == Free
  {
  }

  /** What itb_add_ite answers. */
  datatype Added = Stored | NoSpace | NoZeroBit

  class Itb {
    const cap: nat
    const index: array<Slot>
    const bitmap: array<bool>
    const ite: array<Ite>
    var entries: int
    var maxOffset: int
    var pseudo: int
    var len: nat
    var inf: nat
    var itu: int
    ghost var w: Shape
    ghost var nm: map<string, nat>

    ghost predicate Fits()
      reads this
    {
      cap > 0 && index.Length == 2 * cap && bitmap.Length == cap && ite.Length == cap
    }

    ghost function Table(): Tab
      reads this, index, bitmap, ite
    {
      Tab(index[..], bitmap[..], ite[..], Header(entries, maxOffset, pseudo, len, inf, itu))
    }

    ghost predicate Valid()
      reads this, index, bitmap, ite
    {
      Fits() && Inv(Table(), w)
    }

    /** get_free_itb: an empty table. */
    constructor (cap: nat, blank: Ite)
      requires cap > 0
      ensures Valid() && this.cap == cap && fresh(index) && fresh(bitmap) && fresh(ite)
      ensures nm == map[] && w == EmptyShape(cap) && Table() == Empty(cap, blank)
    {
      this.cap := cap;
      index := new Slot[2 * cap](_ => Slot(Free, 0, 0));
      bitmap := new bool[cap](_ => false);
      ite := new Ite[cap](_ => blank);
      entries, maxOffset, pseudo, len, inf, itu := 0, 0, 0, 0, 0, 0;
      w := EmptyShape(cap);
      nm := map[];
      new;
      EmptyIsRight(cap, blank);
      assert Table() == Empty(cap, blank);
    }

    // --------------------------------------------------- single updates

    method SetSlot(s: nat, v: Slot)
      requires Fits() && s < index.Length
      modifies index
      ensures Table() == old(Table()).(index := old(Table()).index[s := v])
    {
      index[s] := v;
      assert index[..] == old(index[..])[s := v];
    }

    /** __ite_unlink. */
    method UnlinkSlot(s: nat)
      requires Fits() && s < index.Length && index[s].entry < cap
      modifies index, bitmap, `entries, `maxOffset, `pseudo, `itu
      ensures Table() == Unlink(old(Table()), s)
    {
      SetSlot(s, index[s].(flag := Free));
      if cap <= s {
        pseudo := pseudo - 1;
        itu := itu - 1;
      }
      if maxOffset == index[s].entry {
        maxOffset := maxOffset - 1;
      }
      entries := entries - 1;
      if entries == 0 {
        maxOffset := 0;
      }
      bitmap[index[s].entry] := false;
      assert bitmap[..] == old(bitmap[..])[old(index[s].entry) := false];
    }

    /** Detach the non-head slot s from its predecessor p and free it. */
    method SpliceSlot(p: nat, s: nat)
      requires Fits() && p < index.Length && s < index.Length && p != s && index[s].entry < cap
      modifies index, bitmap, `entries, `maxOffset, `pseudo, `itu
      ensures Table() == Splice(old(Table()), p, s)
    {
      if index[s].flag == Unique {
        SetSlot(p, index[p].(flag := Unique));
      } else {
        SetSlot(p, index[p].(conflict := index[s].conflict));
      }
      UnlinkSlot(s);
    }

    method SwapSlots(a: nat, b: nat)
      requires Fits() && a < index.Length && b < index.Length
      modifies index
      ensures Table() == Swap(old(Table()), a, b)
    {
      var savedEntry := index[b].entry;
      SetSlot(b, index[b].(entry := index[a].entry));
      SetSlot(a, index[a].(entry := savedEntry));
    }

    // ------------------------------------------------------- allocation

    /** find_first_zero_bit over the bitmap; cap when there is none. */
    method FirstZero() returns (nr: nat)
      requires Fits()
      ensures nr <= cap && (nr < cap ==> !bitmap[nr])
      ensures forall e | 0 <= e < nr :: bitmap[e]
    {
      nr := 0;
      while nr < cap && bitmap[nr]
        invariant nr <= cap && forall e | 0 <= e < nr :: bitmap[e]
      {
        nr := nr + 1;
      }
    }

    /** __itb_get_free_index: round-robin search of the second half from `inf`. */
    method GetFreeIndex() returns (f: nat)
      requires Fits()
      modifies `inf, `itu
      ensures f == 2 * cap ==> Table() == old(Table()) && forall s | cap <= s < 2 * cap :: index[s].flag != Free
      ensures f != 2 * cap ==> cap <= f < 2 * cap && Picks(old(Table()), f) && inf == f - cap + 1 && itu == old(itu) + 1
    {
      var nr := inf;
      if nr >= cap {
        nr := 0;
      }
      var c := cap;
      ghost var t, from := Table(), nr;
      while c > 0
        invariant 0 <= c <= cap && nr < cap && inf == old(inf) && itu == old(itu)
        invariant nr + cap == if c > 0 then RoundRobin(t, cap - c) else from + cap
        invariant forall i: nat | i < cap - c :: Used(t, RoundRobin(t, i))
      {
        assert t.index[nr + cap] == index[nr + cap];
        if index[nr + cap].flag == Free {
          inf := nr + 1;
          itu := itu + 1;
          return nr + cap;
        }
        c := c - 1;
        nr := nr + 1;
        if nr == cap {
          nr := 0;
        }
      }
      forall s | cap <= s < 2 * cap
        ensures index[s].flag != Free
      {
        var i: nat := if s - cap >= from then s - cap - from else s - from;
        assert RoundRobin(t, i) == s && Used(t, RoundRobin(t, i));
        assert t.index[s] == index[s];
      }
      return 2 * cap;
    }

    /** __itb_add_index: put ITE nr under head off. */
    method AddIndexSlot(off: nat, nr: nat)
      requires Fits() && off < cap && nr < cap
      requires index[off].flag in {Unique, Conflict} ==> exists s: nat :: cap <= s < 2 * cap && index[s].flag == Free
      modifies index, `maxOffset, `pseudo, `len, `inf, `itu
      ensures old(index[off].flag) == Free ==> Table() == AddIndex(old(Table()), off, nr, off)
      ensures old(index[off].flag) in {Unique, Conflict} ==>
                var f := inf + cap - 1;
                && cap <= f < 2 * cap && Picks(old(Table()), f)
                && Table() == AddIndex(old(Table()).(h := old(Table()).h.(inf := inf, itu := old(itu) + 1)), off, nr, f)
    {
      var o := index[off];
      if o.flag == Free {
        SetSlot(off, o.(flag := Unique, entry := nr));
      } else if o.flag == Unique {
        var f := GetFreeIndex();
        SetSlot(off, index[off].(flag := Conflict, conflict := f));
        SetSlot(f, index[f].(flag := Unique, entry := nr));
        pseudo := pseudo + 1;
      } else if o.flag == Conflict {
        var f := GetFreeIndex();
        SetSlot(f, index[off]);
        SetSlot(off, index[off].(entry := nr, conflict := f));
        pseudo := pseudo + 1;
      }
      if maxOffset <= nr {
        maxOffset := nr;
        len := nr + 1;
      }
    }

    /** Claim ITE n for e and hang it under head off. */
    method Place(off: nat, n: nat, e: Ite) returns (ghost f: nat)
      requires Fits() && off < cap && n < cap && index[off].flag != Overflow
      requires index[off].flag != Free ==> exists s: nat :: cap <= s < 2 * cap && index[s].flag == Free
      modifies index, bitmap, ite, `entries, `maxOffset, `pseudo, `len, `inf, `itu
      ensures cap <= f < 2 * cap && (old(index[off].flag) != Free ==> Picks(old(Table()), f))
      ensures Table() == AddIte(old(Table()).(h := old(Table()).h.(entries := old(entries) - 1)), off, n, f, e)
    {
      ghost var t := Table();
      bitmap[n] := true;
      assert bitmap[..] == old(bitmap[..])[n := true];
      ite[n] := e;
      assert ite[..] == old(ite[..])[n := e];
      ghost var t1 := Table();
      AddIndexSlot(off, n);
      f := if old(index[off].flag) == Free then cap else inf + cap - 1;
      if old(index[off].flag) != Free { PickFacts(t1, t, f); }
    }

    /** The table as it was before the entry counter was raised. */
    ghost function Uncounted(): Tab
      reads this, index, bitmap, ite
    {
      Table().(h := Table().h.(entries := entries - 1))
    }

    /** The part of itb_add_ite that runs once the entry counter was raised in time. */
    method Fill(off: nat, e: Ite) returns (r: Added, ghost nr: nat, ghost f: nat)
      requires Fits() && Inv(Uncounted(), w) && |Live(Uncounted())| < cap && off < cap
      modifies index, bitmap, ite, this`entries, this`maxOffset, this`pseudo, this`len, this`inf, this`itu, this`w
      ensures Valid() && r == Stored
      ensures nr < cap && AddsAt(old(Uncounted()), off, nr, f, e, Table())
      ensures Grown(old(Uncounted()), old(w), Table(), w, off, nr, e)
    {
      hide ChainOk, SlotAt, EntryAt, Bounded, Grown, HeadOf, Picks;
      ghost var t, w0 := Uncounted(), w;
      var n := FirstZero();
      nr := n;
      if n < cap {
        HeadIsTagged(t, w0, off);
        FreeSlotExists(t, w0, n);
        ghost var t1 := Table();
        f := Place(off, n, e);
        if Used(t, off) { PickFacts(t1, t, f); }
        AddIteKeeps(t, w0, off, n, f, e);
        w := AddIteShape(t, w0, off, n, f);
        assert Table() == AddIte(t, off, n, f, e);
        r := Stored;
      } else {
        entries := entries - 1;
        r, f := NoZeroBit, 0;
      }
      ZeroBitExists(t);
    }

    /** itb_add_ite: allocate an ITE holding e under the head of `hash`. */
    method Add(hash: nat, e: Ite) returns (r: Added, ghost nr: nat)
      requires Valid()
      modifies index, bitmap, ite, this`entries, this`maxOffset, this`pseudo, this`len, this`inf, this`itu, this`w
      ensures Valid()
      ensures r == if |Live(old(Table()))| < cap then Stored else NoSpace
      ensures r != Stored ==> Table() == old(Table()) && w == old(w)
      ensures r == Stored ==> exists f: nat :: AddsAt(old(Table()), hash % cap, nr, f, e, Table())
      ensures r == Stored ==> Grown(old(Table()), old(w), Table(), w, hash % cap, nr, e)
    {
      ghost var t := Table();
      entries := entries + 1;
      if entries <= cap {
        assert Uncounted() == t;
        ghost var f;
        r, nr, f := Fill(hash % cap, e);
      } else {
        entries := entries - 1;
        assert Table() == t;
        r, nr := NoSpace, 0;
      }
    }

    // --------------------------------------------------------- deletion

    /** itb_del_ite: remove the ITE named by slot `target` from the chain of head h. */
    method Del(h: nat, target: nat)
      requires Valid() && h < cap
      modifies index, bitmap, this`entries, this`maxOffset, this`pseudo, this`len, this`inf, this`itu, this`w
      ensures Valid() && Deleted(old(Table()), old(w), h, target, Table(), w)
      ensures DeletesSlot(old(Table()), old(w), h, target, Table())
    {
      ghost var t0, w0 := Table(), w;
      assert ChainAt(t0, w0, h);
      if index[h].flag == Free {
        assert w.ch[h] == [];
        return;
      }
      ChainSlots(t0, w0, h, 0);
      if index[h].flag == Unique {
        assert w.ch[h] == [h];
        if target == h {
          RemoveHead(t0, w0, h);
          SlotDeleted(t0, w0, h, 0);
          UnlinkSlot(h);
          w := UnlinkHeadShape(w, h);
        }
      } else {
        DelInChain(h, target);
      }
    }

    /** The loop of itb_del_ite over a chain of at least two slots. */
    method DelInChain(h: nat, target: nat)
      requires Valid() && h < cap && |w.ch[h]| >= 2
      modifies index, bitmap, this`entries, this`maxOffset, this`pseudo, this`len, this`inf, this`itu, this`w
      ensures Fits()
      ensures Deleted(old(Table()), old(w), h, target, Table(), w)
      ensures DeletesSlot(old(Table()), old(w), h, target, Table())
    {
      hide ChainOk, SlotAt, EntryAt, Counted, Bounded, Released, HeadOf, DeletesSlot, DeleteSlot;
      ghost var t0, w0 := Table(), w;
      ghost var c := w.ch[h];
      ChainSlots(t0, w0, h, 0);
      var off, prev := h, h;
      var quit, needswap, hit := false, false, false;
      ghost var k := 0;
      while true
        invariant Fits() && k < |c| && off == c[k] && !quit
        invariant !hit ==> Table() == t0 && w == w0
        invariant hit ==> !needswap && c[1] < |t0.index|
                          && t0.index[h].entry < |w0.at| && t0.index[c[1]].entry < |w0.at|
                          && Table() == Swap(t0, h, c[1]) && w == SwapShape(t0, w0, h, c[1])
        invariant hit || needswap ==> target == h && k == 1 && prev == h
        invariant !hit && !needswap ==> (k > 0 ==> prev == c[k - 1]) && target !in c[..k]
        decreases |c| - k, if hit then 0 else 1
      {
        ChainSlots(t0, w0, h, k);
        var ii := index[off];
        assert Table().index[off] == ii && LinkAt(t0.index, c, k);
        if k + 1 < |c| { ChainSlots(t0, w0, h, k + 1); }
        if ii.flag == Free {
          break;
        }
        if target == off || hit {
          if off == h {
            needswap := true;
            prev := off;
          } else {
            if hit {
              DeletedBySwap(t0, w0, h);
              SlotDeleted(t0, w0, h, 0);
            } else {
              DeletedLater(t0, w0, h, k);
              SlotDeleted(t0, w0, h, k);
            }
            w := SpliceShape(w, h, k);
            SpliceSlot(prev, off);
            assert Deleted(t0, w0, h, target, Table(), w);
            quit := true;
          }
        } else {
          if needswap {
            SwapInChain(t0, w0, h, 0, 1);
            SwapSlots(h, off);
            w := SwapShape(t0, w0, h, off);
            needswap := false;
            hit := true;
            continue;
          }
          assert c[..k + 1] == c[..k] + [off];
          if ii.flag == Unique {
            quit := true;
            assert c[..k + 1] == c;
            OffChain(t0, w0, h, target, t0);
          }
          prev := off;
        }
        off := ii.conflict;
        if !(off < 2 * cap && !quit) {
          break;
        }
        k := k + 1;
      }
      assert !needswap;
    }

    // ----------------------------------------------------- async unlink

    /** The loop of async_unlink_ite over one chain of at least two slots. */
    method SweepChain(h: nat, dc0: nat) returns (dc: nat)
      requires Valid() && h < cap && |w.ch[h]| >= 2
      modifies index, bitmap, this`entries, this`maxOffset, this`pseudo, this`len, this`inf, this`itu, this`w
      ensures Fits()
      ensures Reclaimed(old(Table()), old(w), h, Table(), w)
      ensures Clean(Table(), w, h)
      ensures dc == dc0 + (old(entries) - entries) + if Recounts(old(Table()), old(w), h) then 1 else 0
      ensures SameHeads(old(Table()), Table(), h)
    {
      hide Shaped, Reclaimed, Sweep, Counted, Bounded, HeadOf, Clean, Kept, Splice, Swap, SpliceShape, SwapShape, AliveUnder, Recounts, Unlink, SameHeads;
      ghost var t0, w0 := Table(), w;
      assert SameHeads(t0, t0, h) by { ItsOwnHeads(t0, w0, h); }
      RecountsIs(t0, w0, h);
      dc := dc0;
      SweepMoves(t0, w0, h, t0, w0, 0);
      SweepReads(t0, w0, h, t0, w0, false, 0);
      var off, prev := h, h;
      var quit, needswap := false, false;
      ghost var j, twice := 0, false;
      ghost var dead := ite[index[h].entry].state == Unlinked;
      while true
        invariant Fits()
        invariant Sweep(t0, w0, h, Table(), w, needswap, j) && h < |w.ch|
        invariant j < |w.ch[h]| && off == w.ch[h][j] && !quit
        invariant if j > 0 then prev == w.ch[h][j - 1] else |w.ch[h]| >= 2
        invariant prev == h || cap <= prev
        invariant j == 0 ==> index[h] == old(index[h])
        invariant j > 0 ==> dead == (needswap || twice)
        invariant twice ==> j > 0 && !needswap && AliveUnder(t0, w0, h)
        invariant dc == dc0 + (old(entries) - entries) + if needswap || twice then 1 else 0
        invariant SameHeads(t0, Table(), h)
        decreases |w.ch[h]| - j, needswap
      {
        ghost var t, w1 := Table(), w;
        SweepFacts(t0, w0, h, t, w, needswap, j);
        SweepMoves(t0, w0, h, t, w, j);
        SweepReads(t0, w0, h, t, w, needswap, j);
        var ii := index[off];
        assert t.index[off] == ii;
        if ii.flag == Free {
          break;
        }
        if ite[ii.entry].state == Unlinked {
          if off == h {
            needswap := true;
            prev := off;
            j := j + 1;
          } else {
            SweepSplice(t0, w0, h, t, w, needswap, j);
            w := SpliceShape(w, h, j);
            SpliceSlot(prev, off);
            SpliceKeepsHeads(t0, t, h, prev, off);
            quit := ii.flag == Unique;
          }
          dc := dc + 1;
        } else {
          if needswap {
            SweepSwap(t0, w0, h, t, w);
            KeptIsAlive(t0, w0, h, t, w, j);
            w := SwapShape(t, w, h, off);
            SwapSlots(h, off);
            SwapKeepsHeads(t0, t, h, off);
            needswap, twice := false, true;
            continue;
          }
          if ii.flag == Unique {
            quit := true;
          }
          prev := off;
          j := j + 1;
        }
        off := ii.conflict;
        if !(off < 2 * cap && !quit) {
          break;
        }
      }
      SweepEnd(h, needswap, j, t0, w0);
    }

    /** The clean-up of async_unlink_ite after its loop: free the head if nothing was kept. */
    method SweepEnd(h: nat, needswap: bool, ghost j: nat, ghost t0: Tab, ghost w0: Shape)
      requires Fits() && Shaped(t0, w0) && h < Cap(t0)
      requires Sweep(t0, w0, h, Table(), w, needswap, j) && h < |w.ch| && j == |w.ch[h]| && SameHeads(t0, Table(), h)
      modifies index, bitmap, this`entries, this`maxOffset, this`pseudo, this`len, this`inf, this`itu, this`w
      ensures Fits() && entries == old(entries) - if needswap then 1 else 0
      ensures Reclaimed(t0, w0, h, Table(), w)
      ensures Clean(Table(), w, h)
      ensures needswap ==> !AliveUnder(t0, w0, h)
      ensures SameHeads(t0, Table(), h)
    {
      hide ChainOk, SlotAt, EntryAt, Reclaimed, Sweep, Counted, Bounded, HeadOf, Clean, AliveUnder;
      SweepFacts(t0, w0, h, Table(), w, needswap, j);
      if needswap {
        SweepLast(t0, w0, h, Table(), w);
        ghost var t := Table();
        assert index[h] == Table().index[h];
        assert index[h].flag == Unique;
        w := UnlinkHeadShape(w, h);
        UnlinkSlot(h);
        UnlinkFreesHead(t0, t, h);
        NoneAlive(t0, w0, h, Table(), w);
      }
    }

    /** One head of async_unlink_ite. */
    method SweepHead(h: nat, dc0: nat) returns (dc: nat)
      requires Valid() && h < cap
      modifies index, bitmap, this`entries, this`maxOffset, this`pseudo, this`len, this`inf, this`itu, this`w
      ensures Fits()
      ensures Reclaimed(old(Table()), old(w), h, Table(), w)
      ensures Clean(Table(), w, h)
      ensures dc == dc0 + (old(entries) - entries) + if Recounts(old(Table()), old(w), h) then 1 else 0
      ensures SameHeads(old(Table()), Table(), h)
    {
      hide ChainOk, SlotAt, EntryAt, Reclaimed, Counted, Bounded, HeadOf, Clean, AliveUnder;
      ghost var t, w0 := Table(), w;
      dc := dc0;
      HeadChain(t, w, h);
      assert t.index[h] == index[h];
      if index[h].flag == Free {
        CleanWithoutChain(t, w, h);
      } else if index[h].flag == Unique {
        CleanSingle(t, w, h);
        LoneHead(t, w, h);
        if ite[index[h].entry].state == Unlinked {
          UnlinkSlot(h);
          w := UnlinkHeadShape(w, h);
          UnlinkFreesHead(t, t, h);
          dc := dc + 1;
        }
      } else {
        dc := SweepChain(h, dc);
      }
    }

    /** async_unlink_ite: sweep head by head until the budget `max` is used up. */
    method AsyncUnlink(dc0: nat, max: nat) returns (dc: nat, ghost scanned: nat)
      requires Valid()
      modifies index, bitmap, this`entries, this`maxOffset, this`pseudo, this`len, this`inf, this`itu, this`w
      ensures Valid() && scanned <= cap
      ensures Swept(old(Table()), old(w), scanned, Table(), w)
      ensures dc == dc0 + Tally(old(Table()), old(w), scanned)
      ensures scanned < cap ==> scanned > 0 && old(index[scanned - 1].flag) != Free && dc >= max
      ensures forall h: nat | h + 1 < scanned && Used(old(Table()), h) :: dc0 + Tally(old(Table()), old(w), h + 1) < max
    {
      hide ChainOk, SlotAt, EntryAt, Reclaimed, Swept, Counted, Bounded, HeadOf, Clean, Shaped, Recounts;
      ghost var t0, w0 := Table(), w;
      dc := dc0;
      SweptNone(t0, w0);
      SweptCounts(t0, w0, 0, t0, w0);
      var offset := 0;
      while offset < cap
        invariant Fits() && Inv(Table(), w) && offset <= cap
        invariant Swept(t0, w0, offset, Table(), w)
        invariant dc == dc0 + Tally(t0, w0, offset)
        invariant forall g | offset <= g < cap :: Table().index[g] == t0.index[g]
        invariant forall h: nat | h < offset && Used(t0, h) :: dc0 + Tally(t0, w0, h + 1) < max
      {
        ghost var t, w1 := Table(), w;
        var free := index[offset].flag == Free;
        assert t.index[offset] == t0.index[offset];
        RecountsStays(t0, w0, offset, t, w);
        SweptCounts(t0, w0, offset, t, w);
        dc := SweepHead(offset, dc);
        SweptOneMore(t0, w0, offset, t, w1, Table(), w);
        SweptCounts(t0, w0, offset + 1, Table(), w);
        offset := offset + 1;
        if !free && dc >= max {
          break;
        }
      }
      scanned := offset;
    }

    // ------------------------------------------------------------ search

    /** The chain walk of itb_search. */
    method Search(hash: nat, q: Query) returns (r: Option<nat>)
      requires Valid()
      ensures r == Lookup(Table(), hash, q)
    {
      hide ChainOk, SlotAt, EntryAt, Counted, Bounded;
      ghost var t := Table();
      var off := hash % cap;
      ghost var c := w.ch[off];
      LookupIsFirstHit(t, w, hash, q);
      HeadChain(t, w, off);
      assert t.index[off] == index[off];
      if index[off].flag == Free {
        return None;
      }
      ChainSlots(t, w, off, 0);
      ghost var k := 0;
      ghost var h := off;
      while off < 2 * cap
        invariant k < |c| && off == c[k]
        invariant Lookup(t, hash, q) == FirstHit(t, c, k, q)
        decreases |c| - k
      {
        ChainSlots(t, w, h, k);
        ChainEntry(t, w, h, k);
        var ii := index[off];
        assert t.index[off] == ii;
        if ii.flag == Free {
          break;
        }
        var miss := !Match(ite[ii.entry], q);
        if miss {
          if ii.flag == Unique {
            return None;
          }
          off := ii.conflict;
          k := k + 1;
          continue;
        }
        return Some(off);
      }
      assert false;
      return None;
    }

    // ---------------------------------------------------------- requests

    ghost predicate Dir(H: string -> nat)
      reads this, index, bitmap, ite
    {
      Fits() && Named(Table(), w, nm, H)
    }

    /** The directory this ITB stands for. */
    ghost function Listing(H: string -> nat): Directory
      reads this, index, bitmap, ite
      requires Dir(H)
    {
      assert forall x | x in nm :: BornBy(Table(), nm, x);
      Directory(Meaning(Table(), nm), Tombs(Table()))
    }

    /** The miss path of a create request: itb_add_ite with the new ITE. */
    method Enter(H: string -> nat, e: Ite) returns (r: Reply)
      requires Dir(H) && GoodName(e.name) && e.name !in nm && e.state != Unlinked
      requires e.hash == StoredHash(H(e.name), e.meta)
      modifies index, bitmap, ite, this
      ensures Dir(H) && Changes(H, old(Table()), Table())
      ensures ServesCreate(cap, old(Listing(H)), e.name, FileOf(e), r, Listing(H))
    {
      hide Shaped, Counted, Bounded, Inv, Named, Grown, BornBy, Dead, Live, Meaning, Tombs, Lookup, AddsAt, Changes;
      ghost var t, w0, nm0 := Table(), w, nm;
      NamesAndDead(t, w, nm, H);
      Bearer(t, w, nm, H, e.name);
      var a, nr := Add(H(e.name), e);
      if a == Stored {
        NamedAfterAdd(t, w0, nm0, H, Table(), w, nr, e);
        ghost var f: nat :| AddsAt(t, H(e.name) % cap, nr, f, e, Table());
        StoreChanges(t, w0, nm0, H, nr, f, e, Table());
        nm := nm[e.name := nr];
        r := Done;
      } else {
        NothingChanges(t, w0, nm0, H);
        r := Full;
      }
    }

    /** ite_unlink on the ITE that slot s of the chain of name x names. */
    method UnlinkIte(H: string -> nat, x: string, active: bool, s: nat)
      requires Dir(H) && x in nm && s < 2 * cap && index[s].entry == nm[x] && Hits(Listing(H), x, active)
      requires H(x) % cap < |w.ch| && s in w.ch[H(x) % cap]
      modifies index, bitmap, ite, this
      ensures Dir(H) && Changes(H, old(Table()), Table())
      ensures Serves(cap, H, old(Listing(H)), Remove(x, active), Done, Listing(H))
    {
      hide Shaped, Counted, Bounded, Inv, Named, Released, Dead, Live, Meaning, Tombs, Lookup, DeletesSlot, Deletes, Changes;
      ghost var t, w0, nm0 := Table(), w, nm;
      Bearer(t, w, nm, H, x);
      assert t.index[s] == index[s];
      var nr := index[s].entry;
      var e := ite[nr];
      match e.meta {
        case Mdu(nlink) =>
          var n := (nlink + LINKS - 1) % LINKS;
          if n == 0 {
            e := e.(meta := Mdu(n), state := Unlinked);
            ite[nr] := e;
            assert Table() == t.(ite := t.ite[nr := e]);
            NamedAfterKill(t, w0, nm0, H, Table(), x, e);
            nm := nm - {x};
          } else {
            e := e.(meta := Mdu(n), state := Shadow);
            ite[nr] := e;
            assert Table() == t.(ite := t.ite[nr := e]);
            NamedAfterUpdate(t, w0, nm0, H, Table(), x, e);
          }
          RewriteChanges(t, w0, nm0, H, x, e, Table());
        case LinkSource(_) =>
          Del(H(x) % cap, s);
          DropChanges(t, w0, nm0, H, x, s, Table());
          NamedAfterDelete(t, w0, nm0, H, Table(), w, x);
          nm := nm - {x};
      }
    }

    /** itb_search for a request of any kind, and async unlink. */
    method Serve(H: string -> nat, op: Op) returns (r: Reply)
      requires Dir(H) && ProperOp(op)
      modifies index, bitmap, ite, this
      ensures Dir(H)
      ensures Serves(cap, H, old(Listing(H)), op, r, Listing(H))
      ensures if op.Reap? then Sweeps(old(Table()), Table()) else Changes(H, old(Table()), Table())
    {
      hide Shaped, Counted, Bounded, Inv, Named, Grown, BornBy, Dead, Live, Meaning, Tombs, Lookup, Changes;
      if op.Reap? {
        r := ReapDead(H, op.dc, op.max);
      } else if op.FindUuid? {
        NothingChanges(Table(), w, nm, H);
        r := FindByUuid(H, op.id, op.h, op.f);
      } else if op.Find? {
        NothingChanges(Table(), w, nm, H);
        r := FindByName(H, op.x, op.f);
      } else {
        ghost var t, d := Table(), Listing(H);
        NamedSearch(t, w, nm, H, op.x, FlagsOf(op));
        Bearer(t, w, nm, H, op.x);
        NothingChanges(t, w, nm, H);
        var hit := Search(H(op.x), Sought(op.x, FlagsOf(op)));
        match hit {
          case None =>
            match op {
              case Create(x, uuid) => r := Enter(H, PlainIte(H(x), uuid, x));
              case CreateLink(x, uuid, src) => r := Enter(H, LinkIte(H(x), uuid, x, src));
              case _ => r := NoEntry;
            }
          case Some(s) =>
            assert t.index[s] == index[s];
            r := OnHit(H, op, s);
        }
      }
    }

    /** A lookup by name. */
    method FindByName(H: string -> nat, x: string, f: Flags) returns (r: Reply)
      requires Dir(H) && GoodName(x)
      ensures Serves(cap, H, Listing(H), Find(x, f), r, Listing(H))
    {
      hide Shaped, Counted, Bounded, Inv, Named, BornBy, Dead, Live, Meaning, Tombs, Lookup, Shows;
      ghost var t := Table();
      Bearer(t, w, nm, H, x);
      LookupShows(t, w, nm, H, Listing(H), x, f);
      var hit := Search(H(x), Sought(x, f));
      match hit {
        case None => r := NoEntry;
        case Some(s) =>
          assert t.index[s] == index[s];
          r := Found(ite[index[s].entry].meta);
      }
    }

    /** A lookup by uuid. */
    method FindByUuid(H: string -> nat, id: nat, h: nat, f: Flags) returns (r: Reply)
      requires Dir(H)
      ensures Serves(cap, H, Listing(H), FindUuid(id, h, f), r, Listing(H))
    {
      hide Shaped, Counted, Bounded, Inv, Named, BornBy, Dead, Live, Meaning, Tombs, Lookup, Meets;
      ghost var t := Table();
      Bearer(t, w, nm, H, "");
      LookupByUuid(t, w, nm, H, Listing(H), id, h, f);
      var hit := Search(h, ByUuid(id, h, f));
      match hit {
        case None => r := NoEntry;
        case Some(s) =>
          assert t.index[s] == index[s];
          r := Found(ite[index[s].entry].meta);
      }
    }

    /** What itb_search does once slot s is known to bear the requested name. */
    method OnHit(H: string -> nat, op: Op, s: nat) returns (r: Reply)
      requires Dir(H) && !op.Reap? && !op.FindUuid? && !op.Find? && op.x in nm && s < 2 * cap && index[s].entry == nm[op.x]
      requires Hits(Listing(H), op.x, FlagsOf(op).active)
      requires H(op.x) % cap < |w.ch| && s in w.ch[H(op.x) % cap]
      modifies index, bitmap, ite, this
      ensures Dir(H) && Changes(H, old(Table()), Table())
      ensures Serves(cap, H, old(Listing(H)), op, r, Listing(H))
    {
      hide Shaped, Counted, Bounded, Inv, Named, Grown, BornBy, Dead, Live, Meaning, Tombs, Lookup, Changes;
      ghost var t, w0, nm0 := Table(), w, nm;
      Bearer(t, w, nm, H, op.x);
      NothingChanges(t, w0, nm0, H);
      var nr := index[s].entry;
      match op {
        case Create(_, _) => r := Exists;
        case CreateLink(_, _, _) => r := Exists;
        case LinkAdd(x, _) =>
          if ite[nr].meta.LinkSource? {
            r := NoAccess;
          } else {
            var e := ite[nr].(meta := Mdu((ite[nr].meta.nlink + 1) % LINKS));
            ite[nr] := e;
            assert Table() == t.(ite := t.ite[nr := e]);
            NamedAfterUpdate(t, w0, nm0, H, Table(), x, e);
            RewriteChanges(t, w0, nm0, H, x, e, Table());
            r := Done;
          }
        case Remove(x, active) =>
          UnlinkIte(H, x, active, s);
          r := Done;
        case _ =>
      }
    }

    method ReapDead(H: string -> nat, dc: nat, max: nat) returns (r: Reply)
      requires Dir(H)
      modifies index, bitmap, ite, this
      ensures Dir(H)
      ensures Serves(cap, H, old(Listing(H)), Reap(dc, max), r, Listing(H))
      ensures Sweeps(old(Table()), Table())
    {
      hide Shaped, Counted, Bounded, Inv, Named, Grown, BornBy, Dead, Live, Meaning, Tombs, Lookup, Changes, Tally;
      ghost var t, w0 := Table(), w;
      NamesAndDead(t, w, nm, H);
      ghost var d := Listing(H);
      var dc', scanned := AsyncUnlink(dc, max);
      NamedAfterSweep(t, w0, nm, H, Table(), w, scanned);
      NamesAndDead(Table(), w, nm, H);
      SweptSweeps(t, w0, scanned, Table(), w);
      SweepIsReap(t, w0, nm, H, dc, max, scanned);
      r := Reaped;
    }
  }

  /** An ITB driven through any sequence of requests answers as the directory
      machine does, started from the empty directory. */
  method Run(cap: nat, H: string -> nat, ops: seq<Op>, blank: Ite)
    returns (rs: seq<Reply>)
    requires cap > 0 && forall i | 0 <= i < |ops| :: ProperOp(ops[i])
    ensures Answers(cap, H, ops, rs)
  {
    hide Serves, Inv, Named, Meaning, Tombs;
    var itb := new Itb(cap, blank);
    EmptyIsNamed(cap, blank, H);
    rs := [];
    ghost var ds := [itb.Listing(H)];
    for i := 0 to |ops|
      invariant itb.cap == cap && itb.Dir(H) && fresh(itb) && fresh(itb.index) && fresh(itb.bitmap) && fresh(itb.ite)
      invariant |rs| == i && |ds| == i + 1 && ds[i] == itb.Listing(H) && ds[0] == Directory(map[], map[])
      invariant forall j | 0 <= j < i :: Serves(cap, H, ds[j], ops[j], rs[j], ds[j + 1])
    {
      var r := itb.Serve(H, ops[i]);
      rs := rs + [r];
      ds := ds + [itb.Listing(H)];
    }
    assert Explains(cap, H, ds, ops, rs);
  }
}
