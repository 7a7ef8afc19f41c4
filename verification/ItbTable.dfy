/** The in-memory state of one ITB (index table block) and the single-slot
    updates that mds/itb.c performs on it, together with the shape invariant
    that every run of those updates keeps.

    An ITB of capacity n holds n ITEs, a bitmap with one bit per ITE and 2n
    index slots.  The first n slots are the heads of conflict chains, the
    second n slots hold the rest of every chain.  `Shape` is the witness of a
    well-formed table: for every head the list of slots of its chain, for
    every slot the head whose chain it is on, and for every ITE number the
    slot that names it.
 */
module ItbTable {
  import opened Common

  datatype Flag = Free | Unique | Conflict | Overflow

  datatype Slot = Slot(flag: Flag, entry: nat, conflict: nat)

  datatype IteState = Active | Unlinked | Snapshot | Shadow

  /** The metadata union of an ITE: an MDU (flag NORMAL) or a link source (flag LS). */
  datatype Meta = Mdu(nlink: nat) | LinkSource(src: nat)

  datatype Ite = Ite(hash: nat, uuid: nat, state: IteState, meta: Meta, name: string)

  /** The counters of the ITB header.  `len` is kept in whole ITEs, that is,
      (h.len - sizeof(struct itb)) / sizeof(struct ite). */
  datatype Header = Header(entries: int, maxOffset: int, pseudo: int, len: nat, inf: nat, itu: int)

  datatype Tab = Tab(index: seq<Slot>, bits: seq<bool>, ite: seq<Ite>, h: Header)

  datatype Shape = Shape(ch: seq<seq<nat>>, home: seq<nat>, at: seq<nat>)

  function Cap(t: Tab): nat { |t.bits| }

  ghost predicate Sized(t: Tab) {
    |t.bits| > 0 && |t.index| == 2 * |t.bits| && |t.ite| == |t.bits|
  }

  ghost predicate Used(t: Tab, s: nat)
    requires s < |t.index|
  {
    t.index[s].flag != Free
  }

  // ---------------------------------------------------------------- shape

  /** Slot number k of the chain c is tagged as the code expects it. */
  ghost predicate LinkAt(ix: seq<Slot>, c: seq<nat>, k: nat)
    requires k < |c|
  {
    && c[k] < |ix|
    && (if k == |c| - 1 then ix[c[k]].flag == Unique
        else ix[c[k]].flag == Conflict && ix[c[k]].conflict == c[k + 1])
  }

  /** Slot number k of the chain of head h lies where it may lie. */
  ghost predicate PlacedAt(cap: nat, home: seq<nat>, c: seq<nat>, h: nat, k: nat)
    requires k < |c|
  {
    && c[k] < |home| && home[c[k]] == h
    && (if k == 0 then c[k] == h else cap <= c[k])
  }

  ghost predicate ChainOk(ix: seq<Slot>, cap: nat, home: seq<nat>, c: seq<nat>, h: nat)
    requires h < |ix|
  {
    && (c == [] <==> ix[h].flag == Free)
    && (forall k | 0 <= k < |c| :: LinkAt(ix, c, k))
    && (forall k | 0 <= k < |c| :: PlacedAt(cap, home, c, h, k))
    && Distinct(c)
  }

  ghost predicate ChainAt(t: Tab, w: Shape, h: nat)
    requires h < |w.ch| && h < |t.index|
  {
    ChainOk(t.index, |t.bits|, w.home, w.ch[h], h)
  }

  /** A used slot is on the chain of its home, and its ITE is allocated to it alone. */
  ghost predicate SlotAt(t: Tab, w: Shape, s: nat)
    requires s < |t.index| && s < |w.home| && |w.at| == |t.bits|
  {
    && w.home[s] < |w.ch| && s in w.ch[w.home[s]]
    && t.index[s].entry < |t.bits| && t.bits[t.index[s].entry] && w.at[t.index[s].entry] == s
  }

  /** An allocated ITE is named by a used slot. */
  ghost predicate EntryAt(t: Tab, w: Shape, e: nat)
    requires e < |w.at|
  {
    w.at[e] < |t.index| && Used(t, w.at[e]) && t.index[w.at[e]].entry == e
  }

  ghost predicate Shaped(t: Tab, w: Shape) {
    && Sized(t)
    && |w.ch| == |t.bits| && |w.home| == |t.index| && |w.at| == |t.bits|
    && (forall h | 0 <= h < |t.bits| :: ChainAt(t, w, h))
    && (forall s | 0 <= s < |t.index| && Used(t, s) :: SlotAt(t, w, s))
    && (forall e | 0 <= e < |t.bits| && t.bits[e] :: EntryAt(t, w, e))
  }

  /** The ITE numbers along the chain of head h, in chain order. */
  ghost function Entries(t: Tab, c: seq<nat>): (es: seq<nat>)
    requires forall k | 0 <= k < |c| :: c[k] < |t.index|
    ensures |es| == |c|
  {
    seq(|c|, k requires 0 <= k < |c| => t.index[c[k]].entry)
  }

  // ------------------------------------------------------------- counters

  ghost function Live(t: Tab): set<nat> { set e: nat | e < |t.bits| && t.bits[e] }

  ghost function Upper(t: Tab): set<nat> {
    set s: nat | s < |t.index| && |t.bits| <= s && t.index[s].flag != Free
  }

  ghost predicate Counted(t: Tab) {
    t.h.entries == |Live(t)| && t.h.itu == |Upper(t)| && t.h.pseudo == |Upper(t)|
  }

  /** Every allocated ITE number is at most max_offset and lies inside len. */
  ghost predicate Bounded(t: Tab) {
    && t.h.maxOffset <= t.h.len
    && forall e | 0 <= e < |t.bits| && t.bits[e] :: e <= t.h.maxOffset && e < t.h.len
  }

  // ------------------------------------------------- single-slot updates

  /** __ite_unlink: free slot s and the ITE it names. */
  function Unlink(t: Tab, s: nat): Tab
    requires s < |t.index| && t.index[s].entry < |t.bits|
  {
    var e := t.index[s].entry;
    var up := if |t.bits| <= s then 1 else 0;
    var mo := if t.h.maxOffset == e then t.h.maxOffset - 1 else t.h.maxOffset;
    var n := t.h.entries - 1;
    t.(index := t.index[s := t.index[s].(flag := Free)],
       bits := t.bits[e := false],
       h := t.h.(entries := n,
                 maxOffset := if n == 0 then 0 else mo,
                 pseudo := t.h.pseudo - up,
                 itu := t.h.itu - up))
  }

  /** Take the non-head slot s, whose predecessor is p, out of its chain. */
  function Splice(t: Tab, p: nat, s: nat): Tab
    requires p < |t.index| && s < |t.index| && t.index[s].entry < |t.bits| && p != s
  {
    var q := if t.index[s].flag == Unique then t.index[p].(flag := Unique)
             else t.index[p].(conflict := t.index[s].conflict);
    Unlink(t.(index := t.index[p := q]), s)
  }

  /** Exchange the ITE numbers of two slots. */
  function Swap(t: Tab, a: nat, b: nat): Tab
    requires a < |t.index| && b < |t.index|
  {
    var ea, eb := t.index[a].entry, t.index[b].entry;
    var ix := t.index[b := t.index[b].(entry := ea)];
    t.(index := ix[a := ix[a].(entry := eb)])
  }

  /** Raise max_offset and len to cover ITE nr (the tail of __itb_add_index). */
  function Cover(h: Header, nr: nat): Header {
    if h.maxOffset <= nr then h.(maxOffset := nr, len := nr + 1) else h
  }

  /** __itb_add_index for a head off whose new slot, if one is needed, is f. */
  function AddIndex(t: Tab, off: nat, nr: nat, f: nat): Tab
    requires off < |t.index| && f < |t.index|
  {
    var o := t.index[off];
    if o.flag == Free then
      t.(index := t.index[off := o.(flag := Unique, entry := nr)], h := Cover(t.h, nr))
    else if o.flag == Unique then
      var ix := t.index[off := o.(flag := Conflict, conflict := f)];
      t.(index := ix[f := ix[f].(flag := Unique, entry := nr)],
         h := Cover(t.h.(pseudo := t.h.pseudo + 1), nr))
    else if o.flag == Conflict then
      var ix := t.index[f := o];
      t.(index := ix[off := o.(entry := nr, conflict := f)],
         h := Cover(t.h.(pseudo := t.h.pseudo + 1), nr))
    else t.(h := Cover(t.h, nr))
  }

  // ------------------------------------------- shape is kept by removal

  /** A chain is untouched by updates that stay off its slots. */
  lemma OtherChain(ix: seq<Slot>, ix': seq<Slot>, cap: nat, home: seq<nat>, home': seq<nat>, c: seq<nat>, g: nat)
    requires g < |ix| == |ix'| == |home| == |home'|
    requires ChainOk(ix, cap, home, c, g)
    requires forall s | 0 <= s < |ix| && ix[s].flag != Free && home[s] == g ::
               ix'[s].flag == ix[s].flag && ix'[s].conflict == ix[s].conflict && home'[s] == g
    requires ix[g].flag == Free ==> ix'[g].flag == Free
    ensures ChainOk(ix', cap, home', c, g)
  {
    forall k | 0 <= k < |c|
      ensures LinkAt(ix', c, k) && PlacedAt(cap, home', c, g, k)
    {
      assert LinkAt(ix, c, k) && PlacedAt(cap, home, c, g, k);
    }
    if c != [] {
      assert LinkAt(ix', c, 0) && PlacedAt(cap, home, c, g, 0);
    }
  }

  ghost function UnlinkHeadShape(w: Shape, h: nat): Shape
    requires h < |w.ch|
  {
    w.(ch := w.ch[h := []])
  }

  lemma UnlinkHeadKeepsShape(t: Tab, w: Shape, h: nat)
    requires Shaped(t, w) && h < Cap(t) && |w.ch[h]| == 1
    ensures t.index[h].flag == Unique && t.index[h].entry < Cap(t)
    ensures Shaped(Unlink(t, h), UnlinkHeadShape(w, h))
  {
    assert ChainAt(t, w, h);
    assert LinkAt(t.index, w.ch[h], 0) && PlacedAt(Cap(t), w.home, w.ch[h], h, 0);
    assert w.ch[h] == [h];
    assert SlotAt(t, w, h);
    var t', w' := Unlink(t, h), UnlinkHeadShape(w, h);
    forall g | 0 <= g < Cap(t')
      ensures ChainAt(t', w', g)
    {
      assert ChainAt(t, w, g);
      if g != h { OtherChain(t.index, t'.index, Cap(t), w.home, w.home, w.ch[g], g); }
    }
    forall s | 0 <= s < |t'.index| && Used(t', s)
      ensures SlotAt(t', w', s)
    {
      assert Used(t, s) && SlotAt(t, w, s);
      assert w.home[s] != h;
    }
    forall e | 0 <= e < Cap(t') && t'.bits[e]
      ensures EntryAt(t', w', e)
    {
      assert EntryAt(t, w, e);
    }
  }

  ghost function Without(c: seq<nat>, k: nat): (r: seq<nat>)
    requires k < |c|
    ensures |r| == |c| - 1
    ensures forall j | 0 <= j < |r| :: r[j] == c[if j < k then j else j + 1]
  {
    c[..k] + c[k + 1..]
  }

  lemma WithoutMembers(c: seq<nat>, k: nat, x: nat)
    requires k < |c| && x in c && x != c[k]
    ensures x in Without(c, k)
  {
    var j :| 0 <= j < |c| && c[j] == x;
    assert Without(c, k)[if j < k then j else j - 1] == x;
  }

  ghost function SpliceShape(w: Shape, h: nat, k: nat): Shape
    requires h < |w.ch| && k < |w.ch[h]|
  {
    w.(ch := w.ch[h := Without(w.ch[h], k)])
  }

  lemma SpliceChain(ix: seq<Slot>, ix': seq<Slot>, cap: nat, home: seq<nat>, c: seq<nat>, h: nat, k: nat)
    requires h < |ix| == |ix'| && ChainOk(ix, cap, home, c, h) && 1 <= k < |c|
    requires c[k - 1] < |ix| && c[k] < |ix|
    requires forall s | 0 <= s < |ix| && s != c[k - 1] && s != c[k] :: ix'[s] == ix[s]
    requires if ix[c[k]].flag == Unique then ix'[c[k - 1]].flag == Unique
             else ix'[c[k - 1]] == ix[c[k - 1]].(conflict := ix[c[k]].conflict)
    ensures ChainOk(ix', cap, home, Without(c, k), h)
  {
    var c' := Without(c, k);
    assert LinkAt(ix, c, k) && LinkAt(ix, c, k - 1);
    forall j | 0 <= j < |c'|
      ensures LinkAt(ix', c', j) && PlacedAt(cap, home, c', h, j)
    {
      var i := if j < k then j else j + 1;
      assert LinkAt(ix, c, i) && PlacedAt(cap, home, c, h, i);
      if j != k - 1 { assert ix'[c[i]] == ix[c[i]]; }
    }
    assert PlacedAt(cap, home, c, h, 0) && LinkAt(ix', c', 0) && c'[0] == h;
  }

  /** The slots that take part in a splice are distinct, used and in range. */
  lemma ChainSlots(t: Tab, w: Shape, h: nat, k: nat)
    requires Shaped(t, w) && h < Cap(t) && k < |w.ch[h]|
    ensures w.ch[h][k] < |t.index| && Used(t, w.ch[h][k]) && SlotAt(t, w, w.ch[h][k])
    ensures w.home[w.ch[h][k]] == h && (k == 0 ==> w.ch[h][k] == h) && (k > 0 ==> Cap(t) <= w.ch[h][k])
    ensures LinkAt(t.index, w.ch[h], k)
    ensures k > 0 ==> w.ch[h][k - 1] != w.ch[h][k]
  {
    assert ChainAt(t, w, h);
    assert LinkAt(t.index, w.ch[h], k) && PlacedAt(Cap(t), w.home, w.ch[h], h, k);
    assert Used(t, w.ch[h][k]);
  }

  lemma SpliceKeepsShape(t: Tab, w: Shape, h: nat, k: nat)
    requires Shaped(t, w) && h < Cap(t) && 1 <= k < |w.ch[h]|
    ensures w.ch[h][k - 1] < |t.index| && w.ch[h][k] < |t.index| && w.ch[h][k - 1] != w.ch[h][k]
    ensures t.index[w.ch[h][k]].entry < Cap(t)
    ensures Shaped(Splice(t, w.ch[h][k - 1], w.ch[h][k]), SpliceShape(w, h, k))
  {
    var c := w.ch[h];
    var p, s := c[k - 1], c[k];
    ChainSlots(t, w, h, k);
    ChainSlots(t, w, h, k - 1);
    var t', w' := Splice(t, p, s), SpliceShape(w, h, k);
    forall g | 0 <= g < Cap(t')
      ensures ChainAt(t', w', g)
    {
      assert ChainAt(t, w, g);
      if g != h {
        OtherChain(t.index, t'.index, Cap(t), w.home, w.home, w.ch[g], g);
      } else {
        SpliceChain(t.index, t'.index, Cap(t), w.home, c, h, k);
      }
    }
    forall x | 0 <= x < |t'.index| && Used(t', x)
      ensures SlotAt(t', w', x)
    {
      assert Used(t, x) && SlotAt(t, w, x) && x != s;
      if w.home[x] == h { WithoutMembers(c, k, x); }
    }
    forall e | 0 <= e < Cap(t') && t'.bits[e]
      ensures EntryAt(t', w', e)
    {
      assert EntryAt(t, w, e);
    }
  }

  // --------------------------------------------- shape is kept by a swap

  ghost function SwapShape(t: Tab, w: Shape, a: nat, b: nat): Shape
    requires a < |t.index| && b < |t.index| && t.index[a].entry < |w.at| && t.index[b].entry < |w.at|
  {
    w.(at := w.at[t.index[a].entry := b][t.index[b].entry := a])
  }

  lemma SwapKeepsShape(t: Tab, w: Shape, a: nat, b: nat)
    requires Shaped(t, w) && a < |t.index| && b < |t.index| && a != b && Used(t, a) && Used(t, b)
    ensures t.index[a].entry < |w.at| && t.index[b].entry < |w.at|
    ensures Shaped(Swap(t, a, b), SwapShape(t, w, a, b))
  {
    assert SlotAt(t, w, a) && SlotAt(t, w, b);
    var t', w' := Swap(t, a, b), SwapShape(t, w, a, b);
    forall g | 0 <= g < Cap(t')
      ensures ChainAt(t', w', g)
    {
      assert ChainAt(t, w, g);
      OtherChain(t.index, t'.index, Cap(t), w.home, w.home, w.ch[g], g);
    }
    forall x | 0 <= x < |t'.index| && Used(t', x)
      ensures SlotAt(t', w', x)
    {
      assert Used(t, x) && SlotAt(t, w, x);
    }
    forall e | 0 <= e < Cap(t') && t'.bits[e]
      ensures EntryAt(t', w', e)
    {
      assert EntryAt(t, w, e);
    }
  }

  // ------------------------------------------- shape is kept by addition

  /** The shape after ITE nr was added under head off, with f as the new slot. */
  ghost function AddShape(t: Tab, w: Shape, off: nat, nr: nat, f: nat): Shape
    requires off < |t.index| && off < |w.ch| && nr < |w.at| && f < |w.home| && off < |w.home|
    requires t.index[off].flag == Conflict ==> t.index[off].entry < |w.at| && w.ch[off] != []
  {
    var o := t.index[off];
    if o.flag == Free then
      Shape(w.ch[off := [off]], w.home[off := off], w.at[nr := off])
    else if o.flag == Unique then
      Shape(w.ch[off := [off, f]], w.home[f := off], w.at[nr := f])
    else if o.flag == Overflow then w
    else
      Shape(w.ch[off := [off, f] + w.ch[off][1..]], w.home[f := off], w.at[o.entry := f][nr := off])
  }

  /** What __itb_add_index may rely on: the bit of nr was just claimed and no slot names it. */
  ghost predicate Claimed(t: Tab, w: Shape, nr: nat) {
    && nr < Cap(t) && t.bits[nr]
    && Shaped(t.(bits := t.bits[nr := false]), w)
  }

  lemma AddToFreeHead(t: Tab, w: Shape, off: nat, nr: nat)
    requires Claimed(t, w, nr) && off < Cap(t) && !Used(t, off)
    ensures Shaped(AddIndex(t, off, nr, off), AddShape(t, w, off, nr, off))
  {
    var t0 := t.(bits := t.bits[nr := false]);
    var t', w' := AddIndex(t, off, nr, off), AddShape(t, w, off, nr, off);
    assert ChainAt(t0, w, off);
    forall g | 0 <= g < Cap(t')
      ensures ChainAt(t', w', g)
    {
      assert ChainAt(t0, w, g);
      if g != off {
        OtherChain(t0.index, t'.index, Cap(t), w.home, w'.home, w.ch[g], g);
      } else {
        assert LinkAt(t'.index, [off], 0) && PlacedAt(Cap(t), w'.home, [off], off, 0);
      }
    }
    forall x | 0 <= x < |t'.index| && Used(t', x)
      ensures SlotAt(t', w', x)
    {
      if x != off { assert Used(t0, x) && SlotAt(t0, w, x); }
    }
    forall e | 0 <= e < Cap(t') && t'.bits[e]
      ensures EntryAt(t', w', e)
    {
      if e != nr { assert EntryAt(t0, w, e); }
    }
  }

  lemma AddToUniqueHead(t: Tab, w: Shape, off: nat, nr: nat, f: nat)
    requires Claimed(t, w, nr) && off < Cap(t) && t.index[off].flag == Unique
    requires Cap(t) <= f < |t.index| && !Used(t, f)
    ensures Shaped(AddIndex(t, off, nr, f), AddShape(t, w, off, nr, f))
  {
    var t0 := t.(bits := t.bits[nr := false]);
    var t', w' := AddIndex(t, off, nr, f), AddShape(t, w, off, nr, f);
    assert ChainAt(t0, w, off) && LinkAt(t0.index, w.ch[off], 0);
    assert PlacedAt(Cap(t), w.home, w.ch[off], off, 0);
    assert w.ch[off] == [off];
    forall g | 0 <= g < Cap(t')
      ensures ChainAt(t', w', g)
    {
      assert ChainAt(t0, w, g);
      if g != off {
        OtherChain(t0.index, t'.index, Cap(t), w.home, w'.home, w.ch[g], g);
      } else {
        assert LinkAt(t'.index, [off, f], 0) && PlacedAt(Cap(t), w'.home, [off, f], off, 0);
        assert LinkAt(t'.index, [off, f], 1) && PlacedAt(Cap(t), w'.home, [off, f], off, 1);
      }
    }
    forall x | 0 <= x < |t'.index| && Used(t', x)
      ensures SlotAt(t', w', x)
    {
      if x != f { assert Used(t0, x) && SlotAt(t0, w, x); }
    }
    forall e | 0 <= e < Cap(t') && t'.bits[e]
      ensures EntryAt(t', w', e)
    {
      if e != nr { assert EntryAt(t0, w, e); }
    }
  }

  lemma PushChain(ix: seq<Slot>, ix': seq<Slot>, cap: nat, home: seq<nat>, c: seq<nat>, off: nat, f: nat)
    requires off < |ix| == |ix'| == |home| && ChainOk(ix, cap, home, c, off) && |c| >= 2
    requires cap <= f < |ix| && ix[f].flag == Free && f != off
    requires ix'[off].flag == Conflict && ix'[off].conflict == f
    requires ix'[f].flag == Conflict && ix'[f].conflict == ix[off].conflict
    requires forall s | 0 <= s < |ix| && s != off && s != f :: ix'[s] == ix[s]
    ensures ChainOk(ix', cap, home[f := off], [off, f] + c[1..], off)
  {
    var c' := [off, f] + c[1..];
    assert LinkAt(ix, c, 0) && PlacedAt(cap, home, c, off, 0);
    forall j | 0 <= j < |c'|
      ensures LinkAt(ix', c', j) && PlacedAt(cap, home[f := off], c', off, j)
      ensures j >= 2 ==> c'[j] != f && c'[j] != off
    {
      if j >= 2 {
        assert LinkAt(ix, c, j - 1) && PlacedAt(cap, home, c, off, j - 1);
        assert c'[j] == c[j - 1];
      }
    }
  }

  lemma AddToConflictHead(t: Tab, w: Shape, off: nat, nr: nat, f: nat)
    requires Claimed(t, w, nr) && off < Cap(t) && t.index[off].flag == Conflict
    requires Cap(t) <= f < |t.index| && !Used(t, f)
    ensures t.index[off].entry < |w.at| && w.ch[off] != []
    ensures Shaped(AddIndex(t, off, nr, f), AddShape(t, w, off, nr, f))
  {
    var t0 := t.(bits := t.bits[nr := false]);
    assert ChainAt(t0, w, off) && LinkAt(t0.index, w.ch[off], 0) && Used(t0, off);
    assert PlacedAt(Cap(t), w.home, w.ch[off], off, 0);
    assert SlotAt(t0, w, off);
    var t', w' := AddIndex(t, off, nr, f), AddShape(t, w, off, nr, f);
    forall g | 0 <= g < Cap(t')
      ensures ChainAt(t', w', g)
    {
      assert ChainAt(t0, w, g);
      if g != off {
        OtherChain(t0.index, t'.index, Cap(t), w.home, w'.home, w.ch[g], g);
      } else {
        PushChain(t0.index, t'.index, Cap(t), w.home, w.ch[off], off, f);
      }
    }
    forall x | 0 <= x < |t'.index| && Used(t', x)
      ensures SlotAt(t', w', x)
    {
      if x == f || x == off {
        assert w'.ch[off][0] == off && w'.ch[off][1] == f;
      } else {
        assert Used(t0, x) && SlotAt(t0, w, x);
        if w.home[x] == off { assert x in w.ch[off][1..]; }
      }
    }
    forall e | 0 <= e < Cap(t') && t'.bits[e]
      ensures EntryAt(t', w', e)
    {
      if e != nr { assert EntryAt(t0, w, e); }
    }
  }
}
