/** Copy-on-write of an ITB (itb_cow, itb_cow_recopy): when the copy answers
    every by-name search as the original does, and a run in which it does not. */
module ItbCow {
  import opened Common
  import opened ItbTable
  import opened ItbInvariant
  import opened ItbMatch
  import opened ItbNames
  import opened ItbObject

  /** The copy made by itb_cow_recopy from oi.  `hdr` is the header as itb_cow
      copied it earlier; it is refreshed only if its len differs.  Only the
      first len ITEs are copied, the others keep whatever the recycled memory held. */
  function Recopy(oi: Tab, hdr: Header, junk: seq<Ite>): Tab
    requires |oi.ite| == |junk|
  {
    var n := if oi.h.len < |oi.ite| then oi.h.len else |oi.ite|;
    Tab(oi.index, oi.bits, oi.ite[..n] + junk[n..], if hdr.len != oi.h.len then oi.h else hdr)
  }

  lemma RecopyParts(oi: Tab, hdr: Header, junk: seq<Ite>)
    requires |oi.ite| == |junk|
    ensures var n := Recopy(oi, hdr, junk);
            && n.index == oi.index && n.bits == oi.bits && |n.ite| == |oi.ite|
            && forall e | 0 <= e < |oi.ite| :: n.ite[e] == if e < oi.h.len then oi.ite[e] else junk[e]
  {
  }

  /** memcpy of the first n elements. */
  method CopyPrefix<A>(src: array<A>, dst: array<A>, n: nat)
    requires src != dst && n <= src.Length == dst.Length
    modifies dst
    ensures dst[..] == src[..n] + old(dst[n..])
  {
    forall i | 0 <= i < n { dst[i] := src[i]; }
  }

  /** itb_cow_recopy on the two objects. */
  method CowRecopy(oi: Itb, ni: Itb)
    requires oi != ni && oi.Fits() && ni.Fits() && oi.cap == ni.cap
    requires oi.index != ni.index && oi.bitmap != ni.bitmap && oi.ite != ni.ite
    modifies ni, ni.index, ni.bitmap, ni.ite
    ensures ni.Fits() && oi.Table() == old(oi.Table())
    ensures ni.Table() == Recopy(oi.Table(), old(ni.Table()).h, old(ni.Table()).ite)
  {
    CopyPrefix(oi.bitmap, ni.bitmap, ni.cap);
    CopyPrefix(oi.index, ni.index, 2 * ni.cap);
    var n := if oi.len < ni.cap then oi.len else ni.cap;
    CopyPrefix(oi.ite, ni.ite, n);
    if ni.len != oi.len {
      ni.len := oi.len;
      ni.inf := oi.inf;
      ni.itu := oi.itu;
      ni.entries := oi.entries;
      ni.maxOffset := oi.maxOffset;
      ni.pseudo := oi.pseudo;
    }
    assert oi.ite[..n] == oi.Table().ite[..n];
  }

  /** Every allocated ITE lies inside the copied length. */
  ghost predicate Inside(t: Tab) {
    forall e | 0 <= e < |t.bits| && t.bits[e] :: e < t.h.len
  }

  lemma {:induction false} WalkAgrees(t: Tab, t': Tab, w: Shape, h: nat, k: nat, q: Query)
    requires Shaped(t, w) && t'.index == t.index && t'.bits == t.bits && |t'.ite| == |t.ite|
    requires forall e | 0 <= e < Cap(t) && t.bits[e] :: t'.ite[e] == t.ite[e]
    requires h < Cap(t) && k <= |w.ch[h]|
    requires forall i | 0 <= i < |w.ch[h]| :: w.ch[h][i] < |t.index| && t.index[w.ch[h][i]].entry < |t.ite|
    ensures FirstHit(t', w.ch[h], k, q) == FirstHit(t, w.ch[h], k, q)
    decreases |w.ch[h]| - k
  {
    if k < |w.ch[h]| {
      ChainEntry(t, w, h, k);
      WalkAgrees(t, t', w, h, k + 1, q);
    }
  }

  /** A copy of a table whose ITEs all lie inside len answers every search, of
      any kind, at the same slot and with the same ITE. */
  lemma CowKeepsMeaning(oi: Tab, w: Shape, hdr: Header, junk: seq<Ite>, hash: nat, q: Query)
    requires Shaped(oi, w) && |junk| == |oi.ite| && Inside(oi)
    ensures Shaped(Recopy(oi, hdr, junk), w)
    ensures Lookup(Recopy(oi, hdr, junk), hash, q) == Lookup(oi, hash, q)
    ensures Answer(Recopy(oi, hdr, junk), hash, q) == Answer(oi, hash, q)
  {
    hide ChainOk, SlotAt, EntryAt, Recopy, HeadOf;
    var n := Recopy(oi, hdr, junk);
    RecopyParts(oi, hdr, junk);
    ShapeOfParts(oi, w, n);
    LookupIsFirstHit(oi, w, hash, q);
    LookupIsFirstHit(n, w, hash, q);
    WalkAgrees(oi, n, w, hash % Cap(oi), 0, q);
    LookupFinds(oi, w, hash, q);
  }

  /** Questions that requests can put: a name of legal length without zeros, or
      a uuid together with the hash that the search starts from. */
  ghost predicate Askable(hash: nat, q: Query) {
    (q.byName ==> GoodName(q.name)) && (q.byUuid ==> q.hash == hash)
  }

  ghost function Uuids(ites: seq<Ite>): (s: set<nat>)
    ensures forall i | 0 <= i < |ites| :: ites[i].uuid in s
    ensures |s| <= |ites|
  {
    if ites == [] then {} else Uuids(ites[1..]) + {ites[0].uuid}
  }

  /** Among the first |ites| + 1 uuids one is borne by no ITE of the list. */
  lemma FreshUuid(ites: seq<Ite>) returns (id: nat)
    ensures id <= |ites| && forall i | 0 <= i < |ites| :: ites[i].uuid != id
  {
    if forall x: nat | x < |ites| + 1 :: x in Uuids(ites) { Subset(Below(|ites| + 1), Uuids(ites)); }
    id :| id < |ites| + 1 && id !in Uuids(ites);
  }

  /** Recycled memory full of ITEs with one uuid and hash. */
  function JunkOf(n: nat, id: nat, h: nat): (junk: seq<Ite>)
    ensures |junk| == n
  {
    seq(n, _ => Ite(h, id, Active, Mdu(0), ""))
  }

  /** With an allocated ITE outside len, some recycled memory makes the copy
      find a uuid, no larger than the capacity, that the table does not hold. */
  lemma CowInventsEntry(oi: Tab, w: Shape, hdr: Header, e: nat) returns (id: nat)
    requires Shaped(oi, w) && e < Cap(oi) && oi.bits[e] && oi.h.len <= e
    ensures id <= Cap(oi)
    ensures var h := HeadOf(oi, w, e); var q := ByUuid(id, h, NOFLAGS);
            && Answer(oi, h, q) == None
            && Answer(Recopy(oi, hdr, JunkOf(|oi.ite|, id, h)), h, q) != None
  {
    hide ChainOk, Recopy, Lookup;
    id := FreshUuid(oi.ite);
    assert EntryAt(oi, w, e) && SlotAt(oi, w, w.at[e]);
    var h := HeadOf(oi, w, e);
    hide SlotAt;
    var junk, q := JunkOf(|oi.ite|, id, h), ByUuid(id, h, NOFLAGS);
    RecopyParts(oi, hdr, junk);
    var n := Recopy(oi, hdr, junk);
    ShapeOfParts(oi, w, n);
    assert HeadOf(n, w, e) == h == h % Cap(oi);
    LookupFinds(oi, w, h, q);
    LookupFinds(n, w, h, q);
    assert Match(n.ite[e], q);
  }

  /** A copy is right, whatever the recycled memory held and whatever a request
      asks, exactly if every allocated ITE of the original lies inside len. */
  lemma CowIsRightIff(oi: Tab, w: Shape, hdr: Header)
    requires Shaped(oi, w)
    ensures CopiesRight(oi, hdr) <==> Inside(oi)
  {
    if Inside(oi) {
      forall junk: seq<Ite>, hash: nat, q: Query | |junk| == |oi.ite| && Askable(hash, q)
        ensures Answer(Recopy(oi, hdr, junk), hash, q) == Answer(oi, hash, q)
      {
        CowKeepsMeaning(oi, w, hdr, junk, hash, q);
      }
    } else {
      var e :| 0 <= e < Cap(oi) && oi.bits[e] && oi.h.len <= e;
      var id := CowInventsEntry(oi, w, hdr, e);
      assert Askable(HeadOf(oi, w, e), ByUuid(id, HeadOf(oi, w, e), NOFLAGS));
    }
  }

  /** The copy of oi under header hdr answers all that a request can ask as oi
      does, whatever the recycled memory held. */
  ghost predicate CopiesRight(oi: Tab, hdr: Header) {
    forall junk: seq<Ite>, hash: nat, q: Query | |junk| == |oi.ite| && Askable(hash, q) ::
      Answer(Recopy(oi, hdr, junk), hash, q) == Answer(oi, hash, q)
  }

  /** Of the allocated ITEs that are not UNLINKED only e bears its name. */
  ghost predicate OnlyBearer(t: Tab, e: nat)
    requires |t.ite| == |t.bits|
  {
    && e < Cap(t) && t.bits[e] && t.ite[e].state != Unlinked && GoodName(t.ite[e].name)
    && forall f | 0 <= f < Cap(t) && t.bits[f] && t.ite[f].state != Unlinked && f != e ::
         GoodName(t.ite[f].name) && t.ite[f].name != t.ite[e].name
  }

  /** A file whose ITE lies outside len is found by its name before the copy and,
      if the recycled memory held UNLINKED ITEs, not after it. */
  lemma CowLosesFile(oi: Tab, w: Shape, hdr: Header, junk: seq<Ite>, e: nat, h: nat)
    requires Shaped(oi, w) && OnlyBearer(oi, e) && HeadOf(oi, w, e) == h % Cap(oi) && oi.h.len <= e
    requires |junk| == |oi.ite| && forall f | 0 <= f < |junk| :: junk[f].state == Unlinked
    ensures Answer(oi, h, ByName(oi.ite[e].name)) == Some(oi.ite[e])
    ensures Answer(Recopy(oi, hdr, junk), h, ByName(oi.ite[e].name)) == None
  {
    hide ChainOk, SlotAt, EntryAt, Recopy, Lookup;
    var n, x := Recopy(oi, hdr, junk), oi.ite[e].name;
    LookupFinds(oi, w, h, ByName(x));
    NameHitIsEquality(x, x);
    forall f | 0 <= f < Cap(oi) && oi.bits[f] && Match(oi.ite[f], ByName(x)) ensures f == e {
      NameHitIsEquality(oi.ite[f].name, x);
    }
    RecopyParts(oi, hdr, junk);
    ShapeOfParts(oi, w, n);
    LookupFinds(n, w, h, ByName(x));
  }

  /** Along a run of one ITB the condition holds, so its copy means what it means. */
  lemma CowOfRun(oi: Tab, w: Shape, nm: map<string, nat>, H: string -> nat, hdr: Header, junk: seq<Ite>, x: string)
    requires Named(oi, w, nm, H) && |junk| == |oi.ite| && GoodName(x)
    ensures match Answer(Recopy(oi, hdr, junk), H(x), ByName(x))
            case Some(e) => x in nm && e == oi.ite[nm[x]]
            case None => x !in nm
  {
    CowKeepsMeaning(oi, w, hdr, junk, H(x), ByName(x));
    LookupByName(oi, w, nm, H, x);
    Bearer(oi, w, nm, H, x);
  }

  /** The copy of a table that keeps its ITEs inside its len names the same files. */
  lemma CopyHasFiles(oi: Tab, w: Shape, nm: map<string, nat>, H: string -> nat, hdr: Header, junk: seq<Ite>)
    requires Files(oi, w, nm, H) && Inside(oi) && |junk| == |oi.ite|
    ensures var n := Recopy(oi, hdr, junk);
            && Files(n, w, nm, H) && (forall x | x in nm :: nm[x] < |n.ite| && nm[x] < |oi.ite|)
            && Meaning(n, nm) == Meaning(oi, nm)
  {
    hide ChainOk, SlotAt, EntryAt, Recopy;
    var n := Recopy(oi, hdr, junk);
    RecopyParts(oi, hdr, junk);
    ShapeOfParts(oi, w, n);
    assert forall e | 0 <= e < Cap(oi) && oi.bits[e] :: n.ite[e] == oi.ite[e];
    forall x | x in nm ensures BornBy(n, nm, x) && n.ite[nm[x]] == oi.ite[nm[x]] { assert BornBy(oi, nm, x); }
    forall e | 0 <= e < Cap(n) && n.bits[e] ensures Placed(n, w, nm, H, e) {
      assert Placed(oi, w, nm, H, e);
    }
  }

  /** And under the header of the original it counts them too. */
  lemma CowKeepsNamed(oi: Tab, w: Shape, nm: map<string, nat>, H: string -> nat, junk: seq<Ite>)
    requires Named(oi, w, nm, H) && |junk| == |oi.ite|
    ensures var n := Recopy(oi, oi.h, junk);
            && Named(n, w, nm, H) && (forall x | x in nm :: nm[x] < |n.ite| && nm[x] < |oi.ite|)
            && Meaning(n, nm) == Meaning(oi, nm) && Tombs(n) == Tombs(oi)
  {
    hide ChainOk, SlotAt, EntryAt, Recopy, BornBy, Placed, Meaning;
    var n := Recopy(oi, oi.h, junk);
    CopyHasFiles(oi, w, nm, H, oi.h, junk);
    RecopyParts(oi, oi.h, junk);
    assert n.h == oi.h by { RecopyHeader(oi, junk); }
    InvOfParts(oi, w, n);
    assert forall e | 0 <= e < Cap(oi) && oi.bits[e] :: n.ite[e] == oi.ite[e];
  }

  lemma RecopyHeader(oi: Tab, junk: seq<Ite>)
    requires |oi.ite| == |junk|
    ensures Recopy(oi, oi.h, junk).h == oi.h
  {
  }

  /** The copy keeps the run invariant, and with it the next copy's correctness,
      exactly if the header it ends up with still counts and covers its ITEs. */
  lemma CowKeepsInvIff(oi: Tab, w: Shape, hdr: Header, junk: seq<Ite>)
    requires Inv(oi, w) && |junk| == |oi.ite|
    ensures Inv(Recopy(oi, hdr, junk), w) <==>
            || hdr.len != oi.h.len
            || (&& hdr.entries == oi.h.entries && hdr.itu == oi.h.itu && hdr.pseudo == oi.h.pseudo
                && hdr.maxOffset <= hdr.len
                && forall e | e in Live(oi) :: e <= hdr.maxOffset)
  {
    var n := Recopy(oi, hdr, junk);
    ShapeOfParts(oi, w, n);
    assert Live(n) == Live(oi) && Upper(n) == Upper(oi);
    forall e | 0 <= e < Cap(oi) && oi.bits[e] ensures e in Live(oi) {}
  }

  // ----------------------------------------------- a run that loses a file

  /** Heads of the four names of the run below: a and d share one, b and c the other. */
  function HeadOfName(x: string): nat { if x == "a" || x == "d" then 0 else 1 }

  const NONE: Ite := Ite(0, 0, Active, Mdu(0), "")

  /** An empty ITB of two ITEs. */
  const R0: Tab := Tab([Slot(Free, 0, 0), Slot(Free, 0, 0), Slot(Free, 0, 0), Slot(Free, 0, 0)],
                       [false, false], [NONE, NONE], Header(0, 0, 0, 0, 0, 0))
  /** Hard links a and b are created. */
  const R1: Tab := AddIte(R0, 0, 0, 2, LinkIte(0, 1, "a", 7))
  const R2: Tab := AddIte(R1, 1, 1, 2, LinkIte(1, 2, "b", 7))
  /** b is unlinked; now itb_cow copies the header of this table. */
  const R3: Tab := Unlink(R2, 1)
  /** Before the copier takes the locks, c is created in the freed ITE. */
  const R4: Tab := AddIte(R3, 1, 1, 2, LinkIte(1, 3, "c", 7))
  /** The copy wins; its len equals the original's, so its header stays that of R3. */
  const R5: Tab := Recopy(R4, R3.h, [NONE, NONE])
  /** In the copy, a is unlinked and d is created in the freed ITE. */
  const R6: Tab := Unlink(R5, 0)
  const R7: Tab := AddIte(R6, 0, 0, 2, LinkIte(0, 4, "d", 7))
  /** The next copy, made without any race. */
  const R8: Tab := Recopy(R7, R7.h, [NONE, NONE])

  /** The ITE that the allocator picks. */
  ghost predicate FirstFree(t: Tab, nr: nat) {
    nr < |t.bits| && !t.bits[nr] && forall e | 0 <= e < nr :: t.bits[e]
  }

  /** File c is found before the second copy and gone after it. */
  lemma StaleHeaderLosesFile()
    ensures FirstFree(R0, 0) && FirstFree(R1, 1) && FirstFree(R3, 1) && FirstFree(R6, 0)
    ensures R4.h.len == R3.h.len && R5.h.maxOffset == 0 && R5.bits == [true, true]
    ensures Answer(R7, HeadOfName("c"), ByName("c")) == Some(LinkIte(1, 3, "c", 7)) && !Inside(R7)
    ensures Answer(R8, HeadOfName("c"), ByName("c")) == None
  {
    assert R7.bits[1] && R7.h.len == 1;
  }
}
