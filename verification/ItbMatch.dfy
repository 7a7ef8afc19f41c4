/** ite_match and the chain walk of itb_search as functions, and what the walk finds. */
module ItbMatch {
  import opened Common
  import opened ItbTable
  import opened ItbInvariant

  /** The part of struct hvfs_index that ite_match reads. */
  datatype Query = Query(byUuid: bool, byName: bool, shadow: bool, active: bool,
                         uuid: nat, hash: nat, name: string)

  /** The state filters of a query: INDEX_ITE_SHADOW and INDEX_ITE_ACTIVE. */
  datatype Flags = Flags(shadow: bool, active: bool)

  const NOFLAGS := Flags(false, false)

  /** A query by name. */
  function Sought(x: string, f: Flags): Query { Query(false, true, f.shadow, f.active, 0, 0, x) }

  /** A query by name with no state-filter flag. */
  function ByName(x: string): Query { Sought(x, NOFLAGS) }

  /** Character i of the zero-padded name buffer of an ITE. */
  function NameChar(name: string, i: nat): char { if i < |name| then name[i] else '\0' }

  /** memcmp over the length of the query, then a terminating zero. */
  predicate NameHit(name: string, x: string) {
    (forall i | 0 <= i < |x| :: NameChar(name, i) == x[i]) && NameChar(name, |x|) == '\0'
  }

  /** ite_match. */
  predicate Match(e: Ite, q: Query) {
    if q.shadow && e.state != Shadow && e.state != Unlinked then false
    else if q.active && e.state != Active then false
    else if e.state == Unlinked && !q.shadow then false
    else if q.byUuid then e.uuid == q.uuid && e.hash == q.hash
    else if q.byName then NameHit(e.name, q.name)
    else false
  }

  /** Names as the file system has them: no zero inside, shorter than the 256-byte buffer. */
  predicate GoodName(x: string) {
    |x| < 256 && forall i | 0 <= i < |x| :: x[i] != '\0'
  }

  /** On proper names the buffer comparison is equality. */
  lemma NameHitIsEquality(name: string, x: string)
    requires GoodName(name) && GoodName(x)
    ensures NameHit(name, x) <==> name == x
  {
    if NameHit(name, x) {
      assert |name| <= |x|;
      assert |x| > |name| ==> NameChar(name, |name|) == '\0';
      assert forall i | 0 <= i < |x| :: NameChar(name, i) == x[i];
    }
  }

  /** The walk of itb_search from slot off, at most `fuel` slots far. */
  function Walk(t: Tab, off: nat, q: Query, fuel: nat): Option<nat>
    decreases fuel
  {
    if fuel == 0 || off >= |t.index| || t.index[off].flag == Free then None
    else if t.index[off].entry < |t.ite| && Match(t.ite[t.index[off].entry], q) then Some(off)
    else if t.index[off].flag == Unique then None
    else Walk(t, t.index[off].conflict, q, fuel - 1)
  }

  /** The slot at which itb_search stops with a match for q. */
  function Lookup(t: Tab, hash: nat, q: Query): Option<nat> {
    if |t.bits| == 0 then None else Walk(t, hash % |t.bits|, q, |t.index|)
  }

  /** The ITE that itb_search answers with. */
  function Answer(t: Tab, hash: nat, q: Query): Option<Ite> {
    match Lookup(t, hash, q)
    case None => None
    case Some(s) =>
      if s < |t.index| && t.index[s].entry < |t.ite| then Some(t.ite[t.index[s].entry]) else None
  }

  /** The first slot of a chain, from position k on, whose ITE matches. */
  ghost function FirstHit(t: Tab, c: seq<nat>, k: nat, q: Query): Option<nat>
    requires k <= |c| && forall i | 0 <= i < |c| :: c[i] < |t.index| && t.index[c[i]].entry < |t.ite|
    decreases |c| - k
  {
    if k == |c| then None
    else if Match(t.ite[t.index[c[k]].entry], q) then Some(c[k])
    else FirstHit(t, c, k + 1, q)
  }

  lemma ChainInRange(t: Tab, w: Shape, h: nat)
    requires Shaped(t, w) && h < Cap(t)
    ensures forall i | 0 <= i < |w.ch[h]| :: w.ch[h][i] < |t.index| && t.index[w.ch[h][i]].entry < |t.ite|
  {
    forall i | 0 <= i < |w.ch[h]|
      ensures w.ch[h][i] < |t.index| && t.index[w.ch[h][i]].entry < |t.ite|
    {
      ChainEntry(t, w, h, i);
    }
  }

  lemma {:induction false} WalkIsFirstHit(t: Tab, w: Shape, h: nat, k: nat, q: Query, fuel: nat)
    requires Shaped(t, w) && h < Cap(t) && k < |w.ch[h]| && |w.ch[h]| - k <= fuel
    requires forall i | 0 <= i < |w.ch[h]| :: w.ch[h][i] < |t.index| && t.index[w.ch[h][i]].entry < |t.ite|
    ensures Walk(t, w.ch[h][k], q, fuel) == FirstHit(t, w.ch[h], k, q)
    decreases fuel
  {
    ChainSlots(t, w, h, k);
    if k + 1 < |w.ch[h]| {
      WalkIsFirstHit(t, w, h, k + 1, q, fuel - 1);
    }
  }

  /** A chain is never longer than the index. */
  lemma ChainLength(t: Tab, w: Shape, h: nat)
    requires Shaped(t, w) && h < Cap(t)
    ensures |w.ch[h]| <= |t.index|
  {
    ChainInRange(t, w, h);
    assert ChainAt(t, w, h);
    DistinctCount(w.ch[h]);
    Subset(Members(w.ch[h]), Below(|t.index|));
  }

  lemma LookupIsFirstHit(t: Tab, w: Shape, hash: nat, q: Query)
    requires Shaped(t, w)
    ensures forall i | 0 <= i < |w.ch[hash % Cap(t)]| ::
              w.ch[hash % Cap(t)][i] < |t.index| && t.index[w.ch[hash % Cap(t)][i]].entry < |t.ite|
    ensures Lookup(t, hash, q) == FirstHit(t, w.ch[hash % Cap(t)], 0, q)
  {
    var h := hash % Cap(t);
    ChainInRange(t, w, h);
    ChainLength(t, w, h);
    HeadChain(t, w, h);
    if w.ch[h] != [] {
      ChainSlots(t, w, h, 0);
      WalkIsFirstHit(t, w, h, 0, q, |t.index|);
    }
  }

  lemma {:induction false} FirstHitFinds(t: Tab, c: seq<nat>, k: nat, q: Query)
    requires k <= |c| && forall i | 0 <= i < |c| :: c[i] < |t.index| && t.index[c[i]].entry < |t.ite|
    ensures match FirstHit(t, c, k, q)
            case Some(s) => s in c && Match(t.ite[t.index[s].entry], q)
            case None => forall i | k <= i < |c| :: !Match(t.ite[t.index[c[i]].entry], q)
    decreases |c| - k
  {
    if k < |c| { FirstHitFinds(t, c, k + 1, q); }
  }

  /** itb_search decides whether an allocated ITE under the head of `hash` matches, and finds one if so. */
  lemma LookupFinds(t: Tab, w: Shape, hash: nat, q: Query)
    requires Shaped(t, w)
    ensures match Lookup(t, hash, q)
            case Some(s) =>
              && s in w.ch[hash % Cap(t)] && s < |t.index| && t.index[s].entry < Cap(t)
              && t.bits[t.index[s].entry] && HeadOf(t, w, t.index[s].entry) == hash % Cap(t)
              && Match(t.ite[t.index[s].entry], q)
            case None =>
              forall e | 0 <= e < Cap(t) && t.bits[e] && HeadOf(t, w, e) == hash % Cap(t) :: !Match(t.ite[e], q)
  {
    var h := hash % Cap(t);
    LookupIsFirstHit(t, w, hash, q);
    FirstHitFinds(t, w.ch[h], 0, q);
    match Lookup(t, hash, q)
    case Some(s) =>
      var k :| 0 <= k < |w.ch[h]| && w.ch[h][k] == s;
      ChainEntry(t, w, h, k);
    case None =>
      ChainNames(t, w, h);
      forall e | 0 <= e < Cap(t) && t.bits[e] && HeadOf(t, w, e) == h
        ensures !Match(t.ite[e], q)
      {
        var es := Entries(t, w.ch[h]);
        var k :| 0 <= k < |es| && es[k] == e;
        assert t.index[w.ch[h][k]].entry == e;
      }
  }

  lemma {:induction false} WalksAlike(t: Tab, off: nat, q: Query, p: Query, fuel: nat)
    requires forall e :: Match(e, q) == Match(e, p)
    ensures Walk(t, off, q, fuel) == Walk(t, off, p, fuel)
    decreases fuel
  {
    hide Match;
    if fuel > 0 && off < |t.index| { WalksAlike(t, t.index[off].conflict, q, p, fuel - 1); }
  }

  /** A query of neither kind finds nothing, and one of both kinds goes by the uuid. */
  lemma KindOfQuery(t: Tab, w: Shape, hash: nat, q: Query)
    requires Shaped(t, w)
    ensures !q.byUuid && !q.byName ==> Answer(t, hash, q) == None
    ensures q.byUuid ==> Answer(t, hash, q) == Answer(t, hash, q.(byName := false, name := ""))
  {
    LookupFinds(t, w, hash, q);
    if q.byUuid { WalksAlike(t, hash % |t.bits|, q, q.(byName := false, name := ""), |t.index|); }
  }
}
