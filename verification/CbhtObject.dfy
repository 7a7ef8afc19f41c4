/** The CBHT as an object: a segmented directory, buckets and back pointers
    updated in place, proved to be a map from (puuid, itbid) to ITBs. */
module CbhtObject {
  import opened Common
  import opened CbhtBits
  import opened CbhtModel
  import opened CbhtSplit
  import opened CbhtDir
  import opened CbhtMap

  /** The back pointers after the ITBs of list k of bucket o that go have moved to bucket n. */
  function Repointed(be: map<Item, (nat, nat)>, l: seq<Item>, bd: nat, d: nat, n: nat, k: nat): map<Item, (nat, nat)> {
    map i | i in be :: if i in l && Goes(i, bd, d) then (n, k) else be[i]
  }

  /** One ITB further in the scan of a list. */
  lemma ScanNext(l: seq<Item>, bd: nat, d: nat, a: nat)
    requires a < |l|
    ensures Stay(l[..a + 1], bd, d) == Stay(l[..a], bd, d) + if Goes(l[a], bd, d) then [] else [l[a]]
    ensures Moved(l[..a + 1], bd, d) == (if Goes(l[a], bd, d) then [l[a]] else []) + Moved(l[..a], bd, d)
  {
    hide Goes;
    assert l[..a + 1][..a] == l[..a];
  }

  lemma RepointNext(l: seq<Item>, bd: nat, d: nat, be: map<Item, (nat, nat)>, n: nat, k: nat, a: nat)
    requires a < |l| && l[a] in be
    ensures Repointed(be, l[..a + 1], bd, d, n, k)
            == if Goes(l[a], bd, d) then Repointed(be, l[..a], bd, d, n, k)[l[a] := (n, k)]
               else Repointed(be, l[..a], bd, d, n, k)
  {
    hide Goes;
    var p, q := l[..a], l[..a + 1];
    assert q == p + [l[a]];
    assert forall i :: i in q <==> i in p || i == l[a];
  }

  /** The scan of one list by a split: ITBs that go are put at the head of the new list. */
  method MoveList(l: seq<Item>, bd: nat, d: nat, be: map<Item, (nat, nat)>, n: nat, k: nat)
    returns (keep: seq<Item>, moved: seq<Item>, be': map<Item, (nat, nat)>)
    requires forall i | i in l :: i in be
    ensures keep == Stay(l, bd, d) && moved == Moved(l, bd, d)
    ensures be' == Repointed(be, l, bd, d, n, k)
  {
    assert Repointed(be, l[..0], bd, d, n, k) == be;
    keep, moved, be' := [], [], be;
    var a := 0;
    assert keep == Stay(l[..0], bd, d) && moved == Moved(l[..0], bd, d);
    hide Goes, Stay, Moved, Repointed;
    while a < |l|
      invariant 0 <= a <= |l|
      invariant keep == Stay(l[..a], bd, d) && moved == Moved(l[..a], bd, d)
      invariant be' == Repointed(be, l[..a], bd, d, n, k)
    {
      ScanNext(l, bd, d, a);
      RepointNext(l, bd, d, be, n, k, a);
      if Goes(l[a], bd, d) {
        moved := [l[a]] + moved;
        be' := be'[l[a] := (n, k)];
      } else {
        keep := keep + [l[a]];
      }
      a := a + 1;
    }
    assert l[..a] == l;
  }

  /** The back pointers when a split of bucket o has done its first k lists. */
  function BeAfter(e: Eh, bd: nat, o: nat, k: nat): map<Item, (nat, nat)>
    requires o < |e.buckets|
  {
    map i | i in e.be ::
      if e.be[i].0 == o && e.be[i].1 < k && Goes(i, bd, e.buckets[o].depth) then (|e.buckets|, e.be[i].1) else e.be[i]
  }

  lemma BeAfterNext(e: Eh, bd: nat, H: Key -> nat, m: map<Key, Item>, o: nat, k: nat)
    requires Rep(e, bd, H, m) && o < |e.buckets| && k < |e.buckets[o].content|
    ensures BeAfter(e, bd, o, k + 1)
            == Repointed(BeAfter(e, bd, o, k), e.buckets[o].content[k], bd, e.buckets[o].depth, |e.buckets|, k)
    ensures forall i | i in e.buckets[o].content[k] :: i in e.be
  {
    hide Goes, Count, Pow2, Low, Shr;
    var l := e.buckets[o].content[k];
    forall i | i in l ensures i in e.be && e.be[i] == (o, k) {
      assert At(e, (o, k), i);
      assert ItemOk(e, bd, m, (o, k), i);
    }
    forall i | i in e.be && e.be[i] == (o, k) ensures i in l { assert At(e, e.be[i], i); }
  }

  lemma BeAfterAll(e: Eh, bd: nat, H: Key -> nat, m: map<Key, Item>, o: nat)
    requires Rep(e, bd, H, m) && o < |e.buckets|
    ensures BeAfter(e, bd, o, 0) == e.be && BeAfter(e, bd, o, |e.buckets[o].content|) == Divide(e, bd, o).be
  {
    hide Goes, ItemOk, Redirected, OldHalf, NewHalf;
    forall i | i in e.be && e.be[i].0 == o ensures e.be[i].1 < |e.buckets[o].content| { assert At(e, e.be[i], i); }
  }

  /** The moving part of a split level: every list of bucket o is scanned. */
  method MoveAll(ghost e: Eh, bd: nat, ghost H: Key -> nat, ghost m: map<Key, Item>,
                 o: nat, c: seq<seq<Item>>, d: nat, n: nat, be: map<Item, (nat, nat)>)
    returns (oc: seq<seq<Item>>, nc: seq<seq<Item>>, gone: nat, be': map<Item, (nat, nat)>)
    requires Rep(e, bd, H, m) && o < |e.buckets| == n && be == e.be
    requires c == e.buckets[o].content && d == e.buckets[o].depth
    ensures oc == StayAll(c, bd, d) && nc == MovedAll(c, bd, d) && gone == Count(nc)
    ensures be' == Divide(e, bd, o).be
  {
    hide Divide, Goes, Rep, BeAfter, Repointed, Stay, Moved, Count, StayAll, MovedAll;
    BeAfterAll(e, bd, H, m, o);
    oc, nc, gone, be' := c, seq(|c|, _ => []), 0, be;
    CountEmpty(nc);
    var k := 0;
    while k < |c|
      invariant 0 <= k <= |c| == |oc| == |nc|
      invariant forall j | 0 <= j < k :: oc[j] == Stay(c[j], bd, d) && nc[j] == Moved(c[j], bd, d)
      invariant forall j | k <= j < |c| :: oc[j] == c[j] && nc[j] == []
      invariant gone == Count(nc) && be' == BeAfter(e, bd, o, k)
    {
      BeAfterNext(e, bd, H, m, o, k);
      BeAfterKeys(e, bd, o, k);
      var keep, moved;
      keep, moved, be' := MoveList(c[k], bd, d, be', n, k);
      CountUpdate(nc, k, moved);
      oc, nc, gone := oc[k := keep], nc[k := moved], gone + |moved|;
      k := k + 1;
    }
    AllAre(c, bd, d, oc, nc);
  }

  lemma AllAre(c: seq<seq<Item>>, bd: nat, d: nat, oc: seq<seq<Item>>, nc: seq<seq<Item>>)
    requires |oc| == |nc| == |c| && forall j | 0 <= j < |c| :: oc[j] == Stay(c[j], bd, d) && nc[j] == Moved(c[j], bd, d)
    ensures oc == StayAll(c, bd, d) && nc == MovedAll(c, bd, d)
  {
    hide Stay, Moved;
  }

  lemma BeAfterKeys(e: Eh, bd: nat, o: nat, k: nat)
    requires o < |e.buckets|
    ensures BeAfter(e, bd, o, k).Keys == e.be.Keys
  {
  }

  /** The parts of a table after one level of a split of bucket o. */
  lemma LevelParts(e: Eh, bd: nat, o: nat)
    requires o < |e.buckets|
    ensures var b, f := e.buckets[o], Level(e, bd, o);
            var gone := Count(MovedAll(b.content, bd, b.depth));
            && f.dirDepth == (if b.depth + 1 > e.dirDepth then e.dirDepth + 1 else e.dirDepth)
            && f.dir == Redirected(if b.depth + 1 > e.dirDepth then e.dir + e.dir else e.dir,
                                   b.depth + 1, b.id + Pow2(b.depth), |e.buckets|)
            && f.buckets == e.buckets[o := b.(active := b.active - gone, depth := b.depth + 1,
                                              content := StayAll(b.content, bd, b.depth))]
                            + [Bucket(gone, bd, b.depth + 1, b.id + Pow2(b.depth), MovedAll(b.content, bd, b.depth))]
            && f.be == Divide(e, bd, o).be
  {
  }

  class Cbht {
    const bd: nat
    const alen: nat
    const H: Key -> nat
    var dirDepth: nat
    var segs: seq<Segment>
    var buckets: seq<Bucket>
    var be: map<Item, (nat, nat)>
    ghost var m: map<Key, Item>

    ghost function State(): Eh
      reads this
    {
      Eh(dirDepth, Dir(segs), buckets, be)
    }

    ghost predicate Valid()
      reads this
    {
      && alen > 0 && Contig(segs, alen) && (forall j | 0 <= j < |segs| :: segs[j].seg != [])
      && Inv(State(), bd) && Rep(State(), bd, H, m)
    }

    /** mds_cbht_init: one segment that refers to one empty bucket. */
    constructor (bdepth: nat, segLen: nat, hash: Key -> nat)
      requires segLen > 0
      ensures Valid() && m == map[] && bd == bdepth && alen == segLen && H == hash
      ensures State() == Fresh(bdepth)
    {
      bd, alen, H := bdepth, segLen, hash;
      dirDepth := 0;
      segs := [Segment(0, segLen, [0])];
      buckets := [NewBucket(bdepth)];
      be, m := map[], map[];
      new;
      FreshKeeps(bd, H);
      assert segs[..0] == [];
      assert Dir(segs) == [0];
      assert State() == Fresh(bdepth);
    }

    /** One turn of the retry loop of cbht_bucket_split. */
    method SplitLevel(o: nat)
      requires Valid() && o < |buckets|
      modifies this
      ensures Valid() && m == old(m) && State() == Level(old(State()), bd, o)
    {
      hide Inv, Rep, Level, Divide, Redirected, StayAll, MovedAll, Count, Pow2, Dir, Contig;
      ghost var e := State();
      LevelKeeps(e, bd, H, m, o);
      LevelParts(e, bd, o);
      InvSize(e, bd);
      var d, id, n := buckets[o].depth, buckets[o].id, |buckets|;
      var oc, nc, gone, be' := MoveAll(e, bd, H, m, o, buckets[o].content, d, n, be);
      be := be';
      buckets := buckets[o := buckets[o].(active := buckets[o].active - gone, depth := d + 1, content := oc)]
                 + [Bucket(gone, bd, d + 1, id + Pow2(d), nc)];
      // cbht_update_dir
      if d + 1 > dirDepth {
        segs := EnlargeDir(segs, alen, dirDepth);
        PowStep(dirDepth);
        dirDepth := dirDepth + 1;
      }
      segs := UpdateDir(segs, alen, dirDepth, d + 1, id + Pow2(d), n);
    }

    /** mds_cbht_search_dir */
    method SearchDir(h: nat) returns (x: nat)
      requires Valid()
      ensures x == Lead(State(), bd, h) && x < |buckets| && Low(h, bd) < |buckets[x].content| && buckets[x].adepth == bd
      ensures Low(Shr(h, bd), buckets[x].depth) == buckets[x].id
    {
      hide Rep, Low, Shr, Pow2;
      LeadIs(State(), bd, h);
      SlotLeads(State(), bd, h);
      x := Locate(segs, alen, Low(Shr(h, bd), dirDepth));
    }

    /** The retry loop of cbht_bucket_split.  It is entered with a full bucket
        that the key leads to and leaves the key's bucket with room, at a depth
        no larger than the number of low bits within which some ITB of the
        bucket differs from the key. */
    method Split(o: nat, h: nat)
      requires Valid() && o < |buckets| && Full(buckets[o]) && Low(Shr(h, bd), buckets[o].depth) == buckets[o].id
      requires Ends(buckets[o], bd, Shr(h, bd))
      modifies this
      ensures Valid() && m == old(m) && Lead(State(), bd, h) < |buckets|
      ensures !Full(buckets[Lead(State(), bd, h)])
      ensures forall n: nat | EndsWithin(old(buckets[o]), bd, Shr(h, bd), n) :: buckets[Lead(State(), bd, h)].depth <= n
    {
      hide Inv, Rep, Level, Low, Shr, Bit, Dir, Contig, Agrees, Ends, EndsWithin, Pow2;
      var c, go := Shr(h, bd), true;
      var tb: nat := o;
      ghost var home: nat := o;
      ghost var b0 := buckets[o];
      ghost var bound := EndsWithinSome(b0, bd, c);
      FullAgrees(State(), bd, H, m, o, c);
      BucketLimits(State(), bd, o);
      while go
        invariant Valid() && m == old(m) && home < |buckets|
        invariant Low(c, buckets[home].depth) == buckets[home].id && buckets[home].adepth == bd
        invariant go ==> home == tb && buckets[tb].active == 2 * Pow2(bd)
        invariant go ==> Agrees(buckets[tb], bd, c) && Ends(buckets[tb], bd, c)
        invariant go ==> forall n: nat | EndsWithin(b0, bd, c, n) :: EndsWithin(buckets[tb], bd, c, n)
        invariant !go ==> !Full(buckets[home]) && forall n: nat | EndsWithin(b0, bd, c, n) :: buckets[home].depth <= n
        decreases go, bound - buckets[home].depth
      {
        ghost var e := State();
        var d, n := buckets[tb].depth, |buckets|;
        Turn(e, bd, tb, c);
        LevelHalves(e, bd, tb);
        home := Home(e, tb, c);
        SplitLevel(tb);
        if buckets[n].active == 0 && !Bit(c, d) {
        } else if buckets[tb].active == 0 && Bit(c, d) {
          tb := n;
        } else {
          go := false;
        }
      }
      LeadsTo(State(), bd, h, home);
    }

    /** Whether an insert of a key with this hash returns. */
    method Returns(h: nat) returns (ok: bool)
      requires Valid()
      ensures ok == !Stuck(State(), bd, h)
    {
      var x := SearchDir(h);
      ok := !(Full(buckets[x]) && !Ends(buckets[x], bd, Shr(h, bd)));
    }

    /** mds_cbht_insert_bbrlocked: the ITB is hashed unless one with its key
        already is, which is returned then. */
    method Insert(id: nat, k: Key) returns (oi: Option<Item>)
      requires Valid() && !Stuck(State(), bd, H(k))
      modifies this
      ensures Valid() && m == After(old(m), H, Create(id, k))
      ensures oi == if k in old(m) then Some(old(m)[k]) else None
    {
      hide Rep, Low, Shr, Pow2, Ends, Dir, Contig, EndsWithin;
      var i := Item(id, k.0, k.1, H(k));
      var x := SearchDir(i.hash);
      while Full(buckets[x])
        invariant Valid() && m == old(m) && x < |buckets| && x == Lead(State(), bd, i.hash)
        invariant Full(buckets[x]) ==> State() == old(State())
        invariant Low(i.hash, bd) < |buckets[x].content| && Low(Shr(i.hash, bd), buckets[x].depth) == buckets[x].id
        decreases Full(buckets[x])
      {
        Split(x, i.hash);
        x := SearchDir(i.hash);
      }
      var o := Low(i.hash, bd);
      FindIsMap(State(), bd, H, m, k);
      oi := Scan(buckets[x].content[o], k);
      if oi == None { Link(x, o, i); }
    }

    /** An ITB is put at the head of its list, which has been found free of its key. */
    method Link(x: nat, o: nat, i: Item)
      requires Valid() && x < |buckets| && !Full(buckets[x]) && x == Lead(State(), bd, i.hash)
      requires o == Low(i.hash, bd) < |buckets[x].content| && Low(Shr(i.hash, bd), buckets[x].depth) == buckets[x].id
      requires KeyOf(i) !in m && i.hash == H(KeyOf(i))
      modifies this
      ensures Valid() && m == old(m)[KeyOf(i) := i] && State() == old(Put(State(), bd, x, i))
    {
      hide Rep, Inv, Low, Shr, Pow2, Dir, Contig;
      PutKeepsInv(State(), bd, i);
      PutKeepsRep(State(), bd, H, m, x, i);
      buckets := buckets[x := buckets[x].(active := buckets[x].active + 1,
                                          content := buckets[x].content[o := [i] + buckets[x].content[o]])];
      be := be[i := (x, o)];
      m := m[KeyOf(i) := i];
    }

    /** mds_cbht_del: the ITB is unhashed if its back pointer is the list that
        its hash leads to; otherwise it has been moved or deleted. */
    method Delete(i: Item)
      requires Valid()
      modifies this
      ensures Valid() && m == After(old(m), H, Drop(i))
      ensures State() == old(if i in be then Take(State(), be[i], i) else State())
    {
      hide Low, Shr, Pow2, Dir, Contig;
      var x := SearchDir(i.hash);
      var o := Low(i.hash, bd);
      HashedIsHeld(State(), bd, H, m, i);
      if i !in be || be[i] != (x, o) { return; }
      TakeKeepsInv(State(), bd, (x, o), i);
      TakeKeepsRep(State(), bd, H, m, (x, o), i);
      buckets := buckets[x := buckets[x].(content := buckets[x].content[o := Without(buckets[x].content[o], i)])];
      be := be - {i};
      m := m - {KeyOf(i)};
    }

    /** The lookup part of mds_cbht_search, with its shortcut for empty buckets. */
    method Search(k: Key) returns (found: Option<Item>)
      requires Valid()
      ensures found == if k in m then Some(m[k]) else None
    {
      hide Rep, Low, Shr, Pow2, Dir, Contig;
      var x := SearchDir(H(k));
      FindIsMap(State(), bd, H, m, k);
      if buckets[x].active == 0 {
        InactiveIsEmpty(State(), bd, x, Low(H(k), bd));
        return None;
      }
      found := Scan(buckets[x].content[Low(H(k), bd)], k);
    }

    method Serve(op: Op) returns (r: Reply)
      requires Valid()
      modifies this
      ensures Valid() && StepOk(bd, H, old(State()), old(m), op, r, State(), m)
    {
      hide Inv, Rep, Stuck, Contig, Dir, After, ReplyTo, Fresh, Low, Shr, Pow2;
      InvSize(State(), bd);
      Replies(m, op);
      match op
      case Create(id, k) =>
        var ok := Returns(H(k));
        if !ok { return Hang; }
        var oi := Insert(id, k);
        r := match oi case None => Added case Some(i) => Exists(i);
      case Drop(i) =>
        Delete(i);
        r := Dropped;
      case Ask(k) =>
        var f := Search(k);
        r := Answer(f);
    }
  }

  /** The scan of one list for a key. */
  method Scan(l: seq<Item>, k: Key) returns (found: Option<Item>)
    ensures found == FindIn(l, k)
  {
    var a := 0;
    while a < |l|
      invariant 0 <= a <= |l| && FindIn(l, k) == FindIn(l[a..], k)
    {
      if l[a].puuid == k.0 && l[a].itbid == k.1 { return Some(l[a]); }
      a := a + 1;
    }
    return None;
  }

  /** A run from an empty table.  Unless an insert splits for ever, and then the
      run stops there, every reply is the map's. */
  method Run(bd: nat, alen: nat, H: Key -> nat, ops: seq<Op>)
    returns (rs: seq<Reply>)
    requires alen > 0
    ensures Answers(bd, H, ops, rs)
  {
    hide Inv, Rep, Contig, Dir, StepOk, Fresh;
    var t := new Cbht(bd, alen, H);
    rs := [];
    ghost var es, ms := [t.State()], [t.m];
    while |rs| < |ops|
      invariant t.Valid() && fresh(t) && t.bd == bd && t.H == H
      invariant |es| == |ms| == |rs| + 1 && |rs| <= |ops| && es[0] == Fresh(bd) && ms[0] == map[]
      invariant es[|rs|] == t.State() && ms[|rs|] == t.m
      invariant forall k | 0 <= k < |rs| :: StepOk(bd, H, es[k], ms[k], ops[k], rs[k], es[k + 1], ms[k + 1])
      invariant forall k | 0 <= k < |rs| :: rs[k] != Hang
    {
      var r := t.Serve(ops[|rs|]);
      rs := rs + [r];
      es, ms := es + [t.State()], ms + [t.m];
      if r == Hang { break; }
    }
    assert Explains(bd, H, es, ms, ops, rs);
  }

  lemma Replies(m: map<Key, Item>, op: Op)
    ensures op.Create? ==> ReplyTo(m, op) == if op.key in m then Exists(m[op.key]) else Added
    ensures op.Drop? ==> ReplyTo(m, op) == Dropped
    ensures op.Ask? ==> ReplyTo(m, op) == Answer(if op.key in m then Some(m[op.key]) else None)
    ensures forall H: Key -> nat :: op.Ask? ==> After(m, H, op) == m
  {
  }

  lemma BucketLimits(e: Eh, bd: nat, x: nat)
    requires Inv(e, bd) && x < |e.buckets|
    ensures e.buckets[x].adepth == bd && e.buckets[x].active <= 2 * Pow2(bd)
  {
    assert BucketOk(e, bd, x);
  }

  lemma LeadsTo(e: Eh, bd: nat, h: nat, x: nat)
    requires Inv(e, bd) && x < |e.buckets| && Low(Shr(h, bd), e.buckets[x].depth) == e.buckets[x].id
    ensures Lead(e, bd, h) == x
  {
    SlotLeads(e, bd, h);
  }

  lemma InvSize(e: Eh, bd: nat)
    requires Inv(e, bd)
    ensures |e.dir| == Pow2(e.dirDepth)
  {
  }

  lemma PowStep(n: nat)
    ensures Pow2(n + 1) == Pow2(n) + Pow2(n)
  {
  }
}
