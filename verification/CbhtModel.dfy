/** The cached buffer hash table of mds/cbht.c: an extendible hash table of
    ITBs keyed by (puuid, itbid), its invariant, and one level of a split. */
module CbhtModel {
  import opened Common
  import opened CbhtBits

  /** A hashed ITB.  `id` is its identity, `hash` the field set by the insert. */
  datatype Item = Item(id: nat, puuid: nat, itbid: nat, hash: nat)

  type Key = (nat, nat)

  function KeyOf(i: Item): Key { (i.puuid, i.itbid) }

  /** `active` counts the inserts that the bucket has seen; a delete does not lower it. */
  datatype Bucket = Bucket(active: int, adepth: nat, depth: nat, id: nat, content: seq<seq<Item>>)

  /** The table with its segmented directory seen as one sequence of bucket
      numbers, and the back pointers `be` of the hashed ITBs. */
  datatype Eh = Eh(dirDepth: nat, dir: seq<nat>, buckets: seq<Bucket>, be: map<Item, (nat, nat)>)

  function NewBucket(bd: nat): Bucket { Bucket(0, bd, 0, 0, seq(Pow2(bd), _ => [])) }

  /** The table after mds_cbht_init. */
  function Fresh(bd: nat): Eh { Eh(0, [0], [NewBucket(bd)], map[]) }

  // -------------------------------------------------------------- counting

  function Count(c: seq<seq<Item>>): nat {
    if c == [] then 0 else Count(c[..|c| - 1]) + |c[|c| - 1]|
  }

  lemma {:induction false} CountPositive(c: seq<seq<Item>>, o: nat)
    requires o < |c|
    ensures |c[o]| <= Count(c)
  {
    if o < |c| - 1 { CountPositive(c[..|c| - 1], o); }
  }

  lemma {:induction false} CountEmpty(c: seq<seq<Item>>)
    requires forall o | 0 <= o < |c| :: c[o] == []
    ensures Count(c) == 0
  {
    if c != [] { CountEmpty(c[..|c| - 1]); }
  }

  lemma {:induction false} CountUpdate(c: seq<seq<Item>>, o: nat, l: seq<Item>)
    requires o < |c|
    ensures Count(c[o := l]) == Count(c) - |c[o]| + |l|
  {
    var n := |c| - 1;
    if o < n {
      CountUpdate(c[..n], o, l);
      assert c[o := l][..n] == c[..n][o := l];
    } else {
      assert c[o := l][..n] == c[..n];
    }
  }

  // ----------------------------------------------------- splitting a bucket

  /** The split of a bucket of depth d moves this ITB to the new bucket. */
  predicate Goes(i: Item, bd: nat, d: nat) { Bit(Shr(i.hash, bd), d) }

  function Stay(l: seq<Item>, bd: nat, d: nat): seq<Item> {
    if l == [] then []
    else
      var x := l[|l| - 1];
      Stay(l[..|l| - 1], bd, d) + if Goes(x, bd, d) then [] else [x]
  }

  /** Each moved ITB goes to the head of its new list. */
  function Moved(l: seq<Item>, bd: nat, d: nat): seq<Item> {
    if l == [] then []
    else
      var x := l[|l| - 1];
      (if Goes(x, bd, d) then [x] else []) + Moved(l[..|l| - 1], bd, d)
  }

  lemma {:induction false} StayMoved(l: seq<Item>, bd: nat, d: nat)
    ensures forall i :: i in Stay(l, bd, d) <==> i in l && !Goes(i, bd, d)
    ensures forall i :: i in Moved(l, bd, d) <==> i in l && Goes(i, bd, d)
    ensures |Stay(l, bd, d)| + |Moved(l, bd, d)| == |l|
    ensures Distinct(l) ==> Distinct(Stay(l, bd, d)) && Distinct(Moved(l, bd, d))
  {
    hide Goes;
    if l != [] {
      var n := |l| - 1;
      StayMoved(l[..n], bd, d);
      assert l == l[..n] + [l[n]];
      if Distinct(l) { assert l[n] !in l[..n]; }
    }
  }

  function StayAll(c: seq<seq<Item>>, bd: nat, d: nat): (r: seq<seq<Item>>)
    ensures |r| == |c|
  {
    seq(|c|, o requires 0 <= o < |c| => Stay(c[o], bd, d))
  }

  function MovedAll(c: seq<seq<Item>>, bd: nat, d: nat): (r: seq<seq<Item>>)
    ensures |r| == |c|
  {
    seq(|c|, o requires 0 <= o < |c| => Moved(c[o], bd, d))
  }

  /** A split neither makes nor loses ITBs. */
  lemma {:induction false} CountSplit(c: seq<seq<Item>>, bd: nat, d: nat)
    ensures Count(StayAll(c, bd, d)) + Count(MovedAll(c, bd, d)) == Count(c)
  {
    if c != [] {
      var n := |c| - 1;
      CountSplit(c[..n], bd, d);
      StayMoved(c[n], bd, d);
      assert StayAll(c, bd, d)[..n] == StayAll(c[..n], bd, d);
      assert MovedAll(c, bd, d)[..n] == MovedAll(c[..n], bd, d);
    }
  }

  /** segment_update_dir: every slot that agrees with id in the bits of the mask refers to x. */
  function Redirected(dir: seq<nat>, d: nat, id: nat, x: nat): (r: seq<nat>)
    ensures |r| == |dir|
  {
    seq(|dir|, s requires 0 <= s < |dir| => if Low(s, d) == Low(id, d) then x else dir[s])
  }

  /** cbht_enlarge_dir. */
  function Double(e: Eh): Eh { e.(dirDepth := e.dirDepth + 1, dir := e.dir + e.dir) }

  /** Bucket o after its split. */
  function OldHalf(b: Bucket, bd: nat): Bucket {
    b.(active := b.active - Count(MovedAll(b.content, bd, b.depth)), depth := b.depth + 1,
       content := StayAll(b.content, bd, b.depth))
  }

  /** The new bucket that its split makes. */
  function NewHalf(b: Bucket, bd: nat): Bucket {
    Bucket(Count(MovedAll(b.content, bd, b.depth)), bd, b.depth + 1, b.id + Pow2(b.depth),
           MovedAll(b.content, bd, b.depth))
  }

  /** One level of a split, in a directory deep enough for it. */
  function Divide(e: Eh, bd: nat, o: nat): Eh
    requires o < |e.buckets|
  {
    var b, n := e.buckets[o], |e.buckets|;
    Eh(e.dirDepth,
       Redirected(e.dir, b.depth + 1, b.id + Pow2(b.depth), n),
       e.buckets[o := OldHalf(b, bd)] + [NewHalf(b, bd)],
       map i | i in e.be :: if e.be[i].0 == o && Goes(i, bd, b.depth) then (n, e.be[i].1) else e.be[i])
  }

  /** One turn of the retry loop of cbht_bucket_split. */
  function Level(e: Eh, bd: nat, o: nat): Eh
    requires o < |e.buckets|
  {
    Divide(if e.buckets[o].depth + 1 > e.dirDepth then Double(e) else e, bd, o)
  }

  // -------------------------------------------------------------- invariant

  ghost predicate BucketOk(e: Eh, bd: nat, x: nat)
    requires x < |e.buckets|
  {
    var b := e.buckets[x];
    && b.depth <= e.dirDepth && b.id < Pow2(b.depth) && b.adepth == bd && |b.content| == Pow2(bd)
    && Count(b.content) <= b.active <= 2 * Pow2(bd)
    && (forall s | 0 <= s < |e.dir| && Low(s, b.depth) == b.id :: e.dir[s] == x)
  }

  ghost predicate SlotOk(e: Eh, s: nat)
    requires s < |e.dir|
  {
    e.dir[s] < |e.buckets| && var b := e.buckets[e.dir[s]]; Low(s, b.depth) == b.id
  }

  /** The directory has 2^dirDepth slots and refers to each bucket from exactly
      the slots that agree with its id in its depth. */
  ghost predicate Inv(e: Eh, bd: nat) {
    && |e.dir| == Pow2(e.dirDepth)
    && (forall x | 0 <= x < |e.buckets| :: BucketOk(e, bd, x))
    && (forall s | 0 <= s < |e.dir| :: SlotOk(e, s))
  }

  /** ITB i is in list p.1 of bucket p.0. */
  predicate At(e: Eh, p: (nat, nat), i: Item) {
    p.0 < |e.buckets| && p.1 < |e.buckets[p.0].content| && i in e.buckets[p.0].content[p.1]
  }

  /** A hashed ITB is where its hash says, and its back pointer agrees. */
  ghost predicate ItemOk(e: Eh, bd: nat, m: map<Key, Item>, p: (nat, nat), i: Item)
    requires At(e, p, i)
  {
    && Low(i.hash, bd) == p.1 && Low(Shr(i.hash, bd), e.buckets[p.0].depth) == e.buckets[p.0].id
    && i in e.be && e.be[i] == p && KeyOf(i) in m && m[KeyOf(i)] == i
  }

  /** The table holds the map m, and nothing else. */
  ghost predicate Rep(e: Eh, bd: nat, H: Key -> nat, m: map<Key, Item>) {
    && (forall p, i | At(e, p, i) :: ItemOk(e, bd, m, p, i))
    && (forall x, o | 0 <= x < |e.buckets| && 0 <= o < |e.buckets[x].content| :: Distinct(e.buckets[x].content[o]))
    && (forall i | i in e.be :: At(e, e.be[i], i))
    && (forall k | k in m :: KeyOf(m[k]) == k && m[k].hash == H(k) && m[k] in e.be)
  }

  // ----------------------------------------------------------------- lookup

  /** The directory slot of a hash. */
  function SlotOf(e: Eh, bd: nat, h: nat): nat { Low(Shr(h, bd), e.dirDepth) }

  /** The first ITB of a list with the key. */
  function FindIn(l: seq<Item>, k: Key): Option<Item> {
    if l == [] then None else if KeyOf(l[0]) == k then Some(l[0]) else FindIn(l[1..], k)
  }

  lemma {:induction false} FindInIs(l: seq<Item>, k: Key)
    ensures match FindIn(l, k) case Some(i) => i in l && KeyOf(i) == k case None => forall i | i in l :: KeyOf(i) != k
  {
    if l != [] { FindInIs(l[1..], k); }
  }

  /** mds_cbht_search_dir and the scan of the list it leads to. */
  function Find(e: Eh, bd: nat, H: Key -> nat, k: Key): Option<Item>
    requires |e.dir| == Pow2(e.dirDepth)
  {
    var x := e.dir[SlotOf(e, bd, H(k))];
    if x < |e.buckets| && Low(H(k), bd) < |e.buckets[x].content|
    then FindIn(e.buckets[x].content[Low(H(k), bd)], k) else None
  }

  /** The slot of a hash leads to the bucket whose id is the hash's low bits. */
  lemma SlotLeads(e: Eh, bd: nat, h: nat)
    requires Inv(e, bd)
    ensures SlotOf(e, bd, h) < |e.dir|
    ensures var x := e.dir[SlotOf(e, bd, h)];
            x < |e.buckets| && Low(Shr(h, bd), e.buckets[x].depth) == e.buckets[x].id
    ensures forall y | 0 <= y < |e.buckets| && Low(Shr(h, bd), e.buckets[y].depth) == e.buckets[y].id ::
              e.dir[SlotOf(e, bd, h)] == y
  {
    var s := SlotOf(e, bd, h);
    assert SlotOk(e, s);
    var x := e.dir[s];
    assert BucketOk(e, bd, x);
    LowBits(Shr(h, bd), e.buckets[x].depth, e.dirDepth);
    forall y | 0 <= y < |e.buckets| && Low(Shr(h, bd), e.buckets[y].depth) == e.buckets[y].id ensures x == y {
      assert BucketOk(e, bd, y);
      LowBits(Shr(h, bd), e.buckets[y].depth, e.dirDepth);
    }
  }

  /** A lookup finds exactly what the map holds. */
  lemma FindIsMap(e: Eh, bd: nat, H: Key -> nat, m: map<Key, Item>, k: Key)
    requires Inv(e, bd) && Rep(e, bd, H, m)
    ensures Find(e, bd, H, k) == if k in m then Some(m[k]) else None
  {
    var h := H(k);
    SlotLeads(e, bd, h);
    var x, o := e.dir[SlotOf(e, bd, h)], Low(h, bd);
    assert BucketOk(e, bd, x);
    var l := e.buckets[x].content[o];
    FindInIs(l, k);
    hide Inv;
    assert forall i | i in l :: At(e, (x, o), i);
    if k in m {
      var i := m[k];
      assert At(e, e.be[i], i);
      assert ItemOk(e, bd, m, e.be[i], i);
    }
  }

  /** An empty bucket, by its counter, holds no ITB: the shortcut of mds_cbht_search is sound. */
  lemma InactiveIsEmpty(e: Eh, bd: nat, x: nat, o: nat)
    requires Inv(e, bd) && x < |e.buckets| && e.buckets[x].active == 0 && o < |e.buckets[x].content|
    ensures e.buckets[x].content[o] == []
  {
    assert BucketOk(e, bd, x);
    CountPositive(e.buckets[x].content, o);
  }

  // ---------------------------------------------- one level of a split keeps

  lemma DoubleKeepsInv(e: Eh, bd: nat)
    requires Inv(e, bd)
    ensures Inv(Double(e), bd)
  {
    var f := Double(e);
    forall s | 0 <= s < |f.dir| ensures SlotOk(f, s) && f.dir[s] == e.dir[Low(s, e.dirDepth)] { DoubleSlot(e, bd, s); }
    forall x | 0 <= x < |f.buckets| ensures BucketOk(f, bd, x) { DoubleBucket(e, bd, x); }
  }

  lemma DoubleSlot(e: Eh, bd: nat, s: nat)
    requires Inv(e, bd) && s < |Double(e).dir|
    ensures Double(e).dir[s] == e.dir[Low(s, e.dirDepth)] && SlotOk(Double(e), s)
  {
    var n := Pow2(e.dirDepth);
    if s < n { DivUnique(s, n, 0, s); } else { DivUnique(s, n, 1, s - n); }
    assert SlotOk(e, Low(s, e.dirDepth));
    assert BucketOk(e, bd, e.dir[Low(s, e.dirDepth)]);
    LowBits(s, e.buckets[e.dir[Low(s, e.dirDepth)]].depth, e.dirDepth);
  }

  lemma DoubleBucket(e: Eh, bd: nat, x: nat)
    requires Inv(e, bd) && x < |e.buckets|
    ensures BucketOk(Double(e), bd, x)
  {
    var f := Double(e);
    var b := e.buckets[x];
    assert BucketOk(e, bd, x);
    forall s | 0 <= s < |f.dir| && Low(s, b.depth) == b.id ensures f.dir[s] == x {
      DoubleSlot(e, bd, s);
      LowBits(s, b.depth, e.dirDepth);
    }
  }

  lemma DoubleKeepsRep(e: Eh, bd: nat, H: Key -> nat, m: map<Key, Item>)
    requires Rep(e, bd, H, m)
    ensures Rep(Double(e), bd, H, m)
  {
    var f := Double(e);
    forall p, i | At(f, p, i) ensures ItemOk(f, bd, m, p, i) { assert At(e, p, i); assert ItemOk(e, bd, m, p, i); }
    forall i | i in f.be ensures At(f, f.be[i], i) { assert At(e, e.be[i], i); }
  }

  lemma DivideSlot(e: Eh, bd: nat, o: nat, s: nat)
    requires Inv(e, bd) && o < |e.buckets| && e.buckets[o].depth < e.dirDepth && s < |e.dir|
    ensures SlotOk(Divide(e, bd, o), s)
    ensures e.dir[s] == o || Divide(e, bd, o).dir[s] == e.dir[s]
  {
    var b := e.buckets[o];
    assert BucketOk(e, bd, o) && SlotOk(e, s);
    NextBit(s, b.depth);
    SetBit(b.id, b.depth);
    LowBits(s, b.depth, b.depth + 1);
    hide Low, Bit, OldHalf, NewHalf, Redirected;
    RedirectedAt(e.dir, b.depth + 1, b.id + Pow2(b.depth), |e.buckets|, s);
    HalfParts(b, bd);
  }

  lemma RedirectedAt(dir: seq<nat>, d: nat, id: nat, x: nat, s: nat)
    requires s < |dir|
    ensures Redirected(dir, d, id, x)[s] == if Low(s, d) == Low(id, d) then x else dir[s]
  {
  }

  lemma HalfParts(b: Bucket, bd: nat)
    ensures OldHalf(b, bd).depth == NewHalf(b, bd).depth == b.depth + 1
    ensures OldHalf(b, bd).id == b.id && NewHalf(b, bd).id == b.id + Pow2(b.depth)
  {
  }

  lemma DivideCounts(e: Eh, bd: nat, o: nat, x: nat)
    requires Inv(e, bd) && o < |e.buckets| && x <= |e.buckets|
    ensures var b := Divide(e, bd, o).buckets[x];
            && b.id < Pow2(b.depth) && b.adepth == bd && |b.content| == Pow2(bd)
            && Count(b.content) <= b.active <= 2 * Pow2(bd)
            && b.depth <= if x == o || x == |e.buckets| then e.buckets[o].depth + 1 else e.dirDepth
  {
    assert BucketOk(e, bd, o);
    if x < |e.buckets| { assert BucketOk(e, bd, x); }
    hide Inv, Redirected, StayAll, MovedAll, Goes, Low;
    CountSplit(e.buckets[o].content, bd, e.buckets[o].depth);
  }

  lemma DivideLeads(e: Eh, bd: nat, o: nat, x: nat, s: nat)
    requires Inv(e, bd) && o < |e.buckets| && x <= |e.buckets| && s < |e.dir|
    requires var b := Divide(e, bd, o).buckets[x]; Low(s, b.depth) == b.id
    ensures Divide(e, bd, o).dir[s] == x
  {
    var b, n := e.buckets[o], |e.buckets|;
    assert BucketOk(e, bd, o);
    if x < n { assert BucketOk(e, bd, x); }
    SetBit(b.id, b.depth);
    NextBit(s, b.depth);
    HalfParts(b, bd);
    hide Inv, Low, Bit, Redirected, OldHalf, NewHalf, Count, Goes;
    RedirectedAt(e.dir, b.depth + 1, b.id + Pow2(b.depth), n, s);
  }

  lemma DivideBucket(e: Eh, bd: nat, o: nat, x: nat)
    requires Inv(e, bd) && o < |e.buckets| && e.buckets[o].depth < e.dirDepth && x <= |e.buckets|
    ensures BucketOk(Divide(e, bd, o), bd, x)
  {
    hide Inv, Divide, Low, Count;
    var f := Divide(e, bd, o);
    DivideSizes(e, bd, o);
    DivideCounts(e, bd, o, x);
    forall s | 0 <= s < |f.dir| && Low(s, f.buckets[x].depth) == f.buckets[x].id ensures f.dir[s] == x {
      DivideLeads(e, bd, o, x, s);
    }
  }

  lemma DivideSizes(e: Eh, bd: nat, o: nat)
    requires o < |e.buckets|
    ensures var f := Divide(e, bd, o); |f.buckets| == |e.buckets| + 1 && |f.dir| == |e.dir| && f.dirDepth == e.dirDepth
  {
  }

  lemma DivideKeepsInv(e: Eh, bd: nat, o: nat)
    requires Inv(e, bd) && o < |e.buckets| && e.buckets[o].depth < e.dirDepth
    ensures Inv(Divide(e, bd, o), bd)
  {
    var f := Divide(e, bd, o);
    forall s | 0 <= s < |f.dir| ensures SlotOk(f, s) { DivideSlot(e, bd, o, s); }
    forall x | 0 <= x < |f.buckets| ensures BucketOk(f, bd, x) { DivideBucket(e, bd, o, x); }
  }

  /** What the two halves hold. */
  lemma HalvesHold(b: Bucket, bd: nat, o: nat)
    requires o < |b.content|
    ensures |OldHalf(b, bd).content| == |NewHalf(b, bd).content| == |b.content|
    ensures forall i :: i in OldHalf(b, bd).content[o] <==> i in b.content[o] && !Goes(i, bd, b.depth)
    ensures forall i :: i in NewHalf(b, bd).content[o] <==> i in b.content[o] && Goes(i, bd, b.depth)
    ensures Distinct(b.content[o]) ==> Distinct(OldHalf(b, bd).content[o]) && Distinct(NewHalf(b, bd).content[o])
  {
    StayMoved(b.content[o], bd, b.depth);
  }

  lemma DivideItem(e: Eh, bd: nat, H: Key -> nat, m: map<Key, Item>, o: nat, p: (nat, nat), i: Item)
    requires Inv(e, bd) && Rep(e, bd, H, m) && o < |e.buckets| && At(Divide(e, bd, o), p, i)
    ensures ItemOk(Divide(e, bd, o), bd, m, p, i)
  {
    var b, n := e.buckets[o], |e.buckets|;
    var q := (if p.0 == n then o else p.0, p.1);
    if p.0 == n || p.0 == o {
      assert BucketOk(e, bd, o);
      HalvesHold(b, bd, p.1);
      HalfParts(b, bd);
    }
    hide Low, Shr, Bit, Pow2, Count, Inv, OldHalf, NewHalf, Redirected;
    assert At(e, q, i);
    assert ItemOk(e, bd, m, q, i);
    NextBit(Shr(i.hash, bd), b.depth);
  }

  lemma DivideKeepsRep(e: Eh, bd: nat, H: Key -> nat, m: map<Key, Item>, o: nat)
    requires Inv(e, bd) && Rep(e, bd, H, m) && o < |e.buckets|
    ensures Rep(Divide(e, bd, o), bd, H, m)
  {
    var b, f, n := e.buckets[o], Divide(e, bd, o), |e.buckets|;
    forall p, i | At(f, p, i) ensures ItemOk(f, bd, m, p, i) { DivideItem(e, bd, H, m, o, p, i); }
    assert BucketOk(e, bd, o);
    hide Inv, ItemOk, OldHalf, NewHalf, Redirected, Goes;
    forall x, l | 0 <= x < |f.buckets| && 0 <= l < |f.buckets[x].content| ensures Distinct(f.buckets[x].content[l]) {
      if x == o || x == n { HalvesSize(b, bd); HalvesHold(b, bd, l); }
    }
    forall i | i in f.be ensures At(f, f.be[i], i) {
      assert At(e, e.be[i], i);
      if e.be[i].0 == o { HalvesHold(b, bd, e.be[i].1); }
    }
  }

  lemma HalvesSize(b: Bucket, bd: nat)
    ensures |OldHalf(b, bd).content| == |NewHalf(b, bd).content| == |b.content|
  {
  }

  lemma FreshKeeps(bd: nat, H: Key -> nat)
    ensures Inv(Fresh(bd), bd) && Rep(Fresh(bd), bd, H, map[])
  {
    CountEmpty(NewBucket(bd).content);
  }

  /** A level of a split keeps the invariant and every ITB. */
  lemma LevelKeeps(e: Eh, bd: nat, H: Key -> nat, m: map<Key, Item>, o: nat)
    requires Inv(e, bd) && Rep(e, bd, H, m) && o < |e.buckets|
    ensures Inv(Level(e, bd, o), bd) && Rep(Level(e, bd, o), bd, H, m)
  {
    assert BucketOk(e, bd, o);
    hide Inv, Rep, Divide;
    if e.buckets[o].depth + 1 > e.dirDepth {
      DoubleKeepsInv(e, bd);
      DoubleKeepsRep(e, bd, H, m);
      DivideKeepsInv(Double(e), bd, o);
      DivideKeepsRep(Double(e), bd, H, m, o);
    } else {
      DivideKeepsInv(e, bd, o);
      DivideKeepsRep(e, bd, H, m, o);
    }
  }
}
