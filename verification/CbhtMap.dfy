/** Inserting into and deleting from the CBHT, and the map machine it refines. */
module CbhtMap {
  import opened Common
  import opened CbhtBits
  import opened CbhtModel
  import opened CbhtSplit
  import Hash64

  /** Whether a bucket refuses another ITB: `active >= (2 << adepth)`. */
  predicate Full(b: Bucket) { b.active >= 2 * Pow2(b.adepth) }

  /** Number of the bucket that a hash leads to. */
  function Lead(e: Eh, bd: nat, h: nat): nat
    requires |e.dir| == Pow2(e.dirDepth)
  {
    e.dir[SlotOf(e, bd, h)]
  }

  /** ITB i, put at the head of its list in bucket x. */
  function Put(e: Eh, bd: nat, x: nat, i: Item): Eh
    requires x < |e.buckets| && Low(i.hash, bd) < |e.buckets[x].content|
  {
    var b, o := e.buckets[x], Low(i.hash, bd);
    e.(buckets := e.buckets[x := b.(active := b.active + 1, content := b.content[o := [i] + b.content[o]])],
       be := e.be[i := (x, o)])
  }

  function Without(l: seq<Item>, i: Item): seq<Item> {
    if l == [] then [] else if l[0] == i then l[1..] else [l[0]] + Without(l[1..], i)
  }

  lemma {:induction false} WithoutHolds(l: seq<Item>, i: Item)
    requires Distinct(l)
    ensures Distinct(Without(l, i)) && forall j :: j in Without(l, i) <==> j in l && j != i
    ensures |Without(l, i)| <= |l|
  {
    if l != [] {
      assert l[0] !in l[1..] by { assert forall a | 1 <= a < |l| :: l[a] != l[0]; }
      WithoutHolds(l[1..], i);
    }
  }

  /** ITB i taken off list p.1 of bucket p.0; `active` stays as it is. */
  function Take(e: Eh, p: (nat, nat), i: Item): Eh
    requires p.0 < |e.buckets| && p.1 < |e.buckets[p.0].content|
  {
    var b := e.buckets[p.0];
    e.(buckets := e.buckets[p.0 := b.(content := b.content[p.1 := Without(b.content[p.1], i)])], be := e.be - {i})
  }

  /** The bucket of a new key has place for it in the right list. */
  lemma LeadIs(e: Eh, bd: nat, h: nat)
    requires Inv(e, bd)
    ensures var x := Lead(e, bd, h);
            && x < |e.buckets| && Low(h, bd) < |e.buckets[x].content| && e.buckets[x].adepth == bd
            && Low(Shr(h, bd), e.buckets[x].depth) == e.buckets[x].id
  {
    SlotLeads(e, bd, h);
    assert BucketOk(e, bd, Lead(e, bd, h));
  }

  lemma PutKeepsInv(e: Eh, bd: nat, i: Item)
    requires Inv(e, bd) && var x := Lead(e, bd, i.hash); x < |e.buckets| && Low(i.hash, bd) < |e.buckets[x].content|
    requires !Full(e.buckets[Lead(e, bd, i.hash)])
    ensures Inv(Put(e, bd, Lead(e, bd, i.hash), i), bd)
  {
    var x, o := Lead(e, bd, i.hash), Low(i.hash, bd);
    var f := Put(e, bd, x, i);
    var c := e.buckets[x].content;
    CountUpdate(c, o, [i] + c[o]);
    assert BucketOk(e, bd, x);
    hide Low, Pow2, Count, Lead;
    forall y | 0 <= y < |f.buckets| ensures BucketOk(f, bd, y) { assert BucketOk(e, bd, y); }
    forall s | 0 <= s < |f.dir| ensures SlotOk(f, s) { assert SlotOk(e, s); }
  }

  lemma PutKeepsRep(e: Eh, bd: nat, H: Key -> nat, m: map<Key, Item>, x: nat, i: Item)
    requires Rep(e, bd, H, m) && x < |e.buckets| && Low(i.hash, bd) < |e.buckets[x].content|
    requires Low(Shr(i.hash, bd), e.buckets[x].depth) == e.buckets[x].id
    requires KeyOf(i) !in m && i.hash == H(KeyOf(i))
    ensures Rep(Put(e, bd, x, i), bd, H, m[KeyOf(i) := i])
  {
    hide Low, Shr;
    var o, f, m' := Low(i.hash, bd), Put(e, bd, x, i), m[KeyOf(i) := i];
    HashedAreHeld(e, bd, H, m);
    forall p, j | At(f, p, j) ensures ItemOk(f, bd, m', p, j) {
      PutHolds(e, bd, x, i, p, j);
      if At(e, p, j) { assert ItemOk(e, bd, m, p, j); }
    }
    NotListed(e, bd, H, m, x, o, i);
    forall j | j in f.be ensures At(f, f.be[j], j) { if j != i { assert At(e, e.be[j], j); } }
  }

  /** An ITB whose key the map does not hold is on no list. */
  lemma NotListed(e: Eh, bd: nat, H: Key -> nat, m: map<Key, Item>, x: nat, o: nat, i: Item)
    requires Rep(e, bd, H, m) && x < |e.buckets| && o < |e.buckets[x].content| && KeyOf(i) !in m
    ensures i !in e.buckets[x].content[o]
  {
    hide Low, Shr;
    assert forall j | j in e.buckets[x].content[o] :: At(e, (x, o), j);
    assert forall j | At(e, (x, o), j) :: ItemOk(e, bd, m, (x, o), j);
  }

  lemma PutHolds(e: Eh, bd: nat, x: nat, i: Item, p: (nat, nat), j: Item)
    requires x < |e.buckets| && Low(i.hash, bd) < |e.buckets[x].content|
    ensures At(Put(e, bd, x, i), p, j) <==> At(e, p, j) || (j == i && p == (x, Low(i.hash, bd)))
  {
    hide Low;
  }

  lemma HashedAreHeld(e: Eh, bd: nat, H: Key -> nat, m: map<Key, Item>)
    requires Rep(e, bd, H, m)
    ensures forall j | j in e.be :: KeyOf(j) in m && m[KeyOf(j)] == j
  {
    hide Low, Shr;
    forall j | j in e.be ensures KeyOf(j) in m && m[KeyOf(j)] == j {
      assert At(e, e.be[j], j);
      assert ItemOk(e, bd, m, e.be[j], j);
    }
  }

  lemma TakeKeepsInv(e: Eh, bd: nat, p: (nat, nat), i: Item)
    requires Inv(e, bd) && p.0 < |e.buckets| && p.1 < |e.buckets[p.0].content| && Distinct(e.buckets[p.0].content[p.1])
    ensures Inv(Take(e, p, i), bd)
  {
    var f, c := Take(e, p, i), e.buckets[p.0].content;
    WithoutHolds(c[p.1], i);
    CountUpdate(c, p.1, Without(c[p.1], i));
    hide Low, Pow2, Count, Without;
    forall y | 0 <= y < |f.buckets| ensures BucketOk(f, bd, y) { assert BucketOk(e, bd, y); }
    forall s | 0 <= s < |f.dir| ensures SlotOk(f, s) { assert SlotOk(e, s); }
  }

  lemma TakeKeepsRep(e: Eh, bd: nat, H: Key -> nat, m: map<Key, Item>, p: (nat, nat), i: Item)
    requires Rep(e, bd, H, m) && At(e, p, i)
    ensures Rep(Take(e, p, i), bd, H, m - {KeyOf(i)})
  {
    hide Low, Shr, Without;
    var f, m' := Take(e, p, i), m - {KeyOf(i)};
    assert ItemOk(e, bd, m, p, i);
    WithoutHolds(e.buckets[p.0].content[p.1], i);
    forall q, j | At(f, q, j) ensures ItemOk(f, bd, m', q, j) {
      assert At(e, q, j);
      assert ItemOk(e, bd, m, q, j);
    }
    forall y, l | 0 <= y < |f.buckets| && 0 <= l < |f.buckets[y].content| ensures Distinct(f.buckets[y].content[l]) {
      assert Distinct(e.buckets[y].content[l]);
    }
    forall j | j in f.be ensures At(f, f.be[j], j) { assert At(e, e.be[j], j); }
  }

  /** An ITB is hashed exactly if the map holds it. */
  lemma HashedIsHeld(e: Eh, bd: nat, H: Key -> nat, m: map<Key, Item>, i: Item)
    requires Inv(e, bd) && Rep(e, bd, H, m)
    ensures i in e.be <==> KeyOf(i) in m && m[KeyOf(i)] == i
    ensures i in e.be ==> e.be[i] == (Lead(e, bd, i.hash), Low(i.hash, bd)) && At(e, e.be[i], i)
  {
    hide Low, Shr;
    if i in e.be {
      assert At(e, e.be[i], i);
      assert ItemOk(e, bd, m, e.be[i], i);
      SlotLeads(e, bd, i.hash);
    }
  }

  // ------------------------------------------------------- the split's goal

  /** A full bucket and the key that found it full. */
  lemma FullAgrees(e: Eh, bd: nat, H: Key -> nat, m: map<Key, Item>, o: nat, c: nat)
    requires Inv(e, bd) && Rep(e, bd, H, m) && o < |e.buckets| && Full(e.buckets[o])
    requires Low(c, e.buckets[o].depth) == e.buckets[o].id
    ensures Agrees(e.buckets[o], bd, c)
  {
    hide Low, Shr, Pow2;
    var b := e.buckets[o];
    assert BucketOk(e, bd, o);
    forall i | Resident(b, i) ensures Low(Shr(i.hash, bd), b.depth) == b.id {
      var l :| 0 <= l < |b.content| && i in b.content[l];
      assert At(e, (o, l), i);
      assert ItemOk(e, bd, m, (o, l), i);
    }
  }

  /** After a level the key's home is the bucket its bits lead to. */
  lemma HomeAgrees(e: Eh, bd: nat, o: nat, c: nat)
    requires o < |e.buckets| && Low(c, e.buckets[o].depth) == e.buckets[o].id
    ensures Home(e, o, c) < |Level(e, bd, o).buckets|
    ensures var b := Level(e, bd, o).buckets[Home(e, o, c)]; Low(c, b.depth) == b.id && b.depth == e.buckets[o].depth + 1
  {
    LevelHalves(e, bd, o);
    HalfParts(e.buckets[o], bd);
    NextBit(c, e.buckets[o].depth);
  }

  /** One turn of the retry loop, for the key that found bucket o full. */
  lemma Turn(e: Eh, bd: nat, o: nat, c: nat)
    requires o < |e.buckets| && Agrees(e.buckets[o], bd, c) && Ends(e.buckets[o], bd, c) && e.buckets[o].adepth == bd
    ensures Home(e, o, c) < |Level(e, bd, o).buckets|
    ensures Deeper(e, bd, o, c).Some? ==> Deeper(e, bd, o, c) == Some(Home(e, o, c))
    ensures var b := Level(e, bd, o).buckets[Home(e, o, c)];
            && Low(c, b.depth) == b.id && b.depth == e.buckets[o].depth + 1 && b.adepth == bd
            && (Deeper(e, bd, o, c).Some? ==> Agrees(b, bd, c) && Ends(b, bd, c) && b.active == e.buckets[o].active)
            && (Deeper(e, bd, o, c) == None ==> b.active < e.buckets[o].active)
    ensures forall n: nat | EndsWithin(e.buckets[o], bd, c, n) ::
              && e.buckets[o].depth < n
              && (Deeper(e, bd, o, c).Some? ==> EndsWithin(Level(e, bd, o).buckets[Home(e, o, c)], bd, c, n))
  {
    HomeAgrees(e, bd, o, c);
    LevelHalves(e, bd, o);
    if Deeper(e, bd, o, c).Some? {
      DeeperLoad(e, bd, o, c);
      AgreesDeeper(e, bd, o, c);
      DeeperKeepsEnds(e, bd, o, c);
    } else {
      StopsOnlyIfEnds(e, bd, o, c);
    }
    hide Level, Low, Bit, Agrees, Ends, EndsWithin, Deeper, Home;
    forall n: nat | EndsWithin(e.buckets[o], bd, c, n)
      ensures e.buckets[o].depth < n
      ensures Deeper(e, bd, o, c).Some? ==> EndsWithin(Level(e, bd, o).buckets[Home(e, o, c)], bd, c, n)
    {
      EndsWithinIsDeeper(e.buckets[o], bd, c, n);
      if Deeper(e, bd, o, c).Some? { EndsWithinDeeper(e, bd, o, c, n); }
    }
  }

  // ------------------------------------------------------- the map machine

  datatype Op = Create(id: nat, key: Key) | Drop(itb: Item) | Ask(key: Key)

  datatype Reply = Added | Exists(itb: Item) | Dropped | Answer(found: Option<Item>) | Hang

  /** The map after an operation. */
  function After(m: map<Key, Item>, H: Key -> nat, op: Op): map<Key, Item> {
    match op
    case Create(id, k) => if k in m then m else m[k := Item(id, k.0, k.1, H(k))]
    case Drop(i) => if KeyOf(i) in m && m[KeyOf(i)] == i then m - {KeyOf(i)} else m
    case Ask(_) => m
  }

  /** What the operation reports. */
  function ReplyTo(m: map<Key, Item>, op: Op): Reply {
    match op
    case Create(_, k) => if k in m then Exists(m[k]) else Added
    case Drop(_) => Dropped
    case Ask(k) => Answer(if k in m then Some(m[k]) else None)
  }

  /** The insert of this key would split for ever. */
  predicate Stuck(e: Eh, bd: nat, h: nat)
    requires |e.dir| == Pow2(e.dirDepth)
  {
    var x := Lead(e, bd, h);
    x < |e.buckets| && Full(e.buckets[x]) && !Ends(e.buckets[x], bd, Shr(h, bd))
  }

  /** One operation on the table, beside the same operation on the map.  Only an
      insert that would split for ever does not return. */
  ghost predicate StepOk(bd: nat, H: Key -> nat, e: Eh, m: map<Key, Item>, op: Op, r: Reply,
                         e': Eh, m': map<Key, Item>) {
    && Inv(e, bd) && Rep(e, bd, H, m) && Inv(e', bd) && Rep(e', bd, H, m')
    && (r == Hang <==> op.Create? && Stuck(e, bd, H(op.key)))
    && (r != Hang ==> r == ReplyTo(m, op) && m' == After(m, H, op))
  }

  /** The table may answer `ops` with `rs`: as the map does, up to an insert that does not return. */
  ghost predicate Answers(bd: nat, H: Key -> nat, ops: seq<Op>, rs: seq<Reply>) {
    exists es: seq<Eh>, ms: seq<map<Key, Item>> :: Explains(bd, H, es, ms, ops, rs)
  }

  /** A run of the table, state by state, beside the run of the map. */
  ghost predicate Explains(bd: nat, H: Key -> nat, es: seq<Eh>, ms: seq<map<Key, Item>>, ops: seq<Op>, rs: seq<Reply>) {
    && |es| == |ms| == |rs| + 1 && |rs| <= |ops| && es[0] == Fresh(bd) && ms[0] == map[]
    && (forall k | 0 <= k < |rs| :: StepOk(bd, H, es[k], ms[k], ops[k], rs[k], es[k + 1], ms[k + 1]))
    && (forall k | 0 <= k < |rs| - 1 :: rs[k] != Hang)
    && (|rs| == |ops| || (rs != [] && rs[|rs| - 1] == Hang))
  }

  // ------------------------------------------------ a run that never returns

  /** The table that holds nothing, after n ITBs have been inserted and deleted again. */
  function Emptied(bd: nat, n: nat): Eh { Fresh(bd).(buckets := [NewBucket(bd).(active := n)]) }

  lemma EmptiedKeeps(bd: nat, H: Key -> nat, n: nat)
    requires n <= 2 * Pow2(bd)
    ensures Inv(Emptied(bd, n), bd) && Rep(Emptied(bd, n), bd, H, map[])
  {
    CountEmpty(NewBucket(bd).content);
  }

  /** Inserting ITB i, for which there is room, and deleting it again turns e into f. */
  predicate ComesAndGoes(e: Eh, bd: nat, i: Item, f: Eh) {
    && |e.dir| == Pow2(e.dirDepth)
    && var x, o := Lead(e, bd, i.hash), Low(i.hash, bd);
    && x < |e.buckets| && !Full(e.buckets[x]) && o < |e.buckets[x].content|
    && At(Put(e, bd, x, i), (x, o), i) && Take(Put(e, bd, x, i), (x, o), i) == f
  }

  /** Only the counter tells of an ITB that came and went. */
  lemma OneMore(bd: nat, n: nat, i: Item)
    requires n < 2 * Pow2(bd)
    ensures ComesAndGoes(Emptied(bd, n), bd, i, Emptied(bd, n + 1))
  {
    var e, o := Emptied(bd, n), Low(i.hash, bd);
    var c := NewBucket(bd).content;
    assert |c| == Pow2(bd);
    assert Low(Shr(i.hash, bd), 0) == 0;
    hide Low, Shr;
    var f := Put(e, bd, 0, i);
    assert c[o] == [] && [i] + c[o] == [i];
    assert f.buckets[0].content == c[o := [i]];
    assert Without([i], i) == [];
    assert c[o := [i]][o := []] == c;
    assert map[][i := (0, o)] - {i} == map[];
  }

  /** A key whose hash has no bit above the bucket hash bits: after it was
      inserted and deleted as often as a bucket takes ITBs, which leaves the
      table empty each time, its next insert never returns. */
  lemma AllDeletedHangs(bd: nat, H: Key -> nat, k: Key)
    requires Shr(H(k), bd) == 0
    ensures Emptied(bd, 0) == Fresh(bd)
    ensures forall n: nat, id: nat | n < 2 * Pow2(bd) ::
              ComesAndGoes(Emptied(bd, n), bd, Item(id, k.0, k.1, H(k)), Emptied(bd, n + 1))
    ensures var e := Emptied(bd, 2 * Pow2(bd));
            && Inv(e, bd) && Rep(e, bd, H, map[]) && Stuck(e, bd, H(k))
            && forall t: nat :: Turns(e, bd, 0, Shr(H(k), bd), t) != None
  {
    forall n: nat, id: nat | n < 2 * Pow2(bd)
      ensures ComesAndGoes(Emptied(bd, n), bd, Item(id, k.0, k.1, H(k)), Emptied(bd, n + 1))
    {
      OneMore(bd, n, Item(id, k.0, k.1, H(k)));
    }
    EmptiedHangs(bd, H, k);
  }

  lemma EmptiedHangs(bd: nat, H: Key -> nat, k: Key)
    requires Shr(H(k), bd) == 0
    ensures var e := Emptied(bd, 2 * Pow2(bd));
            && Inv(e, bd) && Rep(e, bd, H, map[]) && Stuck(e, bd, H(k))
            && forall t: nat :: Turns(e, bd, 0, Shr(H(k), bd), t) != None
  {
    var e := Emptied(bd, 2 * Pow2(bd));
    EmptiedKeeps(bd, H, 2 * Pow2(bd));
    LeadIs(e, bd, H(k));
    FullAgrees(e, bd, H, map[], 0, 0);
    assert Shr(0, 0) == 0;
    SplitEndsIff(e, bd, 0, 0);
  }

  /** The hash of the source for a key of 64-bit words; ap is its string hash of an itbid. */
  function SourceHash(ap: nat -> Word): Key -> nat {
    (k: Key) => Hash64.HashCbht(Hash64.Wrap(k.0), ap(k.1))
  }

  /** Whatever the string hash, every itbid has a puuid whose inserts end that way. */
  lemma SomeKeyHangs(bd: nat, ap: nat -> Word, itbid: nat)
    ensures var H := SourceHash(ap); var e := Emptied(bd, 2 * Pow2(bd));
            && |e.dir| == Pow2(e.dirDepth)
            && exists puuid: nat :: puuid < Hash64.M && H((puuid, itbid)) == 0 && Stuck(e, bd, H((puuid, itbid)))
  {
    var puuid: nat := Hash64.Mul(ap(itbid), Hash64.INVERSE);
    Hash64.WrapsToItself(puuid);
    Hash64.OneKeyHashesToZero(puuid, ap(itbid));
    NoHighBits(0, bd);
    EmptiedHangs(bd, SourceHash(ap), (puuid, itbid));
    assert SourceHash(ap)((puuid, itbid)) == 0;
  }
}
