/** When the split of a full bucket ends: the retry loop of cbht_bucket_split
    goes deeper until the bucket of the key to be inserted has room. */
module CbhtSplit {
  import opened Common
  import opened CbhtBits
  import opened CbhtModel

  /** The bucket that needs a deeper split after one level on bucket o, for a key with high hash c. */
  function Deeper(e: Eh, bd: nat, o: nat, c: nat): Option<nat>
    requires o < |e.buckets|
  {
    var f, n, d := Level(e, bd, o), |e.buckets|, e.buckets[o].depth;
    if f.buckets[n].active == 0 && !Bit(c, d) then Some(o)
    else if f.buckets[o].active == 0 && Bit(c, d) then Some(n)
    else None
  }

  /** The bucket that a key with high hash c belongs to after one level on bucket o. */
  function Home(e: Eh, o: nat, c: nat): nat
    requires o < |e.buckets|
  {
    if Bit(c, e.buckets[o].depth) then |e.buckets| else o
  }

  /** Some ITB of the bucket has another high hash than the key. */
  predicate Differs(b: Bucket, bd: nat, c: nat) {
    exists l, a | 0 <= l < |b.content| && 0 <= a < |b.content[l]| :: Shr(b.content[l][a].hash, bd) != c
  }

  /** The guard that decides whether the split of bucket b ends. */
  predicate Ends(b: Bucket, bd: nat, c: nat) {
    Differs(b, bd, c) || (b.active > Count(b.content) && Shr(c, b.depth) != 0)
  }

  ghost predicate Resident(b: Bucket, i: Item) { exists l | 0 <= l < |b.content| :: i in b.content[l] }

  lemma DiffersBy(b: Bucket, bd: nat, c: nat, i: Item)
    requires Resident(b, i) && Shr(i.hash, bd) != c
    ensures Differs(b, bd, c)
  {
    var l :| 0 <= l < |b.content| && i in b.content[l];
    var a :| 0 <= a < |b.content[l]| && b.content[l][a] == i;
    assert Shr(b.content[l][a].hash, bd) != c;
  }

  lemma SomeResident(b: Bucket)
    returns (i: Item)
    requires Count(b.content) > 0
    ensures Resident(b, i)
  {
    if forall l | 0 <= l < |b.content| :: b.content[l] == [] { CountEmpty(b.content); }
    var l :| 0 <= l < |b.content| && b.content[l] != [];
    i := b.content[l][0];
  }

  lemma ResidentCounts(b: Bucket, i: Item)
    requires Resident(b, i)
    ensures Count(b.content) > 0
  {
    var l :| 0 <= l < |b.content| && i in b.content[l];
    CountPositive(b.content, l);
  }

  lemma HalfResidents(b: Bucket, bd: nat, i: Item)
    ensures Resident(OldHalf(b, bd), i) <==> Resident(b, i) && !Goes(i, bd, b.depth)
    ensures Resident(NewHalf(b, bd), i) <==> Resident(b, i) && Goes(i, bd, b.depth)
  {
    HalvesSize(b, bd);
    forall l | 0 <= l < |b.content|
      ensures i in OldHalf(b, bd).content[l] <==> i in b.content[l] && !Goes(i, bd, b.depth)
      ensures i in NewHalf(b, bd).content[l] <==> i in b.content[l] && Goes(i, bd, b.depth)
    {
      HalvesHold(b, bd, l);
    }
  }

  lemma HalfCounts(b: Bucket, bd: nat)
    ensures var ob, nb := OldHalf(b, bd), NewHalf(b, bd);
            && Count(ob.content) + Count(nb.content) == Count(b.content)
            && nb.active == Count(nb.content) && ob.active + nb.active == b.active
  {
    CountSplit(b.content, bd, b.depth);
  }

  lemma LevelHalves(e: Eh, bd: nat, o: nat)
    requires o < |e.buckets|
    ensures |Level(e, bd, o).buckets| == |e.buckets| + 1
    ensures Level(e, bd, o).buckets[o] == OldHalf(e.buckets[o], bd)
    ensures Level(e, bd, o).buckets[|e.buckets|] == NewHalf(e.buckets[o], bd)
  {
  }

  /** Bits above d, when bit d is clear. */
  lemma ClearBit(c: nat, d: nat)
    ensures !Bit(c, d) ==> (Shr(c, d) != 0 <==> Shr(c, d + 1) != 0)
    ensures Bit(c, d) ==> Shr(c, d) != 0
  {
    NextBit(c, d);
    NoHighBits(c, d);
    NoHighBits(c, d + 1);
  }

  /** The bucket of the key holds the same ITBs under the same counter as before the level. */
  ghost predicate SameLoad(b: Bucket, t: Bucket) {
    && t.depth == b.depth + 1 && t.active == b.active && Count(t.content) == Count(b.content)
    && forall i :: Resident(t, i) <==> Resident(b, i)
  }

  lemma DiffersSame(b: Bucket, t: Bucket, bd: nat, c: nat)
    requires SameLoad(b, t) && Differs(b, bd, c)
    ensures Differs(t, bd, c)
  {
    var l, a :| 0 <= l < |b.content| && 0 <= a < |b.content[l]| && Shr(b.content[l][a].hash, bd) != c;
    var i := b.content[l][a];
    assert i in b.content[l];
    assert Resident(b, i);
    DiffersBy(t, bd, c, i);
  }

  lemma SameLoadSym(b: Bucket, t: Bucket, bd: nat, c: nat)
    requires SameLoad(b, t)
    ensures Differs(b, bd, c) <==> Differs(t, bd, c)
  {
    if Differs(b, bd, c) { DiffersSame(b, t, bd, c); }
    if Differs(t, bd, c) {
      var l, a :| 0 <= l < |t.content| && 0 <= a < |t.content[l]| && Shr(t.content[l][a].hash, bd) != c;
      var i := t.content[l][a];
      assert i in t.content[l];
      assert Resident(t, i);
      DiffersBy(b, bd, c, i);
    }
  }

  /** The loop goes deeper only into a bucket that has taken over the whole load. */
  lemma DeeperLoad(e: Eh, bd: nat, o: nat, c: nat)
    requires o < |e.buckets| && Count(e.buckets[o].content) <= e.buckets[o].active && Deeper(e, bd, o, c).Some?
    requires Low(c, e.buckets[o].depth) == e.buckets[o].id
    ensures Deeper(e, bd, o, c) == Some(Home(e, o, c))
    ensures var t := Level(e, bd, o).buckets[Home(e, o, c)];
            SameLoad(e.buckets[o], t) && Low(c, t.depth) == t.id
    ensures Bit(c, e.buckets[o].depth) ==> e.buckets[o].active == Count(e.buckets[o].content)
  {
    var b := e.buckets[o];
    LevelHalves(e, bd, o);
    HalfCounts(b, bd);
    HalfParts(b, bd);
    NextBit(c, b.depth);
    hide Level, Bit, Low, Count, Goes, OldHalf, NewHalf, Resident;
    forall i ensures Resident(Level(e, bd, o).buckets[Home(e, o, c)], i) <==> Resident(b, i) {
      HalfResidents(b, bd, i);
      if Resident(OldHalf(b, bd), i) { ResidentCounts(OldHalf(b, bd), i); }
      if Resident(NewHalf(b, bd), i) { ResidentCounts(NewHalf(b, bd), i); }
    }
  }

  /** Going deeper changes nothing about whether the loop ends. */
  lemma DeeperKeepsEnds(e: Eh, bd: nat, o: nat, c: nat)
    requires o < |e.buckets| && Count(e.buckets[o].content) <= e.buckets[o].active && Deeper(e, bd, o, c).Some?
    requires Low(c, e.buckets[o].depth) == e.buckets[o].id
    ensures Ends(Level(e, bd, o).buckets[Home(e, o, c)], bd, c) <==> Ends(e.buckets[o], bd, c)
  {
    DeeperLoad(e, bd, o, c);
    hide Level, Bit, Low, Count, Deeper, Differs;
    SameLoadSym(e.buckets[o], Level(e, bd, o).buckets[Home(e, o, c)], bd, c);
    ClearBit(c, e.buckets[o].depth);
  }

  /** The loop stops only if the guard said so, and then the key's bucket has room. */
  lemma StopsOnlyIfEnds(e: Eh, bd: nat, o: nat, c: nat)
    requires o < |e.buckets| && Count(e.buckets[o].content) <= e.buckets[o].active && Deeper(e, bd, o, c) == None
    requires e.buckets[o].active > 0
    ensures Ends(e.buckets[o], bd, c)
    ensures Level(e, bd, o).buckets[Home(e, o, c)].active < e.buckets[o].active
  {
    var b := e.buckets[o];
    var ob, nb := OldHalf(b, bd), NewHalf(b, bd);
    LevelHalves(e, bd, o);
    HalfCounts(b, bd);
    ClearBit(c, b.depth);
    var none: Item := Item(0, 0, 0, 0);
    var i := none;
    if Bit(c, b.depth) && Count(ob.content) > 0 {
      i := SomeResident(ob);
      HalfResidents(b, bd, i);
      DiffersBy(b, bd, c, i);
    } else if !Bit(c, b.depth) {
      i := SomeResident(nb);
      HalfResidents(b, bd, i);
      DiffersBy(b, bd, c, i);
    }
  }

  // --------------------------------------------------------------- the loop

  /** Table and bucket before turn k of the loop, or None if it has ended by then. */
  function Turns(e: Eh, bd: nat, o: nat, c: nat, k: nat): Option<(Eh, nat)>
    requires o < |e.buckets|
    decreases k
  {
    if k == 0 then Some((e, o))
    else
      match Deeper(e, bd, o, c)
      case None => None
      case Some(t) => if t < |Level(e, bd, o).buckets| then Turns(Level(e, bd, o), bd, t, c, k - 1) else None
  }

  /** Every ITB of the bucket agrees with the bucket's id, and so does the key. */
  ghost predicate Agrees(b: Bucket, bd: nat, c: nat) {
    && Low(c, b.depth) == b.id && Count(b.content) <= b.active && b.active > 0
    && forall i | Resident(b, i) :: Low(Shr(i.hash, bd), b.depth) == b.id
  }

  lemma AgreesDeeper(e: Eh, bd: nat, o: nat, c: nat)
    requires o < |e.buckets| && Agrees(e.buckets[o], bd, c) && Deeper(e, bd, o, c).Some?
    ensures Home(e, o, c) < |Level(e, bd, o).buckets| && Agrees(Level(e, bd, o).buckets[Home(e, o, c)], bd, c)
  {
    var b := e.buckets[o];
    DeeperLoad(e, bd, o, c);
    LevelHalves(e, bd, o);
    HalfParts(b, bd);
    hide Level, Low, Bit, Count, Deeper, OldHalf, NewHalf, Resident;
    var t := Level(e, bd, o).buckets[Home(e, o, c)];
    forall i | Resident(t, i) ensures Low(Shr(i.hash, bd), t.depth) == t.id {
      HalfResidents(b, bd, i);
      NextBit(Shr(i.hash, bd), b.depth);
      NextBit(c, b.depth);
    }
  }

  /** Within their low n bits, some ITB differs from the key, or the counter is
      ahead of the ITBs and the key has a bit set. */
  ghost predicate EndsWithin(b: Bucket, bd: nat, c: nat, n: nat) {
    || (exists i :: Resident(b, i) && Low(Shr(i.hash, bd), n) != Low(c, n))
    || (b.active > Count(b.content) && Shr(c, b.depth) != 0 && c < Pow2(n))
  }

  lemma EndsWithinIsDeeper(b: Bucket, bd: nat, c: nat, n: nat)
    requires Agrees(b, bd, c) && EndsWithin(b, bd, c, n)
    ensures b.depth < n
  {
    hide Low, Shr;
    if n <= b.depth {
      LowBits(c, n, b.depth);
      if b.active > Count(b.content) && Shr(c, b.depth) != 0 && c < Pow2(n) { NoHighBits(c, b.depth); }
      forall i | Resident(b, i) ensures Low(Shr(i.hash, bd), n) == Low(c, n) { LowBits(Shr(i.hash, bd), n, b.depth); }
    }
  }

  lemma EndsWithinSome(b: Bucket, bd: nat, c: nat) returns (n: nat)
    requires Ends(b, bd, c)
    ensures EndsWithin(b, bd, c, n)
  {
    if Differs(b, bd, c) {
      var l, a :| 0 <= l < |b.content| && 0 <= a < |b.content[l]| && Shr(b.content[l][a].hash, bd) != c;
      var i := b.content[l][a];
      assert i in b.content[l];
      assert Resident(b, i);
      var v := Shr(i.hash, bd);
      n := v + c;
      BelowPow2(v); BelowPow2(c);
      LowBits(v, v, n); LowBits(c, c, n);
      NoHighBits(v, n); NoHighBits(c, n);
    } else {
      n := c;
      BelowPow2(c);
    }
  }

  lemma EndsWithinDeeper(e: Eh, bd: nat, o: nat, c: nat, n: nat)
    requires o < |e.buckets| && Agrees(e.buckets[o], bd, c) && Deeper(e, bd, o, c).Some?
    requires EndsWithin(e.buckets[o], bd, c, n)
    ensures EndsWithin(Level(e, bd, o).buckets[Home(e, o, c)], bd, c, n)
  {
    DeeperLoad(e, bd, o, c);
    ClearBit(c, e.buckets[o].depth);
    hide Level, Low, Shr, Bit, Count, Deeper, Resident;
  }

  lemma {:induction false} EndsByTurn(e: Eh, bd: nat, o: nat, c: nat, n: nat)
    requires o < |e.buckets| && Agrees(e.buckets[o], bd, c) && EndsWithin(e.buckets[o], bd, c, n)
    ensures e.buckets[o].depth < n && Turns(e, bd, o, c, n - e.buckets[o].depth) == None
    decreases n - e.buckets[o].depth
  {
    EndsWithinIsDeeper(e.buckets[o], bd, c, n);
    hide Level, Deeper, Agrees, EndsWithin, Home;
    if Deeper(e, bd, o, c).Some? {
      DeeperHome(e, bd, o, c);
      AgreesDeeper(e, bd, o, c);
      EndsWithinDeeper(e, bd, o, c, n);
      EndsByTurn(Level(e, bd, o), bd, Home(e, o, c), c, n);
    }
  }

  lemma DeeperHome(e: Eh, bd: nat, o: nat, c: nat)
    requires o < |e.buckets| && Agrees(e.buckets[o], bd, c) && Deeper(e, bd, o, c).Some?
    ensures Deeper(e, bd, o, c) == Some(Home(e, o, c)) && Home(e, o, c) < |Level(e, bd, o).buckets|
    ensures Level(e, bd, o).buckets[Home(e, o, c)].depth == e.buckets[o].depth + 1
  {
    DeeperLoad(e, bd, o, c);
    LevelHalves(e, bd, o);
    HalfParts(e.buckets[o], bd);
  }

  lemma {:induction false} NeverEnds(e: Eh, bd: nat, o: nat, c: nat, k: nat)
    requires o < |e.buckets| && Agrees(e.buckets[o], bd, c) && !Ends(e.buckets[o], bd, c)
    ensures Turns(e, bd, o, c, k) != None
    decreases k
  {
    hide Level, Deeper, Ends, Home;
    if k > 0 {
      if Deeper(e, bd, o, c) == None { StopsOnlyIfEnds(e, bd, o, c); }
      DeeperHome(e, bd, o, c);
      AgreesDeeper(e, bd, o, c);
      DeeperKeepsEnds(e, bd, o, c);
      NeverEnds(Level(e, bd, o), bd, Home(e, o, c), c, k - 1);
    }
  }

  /** The retry loop ends exactly if some ITB of the bucket differs from the key
      above the bucket hash bits, or the counter is ahead of the ITBs, because
      some were deleted, and the key has a bit set above the bucket's depth. */
  lemma SplitEndsIff(e: Eh, bd: nat, o: nat, c: nat)
    requires o < |e.buckets| && Agrees(e.buckets[o], bd, c)
    ensures (exists k: nat :: Turns(e, bd, o, c, k) == None) <==> Ends(e.buckets[o], bd, c)
  {
    hide Turns, Agrees, Ends, EndsWithin;
    if Ends(e.buckets[o], bd, c) {
      var n := EndsWithinSome(e.buckets[o], bd, c);
      EndsByTurn(e, bd, o, c, n);
    } else {
      forall k: nat ensures Turns(e, bd, o, c, k) != None { NeverEnds(e, bd, o, c, k); }
    }
  }
}
