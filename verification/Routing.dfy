/** Routing a name hash to an ITB by the directory's bitmap (mds_get_itbid):
    the position of the hash, or the first one that its fallback chain reaches
    whose bit is set. */
module Routing {
  import opened Common
  import opened CbhtBits
  import opened Bitmap

  const WORD32: nat := 0x1_0000_0000
  const ITB_DEPTH: nat := 10

  // ----------------------------------------------------------- the fallback

  /** Position of the highest set bit, counted from 1; 0 for 0. */
  function Fls(x: nat): nat { if x == 0 then 0 else 1 + Fls(x / 2) }

  lemma {:induction false} FlsIs(x: nat, k: nat)
    requires 0 < x < Pow2(k)
    ensures 0 < Fls(x) <= k && Pow2(Fls(x) - 1) <= x < Pow2(Fls(x))
  {
    if x > 1 { FlsIs(x / 2, k - 1); } else { assert Fls(1 / 2) == 0; }
  }

  lemma Low32(n: nat)
    ensures n % WORD32 < Pow2(32) && n % WORD32 <= n
  {
    PowSum(16, 16);
    PowSum(8, 8);
    assert Pow2(8) == 256;
  }

  /** mds_bitmap_fallback: fls sees the low 32 bits only, as its argument is an int. */
  function Fallback(n: nat): (r: nat)
    ensures n > 0 ==> r < n
  {
    var nr := Fls(n % WORD32);
    if nr == 0 then 0
    else
      Low32(n);
      FlsIs(n % WORD32, 32);
      n - Pow2(nr - 1)
  }

  /** The fallback clears the highest of the low 32 bits; a position without any falls back to 0. */
  lemma FallbackClears(n: nat)
    ensures n % WORD32 == 0 ==> Fallback(n) == 0
    ensures n % WORD32 != 0 ==>
              exists k: nat :: k < 32 && Pow2(k) <= n % WORD32 < Pow2(k + 1) && n == Fallback(n) + Pow2(k)
  {
    if n % WORD32 != 0 {
      Low32(n);
      FlsIs(n % WORD32, 32);
      var k := Fls(n % WORD32) - 1;
      assert Pow2(k) <= n % WORD32 < Pow2(k + 1) && n == Fallback(n) + Pow2(k);
    }
  }

  /** x is n, or what n falls back to, once or more often. */
  predicate InChain(n: nat, x: nat)
    decreases n
  {
    x == n || (n > 0 && InChain(Fallback(n), x))
  }

  // ---------------------------------------------------------------- slices

  /** A loaded part of the bitmap; `end` is the flag BITMAP_END. */
  datatype Slice = Slice(offset: nat, end: bool, words: seq<Word>)

  predicate SliceOk(s: Slice) { |s.words| == WORDS && s.offset % SIZE == 0 }

  predicate Covers(s: Slice, n: nat) { s.offset <= n < s.offset + SIZE }

  /** mds_bitmap_lookup */
  predicate Lookup(s: Slice, n: nat)
    requires Covers(s, n)
  {
    n - s.offset < 64 * |s.words| && TestBit(s.words, n - s.offset)
  }

  /** The slice list is ordered, and only its last slice may bear the end flag. */
  ghost predicate Sorted(l: seq<Slice>) {
    && (forall i | 0 <= i < |l| :: SliceOk(l[i]))
    && (forall i, j | 0 <= i < j < |l| :: l[i].offset < l[j].offset)
    && (forall i | 0 <= i < |l| - 1 :: !l[i].end)
  }

  /** Slice s has the bit of position n: bit b of its word j, 64 to a word. */
  ghost predicate HasBit(s: Slice, n: nat) {
    exists j: nat, b: nat ::
      j < 2048 && j < |s.words| && b < 64 && n == s.offset + 64 * j + b && (s.words[j] / Pow2(b)) % 2 == 1
  }

  /** Position n is held by the list and its bit is set. */
  ghost predicate IsSet(l: seq<Slice>, n: nat) { exists i | 0 <= i < |l| :: HasBit(l[i], n) }

  /** The lookup in a slice reads the bit of the position. */
  lemma LookupIsBit(s: Slice, n: nat)
    requires |s.words| == WORDS
    ensures HasBit(s, n) <==> Covers(s, n) && Lookup(s, n)
  {
    if Covers(s, n) && Lookup(s, n) {
      var k := n - s.offset;
      assert k == 64 * (k / 64) + k % 64;
    }
    if HasBit(s, n) {
      var j: nat, b: nat :|
        j < 2048 && j < |s.words| && b < 64 && n == s.offset + 64 * j + b && (s.words[j] / Pow2(b)) % 2 == 1;
      var k := n - s.offset;
      assert k / 64 == j && k % 64 == b;
    }
  }

  /** What the walk over the list finds out about a position. */
  datatype Spot = In(k: nat) | Gap | Past | Off

  function Walk(l: seq<Slice>, n: nat, k: nat): (r: Spot)
    requires k <= |l|
    ensures r.In? ==> k <= r.k < |l| && Covers(l[r.k], n)
    decreases |l| - k
  {
    if k == |l| then Off
    else if Covers(l[k], n) then In(k)
    else if l[k].offset > n then Gap
    else if l[k].end then Past
    else Walk(l, n, k + 1)
  }

  /** Aligned slices that differ do not overlap. */
  lemma Disjoint(a: Slice, b: Slice)
    requires SliceOk(a) && SliceOk(b) && a.offset < b.offset
    ensures a.offset + SIZE <= b.offset
  {
  }

  /** The walk finds the slice that covers a position, if there is one. */
  lemma {:induction false} WalkFinds(l: seq<Slice>, n: nat, k: nat)
    requires Sorted(l) && k <= |l| && forall i | 0 <= i < k :: !Covers(l[i], n)
    ensures match Walk(l, n, k)
            case In(i) => IsSet(l, n) <==> Lookup(l[i], n)
            case _ => !IsSet(l, n)
    decreases |l| - k
  {
    hide Lookup, HasBit;
    forall i | 0 <= i < |l| ensures HasBit(l[i], n) <==> Covers(l[i], n) && Lookup(l[i], n) { LookupIsBit(l[i], n); }
    if k < |l| {
      forall i | k < i < |l| ensures l[k].offset + SIZE <= l[i].offset { Disjoint(l[k], l[i]); }
      if Covers(l[k], n) {
      } else if l[k].offset > n || l[k].end {
      } else {
        WalkFinds(l, n, k + 1);
      }
    }
  }

  // ---------------------------------------------------------- the slice list

  function OrWords(a: seq<Word>, b: seq<Word>): seq<Word>
    requires |a| == |b|
  {
    seq(|a|, i requires 0 <= i < |a| => Or(a[i], b[i]))
  }

  /** The list walk of the two insert functions for the offset `at`: update the
      slice there, or go before the first later one, or into an empty list. */
  function InsertAt(l: seq<Slice>, at: nat, s: Slice, k: nat): seq<Slice>
    requires k <= |l|
    decreases |l| - k
  {
    if k == |l| then (if l == [] then [s] else l)
    else if l[k].offset < at then InsertAt(l, at, s, k + 1)
    else if l[k].offset == at && |l[k].words| == |s.words|
         then l[k := l[k].(words := OrWords(l[k].words, s.words))]
    else l[..k] + [s] + l[k..]
  }

  lemma {:induction false} InsertFinds(l: seq<Slice>, at: nat, s: Slice, k: nat, j: nat)
    requires k <= j < |l| && l[j].offset >= at && forall i | k <= i < j :: l[i].offset < at
    ensures InsertAt(l, at, s, k) == InsertAt(l, at, s, j)
    decreases j - k
  {
    hide OrWords;
    if k < j { InsertFinds(l, at, s, k + 1, j); }
  }

  lemma InsertHere(l: seq<Slice>, at: nat, s: Slice, j: nat)
    requires j < |l| && l[j].offset >= at && forall i | 0 <= i < j :: l[i].offset < at
    ensures InsertAt(l, at, s, 0)
            == if l[j].offset == at && |l[j].words| == |s.words|
               then l[j := l[j].(words := OrWords(l[j].words, s.words))]
               else l[..j] + [s] + l[j..]
  {
    hide OrWords;
    InsertFinds(l, at, s, 0, j);
  }

  lemma {:induction false} InsertPasses(l: seq<Slice>, at: nat, s: Slice, k: nat)
    requires k <= |l| && forall i | k <= i < |l| :: l[i].offset < at
    ensures InsertAt(l, at, s, k) == if l == [] then [s] else l
    decreases |l| - k
  {
    hide OrWords;
    if k < |l| { InsertPasses(l, at, s, k + 1); }
  }

  lemma InsertNone(l: seq<Slice>, at: nat, s: Slice)
    requires forall i | 0 <= i < |l| :: l[i].offset < at
    ensures InsertAt(l, at, s, 0) == if l == [] then [s] else l
  {
    InsertPasses(l, at, s, 0);
  }

  /** A slice that is not beyond the last one adds exactly its bits; a slice
      beyond the last one is dropped. */
  lemma InsertTakesUnlessBeyond(l: seq<Slice>, s: Slice)
    requires Sorted(l) && SliceOk(s) && (!s.end || l == [])
    ensures var l' := InsertAt(l, s.offset, s, 0);
            && Sorted(l')
            && if l == [] || s.offset <= l[|l| - 1].offset
               then forall n: nat :: IsSet(l', n) <==> IsSet(l, n) || HasBit(s, n)
               else l' == l
  {
    hide InsertAt, Lookup, OrWords;
    if l == [] || s.offset > l[|l| - 1].offset {
      InsertNone(l, s.offset, s);
      assert [s][0] == s;
    } else {
      var j := FirstAtLeast(l, s.offset);
      InsertHere(l, s.offset, s, j);
      if l[j].offset == s.offset { UpdateSets(l, s, j); } else { InsertSets(l, s, j); }
    }
  }

  lemma FirstAtLeast(l: seq<Slice>, at: nat) returns (j: nat)
    requires l != [] && at <= l[|l| - 1].offset
    ensures j < |l| && l[j].offset >= at && forall i | 0 <= i < j :: l[i].offset < at
  {
    j := 0;
    while l[j].offset < at
      invariant j < |l| && forall i | 0 <= i < j :: l[i].offset < at
      decreases |l| - j
    {
      j := j + 1;
    }
  }

  lemma OrHasBits(o: Slice, s: Slice, n: nat)
    requires SliceOk(o) && SliceOk(s) && o.offset == s.offset
    ensures HasBit(o.(words := OrWords(o.words, s.words)), n) <==> HasBit(o, n) || HasBit(s, n)
  {
    hide TestBit, Or, HasBit;
    LookupIsBit(o, n);
    LookupIsBit(s, n);
    LookupIsBit(o.(words := OrWords(o.words, s.words)), n);
    if Covers(s, n) { OrTests(o.words, s.words, OrWords(o.words, s.words), n - s.offset); }
  }

  lemma UpdateSets(l: seq<Slice>, s: Slice, j: nat)
    requires Sorted(l) && SliceOk(s) && j < |l| && l[j].offset == s.offset
    ensures var l' := l[j := l[j].(words := OrWords(l[j].words, s.words))];
            Sorted(l') && forall n: nat :: IsSet(l', n) <==> IsSet(l, n) || HasBit(s, n)
  {
    var l' := l[j := l[j].(words := OrWords(l[j].words, s.words))];
    forall n: nat ensures IsSet(l', n) <==> IsSet(l, n) || HasBit(s, n) {
      OrHasBits(l[j], s, n);
      hide OrWords, HasBit;
      assert l'[j] == l[j].(words := OrWords(l[j].words, s.words));
      forall i | 0 <= i < |l| && i != j ensures l'[i] == l[i] {}
    }
  }

  lemma InsertSets(l: seq<Slice>, s: Slice, j: nat)
    requires Sorted(l) && SliceOk(s) && !s.end && j < |l| && s.offset < l[j].offset
    requires forall i | 0 <= i < j :: l[i].offset < s.offset
    ensures var l' := l[..j] + [s] + l[j..];
            Sorted(l') && forall n: nat :: IsSet(l', n) <==> IsSet(l, n) || HasBit(s, n)
  {
    hide HasBit;
    var l' := l[..j] + [s] + l[j..];
    forall n: nat ensures IsSet(l', n) <==> IsSet(l, n) || HasBit(s, n) {
      assert forall i | 0 <= i < |l| :: l[i] == l'[if i < j then i else i + 1];
      assert l'[j] == s;
    }
  }

  // ------------------------------------------------------------- the routing

  /** What mds_bitmap_load comes back with for a position.  `Nothing` is the
      return of 0 without a slice. */
  datatype Load = NotExist | Failed | Nothing | Got(s: Slice)

  /** A server that answers with a slice answers with the one that covers the position. */
  ghost predicate Sound(load: nat -> Load) {
    forall n :: load(n).Got? ==> Covers(load(n).s, n)
  }

  datatype Step = Done(itbid: nat) | Again(l: seq<Slice>, n: nat)

  /** One turn of the retry loop. */
  function Turn(l: seq<Slice>, n: nat, load: nat -> Load): Step {
    match Walk(l, n, 0)
    case In(k) => if Lookup(l[k], n) then Done(n) else Again(l, Fallback(n))
    case Past => Again(l, Fallback(n))
    case _ =>
      match load(n)
      case NotExist => Again(l, Fallback(n))
      case Failed => Done(0)
      case Nothing => Again(l, n)
      case Got(s) => Again(InsertAt(l, n, s, 0), n)
  }

  /** The answer after at most k turns, if there is one. */
  function Turns(l: seq<Slice>, n: nat, load: nat -> Load, k: nat): Option<nat>
    decreases k
  {
    if k == 0 then None
    else
      match Turn(l, n, load)
      case Done(i) => Some(i)
      case Again(l', n') => Turns(l', n', load, k - 1)
  }

  /** Where a position is routed to, or None if the loop never ends: position 0
      has nowhere to fall back to, and a load that leaves the list as it is will
      be asked for again. */
  function Route(l: seq<Slice>, n: nat, load: nat -> Load): Option<nat>
    decreases n, if Walk(l, n, 0).In? then 0 else 1
  {
    match Walk(l, n, 0)
    case In(k) => if Lookup(l[k], n) then Some(n) else if n == 0 then None else Route(l, Fallback(n), load)
    case Past => if n == 0 then None else Route(l, Fallback(n), load)
    case _ =>
      match load(n)
      case NotExist => if n == 0 then None else Route(l, Fallback(n), load)
      case Failed => Some(0)
      case Nothing => None
      case Got(s) =>
        var l' := InsertAt(l, n, s, 0);
        if Walk(l', n, 0).In? then Route(l', n, load) else None
  }

  /** A slice that was asked for at n is either inserted where the next walk
      finds it, or, beyond the last slice, not at all. */
  lemma LoadedIsFound(l: seq<Slice>, n: nat, s: Slice)
    requires Covers(s, n) && !Walk(l, n, 0).In? && Walk(l, n, 0) != Past
    ensures Walk(InsertAt(l, n, s, 0), n, 0).In? || InsertAt(l, n, s, 0) == l
  {
    InsertFrom(l, n, s, 0);
  }

  lemma {:induction false} InsertFrom(l: seq<Slice>, n: nat, s: Slice, k: nat)
    requires Covers(s, n) && k <= |l| && !Walk(l, n, k).In? && Walk(l, n, k) != Past
    ensures InsertAt(l, n, s, k) == l || (|InsertAt(l, n, s, k)| > k && InsertAt(l, n, s, k)[..k] == l[..k])
    ensures InsertAt(l, n, s, k) == l || Walk(InsertAt(l, n, s, k), n, k).In?
    decreases |l| - k
  {
    if k < |l| && l[k].offset < n {
      InsertFrom(l, n, s, k + 1);
      var l' := InsertAt(l, n, s, k + 1);
      if l' != l { assert l'[..k + 1][k] == l[..k + 1][k]; assert l'[..k] == l'[..k + 1][..k] == l[..k]; }
    }
  }

  lemma {:induction false} RouteEnds(l: seq<Slice>, n: nat, load: nat -> Load) returns (k: nat)
    requires Route(l, n, load).Some?
    ensures Turns(l, n, load, k) == Route(l, n, load)
    decreases n, if Walk(l, n, 0).In? then 0 else 1
  {
    hide InsertAt, Lookup, Fallback;
    match Turn(l, n, load)
    case Done(_) => k := 1;
    case Again(l', n') =>
      FallbackSmaller(n);
      var j := RouteEnds(l', n', load);
      k := j + 1;
  }

  lemma FallbackSmaller(n: nat)
    ensures n > 0 ==> Fallback(n) < n
  {
  }

  lemma {:induction false} RouteHangs(l: seq<Slice>, n: nat, load: nat -> Load, k: nat)
    requires Sound(load) && Route(l, n, load) == None
    ensures Turns(l, n, load, k) == None
    decreases k
  {
    if k > 0 {
      var zero := Fallback(0);
      assert zero == 0;
      hide InsertAt, Lookup, Fallback;
      var w := Walk(l, n, 0);
      if !w.In? && w != Past && load(n).Got? { LoadedIsFound(l, n, load(n).s); }
      match Turn(l, n, load)
      case Done(_) =>
      case Again(l', n') => RouteHangs(l', n', load, k - 1);
    }
  }

  /** The retry loop ends exactly if Route says where. */
  lemma RouteIsTheLoop(l: seq<Slice>, n: nat, load: nat -> Load)
    requires Sound(load)
    ensures (exists k: nat :: Turns(l, n, load, k) != None) <==> Route(l, n, load) != None
    ensures Route(l, n, load) != None ==> exists k: nat :: Turns(l, n, load, k) == Route(l, n, load)
  {
    hide Route, Turns;
    if Route(l, n, load) == None {
      forall k: nat ensures Turns(l, n, load, k) == None { RouteHangs(l, n, load, k); }
    } else {
      var k := RouteEnds(l, n, load);
    }
  }

  /** More turns do not change an answer. */
  lemma {:induction false} MoreTurns(l: seq<Slice>, n: nat, load: nat -> Load, k: nat, j: nat)
    requires k <= j && Turns(l, n, load, k) != None
    ensures Turns(l, n, load, j) == Turns(l, n, load, k)
    decreases k
  {
    hide Turn;
    match Turn(l, n, load)
    case Done(_) =>
    case Again(l', n') => MoreTurns(l', n', load, k - 1, j - 1);
  }

  lemma TurnsAgree(l: seq<Slice>, n: nat, load: nat -> Load, k: nat)
    requires Sound(load) && Turns(l, n, load, k) != None
    ensures Turns(l, n, load, k) == Route(l, n, load)
  {
    hide Turns, Route;
    if Route(l, n, load) == None { RouteHangs(l, n, load, k); }
    var j := RouteEnds(l, n, load);
    MoreTurns(l, n, load, j, if j < k then k else j);
    MoreTurns(l, n, load, k, if j < k then k else j);
  }

  // ------------------------------------------------ what decides the routing

  /** The server answers for whole slices, with the slice that was asked for. */
  ghost predicate PerSlice(load: nat -> Load) {
    && (forall n :: load(n).Got? ==> SliceOk(load(n).s) && Covers(load(n).s, n))
    && (forall m: nat, n: nat | m / SIZE == n / SIZE :: load(m) == load(n))
  }

  predicate Held(l: seq<Slice>, x: nat) { exists i | 0 <= i < |l| :: Covers(l[i], x) }

  predicate Beyond(l: seq<Slice>, x: nat) { l != [] && l[|l| - 1].offset + SIZE <= x }

  /** What a member of the fallback chain does: the key stays there, goes to
      position 0 as the load failed, is asked for again and again, or falls back. */
  datatype Verdict = Here | Zero | Stuck | Down

  ghost function VerdictOf(l: seq<Slice>, load: nat -> Load, x: nat): Verdict {
    if Held(l, x) then (if IsSet(l, x) then Here else Down)
    else if Beyond(l, x) && l[|l| - 1].end then Down
    else
      match load(x)
      case NotExist => Down
      case Failed => Zero
      case Nothing => Stuck
      case Got(s) => if Beyond(l, x) then Stuck else if HasBit(s, x) then Here else Down
  }

  /** x is the first member of the chain of n that does not fall back. */
  ghost predicate Decides(l: seq<Slice>, load: nat -> Load, n: nat, x: nat) {
    && InChain(n, x) && VerdictOf(l, load, x) != Down
    && forall y: nat | InChain(n, y) && y > x :: VerdictOf(l, load, y) == Down
  }

  /** The same verdict as the walk over the list comes to it. */
  ghost function Judged(l: seq<Slice>, load: nat -> Load, x: nat): Verdict {
    match Walk(l, x, 0)
    case In(k) => if Lookup(l[k], x) then Here else Down
    case Past => Down
    case w =>
      match load(x)
      case NotExist => Down
      case Failed => Zero
      case Nothing => Stuck
      case Got(s) => if w == Off && l != [] then Stuck else if HasBit(s, x) then Here else Down
  }

  /** Where the walk ends, read off the list. */
  lemma {:induction false} WalkTells(l: seq<Slice>, x: nat, k: nat)
    requires Sorted(l) && k <= |l| && forall i | 0 <= i < k :: l[i].offset + SIZE <= x && !l[i].end
    ensures match Walk(l, x, k)
            case In(_) => Held(l, x)
            case Gap => !Held(l, x) && !Beyond(l, x)
            case Past => !Held(l, x) && Beyond(l, x) && l[|l| - 1].end
            case Off => !Held(l, x) && (l != [] ==> Beyond(l, x) && !l[|l| - 1].end)
    decreases |l| - k
  {
    if k < |l| {
      forall i | k < i < |l| ensures l[k].offset + SIZE <= l[i].offset { Disjoint(l[k], l[i]); }
      if !Covers(l[k], x) && l[k].offset <= x && !l[k].end { WalkTells(l, x, k + 1); }
    }
  }

  lemma VerdictIsJudged(l: seq<Slice>, load: nat -> Load, x: nat)
    requires Sorted(l)
    ensures VerdictOf(l, load, x) == Judged(l, load, x)
  {
    WalkTells(l, x, 0);
    WalkFinds(l, x, 0);
    hide HasBit, Sorted, IsSet, Held, Beyond, Walk, Lookup;
  }

  /** The slices are aligned and in order, whatever their flags. */
  ghost predicate Ordered(l: seq<Slice>) {
    && (forall i | 0 <= i < |l| :: SliceOk(l[i]))
    && (forall i, j | 0 <= i < j < |l| :: l[i].offset < l[j].offset)
  }

  /** A walk that ends in a gap has passed over all slices before the gap. */
  lemma {:induction false} GapAt(l: seq<Slice>, n: nat, k: nat) returns (j: nat)
    requires k <= |l| && Walk(l, n, k) == Gap && forall i | 0 <= i < k :: l[i].offset + SIZE <= n
    ensures j < |l| && l[j].offset > n && forall i | 0 <= i < j :: l[i].offset + SIZE <= n
    decreases |l| - k
  {
    if l[k].offset > n { j := k; } else { j := GapAt(l, n, k + 1); }
  }

  /** Two lists that agree on their first j slices are walked alike up to there. */
  lemma {:induction false} WalkAlike(l: seq<Slice>, m: seq<Slice>, x: nat, j: nat, k: nat)
    requires k <= j <= |l| && j <= |m| && forall i | 0 <= i < j :: l[i] == m[i]
    ensures || (Walk(l, x, k) == Walk(m, x, k) && (Walk(l, x, k) == Gap || Walk(l, x, k) == Past || (Walk(l, x, k).In? && Walk(l, x, k).k < j)))
            || (Walk(l, x, k) == Walk(l, x, j) && Walk(m, x, k) == Walk(m, x, j))
    decreases j - k
  {
    if k < j && !Covers(l[k], x) && l[k].offset <= x && !l[k].end { WalkAlike(l, m, x, j, k + 1); }
  }

  /** A walk that runs off the list has passed over all of it, and an insert does too. */
  lemma {:induction false} OffDrops(l: seq<Slice>, n: nat, s: Slice, k: nat)
    requires k <= |l| && l != [] && Walk(l, n, k) == Off
    ensures InsertAt(l, n, s, k) == l
    decreases |l| - k
  {
    if k < |l| { OffDrops(l, n, s, k + 1); }
  }

  /** The list after a load that was not dropped. */
  lemma LoadGrows(l: seq<Slice>, n: nat, s: Slice) returns (j: nat)
    requires Ordered(l) && SliceOk(s) && Covers(s, n) && (Walk(l, n, 0) == Gap || l == [])
    ensures j <= |l| && InsertAt(l, n, s, 0) == l[..j] + [s] + l[j..] && Ordered(InsertAt(l, n, s, 0))
    ensures j < |l| ==> l[j].offset > n
    ensures j == |l| ==> l == []
  {
    if l == [] {
      j := 0;
      InsertNone(l, n, s);
      assert [s] == l[..0] + [s] + l[0..];
    } else {
      j := GapAt(l, n, 0);
      InsertHere(l, n, s, j);
    }
  }

  /** A slice that was loaded for n changes no verdict on n or on what lies below it. */
  lemma LoadKeepsVerdicts(l: seq<Slice>, load: nat -> Load, n: nat, x: nat)
    requires Ordered(l) && PerSlice(load) && load(n).Got? && (Walk(l, n, 0) == Gap || l == []) && x <= n
    ensures Ordered(InsertAt(l, n, load(n).s, 0))
    ensures Judged(InsertAt(l, n, load(n).s, 0), load, x) == Judged(l, load, x)
  {
    var s := load(n).s;
    var j := LoadGrows(l, n, s);
    var m := InsertAt(l, n, s, 0);
    hide InsertAt, Lookup, HasBit;
    LookupIsBit(s, x);
    WalkAlike(l, m, x, j, 0);
    assert m[j] == s;
    SameSlice(s, n, x);
  }

  lemma SameSlice(s: Slice, n: nat, x: nat)
    requires SliceOk(s) && Covers(s, n)
    ensures Covers(s, x) ==> x / SIZE == n / SIZE
  {
    if Covers(s, x) {
      var q := s.offset / SIZE;
      assert s.offset == q * SIZE;
      assert x / SIZE == q && n / SIZE == q;
    }
  }

  /** As Decides, by the verdicts of the walk. */
  ghost predicate Settles(l: seq<Slice>, load: nat -> Load, n: nat, x: nat) {
    && InChain(n, x) && Judged(l, load, x) != Down
    && forall y: nat | InChain(n, y) && y > x :: Judged(l, load, y) == Down
  }

  lemma {:induction false} ChainBelow(n: nat, x: nat)
    requires InChain(n, x)
    ensures x <= n
    decreases n
  {
    if x != n { ChainBelow(Fallback(n), x); }
  }

  /** The chain of n is n and the chain of what it falls back to. */
  lemma SettlesNext(l: seq<Slice>, load: nat -> Load, n: nat, x: nat)
    requires n > 0 && Judged(l, load, n) == Down
    ensures Settles(l, load, n, x) <==> Settles(l, load, Fallback(n), x)
  {
    hide Judged, Fallback;
    FallbackSmaller(n);
    forall y: nat | InChain(Fallback(n), y) ensures InChain(n, y) && y < n { ChainBelow(Fallback(n), y); }
    assert forall y: nat | InChain(n, y) :: y == n || InChain(Fallback(n), y);
  }

  /** What Route says is the verdict on the member that settles it. */
  lemma {:induction false} RouteSettles(l: seq<Slice>, n: nat, load: nat -> Load) returns (x: nat)
    requires Ordered(l) && PerSlice(load)
    ensures Route(l, n, load).Some? ==> Settles(l, load, n, x) && Judged(l, load, x) != Stuck
                                        && Route(l, n, load) == Some(if Judged(l, load, x) == Here then x else 0)
    ensures Route(l, n, load) == None ==> forall y: nat | Settles(l, load, n, y) :: Judged(l, load, y) == Stuck
    decreases n, if Walk(l, n, 0).In? then 0 else 1
  {
    x := n;
    ChainTops(n);
    var w := Walk(l, n, 0);
    if Judged(l, load, n) == Down && (w.In? || w == Past || load(n) == NotExist) {
      if n > 0 {
        x := RouteSettles(l, Fallback(n), load);
        forall y: nat ensures Settles(l, load, n, y) <==> Settles(l, load, Fallback(n), y) { SettlesNext(l, load, n, y); }
      }
    } else if !w.In? && w != Past && load(n).Got? && (w == Gap || l == []) {
      var m := InsertAt(l, n, load(n).s, 0);
      forall y: nat | InChain(n, y) ensures Ordered(m) && Judged(m, load, y) == Judged(l, load, y) {
        ChainBelow(n, y);
        LoadKeepsVerdicts(l, load, n, y);
      }
      var j := LoadGrows(l, n, load(n).s);
      LoadedIsFound(l, n, load(n).s);
      x := RouteSettles(m, n, load);
    } else if w == Off && load(n).Got? {
      OffDrops(l, n, load(n).s, 0);
    }
  }

  lemma ChainTops(n: nat)
    ensures InChain(n, n) && forall y: nat | InChain(n, y) :: y <= n
  {
    forall y: nat | InChain(n, y) ensures y <= n { ChainBelow(n, y); }
  }

  /** The retry loop ends exactly if, in the fallback chain of the position, some
      member is set, or held by a slice that can be loaded and has its bit, or
      fails to load, and every member before it falls back: its slice is held, or
      can be loaded, without its bit, or does not exist, or lies beyond the end.
      A member whose slice cannot be had, or is beyond the last one, hangs. */
  lemma RoutingEndsIff(l: seq<Slice>, n: nat, load: nat -> Load)
    requires Sorted(l) && PerSlice(load)
    ensures (exists k: nat :: Turns(l, n, load, k) != None) <==>
            exists x: nat :: Decides(l, load, n, x) && VerdictOf(l, load, x) != Stuck
    ensures forall k: nat, x: nat | Turns(l, n, load, k) != None && Decides(l, load, n, x) ::
              Turns(l, n, load, k) == Some(if VerdictOf(l, load, x) == Here then x else 0)
  {
    hide Turns, Route, Sorted, Judged, VerdictOf;
    var z := RouteSettles(l, n, load) by { SortedIsOrdered(l); }
    SliceIsSound(load);
    RouteIsTheLoop(l, n, load);
    forall x: nat ensures VerdictOf(l, load, x) == Judged(l, load, x) { VerdictIsJudged(l, load, x); }
    forall x: nat ensures Decides(l, load, n, x) <==> Settles(l, load, n, x) {}
    forall k: nat, x: nat | Turns(l, n, load, k) != None && Decides(l, load, n, x)
      ensures Turns(l, n, load, k) == Some(if VerdictOf(l, load, x) == Here then x else 0)
    {
      TurnsAgree(l, n, load, k);
      assert Settles(l, load, n, x) && Settles(l, load, n, z);
      assert x == z;
    }
  }

  lemma SortedIsOrdered(l: seq<Slice>)
    requires Sorted(l)
    ensures Ordered(l)
  {
  }

  lemma SliceIsSound(load: nat -> Load)
    requires PerSlice(load)
    ensures Sound(load)
  {
  }

  /** If the server has no slice to give, the loop ends exactly if some member of
      the chain is held and set. */
  lemma NothingToLoadIff(l: seq<Slice>, n: nat, load: nat -> Load)
    requires Sorted(l) && forall x :: load(x) == NotExist
    ensures (exists k: nat :: Turns(l, n, load, k) != None) <==> exists x: nat :: InChain(n, x) && IsSet(l, x)
  {
    RoutingEndsIff(l, n, load);
    hide Turns, Sorted, IsSet;
    forall x: nat ensures VerdictOf(l, load, x) == if IsSet(l, x) then Here else Down { SetIsHeld(l, x); }
    if x: nat :| InChain(n, x) && IsSet(l, x) { var z := FirstStop(l, load, n, x); }
  }

  lemma SetIsHeld(l: seq<Slice>, x: nat)
    ensures IsSet(l, x) ==> Held(l, x)
  {
  }

  /** If any member of the chain does not fall back, one decides. */
  lemma {:induction false} FirstStop(l: seq<Slice>, load: nat -> Load, n: nat, x: nat) returns (z: nat)
    requires InChain(n, x) && VerdictOf(l, load, x) != Down
    ensures Decides(l, load, n, z)
    decreases n
  {
    hide VerdictOf, Fallback;
    ChainTops(n);
    if VerdictOf(l, load, n) != Down {
      z := n;
    } else {
      FallbackSmaller(n);
      ChainTops(Fallback(n));
      z := FirstStop(l, load, Fallback(n), x);
      assert forall y: nat | InChain(n, y) :: y == n || InChain(Fallback(n), y);
    }
  }

  lemma {:induction false} WalkRunsOff(l: seq<Slice>, n: nat, k: nat)
    requires k <= |l| && forall i | k <= i < |l| :: l[i].offset + SIZE <= n && !l[i].end
    ensures Walk(l, n, k) == Off
    decreases |l| - k
  {
    if k < |l| { WalkRunsOff(l, n, k + 1); }
  }

  /** A position beyond a last slice without the end flag is asked for again and
      again if the server has its slice: the insert drops it. */
  lemma BeyondLastNeverEnds(l: seq<Slice>, n: nat, load: nat -> Load, k: nat)
    requires Sound(load) && Sorted(l) && l != [] && !l[|l| - 1].end && l[|l| - 1].offset + SIZE <= n && load(n).Got?
    ensures Turns(l, n, load, k) == None
  {
    var last := |l| - 1;
    forall i | 0 <= i < |l| ensures l[i].offset + SIZE <= n && !l[i].end { if i < last { Disjoint(l[i], l[last]); } }
    WalkRunsOff(l, n, 0);
    InsertNone(l, n, load(n).s);
    RouteHangs(l, n, load, k);
  }

  // ------------------------------------------------------- routing by the map

  /** The first member of the chain that is set, or 0. */
  ghost function First(l: seq<Slice>, n: nat): nat
    decreases n
  {
    if n == 0 || IsSet(l, n) then n else First(l, Fallback(n))
  }

  lemma {:induction false} FirstIsFirst(l: seq<Slice>, n: nat)
    ensures InChain(n, First(l, n)) && (First(l, n) == 0 || IsSet(l, First(l, n)))
    ensures forall x | InChain(n, x) && IsSet(l, x) :: InChain(First(l, n), x)
    decreases n
  {
    hide IsSet;
    if n > 0 && !IsSet(l, n) { FirstIsFirst(l, Fallback(n)); }
  }

  /** With position 0 set and no slice to be loaded, the loop ends at the first
      member of the fallback chain that is held and set. */
  lemma {:induction false} RouteIsFirst(l: seq<Slice>, n: nat, load: nat -> Load)
    requires Sorted(l) && IsSet(l, 0) && forall x :: load(x) == NotExist
    ensures Route(l, n, load) == Some(First(l, n)) && IsSet(l, First(l, n))
    decreases n
  {
    WalkFinds(l, n, 0);
    hide IsSet, Lookup, Sorted;
    if n > 0 && !IsSet(l, n) { RouteIsFirst(l, Fallback(n), load); }
  }

  /** Setting one more bit b moves keys only to b, and only those that went
      where b itself went. */
  lemma {:induction false} NewBitTakesOver(l: seq<Slice>, l': seq<Slice>, b: nat, n: nat)
    requires IsSet(l, 0) && !IsSet(l, b) && forall x :: IsSet(l', x) <==> IsSet(l, x) || x == b
    ensures First(l', n) == First(l, n) || (First(l', n) == b && First(l, n) == First(l, Fallback(b)))
    decreases n
  {
    hide IsSet;
    if n > 0 && !IsSet(l, n) && n != b { NewBitTakesOver(l, l', b, Fallback(n)); }
  }

  /** A bitmap that only gained bits never routes a key further down its chain. */
  lemma {:induction false} MoreBitsNeverFurther(l: seq<Slice>, l': seq<Slice>, n: nat)
    requires forall x :: IsSet(l, x) ==> IsSet(l', x)
    ensures InChain(First(l', n), First(l, n))
    decreases n
  {
    hide IsSet;
    if n > 0 && !IsSet(l', n) {
      MoreBitsNeverFurther(l, l', Fallback(n));
    } else {
      FirstIsFirst(l, n);
    }
  }

  /** mds_bitmap_update on a held slice never routes a key further down its chain. */
  lemma UpdateNeverFurther(l: seq<Slice>, s: Slice, n: nat)
    requires Sorted(l) && SliceOk(s) && !s.end
    ensures InChain(First(InsertAt(l, s.offset, s, 0), n), First(l, n))
  {
    InsertTakesUnlessBeyond(l, s);
    MoreBitsNeverFurther(l, InsertAt(l, s.offset, s, 0), n);
  }

  /** A key whose own bit is set in a held slice is routed there. */
  lemma SetBitIsRouted(l: seq<Slice>, hash: nat, load: nat -> Load)
    requires Sorted(l) && IsSet(l, hash / 1024)
    ensures Route(l, Shr(hash, ITB_DEPTH), load) == Some(hash / 1024)
  {
    hide Sorted, IsSet, InsertAt, Lookup;
    assert Pow2(10) == 1024;
    WalkFinds(l, hash / 1024, 0);
  }

  /** The directory entry whose slice list a load extends. */
  class Dhe {
    var bitmap: seq<Slice>

    constructor (l: seq<Slice>)
      ensures bitmap == l
    {
      bitmap := l;
    }

    /** mds_bitmap_load, once the reply is there, and __mds_bitmap_insert. */
    method Insert(at: nat, s: Slice) returns (linked: bool)
      modifies this
      ensures bitmap == InsertAt(old(bitmap), at, s, 0)
      ensures |bitmap| == |old(bitmap)| + if linked then 1 else 0
    {
      hide InsertAt, OrWords;
      if bitmap == [] {
        InsertNone(bitmap, at, s);
        bitmap := [s];
        return true;
      }
      var k := 0;
      while k < |bitmap|
        invariant 0 <= k <= |bitmap| && bitmap == old(bitmap)
        invariant forall i | 0 <= i < k :: bitmap[i].offset < at
      {
        if bitmap[k].offset >= at {
          InsertHere(bitmap, at, s, k);
          if bitmap[k].offset == at && |bitmap[k].words| == |s.words| {
            bitmap := bitmap[k := bitmap[k].(words := OrWords(bitmap[k].words, s.words))];
            return false;
          } else {
            bitmap := bitmap[..k] + [s] + bitmap[k..];
            return true;
          }
        }
        k := k + 1;
      }
      InsertNone(bitmap, at, s);
      linked := false;
    }

    /** The walk over the list, up to the first slice that says something about n. */
    method WalkList(n: nat) returns (r: Spot)
      ensures r == Walk(bitmap, n, 0)
    {
      var k := 0;
      while k < |bitmap|
        invariant 0 <= k <= |bitmap| && Walk(bitmap, n, 0) == Walk(bitmap, n, k)
      {
        var b := bitmap[k];
        if Covers(b, n) { return In(k); }
        if b.offset > n { return Gap; }
        if b.end { return Past; }
        k := k + 1;
      }
      r := Off;
    }

    /** mds_get_itbid, for a hash that is routed somewhere. */
    method GetItbid(hash: nat, load: nat -> Load) returns (itbid: nat)
      requires Route(bitmap, Shr(hash, ITB_DEPTH), load) != None
      modifies this
      ensures Some(itbid) == Route(old(bitmap), Shr(hash, ITB_DEPTH), load)
      ensures Sorted(old(bitmap)) && IsSet(old(bitmap), hash / 1024) ==> itbid == hash / 1024
    {
      hide InsertAt, Lookup, Fallback, Sorted, IsSet;
      var offset := Shr(hash, ITB_DEPTH);
      if Sorted(bitmap) && IsSet(bitmap, hash / 1024) { SetBitIsRouted(bitmap, hash, load); }
      ghost var goal := Route(bitmap, offset, load);
      while true
        invariant Route(bitmap, offset, load) == goal != None
        decreases offset, if Walk(bitmap, offset, 0).In? then 0 else 1
      {
        FallbackSmaller(offset);
        var w := WalkList(offset);
        match w
        case In(k) =>
          if Lookup(bitmap[k], offset) { return offset; }
          offset := Fallback(offset);
        case Past =>
          offset := Fallback(offset);
        case _ =>
          match load(offset)
          case NotExist => offset := Fallback(offset);
          case Failed => return 0;
          case Nothing =>
          case Got(s) => var linked := Insert(offset, s);
      }
    }
  }
}
