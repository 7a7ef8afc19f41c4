/** The consistent-hash ring of lib/ring.c: points kept sorted in a growing
    array, and the owner of a key found by binary search. */
module Ring {
  import opened Common

  /** A point of the ring and the site it stands for. */
  datatype Chp = Chp(point: nat, site: nat)

  const ALLOC_FACTOR: nat := 32

  ghost predicate Ordered(s: seq<Chp>) { forall i, j | 0 <= i < j < |s| :: s[i].point <= s[j].point }

  ghost predicate DistinctPoints(s: seq<Chp>) { forall i, j | 0 <= i < j < |s| :: s[i].point != s[j].point }

  /** i is the index of the first point not before the key, or 0 if there is none. */
  ghost predicate IsFirst(s: seq<Chp>, key: nat, i: nat) {
    && i < |s|
    && (if exists j | 0 <= j < |s| :: s[j].point >= key
        then s[i].point >= key && forall j | 0 <= j < i :: s[j].point < key
        else i == 0)
  }

  /** c owns the key: its point is the next one at or after the key, going
      round to the least point of all. */
  ghost predicate Owns(s: seq<Chp>, key: nat, c: Chp) {
    && c in s
    && (if c.point >= key then forall d | d in s && d.point >= key :: d.point >= c.point
        else forall d | d in s :: c.point <= d.point < key)
  }

  lemma FirstOwns(s: seq<Chp>, key: nat, i: nat)
    requires Ordered(s) && IsFirst(s, key, i)
    ensures Owns(s, key, s[i])
  {
  }

  /** With distinct points every key has one owner. */
  lemma OneOwner(s: seq<Chp>, key: nat, c: Chp, d: Chp)
    requires DistinctPoints(s) && Owns(s, key, c) && Owns(s, key, d)
    ensures c == d
  {
    assert c.point == d.point;
    var i, j :| 0 <= i < |s| && 0 <= j < |s| && s[i] == c && s[j] == d;
    assert i < j || j < i || i == j;
  }

  /** A point that is added takes keys over and nothing else moves: the owner of
      a key is the one it was unless it is the new point. */
  lemma AddMovesOnlyToNew(s: seq<Chp>, s': seq<Chp>, p: Chp, key: nat, i: nat, i': nat)
    requires Ordered(s) && DistinctPoints(s) && Ordered(s') && multiset(s') == multiset(s) + multiset{p}
    requires IsFirst(s, key, i) && IsFirst(s', key, i')
    ensures s'[i'] == s[i] || s'[i'] == p
    ensures s'[i'] == p ==> Owns(s', key, p)
  {
    FirstOwns(s, key, i);
    FirstOwns(s', key, i');
    SameMembers(s, s', p);
    if s'[i'] != p {
      assert Owns(s, key, s'[i']);
      OneOwner(s, key, s'[i'], s[i]);
    }
  }

  lemma SameMembers(s: seq<Chp>, s': seq<Chp>, p: Chp)
    requires multiset(s') == multiset(s) + multiset{p}
    ensures forall c :: c in s' <==> c in s || c == p
  {
    forall c ensures c in s' <==> c in s || c == p {
      assert c in s' <==> c in multiset(s');
      assert c in s <==> c in multiset(s);
    }
  }

  /** A point that is deleted gives its keys up and nothing else moves. */
  lemma DelMovesOnlyFromOld(s: seq<Chp>, k: nat, key: nat, i: nat, i': nat)
    requires Ordered(s) && DistinctPoints(s) && k < |s| && IsFirst(s, key, i) && IsFirst(s[..k] + s[k + 1..], key, i')
    ensures s[i] != s[k] ==> (s[..k] + s[k + 1..])[i'] == s[i]
  {
    Removed(s, k);
    AddMovesOnlyToNew(s[..k] + s[k + 1..], s, s[k], key, i', i);
  }

  lemma Removed(s: seq<Chp>, k: nat)
    requires Ordered(s) && DistinctPoints(s) && k < |s|
    ensures var s' := s[..k] + s[k + 1..];
            Ordered(s') && DistinctPoints(s') && multiset(s) == multiset(s') + multiset{s[k]}
  {
    var s' := s[..k] + s[k + 1..];
    assert s == s[..k] + [s[k]] + s[k + 1..];
    forall a, b | 0 <= a < b < |s'| ensures s'[a].point <= s'[b].point && s'[a].point != s'[b].point {
      var c, d := if a < k then a else a + 1, if b < k then b else b + 1;
      assert s'[a] == s[c] && s'[b] == s[d];
    }
  }

  /** The element n of a sequence, taken to place k among the ones before it. */
  function Moved(s: seq<Chp>, n: nat, k: nat): (r: seq<Chp>)
    requires k <= n < |s|
    ensures |r| == |s|
  {
    s[..k] + [s[n]] + s[k..n] + s[n + 1..]
  }

  lemma MovedAt(s: seq<Chp>, n: nat, k: nat, i: nat)
    requires k <= n < |s| && i < |s|
    ensures Moved(s, n, k)[i] == if i < k || i > n then s[i] else if i == k then s[n] else s[i - 1]
  {
  }

  lemma MovedIsSame(s: seq<Chp>, n: nat, k: nat)
    requires k <= n < |s|
    ensures multiset(Moved(s, n, k)) == multiset(s)
  {
    assert s == s[..k] + s[k..n] + [s[n]] + s[n + 1..];
  }

  lemma MovedIsOrdered(s: seq<Chp>, n: nat, k: nat)
    requires k <= n < |s| && forall i, j | 0 <= i < j < n :: s[i].point <= s[j].point
    requires k > 0 ==> s[k - 1].point <= s[n].point
    requires k < n ==> s[n].point <= s[k].point
    ensures forall i, j | 0 <= i < j <= n :: Moved(s, n, k)[i].point <= Moved(s, n, k)[j].point
  {
    hide Moved;
    forall i, j | 0 <= i < j <= n ensures Moved(s, n, k)[i].point <= Moved(s, n, k)[j].point {
      MovedAt(s, n, k, i);
      MovedAt(s, n, k, j);
      if j == k && i < k - 1 { assert s[i].point <= s[k - 1].point; }
      if i == k && k < j - 1 { assert s[k].point <= s[j - 1].point; }
    }
  }

  class Ring {
    var points: array<Chp>
    var used: nat

    ghost predicate Valid()
      reads this, points
    {
      used <= points.Length && Ordered(points[..used])
    }

    ghost function Points(): seq<Chp>
      requires used <= points.Length
      reads this, points
    {
      points[..used]
    }

    /** ring_alloc: room for the asked number of points, in whole factors. */
    constructor (alloc: nat)
      ensures Valid() && Points() == [] && fresh(points) && points.Length > alloc && points.Length % 32 == 0
    {
      points := new Chp[(alloc / ALLOC_FACTOR + 1) * ALLOC_FACTOR](_ => Chp(0, 0));
      used := 0;
    }

    /** ring_resort: the used part of the array, put in order. */
    method Resort()
      requires used <= points.Length
      modifies points
      ensures Valid() && multiset(Points()) == old(multiset(Points()))
    {
      var n := 0;
      while n < used
        invariant 0 <= n <= used
        invariant forall i, j | 0 <= i < j < n :: points[i].point <= points[j].point
        invariant multiset(points[..used]) == old(multiset(points[..used]))
      {
        Sink(n);
        n := n + 1;
      }
    }

    /** Brings element n to its place among the elements before it. */
    method Sink(n: nat)
      requires n < used <= points.Length && forall i, j | 0 <= i < j < n :: points[i].point <= points[j].point
      modifies points
      ensures forall i, j | 0 <= i < j <= n :: points[i].point <= points[j].point
      ensures multiset(points[..used]) == old(multiset(points[..used]))
    {
      hide Moved;
      ghost var s := points[..used];
      var k: nat := n;
      while k > 0 && points[k - 1].point > points[k].point
        invariant 0 <= k <= n
        invariant forall i | 0 <= i < k || n < i < used :: points[i] == s[i]
        invariant points[k] == s[n]
        invariant forall i | k < i <= n :: points[i] == s[i - 1]
        invariant k < n ==> s[n].point <= s[k].point
      {
        points[k - 1], points[k] := points[k], points[k - 1];
        k := k - 1;
      }
      forall i | 0 <= i < used ensures points[i] == Moved(s, n, k)[i] { MovedAt(s, n, k, i); }
      assert points[..used] == Moved(s, n, k);
      MovedIsSame(s, n, k);
      MovedIsOrdered(s, n, k);
      assert forall i | 0 <= i <= n :: points[i] == Moved(s, n, k)[i];
    }

    /** ring_add_point */
    method AddPoint(p: Chp)
      requires Valid()
      modifies this, points
      ensures Valid() && (points == old(points) || fresh(points))
      ensures used == old(used) + 1 && multiset(Points()) == old(multiset(Points())) + multiset{p}
      ensures points.Length == old(points.Length) + if old(points.Length) <= old(used) then 32 else 0
    {
      ghost var before := points[..used];
      if points.Length <= used {
        var bigger := new Chp[points.Length + ALLOC_FACTOR](i requires 0 <= i reads this, points =>
          if i < points.Length then points[i] else Chp(0, 0));
        points := bigger;
        assert points[..used] == before;
      }
      points[used] := p;
      used := used + 1;
      assert points[..used] == before + [p];
      Resort();
    }

    /** ring_del_point, for a pointer to element k. */
    method DelPoint(k: nat)
      requires Valid() && k < used
      modifies this`used, points
      ensures Valid() && points == old(points) && Points() == old(Points()[..k] + Points()[k + 1..])
    {
      ghost var before := points[..used];
      var p := k;
      while p + 1 < used
        invariant used == old(used) <= points.Length && k <= p < used
        invariant forall j | 0 <= j < k :: points[j] == before[j]
        invariant forall j | k <= j < p :: points[j] == before[j + 1]
        invariant forall j | p < j < used :: points[j] == before[j]
      {
        points[p] := points[p + 1];
        p := p + 1;
      }
      used := used - 1;
      assert points[..used] == before[..k] + before[k + 1..];
    }

    /** ring_get_point2: the index of the owner of a key, or EINVAL for an empty ring. */
    method GetPoint2(key: nat) returns (r: Option<nat>)
      requires Valid()
      ensures used == 0 ==> r == None
      ensures used > 0 ==> r.Some? && IsFirst(Points(), key, r.value)
    {
      if used == 0 { return None; }
      var low, high: int := 0, used;
      while true
        invariant 0 <= low <= used && -1 <= high <= used && low <= high
        invariant forall i | 0 <= i < low :: points[i].point < key
        invariant forall i | high < i < used :: points[i].point >= key
        invariant 0 <= high < used ==> points[high].point >= key
        decreases high - low
      {
        var mid := (low + high) / 2;
        if mid == used { return Some(0); }
        var midval := points[mid].point;
        var midval1 := if mid == 0 then 0 else points[mid - 1].point;
        if key <= midval && key > midval1 { return Some(mid); }
        if midval < key { low := mid + 1; } else { high := mid - 1; }
        if low > high { return Some(0); }
      }
    }
  }
}
