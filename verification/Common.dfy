/** Optional values, machine words, sequences without repetition, and sets of small numbers. */
module Common {
  datatype Option<+T> = None | Some(value: T)

  /** What 64 bits hold. */
  type Word = x: int | 0 <= x < 0x1_0000_0000_0000_0000

  ghost predicate Distinct<T>(s: seq<T>) {
    forall i, j | 0 <= i < j < |s| :: s[i] != s[j]
  }

  ghost function Members(c: seq<nat>): (r: set<nat>)
    ensures forall x: nat :: x in r <==> x in c
  {
    if c == [] then {} else Members(c[1..]) + {c[0]}
  }

  lemma {:induction false} DistinctCount(c: seq<nat>)
    requires Distinct(c)
    ensures |Members(c)| == |c|
  {
    if c != [] {
      DistinctCount(c[1..]);
      assert c[0] !in c[1..];
    }
  }

  ghost function Below(n: nat): (r: set<nat>)
    ensures |r| == n && forall i: nat :: i in r <==> i < n
  {
    if n == 0 then {} else Below(n - 1) + {n - 1}
  }

  lemma {:induction false} Subset(a: set<nat>, b: set<nat>)
    requires a <= b
    ensures |a| <= |b|
  {
    if a != {} {
      var x :| x in a;
      Subset(a - {x}, b - {x});
    }
  }
}
