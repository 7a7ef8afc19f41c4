/** The life of one ITB between requests, async unlink and copies that nobody
    races with: the directory machine it refines, and the header it keeps. */
module ItbLife {
  import opened ItbTable
  import opened ItbInvariant
  import opened ItbChanges
  import opened ItbEdits
  import opened ItbNames
  import opened ItbObject
  import opened ItbCow
  import opened ItbCopies

  // ------------------------------------------------------- the header lasts

  /** A copy that nobody races with. */
  ghost predicate Copies(t: Tab, t': Tab) { exists junk: seq<Ite> :: |junk| == |t.ite| && t' == Recopy(t, t.h, junk) }

  /** The tables of an ITB that began empty. */
  ghost predicate Life(cap: nat, ts: seq<Tab>) {
    && cap > 0 && ts != [] && (exists blank: Ite :: ts[0] == Empty(cap, blank))
    && forall k | 0 <= k < |ts| - 1 :: Edit(ts[k], ts[k + 1]) || Sweeps(ts[k], ts[k + 1]) || Copies(ts[k], ts[k + 1])
  }

  ghost predicate Exact(t: Tab) { exists w: Shape :: Inv(t, w) }

  lemma StepIsExact(t: Tab, t': Tab)
    requires Exact(t) && (Edit(t, t') || Sweeps(t, t') || Copies(t, t'))
    ensures Exact(t')
  {
    hide Inv, Edit, Recopy;
    var w :| Inv(t, w);
    if Edit(t, t') {
      var w' := EditKeepsInv(t, w, t');
    } else if Copies(t, t') {
      var junk: seq<Ite> :| |junk| == |t.ite| && t' == Recopy(t, t.h, junk);
      CopyIsExact(t, w, junk);
    } else {
      SweepIsExact(t, t');
    }
  }

  lemma SweepIsExact(t: Tab, t': Tab)
    requires Sweeps(t, t')
    ensures Exact(t')
  {
    hide Inv;
    var w: Shape, n: nat, w': Shape :| Shaped(t, w) && Swept(t, w, n, t', w');
  }

  lemma CopyIsExact(t: Tab, w: Shape, junk: seq<Ite>)
    requires Inv(t, w) && |junk| == |t.ite|
    ensures Inv(Recopy(t, t.h, junk), w)
  {
    CowKeepsInvIff(t, w, t.h, junk);
    assert forall e | e in Live(t) :: t.bits[e];
  }

  lemma {:induction false} LifeIsExact(cap: nat, ts: seq<Tab>, k: nat)
    requires Life(cap, ts) && k < |ts|
    ensures Exact(ts[k])
  {
    hide Exact, Edit, Sweeps, Copies;
    if k == 0 {
      var blank: Ite :| ts[0] == Empty(cap, blank);
      EmptyIsExact(cap, blank);
    } else {
      LifeIsExact(cap, ts, k - 1);
      StepIsExact(ts[k - 1], ts[k]);
    }
  }

  lemma EmptyIsExact(cap: nat, blank: Ite)
    requires cap > 0
    ensures Exact(Empty(cap, blank))
  {
    EmptyIsRight(cap, blank);
  }

  /** In the life of an ITB every table keeps all later copies right. */
  lemma LifeStaysRight(cap: nat, ts: seq<Tab>, k: nat)
    requires Life(cap, ts) && k < |ts|
    ensures StaysRight(ts[k])
  {
    hide Life, Inv, StaysRight;
    LifeIsExact(cap, ts, k);
    var w :| Inv(ts[k], w);
    InvIsSound(ts[k], w);
    LaterCopiesRightIff(ts[k]);
  }

  lemma LifeOfMoves(cap: nat, H: string -> nat, blank: Ite, moves: seq<Move>, ts: seq<Tab>)
    requires cap > 0 && |ts| == |moves| + 1 && ts[0] == Empty(cap, blank)
    requires forall i | 0 <= i < |moves| :: Moved(H, moves[i], ts[i], ts[i + 1])
    ensures Life(cap, ts)
  {
    hide Edit, Changes, Sweeps, Copies;
    forall k | 0 <= k < |ts| - 1 ensures Edit(ts[k], ts[k + 1]) || Sweeps(ts[k], ts[k + 1]) || Copies(ts[k], ts[k + 1]) {
      assert Moved(H, moves[k], ts[k], ts[k + 1]);
      if moves[k].Ask? && !moves[k].op.Reap? { ChangesIsEdit(H, ts[k], ts[k + 1]); }
    }
  }

  // ------------------------------------------------------------ the object

  /** itb_cow without a race: the header is copied into recycled memory, and then the rest. */
  method Duplicate(oi: Itb, H: string -> nat, blank: Ite) returns (ni: Itb)
    requires oi.Dir(H)
    ensures ni.Dir(H) && ni.cap == oi.cap && ni.Listing(H) == oi.Listing(H)
    ensures fresh(ni) && fresh(ni.index) && fresh(ni.bitmap) && fresh(ni.ite)
    ensures Copies(oi.Table(), ni.Table())
  {
    hide Named, Meaning, Tombs, Shaped, Recopy;
    ghost var t := oi.Table();
    ni := new Itb(oi.cap, blank);
    ni.len, ni.inf, ni.itu := oi.len, oi.inf, oi.itu;
    ni.entries, ni.maxOffset, ni.pseudo := oi.entries, oi.maxOffset, oi.pseudo;
    ghost var junk := ni.ite[..];
    assert ni.Table().h == t.h;
    CowRecopy(oi, ni);
    CowKeepsNamed(t, oi.w, oi.nm, H, junk);
    ni.w := oi.w;
    ni.nm := oi.nm;
    assert ni.Table() == Recopy(t, t.h, junk);
  }

  /** A request, or a copy of the ITB, which then takes its place. */
  datatype Move = Ask(op: Op) | Copy(blank: Ite)

  function Asked(moves: seq<Move>): seq<Op> {
    if moves == [] then []
    else Asked(moves[..|moves| - 1]) + if moves[|moves| - 1].Ask? then [moves[|moves| - 1].op] else []
  }

  /** What a move does to the table. */
  ghost predicate Moved(H: string -> nat, m: Move, t: Tab, t': Tab) {
    match m
    case Ask(op) => if op.Reap? then Sweeps(t, t') else Changes(H, t, t')
    case Copy(_) => Copies(t, t')
  }

  /** Copies that nobody races with are invisible: requests are answered as by the
      directory machine, wherever copies come in between.  The tables ts that the
      ITB goes through have lasting headers: whatever is done to any of them later,
      its copies stay right. */
  method RunWithCopies(cap: nat, H: string -> nat, moves: seq<Move>, blank: Ite) returns (rs: seq<Reply>, ghost ts: seq<Tab>)
    requires cap > 0 && forall i | 0 <= i < |moves| && moves[i].Ask? :: ProperOp(moves[i].op)
    ensures Answers(cap, H, Asked(moves), rs)
    ensures |ts| == |moves| + 1 && ts[0] == Empty(cap, blank)
    ensures forall i | 0 <= i < |moves| :: Moved(H, moves[i], ts[i], ts[i + 1])
    ensures forall i | 0 <= i < |ts| :: StaysRight(ts[i])
  {
    hide Serves, Inv, Named, Meaning, Tombs, Explains, Asked, Changes, Sweeps, Copies, StaysRight;
    var itb := new Itb(cap, blank);
    EmptyIsNamed(cap, blank, H);
    rs, ts := [], [itb.Table()];
    ghost var ds := [itb.Listing(H)];
    ExplainsNothing(cap, H, ds);
    assert moves[..0] == [] && Asked([]) == [] by { AskedNothing(); }
    for i := 0 to |moves|
      invariant itb.cap == cap && itb.Dir(H) && fresh(itb) && fresh(itb.index) && fresh(itb.bitmap) && fresh(itb.ite)
      invariant |ds| == |rs| + 1 && ds[|rs|] == itb.Listing(H) && Explains(cap, H, ds, Asked(moves[..i]), rs)
      invariant |ts| == i + 1 && ts[0] == Empty(cap, blank) && ts[i] == itb.Table()
      invariant forall j | 0 <= j < i :: Moved(H, moves[j], ts[j], ts[j + 1])
    {
      AskedMore(moves, i);
      match moves[i] {
        case Ask(op) =>
          var r := itb.Serve(H, op);
          ghost var d := itb.Listing(H);
          ExplainsMore(cap, H, ds, Asked(moves[..i]), rs, op, r, d);
          rs := rs + [r];
          ds := ds + [d];
        case Copy(junk) =>
          itb := Duplicate(itb, H, junk);
      }
      ts := ts + [itb.Table()];
    }
    assert moves[..|moves|] == moves;
    LifeOfMoves(cap, H, blank, moves, ts);
    forall i | 0 <= i < |ts| ensures StaysRight(ts[i]) { LifeStaysRight(cap, ts, i); }
  }

  lemma AskedNothing()
    ensures Asked([]) == []
  {
  }

  lemma AskedMore(moves: seq<Move>, i: nat)
    requires i < |moves|
    ensures moves[i].Ask? ==> Asked(moves[..i + 1]) == Asked(moves[..i]) + [moves[i].op]
    ensures moves[i].Copy? ==> Asked(moves[..i + 1]) == Asked(moves[..i])
  {
    assert moves[..i + 1][..i] == moves[..i];
  }

  lemma ExplainsNothing(cap: nat, H: string -> nat, ds: seq<Directory>)
    requires cap > 0 && ds == [Directory(map[], map[])]
    ensures Explains(cap, H, ds, [], [])
  {
  }

  lemma ExplainsMore(cap: nat, H: string -> nat, ds: seq<Directory>, ops: seq<Op>, rs: seq<Reply>, op: Op, r: Reply, d: Directory)
    requires cap > 0 && Explains(cap, H, ds, ops, rs) && Serves(cap, H, ds[|rs|], op, r, d)
    ensures Explains(cap, H, ds + [d], ops + [op], rs + [r])
  {
    hide Serves;
    var ds', ops', rs' := ds + [d], ops + [op], rs + [r];
    forall i | 0 <= i < |ops'| ensures Serves(cap, H, ds'[i], ops'[i], rs'[i], ds'[i + 1]) {
      if i < |ops| { assert Serves(cap, H, ds[i], ops[i], rs[i], ds[i + 1]); }
    }
  }
}
