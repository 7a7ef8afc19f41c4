/** The invariant of calm runs of the transactions. */
module TxInvariant {
  import opened Common
  import opened TxModel

  function Ref(q: Han): Option<nat> { if q == Idle then None else Some(q.x) }

  /** The TXG that a handler pins. */
  function Pin(q: Han): Option<nat> {
    if q.Pinned? || q.Working? || q.Marked? || q.Parked? then Some(q.t) else None
  }

  ghost function Pins(han: map<nat, Han>, t: nat): set<nat> { set h | h in han && Pin(han[h]) == Some(t) }

  function One(b: bool): nat { if b then 1 else 0 }

  lemma PinsMove(han: map<nat, Han>, h: nat, q: Han, t: nat)
    requires h in han
    ensures |Pins(han[h := q], t)| == |Pins(han, t)| - One(Pin(han[h]) == Some(t)) + One(Pin(q) == Some(t))
  {
    hide Pin;
    var a, b := Pins(han, t), Pins(han[h := q], t);
    if Pin(q) == Some(t) { assert b == a - {h} + {h}; } else { assert b == a - {h}; }
  }

  predicate Listed(s: State, x: nat)
    requires x in s.txs
  {
    s.txs[x].txg in s.txgs && x in s.txgs[s.txs[x].txg].ccb
  }

  /** Where a transaction is in its life, by the handler that holds it. */
  predicate Phase(s: State, x: nat, q: Han)
    requires x in s.txs
  {
    var b, on := s.txs[x], x in s.lru;
    match q
    case Idle => b.joins == One(on) && Rank(b.state) >= Rank(Done) && (!on ==> b.op == Normal && Listed(s, x))
    case Popped(_) => !on
    case Pinned(_, t) => !on && b.joins == 0 && b.state == Processing && b.txg == t
    case Working(_, t) => !on && b.joins == 0 && b.state == Processing && b.txg == t && (b.op == Normal ==> Listed(s, x))
    case Marked(_, t) => !on && b.joins == 0 && b.state == Done && b.txg == t && (b.op == Normal ==> Listed(s, x))
    case Parked(_, t) =>
      on == (b.op == Forget) && b.joins == One(on) && b.state == Done && b.txg == t && (b.op == Normal ==> Listed(s, x))
    case ToLru(_) => !on && b.joins == 0 && b.op == NoCommit && Rank(b.state) >= Rank(Done)
    case _ =>
      && b.joins == One(on) && Rank(b.state) >= Rank(Done) && (b.op != Normal ==> b.state == Done)
      && (b.op == NoCommit ==> !on) && (b.op == Forget ==> on) && (b.op == Normal && !on ==> Listed(s, x))
      && (b.op == Normal ==> b.state != Acked && (on ==> b.state == Committed))
  }

  /** What holds transaction x, seen from x. */
  predicate XOk(s: State, x: nat)
    requires x in s.txs
  {
    match s.txs[x].holder
    case None => Phase(s, x, Idle)
    case Some(h) => h in s.han && Ref(s.han[h]) == Some(x) && Phase(s, x, s.han[h])
  }

  predicate HOk(s: State, h: nat)
    requires h in s.han
  {
    && (Ref(s.han[h]).Some? ==> s.han[h].x in s.txs && s.txs[s.han[h].x].holder == Some(h))
    && (Pin(s.han[h]).Some? ==> s.han[h].t in s.txgs && s.txgs[s.han[h].t].closer == None)
  }

  /** Commit thread c has marked x and not yet unlisted it. */
  predicate Handles(s: State, c: nat, t: nat, x: nat) {
    c in s.com && (s.com[c] == CMark(t, x) || s.com[c] == CListed(t, x))
  }

  /** A transaction on the callback list of t. */
  predicate CcbOk(s: State, t: nat, x: nat)
    requires t in s.txgs
  {
    && x in s.txs && s.txs[x].op == Normal && s.txs[x].txg == t
    && (s.txs[x].holder.Some? ==> s.txs[x].holder.value in s.han
                                  && !s.han[s.txs[x].holder.value].Popped? && !s.han[s.txs[x].holder.value].Pinned?)
    && (x in s.lru ==> s.txgs[t].closer.Some? && s.txgs[t].closer.value in s.com
                       && s.com[s.txgs[t].closer.value] == CListed(t, x))
    && (s.txs[x].state == Committed ==> s.txgs[t].closer.Some? && Handles(s, s.txgs[t].closer.value, t, x))
    && (s.txs[x].state == Processing ==> s.txs[x].holder.Some? && s.han[s.txs[x].holder.value] == Working(x, t))
  }

  ghost predicate TOk(s: State, t: nat)
    requires t in s.txgs
  {
    && s.txgs[t].pending == |Pins(s.han, t)| && Distinct(s.txgs[t].ccb)
    && (forall x | x in s.txgs[t].ccb :: CcbOk(s, t, x))
    && (s.txgs[t].closer.Some? && s.txgs[t].ccb != [] ==> s.txgs[t].closer.value in s.com && Calls(s.com[s.txgs[t].closer.value], t))
  }

  /** The commit thread runs the callbacks of t. */
  predicate Calls(q: Com, t: nat) { q != CIdle && q.t == t }

  /** Commit thread c has closed t and works on the first transaction of its list. */
  predicate CallsOn(s: State, c: nat, t: nat, x: nat) {
    t in s.txgs && s.txgs[t].closer == Some(c) && s.txgs[t].ccb != [] && s.txgs[t].ccb[0] == x
  }

  predicate COk(s: State, c: nat)
    requires c in s.com
  {
    match s.com[c]
    case CIdle => true
    case CRun(t) => t in s.txgs && s.txgs[t].closer == Some(c)
    case CMark(t, x) => CallsOn(s, c, t, x) && x !in s.lru && x in s.txs && (s.txs[x].holder.Some? ==> s.txs[x].state == Committed)
    case CListed(t, x) => CallsOn(s, c, t, x) && x in s.lru
  }

  ghost predicate LruOk(s: State) {
    && Distinct(s.lru) && (forall x | x in s.lru :: x in s.txs) && s.ftx == |s.lru| && s.total == |s.txs|
  }

  ghost predicate Inv(s: State) {
    && LruOk(s)
    && (forall x | x in s.txs :: XOk(s, x))
    && (forall h | h in s.han :: HOk(s, h))
    && (forall t | t in s.txgs :: TOk(s, t))
    && (forall c | c in s.com :: COk(s, c))
  }

  lemma InitLru(s: State)
    requires Init(s)
    ensures LruOk(s)
  {
    DistinctCount(s.lru);
    assert s.txs.Keys == Members(s.lru);
    assert |s.txs| == |s.txs.Keys|;
  }

  lemma InitInv(s: State)
    requires Init(s)
    ensures Inv(s)
  {
    InitLru(s);
    hide LruOk, Pins;
  }
}
