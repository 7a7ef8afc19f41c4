/** Transactions, their recycling through an LRU list, and the commit callbacks
    of a TXG (mds/tx.c and txg_trigger_ccb in mds/txg.c) as a step relation.

    A handler thread allocates a transaction, pins the open TXG, lists the
    transaction for the commit callback, and calls mds_tx_done and mds_tx_reply
    on it; a commit thread closes a TXG that nobody pins and runs its callbacks.
    Each store another thread can see, and each list operation under the lock,
    is a step of its own.  A transaction's op is fixed when it is allocated. */
module TxModel {
  import opened Common

  datatype Op = Normal | NoCommit | Forget

  datatype TxState = Processing | Done | Acked | Committed

  function Rank(st: TxState): nat {
    match st case Processing => 1 case Done => 2 case Acked => 3 case Committed => 4
  }

  /** `joins` counts how often the transaction was put on the LRU list since it
      was started, `holder` is the handler that still has steps to do with it. */
  datatype Tx = Tx(op: Op, state: TxState, txg: nat, joins: nat, holder: Option<nat>)

  /** `closer` is the commit thread that found nothing pending. */
  datatype Txg = Txg(pending: int, ccb: seq<nat>, closer: Option<nat>)

  /** Control state of a handler: it has popped x off the LRU list or allocated
      it, pinned TXG t and initialised x, listed x; marked it DONE, parked it on
      the LRU list if nobody waits for it, put the TXG; found it not ACKED yet,
      and is about to park it after the reply. */
  datatype Han =
    | Idle
    | Popped(x: nat)
    | Pinned(x: nat, t: nat)
    | Working(x: nat, t: nat)
    | Marked(x: nat, t: nat)
    | Parked(x: nat, t: nat)
    | Put(x: nat)
    | Acking(x: nat)
    | ToLru(x: nat)

  /** Control state of a commit thread: it runs the callbacks of t, has marked
      x COMMITED, has put x on the LRU list. */
  datatype Com = CIdle | CRun(t: nat) | CMark(t: nat, x: nat) | CListed(t: nat, x: nat)

  datatype State = State(txs: map<nat, Tx>, lru: seq<nat>, ftx: int, total: int,
                         txgs: map<nat, Txg>, han: map<nat, Han>, com: map<nat, Com>)

  datatype Act =
    | NewTxg(t: nat)
    | Take(h: nat) | Alloc(h: nat, x: nat) | Start(h: nat, op: Op, t: nat) | Fix(h: nat)
    | DoneMark(h: nat) | DonePark(h: nat) | DonePut(h: nat)
    | ReplyTest(h: nat) | ReplyStore(h: nat) | ReplyPark(h: nat)
    | Close(c: nat, t: nat) | CbTest(c: nat) | CbPark(c: nat) | CbDel(c: nat) | CbEnd(c: nat)

  /** Transaction x joins the LRU list. */
  function Join(s: State, x: nat): State
    requires x in s.txs
  {
    s.(lru := s.lru + [x], ftx := s.ftx + 1, txs := s.txs[x := s.txs[x].(joins := s.txs[x].joins + 1)])
  }

  function SetHan(s: State, h: nat, q: Han): State { s.(han := s.han[h := q]) }

  function SetCom(s: State, c: nat, q: Com): State { s.(com := s.com[c := q]) }

  /** The handler has no more steps to do with x. */
  function LetGo(s: State, h: nat, x: nat): State
    requires x in s.txs
  {
    SetHan(s, h, Idle).(txs := s.txs[x := s.txs[x].(holder := None)])
  }

  function SetState(s: State, x: nat, st: TxState): State
    requires x in s.txs
  {
    s.(txs := s.txs[x := s.txs[x].(state := st)])
  }

  function Drop(l: seq<nat>, x: nat): seq<nat> {
    if l == [] then [] else if l[0] == x then l[1..] else [l[0]] + Drop(l[1..], x)
  }

  /** x leaves the callback list of t.  The walk over a list goes on past the
      transaction it has committed even if that was recycled meanwhile; the link
      it then deletes is the one of the new life. */
  function Unlist(txgs: map<nat, Txg>, t: nat, x: nat): map<nat, Txg> {
    if t in txgs then txgs[t := txgs[t].(ccb := Drop(txgs[t].ccb, x))] else txgs
  }

  ghost predicate AllocNext(s: State, a: Act, s': State) {
    match a
    case NewTxg(t) => t !in s.txgs && s' == s.(txgs := s.txgs[t := Txg(0, [], None)])
    case Take(h) =>
      && h in s.han && s.han[h] == Idle && s.ftx > 0 && s.lru != [] && s.lru[0] in s.txs
      && var x := s.lru[0];
         s' == SetHan(s, h, Popped(x)).(lru := s.lru[1..], ftx := s.ftx - 1, txs := s.txs[x := s.txs[x].(holder := Some(h))])
    case Alloc(h, x) =>
      && h in s.han && s.han[h] == Idle && s.ftx <= 0 && x !in s.txs
      && s' == SetHan(s, h, Popped(x)).(txs := s.txs[x := Tx(Forget, Committed, 0, 0, Some(h))], total := s.total + 1)
    case Start(h, op, t) =>
      && h in s.han && s.han[h].Popped? && s.han[h].x in s.txs && t in s.txgs && s.txgs[t].closer == None
      && var x := s.han[h].x;
         s' == SetHan(s, h, Pinned(x, t)).(txs := s.txs[x := Tx(op, Processing, t, 0, Some(h))],
                                           txgs := s.txgs[t := s.txgs[t].(pending := s.txgs[t].pending + 1)])
    case Fix(h) =>
      && h in s.han && s.han[h].Pinned? && s.han[h].x in s.txs && s.txs[s.han[h].x].txg in s.txgs
      && var x := s.han[h].x; var t := s.txs[x].txg;
         s' == SetHan(if s.txs[x].op == Normal then s.(txgs := s.txgs[t := s.txgs[t].(ccb := s.txgs[t].ccb + [x])]) else s,
                      h, Working(x, s.han[h].t))
    case _ => false
  }

  ghost predicate DoneNext(s: State, a: Act, s': State) {
    match a
    case DoneMark(h) =>
      && h in s.han && s.han[h].Working? && s.han[h].x in s.txs
      && var x := s.han[h].x;
         s' == if s.txs[x].state == Processing then SetHan(SetState(s, x, Done), h, Marked(x, s.han[h].t))
               else SetHan(s, h, Put(x))
    case DonePark(h) =>
      && h in s.han && s.han[h].Marked? && s.han[h].x in s.txs
      && var x := s.han[h].x;
         s' == SetHan(if s.txs[x].op == Forget then Join(s, x) else s, h, Parked(x, s.han[h].t))
    case DonePut(h) =>
      && h in s.han && s.han[h].Parked? && s.han[h].x in s.txs && s.txs[s.han[h].x].txg in s.txgs
      && var x := s.han[h].x; var t := s.txs[x].txg;
         s' == SetHan(s, h, Put(x)).(txgs := s.txgs[t := s.txgs[t].(pending := s.txgs[t].pending - 1)])
    case _ => false
  }

  ghost predicate ReplyNext(s: State, a: Act, s': State) {
    match a
    case ReplyTest(h) =>
      && h in s.han && s.han[h].Put? && s.han[h].x in s.txs
      && var x := s.han[h].x;
         s' == if Rank(s.txs[x].state) <= Rank(Done) then SetHan(s, h, Acking(x)) else LetGo(s, h, x)
    case ReplyStore(h) =>
      && h in s.han && s.han[h].Acking? && s.han[h].x in s.txs
      && var x := s.han[h].x; var s1 := SetState(s, x, Acked);
         s' == if s.txs[x].op == NoCommit then SetHan(s1, h, ToLru(x)) else LetGo(s1, h, x)
    case ReplyPark(h) =>
      && h in s.han && s.han[h].ToLru? && s.han[h].x in s.txs
      && s' == LetGo(Join(s, s.han[h].x), h, s.han[h].x)
    case _ => false
  }

  ghost predicate CbNext(s: State, a: Act, s': State) {
    match a
    case Close(c, t) =>
      && c in s.com && s.com[c] == CIdle && t in s.txgs && s.txgs[t].closer == None && s.txgs[t].pending == 0
      && s' == SetCom(s, c, CRun(t)).(txgs := s.txgs[t := s.txgs[t].(closer := Some(c))])
    case CbTest(c) =>
      && c in s.com && s.com[c].CRun? && s.com[c].t in s.txgs && s.txgs[s.com[c].t].ccb != []
      && var t := s.com[c].t; var x := s.txgs[t].ccb[0];
      && x in s.txs
      && s' == if Rank(Done) <= Rank(s.txs[x].state) <= Rank(Acked) then SetCom(SetState(s, x, Committed), c, CMark(t, x))
               else s.(txgs := s.txgs[t := s.txgs[t].(ccb := s.txgs[t].ccb[1..])])
    case CbPark(c) =>
      && c in s.com && s.com[c].CMark? && s.com[c].x in s.txs
      && var x := s.com[c].x;
         s' == SetCom(if s.txs[x].op == Normal then Join(s, x) else s, c, CListed(s.com[c].t, x))
    case CbDel(c) =>
      && c in s.com && s.com[c].CListed? && s.com[c].x in s.txs && s.com[c].t in s.txgs
      && var x := s.com[c].x; var t := s.com[c].t;
         s' == SetCom(s, c, CRun(t)).(txgs := Unlist(if s.txs[x].txg == t then s.txgs else Unlist(s.txgs, s.txs[x].txg, x), t, x))
    case CbEnd(c) =>
      && c in s.com && s.com[c].CRun? && s.com[c].t in s.txgs && s.txgs[s.com[c].t].ccb == []
      && s' == SetCom(s, c, CIdle)
    case _ => false
  }

  ghost predicate Next(s: State, a: Act, s': State) {
    AllocNext(s, a, s') || DoneNext(s, a, s') || ReplyNext(s, a, s') || CbNext(s, a, s')
  }

  /** mds_init_txc: some transactions are preallocated, all on the LRU list. */
  predicate Init(s: State) {
    && s.ftx == |s.lru| == s.total && s.txs.Keys == (set x | x in s.lru)
    && (forall i, j | 0 <= i < j < |s.lru| :: s.lru[i] != s.lru[j])
    && (forall x | x in s.txs :: s.txs[x] == Tx(Forget, Committed, 0, 1, None))
    && s.txgs == map[] && (forall h | h in s.han :: s.han[h] == Idle) && (forall c | c in s.com :: s.com[c] == CIdle)
  }

  /** No thread has steps left to do with x. */
  predicate Rested(s: State, x: nat) {
    && x in s.txs && s.txs[x].holder == None
    && forall c | c in s.com :: !(s.com[c].CMark? && s.com[c].x == x) && !(s.com[c].CListed? && s.com[c].x == x)
  }

  /** The step recycles a transaction only when it is at rest. */
  predicate Calm(s: State, a: Act) { a.Take? && s.lru != [] ==> Rested(s, s.lru[0]) }

  ghost predicate Run(ss: seq<State>, acts: seq<Act>) {
    && |ss| == |acts| + 1 && Init(ss[0])
    && forall k | 0 <= k < |acts| :: Next(ss[k], acts[k], ss[k + 1])
  }

  /** A run whose every recycling is calm. */
  ghost predicate CalmRun(ss: seq<State>, acts: seq<Act>) {
    Run(ss, acts) && forall k | 0 <= k < |acts| :: Calm(ss[k], acts[k])
  }
}
