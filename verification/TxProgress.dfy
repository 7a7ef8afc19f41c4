/** What the threads get done with transactions: a handler that has one finishes
    with it, and a commit thread with the callbacks of its TXG, by their own steps
    alone; and a new transaction is allocated only when none can be recycled. */
module TxProgress {
  import opened Common
  import opened TxModel
  import opened TxInvariant
  import opened TxSteps
  import opened TxPaths
  import opened TxTheorems

  // ------------------------------------------------- getting a transaction

  /** An idle handler gets the transaction that has been on the LRU list longest,
      or, exactly if the list is empty, a new one. */
  lemma RecyclesFirst(ss: seq<State>, acts: seq<Act>, k: nat, h: nat, x: nat)
    requires Run(ss, acts) && k < |ss| && h in ss[k].han && ss[k].han[h] == Idle && x !in ss[k].txs
    ensures var s := ss[k];
            && (s.lru != [] <==> exists s' :: Next(s, Take(h), s'))
            && (s.lru == [] <==> exists s' :: Next(s, Alloc(h, x), s'))
            && (forall s' | Next(s, Take(h), s') ::
                  s.lru != [] && s.lru[0] in s.txs
                  && s' == s.(han := s.han[h := Popped(s.lru[0])], lru := s.lru[1..], ftx := |s.lru| - 1,
                              txs := s.txs[s.lru[0] := s.txs[s.lru[0]].(holder := Some(h))]))
            && (forall s' | Next(s, Alloc(h, x), s') ::
                  s' == s.(han := s.han[h := Popped(x)], txs := s.txs[x := Tx(Forget, Committed, 0, 0, Some(h))], total := |s.txs| + 1))
  {
    hide Init;
    CountersInEveryRun(ss, acts, k);
    GetsOne(ss[k], h, x);
  }

  lemma GetsOne(s: State, h: nat, x: nat)
    requires h in s.han && s.han[h] == Idle && x !in s.txs
    requires s.ftx == |s.lru| && s.total == |s.txs| && forall y | y in s.lru :: y in s.txs
    ensures s.lru != [] <==> exists s' :: Next(s, Take(h), s')
    ensures s.lru == [] <==> exists s' :: Next(s, Alloc(h, x), s')
    ensures forall s' | Next(s, Take(h), s') ::
              s.lru != [] && s.lru[0] in s.txs
              && s' == s.(han := s.han[h := Popped(s.lru[0])], lru := s.lru[1..], ftx := |s.lru| - 1,
                          txs := s.txs[s.lru[0] := s.txs[s.lru[0]].(holder := Some(h))])
    ensures forall s' | Next(s, Alloc(h, x), s') ::
              s' == s.(han := s.han[h := Popped(x)], txs := s.txs[x := Tx(Forget, Committed, 0, 0, Some(h))], total := |s.txs| + 1)
  {
    hide Unlist, Drop, Rank;
    if s.lru != [] {
      var y := s.lru[0];
      assert Next(s, Take(h), s.(han := s.han[h := Popped(y)], lru := s.lru[1..], ftx := s.ftx - 1,
                                 txs := s.txs[y := s.txs[y].(holder := Some(h))]));
    } else {
      assert Next(s, Alloc(h, x), s.(han := s.han[h := Popped(x)], txs := s.txs[x := Tx(Forget, Committed, 0, 0, Some(h))],
                                     total := s.total + 1));
    }
  }

  // ------------------------------------------------------- threads on their own

  datatype Thread = Handler(h: nat) | Caller(c: nat) | Opener

  function Actor(a: Act): Thread {
    match a
    case NewTxg(_) => Opener
    case Close(c, _) => Caller(c)
    case CbTest(c) => Caller(c)
    case CbPark(c) => Caller(c)
    case CbDel(c) => Caller(c)
    case CbEnd(c) => Caller(c)
    case _ => Handler(a.h)
  }

  ghost predicate Alone(th: Thread, ss: seq<State>, acts: seq<Act>) {
    Steps(ss, acts, false) && forall k | 0 <= k < |acts| :: Actor(acts[k]) == th
  }

  /** Steps of this thread alone lead from s to s'. */
  ghost predicate Manages(th: Thread, s: State, s': State) {
    exists ss: seq<State>, acts: seq<Act> :: Alone(th, ss, acts) && ss[0] == s && ss[|ss| - 1] == s'
  }

  lemma Rests(th: Thread, s: State)
    ensures Manages(th, s, s)
  {
    assert Alone(th, [s], []);
  }

  lemma Acts(th: Thread, s: State, a: Act, m: State, s': State)
    requires Next(s, a, m) && Actor(a) == th && Manages(th, m, s')
    ensures Manages(th, s, s')
  {
    hide Next, Actor, Calm;
    var ss: seq<State>, acts: seq<Act> :| Alone(th, ss, acts) && ss[0] == m && ss[|ss| - 1] == s';
    var ss', acts' := [s] + ss, [a] + acts;
    forall k | 0 <= k < |acts'| ensures Next(ss'[k], acts'[k], ss'[k + 1]) && Actor(acts'[k]) == th {
      if k > 0 { assert ss'[k] == ss[k - 1] && ss'[k + 1] == ss[k] && acts'[k] == acts[k - 1]; }
    }
    assert Alone(th, ss', acts');
  }

  // ------------------------------------------------------- a handler finishes

  /** The state in which a handler leaves its transaction. */
  function EndState(q: Han, b: Tx): TxState {
    if q.ToLru? || (Rank(b.state) > Rank(Done) && !q.Acking?) then b.state else Acked
  }

  /** The handler still puts the transaction on the LRU list: one that nobody waits
      for when it is done, one that needs no commit after the reply. */
  predicate Parks(q: Han, b: Tx) {
    match b.op
    case Normal => false
    case NoCommit => true
    case Forget => q.Pinned? || q.Working? || q.Marked?
  }

  /** Handler h is idle, done with its transaction, and has let its TXG go; nothing
      else has changed. */
  predicate Handled(s: State, h: nat, s': State) {
    && h in s.han && !s.han[h].Idle? && s.han[h].x in s.txs
    && var q, x, b := s.han[h], s.han[h].x, s.txs[s.han[h].x];
    && (Pin(q).Some? ==> q.t in s.txgs)
    && s' == State(s.txs[x := Tx(b.op, EndState(q, b), b.txg, b.joins + One(Parks(q, b)), None)],
                   s.lru + (if Parks(q, b) then [x] else []), s.ftx + One(Parks(q, b)), s.total,
                   if Pin(q).Some? then s.txgs[q.t := Unpinned(s.txgs[q.t], q, b)] else s.txgs,
                   s.han[h := Idle], s.com)
  }

  /** The TXG once its handler has listed the transaction and let go. */
  function Unpinned(t: Txg, q: Han, b: Tx): Txg {
    t.(pending := t.pending - 1, ccb := if q.Pinned? && b.op == Normal then t.ccb + [q.x] else t.ccb)
  }

  function HanAct(q: Han, h: nat): Act {
    match q
    case Pinned(_, _) => Fix(h)
    case Working(_, _) => DoneMark(h)
    case Marked(_, _) => DonePark(h)
    case Parked(_, _) => DonePut(h)
    case Put(_) => ReplyTest(h)
    case Acking(_) => ReplyStore(h)
    case _ => ReplyPark(h)
  }

  function HanStep(s: State, h: nat): State
    requires h in s.han && !s.han[h].Idle? && s.han[h].x in s.txs
  {
    var q, x := s.han[h], s.han[h].x;
    match q
    case Pinned(_, t) =>
      SetHan(if s.txs[x].op == Normal && t in s.txgs then s.(txgs := s.txgs[t := s.txgs[t].(ccb := s.txgs[t].ccb + [x])]) else s,
             h, Working(x, t))
    case Working(_, t) => SetHan(SetState(s, x, Done), h, Marked(x, t))
    case Marked(_, t) => SetHan(if s.txs[x].op == Forget then Join(s, x) else s, h, Parked(x, t))
    case Parked(_, t) =>
      SetHan(if t in s.txgs then s.(txgs := s.txgs[t := s.txgs[t].(pending := s.txgs[t].pending - 1)]) else s, h, Put(x))
    case Put(_) => if Rank(s.txs[x].state) <= Rank(Done) then SetHan(s, h, Acking(x)) else LetGo(s, h, x)
    case Acking(_) =>
      if s.txs[x].op == NoCommit then SetHan(SetState(s, x, Acked), h, ToLru(x)) else LetGo(SetState(s, x, Acked), h, x)
    case ToLru(_) => LetGo(Join(s, x), h, x)
    case _ => s
  }

  function StepsLeft(q: Han): nat {
    match q
    case Pinned(_, _) => 7
    case Working(_, _) => 6
    case Marked(_, _) => 5
    case Parked(_, _) => 4
    case Put(_) => 3
    case Acking(_) => 2
    case ToLru(_) => 1
    case _ => 0
  }

  /** What the invariant says of a handler and its transaction. */
  lemma Handling(s: State, h: nat)
    requires Inv(s) && h in s.han && !s.han[h].Idle? && !s.han[h].Popped?
    ensures var q := s.han[h];
            && q.x in s.txs
            && (Pin(q).Some? ==> q.t in s.txgs && s.txs[q.x].txg == q.t)
            && (q.Working? ==> s.txs[q.x].state == Processing)
            && (q.Pinned? ==> s.txs[q.x].state == Processing)
            && (q.Marked? || q.Parked? ==> s.txs[q.x].state == Done)
            && (q.ToLru? ==> s.txs[q.x].op == NoCommit)
            && (q.Put? || q.Acking? ==> s.txs[q.x].op != Normal ==> s.txs[q.x].state == Done)
            && (q.Put? || q.Acking? ==> Rank(s.txs[q.x].state) >= Rank(Done))
  {
    assert HOk(s, h) && XOk(s, s.han[h].x);
  }

  lemma HanStepIs(s: State, h: nat)
    requires Inv(s) && h in s.han && !s.han[h].Idle? && !s.han[h].Popped?
    ensures s.han[h].x in s.txs
    ensures (AllocNext(s, HanAct(s.han[h], h), HanStep(s, h)) || DoneNext(s, HanAct(s.han[h], h), HanStep(s, h))
             || ReplyNext(s, HanAct(s.han[h], h), HanStep(s, h)))
    ensures Actor(HanAct(s.han[h], h)) == Handler(h) && !HanAct(s.han[h], h).Take?
  {
    hide Inv;
    Handling(s, h);
  }

  /** A calm step of a handler keeps the invariant. */
  lemma HanNext(s: State, a: Act, s': State)
    requires Inv(s) && (AllocNext(s, a, s') || DoneNext(s, a, s') || ReplyNext(s, a, s')) && !a.Take?
    ensures Next(s, a, s') && Inv(s')
  {
    hide Inv, AllocNext, DoneNext, ReplyNext, CbNext;
    NextKeepsInv(s, a, s');
  }

  // What is left to do after a step is the rest of what was to do before it.

  lemma AfterPinned(s: State, h: nat, s': State)
    requires Inv(s) && h in s.han && s.han[h].Pinned? && s.han[h].x in s.txs && Rest(HanStep(s, h), h, s')
    ensures Handled(s, h, s')
  {
    hide Inv;
    Handling(s, h);
  }

  lemma AfterWorking(s: State, h: nat, s': State)
    requires Inv(s) && h in s.han && s.han[h].Working? && s.han[h].x in s.txs && Rest(HanStep(s, h), h, s')
    ensures Handled(s, h, s')
  {
    hide Inv;
    Handling(s, h);
  }

  lemma AfterMarked(s: State, h: nat, s': State)
    requires Inv(s) && h in s.han && s.han[h].Marked? && s.han[h].x in s.txs && Rest(HanStep(s, h), h, s')
    ensures Handled(s, h, s')
  {
    hide Inv;
    Handling(s, h);
  }

  lemma AfterParked(s: State, h: nat, s': State)
    requires Inv(s) && h in s.han && s.han[h].Parked? && s.han[h].x in s.txs && Rest(HanStep(s, h), h, s')
    ensures Handled(s, h, s')
  {
    hide Inv;
    Handling(s, h);
  }

  lemma AfterPut(s: State, h: nat, s': State)
    requires Inv(s) && h in s.han && s.han[h].Put? && s.han[h].x in s.txs && Rest(HanStep(s, h), h, s')
    ensures Handled(s, h, s')
  {
    hide Inv;
    Handling(s, h);
  }

  lemma AfterAcking(s: State, h: nat, s': State)
    requires Inv(s) && h in s.han && s.han[h].Acking? && s.han[h].x in s.txs && Rest(HanStep(s, h), h, s')
    ensures Handled(s, h, s')
  {
    hide Inv;
    Handling(s, h);
  }

  lemma AfterToLru(s: State, h: nat, s': State)
    requires Inv(s) && h in s.han && s.han[h].ToLru? && s.han[h].x in s.txs && Rest(HanStep(s, h), h, s')
    ensures Handled(s, h, s')
  {
    hide Inv;
    Handling(s, h);
  }

  predicate Rest(m: State, h: nat, s': State) {
    h in m.han && if m.han[h].Idle? then s' == m else Handled(m, h, s')
  }

  lemma HandledOn(s: State, h: nat, s': State)
    requires Inv(s) && h in s.han && !s.han[h].Idle? && !s.han[h].Popped? && s.han[h].x in s.txs && Rest(HanStep(s, h), h, s')
    ensures Handled(s, h, s')
  {
    hide Inv, Handled, HanStep, Rest;
    match s.han[h]
    case Pinned(_, _) => AfterPinned(s, h, s');
    case Working(_, _) => AfterWorking(s, h, s');
    case Marked(_, _) => AfterMarked(s, h, s');
    case Parked(_, _) => AfterParked(s, h, s');
    case Put(_) => AfterPut(s, h, s');
    case Acking(_) => AfterAcking(s, h, s');
    case ToLru(_) => AfterToLru(s, h, s');
  }

  lemma StepsDown(s: State, h: nat)
    requires h in s.han && !s.han[h].Idle? && !s.han[h].Popped? && s.han[h].x in s.txs
    ensures var m := HanStep(s, h);
            h in m.han && !m.han[h].Popped? && StepsLeft(m.han[h]) < StepsLeft(s.han[h])
  {
  }

  lemma {:induction false} HandlerFrom(s: State, h: nat) returns (s': State)
    requires Inv(s) && h in s.han && !s.han[h].Idle? && !s.han[h].Popped?
    ensures Manages(Handler(h), s, s') && Handled(s, h, s')
    decreases StepsLeft(s.han[h])
  {
    hide Inv, Next, Manages, Handled, HanStep, HanAct, AllocNext, DoneNext, ReplyNext;
    HanStepIs(s, h);
    StepsDown(s, h);
    var a, m := HanAct(s.han[h], h), HanStep(s, h);
    HanNext(s, a, m);
    if m.han[h].Idle? {
      s' := m;
      Rests(Handler(h), m);
    } else {
      s' := HandlerFrom(m, h);
    }
    HandledOn(s, h, s');
    Acts(Handler(h), s, a, m, s');
  }

  /** In every state of a calm run a handler that has started its transaction
      finishes with it by its own steps: it lists it for the commit if that is
      wanted, marks it DONE and then ACKED unless it was committed meanwhile, puts
      it on the LRU list if nobody else will, and lets its TXG go. */
  lemma HandlerFinishes(ss: seq<State>, acts: seq<Act>, k: nat, h: nat) returns (s': State)
    requires CalmRun(ss, acts) && k < |ss| && h in ss[k].han && !ss[k].han[h].Idle? && !ss[k].han[h].Popped?
    ensures Manages(Handler(h), ss[k], s') && Handled(ss[k], h, s')
  {
    hide CalmRun, Handled, Manages;
    CalmRunKeepsInv(ss, acts, k);
    s' := HandlerFrom(ss[k], h);
  }

  /** A handler that has a transaction starts it in any TXG that is not closed. */
  lemma StartServed(s: State, h: nat, op: Op, t: nat)
    requires h in s.han && s.han[h].Popped? && s.han[h].x in s.txs
    ensures t in s.txgs && s.txgs[t].closer == None <==> exists s' :: Next(s, Start(h, op, t), s')
    ensures forall s' | Next(s, Start(h, op, t), s') ::
              t in s.txgs
              && s' == s.(han := s.han[h := Pinned(s.han[h].x, t)], txs := s.txs[s.han[h].x := Tx(op, Processing, t, 0, Some(h))],
                          txgs := s.txgs[t := s.txgs[t].(pending := s.txgs[t].pending + 1)])
  {
    hide Unlist, Drop, Rank;
    if t in s.txgs && s.txgs[t].closer == None {
      var x := s.han[h].x;
      assert Next(s, Start(h, op, t), SetHan(s, h, Pinned(x, t)).(txs := s.txs[x := Tx(op, Processing, t, 0, Some(h))],
                                                                 txgs := s.txgs[t := s.txgs[t].(pending := s.txgs[t].pending + 1)]));
    }
  }

  // -------------------------------------------------- the callbacks finish

  /** The transactions that commit thread c has still to put on the LRU list. */
  function Waiting(s: State, c: nat): seq<nat>
    requires c in s.com && s.com[c] != CIdle && s.com[c].t in s.txgs
  {
    var l := s.txgs[s.com[c].t].ccb;
    if s.com[c].CListed? && l != [] then l[1..] else l
  }

  /** The state in which the callbacks leave a transaction that is on the list; the
      one in work has had its state stored already. */
  function CalledState(s: State, c: nat, x: nat): TxState
    requires c in s.com && x in s.txs
  {
    if (s.com[c].CMark? || s.com[c].CListed?) && s.com[c].x == x then s.txs[x].state else Committed
  }

  /** Commit thread c is idle: every transaction that its TXG still had to commit is
      COMMITED and on the LRU list, which they join in the order of the callback
      list; nothing else has changed. */
  predicate Called(s: State, c: nat, s': State) {
    && c in s.com && s.com[c] != CIdle && s.com[c].t in s.txgs
    && var t, w := s.com[c].t, Waiting(s, c);
    && s'.txgs == s.txgs[t := s.txgs[t].(ccb := [])]
    && s'.lru == s.lru + w && s'.ftx == s.ftx + |w| && s'.total == s.total
    && s'.han == s.han && s'.com == s.com[c := CIdle]
    && s'.txs.Keys == s.txs.Keys && (forall x | x in s.txs :: s'.txs[x] == CalledTx(s, c, x))
  }

  /** What becomes of transaction x. */
  function CalledTx(s: State, c: nat, x: nat): Tx
    requires c in s.com && s.com[c] != CIdle && s.com[c].t in s.txgs && x in s.txs
  {
    if x in s.txgs[s.com[c].t].ccb
    then s.txs[x].(state := CalledState(s, c, x), joins := s.txs[x].joins + One(x in Waiting(s, c)))
    else s.txs[x]
  }

  /** What the invariant says of a commit thread that runs callbacks. */
  lemma Calling(s: State, c: nat)
    requires Inv(s) && c in s.com && s.com[c] != CIdle
    ensures s.com[c].t in s.txgs
    ensures var t, l := s.com[c].t, s.txgs[s.com[c].t].ccb;
            && Distinct(l)
            && (forall x | x in l :: x in s.txs && s.txs[x].op == Normal && s.txs[x].txg == t)
            && (!s.com[c].CRun? ==> l != [] && l[0] == s.com[c].x)
            && (s.com[c].CRun? && l != [] ==> Rank(Done) <= Rank(s.txs[l[0]].state) <= Rank(Acked))
  {
    assert COk(s, c) && TOk(s, s.com[c].t);
    var t, l := s.com[c].t, s.txgs[s.com[c].t].ccb;
    forall x | x in l ensures CcbOk(s, t, x) {}
    if l != [] {
      CcbHolds(s, t, l[0]);
      ClosedIsUnpinned(s, t);
    }
  }

  function CbAct(s: State, c: nat): Act
    requires c in s.com && s.com[c] != CIdle && s.com[c].t in s.txgs
  {
    match s.com[c]
    case CMark(_, _) => CbPark(c)
    case CListed(_, _) => CbDel(c)
    case CRun(t) => if s.txgs[t].ccb != [] then CbTest(c) else CbEnd(c)
  }

  function CbStep(s: State, c: nat): State
    requires c in s.com && s.com[c] != CIdle && s.com[c].t in s.txgs
    requires s.txgs[s.com[c].t].ccb != [] ==> s.txgs[s.com[c].t].ccb[0] in s.txs
  {
    var t, l := s.com[c].t, s.txgs[s.com[c].t].ccb;
    if l == [] then SetCom(s, c, CIdle)
    else
      match s.com[c]
      case CMark(_, _) => SetCom(Join(s, l[0]), c, CListed(t, l[0]))
      case CListed(_, _) => SetCom(s, c, CRun(t)).(txgs := s.txgs[t := s.txgs[t].(ccb := l[1..])])
      case CRun(_) => SetCom(SetState(s, l[0], Committed), c, CMark(t, l[0]))
  }

  lemma DropFirst(l: seq<nat>)
    requires l != []
    ensures Drop(l, l[0]) == l[1..]
  {
  }

  lemma CbStepIs(s: State, c: nat)
    requires Inv(s) && c in s.com && s.com[c] != CIdle
    ensures s.com[c].t in s.txgs && (s.txgs[s.com[c].t].ccb != [] ==> s.txgs[s.com[c].t].ccb[0] in s.txs)
    ensures CbNext(s, CbAct(s, c), CbStep(s, c)) && Actor(CbAct(s, c)) == Caller(c)
  {
    hide Inv, Drop;
    Calling(s, c);
    var l := s.txgs[s.com[c].t].ccb;
    if l != [] { DropFirst(l); }
  }

  lemma CallNext(s: State, a: Act, s': State)
    requires Inv(s) && CbNext(s, a, s')
    ensures Next(s, a, s') && Inv(s')
  {
    assert !a.Take?;
    CallsKeep(s, a, s');
  }

  lemma CallsKeep(s: State, a: Act, s': State)
    requires Inv(s) && CbNext(s, a, s') && !a.Take?
    ensures Next(s, a, s') && Inv(s')
  {
    hide Inv, AllocNext, DoneNext, ReplyNext, CbNext;
    NextKeepsInv(s, a, s');
  }

  // What is left to do after a step is the rest of what was to do before it.

  lemma AfterTest(s: State, c: nat, s': State)
    requires Inv(s) && c in s.com && s.com[c].CRun? && s.com[c].t in s.txgs
    requires s.txgs[s.com[c].t].ccb != [] && s.txgs[s.com[c].t].ccb[0] in s.txs && Called(CbStep(s, c), c, s')
    ensures Called(s, c, s')
  {
    hide Inv;
    Calling(s, c);
  }

  lemma AfterPark(s: State, c: nat, s': State)
    requires Inv(s) && c in s.com && s.com[c].CMark? && s.com[c].t in s.txgs
    requires s.txgs[s.com[c].t].ccb != [] && s.txgs[s.com[c].t].ccb[0] in s.txs && Called(CbStep(s, c), c, s')
    ensures Called(s, c, s')
  {
    hide Inv, CalledTx;
    Calling(s, c);
    forall x | x in s.txs ensures CalledTx(CbStep(s, c), c, x) == CalledTx(s, c, x) { ParkedTx(s, c, x); }
  }

  lemma ParkedTx(s: State, c: nat, x: nat)
    requires Inv(s) && c in s.com && s.com[c].CMark? && s.com[c].t in s.txgs && x in s.txs
    requires s.txgs[s.com[c].t].ccb != [] && s.txgs[s.com[c].t].ccb[0] in s.txs
    ensures CalledTx(CbStep(s, c), c, x) == CalledTx(s, c, x)
  {
    hide Inv;
    Calling(s, c);
    var l := s.txgs[s.com[c].t].ccb;
    assert l == [l[0]] + l[1..] && l[0] !in l[1..];
  }

  lemma AfterDel(s: State, c: nat, s': State)
    requires Inv(s) && c in s.com && s.com[c].CListed? && s.com[c].t in s.txgs
    requires s.txgs[s.com[c].t].ccb != [] && s.txgs[s.com[c].t].ccb[0] in s.txs && Called(CbStep(s, c), c, s')
    ensures Called(s, c, s')
  {
    hide Inv;
    Calling(s, c);
    var l := s.txgs[s.com[c].t].ccb;
    assert l == [l[0]] + l[1..] && l[0] !in l[1..];
  }

  lemma AfterEnd(s: State, c: nat)
    requires Inv(s) && c in s.com && s.com[c].CRun? && s.com[c].t in s.txgs && s.txgs[s.com[c].t].ccb == []
    ensures Called(s, c, CbStep(s, c))
  {
  }

  lemma {:induction false} CallsFrom(s: State, c: nat) returns (s': State)
    requires Inv(s) && c in s.com && s.com[c] != CIdle
    ensures Manages(Caller(c), s, s') && Called(s, c, s')
    decreases if s.com[c].t in s.txgs then |s.txgs[s.com[c].t].ccb| else 0, if s.com[c].CRun? then 2 else if s.com[c].CMark? then 1 else 0
  {
    hide Inv, Next, Manages, Called, CbAct, CbNext;
    CbStepIs(s, c);
    Calling(s, c);
    var a, m := CbAct(s, c), CbStep(s, c);
    CallNext(s, a, m);
    var l := s.txgs[s.com[c].t].ccb;
    if l == [] {
      s' := m;
      AfterEnd(s, c);
      Rests(Caller(c), m);
    } else {
      s' := CallsFrom(m, c);
      match s.com[c]
      case CMark(_, _) => AfterPark(s, c, s');
      case CListed(_, _) => AfterDel(s, c, s');
      case CRun(_) => AfterTest(s, c, s');
    }
    Acts(Caller(c), s, a, m, s');
  }

  /** In every state of a calm run a commit thread that runs the callbacks of a TXG,
      with any list, finishes by its own steps. */
  lemma CallbacksFinish(ss: seq<State>, acts: seq<Act>, k: nat, c: nat) returns (s': State)
    requires CalmRun(ss, acts) && k < |ss| && c in ss[k].com && ss[k].com[c] != CIdle
    ensures Manages(Caller(c), ss[k], s') && Called(ss[k], c, s')
  {
    hide CalmRun, Called, Manages;
    CalmRunKeepsInv(ss, acts, k);
    s' := CallsFrom(ss[k], c);
  }

  /** A TXG is closed, by any idle commit thread, exactly if nobody has and no
      handler pins it. */
  lemma CloseServed(ss: seq<State>, acts: seq<Act>, k: nat, c: nat, t: nat)
    requires CalmRun(ss, acts) && k < |ss| && c in ss[k].com && ss[k].com[c] == CIdle && t in ss[k].txgs
    ensures var s := ss[k];
            && ((s.txgs[t].closer == None && forall h | h in s.han :: Pin(s.han[h]) != Some(t)) <==> exists s' :: Next(s, Close(c, t), s'))
            && (forall s' | Next(s, Close(c, t), s') ::
                  s' == s.(com := s.com[c := CRun(t)], txgs := s.txgs[t := s.txgs[t].(closer := Some(c))]))
  {
    hide Run, CalmRun, Inv, Pin;
    CalmRunKeepsInv(ss, acts, k);
    PendingCounts(ss[k], t);
    CloseStep(ss[k], c, t);
  }

  lemma PendingCounts(s: State, t: nat)
    requires Inv(s) && t in s.txgs
    ensures s.txgs[t].pending == 0 <==> forall h | h in s.han :: Pin(s.han[h]) != Some(t)
  {
    hide Pin;
    assert TOk(s, t);
    if s.txgs[t].pending == 0 {
      forall h | h in s.han ensures Pin(s.han[h]) != Some(t) { assert h !in Pins(s.han, t); }
    }
    if forall h | h in s.han :: Pin(s.han[h]) != Some(t) { assert Pins(s.han, t) == {}; }
  }

  lemma CloseStep(s: State, c: nat, t: nat)
    requires c in s.com && s.com[c] == CIdle && t in s.txgs
    ensures s.txgs[t].closer == None && s.txgs[t].pending == 0 <==> exists s' :: Next(s, Close(c, t), s')
    ensures forall s' | Next(s, Close(c, t), s') ::
              s' == s.(com := s.com[c := CRun(t)], txgs := s.txgs[t := s.txgs[t].(closer := Some(c))])
  {
    hide Unlist, Drop, Rank;
    if s.txgs[t].closer == None && s.txgs[t].pending == 0 {
      assert Next(s, Close(c, t), SetCom(s, c, CRun(t)).(txgs := s.txgs[t := s.txgs[t].(closer := Some(c))]));
    }
  }
}
