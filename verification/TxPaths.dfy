/** Stretches of runs of the transactions: from one state to another by steps
    that, if `calm` is asked for, recycle transactions only at rest. */
module TxPaths {
  import opened Common
  import opened TxModel
  import opened TxInvariant
  import opened TxSteps

  ghost predicate Steps(ss: seq<State>, acts: seq<Act>, calm: bool) {
    && |ss| == |acts| + 1
    && forall k | 0 <= k < |acts| :: Next(ss[k], acts[k], ss[k + 1]) && (calm ==> Calm(ss[k], acts[k]))
  }

  /** Some steps lead from o to s. */
  ghost predicate Leads(o: State, s: State, calm: bool) {
    exists ss: seq<State>, acts: seq<Act> :: Steps(ss, acts, calm) && ss[0] == o && ss[|ss| - 1] == s
  }

  ghost predicate Reachable(s: State, calm: bool) { exists o: State :: Init(o) && Leads(o, s, calm) }

  lemma Here(s: State, calm: bool)
    ensures Leads(s, s, calm)
  {
    assert Steps([s], [], calm);
  }

  lemma Reach(o: State, s: State, a: Act, s': State, calm: bool)
    requires Leads(o, s, calm) && Next(s, a, s') && (calm ==> Calm(s, a))
    ensures Leads(o, s', calm)
  {
    hide Next, Calm;
    var ss: seq<State>, acts: seq<Act> :| Steps(ss, acts, calm) && ss[0] == o && ss[|ss| - 1] == s;
    var ss', acts' := ss + [s'], acts + [a];
    forall k | 0 <= k < |acts'| ensures Next(ss'[k], acts'[k], ss'[k + 1]) && (calm ==> Calm(ss'[k], acts'[k])) {}
    assert Steps(ss', acts', calm);
  }

  lemma Onward(o: State, s: State, z: State, calm: bool)
    requires Leads(o, s, calm) && Leads(s, z, calm)
    ensures Leads(o, z, calm)
  {
    hide Next, Calm;
    var ss: seq<State>, acts: seq<Act> :| Steps(ss, acts, calm) && ss[0] == o && ss[|ss| - 1] == s;
    var us: seq<State>, bcts: seq<Act> :| Steps(us, bcts, calm) && us[0] == s && us[|us| - 1] == z;
    var ts, cs := ss + us[1..], acts + bcts;
    forall k | 0 <= k < |cs| ensures Next(ts[k], cs[k], ts[k + 1]) && (calm ==> Calm(ts[k], cs[k])) {
      if k >= |acts| {
        assert ts[k] == us[k - |acts|] && ts[k + 1] == us[k - |acts| + 1];
      }
    }
    assert Steps(ts, cs, calm);
  }

  /** Calm steps keep the invariant. */
  lemma LeadsKeepsInv(o: State, s: State)
    requires Inv(o) && Leads(o, s, true)
    ensures Inv(s)
  {
    hide Inv, Next, Calm;
    var ss: seq<State>, acts: seq<Act> :| Steps(ss, acts, true) && ss[0] == o && ss[|ss| - 1] == s;
    StepsKeepInv(ss, acts, |ss| - 1);
  }

  lemma {:induction false} StepsKeepInv(ss: seq<State>, acts: seq<Act>, k: nat)
    requires Steps(ss, acts, true) && Inv(ss[0]) && k < |ss|
    ensures Inv(ss[k])
  {
    hide Inv, Next, Calm;
    if k > 0 {
      StepsKeepInv(ss, acts, k - 1);
      assert Next(ss[k - 1], acts[k - 1], ss[k]) && Calm(ss[k - 1], acts[k - 1]);
      NextKeepsInv(ss[k - 1], acts[k - 1], ss[k]);
    }
  }

  lemma ByTake(o: State, s: State, h: nat, s': State, calm: bool)
    requires Leads(o, s, calm) && AllocNext(s, Take(h), s') && (calm ==> Calm(s, Take(h)))
    ensures Leads(o, s', calm)
  {
    hide Leads, AllocNext, DoneNext, ReplyNext, CbNext, Calm;
    Reach(o, s, Take(h), s', calm);
  }

  lemma ByAlloc(o: State, s: State, a: Act, s': State, calm: bool)
    requires Leads(o, s, calm) && AllocNext(s, a, s') && !a.Take?
    ensures Leads(o, s', calm)
  {
    hide Leads, AllocNext, DoneNext, ReplyNext, CbNext;
    Reach(o, s, a, s', calm);
  }

  lemma ByDone(o: State, s: State, a: Act, s': State, calm: bool)
    requires Leads(o, s, calm) && DoneNext(s, a, s')
    ensures Leads(o, s', calm)
  {
    hide Leads, AllocNext, ReplyNext, CbNext;
    assert !a.Take?;
    hide DoneNext;
    Reach(o, s, a, s', calm);
  }

  lemma ByReply(o: State, s: State, a: Act, s': State, calm: bool)
    requires Leads(o, s, calm) && ReplyNext(s, a, s')
    ensures Leads(o, s', calm)
  {
    hide Leads, AllocNext, DoneNext, CbNext;
    assert !a.Take?;
    hide ReplyNext;
    Reach(o, s, a, s', calm);
  }

  lemma ByCb(o: State, s: State, a: Act, s': State, calm: bool)
    requires Leads(o, s, calm) && CbNext(s, a, s')
    ensures Leads(o, s', calm)
  {
    hide Leads, AllocNext, DoneNext, ReplyNext;
    assert !a.Take?;
    hide CbNext;
    Reach(o, s, a, s', calm);
  }

  // ------------------------------------------------- moves of one handler

  /** A new TXG is opened and the handler starts its transaction in it. */
  lemma Begin(o: State, s: State, h: nat, op: Op, t: nat, calm: bool) returns (s': State)
    requires Leads(o, s, calm) && h in s.han && s.han[h].Popped? && s.han[h].x in s.txs && t !in s.txgs
    ensures var x := s.han[h].x;
            s' == s.(han := s.han[h := Pinned(x, t)], txs := s.txs[x := Tx(op, Processing, t, 0, Some(h))],
                     txgs := s.txgs[t := Txg(1, [], None)])
    ensures Leads(o, s', calm)
  {
    hide Leads;
    var x := s.han[h].x;
    var a := s.(txgs := s.txgs[t := Txg(0, [], None)]);
    ByAlloc(o, s, NewTxg(t), a, calm);
    s' := SetHan(a, h, Pinned(x, t)).(txs := s.txs[x := Tx(op, Processing, t, 0, Some(h))],
                                      txgs := a.txgs[t := a.txgs[t].(pending := 1)]);
    ByAlloc(o, a, Start(h, op, t), s', calm);
    assert s'.txgs == s.txgs[t := Txg(1, [], None)];
  }

  /** A transaction for commit is listed with its TXG, of which it is the only one. */
  lemma Listing(o: State, s: State, h: nat, calm: bool) returns (s': State)
    requires Leads(o, s, calm) && h in s.han && s.han[h].Pinned? && s.han[h].x in s.txs
    requires var b := s.txs[s.han[h].x]; b.op == Normal && b.txg in s.txgs && s.txgs[b.txg].ccb == []
    ensures var x, t := s.han[h].x, s.txs[s.han[h].x].txg;
            s' == s.(han := s.han[h := Working(x, s.han[h].t)], txgs := s.txgs[t := s.txgs[t].(ccb := [x])])
    ensures Leads(o, s', calm)
  {
    hide Leads;
    var x, t := s.han[h].x, s.txs[s.han[h].x].txg;
    assert [] + [x] == [x];
    s' := SetHan(s.(txgs := s.txgs[t := s.txgs[t].(ccb := [x])]), h, Working(x, s.han[h].t));
    ByAlloc(o, s, Fix(h), s', calm);
  }

  /** mds_tx_done of a transaction that is being processed and not to be forgotten. */
  lemma Finish(o: State, s: State, h: nat, calm: bool) returns (s': State)
    requires Leads(o, s, calm) && h in s.han && s.han[h].Working? && s.han[h].x in s.txs
    requires var b := s.txs[s.han[h].x]; b.op != Forget && b.state == Processing && b.txg in s.txgs
    ensures var x, t := s.han[h].x, s.txs[s.han[h].x].txg;
            s' == s.(han := s.han[h := Put(x)], txs := s.txs[x := s.txs[x].(state := Done)],
                     txgs := s.txgs[t := s.txgs[t].(pending := s.txgs[t].pending - 1)])
    ensures Leads(o, s', calm)
  {
    hide Leads;
    var x, t := s.han[h].x, s.txs[s.han[h].x].txg;
    var a := SetHan(SetState(s, x, Done), h, Marked(x, s.han[h].t));
    ByDone(o, s, DoneMark(h), a, calm);
    var b := SetHan(a, h, Parked(x, s.han[h].t));
    ByDone(o, a, DonePark(h), b, calm);
    s' := SetHan(b, h, Put(x)).(txgs := s.txgs[t := s.txgs[t].(pending := s.txgs[t].pending - 1)]);
    ByDone(o, b, DonePut(h), s', calm);
    assert s'.han == s.han[h := Put(x)];
  }

  /** mds_tx_reply tests a transaction that is not acknowledged yet. */
  lemma Test(o: State, s: State, h: nat, calm: bool) returns (s': State)
    requires Leads(o, s, calm) && h in s.han && s.han[h].Put? && s.han[h].x in s.txs
    requires Rank(s.txs[s.han[h].x].state) <= Rank(Done)
    ensures s' == SetHan(s, h, Acking(s.han[h].x)) && Leads(o, s', calm)
  {
    hide Leads;
    s' := SetHan(s, h, Acking(s.han[h].x));
    ByReply(o, s, ReplyTest(h), s', calm);
  }

  /** mds_tx_reply stores, and is done with a transaction that is committed or forgotten. */
  lemma Store(o: State, s: State, h: nat, calm: bool) returns (s': State)
    requires Leads(o, s, calm) && h in s.han && s.han[h].Acking? && s.han[h].x in s.txs
    requires s.txs[s.han[h].x].op != NoCommit
    ensures var x := s.han[h].x;
            s' == s.(han := s.han[h := Idle], txs := s.txs[x := s.txs[x].(state := Acked, holder := None)])
    ensures Leads(o, s', calm)
  {
    hide Leads;
    var x := s.han[h].x;
    s' := LetGo(SetState(s, x, Acked), h, x);
    ByReply(o, s, ReplyStore(h), s', calm);
    assert s'.txs == s.txs[x := s.txs[x].(state := Acked, holder := None)];
  }
}
