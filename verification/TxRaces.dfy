/** Runs of the transactions that end badly: a reply that overwrites COMMITED,
    and what happens to a transaction that was recycled while still in use. */
module TxRaces {
  import opened Common
  import opened TxModel
  import opened TxInvariant
  import opened TxPaths
  import opened TxRecycle

  lemma Relax(o: State, s: State)
    requires Leads(o, s, true)
    ensures Leads(o, s, false)
  {
    hide Next, Calm;
    var ss: seq<State>, acts: seq<Act> :| Steps(ss, acts, true) && ss[0] == o && ss[|ss| - 1] == s;
    assert Steps(ss, acts, false);
  }

  lemma Then(o: State, s: State, z: State)
    requires Leads(o, s, false) && Leads(s, z, true)
    ensures Leads(o, z, false)
  {
    hide Leads;
    Relax(s, z);
    Onward(o, s, z, false);
  }

  function NormalTx(state: TxState, txg: nat, joins: nat, holder: Option<nat>): Tx {
    Tx(Normal, state, txg, joins, holder)
  }

  /** Transaction 0 is on the LRU list, and nothing has begun. */
  const P0: State := State(map[0 := Tx(Forget, Committed, 0, 1, None)], [0], 1, 1, map[],
                           map[0 := Idle, 1 := Idle], map[0 := CIdle])

  /** Handler 0 has processed it in TXG 0, put the TXG, and seen it DONE in mds_tx_reply. */
  const P2: State := State(map[0 := NormalTx(Done, 0, 0, Some(0))], [], 0, 1, map[0 := Txg(0, [0], None)],
                           map[0 := Acking(0), 1 := Idle], map[0 := CIdle])

  /** TXG 0 is committed; its callback has put the transaction on the LRU list. */
  const P3: State := State(map[0 := NormalTx(Committed, 0, 1, Some(0))], [0], 1, 1, map[0 := Txg(0, [], Some(0))],
                           map[0 := Acking(0), 1 := Idle], map[0 := CIdle])

  /** A handler takes transaction 0, alone on the LRU list. */
  lemma Popping(o: State, s: State, h: nat, calm: bool) returns (s': State)
    requires Leads(o, s, calm) && h in s.han && s.han[h] == Idle && s.lru == [0] && s.ftx == 1 && 0 in s.txs
    requires calm ==> Rested(s, 0)
    ensures s' == SetHan(s, h, Popped(0)).(lru := [], ftx := 0, txs := s.txs[0 := s.txs[0].(holder := Some(h))])
    ensures AllocNext(s, Take(h), s') && Leads(o, s', calm)
  {
    hide Leads;
    assert s.lru[1..] == [];
    s' := SetHan(s, h, Popped(0)).(lru := [], ftx := 0, txs := s.txs[0 := s.txs[0].(holder := Some(h))]);
    ByTake(o, s, h, s', calm);
  }

  /** A transaction that is not for commit gets to work. */
  lemma Unlisted(o: State, s: State, h: nat, calm: bool) returns (s': State)
    requires Leads(o, s, calm) && h in s.han && s.han[h].Pinned? && s.han[h].x in s.txs
    requires s.txs[s.han[h].x].op != Normal && s.txs[s.han[h].x].txg in s.txgs
    ensures s' == SetHan(s, h, Working(s.han[h].x, s.han[h].t)) && Leads(o, s', calm)
  {
    hide Leads;
    s' := SetHan(s, h, Working(s.han[h].x, s.han[h].t));
    ByAlloc(o, s, Fix(h), s', calm);
  }

  lemma ToP2()
    ensures Leads(P0, P2, true)
  {
    hide Leads;
    Here(P0, true);
    var a := Popping(P0, P0, 0, true);
    var b := Begin(P0, a, 0, Normal, 0, true);
    var c := Listing(P0, b, 0, true);
    var d := Finish(P0, c, 0, true);
    var e := Test(P0, d, 0, true);
    assert e.txs == P2.txs && e.txgs == P2.txgs && e.han == P2.han;
  }

  lemma Marking(o: State, s: State) returns (s': State)
    requires Leads(o, s, true) && s.com == map[0 := CIdle] && 0 in s.txgs && s.txgs[0] == Txg(0, [0], None) && 0 in s.txs
    requires Rank(Done) <= Rank(s.txs[0].state) <= Rank(Acked)
    ensures s' == s.(txs := s.txs[0 := s.txs[0].(state := Committed)], txgs := s.txgs[0 := Txg(0, [0], Some(0))],
                     com := map[0 := CMark(0, 0)])
    ensures Leads(o, s', true)
  {
    hide Leads;
    var a := SetCom(s, 0, CRun(0)).(txgs := s.txgs[0 := Txg(0, [0], Some(0))]);
    ByCb(o, s, Close(0, 0), a, true);
    s' := SetCom(SetState(a, 0, Committed), 0, CMark(0, 0));
    ByCb(o, a, CbTest(0), s', true);
    assert s'.com == map[0 := CMark(0, 0)];
  }

  /** The callback of transaction 0, the only one of TXG 0, up to the LRU list. */
  lemma Calling(o: State, s: State) returns (s': State)
    requires Leads(o, s, true) && s.com == map[0 := CIdle] && 0 in s.txgs && s.txgs[0] == Txg(0, [0], None) && 0 in s.txs
    requires s.txs[0].op == Normal && Rank(Done) <= Rank(s.txs[0].state) <= Rank(Acked) && s.lru == []
    ensures s' == s.(txs := s.txs[0 := s.txs[0].(state := Committed, joins := s.txs[0].joins + 1)], lru := [0], ftx := s.ftx + 1,
                     txgs := s.txgs[0 := Txg(0, [0], Some(0))], com := map[0 := CListed(0, 0)])
    ensures Leads(o, s', true)
  {
    hide Leads;
    var b := Marking(o, s);
    s' := SetCom(Join(b, 0), 0, CListed(0, 0));
    ByCb(o, b, CbPark(0), s', true);
    assert [] + [0] == [0];
    assert s'.com == map[0 := CListed(0, 0)];
    assert s'.txs == s.txs[0 := s.txs[0].(state := Committed, joins := s.txs[0].joins + 1)];
  }

  lemma ToP3()
    ensures Leads(P0, P3, true)
  {
    ToP2();
    hide Leads;
    var c := Calling(P0, P2);
    assert Drop([0], 0) == [];
    var d := SetCom(c, 0, CRun(0)).(txgs := c.txgs[0 := Txg(0, [], Some(0))]);
    ByCb(P0, c, CbDel(0), d, true);
    var e := SetCom(d, 0, CIdle);
    ByCb(P0, d, CbEnd(0), e, true);
    assert e.txs == P3.txs && e.txgs == P3.txgs && e.com == P3.com;
  }

  /** In a calm run a transaction that is COMMITED becomes ACKED within its life. */
  lemma CommittedBecomesAcked()
    ensures exists s: State, s': State ::
              && Reachable(s, true) && Calm(s, ReplyStore(0)) && ReplyNext(s, ReplyStore(0), s') && Reachable(s', true)
              && 0 in s.txs && s.txs[0].state == Committed && 0 in s'.txs && s'.txs[0].state == Acked
              && s'.txs[0].txg == s.txs[0].txg && s'.txs[0].joins == s.txs[0].joins == 1
  {
    ToP3();
    hide Leads;
    var s' := Store(P0, P3, 0, true);
    assert s' == LetGo(SetState(P3, 0, Acked), 0, 0);
    assert ReplyNext(P3, ReplyStore(0), s');
    assert Reachable(P3, true) && Reachable(s', true);
  }

  // --------------------------------------------- recycled while still in use

  /** Recycled while its old handler was between the test and the store of
      mds_tx_reply, a transaction keeps its TXG pending for ever: the counter is
      one and no handler pins the TXG. */
  lemma EarlyRecyclingStallsCommit()
    ensures exists s: State :: Reachable(s, false) && 1 in s.txgs && s.txgs[1].pending == 1
                               && forall h | h in s.han :: Pin(s.han[h]) == None
  {
    ToP3();
    hide Leads;
    Relax(P0, P3);
    var a := Popping(P0, P3, 1, false);
    Here(a, true);
    assert Pins(a.han, 1) == {};
    var z := PutBackFails(a, a, 1, 0, 1, 0);
    Then(P0, a, z);
    assert Reachable(z, false);
  }

  /** Both handlers of a transaction have passed the test of mds_tx_reply. */
  const J: State := State(map[0 := Tx(NoCommit, Done, 1, 0, Some(1))], [], 0, 1,
                          map[0 := Txg(0, [], Some(0)), 1 := Txg(0, [], None)],
                          map[0 := Acking(0), 1 := Acking(0)], map[0 := CIdle])

  lemma ToJ()
    ensures Leads(P0, J, false)
  {
    ToP3();
    hide Leads;
    Relax(P0, P3);
    var a := Popping(P0, P3, 1, false);
    var b := Begin(P0, a, 1, NoCommit, 1, false);
    var c := Unlisted(P0, b, 1, false);
    var d := Finish(P0, c, 1, false);
    var e := Test(P0, d, 1, false);
    assert e.txs == J.txs && e.txgs == J.txgs && e.han == J.han;
  }

  /** Recycled so for a request without commit, a transaction is put on the LRU
      list by both of its handlers, and is on it twice. */
  lemma JoinsTwice()
    ensures exists s: State :: Reachable(s, false) && s.lru == [0, 0] && 0 in s.txs && s.txs[0].joins == 2
  {
    hide Leads;
    ToJ();
    var a := SetHan(SetState(J, 0, Acked), 0, ToLru(0));
    ByReply(P0, J, ReplyStore(0), a, false);
    var b := SetHan(SetState(a, 0, Acked), 1, ToLru(0));
    ByReply(P0, a, ReplyStore(1), b, false);
    var c := ParkingAfterReply(P0, b, 0);
    var d := ParkingAfterReply(P0, c, 1);
    assert d.lru == [0, 0];
    assert Reachable(d, false);
  }

  lemma ParkingAfterReply(o: State, s: State, h: nat) returns (s': State)
    requires Leads(o, s, false) && h in s.han && s.han[h] == ToLru(0) && 0 in s.txs
    ensures s' == s.(lru := s.lru + [0], ftx := s.ftx + 1, han := s.han[h := Idle],
                     txs := s.txs[0 := s.txs[0].(joins := s.txs[0].joins + 1, holder := None)])
    ensures Leads(o, s', false)
  {
    hide Leads;
    s' := LetGo(Join(s, 0), h, 0);
    ByReply(o, s, ReplyPark(h), s', false);
    assert s'.txs == s.txs[0 := s.txs[0].(joins := s.txs[0].joins + 1, holder := None)];
  }

  /** Handler 0 has parked transaction 0, which nobody waits for, and still holds TXG 0. */
  const F: State := State(map[0 := Tx(Forget, Done, 0, 1, Some(0))], [0], 1, 1, map[0 := Txg(1, [], None)],
                          map[0 := Parked(0, 0), 1 := Idle], map[0 := CIdle])

  /** mds_tx_done of a transaction to be forgotten, up to the LRU list. */
  lemma Parking(o: State, s: State, h: nat) returns (s': State)
    requires Leads(o, s, true) && h in s.han && s.han[h].Working? && s.han[h].x in s.txs
    requires s.txs[s.han[h].x].op == Forget && s.txs[s.han[h].x].state == Processing
    ensures var x := s.han[h].x; var b := s.txs[s.han[h].x];
            s' == s.(han := s.han[h := Parked(x, s.han[h].t)], txs := s.txs[x := b.(state := Done, joins := b.joins + 1)],
                     lru := s.lru + [x], ftx := s.ftx + 1)
    ensures Leads(o, s', true)
  {
    hide Leads;
    var x := s.han[h].x;
    var d := SetHan(SetState(s, x, Done), h, Marked(x, s.han[h].t));
    ByDone(o, s, DoneMark(h), d, true);
    s' := SetHan(Join(d, x), h, Parked(x, s.han[h].t));
    ByDone(o, d, DonePark(h), s', true);
    assert s'.txs == s.txs[x := s.txs[x].(state := Done, joins := s.txs[x].joins + 1)];
    assert s'.han == s.han[h := Parked(x, s.han[h].t)];
  }

  lemma ToF()
    ensures Leads(P0, F, true)
  {
    hide Leads;
    Here(P0, true);
    var a := Popping(P0, P0, 0, true);
    var b := Begin(P0, a, 0, Forget, 0, true);
    var c := Unlisted(P0, b, 0, true);
    var e := Parking(P0, c, 0);
    assert [] + [0] == [0];
    assert e.txs == F.txs && e.txgs == F.txgs && e.han == F.han && e.lru == F.lru;
  }

  /** Recycled then, a transaction has its new TXG put by its old handler, and the
      callbacks of that TXG run while it is still being processed. */
  lemma CallbackComesTooEarly()
    ensures exists s: State :: Reachable(s, false) && 1 in s.txgs && s.txgs[1].closer.Some? && 0 in s.txgs[1].ccb
                               && 0 in s.txs && s.txs[0].state == Processing && 1 in s.han && Pin(s.han[1]) == Some(1)
  {
    ToF();
    hide Leads;
    Relax(P0, F);
    var a := Popping(P0, F, 1, false);
    Here(a, true);
    assert Pins(a.han, 1) == {};
    var z := ParkedFails(a, a, 1, 0, 1, 0);
    Then(P0, a, z);
    var e := SetCom(z, 0, CRun(1)).(txgs := z.txgs[1 := z.txgs[1].(closer := Some(0))]);
    ByCb(P0, z, Close(0, 1), e, false);
    assert Reachable(e, false);
  }

  /** The reply is done, and the callback has put the transaction on the LRU list
      but not yet unlisted it. */
  const L: State := State(map[0 := NormalTx(Committed, 0, 1, None)], [0], 1, 1, map[0 := Txg(0, [0], Some(0))],
                          map[0 := Idle, 1 := Idle], map[0 := CListed(0, 0)])

  lemma ToL()
    ensures Leads(P0, L, true)
  {
    ToP2();
    hide Leads;
    var a := Store(P0, P2, 0, true);
    var b := Calling(P0, a);
    assert b.txs == L.txs && b.txgs == L.txgs && b.han == L.han;
  }

  /** Recycled then, a transaction is taken off the callback list of its new TXG
      and lost: no handler has it, it is not free, and no callback will come. */
  lemma TransactionIsLost()
    ensures exists s: State :: Reachable(s, false) && 0 in s.txs && s.txs[0].op == Normal && !Accounted(s, 0)
  {
    ToL();
    hide Leads;
    Relax(P0, L);
    var a := Popping(P0, L, 1, false);
    Here(a, true);
    assert Pins(a.han, 1) == {};
    var z := ListedFails(a, a, 1, 0, 1, 0);
    Then(P0, a, z);
    assert !Accounted(z, 0);
    assert Reachable(z, false);
  }
}
