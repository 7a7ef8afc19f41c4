/** Two runs of the TXG protocol that end badly: an assertion that fails and an
    update that no later search sees. */
module TxgRaces {
  import opened Common
  import opened ItbTable
  import opened ItbEdits
  import opened ItbMatch
  import opened ItbNames
  import opened ItbCow
  import opened TxgModel
  import opened TxgPaths

  /** A dirty, reachable, empty ITB. */
  function ItbAt(num: nat, place: Place): ItbRec { ItbRec(num, Dirty, true, place, R0) }

  /** The empty ITB is well-formed. */
  lemma BlankIsFormed()
    ensures Formed(R0)
  {
    var w := Shape([[], []], [0, 0, 0, 0], [0, 0]);
    forall h | 0 <= h < 2 ensures ChainAt(R0, w, h) {}
    assert Shaped(R0, w);
  }

  /** A request inserts a fresh ITB, clean and numbered like its TXG, and dirties it. */
  lemma Create(o: State, s: State, r: nat, i: nat) returns (s': State)
    requires Leads(o, s) && r in s.req && s.req[r].Pinned? && s.req[r].t in s.txgs && i !in s.itbs
    ensures var t := s.req[r].t;
            s' == s.(txgs := s.txgs[t := s.txgs[t].(dirty := s.txgs[t].dirty + [i])],
                     itbs := s.itbs[i := ItbAt(s.txgs[t].num, OnList(t))])
    ensures Leads(o, s')
  {
    hide Leads;
    var t := s.req[r].t;
    BlankIsFormed();
    hide Formed;
    var a := SetItb(s, i, ItbRec(s.txgs[t].num, Clean, true, Nowhere, R0));
    ByReq(o, s, Insert(r, i, s.txgs[t].num, R0), a);
    s' := Touch(a, t, i, R0);
    ByReq(o, a, Access(r, i, R0), s');
    assert s'.itbs == s.itbs[i := ItbAt(s.txgs[t].num, OnList(t))];
  }

  /** A request copies a dirty ITB of the TXG before its own that nobody has locked. */
  lemma Copy(o: State, s: State, r: nat, i: nat, n: nat) returns (s': State)
    requires Leads(o, s) && r in s.req && s.req[r].Pinned? && s.req[r].t in s.txgs && i in s.itbs && n !in s.itbs
    requires s.itbs[i].hashed && s.itbs[i].state == Dirty && s.itbs[i].body == R0
    requires s.txgs[s.req[r].t].num == s.itbs[i].txg + 1
    requires forall q | q in s.req :: !HoldsLock(s.req[q], i)
    ensures s' == s.(itbs := s.itbs[i := s.itbs[i].(state := Cowed, hashed := false)]
                                   [n := ItbAt(s.txgs[s.req[r].t].num, WonBy(r))],
                     req := s.req[r := Won(s.req[r].t, n)])
    ensures Leads(o, s')
  {
    hide Leads, Recopy;
    CopyOfR0();
    var t := s.req[r].t;
    var a := SetReq(s, r, Copying(t, i, R0.h));
    ByCow(o, s, CowBegin(r, i), a);
    s' := SetReq(a.(itbs := a.itbs[i := a.itbs[i].(state := Cowed, hashed := false)][n := ItbAt(s.txgs[t].num, WonBy(r))]),
                 r, Won(t, n));
    ByCow(o, a, CowWin(r, n, [NONE, NONE]), s');
    assert s'.req == s.req[r := Won(t, n)];
  }

  lemma CopyOfR0()
    ensures Recopy(R0, R0.h, [NONE, NONE]) == R0
  {
  }

  // ------------------------------------------------------------- the start

  const Q: map<nat, Req> := map[0 := Idle, 1 := Idle, 2 := Idle, 3 := Idle]

  /** Request 0 has dirtied ITB 0 in TXG 0, and TXG 1 is open. */
  const S1: State := State(map[0 := Txg(0, Wb, 1, [0], None), 1 := Txg(1, Open, 0, [], None)],
                           map[0 := ItbAt(0, OnList(0))], 1, Some(0), 1, Q[0 := Pinned(0)], map[0 := CIdle], SIdle)

  lemma ReachS1()
    ensures Reachable(S1)
  {
    hide Leads, Reachable;
    var a := State(map[0 := Txg(0, Open, 0, [], None)], map[], 0, None, 0, Q, map[0 := CIdle], SIdle);
    Here(a);
    var b := Pin(a, a, 0);
    var c := Create(a, b, 0, 0);
    assert c.txgs[0].dirty == [0];
    var d := Switch(a, c, 1);
    assert d.txgs == S1.txgs && d.itbs == S1.itbs && d.req == S1.req;
    Arrives(a, d);
  }

  // ----------------------------------------------------- a failing assertion

  /** A request of TXG 0 that meets a clean ITB freshly inserted in TXG 1 is
      reassigned, and the assertion that the ITB is dirty then fails. */
  lemma AssertionCanFail()
    ensures exists s: State :: Reachable(s) && 0 in s.req && s.req[0] == Rebound(1, 1, false)
                               && 1 in s.txgs && 1 in s.itbs && !AssertsHold(s, 0)
  {
    hide Leads, Init, Reachable;
    ReachS1();
    var o := Origin(S1);
    BlankIsFormed();
    hide Formed;
    var a := Pin(o, S1, 1);
    var b := SetItb(a, 1, ItbRec(1, Clean, true, Nowhere, R0));
    ByReq(o, a, Insert(1, 1, 1, R0), b);
    var c := SetReq(b, 0, Rebind(0, 1, false));
    ByRebind(o, b, RebindBegin(0, 1), c);
    var d := Reassign(o, c, 0);
    Arrives(o, d);
    assert !AssertsHold(d, 0);
  }

  // --------------------------------------------------------- a lost update

  /** Request 1 has copied ITB 0 to ITB 1 in TXG 1 and not yet listed the copy;
      ITB 2 is dirty in TXG 1, TXG 0 is committed. */
  const S2: State := State(map[0 := Txg(0, Wbing, 0, [], Some(0)), 1 := Txg(1, Open, 2, [2], None)],
                           map[0 := ItbRec(0, Cowed, false, Nowhere, R0), 1 := ItbAt(1, WonBy(1)), 2 := ItbAt(1, OnList(1))],
                           1, None, 1, Q[1 := Won(1, 1)][2 := Pinned(1)], map[0 := CIdle], SIdle)

  /** As S1, with requests 1 and 2 in TXG 1 and ITB 2 created by the latter. */
  const B2: State := State(map[0 := Txg(0, Wb, 0, [0], None), 1 := Txg(1, Open, 2, [2], None)],
                           map[0 := ItbAt(0, OnList(0)), 2 := ItbAt(1, OnList(1))],
                           1, Some(0), 1, Q[1 := Pinned(1)][2 := Pinned(1)], map[0 := CIdle], SIdle)

  lemma ReachB2()
    ensures Reachable(B2)
  {
    hide Leads, Init, Reachable;
    ReachS1();
    var o := Origin(S1);
    var a := SetReq(Pend(S1, 0, -1), 0, Idle);
    ByReq(o, S1, Release(0), a);
    hide ReqNext;
    var b := Pin(o, a, 1);
    var c := Pin(o, b, 2);
    var d := Create(o, c, 2, 2);
    assert d.txgs[1].dirty == [2];
    assert d.txgs == B2.txgs && d.itbs == B2.itbs && d.req == B2.req;
    Arrives(o, d);
  }

  lemma ReachS2()
    ensures Reachable(S2)
  {
    hide Leads, Init, Reachable;
    ReachB2();
    var o := Origin(B2);
    var e := Copy(o, B2, 1, 0, 1);
    hide HoldsLock;
    var f := Commit(o, e, 0, 0, 0);
    assert f.txgs == S2.txgs && f.itbs == S2.itbs && f.req == S2.req;
    Arrives(o, f);
  }

  /** A request of TXG 2 copies ITB 1 to ITB 3 in the window that the winner of
      the first copy leaves between its locks.  The winner then creates file a
      in ITB 1: the file is there, but ITB 1 cannot be reached any more, and
      the ITB that can be does not have it. */
  lemma UpdateCanBeLost()
    ensures exists s: State, s': State ::
      && Reachable(s) && CowNext(s, RefreshAccess(1, R1), s') && Reachable(s')
      && 1 in s'.itbs && !s'.itbs[1].hashed && 3 in s'.itbs && s'.itbs[3].hashed
      && Answer(s'.itbs[1].body, HeadOfName("a"), ByName("a")) == Some(LinkIte(0, 1, "a", 7))
      && Answer(s'.itbs[3].body, HeadOfName("a"), ByName("a")) == None
  {
    hide Leads, Init, Reachable;
    ReachS2();
    var o := Origin(S2);
    AnswersOfR1();
    hide Answer;
    var c := CopiesAgain(o);
    var d, e := LateRefresh(o, c);
    Arrives(o, d);
    Arrives(o, e);
    assert CowNext(d, RefreshAccess(1, R1), e);
  }

  /** TXG 2 opens and request 3 copies ITB 1 to ITB 3. */
  lemma CopiesAgain(o: State) returns (c: State)
    requires Leads(o, S2)
    ensures Leads(o, c) && 1 in c.req && c.req[1] == Won(1, 1) && 1 in c.txgs && c.txgs[1].num == 1
    ensures 1 in c.itbs && c.itbs[1] == ItbRec(1, Cowed, false, WonBy(1), R0) && 3 in c.itbs && c.itbs[3] == ItbAt(2, WonBy(3))
  {
    hide Leads;
    var a := Switch(o, S2, 2);
    var b := Pin(o, a, 3);
    c := Copy(o, b, 3, 1, 3);
  }

  lemma AnswersOfR1()
    ensures Answer(R1, HeadOfName("a"), ByName("a")) == Some(LinkIte(0, 1, "a", 7)) && Answer(R0, HeadOfName("a"), ByName("a")) == None
  {
  }

  lemma CreatesA()
    ensures Adds(R0, R1)
  {
    assert RoundRobin(R0, 0) == 2;
    assert AddsAt(R0, 0, 0, 2, LinkIte(0, 1, "a", 7), R1);
  }

  /** Request 1 lists its copy, which has been copied again, and creates file a in it. */
  lemma LateRefresh(o: State, s: State) returns (d: State, e: State)
    requires Leads(o, s) && 1 in s.req && s.req[1] == Won(1, 1) && 1 in s.txgs && 1 in s.itbs
    requires s.itbs[1].place == WonBy(1) && s.itbs[1].txg == s.txgs[1].num && s.itbs[1].state == Cowed
    requires s.itbs[1].body == R0
    ensures Leads(o, d) && CowNext(d, RefreshAccess(1, R1), e) && Leads(o, e)
    ensures e.itbs == s.itbs[1 := s.itbs[1].(place := OnList(1), state := Dirty, body := R1)]
  {
    hide Leads;
    CreatesA();
    hide Adds;
    d := SetReq(AddItb(s, 1, 1), 1, Refresh(1, 1));
    ByCow(o, s, Relock(1), d);
    e := SetReq(Touch(d, 1, 1, R1), 1, Pinned(1));
    ByCow(o, d, RefreshAccess(1, R1), e);
  }
}
