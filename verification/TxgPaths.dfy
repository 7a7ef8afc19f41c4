/** Stretches of runs of the TXG protocol: from one state to another by steps of
    any kind, and the longer moves that the runs of interest are made of. */
module TxgPaths {
  import opened Common
  import opened ItbTable
  import opened ItbEdits
  import opened ItbCow
  import opened TxgModel

  ghost predicate Steps(ss: seq<State>, acts: seq<Act>) {
    |ss| == |acts| + 1 && forall k | 0 <= k < |acts| :: Next(ss[k], acts[k], ss[k + 1])
  }

  /** Some steps lead from o to s. */
  ghost predicate Leads(o: State, s: State) {
    exists ss: seq<State>, acts: seq<Act> :: Steps(ss, acts) && ss[0] == o && ss[|ss| - 1] == s
  }

  ghost predicate Reachable(s: State) {
    exists ss: seq<State>, acts: seq<Act> :: Run(ss, acts) && ss[|ss| - 1] == s
  }

  lemma Here(s: State)
    ensures Leads(s, s)
  {
    assert Steps([s], []);
  }

  lemma Reach(o: State, s: State, a: Act, s': State)
    requires Leads(o, s) && Next(s, a, s')
    ensures Leads(o, s')
  {
    hide Next;
    var ss: seq<State>, acts: seq<Act> :| Steps(ss, acts) && ss[0] == o && ss[|ss| - 1] == s;
    var ss', acts' := ss + [s'], acts + [a];
    forall k | 0 <= k < |acts'| ensures Next(ss'[k], acts'[k], ss'[k + 1]) {}
    assert Steps(ss', acts');
  }

  /** What an initial state leads to is reachable, and conversely. */
  lemma Arrives(o: State, s: State)
    requires Init(o) && Leads(o, s)
    ensures Reachable(s)
  {
    hide Next, Init;
    var ss: seq<State>, acts: seq<Act> :| Steps(ss, acts) && ss[0] == o && ss[|ss| - 1] == s;
    assert Run(ss, acts);
  }

  lemma Origin(s: State) returns (o: State)
    requires Reachable(s)
    ensures Init(o) && Leads(o, s)
  {
    hide Next, Init;
    var ss: seq<State>, acts: seq<Act> :| Run(ss, acts) && ss[|ss| - 1] == s;
    o := ss[0];
    assert Steps(ss, acts);
  }

  lemma ByReq(o: State, s: State, a: Act, s': State)
    requires Leads(o, s) && ReqNext(s, a, s')
    ensures Leads(o, s')
  {
    hide Leads, ReqNext, CowNext, RebindNext, SwNext, ComNext;
    Reach(o, s, a, s');
  }

  lemma ByCow(o: State, s: State, a: Act, s': State)
    requires Leads(o, s) && CowNext(s, a, s')
    ensures Leads(o, s')
  {
    hide Leads, ReqNext, CowNext, RebindNext, SwNext, ComNext;
    Reach(o, s, a, s');
  }

  lemma ByRebind(o: State, s: State, a: Act, s': State)
    requires Leads(o, s) && RebindNext(s, a, s')
    ensures Leads(o, s')
  {
    hide Leads, ReqNext, CowNext, RebindNext, SwNext, ComNext;
    Reach(o, s, a, s');
  }

  lemma BySw(o: State, s: State, a: Act, s': State)
    requires Leads(o, s) && SwNext(s, a, s')
    ensures Leads(o, s')
  {
    hide Leads, ReqNext, CowNext, RebindNext, SwNext, ComNext;
    Reach(o, s, a, s');
  }

  lemma ByCom(o: State, s: State, a: Act, s': State)
    requires Leads(o, s) && ComNext(s, a, s')
    ensures Leads(o, s')
  {
    hide Leads, ReqNext, CowNext, RebindNext, SwNext, ComNext;
    Reach(o, s, a, s');
  }

  // ------------------------------------------------- runs that go as planned

  /** An idle request pins the open TXG. */
  lemma Pin(o: State, s: State, r: nat) returns (s': State)
    requires Leads(o, s) && r in s.req && s.req[r] == Idle && s.open in s.txgs && s.txgs[s.open].state == Open
    ensures s' == SetReq(Pend(s, s.open, 1), r, Pinned(s.open)) && Leads(o, s')
  {
    hide Leads;
    var a := SetReq(s, r, GotPtr(s.open));
    ByReq(o, s, Read(r), a);
    var b := SetReq(Pend(a, s.open, 1), r, Raised(s.open));
    ByReq(o, a, Raise(r), b);
    s' := SetReq(b, r, Pinned(s.open));
    ByReq(o, b, Check(r), s');
    assert s'.req == s.req[r := Pinned(s.open)];
  }

  lemma SwitchBegins(o: State, s: State, nt: nat) returns (s': State)
    requires Leads(o, s) && s.sw == SIdle && s.wb == None && s.open in s.txgs && nt !in s.txgs
    requires s.txgs[s.open].dirty != []
    ensures s' == s.(txgs := s.txgs[nt := Txg(s.mi + 1, Open, 0, [], None)]
                                   [s.open := s.txgs[s.open].(pending := s.txgs[s.open].pending + 1)],
                     mi := s.mi + 1, sw := SHeld(nt))
    ensures Leads(o, s')
  {
    hide Leads;
    var a := s.(mi := s.mi + 1, sw := SInc);
    BySw(o, s, SwStart, a);
    var b := a.(txgs := a.txgs[nt := Txg(a.mi, Open, 0, [], None)], sw := SNum(nt));
    BySw(o, a, SwNum(nt), b);
    s' := Pend(b, s.open, 1).(sw := SHeld(nt));
    BySw(o, b, SwGet, s');
  }

  lemma SwitchDemotes(o: State, s: State) returns (s': State)
    requires Leads(o, s) && s.sw.SHeld? && s.open in s.txgs
    ensures s' == s.(txgs := s.txgs[s.open := s.txgs[s.open].(state := Wb)], wb := Some(s.open), sw := SState(s.sw.nt))
    ensures Leads(o, s')
  {
    hide Leads;
    var a := s.(wb := Some(s.open), sw := SWb(s.sw.nt));
    BySw(o, s, SwWb, a);
    s' := a.(txgs := a.txgs[s.open := a.txgs[s.open].(state := Wb)], sw := SState(s.sw.nt));
    BySw(o, a, SwState, s');
  }

  lemma SwitchEnds(o: State, s: State) returns (s': State)
    requires Leads(o, s) && s.sw.SState? && s.open in s.txgs
    ensures s' == Pend(s, s.open, -1).(open := s.sw.nt, sw := SIdle)
    ensures Leads(o, s')
  {
    hide Leads;
    var a := Pend(s, s.open, -1).(sw := SPut(s.sw.nt));
    BySw(o, s, SwPut, a);
    s' := a.(open := s.sw.nt, sw := SIdle);
    BySw(o, a, SwOpen, s');
  }

  /** The switcher opens a new TXG. */
  lemma Switch(o: State, s: State, nt: nat) returns (s': State)
    requires Leads(o, s) && s.sw == SIdle && s.wb == None && s.open in s.txgs && nt !in s.txgs
    requires s.txgs[s.open].dirty != []
    ensures s' == s.(txgs := s.txgs[s.open := s.txgs[s.open].(state := Wb)][nt := Txg(s.mi + 1, Open, 0, [], None)],
                     open := nt, wb := Some(s.open), mi := s.mi + 1)
    ensures Leads(o, s')
  {
    hide Leads;
    var a := SwitchBegins(o, s, nt);
    var b := SwitchDemotes(o, a);
    s' := SwitchEnds(o, b);
    assert s'.txgs == s.txgs[s.open := s.txgs[s.open].(state := Wb)][nt := Txg(s.mi + 1, Open, 0, [], None)];
  }

  lemma CommitDrains(o: State, s: State, c: nat, t: nat) returns (s': State)
    requires Leads(o, s) && c in s.com && s.com[c] == CIdle && s.wb == Some(t) && t in s.txgs
    requires s.txgs[t].state == Wb && s.txgs[t].pending == 0
    ensures s' == s.(txgs := s.txgs[t := s.txgs[t].(state := Wbing, writer := Some(c))], com := s.com[c := CWrite(t)])
    ensures Leads(o, s')
  {
    hide Leads;
    var x := SetCom(s, c, CGot(t));
    ByCom(o, s, CRead(c), x);
    var y := SetCom(x.(txgs := x.txgs[t := x.txgs[t].(state := Wbing, writer := Some(c))]), c, CWait(t));
    ByCom(o, x, CTest(c), y);
    s' := SetCom(y, c, CWrite(t));
    ByCom(o, y, CDrain(c), s');
    assert s'.com == s.com[c := CWrite(t)];
  }

  lemma CommitTakes(o: State, s: State, c: nat, t: nat, i: nat) returns (s': State)
    requires Leads(o, s) && c in s.com && s.com[c] == CWrite(t) && t in s.txgs && s.txgs[t].dirty == [i]
    requires i in s.itbs
    ensures s' == s.(txgs := s.txgs[t := s.txgs[t].(dirty := [])], itbs := s.itbs[i := s.itbs[i].(place := InHand(c))],
                     com := s.com[c := CHand(t, i)])
    ensures Leads(o, s')
  {
    hide Leads;
    assert s.txgs[t].dirty[1..] == [];
    s' := SetCom(s.(txgs := s.txgs[t := s.txgs[t].(dirty := [])], itbs := s.itbs[i := s.itbs[i].(place := InHand(c))]),
                 c, CHand(t, i));
    ByCom(o, s, CTake(c), s');
  }

  lemma CommitSettles(o: State, s: State, c: nat, t: nat, i: nat) returns (s': State)
    requires Leads(o, s) && c in s.com && s.com[c] == CWrite(t) && t in s.txgs && s.txgs[t].dirty == [i]
    requires i in s.itbs && s.itbs[i].state == Cowed
    ensures s' == s.(txgs := s.txgs[t := s.txgs[t].(dirty := [])], itbs := s.itbs[i := s.itbs[i].(place := Nowhere)],
                     com := s.com[c := CIdle], wb := None)
    ensures Leads(o, s')
  {
    hide Leads;
    var u := CommitTakes(o, s, c, t, i);
    var v := SetCom(SetItb(u, i, u.itbs[i].(place := Nowhere)), c, CWrite(t));
    ByCom(o, u, CSettle(c), v);
    s' := SetCom(v.(wb := None), c, CIdle);
    ByCom(o, v, CFinish(c), s');
    assert s'.com == s.com[c := CIdle] && s'.itbs == s.itbs[i := s.itbs[i].(place := Nowhere)];
  }

  /** A commit thread writes back a drained TXG whose only dirty ITB was COWED. */
  lemma Commit(o: State, s: State, c: nat, t: nat, i: nat) returns (s': State)
    requires Leads(o, s) && c in s.com && s.com[c] == CIdle && s.wb == Some(t) && t in s.txgs
    requires s.txgs[t].state == Wb && s.txgs[t].pending == 0 && s.txgs[t].dirty == [i]
    requires i in s.itbs && s.itbs[i].state == Cowed
    ensures s' == s.(txgs := s.txgs[t := Txg(s.txgs[t].num, Wbing, 0, [], Some(c))],
                     itbs := s.itbs[i := s.itbs[i].(place := Nowhere)], wb := None)
    ensures Leads(o, s')
  {
    hide Leads;
    var a := CommitDrains(o, s, c, t);
    s' := CommitSettles(o, a, c, t, i);
    assert s'.com == s.com;
    assert s'.txgs == s.txgs[t := Txg(s.txgs[t].num, Wbing, 0, [], Some(c))];
  }

  /** A request edits a dirty ITB of its own TXG. */
  lemma Rewrite(o: State, s: State, r: nat, i: nat, body: Tab) returns (s': State)
    requires Leads(o, s) && r in s.req && s.req[r].Pinned? && s.req[r].t in s.txgs && i in s.itbs
    requires s.itbs[i].hashed && s.itbs[i].state == Dirty && s.itbs[i].txg == s.txgs[s.req[r].t].num
    requires Edit(s.itbs[i].body, body)
    ensures s' == s.(itbs := s.itbs[i := s.itbs[i].(body := body)]) && Leads(o, s')
  {
    hide Leads, Edit;
    s' := Touch(s, s.req[r].t, i, body);
    ByReq(o, s, Access(r, i, body), s');
    assert s'.itbs == s.itbs[i := s.itbs[i].(body := body)];
  }

  /** A request starts to copy a dirty ITB of the TXG before its own. */
  lemma Begin(o: State, s: State, r: nat, i: nat) returns (s': State)
    requires Leads(o, s) && r in s.req && s.req[r].Pinned? && s.req[r].t in s.txgs && i in s.itbs
    requires s.itbs[i].hashed && s.itbs[i].state == Dirty && s.txgs[s.req[r].t].num == s.itbs[i].txg + 1
    ensures s' == s.(req := s.req[r := Copying(s.req[r].t, i, s.itbs[i].body.h)]) && Leads(o, s')
  {
    hide Leads;
    s' := SetReq(s, r, Copying(s.req[r].t, i, s.itbs[i].body.h));
    ByCow(o, s, CowBegin(r, i), s');
  }

  /** A request that copies ITB i wins: the copy is ITB n. */
  lemma Win(o: State, s: State, r: nat, n: nat, junk: seq<Ite>) returns (s': State)
    requires Leads(o, s) && r in s.req && s.req[r].Copying? && s.req[r].t in s.txgs && s.req[r].i in s.itbs
    requires n !in s.itbs && (forall q | q in s.req :: !HoldsLock(s.req[q], s.req[r].i))
    requires var b := s.itbs[s.req[r].i];
             b.hashed && b.state == Dirty && s.txgs[s.req[r].t].num == b.txg + 1 && |junk| == |b.body.ite|
    ensures var q, b := s.req[r], s.itbs[s.req[r].i];
            s' == s.(itbs := s.itbs[q.i := b.(state := Cowed, hashed := false)]
                                   [n := ItbRec(s.txgs[q.t].num, Dirty, true, WonBy(r), Recopy(b.body, q.hdr, junk))],
                     req := s.req[r := Won(q.t, n)])
    ensures CowNext(s, CowWin(r, n, junk), s') && Leads(o, s')
  {
    hide Leads, Recopy, HoldsLock;
    var q, b := s.req[r], s.itbs[s.req[r].i];
    s' := SetReq(s.(itbs := s.itbs[q.i := b.(state := Cowed, hashed := false)]
                                  [n := ItbRec(s.txgs[q.t].num, Dirty, true, WonBy(r), Recopy(b.body, q.hdr, junk))]),
                 r, Won(q.t, n));
    ByCow(o, s, CowWin(r, n, junk), s');
  }

  /** The winner lists its copy and edits it. */
  lemma List(o: State, s: State, r: nat, body: Tab) returns (s': State)
    requires Leads(o, s) && r in s.req && s.req[r].Won? && s.req[r].t in s.txgs && s.req[r].i in s.itbs
    requires var b := s.itbs[s.req[r].i];
             b.place == WonBy(r) && b.state == Dirty && b.txg == s.txgs[s.req[r].t].num && Edit(b.body, body)
    ensures var t, i := s.req[r].t, s.req[r].i;
            s' == s.(txgs := s.txgs[t := s.txgs[t].(dirty := s.txgs[t].dirty + [i])],
                     itbs := s.itbs[i := s.itbs[i].(place := OnList(t), body := body)],
                     req := s.req[r := Pinned(t)])
    ensures Leads(o, s')
  {
    hide Leads, Edit;
    var t, i := s.req[r].t, s.req[r].i;
    var d := SetReq(AddItb(s, t, i), r, Refresh(t, i));
    ByCow(o, s, Relock(r), d);
    s' := SetReq(Touch(d, t, i, body), r, Pinned(t));
    ByCow(o, d, RefreshAccess(r, body), s');
    assert s'.itbs == s.itbs[i := s.itbs[i].(place := OnList(t), body := body)];
    assert s'.req == s.req[r := Pinned(t)];
  }

  /** A request gives up its TXG. */
  lemma Leave(o: State, s: State, r: nat) returns (s': State)
    requires Leads(o, s) && r in s.req && s.req[r].Pinned? && s.req[r].t in s.txgs
    ensures s' == Pend(s, s.req[r].t, -1).(req := s.req[r := Idle]) && Leads(o, s')
  {
    hide Leads;
    s' := SetReq(Pend(s, s.req[r].t, -1), r, Idle);
    ByReq(o, s, Release(r), s');
  }

  lemma RebindRaises(o: State, s: State, r: nat) returns (s': State)
    requires Leads(o, s) && r in s.req && s.req[r].Rebind? && s.open in s.txgs
    ensures var q := s.req[r];
            s' == Pend(s, s.open, 1).(req := s.req[r := RebindRaised(q.t, q.i, q.dirty, s.open)])
    ensures Leads(o, s')
  {
    hide Leads;
    var q, nt := s.req[r], s.open;
    var d := SetReq(s, r, RebindPtr(q.t, q.i, q.dirty, nt));
    ByRebind(o, s, RebindRead(r), d);
    s' := SetReq(Pend(d, nt, 1), r, RebindRaised(q.t, q.i, q.dirty, nt));
    ByRebind(o, d, RebindRaise(r), s');
    assert s'.req == s.req[r := RebindRaised(q.t, q.i, q.dirty, nt)];
  }

  /** A request in the reassignment branch is moved to the open TXG. */
  lemma Reassign(o: State, s: State, r: nat) returns (s': State)
    requires Leads(o, s) && r in s.req && s.req[r].Rebind? && s.req[r].t in s.txgs
    requires s.open in s.txgs && s.open != s.req[r].t && s.txgs[s.open].state == Open
    ensures var q := s.req[r];
            s' == Pend(Pend(s, s.open, 1), q.t, -1).(req := s.req[r := Rebound(s.open, q.i, q.dirty)])
    ensures Leads(o, s')
  {
    hide Leads;
    var q, nt := s.req[r], s.open;
    var e := RebindRaises(o, s, r);
    var f := SetReq(e, r, RebindPinned(q.t, q.i, q.dirty, nt));
    ByRebind(o, e, RebindCheck(r), f);
    s' := SetReq(Pend(f, q.t, -1), r, Rebound(nt, q.i, q.dirty));
    ByRebind(o, f, RebindPut(r), s');
    assert s'.req == s.req[r := Rebound(nt, q.i, q.dirty)];
  }
}
