/** When the assertions that end a reassignment hold. */
module TxgReassign {
  import opened ItbEdits
  import opened ItbCow
  import opened TxgModel
  import opened TxgInvariant
  import opened TxgSteps
  import opened TxgPaths

  /** The request is in the reassignment branch. */
  predicate Rebinds(q: Req) {
    q.Rebind? || q.RebindPtr? || q.RebindRaised? || q.RebindBackoff? || q.RebindPinned? || q.Rebound?
  }

  /** If request r is in the branch, it entered it with the ITB dirty, or not, as d says. */
  predicate Flagged(s: State, r: nat, d: bool) { r in s.req && Rebinds(s.req[r]) ==> s.req[r].dirty == d }

  lemma RebindFlag(s: State, a: Act, s': State, r: nat, d: bool)
    requires RebindNext(s, a, s') && Flagged(s, r, d) && !(a.RebindBegin? && a.r == r)
    ensures Flagged(s', r, d)
  {
    hide Edit, AssertsHold, Reaches;
  }

  lemma ReqFlag(s: State, a: Act, s': State, r: nat, d: bool)
    requires ReqNext(s, a, s') && Flagged(s, r, d)
    ensures Flagged(s', r, d)
  {
    hide Edit, Formed, Reaches, Keeps;
  }

  lemma CowFlag(s: State, a: Act, s': State, r: nat, d: bool)
    requires CowNext(s, a, s') && Flagged(s, r, d)
    ensures Flagged(s', r, d)
  {
    hide Edit, Recopy, HoldsLock, Reaches, Keeps;
  }

  lemma FlagStays(s: State, a: Act, s': State, r: nat, d: bool)
    requires Next(s, a, s') && Flagged(s, r, d) && !(a.RebindBegin? && a.r == r)
    ensures Flagged(s', r, d)
  {
    hide ReqNext, CowNext, RebindNext, Flagged;
    if ReqNext(s, a, s') {
      ReqFlag(s, a, s', r, d);
    } else if CowNext(s, a, s') {
      CowFlag(s, a, s', r, d);
    } else if RebindNext(s, a, s') {
      RebindFlag(s, a, s', r, d);
    } else {
      SwComFlag(s, a, s', r, d);
    }
  }

  lemma SwComFlag(s: State, a: Act, s': State, r: nat, d: bool)
    requires (SwNext(s, a, s') || ComNext(s, a, s')) && Flagged(s, r, d)
    ensures Flagged(s', r, d)
  {
  }

  lemma {:induction false} StepsKeep(ss: seq<State>, acts: seq<Act>, k: nat, r: nat, d: bool)
    requires Steps(ss, acts) && k < |ss| && Inv(ss[0]) && Flagged(ss[0], r, d)
    requires forall m | 0 <= m < k :: !(acts[m].RebindBegin? && acts[m].r == r)
    ensures Inv(ss[k]) && Flagged(ss[k], r, d)
  {
    hide Inv, Next, Flagged;
    if k > 0 {
      StepsKeep(ss, acts, k - 1, r, d);
      NextKeepsInv(ss[k - 1], acts[k - 1], ss[k]);
      FlagStays(ss[k - 1], acts[k - 1], ss[k], r, d);
    }
  }

  /** Request r does not stand before assertions that fail. */
  predicate Passes(s: State, r: nat) {
    r in s.req && s.req[r].Rebound? ==> s.req[r].t in s.txgs && s.req[r].i in s.itbs && AssertsHold(s, r)
  }

  /** In every continuation the reassignment that request r is in ends with assertions that hold. */
  ghost predicate WillPass(s: State, r: nat) {
    forall ss: seq<State>, acts: seq<Act>, k: nat
      | Steps(ss, acts) && ss[0] == s && k < |ss| && (forall m | 0 <= m < k :: !(acts[m].RebindBegin? && acts[m].r == r)) ::
      Passes(ss[k], r)
  }

  lemma FlaggedPasses(s: State, r: nat)
    requires Inv(s) && Flagged(s, r, true)
    ensures Passes(s, r)
  {
    if r in s.req { assert ReqOk(s, r); }
  }

  /** A request that is reassigned faces an open TXG other than its own. */
  lemma RebindCanGoOn(s: State, r: nat)
    requires Inv(s) && r in s.req && s.req[r].Rebind?
    ensures s.req[r].t in s.txgs && s.req[r].i in s.itbs
    ensures s.open in s.txgs && s.open != s.req[r].t && s.txgs[s.open].state == Open
  {
    assert ReqOk(s, r);
    assert ItbOk(s, s.req[r].i);
  }

  /** Both assertions that end a reassignment hold in every continuation exactly
      if the ITB was DIRTY when the request met it. */
  lemma ReassignmentIff(s: State, r: nat, i: nat, s': State)
    requires Inv(s) && RebindNext(s, RebindBegin(r, i), s')
    ensures i in s.itbs && (WillPass(s', r) <==> s.itbs[i].state == Dirty)
  {
    var d := s.itbs[i].state == Dirty;
    assert Next(s, RebindBegin(r, i), s');
    NextKeepsInv(s, RebindBegin(r, i), s');
    assert s'.req[r].Rebind? && s'.req[r].i == i && s'.req[r].dirty == d && s'.itbs == s.itbs;
    hide Inv, Next, RebindNext, Leads;
    if d {
      forall ss: seq<State>, acts: seq<Act>, k: nat
        | Steps(ss, acts) && ss[0] == s' && k < |ss| && (forall m | 0 <= m < k :: !(acts[m].RebindBegin? && acts[m].r == r))
        ensures Passes(ss[k], r)
      {
        StepsKeep(ss, acts, k, r, true);
        FlaggedPasses(ss[k], r);
      }
    } else {
      FailsToPass(s', r);
    }
  }

  /** The four steps of the branch, with no other step in between. */
  lemma GoOn(s: State, r: nat) returns (a: State, b: State, c: State, d: State)
    requires r in s.req && s.req[r].Rebind? && s.req[r].t in s.txgs && s.open in s.txgs && s.txgs[s.open].state == Open
    ensures RebindNext(s, RebindRead(r), a) && RebindNext(a, RebindRaise(r), b)
    ensures RebindNext(b, RebindCheck(r), c) && RebindNext(c, RebindPut(r), d)
    ensures r in d.req && d.req[r].Rebound? && d.req[r].i == s.req[r].i && d.itbs == s.itbs
  {
    var q, nt := s.req[r], s.open;
    a := SetReq(s, r, RebindPtr(q.t, q.i, q.dirty, nt));
    b := SetReq(Pend(a, nt, 1), r, RebindRaised(q.t, q.i, q.dirty, nt));
    c := SetReq(b, r, RebindPinned(q.t, q.i, q.dirty, nt));
    d := SetReq(Pend(c, q.t, -1), r, Rebound(nt, q.i, q.dirty));
  }

  /** The request itself comes to a failing assertion. */
  lemma FailsToPass(s: State, r: nat)
    requires Inv(s) && r in s.req && s.req[r].Rebind? && s.req[r].i in s.itbs && s.itbs[s.req[r].i].state != Dirty
    ensures !WillPass(s, r)
  {
    hide Inv, RebindNext, ReqNext, CowNext, SwNext, ComNext;
    RebindCanGoOn(s, r);
    var a, b, c, d := GoOn(s, r);
    var ss, acts := [s, a, b, c, d], [RebindRead(r), RebindRaise(r), RebindCheck(r), RebindPut(r)];
    assert !Passes(d, r);
    hide Passes;
    forall k | 0 <= k < |acts| ensures Next(ss[k], acts[k], ss[k + 1]) {
      assert k == 0 || k == 1 || k == 2 || k == 3;
    }
    assert Steps(ss, acts);
    assert ss[4] == d;
  }
}
