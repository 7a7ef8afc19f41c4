/** Every step of the TXG protocol keeps the invariant. */
module TxgSteps {
  import opened Common
  import opened ItbTable
  import opened TxgModel
  import opened TxgInvariant

  // --------------------------------------------- requests without ITB access

  lemma OpenIsKnown(s: State)
    requires Inv(s)
    ensures Known(s, s.open)
  {
    assert TxgOk(s, s.open);
  }

  lemma PendShape(s: State, r: nat, t: nat, d: int, q: Req, s': State)
    requires r in s.req && !s.req[r].Won? && t in s.txgs && s' == SetReq(Pend(s, t, d), r, q)
    ensures SameBut(s, s', r) && s'.req == s.req[r := q] && s'.req[r] == q
    ensures forall x | x in s.txgs :: s'.txgs[x].pending - s.txgs[x].pending == if x == t then d else 0
  {
  }

  /** mds_get_open_txg and txg_put: every step but the check leaves trust alone. */
  lemma ReadKeeps(s: State, r: nat, s': State)
    requires Inv(s) && ReqNext(s, Read(r), s')
    ensures Inv(s')
  {
    hide TxgOk, ItbOk, ComOk, SwOk, LiveTxg, Drained;
    OpenIsKnown(s);
    MoveKeeps(s, r, s');
  }

  lemma RaiseKeeps(s: State, r: nat, s': State)
    requires Inv(s) && ReqNext(s, Raise(r), s')
    ensures Inv(s')
  {
    hide TxgOk, ItbOk, ComOk, SwOk, LiveTxg, Drained, SameBut, Pend;
    assert ReqOk(s, r);
    PendShape(s, r, s.req[r].t, 1, s'.req[r], s');
    MoveKeeps(s, r, s');
  }

  /** A published TXG whose state is OPEN is the open one and may be relied on. */
  lemma OpenIsTrusted(s: State, t: nat)
    requires Inv(s) && Known(s, t) && s.txgs[t].state == Open
    ensures t == s.open && Trusted(s, t)
  {
    assert TxgOk(s, t);
  }

  lemma CheckKeeps(s: State, r: nat, s': State)
    requires Inv(s) && ReqNext(s, Check(r), s')
    ensures Inv(s')
  {
    hide TxgOk, ItbOk, ComOk, SwOk, LiveTxg, Drained;
    assert ReqOk(s, r);
    var t := s.req[r].t;
    if s.txgs[t].state == Open { OpenIsTrusted(s, t); }
    TrustFrame(s, s', r, t);
    MoveKeeps(s, r, s');
  }

  lemma PutBackKeeps(s: State, r: nat, s': State)
    requires Inv(s) && ReqNext(s, PutBack(r), s')
    ensures Inv(s')
  {
    hide TxgOk, ItbOk, ComOk, SwOk, LiveTxg, Drained, SameBut, Pend;
    assert ReqOk(s, r);
    PendShape(s, r, s.req[r].t, -1, s'.req[r], s');
    MoveKeeps(s, r, s');
  }

  lemma ReleaseKeeps(s: State, r: nat, s': State)
    requires Inv(s) && ReqNext(s, Release(r), s')
    ensures Inv(s')
  {
    hide TxgOk, ItbOk, ComOk, SwOk, LiveTxg, Drained, SameBut, Pend;
    assert ReqOk(s, r);
    PendShape(s, r, s.req[r].t, -1, s'.req[r], s');
    MoveKeeps(s, r, s');
  }

  lemma CowBeginKeeps(s: State, r: nat, i: nat, s': State)
    requires Inv(s) && CowNext(s, CowBegin(r, i), s')
    ensures Inv(s')
  {
    hide TxgOk, ItbOk, ComOk, SwOk, LiveTxg, Drained;
    assert ReqOk(s, r);
    TrustFrame(s, s', r, s.req[r].t);
    MoveKeeps(s, r, s');
  }

  lemma CowLoseKeeps(s: State, r: nat, s': State)
    requires Inv(s) && CowNext(s, CowLose(r), s')
    ensures Inv(s')
  {
    hide TxgOk, ItbOk, ComOk, SwOk, LiveTxg, Drained;
    assert ReqOk(s, r);
    TrustFrame(s, s', r, s.req[r].t);
    MoveKeeps(s, r, s');
  }

  lemma RefreshDropKeeps(s: State, r: nat, s': State)
    requires Inv(s) && CowNext(s, RefreshDrop(r), s')
    ensures Inv(s')
  {
    hide TxgOk, ItbOk, ComOk, SwOk, LiveTxg, Drained;
    assert ReqOk(s, r);
    TrustFrame(s, s', r, s.req[r].t);
    MoveKeeps(s, r, s');
  }

  // --------------------------------------------------------- reassignment

  lemma RebindFrame(s: State, s': State, r: nat, t: nat, i: nat, d: bool)
    requires SameBut(s, s', r)
    ensures RebindOk(s', t, i, d) == RebindOk(s, t, i, d)
  {
    TrustFrame(s, s', r, t);
  }

  lemma RebindBeginKeeps(s: State, r: nat, i: nat, s': State)
    requires Inv(s) && RebindNext(s, RebindBegin(r, i), s')
    ensures Inv(s')
  {
    hide TxgOk, ItbOk, ComOk, SwOk, LiveTxg, Drained;
    assert ReqOk(s, r);
    TrustFrame(s, s', r, s.req[r].t);
    MoveKeeps(s, r, s');
  }

  lemma RebindReadKeeps(s: State, r: nat, s': State)
    requires Inv(s) && RebindNext(s, RebindRead(r), s')
    ensures Inv(s')
  {
    hide TxgOk, ItbOk, ComOk, SwOk, LiveTxg, Drained, RebindOk, Trusted;
    assert ReqOk(s, r);
    OpenIsKnown(s);
    RebindFrame(s, s', r, s.req[r].t, s.req[r].i, s.req[r].dirty);
    TrustFrame(s, s', r, s.open);
    MoveKeeps(s, r, s');
  }

  lemma RebindRaiseKeeps(s: State, r: nat, s': State)
    requires Inv(s) && RebindNext(s, RebindRaise(r), s')
    ensures Inv(s')
  {
    hide TxgOk, ItbOk, ComOk, SwOk, LiveTxg, Drained, RebindOk, Trusted, SameBut, Pend;
    assert ReqOk(s, r);
    PendShape(s, r, s.req[r].nt, 1, s'.req[r], s');
    RebindFrame(s, s', r, s.req[r].t, s.req[r].i, s.req[r].dirty);
    TrustFrame(s, s', r, s.req[r].nt);
    MoveKeeps(s, r, s');
  }

  /** While a request waits in the reassignment branch, the open TXG is the one after its own. */
  lemma RebindFacesOpen(s: State, t: nat, i: nat, d: bool)
    requires Inv(s) && RebindOk(s, t, i, d)
    ensures s.txgs[s.open].num == s.txgs[t].num + 1
  {
    assert ItbOk(s, i) && TxgOk(s, t);
  }

  lemma RebindCheckKeeps(s: State, r: nat, s': State)
    requires Inv(s) && RebindNext(s, RebindCheck(r), s')
    ensures Inv(s')
  {
    hide TxgOk, ItbOk, ComOk, SwOk, LiveTxg, Drained, RebindOk, Trusted;
    assert ReqOk(s, r);
    var q := s.req[r];
    RebindFacesOpen(s, q.t, q.i, q.dirty);
    if s.txgs[q.nt].state == Open { OpenIsTrusted(s, q.nt); }
    RebindFrame(s, s', r, q.t, q.i, q.dirty);
    TrustFrame(s, s', r, q.t);
    TrustFrame(s, s', r, q.nt);
    MoveKeeps(s, r, s');
  }

  lemma RebindPutBackKeeps(s: State, r: nat, s': State)
    requires Inv(s) && RebindNext(s, RebindPutBack(r), s')
    ensures Inv(s')
  {
    hide TxgOk, ItbOk, ComOk, SwOk, LiveTxg, Drained, RebindOk, Trusted, SameBut, Pend;
    assert ReqOk(s, r);
    PendShape(s, r, s.req[r].nt, -1, s'.req[r], s');
    RebindFrame(s, s', r, s.req[r].t, s.req[r].i, s.req[r].dirty);
    MoveKeeps(s, r, s');
  }

  /** The ITB of a reassigned request, seen through the request's new TXG. */
  lemma ReboundOk(s: State, s': State, r: nat, q: Req)
    requires SameBut(s, s', r) && q.RebindPinned? && s'.req[r] == Rebound(q.nt, q.i, q.dirty)
    requires RebindOk(s, q.t, q.i, q.dirty) && Trusted(s, q.nt) && s.txgs[q.nt].num == s.txgs[q.t].num + 1
    ensures ReqOk(s', r)
  {
    TrustFrame(s, s', r, q.t);
    TrustFrame(s, s', r, q.nt);
  }

  lemma RebindPutKeeps(s: State, r: nat, s': State)
    requires Inv(s) && RebindNext(s, RebindPut(r), s')
    ensures Inv(s')
  {
    hide TxgOk, ItbOk, ComOk, SwOk, LiveTxg, Drained, SameBut, Pend;
    assert ReqOk(s, r);
    PendShape(s, r, s.req[r].t, -1, s'.req[r], s');
    ReboundOk(s, s', r, s.req[r]);
    MoveKeeps(s, r, s');
  }

  // ------------------------------------------------------- ITB accesses

  /** s' has the TXGs, slots and commit threads of s, up to pending counters and dirty lists. */
  predicate SameTxgs(s: State, s': State) {
    && s'.open == s.open && s'.wb == s.wb && s'.mi == s.mi && s'.com == s.com && s'.sw == s.sw
    && s'.txgs.Keys == s.txgs.Keys
    && (forall x | x in s.txgs :: s'.txgs[x] == s.txgs[x].(dirty := s'.txgs[x].dirty))
  }

  lemma SwOkItbs(s: State, s': State)
    requires SameTxgs(s, s') && s.open in s.txgs
    ensures SwOk(s') == SwOk(s)
  {
  }

  lemma TrustItbs(s: State, s': State)
    requires SameTxgs(s, s')
    ensures forall x :: Known(s', x) == Known(s, x) && Trusted(s', x) == Trusted(s, x)
  {
  }

  /** Nothing but ITB i changes; it keeps its link, its TXG number and its place
      in the hash table, and is DIRTY afterwards. */
  predicate Updated(s: State, i: nat, s': State) {
    && i in s.itbs && i in s'.itbs && s' == SetItb(s, i, s'.itbs[i])
    && s.itbs[i].state != Clean
    && s'.itbs[i] == s.itbs[i].(state := Dirty, body := s'.itbs[i].body)
    && (s.itbs[i].hashed ==> s.itbs[i].place != Nowhere)
  }

  lemma UpdateReq(s: State, i: nat, s': State, z: nat)
    requires Updated(s, i, s') && z in s.req && ReqOk(s, z)
    ensures ReqOk(s', z)
  {
    hide Known, Trusted;
    TrustItbs(s, s');
  }

  lemma UpdateOthers(s: State, i: nat, s': State)
    requires Updated(s, i, s') && s.open in s.txgs
    ensures forall x | x in s.txgs && TxgOk(s, x) :: TxgOk(s', x)
    ensures forall j | j in s.itbs && ItbOk(s, j) :: ItbOk(s', j)
    ensures forall c | c in s.com && ComOk(s, c) :: ComOk(s', c)
  {
  }

  lemma UpdateKeeps(s: State, i: nat, s': State)
    requires Inv(s) && Updated(s, i, s')
    ensures Inv(s')
  {
    hide SwOk, TxgOk, ItbOk, ReqOk, ComOk;
    SwOkItbs(s, s');
    UpdateOthers(s, i, s');
    forall z | z in s'.req ensures ReqOk(s', z) { UpdateReq(s, i, s', z); }
  }

  /** A trusted TXG is numbered like the open one or one below. */
  lemma TrustedNumber(s: State, t: nat)
    requires Inv(s) && Trusted(s, t)
    ensures t in s.txgs && s.txgs[t].num <= s.txgs[s.open].num <= s.txgs[t].num + 1
  {
    assert TxgOk(s, t);
  }

  /** An ITB linked to a TXG, or about to be, is numbered like the open TXG or one below. */
  lemma LinkedNumber(s: State, i: nat)
    requires Inv(s) && i in s.itbs && s.itbs[i].place != Nowhere
    ensures s.itbs[i].txg <= s.txgs[s.open].num <= s.itbs[i].txg + 1
  {
    assert ItbOk(s, i);
    match s.itbs[i].place
    case OnList(x) => assert TxgOk(s, x);
    case InHand(c) => assert ComOk(s, c) && TxgOk(s, s.com[c].t);
    case WonBy(r) => assert ReqOk(s, r); TrustedNumber(s, s.req[r].t);
  }

  /** itb_dirty renumbers an ITB only when it is CLEAN and on no list. */
  lemma RenumbersOnlyClean(s: State, r: nat, i: nat)
    requires Inv(s) && Reaches(s, r, i) && Keeps(s, s.req[r].t, i)
    ensures s.txgs[s.req[r].t].num != s.itbs[i].txg ==> s.itbs[i].state == Clean && s.itbs[i].place == Nowhere
    ensures s.itbs[i].state == Clean ==> s.itbs[i].place == Nowhere
  {
    assert ReqOk(s, r) && ItbOk(s, i);
    TrustedNumber(s, s.req[r].t);
    if s.itbs[i].place != Nowhere { LinkedNumber(s, i); }
  }

  /** Only ITB i and the dirty list of t change: i, clean and on no list, joins the list. */
  predicate Enlisted(s: State, t: nat, i: nat, s': State) {
    && Trusted(s, t) && i in s.itbs && i in s'.itbs
    && s.itbs[i].hashed && s.itbs[i].state == Clean && s.itbs[i].place == Nowhere
    && s.itbs[i].txg <= s.txgs[t].num
    && s' == s.(txgs := s.txgs[t := s.txgs[t].(dirty := s.txgs[t].dirty + [i])],
                itbs := s.itbs[i := ItbRec(s.txgs[t].num, Dirty, true, OnList(t), s'.itbs[i].body)])
  }

  lemma EnlistReq(s: State, t: nat, i: nat, s': State, z: nat)
    requires Enlisted(s, t, i, s') && z in s.req && ReqOk(s, z)
    requires HoldsLock(s.req[z], i) && !s.req[z].Refresh? && !s.req[z].Rebound? ==> s.itbs[i].txg == s.txgs[t].num
    ensures ReqOk(s', z)
  {
    hide Known, Trusted;
    TrustedKnown(s);
    TrustItbs(s, s');
  }

  lemma EnlistTxgs(s: State, t: nat, i: nat, s': State)
    requires Enlisted(s, t, i, s') && s.open in s.txgs
    ensures forall x | x in s.txgs && TxgOk(s, x) :: TxgOk(s', x)
  {
    hide Pins, Sides;
  }

  lemma EnlistItbs(s: State, t: nat, i: nat, s': State)
    requires Enlisted(s, t, i, s') && s.open in s.txgs && s.txgs[t].num <= s.txgs[s.open].num
    ensures forall j | j in s.itbs && ItbOk(s, j) :: ItbOk(s', j)
    ensures forall c | c in s.com && ComOk(s, c) :: ComOk(s', c)
  {
    hide Trusted;
    TrustedKnown(s);
  }

  lemma EnlistKeeps(s: State, t: nat, i: nat, s': State)
    requires Inv(s) && Enlisted(s, t, i, s')
    ensures Inv(s')
  {
    hide SwOk, TxgOk, ItbOk, ReqOk, ComOk;
    TrustedNumber(s, t);
    SwOkItbs(s, s');
    EnlistTxgs(s, t, i, s');
    EnlistItbs(s, t, i, s');
    forall z | z in s'.req ensures ReqOk(s', z) {
      EnlistedRebind(s, t, i, z);
      EnlistReq(s, t, i, s', z);
    }
  }

  /** No request that is being reassigned relies on the number of a clean ITB that is about to change. */
  lemma EnlistedRebind(s: State, t: nat, i: nat, z: nat)
    requires Inv(s) && Trusted(s, t) && i in s.itbs && z in s.req && s.itbs[i].txg <= s.txgs[t].num
    ensures HoldsLock(s.req[z], i) && !s.req[z].Refresh? && !s.req[z].Rebound? ==> s.itbs[i].txg == s.txgs[t].num
  {
    assert ReqOk(s, z);
    TrustedNumber(s, t);
    if HoldsLock(s.req[z], i) && !s.req[z].Refresh? && !s.req[z].Rebound? {
      RebindFacesOpen(s, s.req[z].t, i, s.req[z].dirty);
    }
  }

  lemma AccessKeeps(s: State, r: nat, i: nat, body: Tab, s': State)
    requires Inv(s) && ReqNext(s, Access(r, i, body), s')
    ensures Inv(s')
  {
    hide SwOk, TxgOk, ComOk, ReqOk;
    RenumbersOnlyClean(s, r, i);
    assert ItbOk(s, i);
    assert Trusted(s, s.req[r].t) by { assert ReqOk(s, r); PinnedIsTrusted(s, r); }
    if s.itbs[i].state == Clean {
      EnlistKeeps(s, s.req[r].t, i, s');
    } else {
      UpdateKeeps(s, i, s');
    }
  }

  lemma PinnedIsTrusted(s: State, r: nat)
    requires r in s.req && ReqOk(s, r)
    ensures s.req[r].Pinned? || s.req[r].Won? || s.req[r].Refresh? || s.req[r].Copying? ==> Trusted(s, s.req[r].t)
  {
  }

  /** A request that has just put its copy on the dirty list finds it numbered like its TXG and not CLEAN. */
  lemma RefreshedItb(s: State, r: nat)
    requires Inv(s) && r in s.req && s.req[r].Refresh?
    ensures s.req[r].t in s.txgs && s.req[r].i in s.itbs
    ensures var b := s.itbs[s.req[r].i];
            b.place == OnList(s.req[r].t) && b.txg == s.txgs[s.req[r].t].num && b.state != Clean
  {
    assert ReqOk(s, r);
    assert ItbOk(s, s.req[r].i);
  }

  lemma RefreshAccessKeeps(s: State, r: nat, body: Tab, s': State)
    requires Inv(s) && CowNext(s, RefreshAccess(r, body), s')
    ensures Inv(s')
  {
    hide SwOk, TxgOk, ItbOk, ComOk;
    RefreshedItb(s, r);
    var t, i := s.req[r].t, s.req[r].i;
    var s1 := SetItb(s, i, s.itbs[i].(state := Dirty, body := body));
    UpdateKeeps(s, i, s1);
    assert ReqOk(s, r);
    TrustItbs(s, s1);
    TrustFrame(s1, s', r, t);
    MoveKeeps(s1, r, s');
  }

  /** The access that ends a reassignment finds its ITB dirty, and so listed if it is hashed. */
  lemma ReboundItb(s: State, r: nat, body: Tab, s': State)
    requires Inv(s) && RebindNext(s, ReboundAccess(r, body), s')
    ensures Trusted(s, s.req[r].t) && s.req[r].i in s.itbs
    ensures Updated(s, s.req[r].i, SetItb(s, s.req[r].i, s.itbs[s.req[r].i].(body := body)))
  {
    hide SwOk, TxgOk, ComOk, Trusted;
    assert ReqOk(s, r) && ItbOk(s, s.req[r].i);
  }

  lemma ReboundAccessKeeps(s: State, r: nat, body: Tab, s': State)
    requires Inv(s) && RebindNext(s, ReboundAccess(r, body), s')
    ensures Inv(s')
  {
    hide Inv, SwOk, TxgOk, ComOk, ItbOk, Updated, Trusted;
    ReboundItb(s, r, body, s');
    var t, i := s.req[r].t, s.req[r].i;
    var s1 := SetItb(s, i, s.itbs[i].(body := body));
    UpdateKeeps(s, i, s1);
    TrustItbs(s, s1);
    TrustFrame(s1, s', r, t);
    MoveKeeps(s1, r, s');
  }

  // ------------------------------------------------- new ITBs and COW wins

  /** A clean ITB that was not there before is hashed; nothing else changes. */
  predicate Inserted(s: State, i: nat, s': State) {
    && i !in s.itbs && i in s'.itbs && s' == SetItb(s, i, s'.itbs[i])
    && s'.itbs[i] == ItbRec(s'.itbs[i].txg, Clean, true, Nowhere, s'.itbs[i].body)
  }

  lemma InsertReq(s: State, i: nat, s': State, z: nat)
    requires Inserted(s, i, s') && z in s.req && ReqOk(s, z)
    ensures ReqOk(s', z)
  {
    hide Known, Trusted;
    TrustItbs(s, s');
  }

  lemma InsertOthers(s: State, i: nat, s': State)
    requires Inserted(s, i, s') && s.open in s.txgs
    ensures forall x | x in s.txgs && TxgOk(s, x) :: TxgOk(s', x)
    ensures forall j | j in s.itbs && ItbOk(s, j) :: ItbOk(s', j)
    ensures forall c | c in s.com && ComOk(s, c) :: ComOk(s', c)
  {
  }

  lemma InsertKeeps(s: State, r: nat, i: nat, num: nat, body: Tab, s': State)
    requires Inv(s) && ReqNext(s, Insert(r, i, num, body), s')
    ensures Inv(s')
  {
    hide SwOk, TxgOk, ReqOk, ComOk;
    SwOkItbs(s, s');
    assert ReqOk(s, r);
    PinnedIsTrusted(s, r);
    TrustedNumber(s, s.req[r].t);
    InsertOthers(s, i, s');
    forall z | z in s'.req ensures ReqOk(s', z) { InsertReq(s, i, s', z); }
  }

  /** The winner of a COW puts its copy on the dirty list of its TXG. */
  predicate Relocked(s: State, r: nat, s': State) {
    && r in s.req && s.req[r].Won? && s.req[r].t in s.txgs && s.req[r].i in s.itbs
    && s.itbs[s.req[r].i].place == WonBy(r)
    && s' == SetReq(AddItb(s, s.req[r].t, s.req[r].i), r, Refresh(s.req[r].t, s.req[r].i))
  }

  lemma RelockReq(s: State, r: nat, s': State, z: nat)
    requires Relocked(s, r, s') && z in s.req && ReqOk(s, z)
    ensures ReqOk(s', z)
  {
    hide Known, Trusted;
    TrustItbs(s, s');
  }

  lemma RelockTxgs(s: State, r: nat, s': State, x: nat)
    requires Relocked(s, r, s') && s.open in s.txgs && x in s.txgs && TxgOk(s, x) && Trusted(s, s.req[r].t)
    ensures TxgOk(s', x)
  {
    hide Pins, Sides;
    MainPinsMove(s.req, r, s'.req[r], x);
    SidePinsMove(s.req, r, s'.req[r], x);
  }

  lemma RelockOthers(s: State, r: nat, s': State)
    requires Relocked(s, r, s') && s.open in s.txgs && ItbOk(s, s.req[r].i)
    ensures forall j | j in s.itbs && ItbOk(s, j) :: ItbOk(s', j)
    ensures forall c | c in s.com && ComOk(s, c) :: ComOk(s', c)
  {
  }

  lemma RelockFacts(s: State, r: nat, s': State)
    requires Inv(s) && CowNext(s, Relock(r), s')
    ensures Relocked(s, r, s') && ItbOk(s, s.req[r].i) && Trusted(s, s.req[r].t)
  {
    hide SwOk, TxgOk, ComOk, ItbOk, Trusted;
    assert ReqOk(s, r);
    assert ItbOk(s, s.req[r].i);
  }

  lemma RelockKeeps(s: State, r: nat, s': State)
    requires Inv(s) && CowNext(s, Relock(r), s')
    ensures Inv(s')
  {
    hide SwOk, TxgOk, ComOk, Trusted, ReqOk, ItbOk;
    RelockFacts(s, r, s');
    SwOkItbs(s, s');
    forall x | x in s'.txgs ensures TxgOk(s', x) { RelockTxgs(s, r, s', x); }
    RelockOthers(s, r, s');
    forall z | z in s'.req ensures ReqOk(s', z) { RelockReq(s, r, s', z); }
  }

  /** A COW win, as CowNext states it, on the ITB i of request r. */
  predicate CowWon(s: State, r: nat, n: nat, s': State) {
    && r in s.req && s.req[r].Copying? && s.req[r].t in s.txgs && s.req[r].i in s.itbs && n !in s.itbs && n in s'.itbs
    && (forall q | q in s.req :: !HoldsLock(s.req[q], s.req[r].i))
    && var t, i, b := s.req[r].t, s.req[r].i, s.itbs[s.req[r].i];
    && b.hashed && b.state == Dirty
    && s' == SetReq(s.(itbs := s.itbs[i := b.(state := Cowed, hashed := false)]
                                     [n := ItbRec(s.txgs[t].num, Dirty, true, WonBy(r), s'.itbs[n].body)]),
                    r, Won(t, n))
  }

  lemma CowWinReq(s: State, r: nat, n: nat, s': State, z: nat)
    requires CowWon(s, r, n, s') && z in s.req && ReqOk(s, z)
    ensures ReqOk(s', z)
  {
    hide Known, Trusted;
    TrustItbs(s, s');
    assert !HoldsLock(s.req[z], s.req[r].i);
  }

  lemma CowWinTxgs(s: State, r: nat, n: nat, s': State, x: nat)
    requires CowWon(s, r, n, s') && s.open in s.txgs && x in s.txgs && TxgOk(s, x)
    ensures TxgOk(s', x)
  {
    hide Pins, Sides;
    MainPinsMove(s.req, r, s'.req[r], x);
    SidePinsMove(s.req, r, s'.req[r], x);
  }

  lemma CowWinOthers(s: State, r: nat, n: nat, s': State)
    requires CowWon(s, r, n, s') && s.open in s.txgs && s.txgs[s.req[r].t].num <= s.txgs[s.open].num
    requires ItbOk(s, s.req[r].i)
    ensures forall j | j in s.itbs && ItbOk(s, j) :: ItbOk(s', j)
    ensures ItbOk(s', n)
    ensures forall c | c in s.com && ComOk(s, c) :: ComOk(s', c)
  {
  }

  lemma CowWinKeeps(s: State, r: nat, n: nat, junk: seq<Ite>, s': State)
    requires Inv(s) && CowNext(s, CowWin(r, n, junk), s')
    ensures Inv(s')
  {
    hide SwOk, TxgOk, ComOk, ItbOk, ReqOk, HoldsLock;
    SwOkItbs(s, s');
    assert ReqOk(s, r) && ItbOk(s, s.req[r].i);
    PinnedIsTrusted(s, r);
    TrustedNumber(s, s.req[r].t);
    forall x | x in s'.txgs ensures TxgOk(s', x) { CowWinTxgs(s, r, n, s', x); }
    CowWinOthers(s, r, n, s');
    forall z | z in s'.req ensures ReqOk(s', z) { CowWinReq(s, r, n, s', z); }
  }

  // ------------------------------------------------------- the switcher

  predicate Uses(q: Req, x: nat) { MainPin(q) == Some(x) || SidePin(q) == Some(x) }

  /** Requests are unaffected by steps that leave ITBs and requests alone and
      withdraw no TXG that they know of or rely on. */
  lemma ReqStays(s: State, s': State, z: nat)
    requires z in s.req && s'.req == s.req && s'.itbs == s.itbs && ReqOk(s, z)
    requires forall x | Known(s, x) :: Known(s', x) && s'.txgs[x].num == s.txgs[x].num
    requires forall x | Uses(s.req[z], x) && Trusted(s, x) :: Trusted(s', x)
    ensures ReqOk(s', z)
  {
    hide LiveTxg, Drained;
  }

  /** What the stores of txg_switch leave alone: ITBs, requests, commit threads,
      dirty lists, numbers and every TXG that is being written back. */
  ghost predicate Gentle(s: State, s': State) {
    && s.open in s.txgs && s'.open in s'.txgs
    && s'.itbs == s.itbs && s'.req == s.req && s'.com == s.com
    && s.txgs[s.open].num <= s'.txgs[s'.open].num
    && (forall x | x in s.txgs :: x in s'.txgs && s'.txgs[x].num == s.txgs[x].num
                                  && s'.txgs[x].dirty == s.txgs[x].dirty && s'.txgs[x].writer == s.txgs[x].writer)
    && (forall x | x in s.txgs && s.wb == Some(x) && s.txgs[x].state == Wbing ::
          s'.wb == Some(x) && s'.txgs[x].state == Wbing)
    && (forall x | Known(s, x) :: Known(s', x))
    && (forall x | Trusted(s, x) :: Trusted(s', x))
  }

  lemma GentleKeeps(s: State, s': State)
    requires Inv(s) && Gentle(s, s')
    requires SwOk(s') && (s'.sw != SIdle ==> s'.mi == s'.txgs[s'.open].num + 1)
    requires forall x | x in s'.txgs :: TxgOk(s', x)
    ensures Inv(s')
  {
    hide SwOk, TxgOk, ReqOk, ItbOk, ComOk, Known, Trusted;
    TrustedKnown(s);
    forall i | i in s'.itbs ensures ItbOk(s', i) { GentleItb(s, s', i); }
    forall c | c in s'.com ensures ComOk(s', c) { GentleCom(s, s', c); }
    forall z | z in s'.req ensures ReqOk(s', z) { ReqStays(s, s', z); }
  }

  lemma GentleItb(s: State, s': State, i: nat)
    requires Gentle(s, s') && i in s.itbs && ItbOk(s, i)
    ensures ItbOk(s', i)
  {
    hide Known, Trusted;
  }

  lemma GentleCom(s: State, s': State, c: nat)
    requires Gentle(s, s') && c in s.com && ComOk(s, c)
    ensures ComOk(s', c)
  {
    hide Known, Trusted;
  }

  lemma UsesKnown(s: State, r: nat, x: nat)
    requires r in s.req && ReqOk(s, r) && Uses(s.req[r], x)
    ensures Known(s, x)
  {
  }

  /** No request refers to a TXG that is not published. */
  lemma NoPinsYet(s: State, x: nat)
    requires Inv(s) && !Known(s, x)
    ensures Pins(s.req, x) == {} && Sides(s.req, x) == {}
  {
    hide ReqOk, Known;
    forall r | r in s.req ensures !Uses(s.req[r], x) {
      if Uses(s.req[r], x) { UsesKnown(s, r, x); }
    }
  }

  lemma SwStartKeeps(s: State, s': State)
    requires Inv(s) && SwNext(s, SwStart, s')
    ensures Inv(s')
  {
    hide ReqOk, ItbOk, ComOk, Pins, Sides;
    forall x | x in s'.txgs ensures TxgOk(s', x) { assert TxgOk(s, x); }
    GentleKeeps(s, s');
  }

  lemma SwNumTxgs(s: State, nt: nat, s': State, x: nat)
    requires s.open in s.txgs && SwOk(s) && SwNext(s, SwNum(nt), s') && x in s'.txgs && (x != nt ==> TxgOk(s, x))
    requires s.mi == s.txgs[s.open].num + 1 && Pins(s.req, nt) == {} && Sides(s.req, nt) == {} && TxgOk(s, s.open)
    ensures TxgOk(s', x)
  {
    hide Pins, Sides;
  }

  lemma SwNumGentle(s: State, nt: nat, s': State)
    requires s.open in s.txgs && SwOk(s) && SwNext(s, SwNum(nt), s') && s.mi == s.txgs[s.open].num + 1
    ensures Gentle(s, s') && SwOk(s') && s'.mi == s'.txgs[s'.open].num + 1
  {
  }

  lemma SwNumKeeps(s: State, nt: nat, s': State)
    requires Inv(s) && SwNext(s, SwNum(nt), s')
    ensures Inv(s')
  {
    NoPinsYet(s, nt);
    assert TxgOk(s, s.open);
    hide ReqOk, ItbOk, ComOk, Pins, Sides, TxgOk, Gentle;
    forall x | x in s'.txgs ensures TxgOk(s', x) { SwNumTxgs(s, nt, s', x); }
    SwNumGentle(s, nt, s');
    GentleKeeps(s, s');
  }

  lemma SwGetTxgs(s: State, s': State, x: nat)
    requires s.open in s.txgs && SwOk(s) && SwNext(s, SwGet, s') && x in s.txgs && TxgOk(s, x)
    ensures TxgOk(s', x)
  {
    hide Pins, Sides;
  }

  lemma SwGetKeeps(s: State, s': State)
    requires Inv(s) && SwNext(s, SwGet, s')
    ensures Inv(s')
  {
    hide ReqOk, ItbOk, ComOk, Pins, Sides;
    assert TxgOk(s, s.open);
    hide TxgOk;
    forall x | x in s'.txgs ensures TxgOk(s', x) { SwGetTxgs(s, s', x); }
    GentleKeeps(s, s');
  }

  lemma SwWbKeeps(s: State, s': State)
    requires Inv(s) && SwNext(s, SwWb, s')
    ensures Inv(s')
  {
    hide ReqOk, ItbOk, ComOk, Pins, Sides;
    forall x | x in s'.txgs ensures TxgOk(s', x) { assert TxgOk(s, x); }
    GentleKeeps(s, s');
  }

  lemma SwStateTxgs(s: State, s': State, x: nat)
    requires s.open in s.txgs && SwOk(s) && SwNext(s, SwState, s') && x in s.txgs && TxgOk(s, x)
    ensures TxgOk(s', x)
  {
    hide Pins, Sides;
  }

  lemma SwStateKeeps(s: State, s': State)
    requires Inv(s) && SwNext(s, SwState, s')
    ensures Inv(s')
  {
    hide ReqOk, ItbOk, ComOk, Pins, Sides;
    assert TxgOk(s, s.open);
    hide TxgOk;
    forall x | x in s'.txgs ensures TxgOk(s', x) { SwStateTxgs(s, s', x); }
    GentleKeeps(s, s');
  }

  lemma SwPutTxgs(s: State, s': State, x: nat)
    requires s.open in s.txgs && SwOk(s) && SwNext(s, SwPut, s') && x in s.txgs && TxgOk(s, x)
    ensures TxgOk(s', x)
  {
    hide Pins, Sides;
  }

  lemma SwPutKeeps(s: State, s': State)
    requires Inv(s) && SwNext(s, SwPut, s')
    ensures Inv(s')
  {
    hide ReqOk, ItbOk, ComOk, Pins, Sides;
    assert TxgOk(s, s.open);
    hide TxgOk;
    forall x | x in s'.txgs ensures TxgOk(s', x) { SwPutTxgs(s, s', x); }
    GentleKeeps(s, s');
  }

  lemma SwOpenTxgs(s: State, s': State, x: nat)
    requires s.open in s.txgs && SwOk(s) && SwNext(s, SwOpen, s') && x in s.txgs && TxgOk(s, x)
    requires TxgOk(s, s.open) && s.sw.nt in s.txgs && TxgOk(s, s.sw.nt)
    ensures TxgOk(s', x)
  {
    hide Pins, Sides;
  }

  lemma SwOpenKeeps(s: State, s': State)
    requires Inv(s) && SwNext(s, SwOpen, s')
    ensures Inv(s')
  {
    hide ReqOk, ItbOk, ComOk, Pins, Sides;
    assert TxgOk(s, s.open) && TxgOk(s, s.sw.nt);
    hide TxgOk;
    forall x | x in s'.txgs ensures TxgOk(s', x) { SwOpenTxgs(s, s', x); }
    GentleKeeps(s, s');
  }

  // ------------------------------------------------------ commit threads

  lemma WbIsKnown(s: State)
    requires Inv(s) && s.wb.Some?
    ensures Known(s, s.wb.value)
  {
    assert TxgOk(s, s.open);
  }

  /** Commit thread c moves on and nothing is withdrawn from the others. */
  ghost predicate ComMoves(s: State, c: nat, s': State) {
    && s.open in s.txgs && s'.open == s.open && s'.mi == s.mi && s'.sw == s.sw
    && s'.itbs == s.itbs && s'.req == s.req && c in s.com && c in s'.com && s'.com == s.com[c := s'.com[c]]
    && s'.txgs.Keys == s.txgs.Keys
    && (forall x | x in s.txgs :: s'.txgs[x].num == s.txgs[x].num && s'.txgs[x].dirty == s.txgs[x].dirty)
    && !s.com[c].CHand?
    && (forall b, t | b in s.com && b != c && Owns(s, b, t) :: Owns(s', b, t))
    && (forall z, x | z in s.req && Uses(s.req[z], x) && Trusted(s, x) :: Trusted(s', x))
  }

  lemma ComItb(s: State, c: nat, s': State, i: nat)
    requires ComMoves(s, c, s') && i in s.itbs && ItbOk(s, i)
    ensures ItbOk(s', i)
  {
    hide Trusted, Owns, Uses;
  }

  lemma ComOthers(s: State, c: nat, s': State, b: nat)
    requires ComMoves(s, c, s') && b in s.com && b != c && ComOk(s, b)
    ensures ComOk(s', b)
  {
    hide Trusted, Uses;
  }

  lemma ComMovesKeeps(s: State, c: nat, s': State)
    requires Inv(s) && ComMoves(s, c, s')
    requires SwOk(s') && ComOk(s', c) && forall x | x in s'.txgs :: TxgOk(s', x)
    ensures Inv(s')
  {
    forall x ensures Known(s', x) == Known(s, x) {}
    hide SwOk, TxgOk, ReqOk, ItbOk, ComOk, Known, Trusted, Owns, Uses;
    TrustedKnown(s);
    forall i | i in s'.itbs ensures ItbOk(s', i) { ComItb(s, c, s', i); }
    forall b | b in s'.com ensures ComOk(s', b) { if b != c { ComOthers(s, c, s', b); } }
    forall z | z in s'.req ensures ReqOk(s', z) { ReqStays(s, s', z); }
  }

  lemma CReadKeeps(s: State, c: nat, s': State)
    requires Inv(s) && ComNext(s, CRead(c), s')
    ensures Inv(s')
  {
    hide ReqOk, ItbOk, Pins, Sides, Uses;
    WbIsKnown(s);
    assert ComOk(s, c);
    forall x | x in s'.txgs ensures TxgOk(s', x) { assert TxgOk(s, x); }
    ComMovesKeeps(s, c, s');
  }

  /** The thread that finds the TXG in WB becomes its writer. */
  predicate Claimed(s: State, c: nat, t: nat, s': State) {
    && c in s.com && s.com[c] == CGot(t) && t in s.txgs && s.txgs[t].state == Wb
    && s' == SetCom(s.(txgs := s.txgs[t := s.txgs[t].(state := Wbing, writer := Some(c))]), c, CWait(t))
  }

  lemma ClaimTxgs(s: State, c: nat, t: nat, s': State, x: nat)
    requires Claimed(s, c, t, s') && s.open in s.txgs && x in s.txgs && TxgOk(s, x) && Known(s, t)
    ensures TxgOk(s', x)
  {
    hide Pins, Sides;
  }

  lemma ClaimShape(s: State, c: nat, t: nat, s': State)
    requires Claimed(s, c, t, s') && s.open in s.txgs && SwOk(s) && TxgOk(s, t)
    ensures SwOk(s') && ComOk(s', c) && ComMoves(s, c, s')
  {
    hide Pins, Sides, Uses;
  }

  lemma GivesUp(s: State, c: nat, s': State)
    requires Inv(s) && c in s.com && s.com[c].CGot? && s' == SetCom(s, c, CIdle)
    ensures Inv(s')
  {
    hide ReqOk, ItbOk, Pins, Sides, Uses;
    forall x | x in s'.txgs ensures TxgOk(s', x) { assert TxgOk(s, x); }
    ComMovesKeeps(s, c, s');
  }

  lemma CTestKeeps(s: State, c: nat, s': State)
    requires Inv(s) && ComNext(s, CTest(c), s')
    ensures Inv(s')
  {
    hide ReqOk, ItbOk, Pins, Sides, Uses;
    assert ComOk(s, c);
    var t := s.com[c].t;
    if s.txgs[t].state == Wb {
      assert TxgOk(s, t);
      hide TxgOk, SwOk, Known;
      forall x | x in s'.txgs ensures TxgOk(s', x) { ClaimTxgs(s, c, t, s', x); }
      ClaimShape(s, c, t, s');
      ComMovesKeeps(s, c, s');
    } else {
      GivesUp(s, c, s');
    }
  }

  /** A TXG with nothing pending is used by no request and not held by the switcher. */
  lemma NothingPending(s: State, t: nat)
    requires Inv(s) && t in s.txgs && s.txgs[t].pending == 0
    ensures SwPin(s, t) == 0 && forall z | z in s.req :: !Uses(s.req[z], t)
  {
    assert TxgOk(s, t);
    hide ReqOk, ItbOk, ComOk, MainPin, SidePin;
    assert Pins(s.req, t) == {} && Sides(s.req, t) == {};
    assert forall z | z in s.req && MainPin(s.req[z]) == Some(t) :: z in Pins(s.req, t);
    assert forall z | z in s.req && SidePin(s.req[z]) == Some(t) :: z in Sides(s.req, t);
  }

  lemma CDrainKeeps(s: State, c: nat, s': State)
    requires Inv(s) && ComNext(s, CDrain(c), s')
    ensures Inv(s')
  {
    hide ReqOk, ItbOk, Pins, Sides, Uses;
    assert ComOk(s, c);
    NothingPending(s, s.com[c].t);
    forall x | x in s'.txgs ensures TxgOk(s', x) { assert TxgOk(s, x); }
    ComMovesKeeps(s, c, s');
  }

  /** While a commit thread waits for its TXG, the slot keeps it: the retry exit is never taken. */
  lemma NeverAbandons(s: State, c: nat, s': State)
    requires Inv(s)
    ensures !ComNext(s, CAbandon(c), s')
  {
    if c in s.com { assert ComOk(s, c); }
  }

  /** Nobody relies on a TXG that is being written back. */
  lemma DrainedUnused(s: State, c: nat, t: nat)
    requires Inv(s) && c in s.com && (s.com[c] == CWrite(t) || (s.com[c].CHand? && s.com[c].t == t))
    ensures t in s.txgs && Owns(s, c, t) && Drained(s, t) && !Trusted(s, t)
  {
    assert ComOk(s, c);
  }

  /** The commit thread takes the first ITB off the list. */
  predicate Taken(s: State, c: nat, t: nat, i: nat, s': State) {
    && c in s.com && s.com[c] == CWrite(t) && Owns(s, c, t) && s.txgs[t].dirty != [] && i == s.txgs[t].dirty[0]
    && i in s.itbs && s.itbs[i].place == OnList(t)
    && s' == SetCom(s.(txgs := s.txgs[t := s.txgs[t].(dirty := s.txgs[t].dirty[1..])],
                       itbs := s.itbs[i := s.itbs[i].(place := InHand(c))]), c, CHand(t, i))
  }

  lemma TakeTrust(s: State, c: nat, t: nat, i: nat, s': State)
    requires Taken(s, c, t, i, s')
    ensures forall x :: Known(s', x) == Known(s, x) && Trusted(s', x) == Trusted(s, x)
    ensures !Trusted(s, t)
  {
  }

  lemma TakeReq(s: State, c: nat, t: nat, i: nat, s': State, z: nat)
    requires Taken(s, c, t, i, s') && z in s.req && ReqOk(s, z)
    ensures ReqOk(s', z)
  {
    TakeTrust(s, c, t, i, s');
    hide Known, Trusted;
  }

  lemma TakeTxgs(s: State, c: nat, t: nat, i: nat, s': State)
    requires Taken(s, c, t, i, s') && s.open in s.txgs
    ensures forall x | x in s.txgs && TxgOk(s, x) :: TxgOk(s', x)
  {
    hide Pins, Sides;
  }

  lemma TakeOthers(s: State, c: nat, t: nat, i: nat, s': State)
    requires Taken(s, c, t, i, s') && s.open in s.txgs
    ensures forall j | j in s.itbs && ItbOk(s, j) :: ItbOk(s', j)
    ensures forall b | b in s.com && ComOk(s, b) :: ComOk(s', b)
  {
  }

  lemma CTakeKeeps(s: State, c: nat, s': State)
    requires Inv(s) && ComNext(s, CTake(c), s')
    ensures Inv(s')
  {
    hide ReqOk, ItbOk, Pins, Sides, SwOk;
    assert ComOk(s, c);
    assert TxgOk(s, s.com[c].t);
    SwTake(s, c, s.com[c].t, s.txgs[s.com[c].t].dirty[0], s');
    hide TxgOk, ComOk;
    TakeTxgs(s, c, s.com[c].t, s.txgs[s.com[c].t].dirty[0], s');
    TakeOthers(s, c, s.com[c].t, s.txgs[s.com[c].t].dirty[0], s');
    forall z | z in s'.req ensures ReqOk(s', z) { TakeReq(s, c, s.com[c].t, s.txgs[s.com[c].t].dirty[0], s', z); }
  }

  lemma SwTake(s: State, c: nat, t: nat, i: nat, s': State)
    requires Taken(s, c, t, i, s') && s.open in s.txgs && SwOk(s)
    ensures SwOk(s')
  {
  }

  /** The commit thread settles the ITB in its hand. */
  predicate Settled(s: State, c: nat, s': State) {
    && c in s.com && s.com[c].CHand? && s.com[c].i in s.itbs && Owns(s, c, s.com[c].t)
    && s.itbs[s.com[c].i].place == InHand(c)
    && s' == SetCom(SetItb(s, s.com[c].i,
                           if s.itbs[s.com[c].i].state == Cowed then s.itbs[s.com[c].i].(place := Nowhere)
                           else s.itbs[s.com[c].i].(state := Clean, place := Nowhere)),
                    c, CWrite(s.com[c].t))
  }

  lemma SettleTrust(s: State, c: nat, s': State)
    requires Settled(s, c, s')
    ensures forall x :: Known(s', x) == Known(s, x) && Trusted(s', x) == Trusted(s, x)
    ensures !Trusted(s, s.com[c].t)
  {
  }

  lemma SettleReq(s: State, c: nat, s': State, z: nat)
    requires Settled(s, c, s') && z in s.req && ReqOk(s, z)
    requires HoldsLock(s.req[z], s.com[c].i) && !s.req[z].Refresh? ==> !s.req[z].dirty
    ensures ReqOk(s', z)
  {
    SettleTrust(s, c, s');
    hide Known, Trusted;
  }

  /** While a commit thread writes TXG t back, a TXG that requests rely on is the open one, and newer. */
  lemma TrustedIsNewer(s: State, c: nat, t: nat, x: nat)
    requires Inv(s) && c in s.com && (s.com[c] == CWrite(t) || (s.com[c].CHand? && s.com[c].t == t))
    requires Trusted(s, x)
    ensures x == s.open && t in s.txgs && s.txgs[t].num < s.txgs[x].num
  {
    DrainedUnused(s, c, t);
    assert TxgOk(s, t);
  }

  /** No request that saw its ITB dirty holds the lock of an ITB being settled. */
  lemma SettledNotDirty(s: State, c: nat, z: nat)
    requires Inv(s) && c in s.com && s.com[c].CHand? && z in s.req
    ensures HoldsLock(s.req[z], s.com[c].i) && !s.req[z].Refresh? ==> !s.req[z].dirty
  {
    assert ComOk(s, c) && ReqOk(s, z);
    assert ItbOk(s, s.com[c].i);
    hide TxgOk, SwOk, LiveTxg, Drained, Known;
    if s.req[z] != Idle && Trusted(s, s.req[z].t) { TrustedIsNewer(s, c, s.com[c].t, s.req[z].t); }
  }

  lemma SettleOthers(s: State, c: nat, s': State)
    requires Settled(s, c, s') && s.open in s.txgs
    ensures forall x | x in s.txgs && TxgOk(s, x) :: TxgOk(s', x)
    ensures forall j | j in s.itbs && ItbOk(s, j) :: ItbOk(s', j)
    ensures forall b | b in s.com && ComOk(s, b) :: ComOk(s', b)
    ensures SwOk(s) ==> SwOk(s')
  {
  }

  lemma CSettleKeeps(s: State, c: nat, s': State)
    requires Inv(s) && ComNext(s, CSettle(c), s')
    ensures Inv(s')
  {
    hide ReqOk, ItbOk, TxgOk, SwOk;
    assert ComOk(s, c);
    hide ComOk;
    SettleOthers(s, c, s');
    forall z | z in s'.req ensures ReqOk(s', z) {
      SettledNotDirty(s, c, z);
      SettleReq(s, c, s', z);
    }
  }

  lemma CFinishKeeps(s: State, c: nat, s': State)
    requires Inv(s) && ComNext(s, CFinish(c), s')
    ensures Inv(s')
  {
    hide ReqOk, ItbOk, Pins, Sides, Uses;
    assert ComOk(s, c);
    assert TxgOk(s, s.com[c].t);
    forall x | x in s'.txgs ensures TxgOk(s', x) { assert TxgOk(s, x); }
    ComMovesKeeps(s, c, s');
  }

  // ------------------------------------------------------------ all steps

  lemma ReqKeepsInv(s: State, a: Act, s': State)
    requires Inv(s) && ReqNext(s, a, s')
    ensures Inv(s')
  {
    hide Inv;
    match a
    case Read(r) => ReadKeeps(s, r, s');
    case Raise(r) => RaiseKeeps(s, r, s');
    case Check(r) => CheckKeeps(s, r, s');
    case PutBack(r) => PutBackKeeps(s, r, s');
    case Release(r) => ReleaseKeeps(s, r, s');
    case Insert(r, i, num, body) => InsertKeeps(s, r, i, num, body, s');
    case Access(r, i, body) => AccessKeeps(s, r, i, body, s');
    case _ =>
  }

  lemma CowKeepsInv(s: State, a: Act, s': State)
    requires Inv(s) && CowNext(s, a, s')
    ensures Inv(s')
  {
    hide Inv;
    match a
    case CowBegin(r, i) => CowBeginKeeps(s, r, i, s');
    case CowWin(r, n, junk) => CowWinKeeps(s, r, n, junk, s');
    case CowLose(r) => CowLoseKeeps(s, r, s');
    case Relock(r) => RelockKeeps(s, r, s');
    case RefreshAccess(r, body) => RefreshAccessKeeps(s, r, body, s');
    case RefreshDrop(r) => RefreshDropKeeps(s, r, s');
    case _ =>
  }

  lemma RebindKeepsInv(s: State, a: Act, s': State)
    requires Inv(s) && RebindNext(s, a, s')
    ensures Inv(s')
  {
    hide Inv;
    match a
    case RebindBegin(r, i) => RebindBeginKeeps(s, r, i, s');
    case RebindRead(r) => RebindReadKeeps(s, r, s');
    case RebindRaise(r) => RebindRaiseKeeps(s, r, s');
    case RebindCheck(r) => RebindCheckKeeps(s, r, s');
    case RebindPutBack(r) => RebindPutBackKeeps(s, r, s');
    case RebindPut(r) => RebindPutKeeps(s, r, s');
    case ReboundAccess(r, body) => ReboundAccessKeeps(s, r, body, s');
    case _ =>
  }

  lemma SwKeepsInv(s: State, a: Act, s': State)
    requires Inv(s) && SwNext(s, a, s')
    ensures Inv(s')
  {
    hide Inv;
    match a
    case SwStart => SwStartKeeps(s, s');
    case SwNum(nt) => SwNumKeeps(s, nt, s');
    case SwGet => SwGetKeeps(s, s');
    case SwWb => SwWbKeeps(s, s');
    case SwState => SwStateKeeps(s, s');
    case SwPut => SwPutKeeps(s, s');
    case SwOpen => SwOpenKeeps(s, s');
    case _ =>
  }

  lemma ComKeepsInv(s: State, a: Act, s': State)
    requires Inv(s) && ComNext(s, a, s')
    ensures Inv(s')
  {
    hide Inv;
    match a
    case CRead(c) => CReadKeeps(s, c, s');
    case CTest(c) => CTestKeeps(s, c, s');
    case CDrain(c) => CDrainKeeps(s, c, s');
    case CAbandon(c) => NeverAbandons(s, c, s');
    case CTake(c) => CTakeKeeps(s, c, s');
    case CSettle(c) => CSettleKeeps(s, c, s');
    case CFinish(c) => CFinishKeeps(s, c, s');
    case _ =>
  }

  lemma NextKeepsInv(s: State, a: Act, s': State)
    requires Inv(s) && Next(s, a, s')
    ensures Inv(s')
  {
    hide Inv, ReqNext, CowNext, RebindNext, SwNext, ComNext;
    if ReqNext(s, a, s') { ReqKeepsInv(s, a, s'); }
    if CowNext(s, a, s') { CowKeepsInv(s, a, s'); }
    if RebindNext(s, a, s') { RebindKeepsInv(s, a, s'); }
    if SwNext(s, a, s') { SwKeepsInv(s, a, s'); }
    if ComNext(s, a, s') { ComKeepsInv(s, a, s'); }
  }

  /** The invariant holds in every state of every run. */
  lemma {:induction false} RunKeepsInv(ss: seq<State>, acts: seq<Act>, k: nat)
    requires Run(ss, acts) && k < |ss|
    ensures Inv(ss[k])
  {
    hide Next, Inv;
    if k == 0 {
      InitInv(ss[0]);
    } else {
      RunKeepsInv(ss, acts, k - 1);
      assert Next(ss[k - 1], acts[k - 1], ss[k]);
      NextKeepsInv(ss[k - 1], acts[k - 1], ss[k]);
    }
  }
}
