/** What the TXG protocol guarantees in every run. */
module TxgTheorems {
  import opened Common
  import opened ItbEdits
  import opened ItbCow
  import opened TxgModel
  import opened TxgInvariant
  import opened TxgSteps

  // ------------------------------------------------ what requests leave alone

  /** s' has the slots, the threads and, up to pending counters and dirty lists, the TXGs of s. */
  predicate Quiet(s: State, s': State) {
    && s'.open == s.open && s'.wb == s.wb && s'.com == s.com && s'.sw == s.sw && s'.txgs.Keys == s.txgs.Keys
    && (forall x | x in s.txgs :: s'.txgs[x].num == s.txgs[x].num && s'.txgs[x].state == s.txgs[x].state
                                  && s'.txgs[x].writer == s.txgs[x].writer)
  }

  lemma ReqQuiet(s: State, a: Act, s': State)
    requires ReqNext(s, a, s')
    ensures Quiet(s, s')
  {
    hide Keeps, Edit, Formed;
  }

  lemma CowQuiet(s: State, a: Act, s': State)
    requires CowNext(s, a, s')
    ensures Quiet(s, s')
  {
    hide Recopy, HoldsLock, Keeps, Reaches, Edit;
  }

  lemma RebindQuiet(s: State, a: Act, s': State)
    requires RebindNext(s, a, s')
    ensures Quiet(s, s')
  {
    hide AssertsHold, Reaches, Edit;
  }

  /** No step of a request does more. */
  lemma RequestsAreQuiet(s: State, a: Act, s': State)
    requires ReqNext(s, a, s') || CowNext(s, a, s') || RebindNext(s, a, s')
    ensures Quiet(s, s')
  {
    hide ReqNext, CowNext, RebindNext, Quiet;
    if ReqNext(s, a, s') { ReqQuiet(s, a, s'); }
    if CowNext(s, a, s') { CowQuiet(s, a, s'); }
    if RebindNext(s, a, s') { RebindQuiet(s, a, s'); }
  }

  // ------------------------------------------------------ write-back freeze

  /** TXG t has drained and ITB i still waits on its list or is in its writer's hand. */
  predicate Frozen(s: State, t: nat, i: nat) {
    && t in s.txgs && i in s.itbs && Drained(s, t)
    && (s.itbs[i].place == OnList(t) || s.itbs[i].place == InHand(s.txgs[t].writer.value))
  }

  /** The step by which the commit thread is done with ITB i. */
  predicate Settles(s: State, a: Act, i: nat) {
    a.CSettle? && a.c in s.com && s.com[a.c].CHand? && s.com[a.c].i == i
  }

  /** What a step may do to a frozen ITB: mark it COWED and unhash it, nothing else. */
  predicate Untouched(s: State, s': State, i: nat) {
    && i in s.itbs && i in s'.itbs
    && var b, b' := s.itbs[i], s'.itbs[i];
    && b'.body == b.body && b'.txg == b.txg
    && (b' == b.(place := b'.place) || b' == b.(state := Cowed, hashed := false))
  }

  lemma FrozenNumber(s: State, t: nat, i: nat)
    requires Inv(s) && Frozen(s, t, i)
    ensures s.itbs[i].txg == s.txgs[t].num && s.itbs[i].state != Clean
  {
    assert ItbOk(s, i) && ComOk(s, s.txgs[t].writer.value);
  }

  /** A TXG that is relied on while t is written back is newer than t by one. */
  lemma TrustedIsNext(s: State, t: nat, x: nat)
    requires Inv(s) && t in s.txgs && Drained(s, t) && Trusted(s, x)
    ensures s.txgs[x].num == s.txgs[t].num + 1
  {
    var c := s.txgs[t].writer.value;
    DrainedUnused(s, c, t);
    TrustedIsNewer(s, c, t, x);
    assert TxgOk(s, s.open);
  }

  lemma ReqCannotTouch(s: State, a: Act, s': State, t: nat, i: nat)
    requires Inv(s) && ReqNext(s, a, s') && Frozen(s, t, i)
    ensures Frozen(s', t, i) && Untouched(s, s', i)
  {
    hide TxgOk, ComOk, SwOk, ItbOk, Trusted, Edit, Formed;
    FrozenNumber(s, t, i);
    if a.Access? {
      assert ReqOk(s, a.r);
      TrustedIsNext(s, t, s.req[a.r].t);
    }
  }

  lemma CowCannotTouch(s: State, a: Act, s': State, t: nat, i: nat)
    requires Inv(s) && CowNext(s, a, s') && Frozen(s, t, i)
    ensures Frozen(s', t, i) && Untouched(s, s', i)
  {
    hide TxgOk, ComOk, SwOk, ItbOk, Trusted, Recopy, Edit, HoldsLock;
    FrozenNumber(s, t, i);
    if a.RefreshAccess? || a.Relock? {
      assert ReqOk(s, a.r);
      TrustedIsNext(s, t, s.req[a.r].t);
    }
  }

  lemma RebindCannotTouch(s: State, a: Act, s': State, t: nat, i: nat)
    requires Inv(s) && RebindNext(s, a, s') && Frozen(s, t, i)
    ensures Frozen(s', t, i) && Untouched(s, s', i)
  {
    hide TxgOk, ComOk, SwOk, ItbOk, Trusted, RebindOk, Edit;
    FrozenNumber(s, t, i);
    if a.ReboundAccess? {
      assert ReqOk(s, a.r);
      TrustedIsNext(s, t, s.req[a.r].t);
    }
  }

  lemma SwCannotTouch(s: State, a: Act, s': State, t: nat, i: nat)
    requires Inv(s) && SwNext(s, a, s') && Frozen(s, t, i)
    ensures Frozen(s', t, i) && Untouched(s, s', i)
  {
    hide TxgOk, ComOk, SwOk, ItbOk, Trusted;
  }

  /** Only the thread that drained TXG t takes ITBs off its list or releases the slot. */
  lemma WriterActs(s: State, c: nat, t: nat)
    requires Inv(s) && t in s.txgs && Drained(s, t) && c in s.com
    requires s.com[c].CWrite? || s.com[c].CHand? || s.com[c].CWait?
    ensures s.com[c].t == t && s.txgs[t].writer == Some(c) && !s.com[c].CWait?
  {
    hide TxgOk, ItbOk, ReqOk, SwOk;
    assert ComOk(s, c) && ComOk(s, s.txgs[t].writer.value);
  }

  lemma WbingStays(s: State, t: nat)
    requires Inv(s) && t in s.txgs && Drained(s, t)
    ensures s.txgs[t].state == Wbing
  {
    assert TxgOk(s, t);
  }

  lemma FrozenListed(s: State, t: nat, i: nat)
    requires Inv(s) && Frozen(s, t, i)
    ensures s.itbs[i].place == OnList(t) ==> i in s.txgs[t].dirty
    ensures s.itbs[i].place == InHand(s.txgs[t].writer.value) ==>
              s.txgs[t].writer.value in s.com && s.com[s.txgs[t].writer.value] == CHand(t, i)
  {
    assert ItbOk(s, i);
  }

  lemma DrainedThreads(s: State, a: Act, s': State, t: nat)
    requires ComNext(s, a, s') && t in s.txgs && Drained(s, t) && s.txgs[t].state == Wbing
    requires s.com[a.c].CWrite? || s.com[a.c].CHand? || s.com[a.c].CWait? ==>
               s.com[a.c].t == t && s.txgs[t].writer == Some(a.c) && !s.com[a.c].CWait?
    ensures t in s'.txgs && s'.txgs[t].writer == s.txgs[t].writer && s'.txgs[t].state == Wbing
    ensures a.CFinish? || Drained(s', t)
    ensures a.CFinish? ==> s'.wb == None && s.txgs[t].writer == Some(a.c) && s.com[a.c] == CWrite(t) && s.txgs[t].dirty == []
    ensures a.CTake? || a.CSettle? ==> s.txgs[t].writer == Some(a.c) && s.com[a.c].t == t
  {
  }

  /** While a commit thread writes TXG t back, a commit step leaves it so or releases the slot. */
  lemma DrainedCom(s: State, a: Act, s': State, t: nat)
    requires Inv(s) && ComNext(s, a, s') && t in s.txgs && Drained(s, t)
    ensures t in s'.txgs && s'.txgs[t].writer == s.txgs[t].writer && s'.txgs[t].state == s.txgs[t].state
    ensures a.CFinish? || Drained(s', t)
    ensures a.CFinish? ==> s'.wb == None && s.txgs[t].writer == Some(a.c) && s.com[a.c] == CWrite(t) && s.txgs[t].dirty == []
    ensures a.CTake? || a.CSettle? ==> s.txgs[t].writer == Some(a.c) && s.com[a.c].t == t
  {
    hide Inv, Drained;
    WbingStays(s, t);
    if s.com[a.c].CWrite? || s.com[a.c].CHand? || s.com[a.c].CWait? { WriterActs(s, a.c, t); }
    DrainedThreads(s, a, s', t);
  }

  /** A commit step on an ITB that is not in the thread's hand takes it off the list at most. */
  lemma ComTouch(s: State, a: Act, s': State, i: nat)
    requires ComNext(s, a, s') && i in s.itbs && !Settles(s, a, i)
    ensures i in s'.itbs && (s'.itbs[i] == s.itbs[i] || (a.CTake? && s'.itbs[i] == s.itbs[i].(place := InHand(a.c))))
  {
  }

  lemma ComCannotTouch(s: State, a: Act, s': State, t: nat, i: nat)
    requires Inv(s) && ComNext(s, a, s') && Frozen(s, t, i) && !Settles(s, a, i)
    ensures Frozen(s', t, i) && Untouched(s, s', i)
  {
    FrozenListed(s, t, i);
    DrainedCom(s, a, s', t);
    ComTouch(s, a, s', i);
    hide Inv, ComNext, Drained, Settles;
  }

  /** One step, by anyone, on a frozen ITB. */
  lemma FreezeStep(s: State, a: Act, s': State, t: nat, i: nat)
    requires Inv(s) && Next(s, a, s') && Frozen(s, t, i) && !Settles(s, a, i)
    ensures Frozen(s', t, i) && Untouched(s, s', i)
  {
    hide Inv, ReqNext, CowNext, RebindNext, SwNext, ComNext, Frozen, Settles, Untouched;
    if ReqNext(s, a, s') { ReqCannotTouch(s, a, s', t, i); }
    if CowNext(s, a, s') { CowCannotTouch(s, a, s', t, i); }
    if RebindNext(s, a, s') { RebindCannotTouch(s, a, s', t, i); }
    if SwNext(s, a, s') { SwCannotTouch(s, a, s', t, i); }
    if ComNext(s, a, s') { ComCannotTouch(s, a, s', t, i); }
  }

  /** Write-back freeze: from the moment its TXG has drained until the commit
      thread is done with it, an ITB on the dirty list keeps its bitmap, index
      and ITEs whatever the requests do. */
  lemma {:induction false} WriteBackFreeze(ss: seq<State>, acts: seq<Act>, j: nat, k: nat, t: nat, i: nat)
    requires Run(ss, acts) && j <= k < |ss| && i in ss[j].itbs && Frozen(ss[j], t, i)
    requires forall m | j <= m < k :: !Settles(ss[m], acts[m], i)
    ensures Frozen(ss[k], t, i) && i in ss[k].itbs && ss[k].itbs[i].body == ss[j].itbs[i].body
  {
    hide Inv, Next, Frozen, Settles, Init;
    if j < k {
      WriteBackFreeze(ss, acts, j, k - 1, t, i);
      RunKeepsInv(ss, acts, k - 1);
      assert Next(ss[k - 1], acts[k - 1], ss[k]);
      FreezeStep(ss[k - 1], acts[k - 1], ss[k], t, i);
    }
  }

  // ----------------------------------------------------------- drain safety

  /** mds_get_open_txg returned TXG t to the request, which has not put it yet. */
  predicate Holds(q: Req, t: nat) {
    match q
    case Idle => false
    case GotPtr(_) => false
    case Raised(_) => false
    case Backoff(_) => false
    case RebindPinned(x, _, _, nt) => x == t || nt == t
    case _ => q.t == t
  }

  lemma HeldIsTrusted(s: State, r: nat, t: nat)
    requires Inv(s) && r in s.req && Holds(s.req[r], t)
    ensures Trusted(s, t) && s.txgs[t].pending > 0
  {
    assert ReqOk(s, r);
    assert Trusted(s, t);
    assert TxgOk(s, t);
    hide Inv, TxgOk, ReqOk, Trusted;
    assert r in Pins(s.req, t) + Sides(s.req, t);
    assert |Pins(s.req, t) + Sides(s.req, t)| > 0;
  }

  /** TXG t has drained, or was already released. */
  predicate Gone(s: State, t: nat) {
    t in s.txgs && !Private(s, t) && s.txgs[t].state == Wbing && (Drained(s, t) || s.wb != Some(t))
  }

  lemma GoneIsUnused(s: State, t: nat, r: nat, c: nat)
    requires Inv(s) && Gone(s, t)
    ensures r in s.req ==> !Holds(s.req[r], t)
    ensures c in s.com ==> s.com[c] != CWait(t)
  {
    assert !Trusted(s, t);
    if c in s.com { assert ComOk(s, c); }
    hide Inv, Gone, Trusted, ComOk;
    if r in s.req && Holds(s.req[r], t) { HeldIsTrusted(s, r, t); }
  }

  lemma GoneStays(s: State, a: Act, s': State, t: nat)
    requires Inv(s) && Next(s, a, s') && Gone(s, t)
    ensures Gone(s', t)
  {
    hide Inv, ReqNext, CowNext, RebindNext, SwNext, ComNext, Gone, Quiet;
    if SwNext(s, a, s') {
      GoneSw(s, a, s', t);
    } else if ComNext(s, a, s') {
      GoneCom(s, a, s', t);
    } else {
      RequestsAreQuiet(s, a, s');
      GoneQuiet(s, s', t);
    }
  }

  lemma GoneQuiet(s: State, s': State, t: nat)
    requires Quiet(s, s') && Gone(s, t)
    ensures Gone(s', t)
  {
  }

  lemma GoneSw(s: State, a: Act, s': State, t: nat)
    requires Inv(s) && SwNext(s, a, s') && Gone(s, t)
    ensures Gone(s', t)
  {
    hide TxgOk, ReqOk, ItbOk, ComOk;
  }

  lemma GoneCom(s: State, a: Act, s': State, t: nat)
    requires Inv(s) && ComNext(s, a, s') && Gone(s, t)
    ensures Gone(s', t)
  {
    if Drained(s, t) {
      DrainedCom(s, a, s', t);
      hide Inv, Drained;
    } else {
      hide Inv, Drained;
    }
  }

  lemma {:induction false} GoneForever(ss: seq<State>, acts: seq<Act>, j: nat, k: nat, t: nat)
    requires Run(ss, acts) && j <= k < |ss| && Gone(ss[j], t)
    ensures Gone(ss[k], t)
  {
    hide Inv, Next, Gone, Init;
    if j < k {
      GoneForever(ss, acts, j, k - 1, t);
      RunKeepsInv(ss, acts, k - 1);
      assert Next(ss[k - 1], acts[k - 1], ss[k]);
      GoneStays(ss[k - 1], acts[k - 1], ss[k], t);
    }
  }

  lemma DrainedIsGone(s: State, c: nat, s': State)
    requires Inv(s) && ComNext(s, CDrain(c), s')
    ensures Gone(s', s.com[c].t)
  {
    assert ComOk(s, c);
    assert TxgOk(s, s.com[c].t);
  }

  lemma DrainStep(ss: seq<State>, acts: seq<Act>, j: nat, c: nat)
    requires Run(ss, acts) && j < |acts| && acts[j] == CDrain(c)
    ensures Inv(ss[j]) && ComNext(ss[j], CDrain(c), ss[j + 1])
  {
    hide Inv, Init;
    RunKeepsInv(ss, acts, j);
    assert Next(ss[j], acts[j], ss[j + 1]);
  }

  /** Drain safety: when a commit thread passes the pending test of TXG t, no
      request holds t, and from then on none ever gets hold of it again. */
  lemma DrainSafety(ss: seq<State>, acts: seq<Act>, j: nat, k: nat, c: nat, r: nat)
    requires Run(ss, acts) && j < |acts| && acts[j] == CDrain(c) && j <= k < |ss|
    ensures c in ss[j].com && ss[j].com[c].CWait?
    ensures r in ss[k].req ==> !Holds(ss[k].req[r], ss[j].com[c].t)
  {
    hide Inv, Next, Init, Holds, Gone;
    DrainStep(ss, acts, j, c);
    var t := ss[j].com[c].t;
    if j == k {
      if r in ss[k].req && Holds(ss[k].req[r], t) { HeldIsTrusted(ss[k], r, t); }
    } else {
      DrainedIsGone(ss[j], c, ss[j + 1]);
      GoneForever(ss, acts, j + 1, k, t);
      RunKeepsInv(ss, acts, k);
      GoneIsUnused(ss[k], t, r, c);
    }
  }

  /** No TXG is drained, and so written back, twice. */
  lemma DrainsOnce(ss: seq<State>, acts: seq<Act>, j: nat, k: nat, c: nat, d: nat)
    requires Run(ss, acts) && j < k < |acts| && acts[j] == CDrain(c) && acts[k] == CDrain(d)
    ensures c in ss[j].com && ss[j].com[c].CWait? && d in ss[k].com && ss[k].com[d].CWait?
    ensures ss[j].com[c].t != ss[k].com[d].t
  {
    hide Inv, Next, Init, Gone;
    DrainStep(ss, acts, j, c);
    DrainStep(ss, acts, k, d);
    DrainedIsGone(ss[j], c, ss[j + 1]);
    GoneForever(ss, acts, j + 1, k, ss[j].com[c].t);
    GoneIsUnused(ss[k], ss[j].com[c].t, 0, d);
  }

  /** Commit thread c waits for TXG t or writes it back. */
  predicate WritesBack(s: State, c: nat, t: nat) {
    c in s.com && (s.com[c] == CWait(t) || s.com[c] == CWrite(t) || (s.com[c].CHand? && s.com[c].t == t))
  }

  lemma WriterStays(s: State, a: Act, s': State, t: nat, c: nat)
    requires Inv(s) && Next(s, a, s') && t in s.txgs && s.txgs[t].writer == Some(c)
    ensures t in s'.txgs && s'.txgs[t].writer == Some(c)
  {
    assert TxgOk(s, t);
    hide Inv, TxgOk, ReqNext, CowNext, RebindNext, SwNext, ComNext;
    if SwNext(s, a, s') {
      WriterSw(s, a, s', t);
    } else if ComNext(s, a, s') {
      WriterCom(s, a, s', t);
    } else {
      RequestsAreQuiet(s, a, s');
    }
  }

  lemma WriterSw(s: State, a: Act, s': State, t: nat)
    requires SwNext(s, a, s') && t in s.txgs
    ensures t in s'.txgs && s'.txgs[t].writer == s.txgs[t].writer
  {
  }

  lemma WriterCom(s: State, a: Act, s': State, t: nat)
    requires ComNext(s, a, s') && t in s.txgs && s.txgs[t].state == Wbing
    ensures t in s'.txgs && s'.txgs[t].writer == s.txgs[t].writer
  {
  }

  lemma WriterNow(s: State, c: nat, t: nat)
    requires Inv(s) && WritesBack(s, c, t)
    ensures t in s.txgs && s.txgs[t].writer == Some(c)
  {
    assert ComOk(s, c);
  }

  lemma {:induction false} WriterForever(ss: seq<State>, acts: seq<Act>, j: nat, k: nat, c: nat, t: nat)
    requires Run(ss, acts) && j <= k < |ss| && WritesBack(ss[j], c, t)
    ensures t in ss[k].txgs && ss[k].txgs[t].writer == Some(c)
  {
    hide Inv, Next, Init, WritesBack;
    if j == k {
      RunKeepsInv(ss, acts, k);
      WriterNow(ss[k], c, t);
    } else {
      WriterForever(ss, acts, j, k - 1, c, t);
      RunKeepsInv(ss, acts, k - 1);
      assert Next(ss[k - 1], acts[k - 1], ss[k]);
      WriterStays(ss[k - 1], acts[k - 1], ss[k], t, c);
    }
  }

  /** At most one commit thread ever waits for and writes back a TXG. */
  lemma OneWriter(ss: seq<State>, acts: seq<Act>, j: nat, k: nat, c: nat, d: nat, t: nat)
    requires Run(ss, acts) && j <= k < |ss| && WritesBack(ss[j], c, t) && WritesBack(ss[k], d, t)
    ensures c == d
  {
    WriterForever(ss, acts, j, k, c, t);
    WriterForever(ss, acts, k, k, d, t);
  }

  // -------------------------------------------------- two live TXGs at most

  /** At most two TXGs are live, with consecutive numbers. */
  lemma LiveAreConsecutive(ss: seq<State>, acts: seq<Act>, k: nat, x: nat, y: nat, z: nat)
    requires Run(ss, acts) && k < |ss|
    requires forall v | v in {x, y, z} :: v in ss[k].txgs && LiveTxg(ss[k], v)
    ensures x == y || y == z || x == z
    ensures var n, m := ss[k].txgs[x].num, ss[k].txgs[y].num; x != y ==> n == m + 1 || m == n + 1
  {
    RunKeepsInv(ss, acts, k);
    var s := ss[k];
    assert x in {x, y, z} && y in {x, y, z} && z in {x, y, z};
    assert TxgOk(s, x) && TxgOk(s, y) && TxgOk(s, z);
    hide TxgOk, ReqOk, ItbOk, ComOk, Run;
  }

  /** What requests hold is live: two held TXGs have the same number exactly if
      they are the same, and differ by at most one. */
  lemma HeldAreLive(ss: seq<State>, acts: seq<Act>, k: nat, r: nat, q: nat, x: nat, y: nat)
    requires Run(ss, acts) && k < |ss| && r in ss[k].req && q in ss[k].req
    requires Holds(ss[k].req[r], x) && Holds(ss[k].req[q], y)
    ensures x in ss[k].txgs && y in ss[k].txgs && LiveTxg(ss[k], x) && LiveTxg(ss[k], y)
    ensures var n, m := ss[k].txgs[x].num, ss[k].txgs[y].num; (n == m <==> x == y) && n <= m + 1 && m <= n + 1
  {
    RunKeepsInv(ss, acts, k);
    hide Run, Inv, Holds;
    HeldIsTrusted(ss[k], r, x);
    HeldIsTrusted(ss[k], q, y);
    LiveAreConsecutive(ss, acts, k, x, y, y);
  }

  // --------------------------------------------------- itb_dirty, all cases

  /** The four cases of itb_dirty leave nothing out, the ITB is never COWED in
      them, and the branch for ITBs two or more TXGs old sees only clean ones. */
  lemma DirtyCasesExhaustive(ss: seq<State>, acts: seq<Act>, k: nat, r: nat, i: nat)
    requires Run(ss, acts) && k < |ss| && Reaches(ss[k], r, i)
    ensures var n, b := ss[k].txgs[ss[k].req[r].t].num, ss[k].itbs[i];
            || n == b.txg
            || (n == b.txg + 1 && (b.state == Clean || b.state == Dirty))
            || (n > b.txg + 1 && b.state == Clean && b.place == Nowhere)
            || n + 1 == b.txg
  {
    RunKeepsInv(ss, acts, k);
    var s := ss[k];
    assert ReqOk(s, r) && ItbOk(s, i);
    TrustedNumber(s, s.req[r].t);
    if s.itbs[i].place != Nowhere { LinkedNumber(s, i); }
  }

  /** A reachable DIRTY ITB is on the dirty list of the live TXG of its number,
      in the hand of the thread that commits that TXG, or about to be listed by
      the request that copied it, which holds that TXG. */
  lemma DirtyWillCommit(ss: seq<State>, acts: seq<Act>, k: nat, i: nat)
    requires Run(ss, acts) && k < |ss| && i in ss[k].itbs && ss[k].itbs[i].hashed && ss[k].itbs[i].state == Dirty
    ensures exists x: nat :: x in ss[k].txgs && LiveTxg(ss[k], x) && ss[k].txgs[x].num == ss[k].itbs[i].txg
              && (|| i in ss[k].txgs[x].dirty
                  || (exists c: nat :: c in ss[k].com && ss[k].com[c] == CHand(x, i))
                  || (exists r: nat :: r in ss[k].req && ss[k].req[r] == Won(x, i)))
  {
    RunKeepsInv(ss, acts, k);
    var s := ss[k];
    assert ItbOk(s, i);
    match s.itbs[i].place
    case OnList(x) => assert TxgOk(s, x); assert LiveTxg(s, x);
    case InHand(c) => assert ComOk(s, c); assert LiveTxg(s, s.com[c].t);
    case WonBy(r) => assert ReqOk(s, r); assert LiveTxg(s, s.req[r].t);
  }

  /** Whenever txg_add_itb is called the ITB is on no list: its test is never needed. */
  lemma AddsOnlyUnlinked(ss: seq<State>, acts: seq<Act>, k: nat)
    requires Run(ss, acts) && k < |acts|
    ensures acts[k].Access? ==>
              var s, r, i := ss[k], acts[k].r, acts[k].i;
              && Reaches(s, r, i)
              && (s.txgs[s.req[r].t].num != s.itbs[i].txg || s.itbs[i].state == Clean ==> s.itbs[i].place == Nowhere)
    ensures acts[k].Relock? ==>
              var s, r := ss[k], acts[k].r;
              r in s.req && s.req[r].Won? && s.req[r].i in s.itbs && s.itbs[s.req[r].i].place == WonBy(r)
  {
    hide Init, Next, Inv;
    RunKeepsInv(ss, acts, k);
    assert Next(ss[k], acts[k], ss[k + 1]);
    AddCalls(ss[k], acts[k], ss[k + 1]);
    if acts[k].Access? { RenumbersOnlyClean(ss[k], acts[k].r, acts[k].i); }
    if acts[k].Relock? { WonIsUnlinked(ss[k], acts[k].r); }
  }

  lemma AddCalls(s: State, a: Act, s': State)
    requires Next(s, a, s')
    ensures a.Access? ==> Reaches(s, a.r, a.i) && Keeps(s, s.req[a.r].t, a.i)
    ensures a.Relock? ==> a.r in s.req && s.req[a.r].Won?
  {
    hide Edit, Formed, Recopy, HoldsLock, Touch;
  }

  lemma WonIsUnlinked(s: State, r: nat)
    requires Inv(s) && r in s.req && s.req[r].Won?
    ensures s.req[r].i in s.itbs && s.itbs[s.req[r].i].place == WonBy(r)
  {
    assert ReqOk(s, r);
  }

  // --------------------------------------------- no TXG is committed for nothing

  /** The TXG that is being demoted has a dirty ITB. */
  predicate WorthIt(s: State) {
    s.open in s.txgs && ((s.sw.SInc? || s.sw.SNum? || s.sw.SHeld?) ==> s.txgs[s.open].dirty != [])
  }

  /** Dirty lists do not get shorter, and slots and switcher stay. */
  predicate Lengthens(s: State, s': State) {
    && s'.open == s.open && s'.sw == s.sw && s'.txgs.Keys == s.txgs.Keys
    && forall x | x in s.txgs :: |s'.txgs[x].dirty| >= |s.txgs[x].dirty|
  }

  lemma ReqLengthens(s: State, a: Act, s': State)
    requires ReqNext(s, a, s')
    ensures Lengthens(s, s')
  {
    hide Keeps, Edit, Formed;
  }

  lemma CowLengthens(s: State, a: Act, s': State)
    requires CowNext(s, a, s')
    ensures Lengthens(s, s')
  {
    hide Recopy, HoldsLock, Keeps, Reaches, Edit;
  }

  lemma RebindLengthens(s: State, a: Act, s': State)
    requires RebindNext(s, a, s')
    ensures Lengthens(s, s')
  {
    hide AssertsHold, Reaches, Edit;
  }

  lemma LongerWorth(s: State, s': State)
    requires WorthIt(s) && Lengthens(s, s')
    ensures WorthIt(s')
  {
  }

  lemma SwWorth(s: State, a: Act, s': State)
    requires WorthIt(s) && SwNext(s, a, s')
    ensures s'.open in s'.txgs ==> WorthIt(s')
  {
  }

  lemma ComWorth(s: State, a: Act, s': State)
    requires Inv(s) && WorthIt(s) && ComNext(s, a, s')
    ensures WorthIt(s')
  {
    if a.CTake? { assert ComOk(s, a.c); }
    hide TxgOk, ItbOk, ReqOk;
  }

  lemma NextWorth(s: State, a: Act, s': State)
    requires Inv(s) && WorthIt(s) && Next(s, a, s')
    ensures s'.open in s'.txgs ==> WorthIt(s')
  {
    hide Inv, WorthIt, Lengthens, ReqNext, CowNext, RebindNext, SwNext, ComNext;
    if ReqNext(s, a, s') {
      ReqLengthens(s, a, s');
      LongerWorth(s, s');
    } else if CowNext(s, a, s') {
      CowLengthens(s, a, s');
      LongerWorth(s, s');
    } else if RebindNext(s, a, s') {
      RebindLengthens(s, a, s');
      LongerWorth(s, s');
    } else if SwNext(s, a, s') {
      SwWorth(s, a, s');
    } else {
      ComWorth(s, a, s');
    }
  }

  lemma {:induction false} RunWorth(ss: seq<State>, acts: seq<Act>, k: nat)
    requires Run(ss, acts) && k < |ss|
    ensures WorthIt(ss[k])
  {
    hide Next;
    RunKeepsInv(ss, acts, k);
    if k > 0 {
      RunWorth(ss, acts, k - 1);
      RunKeepsInv(ss, acts, k - 1);
      assert Next(ss[k - 1], acts[k - 1], ss[k]);
      NextWorth(ss[k - 1], acts[k - 1], ss[k]);
    }
  }

  /** Only a TXG with a dirty ITB is ever demoted. */
  lemma DemotedIsDirty(ss: seq<State>, acts: seq<Act>, k: nat)
    requires Run(ss, acts) && k < |acts| && acts[k] == SwWb
    ensures ss[k].open in ss[k].txgs && ss[k].txgs[ss[k].open].dirty != [] && ss[k + 1].wb == Some(ss[k].open)
  {
    hide ReqNext, CowNext, RebindNext, ComNext, Init;
    RunWorth(ss, acts, k);
    assert Next(ss[k], acts[k], ss[k + 1]);
    NotByOthers(ss[k], acts[k], ss[k + 1]);
  }

  lemma NotByOthers(s: State, a: Act, s': State)
    requires Next(s, a, s') && a == SwWb
    ensures SwNext(s, a, s')
  {
    hide SwNext;
  }

  /** What a win replaces is a reachable DIRTY ITB of the TXG before the winner's,
      which that TXG still commits and so frees; what it puts in its place belongs
      to the winner's TXG and to the winner, which lists it. */
  lemma WinTakesDirty(ss: seq<State>, acts: seq<Act>, k: nat)
    requires Run(ss, acts) && k < |acts| && acts[k].CowWin?
    ensures var s, s', r, n := ss[k], ss[k + 1], acts[k].r, acts[k].n;
            && r in s.req && s.req[r].Copying? && s.req[r].t in s.txgs && s.req[r].i in s.itbs && n !in s.itbs
            && var t, i := s.req[r].t, s.req[r].i;
            && s.itbs[i].hashed && s.itbs[i].state == Dirty && s.itbs[i].txg + 1 == s.txgs[t].num
            && (exists x: nat :: x in s.txgs && LiveTxg(s, x) && s.txgs[x].num == s.itbs[i].txg
                  && (|| i in s.txgs[x].dirty
                      || (exists c: nat :: c in s.com && s.com[c] == CHand(x, i))
                      || (exists q: nat :: q in s.req && s.req[q] == Won(x, i))))
            && s'.itbs.Keys == s.itbs.Keys + {n} && s'.itbs[i] == s.itbs[i].(state := Cowed, hashed := false)
            && s'.itbs[n] == ItbRec(s.txgs[t].num, Dirty, true, WonBy(r), s'.itbs[n].body)
            && s'.req == s.req[r := Won(t, n)] && s'.txgs == s.txgs && s'.com == s.com
  {
    hide Init, Next;
    WinStep(ss[k], acts[k], ss[k + 1]) by { assert Next(ss[k], acts[k], ss[k + 1]); }
    DirtyWillCommit(ss, acts, k, ss[k].req[acts[k].r].i);
  }

  lemma WinStep(s: State, a: Act, s': State)
    requires Next(s, a, s') && a.CowWin?
    ensures a.r in s.req && s.req[a.r].Copying? && s.req[a.r].t in s.txgs && s.req[a.r].i in s.itbs && a.n !in s.itbs
    ensures var t, i, n := s.req[a.r].t, s.req[a.r].i, a.n;
            && s.itbs[i].hashed && s.itbs[i].state == Dirty && s.itbs[i].txg + 1 == s.txgs[t].num
            && s'.itbs.Keys == s.itbs.Keys + {n} && s'.itbs[i] == s.itbs[i].(state := Cowed, hashed := false)
            && s'.itbs[n] == ItbRec(s.txgs[t].num, Dirty, true, WonBy(a.r), s'.itbs[n].body)
            && s'.req == s.req[a.r := Won(t, n)] && s'.txgs == s.txgs && s'.com == s.com
  {
    hide Recopy, HoldsLock;
  }

  // ------------------------------------------------- nothing misses a commit

  /** Every live TXG is numbered above n. */
  predicate Past(s: State, n: nat) {
    && s.open in s.txgs && n <= s.txgs[s.open].num && (s.txgs[s.open].state == Open ==> n < s.txgs[s.open].num)
    && (s.wb.Some? ==> s.wb.value in s.txgs && n < s.txgs[s.wb.value].num)
  }

  /** The TXG that an ITB with a dirty-list link, or about to get one, will be committed with. */
  lemma CommitTxg(s: State, i: nat) returns (x: nat)
    requires Inv(s) && i in s.itbs && s.itbs[i].place != Nowhere
    ensures x in s.txgs && LiveTxg(s, x) && s.txgs[x].num == s.itbs[i].txg
  {
    assert ItbOk(s, i);
    match s.itbs[i].place
    case OnList(y) => assert TxgOk(s, y); x := y;
    case InHand(c) => assert ComOk(s, c); x := s.com[c].t;
    case WonBy(r) => assert ReqOk(s, r); x := s.req[r].t;
  }

  lemma PastIsClean(s: State, n: nat, i: nat)
    requires Inv(s) && Past(s, n) && i in s.itbs && s.itbs[i].hashed && s.itbs[i].txg <= n
    ensures s.itbs[i].state == Clean
  {
    assert ItbOk(s, i);
    hide Inv;
    if s.itbs[i].place != Nowhere { var x := CommitTxg(s, i); }
  }

  lemma PastStays(s: State, a: Act, s': State, n: nat)
    requires Inv(s) && Next(s, a, s') && Past(s, n)
    ensures Past(s', n)
  {
    hide Inv, ReqNext, CowNext, RebindNext, SwNext, ComNext, Past, Quiet;
    if SwNext(s, a, s') {
      PastSw(s, a, s', n);
    } else if ComNext(s, a, s') {
      PastCom(s, a, s', n);
    } else {
      RequestsAreQuiet(s, a, s');
      PastQuiet(s, s', n);
    }
  }

  lemma PastQuiet(s: State, s': State, n: nat)
    requires Quiet(s, s') && Past(s, n)
    ensures Past(s', n)
  {
  }

  lemma PastSw(s: State, a: Act, s': State, n: nat)
    requires Inv(s) && SwNext(s, a, s') && Past(s, n)
    ensures Past(s', n)
  {
    if s.sw.SPut? { assert TxgOk(s, s.sw.nt); }
    hide TxgOk, ReqOk, ItbOk, ComOk;
  }

  lemma PastCom(s: State, a: Act, s': State, n: nat)
    requires ComNext(s, a, s') && Past(s, n)
    ensures Past(s', n)
  {
  }

  lemma FinishIsPast(s: State, c: nat, s': State)
    requires Inv(s) && ComNext(s, CFinish(c), s')
    ensures s.com[c].t in s.txgs && Past(s', s.txgs[s.com[c].t].num)
  {
    assert ComOk(s, c);
    assert TxgOk(s, s.com[c].t);
  }

  lemma {:induction false} PastForever(ss: seq<State>, acts: seq<Act>, j: nat, k: nat, n: nat)
    requires Run(ss, acts) && j <= k < |ss| && Past(ss[j], n)
    ensures Past(ss[k], n)
  {
    hide Inv, Next, Past, Init;
    if j < k {
      PastForever(ss, acts, j, k - 1, n);
      RunKeepsInv(ss, acts, k - 1);
      assert Next(ss[k - 1], acts[k - 1], ss[k]);
      PastStays(ss[k - 1], acts[k - 1], ss[k], n);
    }
  }

  /** No dirtied ITB misses its commit: once the commit of the TXG numbered n has
      finished, every reachable ITB numbered n or less is CLEAN, for good. */
  lemma CommittedIsClean(ss: seq<State>, acts: seq<Act>, j: nat, k: nat, c: nat, i: nat)
    requires Run(ss, acts) && j < k < |ss| && acts[j] == CFinish(c)
    ensures c in ss[j].com && ss[j].com[c].CWrite? && ss[j].com[c].t in ss[j].txgs
    ensures i in ss[k].itbs && ss[k].itbs[i].hashed && ss[k].itbs[i].txg <= ss[j].txgs[ss[j].com[c].t].num
            ==> ss[k].itbs[i].state == Clean
  {
    RunKeepsInv(ss, acts, j);
    RunKeepsInv(ss, acts, k);
    assert Next(ss[j], acts[j], ss[j + 1]);
    assert ComNext(ss[j], CFinish(c), ss[j + 1]);
    FinishIsPast(ss[j], c, ss[j + 1]);
    hide Inv, Next, Init, Past;
    var n := ss[j].txgs[ss[j].com[c].t].num;
    PastForever(ss, acts, j + 1, k, n);
    if i in ss[k].itbs && ss[k].itbs[i].hashed && ss[k].itbs[i].txg <= n { PastIsClean(ss[k], n, i); }
  }

  // ---------------------------------------------------------- reassignment

  /** When mds_get_open_txg has returned the new TXG to a request that is being
      reassigned, that TXG bears the number of the ITB. */
  lemma ReassignedNumber(ss: seq<State>, acts: seq<Act>, k: nat, r: nat)
    requires Run(ss, acts) && k < |ss| && r in ss[k].req && ss[k].req[r].RebindPinned?
    ensures ss[k].req[r].nt in ss[k].txgs && ss[k].req[r].i in ss[k].itbs
    ensures ss[k].txgs[ss[k].req[r].nt].num == ss[k].itbs[ss[k].req[r].i].txg
  {
    RunKeepsInv(ss, acts, k);
    assert ReqOk(ss[k], r);
  }

  /** Both assertions that end the reassignment hold if the ITB was DIRTY when
      the request met it. */
  lemma ReassignmentAsserts(ss: seq<State>, acts: seq<Act>, k: nat, r: nat)
    requires Run(ss, acts) && k < |ss| && r in ss[k].req && ss[k].req[r].Rebound? && ss[k].req[r].dirty
    ensures ss[k].req[r].t in ss[k].txgs && ss[k].req[r].i in ss[k].itbs && AssertsHold(ss[k], r)
  {
    RunKeepsInv(ss, acts, k);
    assert ReqOk(ss[k], r);
  }

  // --------------------------------------------- writes to unreachable ITBs

  lemma ReqWrites(s: State, a: Act, s': State, i: nat)
    requires ReqNext(s, a, s') && i in s.itbs && !s.itbs[i].hashed
    ensures i in s'.itbs && s'.itbs[i].body == s.itbs[i].body
  {
    hide Edit, Formed, Keeps;
  }

  lemma CowWrites(s: State, a: Act, s': State, i: nat)
    requires CowNext(s, a, s') && i in s.itbs && !a.RefreshAccess?
    ensures i in s'.itbs && s'.itbs[i].body == s.itbs[i].body
  {
    hide Recopy, HoldsLock, Reaches, Edit;
  }

  lemma RebindWrites(s: State, a: Act, s': State, i: nat)
    requires Inv(s) && RebindNext(s, a, s') && i in s.itbs && !s.itbs[i].hashed
    ensures i in s'.itbs && s'.itbs[i].body == s.itbs[i].body
  {
    hide TxgOk, ComOk, SwOk, ItbOk, Trusted, RebindOk, Edit;
    if a.ReboundAccess? { assert ReqOk(s, a.r); }
  }

  lemma SwComWrites(s: State, a: Act, s': State, i: nat)
    requires (SwNext(s, a, s') || ComNext(s, a, s')) && i in s.itbs
    ensures i in s'.itbs && s'.itbs[i].body == s.itbs[i].body
  {
  }

  /** Only one step ever writes to an ITB that can no longer be reached: the one
      by which the winner of a COW re-enters its search. */
  lemma WritesAreReachable(ss: seq<State>, acts: seq<Act>, k: nat, i: nat)
    requires Run(ss, acts) && k < |acts| && i in ss[k].itbs && i in ss[k + 1].itbs
    requires ss[k + 1].itbs[i].body != ss[k].itbs[i].body
    ensures ss[k].itbs[i].hashed || (CowNext(ss[k], acts[k], ss[k + 1]) && acts[k].RefreshAccess?)
  {
    var s, a, s' := ss[k], acts[k], ss[k + 1];
    RunKeepsInv(ss, acts, k);
    assert Next(s, a, s');
    hide Inv, Run, ReqNext, CowNext, RebindNext, SwNext, ComNext;
    if !s.itbs[i].hashed {
      if ReqNext(s, a, s') { ReqWrites(s, a, s', i); }
      if CowNext(s, a, s') && !a.RefreshAccess? { CowWrites(s, a, s', i); }
      if RebindNext(s, a, s') { RebindWrites(s, a, s', i); }
      if SwNext(s, a, s') || ComNext(s, a, s') { SwComWrites(s, a, s', i); }
    }
  }
}
