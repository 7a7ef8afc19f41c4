/** When the winner of a copy-on-write writes to an ITB that no search reaches
    any more, and that it can happen whenever its TXG is no longer open. */
module TxgLost {
  import opened Common
  import opened ItbTable
  import opened ItbEdits
  import opened ItbCow
  import opened TxgModel
  import opened TxgInvariant
  import opened TxgSteps
  import opened TxgPaths

  // ---------------------------------- an unreachable ITB is behind the open TXG

  /** If ITB i cannot be reached, its number is below that of the open TXG. */
  predicate Behind(s: State, i: nat) {
    && s.open in s.txgs
    && (i in s.itbs && !s.itbs[i].hashed ==> s.itbs[i].txg < s.txgs[s.open].num)
  }

  lemma ReqBehind(s: State, a: Act, s': State, i: nat)
    requires Behind(s, i) && ReqNext(s, a, s')
    ensures Behind(s', i)
  {
    hide Edit, Formed, Keeps;
  }

  lemma CowBehind(s: State, a: Act, s': State, i: nat)
    requires Inv(s) && Behind(s, i) && CowNext(s, a, s')
    ensures Behind(s', i)
  {
    hide TxgOk, ComOk, SwOk, ItbOk, Edit, Recopy, HoldsLock;
    if a.CowWin? {
      assert ReqOk(s, a.r);
      TrustedNumber(s, s.req[a.r].t);
    } else if a.RefreshAccess? {
      assert ReqOk(s, a.r);
      assert ItbOk(s, s.req[a.r].i);
      OnListNumber(s, s.req[a.r].i);
    }
  }

  lemma OnListNumber(s: State, i: nat)
    requires s.open in s.txgs && i in s.itbs && ItbOk(s, i) && s.itbs[i].place.OnList?
    ensures s.itbs[i].place.x in s.txgs && s.itbs[i].txg == s.txgs[s.itbs[i].place.x].num
  {
  }

  lemma RebindBehind(s: State, a: Act, s': State, i: nat)
    requires Behind(s, i) && RebindNext(s, a, s')
    ensures Behind(s', i)
  {
    hide Edit, Reaches, AssertsHold;
  }

  lemma SwBehind(s: State, a: Act, s': State, i: nat)
    requires Inv(s) && Behind(s, i) && SwNext(s, a, s')
    ensures Behind(s', i)
  {
    if s.sw.SPut? { assert TxgOk(s, s.sw.nt); }
    hide TxgOk, ReqOk, ItbOk, ComOk;
  }

  lemma ComBehind(s: State, a: Act, s': State, i: nat)
    requires Behind(s, i) && ComNext(s, a, s')
    ensures Behind(s', i)
  {
  }

  lemma NextBehind(s: State, a: Act, s': State, i: nat)
    requires Inv(s) && Behind(s, i) && Next(s, a, s')
    ensures Behind(s', i)
  {
    hide Inv, Behind, ReqNext, CowNext, RebindNext, SwNext, ComNext;
    if ReqNext(s, a, s') { ReqBehind(s, a, s', i); }
    if CowNext(s, a, s') { CowBehind(s, a, s', i); }
    if RebindNext(s, a, s') { RebindBehind(s, a, s', i); }
    if SwNext(s, a, s') { SwBehind(s, a, s', i); }
    if ComNext(s, a, s') { ComBehind(s, a, s', i); }
  }

  lemma {:induction false} RunBehind(ss: seq<State>, acts: seq<Act>, k: nat, i: nat)
    requires Run(ss, acts) && k < |ss|
    ensures Behind(ss[k], i)
  {
    hide Inv, Next;
    if k > 0 {
      RunBehind(ss, acts, k - 1, i);
      RunKeepsInv(ss, acts, k - 1);
      assert Next(ss[k - 1], acts[k - 1], ss[k]);
      NextBehind(ss[k - 1], acts[k - 1], ss[k], i);
    }
  }

  /** As long as its TXG is the open one, the winner of a copy still has an ITB
      that every search reaches, whatever the others did since its win. */
  lemma OpenWinnerReaches(ss: seq<State>, acts: seq<Act>, k: nat, r: nat)
    requires Run(ss, acts) && k < |ss| && r in ss[k].req && (ss[k].req[r].Won? || ss[k].req[r].Refresh?)
    requires ss[k].req[r].t == ss[k].open
    ensures ss[k].req[r].i in ss[k].itbs && ss[k].itbs[ss[k].req[r].i].hashed
  {
    RunKeepsInv(ss, acts, k);
    RunBehind(ss, acts, k, ss[k].req[r].i);
    assert ReqOk(ss[k], r);
    assert ItbOk(ss[k], ss[k].req[r].i);
  }

  // ------------------------------------------------- which copies take an ITB

  /** The step is a win that copies ITB i. */
  predicate Takes(s: State, a: Act, i: nat) {
    a.CowWin? && a.r in s.req && s.req[a.r].Copying? && s.req[a.r].i == i
  }

  lemma CowHashes(s: State, a: Act, s': State, i: nat)
    requires CowNext(s, a, s') && i in s.itbs
    ensures i in s'.itbs && (s'.itbs[i].hashed <==> s.itbs[i].hashed && !Takes(s, a, i))
  {
    hide Edit, Recopy, HoldsLock, Reaches, Keeps;
  }

  lemma ReqHashes(s: State, a: Act, s': State, i: nat)
    requires ReqNext(s, a, s') && i in s.itbs
    ensures i in s'.itbs && s'.itbs[i].hashed == s.itbs[i].hashed && !a.CowWin?
  {
    hide Edit, Formed, Keeps;
  }

  lemma RebindHashes(s: State, a: Act, s': State, i: nat)
    requires RebindNext(s, a, s') && i in s.itbs
    ensures i in s'.itbs && s'.itbs[i].hashed == s.itbs[i].hashed && !a.CowWin?
  {
    hide Edit, AssertsHold, Reaches;
  }

  lemma SwComHashes(s: State, a: Act, s': State, i: nat)
    requires (SwNext(s, a, s') || ComNext(s, a, s')) && i in s.itbs
    ensures i in s'.itbs && s'.itbs[i].hashed == s.itbs[i].hashed && !a.CowWin?
  {
  }

  lemma NextHashes(s: State, a: Act, s': State, i: nat)
    requires Next(s, a, s') && i in s.itbs
    ensures i in s'.itbs && (s'.itbs[i].hashed <==> s.itbs[i].hashed && !Takes(s, a, i))
  {
    hide ReqNext, CowNext, RebindNext, SwNext, ComNext;
    if CowNext(s, a, s') {
      CowHashes(s, a, s', i);
    } else if ReqNext(s, a, s') {
      ReqHashes(s, a, s', i);
    } else if RebindNext(s, a, s') {
      RebindHashes(s, a, s', i);
    } else {
      SwComHashes(s, a, s', i);
    }
  }

  /** After its win the copy can be reached exactly as long as no other win took it. */
  lemma {:induction false} ReachedUnlessTaken(ss: seq<State>, acts: seq<Act>, j: nat, k: nat, i: nat)
    requires Run(ss, acts) && j <= k < |ss| && i in ss[j].itbs && ss[j].itbs[i].hashed
    ensures i in ss[k].itbs
    ensures ss[k].itbs[i].hashed <==> forall m | j <= m < k :: !Takes(ss[m], acts[m], i)
  {
    hide Next, Takes, Init;
    if j < k {
      ReachedUnlessTaken(ss, acts, j, k - 1, i);
      assert Next(ss[k - 1], acts[k - 1], ss[k]);
      NextHashes(ss[k - 1], acts[k - 1], ss[k], i);
    }
  }

  lemma WinBegins(s: State, a: Act, s': State)
    requires Next(s, a, s') && a.CowWin?
    ensures a.n !in s.itbs && a.n in s'.itbs && s'.itbs[a.n].hashed && a.r in s'.req && s'.req[a.r].Won? && s'.req[a.r].i == a.n
  {
    hide Recopy, HoldsLock;
  }

  /** Request r has won ITB i and not yet written to it. */
  predicate Winner(s: State, r: nat, i: nat) {
    r in s.req && (s.req[r].Won? || s.req[r].Refresh?) && s.req[r].i == i
  }

  lemma ReqWinner(s: State, a: Act, s': State, r: nat, i: nat)
    requires ReqNext(s, a, s') && Winner(s', r, i) && i in s.itbs
    ensures Winner(s, r, i)
  {
    hide Edit, Formed, TxgModel.Keeps, Reaches;
  }

  lemma CowWinner(s: State, a: Act, s': State, r: nat, i: nat)
    requires CowNext(s, a, s') && Winner(s', r, i) && i in s.itbs
    ensures Winner(s, r, i)
  {
    hide Edit, Recopy, HoldsLock, TxgModel.Keeps, Reaches;
  }

  lemma RebindWinner(s: State, a: Act, s': State, r: nat, i: nat)
    requires RebindNext(s, a, s') && Winner(s', r, i) && i in s.itbs
    ensures Winner(s, r, i)
  {
    hide Edit, AssertsHold, Reaches;
  }

  /** Who is a winner of an ITB that was there before was one before. */
  lemma WinnerBefore(s: State, a: Act, s': State, r: nat, i: nat)
    requires Next(s, a, s') && Winner(s', r, i) && i in s.itbs
    ensures Winner(s, r, i)
  {
    hide ReqNext, CowNext, RebindNext, Winner;
    if ReqNext(s, a, s') {
      ReqWinner(s, a, s', r, i);
    } else if CowNext(s, a, s') {
      CowWinner(s, a, s', r, i);
    } else if RebindNext(s, a, s') {
      RebindWinner(s, a, s', r, i);
    } else {
      OtherWinner(s, a, s', r, i);
    }
  }

  lemma OtherWinner(s: State, a: Act, s': State, r: nat, i: nat)
    requires (SwNext(s, a, s') || ComNext(s, a, s')) && Winner(s', r, i)
    ensures Winner(s, r, i)
  {
  }

  lemma {:induction false} WinnerSince(ss: seq<State>, acts: seq<Act>, m: nat, k: nat, r: nat, i: nat)
    requires Run(ss, acts) && m <= k < |ss| && Winner(ss[k], r, i) && i in ss[m].itbs
    ensures Winner(ss[m], r, i)
    decreases k - m
  {
    hide Next, Init, Winner;
    if m < k {
      assert Next(ss[m], acts[m], ss[m + 1]);
      NextHashes(ss[m], acts[m], ss[m + 1], i);
      WinnerSince(ss, acts, m + 1, k, r, i);
      WinnerBefore(ss[m], acts[m], ss[m + 1], r, i);
    }
  }

  /** No win takes an ITB whose lock a request holds. */
  lemma TakesUnlocked(s: State, a: Act, s': State, r: nat, i: nat)
    requires Next(s, a, s') && Takes(s, a, i) && Winner(s, r, i)
    ensures s.req[r].Won?
  {
    hide Recopy;
  }

  /** The update that a winner makes when it re-enters its search is lost exactly
      if some other request has copied the new ITB since the win, and that must
      have been before the winner took the ITB's lock again. */
  lemma UpdateLostIff(ss: seq<State>, acts: seq<Act>, j: nat, k: nat)
    requires Run(ss, acts) && j < k < |acts| && acts[j].CowWin? && acts[k].RefreshAccess? && acts[k].r == acts[j].r
    requires acts[k].r in ss[k].req && ss[k].req[acts[k].r].Refresh? && ss[k].req[acts[k].r].i == acts[j].n
    ensures acts[j].n in ss[k].itbs
    ensures !ss[k].itbs[acts[j].n].hashed <==> exists m :: j < m < k && Takes(ss[m], acts[m], acts[j].n)
    ensures forall m | j < m < k && Takes(ss[m], acts[m], acts[j].n) :: acts[j].r in ss[m].req && ss[m].req[acts[j].r].Won?
    ensures !ss[k].itbs[acts[j].n].hashed ==> ss[k].req[acts[k].r].t != ss[k].open
  {
    hide Next, Takes, Init;
    assert Next(ss[j], acts[j], ss[j + 1]);
    WinBegins(ss[j], acts[j], ss[j + 1]);
    ReachedUnlessTaken(ss, acts, j + 1, k, acts[j].n);
    if ss[k].req[acts[k].r].t == ss[k].open { OpenWinnerReaches(ss, acts, k, acts[k].r); }
    forall m | j < m < k && Takes(ss[m], acts[m], acts[j].n) ensures acts[j].r in ss[m].req && ss[m].req[acts[j].r].Won? {
      StaysThere(ss, acts, j + 1, m, acts[j].n);
      WinnerSince(ss, acts, m, k, acts[j].r, acts[j].n);
      assert Next(ss[m], acts[m], ss[m + 1]);
      TakesUnlocked(ss[m], acts[m], ss[m + 1], acts[j].r, acts[j].n);
    }
  }

  lemma {:induction false} StaysThere(ss: seq<State>, acts: seq<Act>, j: nat, m: nat, i: nat)
    requires Run(ss, acts) && j <= m < |ss| && i in ss[j].itbs
    ensures i in ss[m].itbs
  {
    hide Next, Init;
    if j < m {
      StaysThere(ss, acts, j, m - 1, i);
      assert Next(ss[m - 1], acts[m - 1], ss[m]);
      NextHashes(ss[m - 1], acts[m - 1], ss[m], i);
    }
  }

  // --------------------------------------------- and it can always be taken

  /** What is known of a winner whose TXG is no longer open. */
  lemma LateWinner(s: State, r: nat)
    requires Inv(s) && r in s.req && s.req[r].Won? && s.req[r].t != s.open
    ensures s.req[r].t in s.txgs && s.req[r].i in s.itbs && s.open in s.txgs && s.txgs[s.open].state == Open
    ensures s.itbs[s.req[r].i].place == WonBy(r) && s.itbs[s.req[r].i].txg == s.txgs[s.req[r].t].num
    ensures s.txgs[s.open].num == s.itbs[s.req[r].i].txg + 1 && s.itbs[s.req[r].i].state != Clean
    ensures s.itbs[s.req[r].i].hashed ==> s.itbs[s.req[r].i].state == Dirty
  {
    assert ReqOk(s, r);
    assert ItbOk(s, s.req[r].i);
  }

  lemma {:induction false} Unused(itbs: map<nat, ItbRec>) returns (n: nat)
    ensures n !in itbs
  {
    n := 0;
    ghost var seen: set<nat> := {};
    while n in itbs
      invariant seen <= itbs.Keys && forall x: nat | x in seen :: x < n
      invariant |seen| == n
      decreases |itbs.Keys| - n
    {
      seen := seen + {n};
      Subset(seen, itbs.Keys);
      n := n + 1;
    }
  }

  /** Once the TXG of a winner is no longer open, a request that is idle or holds
      the open TXG can still copy the winner's new ITB in the window between its
      locks, and the winner then puts its update, whatever it is, where no search
      finds it. */
  lemma LateWinnerCanLose(s: State, r: nat, z: nat, body: Tab) returns (d: State, e: State)
    requires Inv(s) && r in s.req && s.req[r].Won? && s.req[r].t != s.open && s.req[r].i in s.itbs
    requires z in s.req && (s.req[z] == Idle || s.req[z] == Pinned(s.open))
    requires forall q | q in s.req :: !HoldsLock(s.req[q], s.req[r].i)
    requires Edit(s.itbs[s.req[r].i].body, body)
    ensures Leads(s, d) && CowNext(d, RefreshAccess(r, body), e)
    ensures s.req[r].i in d.itbs && !d.itbs[s.req[r].i].hashed
    ensures s.req[r].i in e.itbs && e.itbs[s.req[r].i].body == body
  {
    hide Inv, Edit, Leads, Recopy;
    LateWinner(s, r);
    Here(s);
    var t, i := s.req[r].t, s.req[r].i;
    var c := s;
    if s.itbs[i].hashed { c := TakeIt(s, r, z); }
    d := SetReq(AddItb(c, t, i), r, Refresh(t, i));
    ByCow(s, c, Relock(r), d);
    e := SetReq(Touch(d, t, i, body), r, Pinned(t));
  }

  /** Such a request copies the ITB of a late winner. */
  lemma TakeIt(s: State, r: nat, z: nat) returns (c: State)
    requires Inv(s) && r in s.req && s.req[r].Won? && s.req[r].t != s.open && s.req[r].i in s.itbs
    requires s.itbs[s.req[r].i].hashed
    requires z in s.req && (s.req[z] == Idle || s.req[z] == Pinned(s.open))
    requires forall q | q in s.req :: !HoldsLock(s.req[q], s.req[r].i)
    ensures Leads(s, c) && c.txgs.Keys == s.txgs.Keys && (forall x | x in s.txgs :: c.txgs[x].num == s.txgs[x].num)
    ensures r in c.req && c.req[r] == s.req[r] && s.req[r].i in c.itbs
    ensures c.itbs[s.req[r].i] == s.itbs[s.req[r].i].(state := Cowed, hashed := false)
  {
    hide Inv, Leads, Recopy;
    LateWinner(s, r);
    Here(s);
    var i := s.req[r].i;
    var a := s;
    if s.req[z] == Idle { a := Pin(s, s, z); }
    var b := Begin(s, a, z, i);
    var n := Unused(s.itbs);
    forall q | q in b.req ensures !HoldsLock(b.req[q], i) {
      if q != z { assert b.req[q] == s.req[q]; }
    }
    c := Win(s, b, z, n, s.itbs[i].body.ite);
  }
}
