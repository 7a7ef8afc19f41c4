/** What the threads of the TXG protocol get done: a request that reaches an ITB
    is served by the case of itb_dirty that its number calls for, and a commit
    thread, the switcher and a request finish what they have begun by their own
    steps alone. */
module TxgProgress {
  import opened Common
  import opened ItbTable
  import opened ItbEdits
  import opened ItbCow
  import opened TxgModel
  import opened TxgInvariant
  import opened TxgSteps
  import opened TxgPaths

  // ------------------------------------------------ every access is served

  /** Nothing changed but ITB i and dirty lists. */
  predicate OnlyItb(s: State, s': State, i: nat) {
    && s'.itbs.Keys == s.itbs.Keys && (forall j | j in s.itbs && j != i :: s'.itbs[j] == s.itbs[j])
    && s'.txgs.Keys == s.txgs.Keys && (forall x | x in s.txgs :: s'.txgs[x] == s.txgs[x].(dirty := s'.txgs[x].dirty))
    && s'.req == s.req && s'.com == s.com && s'.sw == s.sw && s'.open == s.open && s'.wb == s.wb && s'.mi == s.mi
  }

  /** ITB i is dirty in TXG t, holds body, and will be committed with t: it is on
      the dirty list of t, or will be put there by the request that copied it. */
  predicate DirtyIn(s: State, t: nat, i: nat, body: Tab) {
    && t in s.txgs && i in s.itbs
    && s.itbs[i] == ItbRec(s.txgs[t].num, Dirty, true, s.itbs[i].place, body)
    && match s.itbs[i].place
       case OnList(x) => x == t && i in s.txgs[t].dirty
       case WonBy(q) => q in s.req && s.req[q] == Won(t, i)
       case _ => false
  }

  /** The dirty list of t has grown by ITB i, at its end, if i was on no list. */
  predicate Enlists(s: State, t: nat, i: nat, s': State) {
    && t in s.txgs && t in s'.txgs && i in s.itbs
    && s'.txgs == s.txgs[t := s.txgs[t].(dirty := s.txgs[t].dirty + if s.itbs[i].place == Nowhere then [i] else [])]
  }

  /** Live TXGs of one number are the same. */
  lemma OneOfNumber(s: State, x: nat, y: nat)
    requires Inv(s) && Known(s, x) && Known(s, y) && LiveTxg(s, x) && LiveTxg(s, y) && s.txgs[x].num == s.txgs[y].num
    ensures x == y
  {
    assert TxgOk(s, x) && TxgOk(s, y);
  }

  /** The TXG that a dirty ITB is linked with is live and of its number. */
  lemma LinkedTxg(s: State, i: nat)
    requires Inv(s) && i in s.itbs && s.itbs[i].hashed && s.itbs[i].state == Dirty
    ensures var b := s.itbs[i];
            match b.place
            case OnList(x) => Known(s, x) && LiveTxg(s, x) && s.txgs[x].num == b.txg && i in s.txgs[x].dirty
            case InHand(c) =>
              && c in s.com && s.com[c].CHand? && Known(s, s.com[c].t) && LiveTxg(s, s.com[c].t)
              && s.txgs[s.com[c].t].num == b.txg && Drained(s, s.com[c].t)
            case WonBy(q) =>
              && q in s.req && s.req[q].Won? && s.req[q].i == i && Known(s, s.req[q].t) && LiveTxg(s, s.req[q].t)
              && s.txgs[s.req[q].t].num == b.txg
            case Nowhere => false
  {
    assert ItbOk(s, i);
    match s.itbs[i].place
    case OnList(x) => assert TxgOk(s, x);
    case InHand(c) => assert ComOk(s, c) && TxgOk(s, s.com[c].t);
    case WonBy(q) => assert ReqOk(s, q);
    case Nowhere =>
  }

  /** A dirty ITB that a pinned request reaches under its own number is linked to its TXG. */
  lemma DirtyIsLinked(s: State, r: nat, i: nat)
    requires Inv(s) && Reaches(s, r, i) && s.itbs[i].state == Dirty && s.itbs[i].txg == s.txgs[s.req[r].t].num
    ensures DirtyIn(s, s.req[r].t, i, s.itbs[i].body)
  {
    hide Inv, LiveTxg, Private;
    var t := s.req[r].t;
    PinnedTxg(s, r);
    LinkedTxg(s, i);
    match s.itbs[i].place
    case OnList(x) => OneOfNumber(s, x, t);
    case InHand(c) => OneOfNumber(s, s.com[c].t, t);
    case WonBy(q) => OneOfNumber(s, s.req[q].t, t);
    case Nowhere =>
  }

  /** What an access does. */
  lemma AccessDoes(s: State, r: nat, i: nat, body: Tab, s': State)
    requires Inv(s) && Reaches(s, r, i) && ReqNext(s, Access(r, i, body), s')
    ensures OnlyItb(s, s', i) && DirtyIn(s', s.req[r].t, i, body) && Enlists(s, s.req[r].t, i, s')
  {
    hide Inv, Edit, Formed;
    RenumbersOnlyClean(s, r, i);
    PinnedTxg(s, r);
    if s.itbs[i].state == Dirty { DirtyIsLinked(s, r, i); }
    assert s.txgs[s.req[r].t].dirty + [] == s.txgs[s.req[r].t].dirty;
  }

  lemma PinnedTxg(s: State, r: nat)
    requires Inv(s) && r in s.req && s.req[r].Pinned?
    ensures Trusted(s, s.req[r].t) && s.req[r].t in s.txgs
  {
    assert ReqOk(s, r);
  }

  /** Every access to a reachable ITB is served, by one case of itb_dirty and no
      other.  The ITB of this TXG, a clean one of the TXG before and every older
      one become dirty in this TXG and take the update; a dirty one of the TXG
      before is copied, with its header as it is; one of the next TXG moves the
      request there. */
  lemma AccessIsServed(ss: seq<State>, acts: seq<Act>, k: nat, r: nat, i: nat, body: Tab)
    requires Run(ss, acts) && k < |ss| && Reaches(ss[k], r, i) && Edit(ss[k].itbs[i].body, body)
    ensures var s, t := ss[k], ss[k].req[r].t;
            var n, b := s.txgs[t].num, s.itbs[i];
            && ((b.txg == n || (b.txg + 1 == n && b.state == Clean) || b.txg + 1 < n) <==>
                  exists s' :: Next(s, Access(r, i, body), s'))
            && (forall s' | Next(s, Access(r, i, body), s') :: OnlyItb(s, s', i) && DirtyIn(s', t, i, body) && Enlists(s, t, i, s'))
            && ((b.txg + 1 == n && b.state == Dirty) <==> exists s' :: Next(s, CowBegin(r, i), s'))
            && (forall s' | Next(s, CowBegin(r, i), s') :: s' == s.(req := s.req[r := Copying(t, i, b.body.h)]))
            && (b.txg == n + 1 <==> exists s' :: Next(s, RebindBegin(r, i), s'))
            && (forall s' | Next(s, RebindBegin(r, i), s') :: s' == s.(req := s.req[r := Rebind(t, i, b.state == Dirty)]))
            && (b.txg <= n + 1 && (b.state == Clean || b.state == Dirty))
  {
    hide Inv, Edit, Next, Run, OnlyItb, DirtyIn, Enlists;
    RunKeepsInv(ss, acts, k);
    InNumbers(ss[k], r, i);
    TakesUpdate(ss[k], r, i, body);
    forall s' | Next(ss[k], Access(r, i, body), s')
      ensures OnlyItb(ss[k], s', i) && DirtyIn(s', ss[k].req[r].t, i, body) && Enlists(ss[k], ss[k].req[r].t, i, s')
    {
      AccessIsReq(ss[k], Access(r, i, body), s');
      AccessDoes(ss[k], r, i, body, s');
    }
    StartsCopy(ss[k], r, i);
    StartsRebind(ss[k], r, i);
  }

  /** A winner that has listed its copy and re-enters its search is served in any
      case: the copy takes the update and is dirty in the winner's TXG. */
  lemma RefreshIsServed(ss: seq<State>, acts: seq<Act>, k: nat, r: nat, body: Tab)
    requires Run(ss, acts) && k < |ss| && r in ss[k].req && ss[k].req[r].Refresh?
    ensures var s, t, i := ss[k], ss[k].req[r].t, ss[k].req[r].i;
            && t in s.txgs && i in s.itbs
            && (Edit(s.itbs[i].body, body) <==> exists s' :: Next(s, RefreshAccess(r, body), s'))
            && (forall s' | Next(s, RefreshAccess(r, body), s') ::
                  && i in s'.itbs && s'.itbs[i] == ItbRec(s.txgs[t].num, Dirty, s.itbs[i].hashed, OnList(t), body)
                  && OnlyItb(s.(req := s.req[r := Pinned(t)]), s', i) && s'.txgs == s.txgs)
  {
    hide Inv, Edit, Next, Run;
    RunKeepsInv(ss, acts, k);
    var s := ss[k];
    RefreshListed(s, r);
    RefreshDoes(s, r, body);
  }

  lemma RefreshListed(s: State, r: nat)
    requires Inv(s) && r in s.req && s.req[r].Refresh?
    ensures var t, i := s.req[r].t, s.req[r].i;
            t in s.txgs && i in s.itbs && s.itbs[i].place == OnList(t) && s.itbs[i].txg == s.txgs[t].num && s.itbs[i].state != Clean
  {
    assert ReqOk(s, r) && ItbOk(s, s.req[r].i);
  }

  lemma RefreshDoes(s: State, r: nat, body: Tab)
    requires r in s.req && s.req[r].Refresh? && s.req[r].t in s.txgs && s.req[r].i in s.itbs
    requires var b := s.itbs[s.req[r].i]; b.place == OnList(s.req[r].t) && b.txg == s.txgs[s.req[r].t].num && b.state != Clean
    ensures var t, i := s.req[r].t, s.req[r].i;
            && (Edit(s.itbs[i].body, body) <==> exists s' :: Next(s, RefreshAccess(r, body), s'))
            && (forall s' | Next(s, RefreshAccess(r, body), s') ::
                  && i in s'.itbs && s'.itbs[i] == ItbRec(s.txgs[t].num, Dirty, s.itbs[i].hashed, OnList(t), body)
                  && OnlyItb(s.(req := s.req[r := Pinned(t)]), s', i) && s'.txgs == s.txgs)
  {
    hide Edit, Recopy, HoldsLock;
    var t, i := s.req[r].t, s.req[r].i;
    if Edit(s.itbs[i].body, body) { assert Next(s, RefreshAccess(r, body), SetReq(Touch(s, t, i, body), r, Pinned(t))); }
  }

  /** Whatever well-formed ITB of this TXG or an older one a request brings in, it
      enters the hash table, clean. */
  lemma InsertIsServed(s: State, r: nat, i: nat, num: nat, body: Tab)
    requires r in s.req && s.req[r].Pinned? && s.req[r].t in s.txgs && i !in s.itbs && Formed(body)
    ensures num <= s.txgs[s.req[r].t].num <==> exists s' :: Next(s, Insert(r, i, num, body), s')
    ensures forall s' | Next(s, Insert(r, i, num, body), s') :: s' == s.(itbs := s.itbs[i := ItbRec(num, Clean, true, Nowhere, body)])
  {
    hide Formed, Edit;
    if num <= s.txgs[s.req[r].t].num {
      assert Next(s, Insert(r, i, num, body), SetItb(s, i, ItbRec(num, Clean, true, Nowhere, body)));
    }
  }

  /** The copy of ITB i is won exactly if i is still reachable, dirty and of the TXG
      before, and nobody holds its lock. */
  lemma CopyWinsIff(s: State, r: nat, n: nat, junk: seq<Ite>)
    requires r in s.req && s.req[r].Copying? && s.req[r].t in s.txgs && s.req[r].i in s.itbs
    requires n !in s.itbs && |junk| == |s.itbs[s.req[r].i].body.ite|
    ensures var b := s.itbs[s.req[r].i];
            (exists s' :: Next(s, CowWin(r, n, junk), s')) <==>
              && b.hashed && b.state == Dirty && b.txg + 1 == s.txgs[s.req[r].t].num
              && forall q | q in s.req :: !HoldsLock(s.req[q], s.req[r].i)
  {
    hide Recopy, HoldsLock;
    var t, i, b := s.req[r].t, s.req[r].i, s.itbs[s.req[r].i];
    if && b.hashed && b.state == Dirty && b.txg + 1 == s.txgs[t].num && forall q | q in s.req :: !HoldsLock(s.req[q], i) {
      var s' := SetReq(s.(itbs := s.itbs[i := b.(state := Cowed, hashed := false)]
                                        [n := ItbRec(s.txgs[t].num, Dirty, true, WonBy(r), Recopy(b.body, s.req[r].hdr, junk))]),
                       r, Won(t, n));
      assert Next(s, CowWin(r, n, junk), s');
    }
  }

  lemma AccessIsReq(s: State, a: Act, s': State)
    requires Next(s, a, s') && a.Access?
    ensures ReqNext(s, a, s')
  {
    hide ReqNext;
  }

  lemma TakesUpdate(s: State, r: nat, i: nat, body: Tab)
    requires Reaches(s, r, i) && Edit(s.itbs[i].body, body)
    ensures var n, b := s.txgs[s.req[r].t].num, s.itbs[i];
            (b.txg == n || (b.txg + 1 == n && b.state == Clean) || b.txg + 1 < n) <==>
              exists s' :: Next(s, Access(r, i, body), s')
  {
    hide Edit, Formed, Touch;
    var n, b := s.txgs[s.req[r].t].num, s.itbs[i];
    if b.txg == n || (b.txg + 1 == n && b.state == Clean) || b.txg + 1 < n {
      assert Next(s, Access(r, i, body), Touch(s, s.req[r].t, i, body));
    }
  }

  lemma StartsCopy(s: State, r: nat, i: nat)
    requires Reaches(s, r, i)
    ensures var t, b := s.req[r].t, s.itbs[i];
            && ((b.txg + 1 == s.txgs[t].num && b.state == Dirty) <==> exists s' :: Next(s, CowBegin(r, i), s'))
            && (forall s' | Next(s, CowBegin(r, i), s') :: s' == s.(req := s.req[r := Copying(t, i, b.body.h)]))
  {
    hide Edit, Formed;
    var t, b := s.req[r].t, s.itbs[i];
    if b.txg + 1 == s.txgs[t].num && b.state == Dirty {
      assert Next(s, CowBegin(r, i), SetReq(s, r, Copying(t, i, b.body.h)));
    }
  }

  lemma StartsRebind(s: State, r: nat, i: nat)
    requires Reaches(s, r, i)
    ensures var t, b := s.req[r].t, s.itbs[i];
            && (b.txg == s.txgs[t].num + 1 <==> exists s' :: Next(s, RebindBegin(r, i), s'))
            && (forall s' | Next(s, RebindBegin(r, i), s') :: s' == s.(req := s.req[r := Rebind(t, i, b.state == Dirty)]))
  {
    hide Edit, Formed;
    var t, b := s.req[r].t, s.itbs[i];
    if b.txg == s.txgs[t].num + 1 { assert Next(s, RebindBegin(r, i), SetReq(s, r, Rebind(t, i, b.state == Dirty))); }
  }

  lemma InNumbers(s: State, r: nat, i: nat)
    requires Inv(s) && Reaches(s, r, i)
    ensures s.itbs[i].txg <= s.txgs[s.req[r].t].num + 1 && (s.itbs[i].state == Clean || s.itbs[i].state == Dirty)
  {
    assert ReqOk(s, r) && ItbOk(s, i);
    TrustedNumber(s, s.req[r].t);
  }

  // ------------------------------------------------------- threads on their own

  datatype Thread = Requester(r: nat) | Switcher | Committer(c: nat)

  function Actor(a: Act): Thread {
    match a
    case SwStart => Switcher
    case SwNum(_) => Switcher
    case SwGet => Switcher
    case SwWb => Switcher
    case SwState => Switcher
    case SwPut => Switcher
    case SwOpen => Switcher
    case CRead(c) => Committer(c)
    case CTest(c) => Committer(c)
    case CDrain(c) => Committer(c)
    case CAbandon(c) => Committer(c)
    case CTake(c) => Committer(c)
    case CSettle(c) => Committer(c)
    case CFinish(c) => Committer(c)
    case _ => Requester(a.r)
  }

  ghost predicate Alone(th: Thread, ss: seq<State>, acts: seq<Act>) {
    Steps(ss, acts) && forall k | 0 <= k < |acts| :: Actor(acts[k]) == th
  }

  /** Steps of this thread alone lead from s to s'. */
  ghost predicate Manages(th: Thread, s: State, s': State) {
    exists ss: seq<State>, acts: seq<Act> :: Alone(th, ss, acts) && ss[0] == s && ss[|ss| - 1] == s'
  }

  lemma Rests(th: Thread, s: State)
    ensures Manages(th, s, s)
  {
    assert Alone(th, [s], []);
  }

  lemma Acts(th: Thread, s: State, a: Act, m: State, s': State)
    requires Next(s, a, m) && Actor(a) == th && Manages(th, m, s')
    ensures Manages(th, s, s')
  {
    hide Next, Actor;
    var ss: seq<State>, acts: seq<Act> :| Alone(th, ss, acts) && ss[0] == m && ss[|ss| - 1] == s';
    var ss', acts' := [s] + ss, [a] + acts;
    forall k | 0 <= k < |acts'| ensures Next(ss'[k], acts'[k], ss'[k + 1]) && Actor(acts'[k]) == th {
      if k > 0 { assert ss'[k] == ss[k - 1] && ss'[k + 1] == ss[k] && acts'[k] == acts[k - 1]; }
    }
    assert Alone(th, ss', acts');
  }

  // ------------------------------------------------ a commit thread finishes

  /** The ITB is with commit thread c, which writes t back. */
  predicate InWork(s: State, c: nat, t: nat, i: nat) {
    (t in s.txgs && i in s.txgs[t].dirty) || (c in s.com && s.com[c] == CHand(t, i))
  }

  /** The ITB is unlinked, and clean unless it is COWED, with its body as it was. */
  function Settled(b: ItbRec): ItbRec {
    b.(place := Nowhere, state := if b.state == Cowed then Cowed else Clean)
  }

  /** TXG t, with its list and what c has in its hand, is committed; nothing else has changed. */
  predicate Committed(s: State, c: nat, t: nat, s': State) {
    && t in s.txgs && s'.txgs == s.txgs[t := Txg(s.txgs[t].num, Wbing, s.txgs[t].pending, [], Some(c))]
    && s'.wb == None && s'.com == s.com[c := CIdle]
    && s'.itbs.Keys == s.itbs.Keys
    && (forall i | i in s.itbs :: s'.itbs[i] == if InWork(s, c, t, i) then Settled(s.itbs[i]) else s.itbs[i])
    && s'.req == s.req && s'.sw == s.sw && s'.open == s.open && s'.mi == s.mi
  }

  lemma Writing(s: State, c: nat, t: nat)
    requires Inv(s) && c in s.com && (s.com[c] == CWrite(t) || (s.com[c].CHand? && s.com[c].t == t))
    ensures t in s.txgs && s.txgs[t].state == Wbing && s.txgs[t].writer == Some(c)
    ensures forall j | 0 <= j < |s.txgs[t].dirty| :: s.txgs[t].dirty[j] in s.itbs && s.itbs[s.txgs[t].dirty[j]].place == OnList(t)
    ensures Distinct(s.txgs[t].dirty)
    ensures s.com[c].CHand? ==> s.com[c].i in s.itbs && s.itbs[s.com[c].i].place == InHand(c)
  {
    assert ComOk(s, c) && TxgOk(s, t);
  }

  /** One step of a commit thread that writes t back. */
  function WriteAct(s: State, c: nat, t: nat): Act
    requires c in s.com && t in s.txgs
  {
    if s.com[c].CHand? then CSettle(c) else if s.txgs[t].dirty != [] then CTake(c) else CFinish(c)
  }

  function WriteStep(s: State, c: nat, t: nat): State
    requires c in s.com && t in s.txgs
    requires s.com[c].CHand? ==> s.com[c].i in s.itbs
    requires s.txgs[t].dirty != [] ==> s.txgs[t].dirty[0] in s.itbs
  {
    var l := s.txgs[t].dirty;
    if s.com[c].CHand? then SetCom(SetItb(s, s.com[c].i, Settled(s.itbs[s.com[c].i])), c, CWrite(t))
    else if l != [] then
      SetCom(s.(txgs := s.txgs[t := s.txgs[t].(dirty := l[1..])], itbs := s.itbs[l[0] := s.itbs[l[0]].(place := InHand(c))]),
             c, CHand(t, l[0]))
    else SetCom(s.(wb := None), c, CIdle)
  }

  lemma WriteStepIs(s: State, c: nat, t: nat)
    requires Inv(s) && c in s.com && (s.com[c] == CWrite(t) || (s.com[c].CHand? && s.com[c].t == t))
    ensures t in s.txgs && (s.com[c].CHand? ==> s.com[c].i in s.itbs) && (s.txgs[t].dirty != [] ==> s.txgs[t].dirty[0] in s.itbs)
    ensures ComNext(s, WriteAct(s, c, t), WriteStep(s, c, t)) && Actor(WriteAct(s, c, t)) == Committer(c)
  {
    hide Inv;
    Writing(s, c, t);
  }

  lemma {:induction false} WriteBack(s: State, c: nat, t: nat) returns (s': State)
    requires Inv(s) && c in s.com && (s.com[c] == CWrite(t) || (s.com[c].CHand? && s.com[c].t == t))
    ensures Manages(Committer(c), s, s') && Committed(s, c, t, s')
    decreases if t in s.txgs then |s.txgs[t].dirty| else 0, s.com[c].CHand?
  {
    hide Inv, Next, ComNext, Manages, Committed;
    Writing(s, c, t);
    WriteStepIs(s, c, t);
    var a, m := WriteAct(s, c, t), WriteStep(s, c, t);
    CommitNext(s, a, m);
    if s.com[c].CHand? {
      s' := WriteBack(m, c, t);
      Handed(s, c, t, s.com[c].i, m, s');
    } else if s.txgs[t].dirty != [] {
      s' := WriteBack(m, c, t);
      Taken(s, c, t, m, s');
    } else {
      s' := m;
      Emptied(s, c, t, s');
      Rests(Committer(c), s');
    }
    Acts(Committer(c), s, a, m, s');
  }

  /** A step of a commit thread is a step that keeps the invariant. */
  lemma CommitNext(s: State, a: Act, s': State)
    requires Inv(s) && ComNext(s, a, s')
    ensures Next(s, a, s') && Inv(s')
  {
    hide Inv, ComNext, ReqNext, CowNext, RebindNext, SwNext;
    NextKeepsInv(s, a, s');
  }

  lemma Emptied(s: State, c: nat, t: nat, s': State)
    requires t in s.txgs && c in s.com && s.com[c] == CWrite(t) && s.txgs[t].dirty == []
    requires s.txgs[t].state == Wbing && s.txgs[t].writer == Some(c) && s' == SetCom(s.(wb := None), c, CIdle)
    ensures Committed(s, c, t, s')
  {
  }

  lemma Handed(s: State, c: nat, t: nat, i: nat, m: State, s': State)
    requires t in s.txgs && c in s.com && s.com[c] == CHand(t, i) && i in s.itbs && i !in s.txgs[t].dirty
    requires m == SetCom(SetItb(s, i, Settled(s.itbs[i])), c, CWrite(t)) && Committed(m, c, t, s')
    ensures Committed(s, c, t, s')
  {
  }

  lemma Taken(s: State, c: nat, t: nat, m: State, s': State)
    requires t in s.txgs && c in s.com && s.com[c] == CWrite(t) && s.txgs[t].dirty != []
    requires var i := s.txgs[t].dirty[0];
             i in s.itbs && m == SetCom(s.(txgs := s.txgs[t := s.txgs[t].(dirty := s.txgs[t].dirty[1..])],
                                           itbs := s.itbs[i := s.itbs[i].(place := InHand(c))]), c, CHand(t, i))
    requires Committed(m, c, t, s') && Distinct(s.txgs[t].dirty)
    ensures Committed(s, c, t, s')
  {
    var l := s.txgs[t].dirty;
    forall i | i in s.itbs ensures InWork(s, c, t, i) == InWork(m, c, t, i) {
      assert l == [l[0]] + l[1..];
    }
  }

  /** A commit thread that has taken up a demoted TXG, or finds it in the slot, and
      sees nothing pending, or is writing it back already, with any dirty list and
      any ITB in its hand, finishes by its own steps: the slot is free, the thread
      idle, and every ITB of the list or the hand is unlinked with its body as it
      was, CLEAN if it was not COWED. */
  lemma CommitFinishes(ss: seq<State>, acts: seq<Act>, k: nat, c: nat, t: nat) returns (s': State)
    requires Run(ss, acts) && k < |ss| && c in ss[k].com && t in ss[k].txgs
    requires match ss[k].com[c]
             case CIdle => ss[k].wb == Some(t) && ss[k].txgs[t].state == Wb && ss[k].txgs[t].pending == 0
             case CGot(x) => x == t && ss[k].txgs[t].state == Wb && ss[k].txgs[t].pending == 0
             case CWait(x) => x == t && ss[k].txgs[t].pending == 0
             case CWrite(x) => x == t
             case CHand(x, _) => x == t
    ensures Manages(Committer(c), ss[k], s') && Committed(ss[k], c, t, s')
  {
    hide Run;
    RunKeepsInv(ss, acts, k);
    s' := CommitFrom(ss[k], c, t);
  }

  /** A commit thread takes the ITBs of its TXG one by one, in the order in which they were listed. */
  lemma TakesInOrder(ss: seq<State>, acts: seq<Act>, k: nat, c: nat)
    requires Run(ss, acts) && k < |ss| && c in ss[k].com && ss[k].com[c].CWrite?
    ensures var s, t := ss[k], ss[k].com[c].t;
            && t in s.txgs
            && (s.txgs[t].dirty != [] <==> exists s' :: Next(s, CTake(c), s'))
            && (forall s' | Next(s, CTake(c), s') ::
                  s.txgs[t].dirty != [] && s.txgs[t].dirty[0] in s.itbs
                  && var i := s.txgs[t].dirty[0];
                  s' == s.(com := s.com[c := CHand(t, i)], txgs := s.txgs[t := s.txgs[t].(dirty := s.txgs[t].dirty[1..])],
                           itbs := s.itbs[i := s.itbs[i].(place := InHand(c))]))
            && (s.txgs[t].dirty == [] <==> exists s' :: Next(s, CFinish(c), s'))
  {
    hide Inv, Run;
    RunKeepsInv(ss, acts, k);
    var s, t := ss[k], ss[k].com[c].t;
    Writing(s, c, t);
    hide ReqNext, CowNext, RebindNext, SwNext;
    if s.txgs[t].dirty != [] {
      WriteStepIs(s, c, t);
      assert Next(s, CTake(c), WriteStep(s, c, t));
    } else {
      assert Next(s, CFinish(c), SetCom(s.(wb := None), c, CIdle));
    }
  }

  /** A commit thread that finds its TXG claimed by another goes idle again, and
      changes nothing else. */
  lemma CommitGivesUp(s: State, c: nat)
    requires c in s.com && s.com[c].CGot? && s.com[c].t in s.txgs && s.txgs[s.com[c].t].state != Wb
    ensures Next(s, CTest(c), s.(com := s.com[c := CIdle])) && forall s' | Next(s, CTest(c), s') :: s' == s.(com := s.com[c := CIdle])
  {
  }

  lemma CommitFrom(s: State, c: nat, t: nat) returns (s': State)
    requires Inv(s) && c in s.com && t in s.txgs
    requires match s.com[c]
             case CIdle => s.wb == Some(t) && s.txgs[t].state == Wb && s.txgs[t].pending == 0
             case CGot(x) => x == t && s.txgs[t].state == Wb && s.txgs[t].pending == 0
             case CWait(x) => x == t && s.txgs[t].pending == 0
             case CWrite(x) => x == t
             case CHand(x, _) => x == t
    ensures Manages(Committer(c), s, s') && Committed(s, c, t, s')
    decreases if s.com[c].CIdle? then 3 else if s.com[c].CGot? then 2 else if s.com[c].CWait? then 1 else 0
  {
    hide Inv, Next, Manages;
    match s.com[c]
    case CIdle =>
      var m := SetCom(s, c, CGot(t));
      CommitNext(s, CRead(c), m);
      s' := CommitFrom(m, c, t);
      Acts(Committer(c), s, CRead(c), m, s');
    case CGot(_) =>
      var m := SetCom(s.(txgs := s.txgs[t := s.txgs[t].(state := Wbing, writer := Some(c))]), c, CWait(t));
      CommitNext(s, CTest(c), m);
      s' := CommitFrom(m, c, t);
      Acts(Committer(c), s, CTest(c), m, s');
    case CWait(_) =>
      var m := SetCom(s, c, CWrite(t));
      CommitNext(s, CDrain(c), m);
      s' := CommitFrom(m, c, t);
      Acts(Committer(c), s, CDrain(c), m, s');
    case _ =>
      s' := WriteBack(s, c, t);
  }

  // ---------------------------------------------------- the switcher finishes

  /** TXG nt is open in the place of the one that was, which is demoted; nothing
      else has changed.  A commit thread may have claimed the demoted TXG before,
      and even have finished with it, but only once the switcher has let it go. */
  predicate Switched(s: State, nt: nat, s': State) {
    && s.open in s.txgs && nt != s.open && s'.open == nt && s'.sw == SIdle && s'.mi == s.txgs[s.open].num + 1
    && s'.wb == (if s.sw.SPut? then s.wb else Some(s.open))
    && s'.txgs.Keys == s.txgs.Keys + {nt} && s'.txgs[nt] == Txg(s.txgs[s.open].num + 1, Open, 0, [], None)
    && s'.txgs[s.open] == s.txgs[s.open].(state := if s.txgs[s.open].state == Open then Wb else s.txgs[s.open].state,
                                          pending := s.txgs[s.open].pending - SwPin(s, s.open))
    && (forall x | x in s.txgs && x != s.open && x != nt :: s'.txgs[x] == s.txgs[x])
    && s'.itbs == s.itbs && s'.req == s.req && s'.com == s.com
  }

  lemma SwitchNext(s: State, a: Act, s': State)
    requires Inv(s) && SwNext(s, a, s')
    ensures Next(s, a, s') && Inv(s')
  {
    hide Inv, ComNext, ReqNext, CowNext, RebindNext, SwNext;
    NextKeepsInv(s, a, s');
  }

  /** What the invariant says of the switcher. */
  lemma Switching(s: State)
    requires Inv(s)
    ensures s.open in s.txgs
    ensures match s.sw
            case SIdle => s.mi == s.txgs[s.open].num && s.txgs[s.open].state == Open
            case SInc => s.mi == s.txgs[s.open].num + 1 && s.txgs[s.open].state == Open && s.wb == None
            case SNum(nt) => s.txgs[s.open].state == Open && s.wb == None
            case SHeld(nt) => s.txgs[s.open].state == Open && s.wb == None
            case SWb(nt) => s.txgs[s.open].state == Open && s.wb == Some(s.open)
            case SState(nt) => s.txgs[s.open].state != Open && s.wb == Some(s.open)
            case SPut(nt) => s.txgs[s.open].state != Open
    ensures !s.sw.SIdle? && !s.sw.SInc? ==>
              s.sw.nt in s.txgs && s.sw.nt != s.open && s.mi == s.txgs[s.open].num + 1
              && s.txgs[s.sw.nt] == Txg(s.txgs[s.open].num + 1, Open, 0, [], None)
  {
    if !s.sw.SIdle? && !s.sw.SInc? { assert TxgOk(s, s.sw.nt); }
  }

  /** One step of the switcher, up to the one that opens the new TXG. */
  function SwitchAct(s: State, nt: nat): Act {
    match s.sw
    case SIdle => SwStart
    case SInc => SwNum(nt)
    case SNum(_) => SwGet
    case SHeld(_) => SwWb
    case SWb(_) => SwState
    case SState(_) => SwPut
    case SPut(_) => SwOpen
  }

  function SwitchStep(s: State, nt: nat): State
    requires s.open in s.txgs
  {
    match s.sw
    case SIdle => s.(mi := s.mi + 1, sw := SInc)
    case SInc => s.(txgs := s.txgs[nt := Txg(s.mi, Open, 0, [], None)], sw := SNum(nt))
    case SNum(_) => Pend(s, s.open, 1).(sw := SHeld(nt))
    case SHeld(_) => s.(wb := Some(s.open), sw := SWb(nt))
    case SWb(_) => s.(txgs := s.txgs[s.open := s.txgs[s.open].(state := Wb)], sw := SState(nt))
    case SState(_) => Pend(s, s.open, -1).(sw := SPut(nt))
    case SPut(_) => s.(open := nt, sw := SIdle)
  }

  lemma SwitchesOn(s: State, nt: nat)
    requires Inv(s) && MaySwitch(s, nt)
    ensures s.open in s.txgs && SwNext(s, SwitchAct(s, nt), SwitchStep(s, nt)) && Actor(SwitchAct(s, nt)) == Switcher
  {
    hide Inv;
    Switching(s);
  }

  lemma SwitchGoesOn(s: State, nt: nat)
    requires MaySwitch(s, nt) && !s.sw.SPut? && s.open in s.txgs
    ensures MaySwitch(SwitchStep(s, nt), nt) && SwitchSteps(SwitchStep(s, nt)) < SwitchSteps(s)
  {
  }

  lemma SwitchOpens(s: State, nt: nat)
    requires Inv(s) && s.sw.SPut? && nt == s.sw.nt && s.open in s.txgs
    ensures Switched(s, nt, SwitchStep(s, nt))
  {
    hide Inv;
    Switching(s);
  }

  lemma BeforeStart(s: State, nt: nat, s': State)
    requires Inv(s) && MaySwitch(s, nt) && s.sw.SIdle? && s.open in s.txgs && Switched(SwitchStep(s, nt), nt, s')
    ensures Switched(s, nt, s')
  {
    hide Inv;
    Switching(s);
  }

  lemma BeforeNum(s: State, nt: nat, s': State)
    requires Inv(s) && MaySwitch(s, nt) && s.sw.SInc? && s.open in s.txgs && Switched(SwitchStep(s, nt), nt, s')
    ensures Switched(s, nt, s')
  {
    hide Inv;
    Switching(s);
  }

  lemma BeforeGet(s: State, nt: nat, s': State)
    requires Inv(s) && MaySwitch(s, nt) && s.sw.SNum? && s.open in s.txgs && Switched(SwitchStep(s, nt), nt, s')
    ensures Switched(s, nt, s')
  {
    hide Inv;
    Switching(s);
  }

  lemma BeforeWb(s: State, nt: nat, s': State)
    requires Inv(s) && MaySwitch(s, nt) && s.sw.SHeld? && s.open in s.txgs && Switched(SwitchStep(s, nt), nt, s')
    ensures Switched(s, nt, s')
  {
    hide Inv;
    Switching(s);
  }

  lemma BeforeState(s: State, nt: nat, s': State)
    requires Inv(s) && MaySwitch(s, nt) && s.sw.SWb? && s.open in s.txgs && Switched(SwitchStep(s, nt), nt, s')
    ensures Switched(s, nt, s')
  {
    hide Inv;
    Switching(s);
  }

  lemma BeforePut(s: State, nt: nat, s': State)
    requires Inv(s) && MaySwitch(s, nt) && s.sw.SState? && s.open in s.txgs && Switched(SwitchStep(s, nt), nt, s')
    ensures Switched(s, nt, s')
  {
    hide Inv;
    Switching(s);
  }

  /** The switcher is under way to open nt, or may begin, with nt unused. */
  predicate MaySwitch(s: State, nt: nat) {
    match s.sw
    case SIdle => nt !in s.txgs && s.wb == None && s.open in s.txgs && s.txgs[s.open].dirty != []
    case SInc => nt !in s.txgs
    case _ => nt == s.sw.nt
  }

  function SwitchSteps(s: State): nat {
    match s.sw case SIdle => 6 case SInc => 5 case SNum(_) => 4 case SHeld(_) => 3 case SWb(_) => 2 case SState(_) => 1 case SPut(_) => 0
  }

  lemma {:induction false} SwitchFrom(s: State, nt: nat) returns (s': State)
    requires Inv(s) && MaySwitch(s, nt)
    ensures Manages(Switcher, s, s') && Switched(s, nt, s')
    decreases SwitchSteps(s)
  {
    SwitchesOn(s, nt);
    hide Inv, Next, Manages, Switched, SwNext, SwitchStep, SwitchAct;
    var a, m := SwitchAct(s, nt), SwitchStep(s, nt);
    SwitchNext(s, a, m);
    if s.sw.SPut? {
      s' := m;
      SwitchOpens(s, nt);
      Rests(Switcher, s');
    } else {
      SwitchGoesOn(s, nt);
      s' := SwitchFrom(m, nt);
      match s.sw
      case SIdle => BeforeStart(s, nt, s');
      case SInc => BeforeNum(s, nt, s');
      case SNum(_) => BeforeGet(s, nt, s');
      case SHeld(_) => BeforeWb(s, nt, s');
      case SWb(_) => BeforeState(s, nt, s');
      case SState(_) => BeforePut(s, nt, s');
    }
    Acts(Switcher, s, a, m, s');
  }

  /** The switcher, once under way, or when the slot is free and the open TXG has a
      dirty ITB, opens the next TXG by its own steps, with any unused one. */
  lemma SwitchFinishes(ss: seq<State>, acts: seq<Act>, k: nat, nt: nat) returns (s': State)
    requires Run(ss, acts) && k < |ss| && MaySwitch(ss[k], nt)
    ensures Manages(Switcher, ss[k], s') && Switched(ss[k], nt, s')
  {
    hide Run, MaySwitch, Switched, Manages;
    RunKeepsInv(ss, acts, k);
    s' := SwitchFrom(ss[k], nt);
  }

  // --------------------------------------------------------- a request finishes

  /** Request r goes to another control state, with just the pins that this state
      has; nothing else changes. */
  predicate Moved(s: State, r: nat, s': State) {
    && r in s.req && r in s'.req && s'.req == s.req[r := s'.req[r]]
    && s'.txgs.Keys == s.txgs.Keys
    && (forall x | x in s.txgs ::
          s'.txgs[x] == s.txgs[x].(pending := s.txgs[x].pending + PinsOf(s'.req[r], x) - PinsOf(s.req[r], x)))
    && s'.itbs == s.itbs && s'.com == s.com && s'.sw == s.sw && s'.open == s.open && s'.wb == s.wb && s'.mi == s.mi
  }

  lemma MovedTwice(s: State, r: nat, m: State, s': State)
    requires Moved(s, r, m) && Moved(m, r, s')
    ensures Moved(s, r, s')
  {
    hide PinsOf;
  }

  lemma PendMoves(s: State, r: nat, t: nat, d: int, q: Req)
    requires r in s.req && t in s.txgs
    requires forall x :: PinsOf(q, x) - PinsOf(s.req[r], x) == if x == t then d else 0
    ensures Moved(s, r, SetReq(Pend(s, t, d), r, q))
  {
    hide PinsOf;
  }

  lemma SetMoves(s: State, r: nat, q: Req)
    requires r in s.req && forall x :: PinsOf(q, x) == PinsOf(s.req[r], x)
    ensures Moved(s, r, SetReq(s, r, q))
  {
    hide PinsOf;
  }

  lemma Ends(s: State, a: Act, s': State)
    requires Inv(s) && (ReqNext(s, a, s') || CowNext(s, a, s') || RebindNext(s, a, s'))
    ensures Next(s, a, s') && Inv(s')
  {
    hide Inv, ComNext, ReqNext, CowNext, RebindNext, SwNext;
    NextKeepsInv(s, a, s');
  }

  predicate Accepts(s: State, x: nat) { x in s.txgs && s.txgs[x].state == Open }

  /** How many steps control state q is from the end of its request, by its own steps. */
  function StepsLeft(s: State, q: Req): nat {
    match q
    case Idle => 0
    case Pinned(_) => 1
    case Backoff(_) => 1
    case Raised(_) => 2
    case GotPtr(_) => 3
    case Copying(_, _, _) => 2
    case Refresh(_, _) => 2
    case Won(_, _) => 3
    case Rebound(_, _, _) => 2
    case RebindPinned(_, _, _, _) => 3
    case RebindRaised(_, _, _, nt) => if Accepts(s, nt) then 4 else 8
    case RebindPtr(_, _, _, nt) => if Accepts(s, nt) then 5 else 9
    case Rebind(_, _, _) => 6
    case RebindBackoff(_, _, _, _) => 7
  }

  /** What a request that is not idle and has not won does next, if it may. */
  function ReqAct(s: State, r: nat): Act
    requires r in s.req
  {
    match s.req[r]
    case GotPtr(_) => Raise(r)
    case Raised(_) => Check(r)
    case Backoff(_) => PutBack(r)
    case Copying(_, _, _) => CowLose(r)
    case Refresh(_, _) => RefreshDrop(r)
    case Rebind(_, _, _) => RebindRead(r)
    case RebindPtr(_, _, _, _) => RebindRaise(r)
    case RebindRaised(_, _, _, _) => RebindCheck(r)
    case RebindBackoff(_, _, _, _) => RebindPutBack(r)
    case RebindPinned(_, _, _, _) => RebindPut(r)
    case _ => Release(r)
  }

  /** The control state after that. */
  function ReqGoes(s: State, r: nat): Req
    requires r in s.req
  {
    match s.req[r]
    case GotPtr(t) => Raised(t)
    case Raised(t) => if Accepts(s, t) then Pinned(t) else Backoff(t)
    case Copying(t, _, _) => Pinned(t)
    case Refresh(t, _) => Pinned(t)
    case Rebind(t, i, d) => RebindPtr(t, i, d, s.open)
    case RebindPtr(t, i, d, nt) => RebindRaised(t, i, d, nt)
    case RebindRaised(t, i, d, nt) => if Accepts(s, nt) then RebindPinned(t, i, d, nt) else RebindBackoff(t, i, d, nt)
    case RebindBackoff(t, i, d, nt) => Rebind(t, i, d)
    case RebindPinned(t, i, d, nt) => Rebound(nt, i, d)
    case _ => Idle
  }

  /** The TXG whose counter that moves, and by how much. */
  function ReqPends(s: State, r: nat): (nat, int)
    requires r in s.req
  {
    match s.req[r]
    case GotPtr(t) => (t, 1)
    case Backoff(t) => (t, -1)
    case Pinned(t) => (t, -1)
    case RebindPtr(_, _, _, nt) => (nt, 1)
    case RebindBackoff(_, _, _, nt) => (nt, -1)
    case RebindPinned(t, _, _, _) => (t, -1)
    case _ => (0, 0)
  }

  function ReqStep(s: State, r: nat): State
    requires r in s.req
  {
    var (t, d) := ReqPends(s, r);
    SetReq(if t in s.txgs && d != 0 then Pend(s, t, d) else s, r, ReqGoes(s, r))
  }

  predicate UnderWay(q: Req) { !q.Idle? && !q.Won? && !q.Rebound? }

  lemma ReqStepIs(s: State, r: nat)
    requires Inv(s) && r in s.req
    requires var q := s.req[r]; q.Pinned? || q.Backoff? || q.Raised? || q.GotPtr?
    ensures ReqNext(s, ReqAct(s, r), ReqStep(s, r))
  {
    hide Inv, Edit, Formed;
    ReqKnows(s, r);
  }

  lemma CowStepIs(s: State, r: nat)
    requires r in s.req && (s.req[r].Copying? || s.req[r].Refresh?)
    ensures CowNext(s, ReqAct(s, r), ReqStep(s, r))
  {
    hide Edit, Recopy;
  }

  predicate IsRebinding(q: Req) { q.Rebind? || q.RebindPtr? || q.RebindRaised? || q.RebindBackoff? || q.RebindPinned? }

  lemma RebindRises(s: State, r: nat)
    requires r in s.req && (s.req[r].Rebind? || (s.req[r].RebindPtr? && s.req[r].nt in s.txgs))
    ensures RebindNext(s, ReqAct(s, r), ReqStep(s, r))
  {
    hide Edit, AssertsHold;
  }

  lemma RebindChecks(s: State, r: nat)
    requires r in s.req && s.req[r].RebindRaised? && s.req[r].nt in s.txgs
    ensures RebindNext(s, ReqAct(s, r), ReqStep(s, r))
  {
    hide Edit, AssertsHold;
  }

  lemma RebindPuts(s: State, r: nat)
    requires r in s.req && ((s.req[r].RebindBackoff? && s.req[r].nt in s.txgs) || (s.req[r].RebindPinned? && s.req[r].t in s.txgs))
    ensures RebindNext(s, ReqAct(s, r), ReqStep(s, r))
  {
    hide Edit, AssertsHold;
  }

  lemma RebindStepIs(s: State, r: nat)
    requires Inv(s) && r in s.req && IsRebinding(s.req[r])
    ensures RebindNext(s, ReqAct(s, r), ReqStep(s, r))
  {
    hide Inv, RebindNext, ReqAct, ReqStep;
    RebindKnows(s, r);
    match s.req[r]
    case Rebind(_, _, _) => RebindRises(s, r);
    case RebindPtr(_, _, _, _) => RebindRises(s, r);
    case RebindRaised(_, _, _, _) => RebindChecks(s, r);
    case _ => RebindPuts(s, r);
  }

  lemma ReqStepMoves(s: State, r: nat)
    requires Inv(s) && r in s.req && UnderWay(s.req[r])
    ensures Moved(s, r, ReqStep(s, r))
  {
    hide Inv, Moved, PinsOf, ReqGoes, Pend;
    var q, q', p := s.req[r], ReqGoes(s, r), ReqPends(s, r);
    PendsPins(s, r);
    if p.1 == 0 { SetMoves(s, r, q'); } else { PendMoves(s, r, p.0, p.1, q'); }
  }

  /** The counter that a step moves is that of the pin it gains or gives up. */
  lemma PendsPins(s: State, r: nat)
    requires Inv(s) && r in s.req && UnderWay(s.req[r])
    ensures var p := ReqPends(s, r);
            && (p.1 != 0 ==> p.0 in s.txgs)
            && forall x :: PinsOf(ReqGoes(s, r), x) - PinsOf(s.req[r], x) == if x == p.0 then p.1 else 0
  {
    hide Inv;
    var q := s.req[r];
    if IsRebinding(q) { RebindKnows(s, r); } else { ReqKnows(s, r); }
  }

  lemma ReqKnows(s: State, r: nat)
    requires Inv(s) && r in s.req && !s.req[r].Idle?
    ensures s.req[r].t in s.txgs
  {
    assert ReqOk(s, r);
  }

  lemma ReqStepsDown(s: State, r: nat)
    requires Inv(s) && r in s.req && UnderWay(s.req[r])
    ensures StepsLeft(s, ReqGoes(s, r)) < StepsLeft(s, s.req[r])
  {
    hide Inv, Accepts;
    var q := s.req[r];
    if IsRebinding(q) { RebindKnows(s, r); }
  }

  lemma AsManyLeft(s: State, r: nat, s': State, q: Req)
    requires Moved(s, r, s')
    ensures StepsLeft(s', q) == StepsLeft(s, q)
  {
  }

  lemma ReqStepKeepsKind(s: State, r: nat)
    requires r in s.req && UnderWay(s.req[r])
    ensures r in ReqStep(s, r).req && ReqStep(s, r).req[r] == ReqGoes(s, r)
    ensures Actor(ReqAct(s, r)) == Requester(r) && !ReqGoes(s, r).Won? && DirtyFlag(ReqGoes(s, r)) == DirtyFlag(s.req[r])
  {
  }

  /** While a request is being reassigned the open TXG accepts requests. */
  lemma RebindKnows(s: State, r: nat)
    requires Inv(s) && r in s.req && IsRebinding(s.req[r])
    ensures s.req[r].t in s.txgs && s.req[r].t != s.open && Accepts(s, s.open)
    ensures !s.req[r].Rebind? ==> s.req[r].nt in s.txgs
    ensures s.req[r].RebindPinned? ==> s.req[r].nt != s.req[r].t
  {
    var q := s.req[r];
    assert ReqOk(s, r) && RebindOk(s, q.t, q.i, q.dirty);
    RebindFacesOpen(s, q.t, q.i, q.dirty);
  }

  /** The end of a reassignment whose assertions hold: the access follows, here without a change. */
  lemma ReboundStepIs(s: State, r: nat)
    requires r in s.req && s.req[r].Rebound? && s.req[r].t in s.txgs && s.req[r].i in s.itbs && AssertsHold(s, r)
    ensures RebindNext(s, ReboundAccess(r, s.itbs[s.req[r].i].body), SetReq(s, r, Pinned(s.req[r].t)))
  {
    hide Edit, AssertsHold;
    var i := s.req[r].i;
    EditsNothing(s.itbs[i].body);
    assert SetItb(s, i, s.itbs[i].(body := s.itbs[i].body)) == s;
  }

  lemma EditsNothing(t: Tab)
    ensures Edit(t, t)
  {
  }

  lemma ReboundKnows(s: State, r: nat)
    requires Inv(s) && r in s.req && s.req[r].Rebound?
    ensures s.req[r].t in s.txgs && s.req[r].i in s.itbs && (s.req[r].dirty ==> AssertsHold(s, r))
  {
    assert ReqOk(s, r);
  }

  /** By its own steps a request that has not won a copy goes idle, giving back its
      pins, or is stopped by an assertion of its reassignment. */
  lemma {:induction false} RequestFrom(s: State, r: nat) returns (s': State)
    requires Inv(s) && r in s.req && !s.req[r].Won?
    ensures Manages(Requester(r), s, s') && Moved(s, r, s')
    ensures s'.req[r].Idle? || (s'.req[r].Rebound? && s'.req[r].t in s'.txgs && s'.req[r].i in s'.itbs && !AssertsHold(s', r))
    ensures DirtyFlag(s.req[r]) != Some(false) ==> s'.req[r].Idle?
    decreases StepsLeft(s, s.req[r])
  {
    hide Inv, Next, Manages, Moved, ReqNext, CowNext, RebindNext, ReqStep, ReqAct, ReqGoes;
    var q := s.req[r];
    Rests(Requester(r), s);
    if q.Idle? {
      s' := s;
      StaysMoved(s, r);
    } else {
      var a: Act, m: State;
      if q.Rebound? {
        ReboundKnows(s, r);
        if !AssertsHold(s, r) {
          StaysMoved(s, r);
          return s;
        }
        a, m := ReboundAccess(r, s.itbs[q.i].body), SetReq(s, r, Pinned(q.t));
        ReboundStepIs(s, r);
        SetMoves(s, r, Pinned(q.t));
      } else {
        a, m := ReqAct(s, r), ReqStep(s, r);
        ReqStepMoves(s, r);
        ReqStepsDown(s, r);
        ReqStepKeepsKind(s, r);
        if IsRebinding(q) { RebindStepIs(s, r); } else if q.Copying? || q.Refresh? { CowStepIs(s, r); } else { ReqStepIs(s, r); }
      }
      Ends(s, a, m);
      AsManyLeft(s, r, m, m.req[r]);
      s' := RequestFrom(m, r);
      Acts(Requester(r), s, a, m, s');
      MovedTwice(s, r, m, s');
    }
  }

  /** Whether the ITB was dirty when a request that is being reassigned met it. */
  function DirtyFlag(q: Req): Option<bool> {
    match q
    case Rebind(_, _, d) => Some(d)
    case RebindPtr(_, _, d, _) => Some(d)
    case RebindRaised(_, _, d, _) => Some(d)
    case RebindBackoff(_, _, d, _) => Some(d)
    case RebindPinned(_, _, d, _) => Some(d)
    case Rebound(_, _, d) => Some(d)
    case _ => None
  }

  lemma StaysMoved(s: State, r: nat)
    requires r in s.req
    ensures Moved(s, r, s)
  {
    hide PinsOf;
    assert s.req == s.req[r := s.req[r]];
  }

  /** The ITB that r has won is the last one on the dirty list of its TXG. */
  function WinListed(s: State, r: nat): State
    requires r in s.req && s.req[r].Won?
  {
    var t, i := s.req[r].t, s.req[r].i;
    if t in s.txgs && i in s.itbs
    then s.(txgs := s.txgs[t := s.txgs[t].(dirty := s.txgs[t].dirty + [i])], itbs := s.itbs[i := s.itbs[i].(place := OnList(t))])
    else s
  }

  lemma WinnerLists(s: State, r: nat) returns (m: State)
    requires Inv(s) && r in s.req && s.req[r].Won?
    ensures s.req[r].t in s.txgs && s.req[r].i in s.itbs
    ensures CowNext(s, Relock(r), m) && Moved(WinListed(s, r), r, m) && r in m.req && m.req[r].Refresh?
  {
    hide Inv, PinsOf;
    WinnerKnows(s, r);
    m := SetReq(AddItb(s, s.req[r].t, s.req[r].i), r, Refresh(s.req[r].t, s.req[r].i));
  }

  lemma WinnerKnows(s: State, r: nat)
    requires Inv(s) && r in s.req && s.req[r].Won?
    ensures s.req[r].t in s.txgs && s.req[r].i in s.itbs && s.itbs[s.req[r].i].place == WonBy(r)
    ensures forall x :: PinsOf(Refresh(s.req[r].t, s.req[r].i), x) == PinsOf(s.req[r], x)
  {
    assert ReqOk(s, r);
  }

  /** A request in any control state goes idle by its own steps and gives back just
      the pins it has; if it has won a copy it first lists the new ITB.  Only one
      that is being reassigned, and met its ITB clean, may be stopped instead, by
      an assertion. */
  lemma RequestFinishes(ss: seq<State>, acts: seq<Act>, k: nat, r: nat) returns (s': State)
    requires Run(ss, acts) && k < |ss| && r in ss[k].req
    ensures Manages(Requester(r), ss[k], s')
    ensures !ss[k].req[r].Won? ==> Moved(ss[k], r, s')
    ensures ss[k].req[r].Won? ==> Moved(WinListed(ss[k], r), r, s')
    ensures s'.req[r].Idle? || (s'.req[r].Rebound? && s'.req[r].t in s'.txgs && s'.req[r].i in s'.itbs && !AssertsHold(s', r))
    ensures DirtyFlag(ss[k].req[r]) != Some(false) ==> s'.req[r].Idle?
  {
    hide Inv, Run, Next, Manages, Moved, ReqNext, CowNext, RebindNext;
    RunKeepsInv(ss, acts, k);
    var s := ss[k];
    if s.req[r].Won? {
      var m := WinnerLists(s, r);
      Ends(s, Relock(r), m);
      s' := RequestFrom(m, r);
      Acts(Requester(r), s, Relock(r), m, s');
      MovedTwice(WinListed(s, r), r, m, s');
    } else {
      s' := RequestFrom(s, r);
    }
  }

  /** An idle request pins the open TXG by its own steps if that accepts requests. */
  lemma RequestEnters(ss: seq<State>, acts: seq<Act>, k: nat, r: nat) returns (s': State)
    requires Run(ss, acts) && k < |ss| && r in ss[k].req && ss[k].req[r] == Idle && Accepts(ss[k], ss[k].open)
    ensures Manages(Requester(r), ss[k], s') && Moved(ss[k], r, s') && s'.req[r] == Pinned(ss[k].open)
  {
    hide Run, Inv, Next, Manages, Moved, ReqNext, PinsOf;
    var s, t := ss[k], ss[k].open;
    var a := SetReq(s, r, GotPtr(t));
    var b := SetReq(Pend(a, t, 1), r, Raised(t));
    s' := SetReq(b, r, Pinned(t));
    EnterSteps(s, r, a, b, s');
    Rests(Requester(r), s');
    Acts(Requester(r), b, Check(r), s', s');
    Acts(Requester(r), a, Raise(r), b, s');
    Acts(Requester(r), s, Read(r), a, s');
  }

  lemma EnterSteps(s: State, r: nat, a: State, b: State, s': State)
    requires r in s.req && s.req[r] == Idle && Accepts(s, s.open) && a == SetReq(s, r, GotPtr(s.open))
    requires b == SetReq(Pend(a, s.open, 1), r, Raised(s.open)) && s' == SetReq(b, r, Pinned(s.open))
    ensures Next(s, Read(r), a) && Next(a, Raise(r), b) && Next(b, Check(r), s') && Moved(s, r, s')
  {
    hide CowNext, RebindNext, SwNext, ComNext, Edit, Formed;
    assert s'.req == s.req[r := Pinned(s.open)];
  }
}
