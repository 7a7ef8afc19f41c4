/** Every step of a calm run of the transactions keeps the invariant. */
module TxSteps {
  import opened Common
  import opened TxModel
  import opened TxInvariant

  // ---------------------------------------------------- steps of handlers

  /** Handler h acts on transaction x and on nothing else: the other
      transactions, handlers, list memberships and TXGs are as before, up to
      pending counters and the place of x. */
  ghost predicate HStep(s: State, s': State, h: nat, x: nat) {
    && h in s.han && h in s'.han && s'.han == s.han[h := s'.han[h]] && s'.com == s.com
    && (s.han[h] == Idle || Ref(s.han[h]) == Some(x)) && (s'.han[h] == Idle || Ref(s'.han[h]) == Some(x))
    && x in s'.txs && s'.txs == s.txs[x := s'.txs[x]]
    && (x in s.txs ==> s.txs[x].holder == None || s.txs[x].holder == Some(h))
    && s'.txgs.Keys == s.txgs.Keys
    && (forall t | t in s.txgs :: s'.txgs[t].closer == s.txgs[t].closer
          && (s'.txgs[t].ccb == s.txgs[t].ccb || s'.txgs[t].ccb == s.txgs[t].ccb + [x]))
    && (forall y | y != x :: y in s'.lru <==> y in s.lru)
  }

  lemma XFrame(s: State, s': State, h: nat, x: nat, y: nat)
    requires HStep(s, s', h, x) && y in s.txs && y != x && XOk(s, y)
    ensures XOk(s', y)
  {
  }

  lemma HFrame(s: State, s': State, h: nat, x: nat, g: nat)
    requires HStep(s, s', h, x) && g in s.han && g != h && HOk(s, g)
    ensures HOk(s', g)
  {
  }

  lemma CFrame(s: State, s': State, h: nat, x: nat, c: nat)
    requires HStep(s, s', h, x) && c in s.com && COk(s, c)
    requires (x in s'.lru <==> x in s.lru) || (x in s.txs ==> !Handled(s, x))
    requires Handled(s, x) ==> x in s.txs && KeepsMark(s, s', x)
    ensures COk(s', c)
  {
  }

  /** A transaction that a handler still holds bears the state it had. */
  predicate KeepsMark(s: State, s': State, x: nat)
    requires x in s.txs && x in s'.txs
  {
    s'.txs[x].holder.Some? ==> s.txs[x].holder.Some? && s'.txs[x].state == s.txs[x].state
  }

  /** Some commit thread has steps left to do with x. */
  ghost predicate Handled(s: State, x: nat) {
    exists c | c in s.com :: (s.com[c].CMark? || s.com[c].CListed?) && s.com[c].x == x
  }

  lemma HandledIsNormal(s: State, x: nat)
    requires Inv(s) && Handled(s, x)
    ensures x in s.txs && s.txs[x].op == Normal
  {
    var c :| c in s.com && (s.com[c].CMark? || s.com[c].CListed?) && s.com[c].x == x;
    assert COk(s, c);
    assert TOk(s, s.com[c].t);
    assert CcbOk(s, s.com[c].t, x);
  }

  lemma CcbFrame(s: State, s': State, h: nat, x: nat, t: nat, y: nat)
    requires HStep(s, s', h, x) && t in s.txgs && y != x && CcbOk(s, t, y) && XOk(s, y)
    ensures CcbOk(s', t, y)
  {
  }

  lemma HandlerLists(s: State, s': State, h: nat, x: nat, t: nat)
    requires Inv(s) && HStep(s, s', h, x) && t in s.txgs
    requires s'.txgs[t].pending - s.txgs[t].pending == One(Pin(s'.han[h]) == Some(t)) - One(Pin(s.han[h]) == Some(t))
    requires s'.txgs[t].ccb != s.txgs[t].ccb ==> x !in s.txgs[t].ccb && s.txgs[t].closer == None
    requires x in s'.txgs[t].ccb ==> CcbOk(s', t, x)
    ensures TOk(s', t)
  {
    hide XOk, HOk, COk, CcbOk, LruOk, Pin, Pins;
    assert TOk(s, t);
    PinsMove(s.han, h, s'.han[h], t);
    forall y | y in s'.txgs[t].ccb ensures CcbOk(s', t, y) {
      if y != x { CcbHolds(s, t, y); CcbFrame(s, s', h, x, t, y); }
    }
  }

  lemma HandlerThreads(s: State, s': State, h: nat, x: nat, c: nat)
    requires Inv(s) && HStep(s, s', h, x) && c in s.com && ((x in s'.lru <==> x in s.lru) || !Handled(s, x))
    requires x in s.txs ==> KeepsMark(s, s', x) || !Handled(s, x)
    ensures COk(s', c)
  {
    if Handled(s, x) { HandledIsNormal(s, x); }
    assert COk(s, c);
    hide Inv, COk, Handled, HStep;
    CFrame(s, s', h, x, c);
  }

  /** What is left to show for a step of handler h on x. */
  lemma HandlerKeeps(s: State, s': State, h: nat, x: nat)
    requires Inv(s) && HStep(s, s', h, x) && XOk(s', x) && HOk(s', h) && LruOk(s')
    requires (x in s'.lru <==> x in s.lru) || !Handled(s, x)
    requires x in s.txs ==> KeepsMark(s, s', x) || !Handled(s, x)
    requires forall t | t in s.txgs ::
               s'.txgs[t].pending - s.txgs[t].pending == One(Pin(s'.han[h]) == Some(t)) - One(Pin(s.han[h]) == Some(t))
    requires forall t | t in s.txgs && s'.txgs[t].ccb != s.txgs[t].ccb :: x !in s.txgs[t].ccb && s.txgs[t].closer == None
    requires forall t | t in s.txgs && x in s'.txgs[t].ccb :: CcbOk(s', t, x)
    ensures Inv(s')
  {
    hide XOk, HOk, COk, CcbOk, TOk, LruOk, Pin, Handled;
    forall y | y in s'.txs ensures XOk(s', y) { if y != x { XFrame(s, s', h, x, y); } }
    forall g | g in s'.han ensures HOk(s', g) { if g != h { HFrame(s, s', h, x, g); } }
    forall c | c in s'.com ensures COk(s', c) { HandlerThreads(s, s', h, x, c); }
    forall t | t in s'.txgs ensures TOk(s', t) { HandlerLists(s, s', h, x, t); }
  }

  lemma CcbHolds(s: State, t: nat, y: nat)
    requires Inv(s) && t in s.txgs && y in s.txgs[t].ccb
    ensures CcbOk(s, t, y) && y in s.txs && XOk(s, y)
  {
    assert TOk(s, t);
  }

  /** A transaction on no callback list: its handler has just begun, or it is not for commit. */
  lemma Unlisted(s: State, x: nat)
    requires Inv(s) && (x !in s.txs || s.txs[x].op != Normal
                        || (s.txs[x].holder.Some? && s.txs[x].holder.value in s.han
                            && (s.han[s.txs[x].holder.value].Popped? || s.han[s.txs[x].holder.value].Pinned?)))
    ensures forall t | t in s.txgs :: x !in s.txgs[t].ccb
  {
    hide XOk, HOk, COk, LruOk, Distinct, Pins;
    forall t | t in s.txgs ensures x !in s.txgs[t].ccb {
      assert TOk(s, t);
      assert x in s.txgs[t].ccb ==> CcbOk(s, t, x);
    }
  }

  /** A transaction at rest on the LRU list is on no callback list. */
  lemma RestedUnlisted(s: State, x: nat)
    requires Inv(s) && x in s.lru && Rested(s, x)
    ensures forall t | t in s.txgs :: x !in s.txgs[t].ccb
  {
    hide XOk, HOk, COk, LruOk, Distinct, Pins;
    forall t | t in s.txgs ensures x !in s.txgs[t].ccb {
      assert TOk(s, t);
      assert x in s.txgs[t].ccb ==> CcbOk(s, t, x);
    }
  }

  lemma TakeShape(s: State, h: nat, s': State)
    requires AllocNext(s, Take(h), s') && Rested(s, s.lru[0]) && s.lru[0] !in s'.lru
    requires forall y | y != s.lru[0] :: y in s'.lru <==> y in s.lru
    ensures HStep(s, s', h, s.lru[0]) && XOk(s', s.lru[0]) && HOk(s', h)
  {
  }

  lemma TakeKeeps(s: State, h: nat, s': State)
    requires Inv(s) && AllocNext(s, Take(h), s') && Calm(s, Take(h))
    ensures Inv(s')
  {
    var x := s.lru[0];
    RestedUnlisted(s, x);
    assert !Handled(s, x);
    hide Handled;
    TakeLru(s, h, s');
    TakeShape(s, h, s');
    hide Inv, LruOk, COk, CcbOk, XOk, HOk, HStep;
    HandlerKeeps(s, s', h, x);
  }

  lemma TakeLru(s: State, h: nat, s': State)
    requires LruOk(s) && AllocNext(s, Take(h), s')
    ensures LruOk(s') && s.lru[0] !in s'.lru && forall y | y != s.lru[0] :: y in s'.lru <==> y in s.lru
  {
    assert s.lru == [s.lru[0]] + s.lru[1..];
    assert s'.txs.Keys == s.txs.Keys;
    assert |s'.txs| == |s'.txs.Keys| && |s.txs| == |s.txs.Keys|;
  }

  lemma AllocKeeps(s: State, h: nat, x: nat, s': State)
    requires Inv(s) && AllocNext(s, Alloc(h, x), s')
    ensures Inv(s')
  {
    Unlisted(s, x);
    if Handled(s, x) { HandledIsNormal(s, x); }
    assert HOk(s, h);
    AllocLru(s, h, x, s');
    hide Inv, LruOk, COk, CcbOk, Handled;
    HandlerKeeps(s, s', h, x);
  }

  lemma AllocLru(s: State, h: nat, x: nat, s': State)
    requires LruOk(s) && AllocNext(s, Alloc(h, x), s')
    ensures LruOk(s') && x !in s.lru
  {
    assert s'.txs.Keys == s.txs.Keys + {x};
    assert |s'.txs| == |s'.txs.Keys| && |s.txs| == |s.txs.Keys|;
  }

  /** Steps that leave the LRU list and the set of transactions alone. */
  lemma SameLru(s: State, s': State)
    requires LruOk(s) && s'.lru == s.lru && s'.ftx == s.ftx && s'.total == s.total && s'.txs.Keys == s.txs.Keys
    ensures LruOk(s')
  {
    assert |s'.txs| == |s'.txs.Keys| && |s.txs| == |s.txs.Keys|;
  }

  /** Steps by which x joins the LRU list. */
  lemma JoinLru(s: State, s': State, x: nat)
    requires LruOk(s) && x in s.txs && x !in s.lru
    requires s'.lru == s.lru + [x] && s'.ftx == s.ftx + 1 && s'.total == s.total && s'.txs.Keys == s.txs.Keys
    ensures LruOk(s') && x in s'.lru && forall y | y != x :: y in s'.lru <==> y in s.lru
  {
    assert |s'.txs| == |s'.txs.Keys| && |s.txs| == |s.txs.Keys|;
  }

  lemma StartShape(s: State, h: nat, op: Op, t: nat, s': State)
    requires AllocNext(s, Start(h, op, t), s') && HOk(s, h) && XOk(s, s.han[h].x)
    ensures HStep(s, s', h, s.han[h].x) && XOk(s', s.han[h].x) && HOk(s', h)
  {
  }

  lemma StartKeeps(s: State, h: nat, op: Op, t: nat, s': State)
    requires Inv(s) && AllocNext(s, Start(h, op, t), s')
    ensures Inv(s')
  {
    assert HOk(s, h);
    StartShape(s, h, op, t, s');
    Unlisted(s, s.han[h].x);
    SameLru(s, s');
    hide Inv, LruOk, COk, CcbOk, Handled, XOk, HOk, HStep;
    HandlerKeeps(s, s', h, s.han[h].x);
  }

  lemma FixShape(s: State, h: nat, s': State)
    requires AllocNext(s, Fix(h), s') && HOk(s, h) && XOk(s, s.han[h].x)
    requires forall t | t in s.txgs :: s.han[h].x !in s.txgs[t].ccb
    ensures HStep(s, s', h, s.han[h].x) && XOk(s', s.han[h].x) && HOk(s', h)
    ensures forall t | t in s.txgs && s.han[h].x in s'.txgs[t].ccb :: CcbOk(s', t, s.han[h].x)
  {
  }

  lemma FixKeeps(s: State, h: nat, s': State)
    requires Inv(s) && AllocNext(s, Fix(h), s')
    ensures Inv(s')
  {
    assert HOk(s, h) && XOk(s, s.han[h].x);
    Unlisted(s, s.han[h].x);
    FixShape(s, h, s');
    SameLru(s, s');
    hide Inv, LruOk, COk, CcbOk, Handled, XOk, HOk, HStep;
    HandlerKeeps(s, s', h, s.han[h].x);
  }

  lemma NewTxgFrame(s: State, t: nat, s': State)
    requires AllocNext(s, NewTxg(t), s')
    ensures forall u | u in s.txgs && TOk(s, u) :: TOk(s', u)
    ensures forall x | x in s.txs && XOk(s, x) :: XOk(s', x)
    ensures forall c | c in s.com && COk(s, c) :: COk(s', c)
    ensures forall h | h in s.han && HOk(s, h) :: HOk(s', h)
  {
    hide Distinct, Pins, Rank;
  }

  /** A new TXG that nobody knows. */
  lemma NewTxgKeeps(s: State, t: nat, s': State)
    requires Inv(s) && AllocNext(s, NewTxg(t), s')
    ensures Inv(s')
  {
    SameLru(s, s');
    NewTxgFrame(s, t, s');
    hide LruOk, XOk, COk;
    NoPins(s, t);
    hide HOk, Pins;
  }

  lemma NoPins(s: State, t: nat)
    requires (forall h | h in s.han :: HOk(s, h)) && t !in s.txgs
    ensures Pins(s.han, t) == {}
  {
    forall h | h in s.han ensures Pin(s.han[h]) != Some(t) { assert HOk(s, h); }
  }

  // -------------------------------------------------- done, reply

  lemma DoneMarkShape(s: State, h: nat, s': State)
    requires DoneNext(s, DoneMark(h), s') && HOk(s, h) && XOk(s, s.han[h].x)
    ensures HStep(s, s', h, s.han[h].x) && XOk(s', s.han[h].x) && HOk(s', h) && s'.han[h].Marked?
    ensures forall t | t in s.txgs && s.han[h].x in s.txgs[t].ccb && CcbOk(s, t, s.han[h].x) :: CcbOk(s', t, s.han[h].x)
  {
  }

  lemma DoneMarkKeeps(s: State, h: nat, s': State)
    requires Inv(s) && DoneNext(s, DoneMark(h), s')
    ensures Inv(s')
  {
    assert HOk(s, h) && XOk(s, s.han[h].x);
    AllCcb(s, s.han[h].x);
    DoneMarkShape(s, h, s');
    SameLru(s, s');
    hide Inv, LruOk, COk, CcbOk, Handled, XOk, HOk, HStep;
    HandlerKeeps(s, s', h, s.han[h].x);
  }

  lemma AllCcb(s: State, x: nat)
    requires Inv(s)
    ensures forall t | t in s.txgs && x in s.txgs[t].ccb :: CcbOk(s, t, x)
  {
    hide XOk, HOk, COk, LruOk, Distinct, Pins;
    assert forall t | t in s.txgs :: TOk(s, t);
  }

  lemma DoneParkShape(s: State, h: nat, s': State)
    requires DoneNext(s, DonePark(h), s') && HOk(s, h) && XOk(s, s.han[h].x)
    ensures HStep(s, s', h, s.han[h].x) && XOk(s', s.han[h].x) && HOk(s', h) && s'.han[h].Parked?
    ensures s.txs[s.han[h].x].op == Forget || s'.lru == s.lru
    ensures forall t | t in s.txgs && s.han[h].x in s.txgs[t].ccb && CcbOk(s, t, s.han[h].x) :: CcbOk(s', t, s.han[h].x)
  {
  }

  lemma DoneParkKeeps(s: State, h: nat, s': State)
    requires Inv(s) && DoneNext(s, DonePark(h), s')
    ensures Inv(s')
  {
    var x := s.han[h].x;
    assert HOk(s, h) && XOk(s, x);
    AllCcb(s, x);
    if Handled(s, x) { HandledIsNormal(s, x); }
    DoneParkShape(s, h, s');
    if s.txs[x].op == Forget { JoinLru(s, s', x); } else { SameLru(s, s'); }
    hide Inv, LruOk, COk, CcbOk, Handled, XOk, HOk, HStep;
    HandlerKeeps(s, s', h, x);
  }

  lemma DonePutShape(s: State, h: nat, s': State)
    requires DoneNext(s, DonePut(h), s') && HOk(s, h) && XOk(s, s.han[h].x)
    ensures HStep(s, s', h, s.han[h].x) && XOk(s', s.han[h].x) && HOk(s', h) && s'.han[h].Put?
    ensures s.txs[s.han[h].x].txg == s.han[h].t
    ensures forall t | t in s.txgs && s.han[h].x in s.txgs[t].ccb && CcbOk(s, t, s.han[h].x) :: CcbOk(s', t, s.han[h].x)
  {
  }

  lemma DonePutKeeps(s: State, h: nat, s': State)
    requires Inv(s) && DoneNext(s, DonePut(h), s')
    ensures Inv(s')
  {
    assert HOk(s, h) && XOk(s, s.han[h].x);
    AllCcb(s, s.han[h].x);
    DonePutShape(s, h, s');
    SameLru(s, s');
    hide Inv, LruOk, COk, CcbOk, Handled, XOk, HOk, HStep;
    HandlerKeeps(s, s', h, s.han[h].x);
  }

  lemma ReplyTestShape(s: State, h: nat, s': State)
    requires ReplyNext(s, ReplyTest(h), s') && HOk(s, h) && XOk(s, s.han[h].x)
    ensures HStep(s, s', h, s.han[h].x) && XOk(s', s.han[h].x) && HOk(s', h) && Pin(s'.han[h]) == None
    ensures forall t | t in s.txgs && s.han[h].x in s.txgs[t].ccb && CcbOk(s, t, s.han[h].x) :: CcbOk(s', t, s.han[h].x)
  {
  }

  lemma ReplyTestKeeps(s: State, h: nat, s': State)
    requires Inv(s) && ReplyNext(s, ReplyTest(h), s')
    ensures Inv(s')
  {
    assert HOk(s, h) && XOk(s, s.han[h].x);
    AllCcb(s, s.han[h].x);
    ReplyTestShape(s, h, s');
    SameLru(s, s');
    hide Inv, LruOk, COk, CcbOk, Handled, XOk, HOk, HStep;
    HandlerKeeps(s, s', h, s.han[h].x);
  }

  lemma ReplyStoreShape(s: State, h: nat, s': State)
    requires ReplyNext(s, ReplyStore(h), s') && HOk(s, h) && XOk(s, s.han[h].x)
    ensures HStep(s, s', h, s.han[h].x) && XOk(s', s.han[h].x) && HOk(s', h) && Pin(s'.han[h]) == None
    ensures forall t | t in s.txgs && s.han[h].x in s.txgs[t].ccb && CcbOk(s, t, s.han[h].x) :: CcbOk(s', t, s.han[h].x)
  {
  }

  lemma ReplyStoreKeeps(s: State, h: nat, s': State)
    requires Inv(s) && ReplyNext(s, ReplyStore(h), s')
    ensures Inv(s')
  {
    assert HOk(s, h) && XOk(s, s.han[h].x);
    AllCcb(s, s.han[h].x);
    ReplyStoreShape(s, h, s');
    SameLru(s, s');
    hide Inv, LruOk, COk, CcbOk, Handled, XOk, HOk, HStep;
    HandlerKeeps(s, s', h, s.han[h].x);
  }

  lemma ReplyParkShape(s: State, h: nat, s': State)
    requires ReplyNext(s, ReplyPark(h), s') && HOk(s, h) && XOk(s, s.han[h].x)
    ensures HStep(s, s', h, s.han[h].x) && XOk(s', s.han[h].x) && HOk(s', h) && Pin(s'.han[h]) == None
    ensures s.txs[s.han[h].x].op == NoCommit
    ensures forall t | t in s.txgs && s.han[h].x in s.txgs[t].ccb && CcbOk(s, t, s.han[h].x) :: CcbOk(s', t, s.han[h].x)
  {
  }

  lemma ReplyParkKeeps(s: State, h: nat, s': State)
    requires Inv(s) && ReplyNext(s, ReplyPark(h), s')
    ensures Inv(s')
  {
    var x := s.han[h].x;
    assert HOk(s, h) && XOk(s, x);
    AllCcb(s, x);
    if Handled(s, x) { HandledIsNormal(s, x); }
    ReplyParkShape(s, h, s');
    JoinLru(s, s', x);
    hide Inv, LruOk, COk, CcbOk, Handled, XOk, HOk, HStep;
    HandlerKeeps(s, s', h, x);
  }

  // -------------------------------------------------- commit callbacks

  /** Commit thread c acts on the callback list of t and on its first transaction x. */
  ghost predicate CStep(s: State, s': State, c: nat, t: nat, x: nat) {
    && c in s.com && c in s'.com && s'.com == s.com[c := s'.com[c]] && s'.han == s.han
    && t in s.txgs && t in s'.txgs && s'.txgs == s.txgs[t := s'.txgs[t]] && s'.txgs[t].pending == s.txgs[t].pending
    && s.txgs[t].closer == Some(c) == s'.txgs[t].closer && s.txgs[t].ccb != [] && s.txgs[t].ccb[0] == x
    && x in s.txs && x in s'.txs && s'.txs == s.txs[x := s'.txs[x]] && s'.txs[x].holder == s.txs[x].holder
    && (s'.txgs[t].ccb == s.txgs[t].ccb || s'.txgs[t].ccb == s.txgs[t].ccb[1..])
    && (forall y | y != x :: y in s'.lru <==> y in s.lru)
  }

  lemma CbX(s: State, s': State, c: nat, t: nat, x: nat, y: nat)
    requires CStep(s, s', c, t, x) && y in s.txs && y != x && XOk(s, y)
    ensures XOk(s', y)
  {
    assert s.txgs[t].ccb == [x] + s.txgs[t].ccb[1..];
  }

  lemma CbC(s: State, s': State, c: nat, t: nat, x: nat, d: nat)
    requires CStep(s, s', c, t, x) && d in s.com && d != c && COk(s, d)
    requires (s.com[d].CMark? || s.com[d].CListed?) ==> s.com[d].x != x
    ensures COk(s', d)
  {
  }

  /** Another commit thread is at work on another TXG, and so on another transaction. */
  lemma OtherX(s: State, c: nat, t: nat, x: nat, d: nat)
    requires Inv(s) && t in s.txgs && s.txgs[t].closer == Some(c) && x in s.txgs[t].ccb && d in s.com && d != c
    ensures (s.com[d].CMark? || s.com[d].CListed?) ==> s.com[d].x != x
  {
    hide XOk, HOk, LruOk, Distinct, Pins;
    assert COk(s, d) && TOk(s, t) && CcbOk(s, t, x);
    if s.com[d].CMark? || s.com[d].CListed? { assert TOk(s, s.com[d].t); assert CcbOk(s, s.com[d].t, s.com[d].x); }
  }

  lemma CbCcb(s: State, s': State, c: nat, t: nat, x: nat, u: nat, y: nat)
    requires CStep(s, s', c, t, x) && u in s.txgs && y != x && CcbOk(s, u, y)
    requires s.com[c] == CRun(t) || ((s.com[c].CMark? || s.com[c].CListed?) && s.com[c].x == x)
    ensures CcbOk(s', u, y)
  {
  }

  lemma CbThreads(s: State, s': State, c: nat, t: nat, x: nat)
    requires Inv(s) && CStep(s, s', c, t, x) && COk(s', c)
    ensures forall d | d in s'.com :: COk(s', d)
  {
    hide XOk, HOk, COk, CcbOk, LruOk, Pins, Distinct;
    forall d | d in s'.com ensures COk(s', d) { if d != c { OtherX(s, c, t, x, d); CbC(s, s', c, t, x, d); } }
  }

  lemma CbLists(s: State, s': State, c: nat, t: nat, x: nat)
    requires Inv(s) && CStep(s, s', c, t, x)
    requires s.com[c] == CRun(t) || ((s.com[c].CMark? || s.com[c].CListed?) && s.com[c].x == x)
    requires s'.txgs[t].ccb == s.txgs[t].ccb ==> CcbOk(s', t, x)
    requires Calls(s'.com[c], t)
    ensures forall u | u in s'.txgs :: TOk(s', u)
  {
    AllCcb(s, x);
    assert forall u | u in s.txgs && x in s.txgs[u].ccb :: u == t;
    hide XOk, HOk, COk, CcbOk, LruOk, Pins;
    assert TOk(s, t);
    forall u | u in s'.txgs ensures TOk(s', u) {
      assert TOk(s, u);
      assert s.txgs[t].ccb == [x] + s.txgs[t].ccb[1..];
      forall y | y in s'.txgs[u].ccb ensures CcbOk(s', u, y) {
        if y != x { CcbHolds(s, u, y); CbCcb(s, s', c, t, x, u, y); }
      }
    }
  }

  lemma CbKeeps(s: State, s': State, c: nat, t: nat, x: nat)
    requires Inv(s) && CStep(s, s', c, t, x) && XOk(s', x) && COk(s', c) && LruOk(s')
    requires s.com[c] == CRun(t) || ((s.com[c].CMark? || s.com[c].CListed?) && s.com[c].x == x)
    requires s'.txgs[t].ccb == s.txgs[t].ccb ==> CcbOk(s', t, x)
    requires Calls(s'.com[c], t)
    ensures Inv(s')
  {
    hide XOk, COk, CcbOk, LruOk, TOk, HOk;
    CbThreads(s, s', c, t, x);
    CbLists(s, s', c, t, x);
    forall y | y in s'.txs ensures XOk(s', y) { if y != x { CbX(s, s', c, t, x, y); } }
    forall h | h in s'.han ensures HOk(s', h) { CbHandlers(s, s', c, t, x, h); }
  }

  lemma CbHandlers(s: State, s': State, c: nat, t: nat, x: nat, h: nat)
    requires CStep(s, s', c, t, x) && h in s.han && HOk(s, h)
    ensures HOk(s', h)
  {
  }

  lemma CloseKeeps(s: State, c: nat, t: nat, s': State)
    requires Inv(s) && CbNext(s, Close(c, t), s')
    ensures Inv(s')
  {
    assert TOk(s, t);
    SameLru(s, s');
    NobodyPins(s, t);
    CloseFrame(s, c, t, s');
    hide LruOk, XOk, COk, HOk, TOk;
  }

  /** Nothing pending: no handler pins the TXG. */
  lemma NobodyPins(s: State, t: nat)
    requires t in s.txgs && TOk(s, t) && s.txgs[t].pending == 0
    ensures forall h | h in s.han :: Pin(s.han[h]) != Some(t)
  {
    assert Pins(s.han, t) == {};
    assert forall h | h in s.han && Pin(s.han[h]) == Some(t) :: h in Pins(s.han, t);
  }

  lemma CloseFrame(s: State, c: nat, t: nat, s': State)
    requires CbNext(s, Close(c, t), s') && forall h | h in s.han :: Pin(s.han[h]) != Some(t)
    ensures forall u | u in s.txgs && TOk(s, u) :: TOk(s', u)
    ensures forall x | x in s.txs && XOk(s, x) :: XOk(s', x)
    ensures forall d | d in s.com && COk(s, d) :: COk(s', d)
    ensures forall h | h in s.han && HOk(s, h) :: HOk(s', h)
  {
    hide Distinct, Pins, Rank;
  }

  lemma CbTestShape(s: State, c: nat, s': State)
    requires CbNext(s, CbTest(c), s') && COk(s, c)
    requires var t := s.com[c].t; CcbOk(s, t, s.txgs[t].ccb[0]) && XOk(s, s.txgs[t].ccb[0])
    requires forall h | h in s.han && HOk(s, h) :: Pin(s.han[h]) != Some(s.com[c].t)
    requires forall h | h in s.han :: HOk(s, h)
    ensures var t := s.com[c].t; var x := s.txgs[t].ccb[0];
            && Rank(Done) <= Rank(s.txs[x].state) <= Rank(Acked)
            && CStep(s, s', c, t, x) && XOk(s', x) && COk(s', c) && CcbOk(s', t, x)
  {
  }

  /** A closed TXG is pinned by no handler. */
  lemma ClosedIsUnpinned(s: State, t: nat)
    requires Inv(s) && t in s.txgs && s.txgs[t].closer.Some?
    ensures forall h | h in s.han :: HOk(s, h) && Pin(s.han[h]) != Some(t)
  {
    assert forall h | h in s.han :: HOk(s, h);
  }

  /** The callback always commits. */
  lemma CallbackCommits(s: State, c: nat, s': State)
    requires Inv(s) && CbNext(s, CbTest(c), s')
    ensures var t := s.com[c].t; var x := s.txgs[t].ccb[0];
            && Rank(Done) <= Rank(s.txs[x].state) <= Rank(Acked)
            && s' == SetCom(SetState(s, x, Committed), c, CMark(t, x))
  {
    var t := s.com[c].t;
    assert COk(s, c);
    ClosedIsUnpinned(s, t);
    CcbHolds(s, t, s.txgs[t].ccb[0]);
    CbTestShape(s, c, s');
  }

  lemma CbTestKeeps(s: State, c: nat, s': State)
    requires Inv(s) && CbNext(s, CbTest(c), s')
    ensures Inv(s')
  {
    var t := s.com[c].t;
    assert COk(s, c);
    ClosedIsUnpinned(s, t);
    CcbHolds(s, t, s.txgs[t].ccb[0]);
    SameLru(s, s');
    CbTestShape(s, c, s');
    hide Inv, LruOk, COk, CcbOk, XOk, HOk, CStep;
    CbKeeps(s, s', c, t, s.txgs[t].ccb[0]);
  }

  lemma CbParkShape(s: State, c: nat, s': State)
    requires CbNext(s, CbPark(c), s') && COk(s, c)
    requires var t := s.com[c].t; CcbOk(s, t, s.txgs[t].ccb[0]) && XOk(s, s.txgs[t].ccb[0])
    requires forall h | h in s.han :: Pin(s.han[h]) != Some(s.com[c].t)
    ensures var t := s.com[c].t; var x := s.txgs[t].ccb[0];
            && x == s.com[c].x && s.txs[x].op == Normal
            && CStep(s, s', c, t, x) && XOk(s', x) && COk(s', c) && CcbOk(s', t, x)
  {
  }

  lemma CbParkKeeps(s: State, c: nat, s': State)
    requires Inv(s) && CbNext(s, CbPark(c), s')
    ensures Inv(s')
  {
    var t := s.com[c].t;
    assert COk(s, c);
    ClosedIsUnpinned(s, t);
    CcbHolds(s, t, s.txgs[t].ccb[0]);
    CbParkShape(s, c, s');
    JoinLru(s, s', s.com[c].x);
    hide Inv, LruOk, COk, CcbOk, XOk, HOk, CStep;
    CbKeeps(s, s', c, t, s.txgs[t].ccb[0]);
  }

  lemma CbDelShape(s: State, c: nat, s': State)
    requires CbNext(s, CbDel(c), s') && COk(s, c) && Distinct(s.txgs[s.com[c].t].ccb)
    requires var t := s.com[c].t; CcbOk(s, t, s.txgs[t].ccb[0]) && XOk(s, s.txgs[t].ccb[0])
    requires forall h | h in s.han :: Pin(s.han[h]) != Some(s.com[c].t)
    ensures var t := s.com[c].t; var x := s.txgs[t].ccb[0];
            && x == s.com[c].x && s'.txgs[t].ccb == s.txgs[t].ccb[1..] && s'.txgs[t].ccb != s.txgs[t].ccb
            && CStep(s, s', c, t, x) && XOk(s', x) && COk(s', c)
  {
    hide Distinct;
  }

  lemma CbDelKeeps(s: State, c: nat, s': State)
    requires Inv(s) && CbNext(s, CbDel(c), s')
    ensures Inv(s')
  {
    var t := s.com[c].t;
    assert COk(s, c);
    assert TOk(s, t);
    ClosedIsUnpinned(s, t);
    CcbHolds(s, t, s.txgs[t].ccb[0]);
    SameLru(s, s');
    CbDelShape(s, c, s');
    hide Inv, LruOk, COk, CcbOk, XOk, HOk, CStep, TOk;
    CbKeeps(s, s', c, t, s.txgs[t].ccb[0]);
  }

  lemma CbEndKeeps(s: State, c: nat, s': State)
    requires Inv(s) && CbNext(s, CbEnd(c), s')
    ensures Inv(s')
  {
    SameLru(s, s');
    assert COk(s, c);
    CbEndFrame(s, c, s');
    hide LruOk, XOk, COk, HOk, TOk;
  }

  lemma CbEndFrame(s: State, c: nat, s': State)
    requires CbNext(s, CbEnd(c), s') && COk(s, c)
    ensures forall u | u in s.txgs && TOk(s, u) :: TOk(s', u)
    ensures forall x | x in s.txs && XOk(s, x) :: XOk(s', x)
    ensures forall d | d in s.com && COk(s, d) :: COk(s', d)
    ensures forall h | h in s.han && HOk(s, h) :: HOk(s', h)
  {
    hide Distinct, Pins, Rank;
  }

  // ------------------------------------------------------------ all steps

  lemma AllocKeepsInv(s: State, a: Act, s': State)
    requires Inv(s) && AllocNext(s, a, s') && Calm(s, a)
    ensures Inv(s')
  {
    hide Inv, Calm;
    match a
    case NewTxg(t) => NewTxgKeeps(s, t, s');
    case Take(h) => TakeKeeps(s, h, s');
    case Alloc(h, x) => AllocKeeps(s, h, x, s');
    case Start(h, op, t) => StartKeeps(s, h, op, t, s');
    case Fix(h) => FixKeeps(s, h, s');
    case _ =>
  }

  lemma DoneKeepsInv(s: State, a: Act, s': State)
    requires Inv(s) && DoneNext(s, a, s')
    ensures Inv(s')
  {
    hide Inv;
    match a
    case DoneMark(h) => DoneMarkKeeps(s, h, s');
    case DonePark(h) => DoneParkKeeps(s, h, s');
    case DonePut(h) => DonePutKeeps(s, h, s');
    case _ =>
  }

  lemma ReplyKeepsInv(s: State, a: Act, s': State)
    requires Inv(s) && ReplyNext(s, a, s')
    ensures Inv(s')
  {
    hide Inv;
    match a
    case ReplyTest(h) => ReplyTestKeeps(s, h, s');
    case ReplyStore(h) => ReplyStoreKeeps(s, h, s');
    case ReplyPark(h) => ReplyParkKeeps(s, h, s');
    case _ =>
  }

  lemma CbKeepsInv(s: State, a: Act, s': State)
    requires Inv(s) && CbNext(s, a, s')
    ensures Inv(s')
  {
    hide Inv;
    match a
    case Close(c, t) => CloseKeeps(s, c, t, s');
    case CbTest(c) => CbTestKeeps(s, c, s');
    case CbPark(c) => CbParkKeeps(s, c, s');
    case CbDel(c) => CbDelKeeps(s, c, s');
    case CbEnd(c) => CbEndKeeps(s, c, s');
    case _ =>
  }

  lemma NextKeepsInv(s: State, a: Act, s': State)
    requires Inv(s) && Next(s, a, s') && Calm(s, a)
    ensures Inv(s')
  {
    hide Inv, Calm, AllocNext, DoneNext, ReplyNext, CbNext;
    if AllocNext(s, a, s') { AllocKeepsInv(s, a, s'); }
    if DoneNext(s, a, s') { DoneKeepsInv(s, a, s'); }
    if ReplyNext(s, a, s') { ReplyKeepsInv(s, a, s'); }
    if CbNext(s, a, s') { CbKeepsInv(s, a, s'); }
  }

  /** The invariant holds in every state of every calm run. */
  lemma {:induction false} CalmRunKeepsInv(ss: seq<State>, acts: seq<Act>, k: nat)
    requires CalmRun(ss, acts) && k < |ss|
    ensures Inv(ss[k])
  {
    hide Next, Inv, Calm;
    if k == 0 {
      InitInv(ss[0]);
    } else {
      CalmRunKeepsInv(ss, acts, k - 1);
      assert Next(ss[k - 1], acts[k - 1], ss[k]) && Calm(ss[k - 1], acts[k - 1]);
      NextKeepsInv(ss[k - 1], acts[k - 1], ss[k]);
    }
  }
}
