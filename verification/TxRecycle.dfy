/** Which recyclings of a transaction keep the accounting right: exactly those
    of a transaction at rest. */
module TxRecycle {
  import opened Common
  import opened TxModel
  import opened TxInvariant
  import opened TxSteps
  import opened TxPaths

  // ------------------------------------------------------------ the accounts

  /** A handler works with x. */
  ghost predicate Held(s: State, x: nat) { exists h | h in s.han :: s.han[h] != Idle && s.han[h].x == x }

  /** Transaction x is free, or with a handler, or waits for its callback. */
  ghost predicate Accounted(s: State, x: nat)
    requires x in s.txs
  {
    x in s.lru || Held(s, x) || (s.txs[x].op == Normal && Listed(s, x))
  }

  /** The LRU list holds each transaction once and ftx and total count right; the
      pending counter of every TXG counts the handlers that pin it; no
      transaction is lost; and callbacks that run find every transaction DONE. */
  ghost predicate Accounts(s: State) {
    && Distinct(s.lru) && s.ftx == |s.lru| && s.total == |s.txs|
    && (forall t | t in s.txgs :: s.txgs[t].pending == |Pins(s.han, t)|)
    && (forall x | x in s.txs :: Accounted(s, x))
    && (forall t, x | t in s.txgs && s.txgs[t].closer.Some? && x in s.txgs[t].ccb ::
          x in s.txs && Rank(s.txs[x].state) >= Rank(Done))
  }

  /** They are right in every continuation that recycles at rest from now on. */
  ghost predicate StaysAccounted(s: State) { forall z | Leads(s, z, true) :: Accounts(z) }

  lemma InvAccounts(s: State)
    requires Inv(s)
    ensures Accounts(s)
  {
    hide Pins;
    forall x | x in s.txs ensures Accounted(s, x) {
      assert XOk(s, x);
      if s.txs[x].holder.Some? { assert HOk(s, s.txs[x].holder.value); }
    }
    forall t, x | t in s.txgs && s.txgs[t].closer.Some? && x in s.txgs[t].ccb
      ensures x in s.txs && Rank(s.txs[x].state) >= Rank(Done)
    {
      assert TOk(s, t);
      CcbHolds(s, t, x);
      ClosedIsUnpinned(s, t);
    }
  }

  lemma RestedStays(s: State, h: nat, s': State)
    requires Inv(s) && AllocNext(s, Take(h), s') && Rested(s, s.lru[0])
    ensures StaysAccounted(s')
  {
    TakeKeeps(s, h, s');
    hide Inv, Accounts, Leads, Rested, AllocNext;
    forall z | Leads(s', z, true) ensures Accounts(z) {
      LeadsKeepsInv(s', z);
      InvAccounts(z);
    }
  }

  // --------------------------------------------- and what happens otherwise

  /** Handler h has just taken x, and no handler pins TXG t. */
  ghost predicate Taken(s: State, h: nat, x: nat, t: nat) {
    h in s.han && s.han[h] == Popped(x) && x in s.txs && t !in s.txgs && Pins(s.han, t) == {}
  }

  /** The old handler has parked x and not yet put its TXG: it puts the new one. */
  lemma ParkedFails(o: State, s: State, h: nat, x: nat, t: nat, g: nat) returns (z: State)
    requires Leads(o, s, true) && Taken(s, h, x, t) && g in s.han && g != h && s.han[g].Parked? && s.han[g].x == x
    ensures Leads(o, z, true) && t in z.txgs && z.txgs[t].pending == 0 && h in z.han && Pin(z.han[h]) == Some(t)
    ensures z.txs == s.txs[x := Tx(Normal, Processing, t, 0, Some(h))] && h in z.han && z.han[h] == Working(x, t)
    ensures z.txgs[t] == Txg(0, [x], None) && z.com == s.com
  {
    hide Leads;
    var a := Begin(o, s, h, Normal, t, true);
    var b := Listing(o, a, h, true);
    z := SetHan(b, g, Put(x)).(txgs := b.txgs[t := b.txgs[t].(pending := 0)]);
    ByDone(o, b, DonePut(g), z, true);
  }

  /** The old handler is about to store ACKED: its store makes the new handler
      give up before it has put its TXG. */
  lemma AckingFails(o: State, s: State, h: nat, x: nat, t: nat, g: nat) returns (z: State)
    requires Leads(o, s, true) && h in s.han && g in s.han && g != h && s.han[h] == Pinned(x, t) && s.han[g] == Acking(x)
    requires x in s.txs && s.txs[x] == Tx(Normal, Processing, t, 0, Some(h)) && t in s.txgs && s.txgs[t] == Txg(1, [], None)
    ensures Leads(o, z, true) && t in z.txgs && z.txgs[t].pending == 1
    ensures z.han == s.han[g := Idle][h := Put(x)]
  {
    hide Leads;
    var a := Store(o, s, g, true);
    var b := Listing(o, a, h, true);
    z := SetHan(b, h, Put(x));
    ByDone(o, b, DoneMark(h), z, true);
  }

  lemma PutBackFails(o: State, s: State, h: nat, x: nat, t: nat, g: nat) returns (z: State)
    requires Leads(o, s, true) && Taken(s, h, x, t) && g in s.han && g != h && (s.han[g] == Put(x) || s.han[g] == Acking(x))
    ensures Leads(o, z, true) && t in z.txgs && z.txgs[t].pending == 1
    ensures z.han == s.han[g := Idle][h := Put(x)]
  {
    hide Leads, Pins;
    var a := Begin(o, s, h, Normal, t, true);
    if s.han[g] == Put(x) { a := Test(o, a, g, true); }
    z := AckingFails(o, a, h, x, t, g);
    assert z.han == s.han[g := Idle][h := Put(x)];
  }

  /** A commit thread has put x on the LRU list and not yet unlisted it: it
      unlists x from its new TXG, and nobody commits x any more. */
  lemma ListedFails(o: State, s: State, h: nat, x: nat, t: nat, c: nat) returns (z: State)
    requires Leads(o, s, true) && Taken(s, h, x, t) && x !in s.lru && c in s.com && s.com[c].CListed? && s.com[c].x == x
    requires s.com[c].t in s.txgs && forall g | g in s.han && g != h :: s.han[g] == Idle || s.han[g].x != x
    ensures Leads(o, z, true) && z.lru == s.lru && z.han == s.han[h := Idle] && t in z.txgs && z.txgs[t].ccb == []
    ensures z.txs == s.txs[x := Tx(Normal, Acked, t, 0, None)]
  {
    hide Leads, Pins;
    var a := Begin(o, s, h, Normal, t, true);
    var b := Listing(o, a, h, true);
    assert Drop([x], x) == [];
    var u := Unlist(Unlist(b.txgs, t, x), s.com[c].t, x);
    var d := SetCom(b, c, CRun(s.com[c].t)).(txgs := u);
    ByCb(o, b, CbDel(c), d, true);
    assert d.txgs[t] == Txg(1, [], None);
    var e := Finish(o, d, h, true);
    var f := Test(o, e, h, true);
    z := Store(o, f, h, true);
    assert z.han == s.han[h := Idle];
    assert z.txs == s.txs[x := Tx(Normal, Acked, t, 0, None)];
  }

  /** What can hold on to a transaction that is on the LRU list. */
  lemma Holders(s: State)
    requires Inv(s) && s.lru != [] && !Rested(s, s.lru[0])
    ensures s.lru[0] in s.txs
    ensures var x := s.lru[0];
            || (s.txs[x].holder.Some? && s.txs[x].holder.value in s.han && s.han[s.txs[x].holder.value] != Idle
                && s.han[s.txs[x].holder.value].x == x
                && (s.han[s.txs[x].holder.value].Parked? || s.han[s.txs[x].holder.value].Put? || s.han[s.txs[x].holder.value].Acking?))
            || (s.txs[x].holder == None && exists c: nat :: c in s.com && s.com[c].CListed? && s.com[c].x == x)
  {
    var x := s.lru[0];
    assert XOk(s, x);
    if s.txs[x].holder == None {
      var c :| c in s.com && ((s.com[c].CMark? && s.com[c].x == x) || (s.com[c].CListed? && s.com[c].x == x));
      assert COk(s, c);
    }
  }

  lemma FreshTxg(txgs: map<nat, Txg>) returns (t: nat)
    ensures t !in txgs
  {
    t := 0;
    var seen: set<nat> := {};
    while t in txgs
      invariant seen <= txgs.Keys && |seen| == t && forall x: nat | x in seen :: x < t
      decreases |txgs.Keys| - t
    {
      seen := seen + {t};
      Subset(seen, txgs.Keys);
      t := t + 1;
    }
  }

  lemma TakenNow(s: State, h: nat, s': State) returns (t: nat)
    requires Inv(s) && AllocNext(s, Take(h), s')
    ensures t !in s.txgs && Taken(s', h, s.lru[0], t) && s.lru[0] !in s'.lru && s.han[h] == Idle
    ensures forall g | g in s.han && g != h :: s'.han[g] == s.han[g]
  {
    t := FreshTxg(s.txgs);
    TakeLru(s, h, s');
    NoPins(s, t);
    assert Pins(s'.han, t) == {} by {
      forall g | g in s'.han ensures Pin(s'.han[g]) != Some(t) { if g != h { assert g !in Pins(s.han, t); } }
    }
  }

  /** With any other holder the accounts go wrong. */
  lemma UnrestedFails(s: State, h: nat, s': State)
    requires Inv(s) && AllocNext(s, Take(h), s') && !Rested(s, s.lru[0])
    ensures !StaysAccounted(s')
  {
    hide Leads;
    Holders(s);
    var t := TakenNow(s, h, s');
    Here(s', true);
    var x := s.lru[0];
    if s.txs[x].holder.Some? {
      var g := s.txs[x].holder.value;
      if s.han[g].Parked? {
        var z := ParkedFails(s', s', h, x, t, g);
        assert h in Pins(z.han, t);
        assert !Accounts(z);
      } else {
        var z := PutBackFails(s', s', h, x, t, g);
        assert Pins(z.han, t) == {} by { StillNone(s'.han, h, g, x, t); }
        assert !Accounts(z);
      }
    } else {
      var c: nat :| c in s.com && s.com[c].CListed? && s.com[c].x == x;
      assert COk(s, c);
      NoOther(s, h, s');
      var z := ListedFails(s', s', h, x, t, c);
      assert !Accounted(z, x);
      assert !Accounts(z);
    }
  }

  lemma StillNone(han: map<nat, Han>, h: nat, g: nat, x: nat, t: nat)
    requires Pins(han, t) == {} && h in han && g in han
    ensures Pins(han[g := Idle][h := Put(x)], t) == {}
  {
    forall k | k in han ensures Pin(han[k]) != Some(t) { assert k !in Pins(han, t); }
  }

  lemma NoOther(s: State, h: nat, s': State)
    requires Inv(s) && AllocNext(s, Take(h), s') && s.lru[0] in s.txs && s.txs[s.lru[0]].holder == None
    ensures forall g | g in s'.han && g != h :: s'.han[g] == Idle || s'.han[g].x != s.lru[0]
  {
    forall g | g in s'.han && g != h ensures s'.han[g] == Idle || s'.han[g].x != s.lru[0] { assert HOk(s, g); }
  }

  /** After a transaction is taken off the LRU list the accounts stay right in
      every continuation exactly if it was at rest: no handler had a step left
      to do with it, and no commit thread had yet to unlist it. */
  lemma RecyclingIff(s: State, h: nat, s': State)
    requires Inv(s) && AllocNext(s, Take(h), s')
    ensures StaysAccounted(s') <==> Rested(s, s.lru[0])
  {
    hide Inv, StaysAccounted, Rested;
    if Rested(s, s.lru[0]) { RestedStays(s, h, s'); } else { UnrestedFails(s, h, s'); }
  }
}
