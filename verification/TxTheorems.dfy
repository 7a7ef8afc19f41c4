/** What holds of transactions in every run in which they are recycled at rest,
    and of the counters in every run. */
module TxTheorems {
  import opened Common
  import opened TxModel
  import opened TxInvariant
  import opened TxSteps

  /** When the callbacks of a TXG run, no handler pins it and every transaction
      on its list has been marked DONE. */
  lemma CallbacksSeeDone(ss: seq<State>, acts: seq<Act>, k: nat, t: nat, x: nat, h: nat)
    requires CalmRun(ss, acts) && k < |ss|
    requires t in ss[k].txgs && ss[k].txgs[t].closer.Some? && x in ss[k].txgs[t].ccb && h in ss[k].han
    ensures x in ss[k].txs && Rank(ss[k].txs[x].state) >= Rank(Done) && Pin(ss[k].han[h]) != Some(t)
  {
    CalmRunKeepsInv(ss, acts, k);
    ClosedIsUnpinned(ss[k], t);
    CcbHolds(ss[k], t, x);
  }

  /** The callback finds every transaction DONE or ACKED: its error branch is
      dead, and it commits none twice. */
  lemma CallbacksCommitOnce(ss: seq<State>, acts: seq<Act>, k: nat, c: nat)
    requires CalmRun(ss, acts) && k < |acts| && CbNext(ss[k], acts[k], ss[k + 1]) && acts[k] == CbTest(c)
    ensures var x := ss[k].txgs[ss[k].com[c].t].ccb[0];
            && Rank(Done) <= Rank(ss[k].txs[x].state) <= Rank(Acked)
            && ss[k + 1].txs[x].state == Committed && ss[k + 1].com[c] == CMark(ss[k].com[c].t, x)
  {
    CalmRunKeepsInv(ss, acts, k);
    CallbackCommits(ss[k], c, ss[k + 1]);
  }

  /** A transaction is on the LRU list exactly once in its life: it joined once
      when it is taken off, and joins neither twice nor while it is on the list. */
  lemma JoinsOnce(ss: seq<State>, acts: seq<Act>, k: nat, x: nat)
    requires CalmRun(ss, acts) && k < |ss| && x in ss[k].txs
    ensures x in ss[k].lru ==> ss[k].txs[x].joins == 1
    ensures x !in ss[k].lru ==>
              || ss[k].txs[x].joins == 0
              || (ss[k].txs[x].holder.Some? && ss[k].txs[x].holder.value in ss[k].han
                  && ss[k].han[ss[k].txs[x].holder.value] == Popped(x))
    ensures forall i, j | 0 <= i < j < |ss[k].lru| :: ss[k].lru[i] != ss[k].lru[j]
  {
    CalmRunKeepsInv(ss, acts, k);
    assert XOk(ss[k], x);
  }

  /** No transaction is lost: one that is not on the LRU list is in the hands of
      a handler or waits, marked DONE, for the callback of its TXG. */
  lemma NoneIsLost(ss: seq<State>, acts: seq<Act>, k: nat, x: nat)
    requires CalmRun(ss, acts) && k < |ss| && x in ss[k].txs && x !in ss[k].lru
    ensures var s := ss[k]; var b := s.txs[x];
            || (b.holder.Some? && b.holder.value in s.han && s.han[b.holder.value] != Idle && s.han[b.holder.value].x == x)
            || (b.op == Normal && b.txg in s.txgs && x in s.txgs[b.txg].ccb && Rank(b.state) >= Rank(Done))
  {
    CalmRunKeepsInv(ss, acts, k);
    assert XOk(ss[k], x);
  }

  // ---------------------------------------------------------- the counters

  lemma CountersStart(s: State)
    requires Init(s)
    ensures s.ftx == |s.lru| && s.total == |s.txs| && forall x | x in s.lru :: x in s.txs
  {
    InitLru(s);
  }

  lemma CountersStep(s: State, a: Act, s': State)
    requires Next(s, a, s') && s.ftx == |s.lru| && s.total == |s.txs| && forall x | x in s.lru :: x in s.txs
    ensures s'.ftx == |s'.lru| && s'.total == |s'.txs| && forall x | x in s'.lru :: x in s'.txs
  {
    hide Next, AllocNext;
    KeysStep(s, a, s');
    LruStep(s, a, s');
    assert |s'.txs| == |s'.txs.Keys| && |s.txs| == |s.txs.Keys|;
  }

  lemma LruStep(s: State, a: Act, s': State)
    requires Next(s, a, s') && s.ftx == |s.lru|
    ensures s'.ftx == |s'.lru| && forall x | x in s'.lru :: x in s.lru || x in s.txs
  {
    hide AllocNext, DoneNext, ReplyNext, CbNext;
    if AllocNext(s, a, s') { AllocLruStep(s, a, s'); } else { OtherLruStep(s, a, s'); }
  }

  lemma AllocLruStep(s: State, a: Act, s': State)
    requires AllocNext(s, a, s') && s.ftx == |s.lru|
    ensures s'.ftx == |s'.lru| && forall x | x in s'.lru :: x in s.lru || x in s.txs
  {
  }

  lemma OtherLruStep(s: State, a: Act, s': State)
    requires (DoneNext(s, a, s') || ReplyNext(s, a, s') || CbNext(s, a, s')) && s.ftx == |s.lru|
    ensures s'.ftx == |s'.lru| && forall x | x in s'.lru :: x in s.lru || x in s.txs
  {
    hide Rank, Drop, Unlist;
  }

  lemma KeysStep(s: State, a: Act, s': State)
    requires Next(s, a, s')
    ensures s'.txs.Keys == s.txs.Keys + if a.Alloc? then {a.x} else {}
    ensures if a.Alloc? then a.x !in s.txs && s'.total == s.total + 1 else s'.total == s.total
  {
    hide AllocNext, DoneNext, ReplyNext, CbNext;
    if AllocNext(s, a, s') { AllocKeys(s, a, s'); } else { OtherKeys(s, a, s'); }
  }

  lemma AllocKeys(s: State, a: Act, s': State)
    requires AllocNext(s, a, s')
    ensures s'.txs.Keys == s.txs.Keys + if a.Alloc? then {a.x} else {}
    ensures if a.Alloc? then a.x !in s.txs && s'.total == s.total + 1 else s'.total == s.total
  {
  }

  lemma OtherKeys(s: State, a: Act, s': State)
    requires DoneNext(s, a, s') || ReplyNext(s, a, s') || CbNext(s, a, s')
    ensures s'.txs.Keys == s.txs.Keys && s'.total == s.total && !a.Alloc?
  {
    hide Rank, Drop, Unlist;
  }

  /** In every run, calm or not, ftx is the length of the LRU list and total the
      number of transactions. */
  lemma {:induction false} CountersInEveryRun(ss: seq<State>, acts: seq<Act>, k: nat)
    requires Run(ss, acts) && k < |ss|
    ensures ss[k].ftx == |ss[k].lru| && ss[k].total == |ss[k].txs|
    ensures forall x | x in ss[k].lru :: x in ss[k].txs
  {
    hide Next, Init;
    if k == 0 {
      CountersStart(ss[0]);
    } else {
      CountersInEveryRun(ss, acts, k - 1);
      CountersStep(ss[k - 1], acts[k - 1], ss[k]);
    }
  }

  /** The transactions that are not on the LRU list. */
  ghost function InFlight(s: State): set<nat> { set x | x in s.txs && x !in s.lru }

  /** ftx is the length of the LRU list, and total counts that list and the
      transactions in flight. */
  lemma CountersAgree(ss: seq<State>, acts: seq<Act>, k: nat)
    requires CalmRun(ss, acts) && k < |ss|
    ensures ss[k].ftx == |ss[k].lru|
    ensures ss[k].total == ss[k].ftx + |InFlight(ss[k])|
  {
    hide Inv, Run, CalmRun;
    CalmRunKeepsInv(ss, acts, k);
    assert LruOk(ss[k]) by { LruPart(ss[k]); }
    CountsOf(ss[k]);
  }

  lemma CountsOf(s: State)
    requires LruOk(s)
    ensures s.ftx == |s.lru| && s.total == s.ftx + |InFlight(s)|
  {
    DistinctCount(s.lru);
    var l, rest := Members(s.lru), InFlight(s);
    assert s.txs.Keys == l + rest && l * rest == {};
    assert |s.txs| == |s.txs.Keys| == |l + rest| == |l| + |rest|;
  }

  lemma LruPart(s: State)
    requires Inv(s)
    ensures LruOk(s)
  {
  }
}
