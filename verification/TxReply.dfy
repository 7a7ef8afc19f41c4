/** The late reply: when mds_tx_reply, which tests the state and then stores
    ACKED, overwrites COMMITED, and which replies that can happen to. */
module TxReply {
  import opened Common
  import opened TxModel
  import opened TxInvariant
  import opened TxSteps
  import opened TxPaths

  // ----------------------------------------- while a reply has yet to store

  /** The step is the callback of transaction x. */
  predicate Marks(s: State, a: Act, x: nat) {
    && a.CbTest? && a.c in s.com && s.com[a.c].CRun? && s.com[a.c].t in s.txgs
    && s.txgs[s.com[a.c].t].ccb != [] && s.txgs[s.com[a.c].t].ccb[0] == x
  }

  /** Between the test and the store of h's reply on x, x is h's. */
  predicate Awaits(s: State, h: nat, x: nat) {
    h in s.han && s.han[h] == Acking(x) && x in s.txs && s.txs[x].holder == Some(h)
  }

  lemma AckingAwaits(s: State, h: nat)
    requires Inv(s) && h in s.han && s.han[h].Acking?
    ensures Awaits(s, h, s.han[h].x) && Rank(s.txs[s.han[h].x].state) >= Rank(Done)
  {
    assert HOk(s, h) && XOk(s, s.han[h].x);
  }

  lemma AllocWaits(s: State, a: Act, s': State, h: nat, x: nat)
    requires AllocNext(s, a, s') && Calm(s, a) && Awaits(s, h, x) && forall g | g in s.han :: HOk(s, g)
    ensures Awaits(s', h, x) && s'.txs[x] == s.txs[x]
  {
    if a.Start? || a.Fix? { assert HOk(s, a.h); }
  }

  lemma DoneWaits(s: State, a: Act, s': State, h: nat, x: nat)
    requires DoneNext(s, a, s') && Awaits(s, h, x) && forall g | g in s.han :: HOk(s, g)
    ensures Awaits(s', h, x) && s'.txs[x] == s.txs[x]
  {
    assert HOk(s, a.h);
  }

  lemma ReplyWaits(s: State, a: Act, s': State, h: nat, x: nat)
    requires ReplyNext(s, a, s') && Awaits(s, h, x) && a != ReplyStore(h) && forall g | g in s.han :: HOk(s, g)
    ensures Awaits(s', h, x) && s'.txs[x] == s.txs[x]
  {
    assert HOk(s, a.h);
  }

  lemma CbWaits(s: State, a: Act, s': State, h: nat, x: nat)
    requires Inv(s) && CbNext(s, a, s') && Awaits(s, h, x)
    ensures Awaits(s', h, x) && s'.txs[x].op == s.txs[x].op
    ensures s'.txs[x].state == if Marks(s, a, x) then Committed else s.txs[x].state
  {
    hide LruOk, XOk, HOk, TOk;
    if Marks(s, a, x) { CallbackCommits(s, a.c, s'); }
  }

  lemma NextWaits(s: State, a: Act, s': State, h: nat, x: nat)
    requires Inv(s) && Next(s, a, s') && Calm(s, a) && Awaits(s, h, x) && a != ReplyStore(h)
    ensures Awaits(s', h, x) && s'.txs[x].op == s.txs[x].op
    ensures s'.txs[x].state == if Marks(s, a, x) then Committed else s.txs[x].state
  {
    hide Calm, Awaits, Marks, AllocNext, DoneNext, ReplyNext, CbNext, HOk, LruOk, XOk, TOk, COk;
    if CbNext(s, a, s') {
      CbWaits(s, a, s', h, x);
    } else {
      NotMarks(s, a, s', x);
      if AllocNext(s, a, s') { AllocWaits(s, a, s', h, x); }
      if DoneNext(s, a, s') { DoneWaits(s, a, s', h, x); }
      if ReplyNext(s, a, s') { ReplyWaits(s, a, s', h, x); }
    }
  }

  lemma NotMarks(s: State, a: Act, s': State, x: nat)
    requires AllocNext(s, a, s') || DoneNext(s, a, s') || ReplyNext(s, a, s')
    ensures !Marks(s, a, x)
  {
  }

  lemma {:induction false} StateWhileWaiting(ss: seq<State>, acts: seq<Act>, j: nat, k: nat, h: nat, x: nat)
    requires CalmRun(ss, acts) && j <= k < |ss| && Awaits(ss[j], h, x) && ss[j].txs[x].state == Done
    requires forall m | j <= m < k :: acts[m] != ReplyStore(h)
    ensures Awaits(ss[k], h, x)
    ensures ss[k].txs[x].state == if exists m :: j <= m < k && Marks(ss[m], acts[m], x) then Committed else Done
  {
    hide Next, Inv, Calm, Init, Marks, Awaits;
    if j < k {
      StateWhileWaiting(ss, acts, j, k - 1, h, x);
      CalmRunKeepsInv(ss, acts, k - 1);
      assert Next(ss[k - 1], acts[k - 1], ss[k]) && Calm(ss[k - 1], acts[k - 1]);
      NextWaits(ss[k - 1], acts[k - 1], ss[k], h, x);
    }
  }

  lemma TestBegins(s: State, h: nat, s': State)
    requires Inv(s) && Next(s, ReplyTest(h), s') && h in s'.han && s'.han[h].Acking?
    ensures h in s.han && s.han[h] == Put(s'.han[h].x) && Awaits(s', h, s'.han[h].x) && s'.txs[s'.han[h].x].state == Done
  {
    assert HOk(s, h) && XOk(s, s.han[h].x);
  }

  lemma StoreEnds(s: State, h: nat, s': State, x: nat)
    requires Next(s, ReplyStore(h), s') && Awaits(s, h, x)
    ensures x in s'.txs && s'.txs[x].state == Acked
  {
  }

  /** In a calm run the state of a transaction goes back within its life exactly if
      its callback runs between the test and the store of its own reply. */
  lemma LateReplyIff(ss: seq<State>, acts: seq<Act>, j: nat, k: nat, h: nat)
    requires CalmRun(ss, acts) && j < k < |acts| && acts[j] == ReplyTest(h) && acts[k] == ReplyStore(h)
    requires h in ss[j + 1].han && ss[j + 1].han[h].Acking? && forall m | j < m < k :: acts[m] != ReplyStore(h)
    ensures var x := ss[j + 1].han[h].x;
            && x in ss[k].txs && x in ss[k + 1].txs && ss[k + 1].txs[x].state == Acked
            && (Rank(ss[k + 1].txs[x].state) < Rank(ss[k].txs[x].state) <==>
                exists m :: j < m < k && Marks(ss[m], acts[m], x))
  {
    hide Next, Inv, Calm, Init, Marks;
    CalmRunKeepsInv(ss, acts, j);
    assert Next(ss[j], acts[j], ss[j + 1]);
    TestBegins(ss[j], h, ss[j + 1]);
    var x := ss[j + 1].han[h].x;
    StateWhileWaiting(ss, acts, j + 1, k, h, x);
    assert Next(ss[k], acts[k], ss[k + 1]);
    StoreEnds(ss[k], h, ss[k + 1], x);
  }

  // ------------------------------------------------ which replies can be late

  /** Calm steps lead from o to s, and none of them is the store of h's reply. */
  ghost predicate Meanwhile(o: State, s: State, h: nat) {
    exists ss: seq<State>, acts: seq<Act> ::
      Steps(ss, acts, true) && ss[0] == o && ss[|ss| - 1] == s && forall k | 0 <= k < |acts| :: acts[k] != ReplyStore(h)
  }

  lemma NoTime(s: State, h: nat)
    ensures Meanwhile(s, s, h)
  {
    assert Steps([s], [], true);
  }

  lemma Go(o: State, s: State, a: Act, s': State, h: nat)
    requires Meanwhile(o, s, h) && Inv(s) && Next(s, a, s') && !a.Take? && a != ReplyStore(h)
    ensures Meanwhile(o, s', h) && Inv(s')
  {
    hide Next, Calm, Inv, Meanwhile;
    assert Calm(s, a) by { NotTaking(s, a); }
    NextKeepsInv(s, a, s');
    Extend(o, s, a, s', h);
  }

  lemma Extend(o: State, s: State, a: Act, s': State, h: nat)
    requires Meanwhile(o, s, h) && Next(s, a, s') && Calm(s, a) && a != ReplyStore(h)
    ensures Meanwhile(o, s', h)
  {
    hide Next, Calm;
    var ss: seq<State>, acts: seq<Act> :|
      Steps(ss, acts, true) && ss[0] == o && ss[|ss| - 1] == s && forall k | 0 <= k < |acts| :: acts[k] != ReplyStore(h);
    var ss', acts' := ss + [s'], acts + [a];
    forall k | 0 <= k < |acts'| ensures Next(ss'[k], acts'[k], ss'[k + 1]) && Calm(ss'[k], acts'[k]) {}
    assert Steps(ss', acts', true);
  }

  lemma NotTaking(s: State, a: Act)
    requires !a.Take?
    ensures Calm(s, a)
  {
  }

  /** The store of h's reply can come to overwrite COMMITED. */
  ghost predicate CanGoBack(s: State, h: nat)
    requires h in s.han && s.han[h].Acking?
  {
    exists z :: Meanwhile(s, z, h) && s.han[h].x in z.txs && z.txs[s.han[h].x].state == Committed
  }

  lemma {:induction false} OpStays(ss: seq<State>, acts: seq<Act>, k: nat, h: nat, x: nat)
    requires Steps(ss, acts, true) && k < |ss| && Inv(ss[0]) && Awaits(ss[0], h, x)
    requires forall m | 0 <= m < |acts| :: acts[m] != ReplyStore(h)
    ensures Inv(ss[k]) && Awaits(ss[k], h, x) && ss[k].txs[x].op == ss[0].txs[x].op
  {
    hide Next, Inv, Calm, Awaits;
    if k > 0 {
      OpStays(ss, acts, k - 1, h, x);
      assert Next(ss[k - 1], acts[k - 1], ss[k]) && Calm(ss[k - 1], acts[k - 1]);
      NextKeepsInv(ss[k - 1], acts[k - 1], ss[k]);
      NextWaits(ss[k - 1], acts[k - 1], ss[k], h, x);
    }
  }

  lemma OthersStayDone(s: State, h: nat, z: State)
    requires Inv(s) && h in s.han && s.han[h].Acking? && Meanwhile(s, z, h) && s.han[h].x in s.txs && s.txs[s.han[h].x].op != Normal
    ensures s.han[h].x in z.txs && z.txs[s.han[h].x].state == Done
  {
    AckingAwaits(s, h);
    hide Steps;
    var ss: seq<State>, acts: seq<Act> :|
      Steps(ss, acts, true) && ss[0] == s && ss[|ss| - 1] == z && forall k | 0 <= k < |acts| :: acts[k] != ReplyStore(h);
    assert |ss| > 0 by { StepsSize(ss, acts); }
    OpStays(ss, acts, |ss| - 1, h, s.han[h].x);
    assert XOk(z, s.han[h].x);
  }

  lemma StepsSize(ss: seq<State>, acts: seq<Act>)
    requires Steps(ss, acts, true)
    ensures |ss| > 0
  {
  }

  // ------------------------------------ and that a reply for commit can be

  /** What the steps below leave alone. */
  predicate Same(s: State, z: State, h: nat, x: nat, t: nat) {
    && h in s.han && h in z.han && z.han[h] == s.han[h]
    && x in s.txs && x in z.txs && z.txs[x] == s.txs[x]
    && t in s.txgs && t in z.txgs && z.txgs[t].closer == s.txgs[t].closer && (x in s.txgs[t].ccb ==> x in z.txgs[t].ccb)
  }

  function Weight(q: Han): nat {
    match q case Pinned(_, _) => 4 case Working(_, _) => 3 case Marked(_, _) => 2 case Parked(_, _) => 1 case _ => 0
  }

  /** The step that a handler with a pin takes next. */
  function Onstep(q: Han, g: nat): Act {
    match q case Pinned(_, _) => Fix(g) case Working(_, _) => DoneMark(g) case Marked(_, _) => DonePark(g) case _ => DonePut(g)
  }

  /** What is known of a handler that pins TXG t. */
  predicate PinsWith(s: State, g: nat, t: nat, x: nat) {
    && g in s.han && Pin(s.han[g]) == Some(t) && t in s.txgs && s.han[g].x in s.txs && s.han[g].x != x
    && s.txs[s.han[g].x].txg == t && (s.han[g].Working? ==> s.txs[s.han[g].x].state == Processing)
  }

  lemma PinFacts(s: State, g: nat, t: nat, h: nat, x: nat)
    requires Inv(s) && g in s.han && Pin(s.han[g]) == Some(t) && Awaits(s, h, x)
    ensures PinsWith(s, g, t, x) && g != h
  {
    assert HOk(s, g) && XOk(s, s.han[g].x);
  }

  lemma EarlyPinStep(s: State, g: nat, t: nat, h: nat, x: nat) returns (z: State)
    requires PinsWith(s, g, t, x) && (s.han[g].Pinned? || s.han[g].Working?) && Awaits(s, h, x) && g != h
    ensures Next(s, Onstep(s.han[g], g), z)
    ensures Same(s, z, h, x, t) && z.com == s.com && g in z.han && z.han == s.han[g := z.han[g]]
    ensures Weight(z.han[g]) < Weight(s.han[g]) && Pin(z.han[g]) == Some(t)
  {
    var y := s.han[g].x;
    if s.han[g].Pinned? {
      z := SetHan(if s.txs[y].op == Normal then s.(txgs := s.txgs[t := s.txgs[t].(ccb := s.txgs[t].ccb + [y])]) else s,
                  g, Working(y, t));
      assert AllocNext(s, Fix(g), z);
    } else {
      z := SetHan(SetState(s, y, Done), g, Marked(y, t));
      assert DoneNext(s, DoneMark(g), z);
    }
  }

  lemma LatePinStep(s: State, g: nat, t: nat, h: nat, x: nat) returns (z: State)
    requires PinsWith(s, g, t, x) && (s.han[g].Marked? || s.han[g].Parked?) && Awaits(s, h, x) && g != h
    ensures Next(s, Onstep(s.han[g], g), z)
    ensures Same(s, z, h, x, t) && z.com == s.com && g in z.han && z.han == s.han[g := z.han[g]]
    ensures Weight(z.han[g]) < Weight(s.han[g]) && (Pin(z.han[g]) == Some(t) || Pin(z.han[g]) == None)
  {
    var y := s.han[g].x;
    if s.han[g].Marked? {
      z := SetHan(if s.txs[y].op == Forget then Join(s, y) else s, g, Parked(y, t));
      assert DoneNext(s, DonePark(g), z);
    } else {
      z := SetHan(s, g, Put(y)).(txgs := s.txgs[t := s.txgs[t].(pending := s.txgs[t].pending - 1)]);
      assert DoneNext(s, DonePut(g), z);
    }
  }

  /** A handler that pins TXG t takes one step towards putting it. */
  lemma PinStep(s: State, g: nat, t: nat, h: nat, x: nat) returns (z: State)
    requires Inv(s) && g in s.han && Pin(s.han[g]) == Some(t) && Awaits(s, h, x) && t in s.txgs
    ensures Next(s, Onstep(s.han[g], g), z)
    ensures Same(s, z, h, x, t) && z.com == s.com && g in z.han && z.han == s.han[g := z.han[g]]
    ensures Weight(z.han[g]) < Weight(s.han[g]) && (Pin(z.han[g]) == Some(t) || Pin(z.han[g]) == None)
  {
    hide Inv, Next, Same, PinsWith, Onstep;
    PinFacts(s, g, t, h, x);
    if s.han[g].Pinned? || s.han[g].Working? { z := EarlyPinStep(s, g, t, h, x); } else { z := LatePinStep(s, g, t, h, x); }
  }

  /** A handler that pins TXG t finishes and puts it. */
  lemma {:induction false} FinishOne(o: State, s: State, g: nat, t: nat, h: nat, x: nat) returns (z: State)
    requires Meanwhile(o, s, h) && Inv(s) && g in s.han && Pin(s.han[g]) == Some(t) && Awaits(s, h, x) && t in s.txgs
    ensures Meanwhile(o, z, h) && Inv(z) && Same(s, z, h, x, t) && Awaits(z, h, x) && z.com == s.com
    ensures g in z.han && z.han == s.han[g := z.han[g]] && Pin(z.han[g]) == None
    decreases Weight(s.han[g])
  {
    hide Meanwhile, Inv, Next, Onstep;
    var a := PinStep(s, g, t, h, x);
    assert !Onstep(s.han[g], g).Take? && Onstep(s.han[g], g) != ReplyStore(h) by { Onsteps(s.han[g], g, h); }
    Go(o, s, Onstep(s.han[g], g), a, h);
    if Pin(a.han[g]) == Some(t) { z := FinishOne(o, a, g, t, h, x); } else { z := a; }
  }

  lemma Onsteps(q: Han, g: nat, h: nat)
    ensures !Onstep(q, g).Take? && Onstep(q, g) != ReplyStore(h)
  {
  }

  /** All handlers that pin TXG t finish. */
  lemma {:induction false} Drain(o: State, s: State, t: nat, h: nat, x: nat) returns (z: State)
    requires Meanwhile(o, s, h) && Inv(s) && Awaits(s, h, x) && t in s.txgs
    ensures Meanwhile(o, z, h) && Inv(z) && Same(s, z, h, x, t) && Awaits(z, h, x) && z.com == s.com && z.txgs[t].pending == 0
    decreases |Pins(s.han, t)|
  {
    hide Meanwhile, Inv;
    if Pins(s.han, t) == {} {
      PendingIsPins(s, t);
      z := s;
    } else {
      var g :| g in Pins(s.han, t);
      var a := FinishOne(o, s, g, t, h, x);
      PinsMove(s.han, g, a.han[g], t);
      z := Drain(o, a, t, h, x);
    }
  }

  lemma PendingIsPins(s: State, t: nat)
    requires Inv(s) && t in s.txgs
    ensures s.txgs[t].pending == |Pins(s.han, t)|
  {
    assert TOk(s, t);
  }

  /** How far a commit thread is from the end of its list. */
  ghost function Left(s: State, c: nat): nat
    requires c in s.com
  {
    match s.com[c]
    case CIdle => 0
    case CRun(t) => 3 + if t in s.txgs then 3 * |s.txgs[t].ccb| else 0
    case CMark(t, _) => 2 + if t in s.txgs then 3 * |s.txgs[t].ccb| else 0
    case CListed(t, _) => 1 + if t in s.txgs then 3 * |s.txgs[t].ccb| else 0
  }

  /** The callback of the first transaction of the list commits it. */
  lemma RunsOn(s: State, c: nat, z: State)
    requires Inv(s) && c in s.com && s.com[c].CRun? && s.com[c].t in s.txgs && s.txgs[s.com[c].t].ccb != []
    requires s.txgs[s.com[c].t].ccb[0] in s.txs
    requires z == SetCom(SetState(s, s.txgs[s.com[c].t].ccb[0], Committed), c, CMark(s.com[c].t, s.txgs[s.com[c].t].ccb[0]))
    ensures CbNext(s, CbTest(c), z)
  {
    var t := s.com[c].t;
    var y := s.txgs[t].ccb[0];
    var s' := if Rank(Done) <= Rank(s.txs[y].state) <= Rank(Acked) then z
              else s.(txgs := s.txgs[t := s.txgs[t].(ccb := s.txgs[t].ccb[1..])]);
    assert CbNext(s, CbTest(c), s');
    CallbackCommits(s, c, s');
  }

  /** What a step of commit thread c that is not about x leaves, and that it gets on. */
  predicate GetsOn(s: State, z: State, c: nat, h: nat, x: nat, t: nat)
    requires c in s.com
  {
    && Same(s, z, h, x, t) && Awaits(z, h, x) && c in z.com
    && (z.com[c] == CIdle || (s.com[c] != CIdle && z.com[c].t == s.com[c].t))
  }

  /** A busy commit thread is not at x. */
  predicate NotAt(s: State, c: nat, x: nat) {
    && c in s.com && s.com[c] != CIdle && s.com[c].t in s.txgs
    && ((s.com[c].CMark? || s.com[c].CListed?) ==> s.com[c].x != x)
    && (s.com[c].CRun? ==> s.txgs[s.com[c].t].ccb == [] || s.txgs[s.com[c].t].ccb[0] != x)
  }

  lemma EndStep(s: State, c: nat, h: nat, x: nat, t: nat) returns (z: State)
    requires Awaits(s, h, x) && t in s.txgs && NotAt(s, c, x) && s.com[c].CRun? && s.txgs[s.com[c].t].ccb == []
    ensures CbNext(s, CbEnd(c), z) && GetsOn(s, z, c, h, x, t) && Left(z, c) < Left(s, c)
  {
    z := SetCom(s, c, CIdle);
  }

  lemma TestStep(s: State, c: nat, h: nat, x: nat, t: nat) returns (z: State)
    requires Inv(s) && Awaits(s, h, x) && t in s.txgs && NotAt(s, c, x) && s.com[c].CRun? && s.txgs[s.com[c].t].ccb != []
    ensures CbNext(s, CbTest(c), z) && GetsOn(s, z, c, h, x, t) && Left(z, c) < Left(s, c) && z.com[c] != CIdle
  {
    hide Inv, CbNext, CcbOk, XOk;
    var u, y := s.com[c].t, s.txgs[s.com[c].t].ccb[0];
    CcbHolds(s, u, y);
    z := SetCom(SetState(s, y, Committed), c, CMark(u, y));
    RunsOn(s, c, z);
  }

  lemma RunStep(s: State, c: nat, h: nat, x: nat, t: nat) returns (a: Act, z: State)
    requires Inv(s) && Awaits(s, h, x) && t in s.txgs && NotAt(s, c, x) && s.com[c].CRun?
    ensures CbNext(s, a, z) && GetsOn(s, z, c, h, x, t) && Left(z, c) < Left(s, c)
    ensures z.com[c] == CIdle ==> s.txgs[s.com[c].t].ccb == []
  {
    hide Inv, CbNext, GetsOn, Left, Awaits;
    if s.txgs[s.com[c].t].ccb == [] {
      a := CbEnd(c);
      z := EndStep(s, c, h, x, t);
    } else {
      a := CbTest(c);
      z := TestStep(s, c, h, x, t);
    }
  }

  lemma MarkStep(s: State, c: nat, h: nat, x: nat, t: nat) returns (a: Act, z: State)
    requires Inv(s) && Awaits(s, h, x) && t in s.txgs && NotAt(s, c, x) && s.com[c].CMark?
    ensures CbNext(s, a, z) && GetsOn(s, z, c, h, x, t) && Left(z, c) < Left(s, c) && z.com[c] != CIdle
  {
    hide Inv, CcbOk, XOk;
    assert COk(s, c) by { ThreadOk(s, c); }
    var u, y := s.com[c].t, s.com[c].x;
    CcbHolds(s, u, y);
    a, z := CbPark(c), SetCom(if s.txs[y].op == Normal then Join(s, y) else s, c, CListed(u, y));
  }

  lemma ListedStep(s: State, c: nat, h: nat, x: nat, t: nat) returns (a: Act, z: State)
    requires Inv(s) && Awaits(s, h, x) && t in s.txgs && NotAt(s, c, x) && s.com[c].CListed?
    ensures CbNext(s, a, z) && GetsOn(s, z, c, h, x, t) && Left(z, c) < Left(s, c) && z.com[c] != CIdle
  {
    hide Inv, CcbOk, XOk;
    assert COk(s, c) by { ThreadOk(s, c); }
    var u, y := s.com[c].t, s.com[c].x;
    CcbHolds(s, u, y);
    a, z := CbDel(c), SetCom(s, c, CRun(u)).(txgs := Unlist(s.txgs, u, y));
    assert s.txgs[u].ccb == [y] + s.txgs[u].ccb[1..];
    assert s.txs[y].txg == u by { ListedTxg(s, u, y); }
  }

  lemma ThreadOk(s: State, c: nat)
    requires Inv(s) && c in s.com
    ensures COk(s, c)
  {
  }

  lemma ListedTxg(s: State, u: nat, y: nat)
    requires u in s.txgs && CcbOk(s, u, y)
    ensures y in s.txs && s.txs[y].txg == u
  {
  }

  /** A busy commit thread takes a step that is not about x. */
  lemma BusyStep(o: State, s: State, c: nat, h: nat, x: nat, t: nat) returns (z: State)
    requires Meanwhile(o, s, h) && Inv(s) && Awaits(s, h, x) && t in s.txgs && NotAt(s, c, x)
    ensures Meanwhile(o, z, h) && Inv(z) && GetsOn(s, z, c, h, x, t) && Left(z, c) < Left(s, c)
    ensures z.com[c] == CIdle ==> s.txgs[s.com[c].t].ccb == []
  {
    hide Meanwhile, Inv, Awaits, GetsOn, CbNext, AllocNext, DoneNext, ReplyNext, Left;
    var a := CbEnd(c);
    match s.com[c] {
      case CRun(_) => a, z := RunStep(s, c, h, x, t);
      case CMark(_, _) => a, z := MarkStep(s, c, h, x, t);
      case CListed(_, _) => a, z := ListedStep(s, c, h, x, t);
    }
    CbIsNot(s, a, z, h);
    Go(o, s, a, z, h);
  }

  lemma CbIsNot(s: State, a: Act, z: State, h: nat)
    requires CbNext(s, a, z)
    ensures Next(s, a, z) && !a.Take? && a != ReplyStore(h)
  {
  }

  /** A commit thread that is not on TXG t becomes idle. */
  lemma {:induction false} FreeThread(o: State, s: State, c: nat, h: nat, x: nat, t: nat) returns (z: State)
    requires Meanwhile(o, s, h) && Inv(s) && Awaits(s, h, x) && t in s.txgs && c in s.com
    requires s.txs[x].txg == t && (s.com[c] == CIdle || s.com[c].t != t)
    ensures Meanwhile(o, z, h) && Inv(z) && Same(s, z, h, x, t) && Awaits(z, h, x) && c in z.com && z.com[c] == CIdle
    decreases Left(s, c)
  {
    hide Meanwhile, Inv, Left;
    if s.com[c] == CIdle {
      z := s;
    } else {
      OtherList(s, c, x, t);
      hide Awaits;
      var a := BusyStep(o, s, c, h, x, t);
      z := FreeThread(o, a, c, h, x, t);
    }
  }

  /** What a commit thread on another TXG works on is not x. */
  lemma OtherList(s: State, c: nat, x: nat, t: nat)
    requires Inv(s) && c in s.com && s.com[c] != CIdle && s.com[c].t != t && x in s.txs && s.txs[x].txg == t
    ensures NotAt(s, c, x)
  {
    assert COk(s, c);
    if s.txgs[s.com[c].t].ccb != [] { CcbHolds(s, s.com[c].t, s.txgs[s.com[c].t].ccb[0]); }
  }

  /** The commit thread of TXG t comes to the callback of x. */
  lemma {:induction false} Arrive(o: State, s: State, c: nat, h: nat, x: nat, t: nat) returns (z: State)
    requires Meanwhile(o, s, h) && Inv(s) && Awaits(s, h, x) && t in s.txgs && c in s.com
    requires s.com[c] != CIdle && s.com[c].t == t && x in s.txgs[t].ccb && s.txs[x].op == Normal
    ensures Meanwhile(o, z, h) && x in z.txs && z.txs[x].state == Committed
    decreases Left(s, c)
  {
    hide Meanwhile, Inv, Left;
    OnItsList(s, c, h, x, t);
    if (s.com[c].CMark? || s.com[c].CListed?) && s.com[c].x == x {
      z := s;
    } else if s.com[c].CRun? && s.txgs[t].ccb[0] == x {
      z := SetCom(SetState(s, x, Committed), c, CMark(t, x));
      RunsOn(s, c, z);
      Go(o, s, CbTest(c), z, h);
    } else {
      var a := BusyStep(o, s, c, h, x, t);
      z := Arrive(o, a, c, h, x, t);
    }
  }

  lemma OnItsList(s: State, c: nat, h: nat, x: nat, t: nat)
    requires Inv(s) && Awaits(s, h, x) && t in s.txgs && c in s.com && s.com[c] != CIdle && s.com[c].t == t
    requires s.txs[x].op == Normal
    ensures (s.com[c].CMark? || s.com[c].CListed?) && s.com[c].x == x ==> s.txs[x].state == Committed
  {
    assert COk(s, c) && XOk(s, x);
  }

  /** A reply for commit that has tested its transaction, but not stored yet, can
      be overtaken by the callback. */
  lemma NormalCanGoBack(s: State, h: nat, c: nat)
    requires Inv(s) && h in s.han && s.han[h].Acking? && c in s.com && s.han[h].x in s.txs && s.txs[s.han[h].x].op == Normal
    ensures CanGoBack(s, h)
  {
    hide Meanwhile, Inv;
    var x := s.han[h].x;
    AckingAwaits(s, h);
    NoTime(s, h);
    WhereItWaits(s, h);
    if s.txs[x].state != Committed {
      var t := s.txs[x].txg;
      if s.txgs[t].closer.Some? {
        var z := Arrive(s, s, s.txgs[t].closer.value, h, x, t);
      } else {
        NotOn(s, c, t);
        var a := FreeThread(s, s, c, h, x, t);
        var b := Drain(s, a, t, h, x);
        var d := SetCom(b, c, CRun(t)).(txgs := b.txgs[t := b.txgs[t].(closer := Some(c))]);
        assert CbNext(b, Close(c, t), d);
        Go(s, b, Close(c, t), d, h);
        var z := Arrive(s, d, c, h, x, t);
      }
    }
  }

  lemma WhereItWaits(s: State, h: nat)
    requires Inv(s) && h in s.han && s.han[h].Acking? && s.han[h].x in s.txs && s.txs[s.han[h].x].op == Normal
    ensures var x := s.han[h].x; var t := s.txs[x].txg;
            s.txs[x].state != Committed ==>
              && t in s.txgs && x in s.txgs[t].ccb
              && (s.txgs[t].closer.Some? ==> s.txgs[t].closer.value in s.com && Calls(s.com[s.txgs[t].closer.value], t))
  {
    AckingAwaits(s, h);
    assert XOk(s, s.han[h].x);
    if s.txs[s.han[h].x].txg in s.txgs { assert TOk(s, s.txs[s.han[h].x].txg); }
  }

  lemma NotOn(s: State, c: nat, t: nat)
    requires Inv(s) && c in s.com && t in s.txgs && s.txgs[t].closer == None
    ensures s.com[c] == CIdle || s.com[c].t != t
  {
    assert COk(s, c);
  }

  /** Of the replies that have passed their test, exactly those of transactions for
      commit can still come to store ACKED over COMMITED, however the others run. */
  lemma CanGoBackIff(s: State, h: nat, c: nat)
    requires Inv(s) && h in s.han && s.han[h].Acking? && c in s.com
    ensures s.han[h].x in s.txs
    ensures CanGoBack(s, h) <==> s.txs[s.han[h].x].op == Normal
  {
    AckingAwaits(s, h);
    hide Inv, Meanwhile;
    if s.txs[s.han[h].x].op == Normal {
      NormalCanGoBack(s, h, c);
    } else {
      forall z | Meanwhile(s, z, h) ensures s.han[h].x in z.txs && z.txs[s.han[h].x].state == Done { OthersStayDone(s, h, z); }
    }
  }
}
