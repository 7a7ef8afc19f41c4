/** The transaction-group protocol of mds/txg.c with the dirty/copy-on-write
    half of mds/itb.c as a step relation.

    Requests pin the open TXG, a switcher demotes it to write-back, commit
    threads wait for it to drain and then settle its dirty list.  A request of
    the next TXG that meets a dirty ITB of the previous one copies it.  Every
    load or store the threads race on is a step of its own; an ITB access
    under its lock and a COW win under both write locks are one step each.
    TXGs and ITBs have identities that are never reused. */
module TxgModel {
  import opened Common
  import opened ItbTable
  import opened ItbEdits
  import opened ItbCow

  datatype TxgState = Open | Wb | Wbing

  /** `writer` remembers which commit thread took the TXG from WB to WBING. */
  datatype Txg = Txg(num: nat, state: TxgState, pending: int, dirty: seq<nat>, writer: Option<nat>)

  datatype ItbState = Clean | Dirty | Cowed

  /** Where the dirty-list link of an ITB is: unlinked, on the list of a TXG,
      just taken off it by commit thread c, or not yet put on it by request r,
      which won a COW. */
  datatype Place = Nowhere | OnList(x: nat) | InHand(c: nat) | WonBy(r: nat)

  /** `hashed` tells whether the ITB can be reached through the CBHT. */
  datatype ItbRec = ItbRec(txg: nat, state: ItbState, hashed: bool, place: Place, body: Tab)

  /** Control state of a request thread.
      Raised/Backoff have raised tx_pending but not (or not successfully)
      checked the state; Copying has left its locks to do a COW with the header
      copied so far; Won has exchanged the ITBs; Refresh has put the new ITB on
      the dirty list and re-enters the search holding its read lock; the Rebind
      states run the reassignment branch of itb_dirty holding the ITB's read
      lock, where `dirty` tells whether the ITB was DIRTY on entry. */
  datatype Req =
    | Idle
    | GotPtr(t: nat)
    | Raised(t: nat)
    | Backoff(t: nat)
    | Pinned(t: nat)
    | Copying(t: nat, i: nat, hdr: Header)
    | Won(t: nat, i: nat)
    | Refresh(t: nat, i: nat)
    | Rebind(t: nat, i: nat, dirty: bool)
    | RebindPtr(t: nat, i: nat, dirty: bool, nt: nat)
    | RebindRaised(t: nat, i: nat, dirty: bool, nt: nat)
    | RebindBackoff(t: nat, i: nat, dirty: bool, nt: nat)
    | RebindPinned(t: nat, i: nat, dirty: bool, nt: nat)
    | Rebound(t: nat, i: nat, dirty: bool)

  /** Control state of a commit thread: it read the WB slot, waits for the TXG
      to drain, writes it back, or has one ITB off the list in its hand. */
  datatype Com = CIdle | CGot(t: nat) | CWait(t: nat) | CWrite(t: nat) | CHand(t: nat, i: nat)

  /** Control state of the switcher between the stores of txg_switch. */
  datatype Sw = SIdle | SInc | SNum(nt: nat) | SHeld(nt: nat) | SWb(nt: nat) | SState(nt: nat) | SPut(nt: nat)

  datatype State = State(txgs: map<nat, Txg>, itbs: map<nat, ItbRec>, open: nat, wb: Option<nat>,
                         mi: nat, req: map<nat, Req>, com: map<nat, Com>, sw: Sw)

  datatype Act =
    | Read(r: nat) | Raise(r: nat) | Check(r: nat) | PutBack(r: nat) | Release(r: nat)
    | Insert(r: nat, i: nat, num: nat, body: Tab)
    | Access(r: nat, i: nat, body: Tab)
    | CowBegin(r: nat, i: nat) | CowWin(r: nat, n: nat, junk: seq<Ite>) | CowLose(r: nat)
    | Relock(r: nat) | RefreshAccess(r: nat, body: Tab) | RefreshDrop(r: nat)
    | RebindBegin(r: nat, i: nat) | RebindRead(r: nat) | RebindRaise(r: nat) | RebindCheck(r: nat)
    | RebindPutBack(r: nat) | RebindPut(r: nat) | ReboundAccess(r: nat, body: Tab)
    | SwStart | SwNum(nt: nat) | SwGet | SwWb | SwState | SwPut | SwOpen
    | CRead(c: nat) | CTest(c: nat) | CDrain(c: nat) | CAbandon(c: nat)
    | CTake(c: nat) | CSettle(c: nat) | CFinish(c: nat)

  // --------------------------------------------------------- state updates

  function Pend(s: State, t: nat, d: int): State
    requires t in s.txgs
  {
    s.(txgs := s.txgs[t := s.txgs[t].(pending := s.txgs[t].pending + d)])
  }

  function SetReq(s: State, r: nat, q: Req): State { s.(req := s.req[r := q]) }

  function SetCom(s: State, c: nat, q: Com): State { s.(com := s.com[c := q]) }

  function SetItb(s: State, i: nat, b: ItbRec): State { s.(itbs := s.itbs[i := b]) }

  /** txg_add_itb: link ITB i into the dirty list of t unless it is linked already. */
  function AddItb(s: State, t: nat, i: nat): State
    requires t in s.txgs && i in s.itbs
  {
    if s.itbs[i].place.OnList? then s
    else
      s.(txgs := s.txgs[t := s.txgs[t].(dirty := s.txgs[t].dirty + [i])],
         itbs := s.itbs[i := s.itbs[i].(place := OnList(t))])
  }

  /** The branches of itb_dirty that keep the ITB, followed by the update of its content. */
  function Touch(s: State, t: nat, i: nat, body: Tab): State
    requires t in s.txgs && i in s.itbs
  {
    var b := s.itbs[i];
    if s.txgs[t].num == b.txg then
      var s1 := if b.state == Clean then AddItb(s, t, i) else s;
      SetItb(s1, i, s1.itbs[i].(state := Dirty, body := body))
    else
      var s1 := SetItb(s, i, b.(txg := s.txgs[t].num, state := Dirty, body := body));
      AddItb(s1, t, i)
  }

  /** itb_dirty keeps the ITB: same TXG, or one older and clean, or two or more older. */
  predicate Keeps(s: State, t: nat, i: nat)
    requires t in s.txgs && i in s.itbs
  {
    var n, b := s.txgs[t].num, s.itbs[i];
    n == b.txg || (n == b.txg + 1 && b.state == Clean) || n > b.txg + 1
  }

  /** Request q holds the read lock of ITB i between steps. */
  predicate HoldsLock(q: Req, i: nat) {
    match q
    case Refresh(_, j) => j == i
    case Rebind(_, j, _) => j == i
    case RebindPtr(_, j, _, _) => j == i
    case RebindRaised(_, j, _, _) => j == i
    case RebindBackoff(_, j, _, _) => j == i
    case RebindPinned(_, j, _, _) => j == i
    case Rebound(_, j, _) => j == i
    case _ => false
  }

  // ---------------------------------------------------------------- steps

  /** A pinned request reaches ITB i through the CBHT and finds it not COWED. */
  predicate Reaches(s: State, r: nat, i: nat) {
    r in s.req && s.req[r].Pinned? && s.req[r].t in s.txgs && i in s.itbs && s.itbs[i].hashed && s.itbs[i].state != Cowed
  }

  ghost predicate ReqNext(s: State, a: Act, s': State) {
    match a
    case Read(r) => r in s.req && s.req[r] == Idle && s' == SetReq(s, r, GotPtr(s.open))
    case Raise(r) =>
      && r in s.req && s.req[r].GotPtr? && s.req[r].t in s.txgs
      && s' == SetReq(Pend(s, s.req[r].t, 1), r, Raised(s.req[r].t))
    case Check(r) =>
      && r in s.req && s.req[r].Raised? && s.req[r].t in s.txgs
      && s' == SetReq(s, r, if s.txgs[s.req[r].t].state == Open then Pinned(s.req[r].t) else Backoff(s.req[r].t))
    case PutBack(r) =>
      && r in s.req && s.req[r].Backoff? && s.req[r].t in s.txgs
      && s' == SetReq(Pend(s, s.req[r].t, -1), r, Idle)
    case Release(r) =>
      && r in s.req && s.req[r].Pinned? && s.req[r].t in s.txgs
      && s' == SetReq(Pend(s, s.req[r].t, -1), r, Idle)
    case Insert(r, i, num, body) =>
      && r in s.req && s.req[r].Pinned? && s.req[r].t in s.txgs && i !in s.itbs
      && num <= s.txgs[s.req[r].t].num && Formed(body)
      && s' == SetItb(s, i, ItbRec(num, Clean, true, Nowhere, body))
    case Access(r, i, body) =>
      && Reaches(s, r, i) && Keeps(s, s.req[r].t, i) && Edit(s.itbs[i].body, body)
      && s' == Touch(s, s.req[r].t, i, body)
    case _ => false
  }

  ghost predicate CowNext(s: State, a: Act, s': State) {
    match a
    case CowBegin(r, i) =>
      && Reaches(s, r, i) && s.txgs[s.req[r].t].num == s.itbs[i].txg + 1 && s.itbs[i].state == Dirty
      && s' == SetReq(s, r, Copying(s.req[r].t, i, s.itbs[i].body.h))
    case CowWin(r, n, junk) =>
      && r in s.req && s.req[r].Copying? && s.req[r].t in s.txgs && s.req[r].i in s.itbs && n !in s.itbs
      && (forall q | q in s.req :: !HoldsLock(s.req[q], s.req[r].i))
      && var t, i, b := s.req[r].t, s.req[r].i, s.itbs[s.req[r].i];
      && b.hashed && s.txgs[t].num == b.txg + 1 && b.state == Dirty && |junk| == |b.body.ite|
      && s' == SetReq(s.(itbs := s.itbs[i := b.(state := Cowed, hashed := false)]
                                       [n := ItbRec(s.txgs[t].num, Dirty, true, WonBy(r), Recopy(b.body, s.req[r].hdr, junk))]),
                      r, Won(t, n))
    case CowLose(r) =>
      r in s.req && s.req[r].Copying? && s' == SetReq(s, r, Pinned(s.req[r].t))
    case Relock(r) =>
      && r in s.req && s.req[r].Won? && s.req[r].t in s.txgs && s.req[r].i in s.itbs
      && s' == SetReq(AddItb(s, s.req[r].t, s.req[r].i), r, Refresh(s.req[r].t, s.req[r].i))
    case RefreshAccess(r, body) =>
      && r in s.req && s.req[r].Refresh? && s.req[r].t in s.txgs && s.req[r].i in s.itbs
      && Keeps(s, s.req[r].t, s.req[r].i) && Edit(s.itbs[s.req[r].i].body, body)
      && s' == SetReq(Touch(s, s.req[r].t, s.req[r].i, body), r, Pinned(s.req[r].t))
    case RefreshDrop(r) =>
      r in s.req && s.req[r].Refresh? && s' == SetReq(s, r, Pinned(s.req[r].t))
    case _ => false
  }

  ghost predicate RebindNext(s: State, a: Act, s': State) {
    match a
    case RebindBegin(r, i) =>
      && Reaches(s, r, i) && s.txgs[s.req[r].t].num + 1 == s.itbs[i].txg
      && s' == SetReq(s, r, Rebind(s.req[r].t, i, s.itbs[i].state == Dirty))
    case RebindRead(r) =>
      && r in s.req && s.req[r].Rebind?
      && s' == SetReq(s, r, RebindPtr(s.req[r].t, s.req[r].i, s.req[r].dirty, s.open))
    case RebindRaise(r) =>
      && r in s.req && s.req[r].RebindPtr? && s.req[r].nt in s.txgs
      && s' == SetReq(Pend(s, s.req[r].nt, 1), r, RebindRaised(s.req[r].t, s.req[r].i, s.req[r].dirty, s.req[r].nt))
    case RebindCheck(r) =>
      && r in s.req && s.req[r].RebindRaised? && s.req[r].nt in s.txgs
      && var q := s.req[r];
         s' == SetReq(s, r, if s.txgs[q.nt].state == Open then RebindPinned(q.t, q.i, q.dirty, q.nt)
                            else RebindBackoff(q.t, q.i, q.dirty, q.nt))
    case RebindPutBack(r) =>
      && r in s.req && s.req[r].RebindBackoff? && s.req[r].nt in s.txgs
      && s' == SetReq(Pend(s, s.req[r].nt, -1), r, Rebind(s.req[r].t, s.req[r].i, s.req[r].dirty))
    case RebindPut(r) =>
      && r in s.req && s.req[r].RebindPinned? && s.req[r].t in s.txgs
      && s' == SetReq(Pend(s, s.req[r].t, -1), r, Rebound(s.req[r].nt, s.req[r].i, s.req[r].dirty))
    case ReboundAccess(r, body) =>
      && r in s.req && s.req[r].Rebound? && s.req[r].t in s.txgs && s.req[r].i in s.itbs
      && AssertsHold(s, r) && Edit(s.itbs[s.req[r].i].body, body)
      && s' == SetReq(SetItb(s, s.req[r].i, s.itbs[s.req[r].i].(body := body)), r, Pinned(s.req[r].t))
    case _ => false
  }

  /** The two assertions that end the reassignment branch; the process exits if one fails. */
  predicate AssertsHold(s: State, r: nat)
    requires r in s.req && s.req[r].Rebound? && s.req[r].t in s.txgs && s.req[r].i in s.itbs
  {
    s.itbs[s.req[r].i].state == Dirty && s.txgs[s.req[r].t].num == s.itbs[s.req[r].i].txg
  }

  ghost predicate SwNext(s: State, a: Act, s': State) {
    match a
    case SwStart =>
      && s.sw == SIdle && s.wb == None && s.open in s.txgs && s.txgs[s.open].dirty != []
      && s' == s.(mi := s.mi + 1, sw := SInc)
    case SwNum(nt) =>
      && s.sw == SInc && nt !in s.txgs
      && s' == s.(txgs := s.txgs[nt := Txg(s.mi, Open, 0, [], None)], sw := SNum(nt))
    case SwGet =>
      s.sw.SNum? && s.open in s.txgs && s' == Pend(s, s.open, 1).(sw := SHeld(s.sw.nt))
    case SwWb =>
      s.sw.SHeld? && s' == s.(wb := Some(s.open), sw := SWb(s.sw.nt))
    case SwState =>
      && s.sw.SWb? && s.wb.Some? && s.wb.value in s.txgs
      && s' == s.(txgs := s.txgs[s.wb.value := s.txgs[s.wb.value].(state := Wb)], sw := SState(s.sw.nt))
    case SwPut =>
      s.sw.SState? && s.open in s.txgs && s' == Pend(s, s.open, -1).(sw := SPut(s.sw.nt))
    case SwOpen =>
      s.sw.SPut? && s' == s.(open := s.sw.nt, sw := SIdle)
    case _ => false
  }

  ghost predicate ComNext(s: State, a: Act, s': State) {
    match a
    case CRead(c) =>
      c in s.com && s.com[c] == CIdle && s.wb.Some? && s' == SetCom(s, c, CGot(s.wb.value))
    case CTest(c) =>
      && c in s.com && s.com[c].CGot? && s.com[c].t in s.txgs
      && var t := s.com[c].t;
         s' == if s.txgs[t].state == Wb
               then SetCom(s.(txgs := s.txgs[t := s.txgs[t].(state := Wbing, writer := Some(c))]), c, CWait(t))
               else SetCom(s, c, CIdle)
    case CDrain(c) =>
      && c in s.com && s.com[c].CWait? && s.com[c].t in s.txgs && s.txgs[s.com[c].t].pending == 0
      && s' == SetCom(s, c, CWrite(s.com[c].t))
    case CAbandon(c) =>
      c in s.com && s.com[c].CWait? && s.wb != Some(s.com[c].t) && s' == SetCom(s, c, CIdle)
    case CTake(c) =>
      && c in s.com && s.com[c].CWrite? && s.com[c].t in s.txgs && s.txgs[s.com[c].t].dirty != []
      && var t := s.com[c].t; var i := s.txgs[t].dirty[0];
      && i in s.itbs
      && s' == SetCom(s.(txgs := s.txgs[t := s.txgs[t].(dirty := s.txgs[t].dirty[1..])],
                         itbs := s.itbs[i := s.itbs[i].(place := InHand(c))]), c, CHand(t, i))
    case CSettle(c) =>
      && c in s.com && s.com[c].CHand? && s.com[c].i in s.itbs
      && var b := s.itbs[s.com[c].i];
         s' == SetCom(SetItb(s, s.com[c].i, if b.state == Cowed then b.(place := Nowhere)
                                            else b.(state := Clean, place := Nowhere)),
                      c, CWrite(s.com[c].t))
    case CFinish(c) =>
      && c in s.com && s.com[c].CWrite? && s.com[c].t in s.txgs && s.txgs[s.com[c].t].dirty == []
      && s' == SetCom(s.(wb := None), c, CIdle)
    case _ => false
  }

  ghost predicate Next(s: State, a: Act, s': State) {
    ReqNext(s, a, s') || CowNext(s, a, s') || RebindNext(s, a, s') || SwNext(s, a, s') || ComNext(s, a, s')
  }

  /** mds_init: TXG 0 is open, nothing is hashed, every thread is idle. */
  predicate Init(s: State) {
    && s.open in s.txgs && s.txgs == map[s.open := Txg(0, Open, 0, [], None)]
    && s.itbs == map[] && s.wb == None && s.mi == 0 && s.sw == SIdle
    && (forall r | r in s.req :: s.req[r] == Idle)
    && (forall c | c in s.com :: s.com[c] == CIdle)
  }

  /** A run: states joined by steps, starting from an initial one. */
  ghost predicate Run(ss: seq<State>, acts: seq<Act>) {
    && |ss| == |acts| + 1 && Init(ss[0])
    && forall k | 0 <= k < |acts| :: Next(ss[k], acts[k], ss[k + 1])
  }
}
