/** The inductive invariant of the TXG protocol. */
module TxgInvariant {
  import opened Common
  import opened TxgModel

  // ------------------------------------------------------------------ pins

  /** The TXG whose pending counter a request has raised first, if any. */
  function MainPin(q: Req): Option<nat> {
    match q
    case Idle => None
    case GotPtr(_) => None
    case _ => Some(q.t)
  }

  /** The second TXG a request pins while it is being reassigned. */
  function SidePin(q: Req): Option<nat> {
    match q
    case RebindRaised(_, _, _, nt) => Some(nt)
    case RebindBackoff(_, _, _, nt) => Some(nt)
    case RebindPinned(_, _, _, nt) => Some(nt)
    case _ => None
  }

  ghost function Pins(req: map<nat, Req>, x: nat): set<nat> { set r | r in req && MainPin(req[r]) == Some(x) }

  ghost function Sides(req: map<nat, Req>, x: nat): set<nat> { set r | r in req && SidePin(req[r]) == Some(x) }

  /** The switcher's own pin on the TXG it demotes. */
  function SwPin(s: State, x: nat): nat {
    if (s.sw.SHeld? || s.sw.SWb? || s.sw.SState?) && s.open == x then 1 else 0
  }

  function One(b: bool): nat { if b then 1 else 0 }

  lemma MainPinsMove(req: map<nat, Req>, r: nat, q: Req, x: nat)
    requires r in req
    ensures |Pins(req[r := q], x)| == |Pins(req, x)| - One(MainPin(req[r]) == Some(x)) + One(MainPin(q) == Some(x))
  {
    hide MainPin;
    var a, b := Pins(req, x), Pins(req[r := q], x);
    if MainPin(q) == Some(x) { assert b == a - {r} + {r}; } else { assert b == a - {r}; }
  }

  lemma SidePinsMove(req: map<nat, Req>, r: nat, q: Req, x: nat)
    requires r in req
    ensures |Sides(req[r := q], x)| == |Sides(req, x)| - One(SidePin(req[r]) == Some(x)) + One(SidePin(q) == Some(x))
  {
    hide SidePin;
    var a, b := Sides(req, x), Sides(req[r := q], x);
    if SidePin(q) == Some(x) { assert b == a - {r} + {r}; } else { assert b == a - {r}; }
  }

  // ------------------------------------------------------------ vocabulary

  /** The TXG that the switcher has numbered but not published. */
  predicate Private(s: State, x: nat) {
    match s.sw
    case SIdle => false
    case SInc => false
    case _ => s.sw.nt == x
  }

  predicate Known(s: State, x: nat) { x in s.txgs && !Private(s, x) }

  /** A live TXG is the open one or sits in the write-back slot. */
  predicate LiveTxg(s: State, x: nat)
    requires x in s.txgs
  {
    (x == s.open && s.txgs[x].state == Open) || s.wb == Some(x)
  }

  /** A commit thread has passed the pending test of TXG x and is writing it back. */
  predicate Drained(s: State, x: nat)
    requires x in s.txgs
  {
    var w := s.txgs[x].writer;
    w.Some? && w.value in s.com && (s.com[w.value] == CWrite(x) || (s.com[w.value].CHand? && s.com[w.value].t == x))
  }

  /** A TXG that a request may rely on once mds_get_open_txg returned it. */
  predicate Trusted(s: State, x: nat) {
    Known(s, x) && LiveTxg(s, x) && !Drained(s, x)
  }

  // ------------------------------------------------------------- invariant

  ghost predicate TxgOk(s: State, x: nat)
    requires x in s.txgs && s.open in s.txgs
  {
    var t := s.txgs[x];
    && t.pending == |Pins(s.req, x)| + |Sides(s.req, x)| + SwPin(s, x)
    && (t.state == Wbing <==> t.writer.Some?)
    && (t.state == Wb ==> s.wb == Some(x))
    && (x != s.open && !Private(s, x) ==> t.state != Open && t.num < s.txgs[s.open].num)
    && (Private(s, x) ==> x != s.open && t == Txg(s.txgs[s.open].num + 1, Open, 0, [], None))
    && (t.dirty != [] ==> LiveTxg(s, x))
    && (forall k | 0 <= k < |t.dirty| :: t.dirty[k] in s.itbs && s.itbs[t.dirty[k]].place == OnList(x))
    && Distinct(t.dirty)
  }

  predicate PlaceOk(s: State, i: nat)
    requires i in s.itbs
  {
    var b := s.itbs[i];
    match b.place
    case Nowhere => !(b.hashed && b.state == Dirty)
    case OnList(x) => x in s.txgs && i in s.txgs[x].dirty && b.txg == s.txgs[x].num && b.state != Clean
    case InHand(c) =>
      && c in s.com && s.com[c].CHand? && s.com[c].i == i
      && s.com[c].t in s.txgs && b.txg == s.txgs[s.com[c].t].num && b.state != Clean
    case WonBy(r) =>
      && r in s.req && s.req[r].Won? && s.req[r].i == i
      && s.req[r].t in s.txgs && b.txg == s.txgs[s.req[r].t].num && b.state != Clean
  }

  predicate ItbOk(s: State, i: nat)
    requires i in s.itbs && s.open in s.txgs
  {
    && PlaceOk(s, i)
    && (s.itbs[i].state == Cowed ==> !s.itbs[i].hashed)
    && (s.itbs[i].hashed ==> s.itbs[i].txg <= s.txgs[s.open].num)
  }

  predicate RebindOk(s: State, t: nat, i: nat, dirty: bool) {
    && Trusted(s, t) && i in s.itbs && s.itbs[i].hashed && s.itbs[i].txg == s.txgs[t].num + 1
    && (dirty ==> s.itbs[i].state == Dirty)
  }

  predicate ReqOk(s: State, r: nat)
    requires r in s.req
  {
    match s.req[r]
    case Idle => true
    case GotPtr(t) => Known(s, t)
    case Raised(t) => Known(s, t)
    case Backoff(t) => Known(s, t)
    case Pinned(t) => Trusted(s, t)
    case Copying(t, i, _) => Trusted(s, t) && i in s.itbs
    case Won(t, i) => Trusted(s, t) && i in s.itbs && s.itbs[i].place == WonBy(r)
    case Refresh(t, i) => Trusted(s, t) && i in s.itbs && s.itbs[i].place == OnList(t)
    case Rebind(t, i, d) => RebindOk(s, t, i, d)
    case RebindPtr(t, i, d, nt) => RebindOk(s, t, i, d) && Known(s, nt)
    case RebindRaised(t, i, d, nt) => RebindOk(s, t, i, d) && Known(s, nt)
    case RebindBackoff(t, i, d, nt) => RebindOk(s, t, i, d) && Known(s, nt)
    case RebindPinned(t, i, d, nt) => RebindOk(s, t, i, d) && Trusted(s, nt) && s.txgs[nt].num == s.txgs[t].num + 1
    case Rebound(t, i, d) =>
      && Trusted(s, t) && i in s.itbs && s.itbs[i].hashed
      && (d ==> s.itbs[i].state == Dirty && s.itbs[i].txg == s.txgs[t].num)
  }

  /** Commit thread c owns TXG t from its state change to the release of the slot. */
  predicate Owns(s: State, c: nat, t: nat) {
    t in s.txgs && s.wb == Some(t) && s.txgs[t].state == Wbing && s.txgs[t].writer == Some(c)
  }

  predicate ComOk(s: State, c: nat)
    requires c in s.com
  {
    match s.com[c]
    case CIdle => true
    case CGot(t) => Known(s, t)
    case CWait(t) => Owns(s, c, t)
    case CWrite(t) => Owns(s, c, t)
    case CHand(t, i) => Owns(s, c, t) && i in s.itbs && s.itbs[i].place == InHand(c)
  }

  predicate SwOk(s: State)
    requires s.open in s.txgs
  {
    var o := s.txgs[s.open];
    match s.sw
    case SIdle =>
      && s.mi == o.num && o.state == Open
      && (s.wb.Some? ==> s.wb.value in s.txgs && s.wb.value != s.open && s.txgs[s.wb.value].num + 1 == o.num)
    case SInc => s.mi == o.num + 1 && o.state == Open && s.wb == None
    case SNum(nt) => nt in s.txgs && o.state == Open && s.wb == None
    case SHeld(nt) => nt in s.txgs && o.state == Open && s.wb == None
    case SWb(nt) => nt in s.txgs && o.state == Open && s.wb == Some(s.open)
    case SState(nt) => nt in s.txgs && o.state != Open && s.wb == Some(s.open) && !Drained(s, s.open)
    case SPut(nt) => nt in s.txgs && o.state != Open && (s.wb == Some(s.open) || s.wb == None)
  }

  ghost predicate Inv(s: State) {
    && s.open in s.txgs && SwOk(s)
    && (s.sw != SIdle ==> s.mi == s.txgs[s.open].num + 1)
    && (forall x | x in s.txgs :: TxgOk(s, x))
    && (forall i | i in s.itbs :: ItbOk(s, i))
    && (forall r | r in s.req :: ReqOk(s, r))
    && (forall c | c in s.com :: ComOk(s, c))
  }

  lemma InitInv(s: State)
    requires Init(s)
    ensures Inv(s)
  {
    assert Pins(s.req, s.open) == {} && Sides(s.req, s.open) == {};
  }

  // ------------------------------------ steps that only move one request

  /** s' differs from s in request r and in pending counters only. */
  predicate SameBut(s: State, s': State, r: nat) {
    && s'.itbs == s.itbs && s'.open == s.open && s'.wb == s.wb && s'.mi == s.mi && s'.com == s.com && s'.sw == s.sw
    && s'.txgs.Keys == s.txgs.Keys
    && (forall x | x in s.txgs :: s'.txgs[x] == s.txgs[x].(pending := s'.txgs[x].pending))
    && s'.req.Keys == s.req.Keys && r in s.req && !s.req[r].Won?
    && (forall z | z in s.req && z != r :: s'.req[z] == s.req[z])
  }

  lemma TrustFrame(s: State, s': State, r: nat, x: nat)
    requires SameBut(s, s', r)
    ensures Known(s', x) == Known(s, x) && Trusted(s', x) == Trusted(s, x)
    ensures x in s.txgs ==> Drained(s', x) == Drained(s, x) && LiveTxg(s', x) == LiveTxg(s, x)
    ensures x in s.txgs ==> s'.txgs[x].num == s.txgs[x].num
  {
  }

  lemma ReqFrame(s: State, s': State, r: nat, z: nat)
    requires SameBut(s, s', r) && z in s.req && z != r && ReqOk(s, z)
    ensures ReqOk(s', z)
  {
    hide Known, Trusted, LiveTxg, Drained;
    forall x ensures Known(s', x) == Known(s, x) && Trusted(s', x) == Trusted(s, x) { TrustFrame(s, s', r, x); }
    TrustedKnown(s);
  }

  lemma TrustedKnown(s: State)
    ensures forall x | Trusted(s, x) || Known(s, x) :: x in s.txgs
  {
  }

  lemma ItbFrame(s: State, s': State, r: nat, i: nat)
    requires SameBut(s, s', r) && s.open in s.txgs && i in s.itbs && ItbOk(s, i)
    ensures ItbOk(s', i)
  {
  }

  lemma ComFrame(s: State, s': State, r: nat, c: nat)
    requires SameBut(s, s', r) && c in s.com && ComOk(s, c)
    ensures ComOk(s', c)
  {
  }

  lemma SwFrame(s: State, s': State, r: nat)
    requires SameBut(s, s', r) && s.open in s.txgs && SwOk(s)
    ensures SwOk(s')
  {
  }

  /** Pins on TXG x beyond those that its counter accounts for. */
  function PinsOf(q: Req, x: nat): nat {
    One(MainPin(q) == Some(x)) + One(SidePin(q) == Some(x))
  }

  lemma TxgFrame(s: State, s': State, r: nat, x: nat)
    requires SameBut(s, s', r) && s.open in s.txgs && x in s.txgs && TxgOk(s, x)
    requires s'.req == s.req[r := s'.req[r]]
    requires s'.txgs[x].pending - s.txgs[x].pending == PinsOf(s'.req[r], x) - PinsOf(s.req[r], x)
    requires Private(s, x) ==> s'.txgs[x].pending == 0
    ensures TxgOk(s', x)
  {
    hide MainPin, SidePin, Pins, Sides;
    MainPinsMove(s.req, r, s'.req[r], x);
    SidePinsMove(s.req, r, s'.req[r], x);
  }

  /** A request moves between control states, raising or lowering the pending
      counters by just the pins it gains or gives up; nothing else changes. */
  lemma MoveKeeps(s: State, r: nat, s': State)
    requires Inv(s) && SameBut(s, s', r) && s'.req == s.req[r := s'.req[r]]
    requires forall x | x in s.txgs ::
               s'.txgs[x].pending - s.txgs[x].pending == PinsOf(s'.req[r], x) - PinsOf(s.req[r], x)
    requires forall x | x in s.txgs && Private(s, x) :: s'.txgs[x].pending == s.txgs[x].pending
    requires ReqOk(s', r)
    ensures Inv(s')
  {
    hide TxgOk, ItbOk, ReqOk, ComOk, SwOk, PinsOf, Private;
    SwFrame(s, s', r);
    forall x | x in s'.txgs ensures TxgOk(s', x) {
      PrivateIdle(s, x);
      TxgFrame(s, s', r, x);
    }
    forall i | i in s'.itbs ensures ItbOk(s', i) { ItbFrame(s, s', r, i); }
    forall z | z in s'.req ensures ReqOk(s', z) { if z != r { ReqFrame(s, s', r, z); } }
    forall c | c in s'.com ensures ComOk(s', c) { ComFrame(s, s', r, c); }
  }

  lemma PrivateIdle(s: State, x: nat)
    requires s.open in s.txgs && x in s.txgs && TxgOk(s, x)
    ensures Private(s, x) ==> s.txgs[x].pending == 0
  {
  }
}
