/** The tables inside the TXG protocol: they stay well-formed in every run, and
    their copies mean what they mean exactly as far as their headers last. */
module TxgTables {
  import opened ItbTable
  import opened ItbCounts
  import opened ItbEdits
  import opened ItbMatch
  import opened ItbCow
  import opened ItbCopies
  import opened TxgModel

  // ------------------------------------------------- how bodies come about

  /** ITB i is an edit of what it was, or was just inserted, or is the copy of a win. */
  ghost predicate Stems(s: State, a: Act, s': State, i: nat)
    requires i in s'.itbs
  {
    || (i in s.itbs && Edit(s.itbs[i].body, s'.itbs[i].body))
    || (a.Insert? && a.i == i && s'.itbs[i].body == a.body && Formed(a.body))
    || (a.CowWin? && a.n == i && Wins(s, a) && s'.itbs[i].body == Copied(s, a))
  }

  predicate Wins(s: State, a: Act) {
    && a.CowWin? && a.r in s.req && s.req[a.r].Copying? && s.req[a.r].i in s.itbs
    && |a.junk| == |s.itbs[s.req[a.r].i].body.ite|
  }

  /** The ITB that a win puts in place of the one it copies. */
  function Copied(s: State, a: Act): Tab
    requires Wins(s, a)
  {
    Recopy(s.itbs[s.req[a.r].i].body, s.req[a.r].hdr, a.junk)
  }

  /** A request copies a header only from an ITB as it is. */
  predicate HeaderStems(s: State, s': State, r: nat)
    requires r in s'.req
  {
    s'.req[r].Copying? ==>
      || (r in s.req && s.req[r] == s'.req[r])
      || (s'.req[r].i in s.itbs && s'.req[r].hdr == s.itbs[s'.req[r].i].body.h)
  }

  lemma ReqStems(s: State, a: Act, s': State, i: nat)
    requires ReqNext(s, a, s')
    ensures i in s'.itbs ==> Stems(s, a, s', i)
  {
    hide Deletes, Adds, Updates, Formed, Recopy, Keeps;
  }

  lemma ReqHeaders(s: State, a: Act, s': State, r: nat)
    requires ReqNext(s, a, s')
    ensures r in s'.req ==> HeaderStems(s, s', r)
  {
    hide Edit, Formed, Keeps, Reaches;
  }

  lemma CowStems(s: State, a: Act, s': State, i: nat)
    requires CowNext(s, a, s')
    ensures i in s'.itbs ==> Stems(s, a, s', i)
    ensures a.CowWin? ==> Wins(s, a) && a.n in s'.itbs && s'.itbs[a.n].body == Copied(s, a)
  {
    hide Deletes, Adds, Updates, Formed, Recopy, Keeps, HoldsLock, Reaches;
  }

  lemma CowHeaders(s: State, a: Act, s': State, r: nat)
    requires CowNext(s, a, s')
    ensures r in s'.req ==> HeaderStems(s, s', r)
  {
    hide Edit, Recopy, Keeps, HoldsLock;
  }

  lemma RebindStems(s: State, a: Act, s': State, i: nat)
    requires RebindNext(s, a, s')
    ensures i in s'.itbs ==> Stems(s, a, s', i)
    ensures i in s'.req ==> HeaderStems(s, s', i)
  {
    hide Deletes, Adds, Updates, Formed, Recopy, Reaches, AssertsHold;
  }

  lemma OtherStems(s: State, a: Act, s': State, i: nat)
    requires SwNext(s, a, s') || ComNext(s, a, s')
    ensures i in s'.itbs ==> Stems(s, a, s', i)
    ensures i in s'.req ==> HeaderStems(s, s', i)
  {
    hide Deletes, Adds, Updates, Formed, Recopy;
  }

  lemma NextStems(s: State, a: Act, s': State, i: nat)
    requires Next(s, a, s')
    ensures i in s'.itbs ==> Stems(s, a, s', i)
    ensures i in s'.req ==> HeaderStems(s, s', i)
  {
    hide ReqNext, CowNext, RebindNext, SwNext, ComNext, Stems, HeaderStems;
    if ReqNext(s, a, s') { ReqStems(s, a, s', i); ReqHeaders(s, a, s', i); }
    if CowNext(s, a, s') { CowStems(s, a, s', i); CowHeaders(s, a, s', i); }
    if RebindNext(s, a, s') { RebindStems(s, a, s', i); }
    if SwNext(s, a, s') || ComNext(s, a, s') { OtherStems(s, a, s', i); }
  }

  // -------------------------------------------------- tables stay in shape

  /** Every ITB is well-formed, and so is every header copied early. */
  ghost predicate AllFormed(s: State) {
    && (forall i | i in s.itbs :: Formed(s.itbs[i].body))
    && (forall r | r in s.req && s.req[r].Copying? :: s.req[r].hdr.maxOffset <= s.req[r].hdr.len)
  }

  lemma FormedHeader(t: Tab)
    requires Formed(t)
    ensures t.h.maxOffset <= t.h.len
  {
  }

  lemma NextFormed(s: State, a: Act, s': State)
    requires AllFormed(s) && Next(s, a, s')
    ensures AllFormed(s')
  {
    hide Next, Formed, Edit, Recopy;
    forall i | i in s'.itbs ensures Formed(s'.itbs[i].body) {
      NextStems(s, a, s', i);
      if i in s.itbs && Edit(s.itbs[i].body, s'.itbs[i].body) {
        EditKeeps(s.itbs[i].body, s'.itbs[i].body);
      } else if a.CowWin? {
        CopyIsFormed(s.itbs[s.req[a.r].i].body, s.req[a.r].hdr, a.junk);
      }
    }
    forall r | r in s'.req && s'.req[r].Copying? ensures s'.req[r].hdr.maxOffset <= s'.req[r].hdr.len {
      NextStems(s, a, s', r);
      if !(r in s.req && s.req[r] == s'.req[r]) { FormedHeader(s.itbs[s'.req[r].i].body); }
    }
  }

  /** In every interleaving every ITB, reachable or not, is well-formed. */
  lemma {:induction false} TablesStayFormed(ss: seq<State>, acts: seq<Act>, k: nat)
    requires Run(ss, acts) && k < |ss|
    ensures AllFormed(ss[k])
  {
    hide Next, Formed;
    if k > 0 {
      TablesStayFormed(ss, acts, k - 1);
      NextFormed(ss[k - 1], acts[k - 1], ss[k]);
    }
  }

  // ------------------------------------------------- what copies then mean

  lemma WinIsCopy(ss: seq<State>, acts: seq<Act>, k: nat)
    requires Run(ss, acts) && k < |acts| && acts[k].CowWin?
    ensures Wins(ss[k], acts[k]) && acts[k].n in ss[k + 1].itbs && ss[k + 1].itbs[acts[k].n].body == Copied(ss[k], acts[k])
  {
    hide ReqNext, CowNext, RebindNext, SwNext, ComNext, Init;
    assert Next(ss[k], acts[k], ss[k + 1]);
    WinIsCow(ss[k], acts[k], ss[k + 1]);
    CowStems(ss[k], acts[k], ss[k + 1], 0);
  }

  lemma WinIsCow(s: State, a: Act, s': State)
    requires Next(s, a, s') && a.CowWin?
    ensures CowNext(s, a, s')
  {
    hide CowNext;
  }

  /** The ITB that a step copies. */
  function Source(s: State, a: Act): Tab
    requires Wins(s, a)
  {
    s.itbs[s.req[a.r].i].body
  }

  /** A win of any run answers all that requests can ask as the ITB it replaces,
      whatever the recycled memory held, exactly if that ITB keeps its ITEs
      inside its len. */
  lemma WinKeepsMeaningIff(ss: seq<State>, acts: seq<Act>, k: nat)
    requires Run(ss, acts) && k < |acts| && acts[k].CowWin?
    ensures Wins(ss[k], acts[k])
    ensures (forall junk: seq<Ite>, hash: nat, q: Query | |junk| == |acts[k].junk| && Askable(hash, q) ::
               Answer(Copied(ss[k], acts[k].(junk := junk)), hash, q) == Answer(Source(ss[k], acts[k]), hash, q))
            <==> Inside(Source(ss[k], acts[k]))
  {
    hide Init, Next, Shaped, Inside, Answer, Recopy;
    WinIsCopy(ss, acts, k);
    TablesStayFormed(ss, acts, k);
    var s, a := ss[k], acts[k];
    var oi := Source(s, a);
    assert Formed(oi);
    var w :| Shaped(oi, w);
    CowIsRightIff(oi, w, s.req[a.r].hdr);
    if Inside(oi) {
      forall junk: seq<Ite>, hash: nat, q: Query | |junk| == |acts[k].junk| && Askable(hash, q)
        ensures Answer(Copied(s, a.(junk := junk)), hash, q) == Answer(oi, hash, q)
      {
        assert Copied(s, a.(junk := junk)) == Recopy(oi, s.req[a.r].hdr, junk);
      }
    } else {
      var junk: seq<Ite>, hash: nat, q: Query :|
        |junk| == |oi.ite| && Askable(hash, q) && Answer(Recopy(oi, s.req[a.r].hdr, junk), hash, q) != Answer(oi, hash, q);
      assert Copied(s, a.(junk := junk)) == Recopy(oi, s.req[a.r].hdr, junk);
    }
  }

  /** The guard on what enters the hash table: an inserted ITB has a lasting
      header; at a win the header was refreshed, as its len is not the one copied
      early, or the one copied early lasts over the ITEs that are live now. */
  ghost predicate Steady(s: State, a: Act) {
    match a
    case Insert(_, _, _, body) => Lasting(CountsOf(body), Cap(body))
    case CowWin(r, _, _) => Wins(s, a) ==> HeaderLasts(Source(s, a), s.req[r].hdr)
    case _ => true
  }

  ghost predicate HeaderLasts(oi: Tab, hdr: Header) {
    hdr.len != oi.h.len || Lasting(Counts(Live(oi), hdr.maxOffset, hdr.len, hdr.entries), Cap(oi))
  }

  lemma SteadyKeeps(s: State, a: Act, s': State)
    requires AllFormed(s) && Next(s, a, s') && Steady(s, a)
    requires forall i | i in s.itbs :: Sound(s.itbs[i].body)
    ensures forall i | i in s'.itbs :: Sound(s'.itbs[i].body)
  {
    hide Next, Formed, Edit, Recopy, Lasting;
    forall i | i in s'.itbs ensures Sound(s'.itbs[i].body) {
      NextStems(s, a, s', i);
      if i in s.itbs && Edit(s.itbs[i].body, s'.itbs[i].body) {
        EditIsSound(s.itbs[i].body, s'.itbs[i].body);
      } else if a.CowWin? {
        CopyIsFormed(s.itbs[s.req[a.r].i].body, s.req[a.r].hdr, a.junk);
      }
    }
  }

  lemma {:induction false} SteadyRun(ss: seq<State>, acts: seq<Act>, k: nat)
    requires Run(ss, acts) && k < |ss| && forall j | 0 <= j < k :: Steady(ss[j], acts[j])
    ensures forall i | i in ss[k].itbs :: Sound(ss[k].itbs[i].body)
  {
    hide Next, Sound, Steady;
    if k > 0 {
      SteadyRun(ss, acts, k - 1);
      TablesStayFormed(ss, acts, k - 1);
      SteadyKeeps(ss[k - 1], acts[k - 1], ss[k]);
    }
  }

  /** While what enters the hash table is guarded, every ITB of the run keeps its
      ITEs inside its len, and every win answers every search, of any kind and
      whatever the recycled memory held, as the ITB it replaces. */
  lemma WinKeepsMeaning(ss: seq<State>, acts: seq<Act>, k: nat, hash: nat, q: Query)
    requires Run(ss, acts) && k < |acts| && forall j | 0 <= j < k :: Steady(ss[j], acts[j])
    ensures forall i | i in ss[k].itbs :: Inside(ss[k].itbs[i].body)
    ensures acts[k].CowWin? ==>
              && Wins(ss[k], acts[k]) && acts[k].n in ss[k + 1].itbs
              && Answer(ss[k + 1].itbs[acts[k].n].body, hash, q) == Answer(Source(ss[k], acts[k]), hash, q)
  {
    hide Init, Next, Answer, Steady, Shaped, Recopy;
    SteadyRun(ss, acts, k);
    forall i | i in ss[k].itbs ensures Inside(ss[k].itbs[i].body) {
      var t := ss[k].itbs[i].body;
      assert Sound(t);
      forall e | 0 <= e < |t.bits| && t.bits[e] ensures e < t.h.len { assert e in Live(t); }
    }
    if acts[k].CowWin? {
      WinIsCopy(ss, acts, k);
      var oi := Source(ss[k], acts[k]);
      assert Sound(oi);
      var w :| Shaped(oi, w);
      CowKeepsMeaning(oi, w, ss[k].req[acts[k].r].hdr, acts[k].junk, hash, q);
    }
  }

  /** And the guard is exact: the win of a sound ITB keeps every later copy right,
      whatever requests then do, exactly if it passes the guard. */
  lemma GuardIsExact(ss: seq<State>, acts: seq<Act>, k: nat)
    requires Run(ss, acts) && k < |acts| && acts[k].CowWin?
    requires Wins(ss[k], acts[k]) ==> Sound(Source(ss[k], acts[k]))
    ensures acts[k].n in ss[k + 1].itbs
    ensures StaysRight(ss[k + 1].itbs[acts[k].n].body) <==> Steady(ss[k], acts[k])
  {
    hide Init, Next, Sound, StaysRight, Recopy, Lasting;
    WinIsCopy(ss, acts, k);
    TablesStayFormed(ss, acts, k);
    CopyStaysRightIff(Source(ss[k], acts[k]), ss[k].req[acts[k].r].hdr, acts[k].junk);
  }
}
