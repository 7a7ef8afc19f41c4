/** A run of the TXG protocol in which a copy under a stale header makes the
    next copy, which nobody races with, lose a file. */
module TxgStale {
  import opened Common
  import opened ItbTable
  import opened ItbInvariant
  import opened ItbCounts
  import opened ItbEdits
  import opened ItbMatch
  import ItbNames
  import opened ItbCow
  import opened ItbCopies
  import opened TxgModel
  import opened TxgPaths
  import opened TxgRaces

  // ------------------------------------------------ the edits of the run

  /** Freeing a lone head is an edit. */
  lemma LoneHead(t: Tab, h: nat)
    requires Formed(t) && h < Cap(t) && h < |t.index| && t.index[h].flag == Unique
    ensures t.index[h].entry < |t.bits| && Deletes(t, Unlink(t, h)) && Formed(Unlink(t, h))
  {
    hide ChainOk, SlotAt, EntryAt;
    var w :| Shaped(t, w);
    HeadChain(t, w, h);
    SlotDeleted(t, w, h, 0);
    assert Deletes(t, DeleteSlot(t, w, h, 0));
    EditKeeps(t, DeleteSlot(t, w, h, 0));
  }

  /** Adding an ITE under a FREE head is an edit. */
  lemma NewHead(t: Tab, h: nat, nr: nat, e: Ite)
    requires Formed(t) && Sized(t) && h < Cap(t) && !Used(t, h) && nr < Cap(t) && FirstFree(t, nr)
    requires t.h.entries + 1 <= Cap(t)
    ensures Adds(t, AddIte(t, h, nr, Cap(t), e)) && Formed(AddIte(t, h, nr, Cap(t), e))
  {
    hide AddIte, Formed;
    assert FirstZero(Live(t), nr) by { assert forall x: nat | x < nr :: t.bits[x]; }
    assert AddsAt(t, h, nr, Cap(t), e, AddIte(t, h, nr, Cap(t), e));
    EditKeeps(t, AddIte(t, h, nr, Cap(t), e));
  }

  lemma FirstEdits()
    ensures Edit(R0, R1) && Edit(R1, R2) && Edit(R2, R3) && Edit(R3, R4)
    ensures Formed(R3) && Formed(R4)
  {
    BlankIsFormed();
    hide Formed, Adds, Deletes;
    NewHead(R0, 0, 0, ItbNames.LinkIte(0, 1, "a", 7));
    NewHead(R1, 1, 1, ItbNames.LinkIte(1, 2, "b", 7));
    LoneHead(R2, 1);
    NewHead(R3, 1, 1, ItbNames.LinkIte(1, 3, "c", 7));
  }

  lemma LastEdits()
    ensures Edit(R5, R6) && Edit(R6, R7)
  {
    FirstEdits();
    hide Formed, Adds, Deletes, Edit;
    CopyIsFormed(R4, R3.h, [NONE, NONE]);
    LoneHead(R5, 0);
    NewHead(R6, 0, 0, ItbNames.LinkIte(0, 4, "d", 7));
    EditOf(R5, R6);
    EditOf(R6, R7);
  }

  lemma EditOf(t: Tab, t': Tab)
    requires Adds(t, t') || Deletes(t, t')
    ensures Edit(t, t')
  {
  }

  // ------------------------------------------------------------- the run

  function Rec(num: nat, place: Place, body: Tab): ItbRec { ItbRec(num, Dirty, true, place, body) }

  function Old(place: Place, body: Tab): ItbRec { ItbRec(0, Cowed, false, place, body) }

  /** Request 0 holds TXG 0, in which ITB 0 holds x. */
  function P1(x: Tab): State {
    State(map[0 := Txg(0, Open, 1, [0], None)], map[0 := Rec(0, OnList(0), x)],
          0, None, 0, Q[0 := Pinned(0)], map[0 := CIdle], SIdle)
  }

  /** TXG 1 is open, and request 1 holds it. */
  function W2(x: Tab): State {
    State(map[0 := Txg(0, Wb, 1, [0], None), 1 := Txg(1, Open, 1, [], None)], map[0 := Rec(0, OnList(0), x)],
          1, Some(0), 1, Q[0 := Pinned(0)][1 := Pinned(1)], map[0 := CIdle], SIdle)
  }

  /** Request 1 has copied header hdr, and request 0 has gone on to x. */
  function P2(hdr: Header, x: Tab): State {
    State(map[0 := Txg(0, Wb, 1, [0], None), 1 := Txg(1, Open, 1, [], None)], map[0 := Rec(0, OnList(0), x)],
          1, Some(0), 1, Q[0 := Pinned(0)][1 := Copying(1, 0, hdr)], map[0 := CIdle], SIdle)
  }

  /** Request 1 has won with the copy y. */
  function W3(x: Tab, y: Tab): State {
    State(map[0 := Txg(0, Wb, 1, [0], None), 1 := Txg(1, Open, 1, [], None)],
          map[0 := Old(OnList(0), x), 1 := Rec(1, WonBy(1), y)],
          1, Some(0), 1, Q[0 := Pinned(0)][1 := Won(1, 1)], map[0 := CIdle], SIdle)
  }

  /** It has listed the copy and gone on to y. */
  function P3(x: Tab, y: Tab): State {
    State(map[0 := Txg(0, Wb, 1, [0], None), 1 := Txg(1, Open, 1, [1], None)],
          map[0 := Old(OnList(0), x), 1 := Rec(1, OnList(1), y)],
          1, Some(0), 1, Q[0 := Pinned(0)][1 := Pinned(1)], map[0 := CIdle], SIdle)
  }

  /** Request 0 is done. */
  function W4(x: Tab, y: Tab): State {
    State(map[0 := Txg(0, Wb, 0, [0], None), 1 := Txg(1, Open, 1, [1], None)],
          map[0 := Old(OnList(0), x), 1 := Rec(1, OnList(1), y)],
          1, Some(0), 1, Q[1 := Pinned(1)], map[0 := CIdle], SIdle)
  }

  /** TXG 0 is committed. */
  function P4(x: Tab, y: Tab): State {
    State(map[0 := Txg(0, Wbing, 0, [], Some(0)), 1 := Txg(1, Open, 1, [1], None)],
          map[0 := Old(Nowhere, x), 1 := Rec(1, OnList(1), y)],
          1, None, 1, Q[1 := Pinned(1)], map[0 := CIdle], SIdle)
  }

  /** TXG 2 is open, and request 2 copies ITB 1, which holds y. */
  function P5(x: Tab, y: Tab): State {
    State(map[0 := Txg(0, Wbing, 0, [], Some(0)), 1 := Txg(1, Wb, 1, [1], None), 2 := Txg(2, Open, 1, [], None)],
          map[0 := Old(Nowhere, x), 1 := Rec(1, OnList(1), y)],
          2, Some(1), 2, Q[1 := Pinned(1)][2 := Copying(2, 1, y.h)], map[0 := CIdle], SIdle)
  }

  lemma ReachP1() returns (o: State)
    ensures Init(o) && Leads(o, P1(R0))
  {
    hide Leads, R0;
    o := State(map[0 := Txg(0, Open, 0, [], None)], map[], 0, None, 0, Q, map[0 := CIdle], SIdle);
    Here(o);
    var b := Pin(o, o, 0);
    var c := Create(o, b, 0, 0);
    assert c.txgs[0].dirty == [0];
    assert c.itbs == P1(R0).itbs && c.txgs == P1(R0).txgs && c.req == P1(R0).req;
  }

  lemma Stay(o: State, x: Tab, y: Tab)
    requires Leads(o, P1(x)) && Edit(x, y)
    ensures Leads(o, P1(y))
  {
    hide Leads, Edit;
    var b := Rewrite(o, P1(x), 0, 0, y);
    assert b.itbs == P1(y).itbs;
  }

  lemma ToW2(o: State, x: Tab)
    requires Leads(o, P1(x))
    ensures Leads(o, W2(x))
  {
    hide Leads;
    var a := Switch(o, P1(x), 1);
    var b := Pin(o, a, 1);
    assert b.txgs == W2(x).txgs && b.req == W2(x).req;
  }

  lemma ToP2(o: State, x: Tab, y: Tab)
    requires Leads(o, W2(x)) && Edit(x, y)
    ensures Leads(o, P2(x.h, y))
  {
    hide Leads, Edit;
    var c := Begin(o, W2(x), 1, 0);
    var d := Rewrite(o, c, 0, 0, y);
    assert d.itbs == P2(x.h, y).itbs && d.req == P2(x.h, y).req;
  }

  lemma ToW3(o: State, hdr: Header, x: Tab, junk: seq<Ite>)
    requires Leads(o, P2(hdr, x)) && |junk| == |x.ite|
    ensures Leads(o, W3(x, Recopy(x, hdr, junk)))
  {
    hide Leads, Recopy;
    var b := W3(x, Recopy(x, hdr, junk));
    var a := Win(o, P2(hdr, x), 1, 1, junk);
    assert a.itbs == b.itbs && a.req == b.req;
  }

  lemma ToP3(o: State, x: Tab, y: Tab, y1: Tab, y2: Tab)
    requires Leads(o, W3(x, y)) && Edit(y, y1) && Edit(y1, y2)
    ensures Leads(o, P3(x, y2))
  {
    hide Leads, Edit;
    var a := List(o, W3(x, y), 1, y1);
    var b := Rewrite(o, a, 1, 1, y2);
    assert b.txgs[1].dirty == [1];
    assert b.itbs == P3(x, y2).itbs && b.txgs == P3(x, y2).txgs && b.req == P3(x, y2).req;
  }

  lemma ToW4(o: State, x: Tab, y: Tab)
    requires Leads(o, P3(x, y))
    ensures Leads(o, W4(x, y))
  {
    hide Leads;
    var a := Leave(o, P3(x, y), 0);
    assert a.txgs == W4(x, y).txgs && a.req == W4(x, y).req;
  }

  lemma ToP4(o: State, x: Tab, y: Tab)
    requires Leads(o, W4(x, y))
    ensures Leads(o, P4(x, y))
  {
    hide Leads;
    var b := Commit(o, W4(x, y), 0, 0, 0);
    assert b.itbs == P4(x, y).itbs && b.txgs == P4(x, y).txgs;
  }

  lemma ToP5(o: State, x: Tab, y: Tab)
    requires Leads(o, P4(x, y))
    ensures Leads(o, P5(x, y))
  {
    hide Leads;
    var a := Switch(o, P4(x, y), 2);
    var b := Pin(o, a, 2);
    var c := Begin(o, b, 2, 1);
    assert c.itbs == P5(x, y).itbs && c.txgs == P5(x, y).txgs && c.req == P5(x, y).req;
  }

  lemma Copies()
    ensures |R4.ite| == 2 && Recopy(R4, R3.h, [NONE, NONE]) == R5
    ensures |R7.ite| == 2 && Recopy(R7, R7.h, [NONE, NONE]) == R8
  {
  }

  lemma ReachP5()
    ensures Reachable(P5(R4, R7))
  {
    hide Leads, Init, Reachable, Edit, Recopy, P1, W2, P2, W3, P3, W4, P4, P5;
    FirstEdits();
    LastEdits();
    Copies();
    var o := ReachP1();
    Stay(o, R0, R1);
    Stay(o, R1, R2);
    Stay(o, R2, R3);
    ToW2(o, R3);
    ToP2(o, R3, R4);
    ToW3(o, R3.h, R4, [NONE, NONE]);
    ToP3(o, R4, R5, R6, R7);
    ToW4(o, R4, R7);
    ToP4(o, R4, R7);
    ToP5(o, R4, R7);
    Arrives(o, P5(R4, R7));
  }

  /** What a copy loses: ITB 1 is replaced by ITB 2 under its own header. */
  ghost predicate Loses(s: State, s': State, junk: seq<Ite>, h: nat, x: string) {
    && CowNext(s, CowWin(2, 2, junk), s')
    && 2 in s.req && s.req[2].Copying? && s.req[2].i == 1 && 1 in s.itbs && s.itbs[1].hashed
    && s.req[2].hdr == s.itbs[1].body.h && 2 in s'.itbs && s'.itbs[2].hashed
    && Answer(s.itbs[1].body, h, ByName(x)) != None && Answer(s'.itbs[2].body, h, ByName(x)) == None
  }

  lemma LastWin(x: Tab, y: Tab, junk: seq<Ite>, h: nat, name: string) returns (s': State)
    requires Reachable(P5(x, y)) && |junk| == |y.ite|
    requires Answer(y, h, ByName(name)) != None && Answer(Recopy(y, y.h, junk), h, ByName(name)) == None
    ensures Loses(P5(x, y), s', junk, h, name) && Reachable(s')
  {
    hide Leads, Init, Reachable, Answer, Recopy;
    var o := Origin(P5(x, y));
    s' := Win(o, P5(x, y), 2, 2, junk);
    Arrives(o, s');
  }

  /** A reachable copy-on-write, made under the header of the ITB as it is, loses
      file c: the ITB it replaces has it and the ITB that takes its place does not. */
  lemma CopyLosesFile()
    ensures exists s: State, s': State ::
              Reachable(s) && Reachable(s') && Loses(s, s', [NONE, NONE], HeadOfName("c"), "c")
  {
    hide Loses, Reachable, P5, Recopy, Answer;
    ReachP5();
    Copies();
    StaleHeaderLosesFile();
    var s' := LastWin(R4, R7, [NONE, NONE], HeadOfName("c"), "c");
  }
}
