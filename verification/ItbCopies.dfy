/** What becomes of a copy: which headers keep every later copy right, whatever
    requests add, delete and change in between. */
module ItbCopies {
  import opened ItbTable
  import opened ItbInvariant
  import opened ItbCounts
  import opened ItbEdits
  import opened ItbCow

  /** The table has a header that lasts. */
  ghost predicate Sound(t: Tab) { Formed(t) && Lasting(CountsOf(t), Cap(t)) }

  /** An edit, or a copy that nobody races with. */
  ghost predicate Goes(t: Tab, t': Tab) {
    Edit(t, t') || exists junk: seq<Ite> :: |junk| == |t.ite| && t' == Recopy(t, t.h, junk)
  }

  ghost predicate History(ts: seq<Tab>) { ts != [] && forall k | 0 <= k < |ts| - 1 :: Goes(ts[k], ts[k + 1]) }

  /** Every copy made later, after any number of edits and copies, is right. */
  ghost predicate StaysRight(t: Tab) {
    forall ts: seq<Tab> | History(ts) && ts[0] == t :: CopiesRight(ts[|ts| - 1], ts[|ts| - 1].h)
  }

  /** A copy has the index, the bitmap and one of the two headers. */
  lemma CopyIsFormed(oi: Tab, hdr: Header, junk: seq<Ite>)
    requires Formed(oi) && |junk| == |oi.ite| && hdr.maxOffset <= hdr.len
    ensures var n := Recopy(oi, hdr, junk);
            && Formed(n) && Cap(n) == Cap(oi) && |n.ite| == |oi.ite|
            && CountsOf(n) == if hdr.len != oi.h.len then CountsOf(oi) else Counts(Live(oi), hdr.maxOffset, hdr.len, hdr.entries)
  {
    var w :| Shaped(oi, w);
    var n := Recopy(oi, hdr, junk);
    ShapeOfParts(oi, w, n);
    assert Live(n) == Live(oi);
  }

  lemma FormedCopiesRight(t: Tab, hdr: Header)
    requires Formed(t)
    ensures CopiesRight(t, hdr) <==> Covered(CountsOf(t))
  {
    hide Shaped, CopiesRight;
    var w :| Shaped(t, w);
    CowIsRightIff(t, w, hdr);
    forall e | 0 <= e < Cap(t) && t.bits[e] ensures e in Live(t) {}
  }

  /** An edit of a sound table leaves a sound one. */
  lemma EditIsSound(t: Tab, t': Tab)
    requires Sound(t) && Edit(t, t')
    ensures Sound(t') && Cap(t') == Cap(t)
  {
    hide Formed, Edit, Lasting, Ranged, Moves;
    EditKeeps(t, t');
    FormedIsRanged(t);
    if CountsOf(t') != CountsOf(t) { MoveKeeps(CountsOf(t), CountsOf(t'), Cap(t)); }
  }

  lemma GoesSound(t: Tab, t': Tab)
    requires Sound(t) && Goes(t, t')
    ensures Sound(t')
  {
    hide Edit, Lasting, Recopy;
    if Edit(t, t') {
      EditIsSound(t, t');
    } else {
      var junk: seq<Ite> :| |junk| == |t.ite| && t' == Recopy(t, t.h, junk);
      CopyIsFormed(t, t.h, junk);
    }
  }

  lemma {:induction false} HistorySound(ts: seq<Tab>, k: nat)
    requires History(ts) && k < |ts| && Sound(ts[0])
    ensures Sound(ts[k])
  {
    hide Goes, Sound;
    if k > 0 {
      HistorySound(ts, k - 1);
      GoesSound(ts[k - 1], ts[k]);
    }
  }

  /** Every path of the counters is the path of some edits. */
  lemma {:induction false} Realise(t: Tab, cs: seq<Counts>, k: nat) returns (ts: seq<Tab>)
    requires Formed(t) && Path(cs, Cap(t)) && cs[0] == CountsOf(t) && k < |cs|
    ensures |ts| == k + 1 && History(ts) && ts[0] == t
    ensures Formed(ts[k]) && Cap(ts[k]) == Cap(t) && CountsOf(ts[k]) == cs[k]
  {
    hide Formed, Edit, Moves;
    if k == 0 {
      ts := [t];
    } else {
      var us := Realise(t, cs, k - 1);
      assert Moves(cs[k - 1], cs[k], Cap(t));
      var t' := MoveIsEdit(us[k - 1], cs[k]);
      EditKeeps(us[k - 1], t');
      ts := us + [t'];
      assert Goes(us[k - 1], t');
      assert forall j | 0 <= j < k - 1 :: Goes(us[j], us[j + 1]);
    }
  }

  /** Every later copy is right, whatever is added, deleted, changed and copied
      before it, exactly if the header covers the live ITEs, does not lag behind
      them, and has none above max_offset unless adds are blocked. */
  lemma LaterCopiesRightIff(t: Tab)
    requires Formed(t)
    ensures StaysRight(t) <==> Lasting(CountsOf(t), Cap(t))
  {
    hide Formed, Lasting, Goes, CopiesRight, Ranged, Covered;
    FormedIsRanged(t);
    LastingIff(CountsOf(t), Cap(t));
    if Lasting(CountsOf(t), Cap(t)) {
      forall ts: seq<Tab> | History(ts) && ts[0] == t ensures CopiesRight(ts[|ts| - 1], ts[|ts| - 1].h) {
        HistorySound(ts, |ts| - 1);
        SoundCopiesRight(ts[|ts| - 1], ts[|ts| - 1].h);
      }
    } else {
      var cs: seq<Counts> :| Path(cs, Cap(t)) && cs[0] == CountsOf(t) && !Covered(cs[|cs| - 1]);
      var ts := Realise(t, cs, |cs| - 1);
      FormedCopiesRight(ts[|ts| - 1], ts[|ts| - 1].h);
    }
  }

  lemma SoundCopiesRight(t: Tab, hdr: Header)
    requires Sound(t)
    ensures CopiesRight(t, hdr)
  {
    hide Formed, CopiesRight;
    FormedCopiesRight(t, hdr);
  }

  /** The run invariant of one ITB makes its header last. */
  lemma InvIsSound(t: Tab, w: Shape)
    requires Inv(t, w)
    ensures Sound(t)
  {
    forall e | e in Live(t) ensures e < t.h.len && e <= t.h.maxOffset {}
  }

  /** The copy of a sound table keeps every later copy right exactly if its
      header was refreshed or the header copied early lasts over the ITEs that
      are live when the copy is made. */
  lemma CopyStaysRightIff(oi: Tab, hdr: Header, junk: seq<Ite>)
    requires Sound(oi) && |junk| == |oi.ite| && hdr.maxOffset <= hdr.len
    ensures StaysRight(Recopy(oi, hdr, junk)) <==>
            hdr.len != oi.h.len || Lasting(Counts(Live(oi), hdr.maxOffset, hdr.len, hdr.entries), Cap(oi))
  {
    hide Formed, Lasting, StaysRight, Recopy;
    CopyIsFormed(oi, hdr, junk);
    LaterCopiesRightIff(Recopy(oi, hdr, junk));
  }
}
