/** The segmented directory of the CBHT: its segments hold one sequence of
    bucket numbers, and doubling them doubles that sequence for any segment size. */
module CbhtDir {
  import opened CbhtBits
  import opened CbhtModel

  /** A piece of the directory that starts at slot `offset` and has room for `alen` slots. */
  datatype Segment = Segment(offset: nat, alen: nat, seg: seq<nat>)

  function Dir(segs: seq<Segment>): seq<nat> {
    if segs == [] then [] else Dir(segs[..|segs| - 1]) + segs[|segs| - 1].seg
  }

  /** Segments follow one another; all are full except perhaps the last. */
  ghost predicate Contig(segs: seq<Segment>, alen: nat) {
    && (forall j | 0 <= j < |segs| ::
          segs[j].alen == alen && |segs[j].seg| <= alen && segs[j].offset == |Dir(segs[..j])|)
    && (forall j | 0 <= j < |segs| - 1 :: |segs[j].seg| == alen)
  }

  lemma DirSnoc(segs: seq<Segment>, j: nat)
    requires j < |segs|
    ensures Dir(segs[..j + 1]) == Dir(segs[..j]) + segs[j].seg
  {
    assert segs[..j + 1][..j] == segs[..j];
  }

  lemma Whole(segs: seq<Segment>)
    ensures segs[..|segs|] == segs && (Dir(segs) != [] ==> segs != [])
  {
  }

  /** The part of the directory that the first j segments hold is a prefix of it. */
  lemma {:induction false} DirPrefix(segs: seq<Segment>, j: nat)
    requires j <= |segs|
    ensures Dir(segs[..j]) <= Dir(segs)
    decreases |segs| - j
  {
    if j == |segs| {
      assert segs[..j] == segs;
    } else {
      DirSnoc(segs, j);
      DirPrefix(segs, j + 1);
    }
  }

  /** Segment j holds the slots from its offset on. */
  lemma DirSlice(segs: seq<Segment>, alen: nat, j: nat)
    requires Contig(segs, alen) && j < |segs|
    ensures segs[j].offset + |segs[j].seg| <= |Dir(segs)|
    ensures forall i | 0 <= i < |segs[j].seg| :: Dir(segs)[segs[j].offset + i] == segs[j].seg[i]
  {
    DirSnoc(segs, j);
    DirPrefix(segs, j + 1);
  }

  lemma ContigPrefix(segs: seq<Segment>, alen: nat, j: nat)
    requires Contig(segs, alen) && j <= |segs|
    ensures Contig(segs[..j], alen)
  {
    forall i | 0 <= i < j ensures segs[..j][i].offset == |Dir(segs[..j][..i])| { assert segs[..j][..i] == segs[..i]; }
  }

  /** Filling up the last segment. */
  lemma ExtendLast(segs: seq<Segment>, alen: nat, more: seq<nat>)
    requires Contig(segs, alen) && segs != [] && |segs[|segs| - 1].seg| + |more| <= alen
    ensures var n := |segs| - 1;
            var segs' := segs[n := segs[n].(seg := segs[n].seg + more)];
            Contig(segs', alen) && Dir(segs') == Dir(segs) + more
  {
    var n := |segs| - 1;
    var segs' := segs[n := segs[n].(seg := segs[n].seg + more)];
    forall j | 0 <= j < |segs| ensures segs'[..j] == segs[..j] {}
  }

  /** A new segment behind a full one. */
  lemma AppendSegment(segs: seq<Segment>, alen: nat)
    requires Contig(segs, alen) && segs != [] && |segs[|segs| - 1].seg| == alen
    ensures var last := segs[|segs| - 1];
            var segs' := segs + [Segment(last.offset + last.alen, last.alen, [])];
            Contig(segs', alen) && Dir(segs') == Dir(segs)
  {
    var last := segs[|segs| - 1];
    var segs' := segs + [Segment(last.offset + last.alen, last.alen, [])];
    forall j | 0 <= j <= |segs| ensures segs'[..j] == segs[..j] {}
    assert segs[..|segs|] == segs;
    DirSnoc(segs, |segs| - 1);
  }

  /** The walk over the segments that finds the slot of an offset. */
  method Locate(segs: seq<Segment>, alen: nat, offset: nat) returns (x: nat)
    requires Contig(segs, alen) && offset < |Dir(segs)|
    ensures x == Dir(segs)[offset]
  {
    var j := 0;
    Whole(segs);
    while !(segs[j].offset <= offset && offset < segs[j].offset + |segs[j].seg|)
      invariant 0 <= j < |segs|
      invariant |Dir(segs[..j])| <= offset
      decreases |segs| - j
    {
      DirSnoc(segs, j);
      j := j + 1;
    }
    DirSlice(segs, alen, j);
    x := segs[j].seg[offset - segs[j].offset];
  }

  /** Where segment j ends. */
  lemma SegmentEnd(segs: seq<Segment>, alen: nat, j: nat)
    requires Contig(segs, alen) && j < |segs|
    ensures j == 0 ==> segs[j].offset == 0
    ensures segs[j].offset + |segs[j].seg| == if j + 1 < |segs| then segs[j + 1].offset else |Dir(segs)|
  {
    DirSnoc(segs, j);
    Whole(segs);
  }

  lemma Middle(a: seq<nat>, s: seq<nat>, b: seq<nat>, lo: nat, hi: nat)
    requires |a| <= lo <= hi <= |a| + |s|
    ensures (a + s + b)[lo..hi] == s[lo - |a|..hi - |a|]
  {
  }

  lemma SliceOf(segs: seq<Segment>, alen: nat, j: nat, lo: nat, hi: nat)
    requires Contig(segs, alen) && j < |segs| && segs[j].offset <= lo <= hi <= segs[j].offset + |segs[j].seg|
    ensures hi <= |Dir(segs)| && Dir(segs)[lo..hi] == segs[j].seg[lo - segs[j].offset..hi - segs[j].offset]
  {
    DirSnoc(segs, j);
    DirPrefix(segs, j + 1);
    var a, s, b := Dir(segs[..j]), segs[j].seg, Dir(segs)[segs[j].offset + |segs[j].seg|..];
    assert Dir(segs) == a + s + b;
    Middle(a, s, b, lo, hi);
  }

  lemma Joined(dir: seq<nat>, a: nat, b: nat, c: nat)
    requires a <= b <= c <= |dir|
    ensures dir[a..c] == dir[a..b] + dir[b..c]
  {
  }

  /** Up to where one memcpy from segment `pos` copies of the slots [off, end). */
  function To(pos: Segment, off: nat, end: nat): (to: nat)
    requires off <= end && pos.offset <= off
    ensures off <= to <= end && (off < to ==> to <= pos.offset + |pos.seg|)
    ensures to < end ==> pos.offset + |pos.seg| <= to
  {
    if off < pos.offset + |pos.seg|
    then if end < pos.offset + |pos.seg| then end else pos.offset + |pos.seg|
    else off
  }

  /** cbht_copy_dir: the slots [offset, offset + len), gathered from the segments. */
  method CopyDir(segs: seq<Segment>, alen: nat, offset: nat, len: nat) returns (copied: seq<nat>)
    requires Contig(segs, alen) && offset + len <= |Dir(segs)|
    ensures copied == Dir(segs)[offset..offset + len]
  {
    Whole(segs);
    if segs != [] { SegmentEnd(segs, alen, 0); }
    hide Contig, Dir, To;
    copied := [];
    var off, end, j := offset, offset + len, 0;
    while j < |segs| && off < end
      invariant 0 <= j <= |segs| && offset <= off <= end
      invariant copied == Dir(segs)[offset..off]
      invariant off < end ==> (if j < |segs| then segs[j].offset else |Dir(segs)|) <= off
      decreases |segs| - j
    {
      SegmentEnd(segs, alen, j);
      var to := To(segs[j], off, end);
      if off < to {
        SliceOf(segs, alen, j, off, to);
        Joined(Dir(segs), offset, off, to);
        copied := copied + segs[j].seg[off - segs[j].offset..to - segs[j].offset];
      }
      off := to;
      j := j + 1;
    }
  }

  /** The segment from which the directory grows; there is always one, so the
      error exit of the search is dead. */
  method LastSegment(segs: seq<Segment>, alen: nat, len: nat) returns (ss: nat)
    requires Contig(segs, alen) && |Dir(segs)| == len > 0
    requires forall j | 0 <= j < |segs| :: segs[j].seg != []
    ensures ss == |segs| - 1
  {
    var olen := len;
    ss := 0;
    Whole(segs);
    while olen != |segs[ss].seg|
      invariant 0 <= ss < |segs|
      invariant olen == len - |Dir(segs[..ss])|
      decreases |segs| - ss
    {
      DirSlice(segs, alen, ss);
      DirSnoc(segs, ss);
      olen := olen - |segs[ss].seg|;
      ss := ss + 1;
    }
    LastFound(segs, alen, ss);
  }

  /** Slots [offset, offset + len) are copied behind the last slot of the last segment. */
  method Fill(segs: seq<Segment>, alen: nat, offset: nat, len: nat) returns (segs': seq<Segment>)
    requires Contig(segs, alen) && segs != [] && |segs[|segs| - 1].seg| + len <= alen && offset + len <= |Dir(segs)|
    ensures Contig(segs', alen) && Dir(segs') == Dir(segs) + Dir(segs)[offset..offset + len]
    ensures |segs'| == |segs| && forall j | 0 <= j < |segs| - 1 :: segs'[j] == segs[j]
    ensures |segs'[|segs| - 1].seg| == |segs[|segs| - 1].seg| + len
  {
    var copied := CopyDir(segs, alen, offset, len);
    ExtendLast(segs, alen, copied);
    var n := |segs| - 1;
    segs' := segs[n := segs[n].(seg := segs[n].seg + copied)];
  }

  /** mds_segment_alloc and mds_segment_init: an empty segment behind a full one. */
  method Append(segs: seq<Segment>, alen: nat) returns (segs': seq<Segment>)
    requires Contig(segs, alen) && segs != [] && |segs[|segs| - 1].seg| == alen
    ensures Contig(segs', alen) && Dir(segs') == Dir(segs)
    ensures |segs'| == |segs| + 1 && segs'[|segs|].seg == []
    ensures forall j | 0 <= j < |segs| :: segs'[j] == segs[j]
  {
    hide Dir, Contig;
    AppendSegment(segs, alen);
    var last := segs[|segs| - 1];
    segs' := segs + [Segment(last.offset + last.alen, last.alen, [])];
  }

  /** cbht_enlarge_dir: the directory is doubled, whatever the segment size. */
  method EnlargeDir(segs: seq<Segment>, alen: nat, depth: nat) returns (segs': seq<Segment>)
    requires alen > 0 && Contig(segs, alen) && |Dir(segs)| == Pow2(depth)
    requires forall j | 0 <= j < |segs| :: segs[j].seg != []
    ensures Contig(segs', alen) && Dir(segs') == Dir(segs) + Dir(segs)
    ensures forall j | 0 <= j < |segs'| :: segs'[j].seg != []
  {
    ghost var dir := Dir(segs);
    Whole(segs);
    var nlen, offset := Pow2(depth), 0;
    var ss := LastSegment(segs, alen, nlen);
    segs' := segs;
    assert Dir(segs') == dir + dir[..offset];
    assert |segs'[ss].seg| <= alen;
    hide Dir, Pow2, Contig;
    while nlen > 0
      invariant |segs'| == ss + 1 && 0 <= offset && 0 <= nlen && offset + nlen == |dir|
      invariant Contig(segs', alen) && Dir(segs') == dir + dir[..offset]
      invariant forall j | 0 <= j < ss :: segs'[j].seg != []
      invariant segs'[ss].seg == [] ==> nlen > 0
      invariant |segs'[ss].seg| <= alen
      decreases nlen, |segs'[ss].seg|
    {
      var room := alen - |segs'[ss].seg|;
      var olen := if room < nlen then room else nlen;
      if olen > 0 {
        Grown(dir, offset, olen);
        segs' := Fill(segs', alen, offset, olen);
        nlen := nlen - olen;
        offset := offset + olen;
      }
      if nlen > 0 {
        segs' := Append(segs', alen);
        ss := ss + 1;
      }
    }
    assert dir[..offset] == dir;
  }

  lemma Grown(dir: seq<nat>, offset: nat, len: nat)
    requires offset + len <= |dir|
    ensures dir + dir[..offset] + (dir + dir[..offset])[offset..offset + len] == dir + dir[..offset + len]
  {
  }

  /** Only the last segment reaches the end of the directory. */
  lemma LastFound(segs: seq<Segment>, alen: nat, ss: nat)
    requires Contig(segs, alen) && ss < |segs| && forall j | 0 <= j < |segs| :: segs[j].seg != []
    requires |Dir(segs)| - |Dir(segs[..ss])| == |segs[ss].seg|
    ensures ss == |segs| - 1
  {
    DirSnoc(segs, ss);
    if ss < |segs| - 1 {
      DirSnoc(segs, ss + 1);
      DirPrefix(segs, ss + 2);
    }
  }

  // ----------------------------------------------------- segment_update_dir

  function RedirSegment(s: Segment, d: nat, id: nat, x: nat): (r: Segment)
    ensures |r.seg| == |s.seg| && r.offset == s.offset && r.alen == s.alen
  {
    s.(seg := seq(|s.seg|, i requires 0 <= i < |s.seg| => if Low(s.offset + i, d) == Low(id, d) then x else s.seg[i]))
  }

  /** The inner loop: `left` slots of the directory were still to come. */
  method UpdateSegment(s: Segment, d: nat, id: nat, x: nat, left: nat) returns (s': Segment, left': nat)
    requires |s.seg| <= left
    ensures s' == RedirSegment(s, d, id, x) && left' == left - |s.seg|
  {
    hide Low;
    var seg, i := s.seg, 0;
    left' := left;
    while i < |s.seg|
      invariant 0 <= i <= |s.seg| == |seg|
      invariant left' == left - i
      invariant forall k | 0 <= k < i :: seg[k] == RedirSegment(s, d, id, x).seg[k]
      invariant forall k | i <= k < |seg| :: seg[k] == s.seg[k]
    {
      if Low(s.offset + i, d) == Low(id, d) { seg := seg[i := x]; }
      i := i + 1;
      left' := left' - 1;
      if left' == 0 { break; }
    }
    s' := s.(seg := seg);
    assert s'.seg == RedirSegment(s, d, id, x).seg;
  }

  /** Every slot whose number agrees with id in its low d bits refers to x afterwards. */
  method UpdateDir(segs: seq<Segment>, alen: nat, depth: nat, d: nat, id: nat, x: nat) returns (segs': seq<Segment>)
    requires Contig(segs, alen) && |Dir(segs)| == Pow2(depth) && forall j | 0 <= j < |segs| :: segs[j].seg != []
    ensures Contig(segs', alen) && Dir(segs') == Redirected(Dir(segs), d, id, x)
    ensures forall j | 0 <= j < |segs'| :: segs'[j].seg != []
  {
    hide RedirSegment, Redirected;
    segs' := [];
    var len := Pow2(depth);
    var j := 0;
    while j < |segs|
      invariant 0 <= j <= |segs| && |segs'| == j
      invariant len == |Dir(segs)| - |Dir(segs[..j])|
      invariant forall k | 0 <= k < j :: segs'[k] == RedirSegment(segs[k], d, id, x)
    {
      DirSlice(segs, alen, j);
      DirSnoc(segs, j);
      var s;
      s, len := UpdateSegment(segs[j], d, id, x, len);
      segs' := segs' + [s];
      j := j + 1;
    }
    RedirDir(segs, segs', alen, d, id, x);
  }

  lemma {:induction false} SameLengths(segs: seq<Segment>, segs': seq<Segment>)
    requires |segs'| == |segs| && forall k | 0 <= k < |segs| :: |segs'[k].seg| == |segs[k].seg|
    ensures |Dir(segs')| == |Dir(segs)|
  {
    if segs != [] { SameLengths(segs[..|segs| - 1], segs'[..|segs| - 1]); }
  }

  lemma {:induction false} RedirParts(segs: seq<Segment>, segs': seq<Segment>, alen: nat, d: nat, id: nat, x: nat)
    requires Contig(segs, alen) && |segs'| == |segs|
    requires forall k | 0 <= k < |segs| :: segs'[k] == RedirSegment(segs[k], d, id, x)
    ensures Dir(segs') == Redirected(Dir(segs), d, id, x)
  {
    if segs != [] {
      var n := |segs| - 1;
      ContigPrefix(segs, alen, n);
      RedirParts(segs[..n], segs'[..n], alen, d, id, x);
      RedirAppend(Dir(segs[..n]), segs[n], d, id, x);
    }
  }

  lemma RedirAppend(dir: seq<nat>, s: Segment, d: nat, id: nat, x: nat)
    requires s.offset == |dir|
    ensures Redirected(dir + s.seg, d, id, x) == Redirected(dir, d, id, x) + RedirSegment(s, d, id, x).seg
  {
    hide Low;
  }

  lemma RedirDir(segs: seq<Segment>, segs': seq<Segment>, alen: nat, d: nat, id: nat, x: nat)
    requires Contig(segs, alen) && |segs'| == |segs|
    requires forall k | 0 <= k < |segs| :: segs'[k] == RedirSegment(segs[k], d, id, x)
    ensures Contig(segs', alen) && Dir(segs') == Redirected(Dir(segs), d, id, x)
  {
    hide RedirSegment, Redirected, Dir;
    RedirParts(segs, segs', alen, d, id, x);
    forall j | 0 <= j < |segs| ensures |Dir(segs'[..j])| == |Dir(segs[..j])| { SameLengths(segs[..j], segs'[..j]); }
  }
}
