/** An ITB as a directory: which allocated ITE bears which name, and the map
    from names to metadata that by-name requests are meant to maintain. */
module ItbNames {
  import opened Common
  import opened ItbTable
  import opened ItbInvariant
  import opened ItbMatch

  /** `nm` names, for every name present, the ITE that bears it.  H is the name hash. */
  ghost predicate Named(t: Tab, w: Shape, nm: map<string, nat>, H: string -> nat) {
    Inv(t, w) && Files(t, w, nm, H)
  }

  /** The part of Named that says nothing of the header. */
  ghost predicate Files(t: Tab, w: Shape, nm: map<string, nat>, H: string -> nat) {
    && Shaped(t, w)
    && (forall x | x in nm :: BornBy(t, nm, x))
    && (forall e | 0 <= e < Cap(t) && t.bits[e] :: Placed(t, w, nm, H, e))
  }

  ghost predicate BornBy(t: Tab, nm: map<string, nat>, x: string)
    requires |t.ite| == |t.bits| && x in nm
  {
    nm[x] < Cap(t) && t.bits[nm[x]] && t.ite[nm[x]].state != Unlinked && t.ite[nm[x]].name == x
  }

  ghost predicate Placed(t: Tab, w: Shape, nm: map<string, nat>, H: string -> nat, e: nat)
    requires Shaped(t, w) && e < Cap(t) && t.bits[e]
  {
    && GoodName(t.ite[e].name)
    && (t.ite[e].state != Unlinked ==> t.ite[e].name in nm && nm[t.ite[e].name] == e)
    && HeadOf(t, w, e) == H(t.ite[e].name) % Cap(t)
    && t.ite[e].hash == StoredHash(H(t.ite[e].name), t.ite[e].meta)
  }

  /** What lookups and requests can tell of a file. */
  datatype File = File(uuid: nat, meta: Meta, state: IteState)

  function FileOf(e: Ite): File { File(e.uuid, e.meta, e.state) }

  /** A dead ITE: its file is gone, but its name and metadata are still there. */
  datatype Tomb = Tomb(x: string, f: File)

  /** The hash word of an ITE whose name hashes to h: plain creates clear it. */
  function StoredHash(h: nat, m: Meta): nat { if m.LinkSource? then h else 0 }

  /** The directory an ITB stands for. */
  ghost function Meaning(t: Tab, nm: map<string, nat>): map<string, File>
    requires forall x | x in nm :: nm[x] < |t.ite|
  {
    map x | x in nm :: FileOf(t.ite[nm[x]])
  }

  /** ITEs whose file is gone but that async unlink has not reclaimed yet. */
  ghost function Dead(t: Tab): set<nat> {
    set e: nat | e < |t.bits| && t.bits[e] && e < |t.ite| && t.ite[e].state == Unlinked
  }

  /** What the dead ITEs hold. */
  ghost function Tombs(t: Tab): (m: map<nat, Tomb>)
    ensures m.Keys == Dead(t)
  {
    map e | e in Dead(t) :: Tomb(t.ite[e].name, FileOf(t.ite[e]))
  }

  /** What Named says of one name that is present, and of the table as a whole. */
  lemma Bearer(t: Tab, w: Shape, nm: map<string, nat>, H: string -> nat, x: string)
    requires Named(t, w, nm, H)
    ensures Inv(t, w) && Sized(t) && |w.ch| == Cap(t) && forall y | y in nm :: nm[y] < |t.ite|
    ensures Meaning(t, nm).Keys == nm.Keys
    ensures x in nm ==> t.bits[nm[x]] && t.ite[nm[x]].name == x && t.ite[nm[x]].state != Unlinked && Meaning(t, nm)[x] == FileOf(t.ite[nm[x]])
  {
    assert forall y | y in nm :: BornBy(t, nm, y);
    assert Meaning(t, nm).Keys == nm.Keys;
  }

  // -------------------------------------------------------------- lookup

  /** A file in this state passes the filters. */
  predicate Passes(f: Flags, st: IteState) { (f.shadow ==> st == Shadow) && (f.active ==> st == Active) }

  /** The filters let dead ITEs pass: SHADOW is asked for, and not also ACTIVE. */
  predicate Raises(f: Flags) { f.shadow && !f.active }

  lemma MatchesByName(e: Ite, x: string, f: Flags)
    requires GoodName(e.name) && GoodName(x)
    ensures Match(e, Sought(x, f)) <==> e.name == x && if e.state == Unlinked then Raises(f) else Passes(f, e.state)
  {
    NameHitIsEquality(e.name, x);
  }

  /** A by-name search hits the file of the name, if that passes the filters, or a
      dead ITE of the name, if these may pass; and misses only if there is neither. */
  lemma FilesSearch(t: Tab, w: Shape, nm: map<string, nat>, H: string -> nat, x: string, f: Flags)
    requires Files(t, w, nm, H) && GoodName(x)
    ensures match Lookup(t, H(x), Sought(x, f))
            case Some(s) =>
              && s < |t.index| && t.index[s].entry < |t.ite| && t.index[s].entry < Cap(t) && t.bits[t.index[s].entry]
              && s in w.ch[H(x) % Cap(t)] && t.ite[t.index[s].entry].name == x
              && (if t.ite[t.index[s].entry].state == Unlinked then Raises(f)
                  else x in nm && t.index[s].entry == nm[x] && Passes(f, t.ite[t.index[s].entry].state))
            case None =>
              && (x in nm ==> nm[x] < |t.ite| && !Passes(f, t.ite[nm[x]].state))
              && (Raises(f) ==> forall e | e in Tombs(t) :: Tombs(t)[e].x != x)
  {
    LookupFinds(t, w, H(x), Sought(x, f));
    hide ChainOk, SlotAt, EntryAt, Lookup, Match, GoodName;
    match Lookup(t, H(x), Sought(x, f))
    case Some(s) =>
      var e := t.index[s].entry;
      assert Placed(t, w, nm, H, e);
      MatchesByName(t.ite[e], x, f);
    case None =>
      forall e | 0 <= e < Cap(t) && t.bits[e] && t.ite[e].name == x ensures !Match(t.ite[e], Sought(x, f)) {
        assert Placed(t, w, nm, H, e);
      }
      if x in nm {
        assert BornBy(t, nm, x);
        MatchesByName(t.ite[nm[x]], x, f);
      }
      forall e | e in Tombs(t) && Raises(f) ensures Tombs(t)[e].x != x {
        if t.ite[e].name == x { MatchesByName(t.ite[e], x, f); }
      }
  }

  lemma NamedSearch(t: Tab, w: Shape, nm: map<string, nat>, H: string -> nat, x: string, f: Flags)
    requires Named(t, w, nm, H) && GoodName(x)
    ensures match Lookup(t, H(x), Sought(x, f))
            case Some(s) =>
              && s < |t.index| && t.index[s].entry < |t.ite| && t.index[s].entry < Cap(t) && t.bits[t.index[s].entry]
              && s in w.ch[H(x) % Cap(t)] && t.ite[t.index[s].entry].name == x
              && (if t.ite[t.index[s].entry].state == Unlinked then Raises(f)
                  else x in nm && t.index[s].entry == nm[x] && Passes(f, t.ite[t.index[s].entry].state))
            case None =>
              && (x in nm ==> nm[x] < |t.ite| && !Passes(f, t.ite[nm[x]].state))
              && (Raises(f) ==> forall e | e in Tombs(t) :: Tombs(t)[e].x != x)
  {
    FilesSearch(t, w, nm, H, x, f);
  }

  /** By-name search decides membership and finds the one ITE that bears the name. */
  lemma FilesLookup(t: Tab, w: Shape, nm: map<string, nat>, H: string -> nat, x: string)
    requires Files(t, w, nm, H) && GoodName(x)
    ensures match Lookup(t, H(x), ByName(x))
            case Some(s) => s < |t.index| && x in nm && t.index[s].entry == nm[x] && s in w.ch[H(x) % Cap(t)]
            case None => x !in nm
  {
    FilesSearch(t, w, nm, H, x, NOFLAGS);
  }

  lemma LookupByName(t: Tab, w: Shape, nm: map<string, nat>, H: string -> nat, x: string)
    requires Named(t, w, nm, H) && GoodName(x)
    ensures match Lookup(t, H(x), ByName(x))
            case Some(s) => s < |t.index| && x in nm && t.index[s].entry == nm[x] && s in w.ch[H(x) % Cap(t)]
            case None => x !in nm
  {
    FilesLookup(t, w, nm, H, x);
  }

  // ------------------------------------------------------------ counting

  lemma {:induction false} ValuesCount(nm: map<string, nat>)
    requires forall x, y | x in nm && y in nm && x != y :: nm[x] != nm[y]
    ensures |nm.Values| == |nm|
  {
    if nm != map[] {
      var x :| x in nm;
      var rest := nm - {x};
      ValuesCount(rest);
      assert nm.Values == rest.Values + {nm[x]};
      assert |rest| == |nm| - 1;
    }
  }

  lemma NamedSizes(t: Tab, w: Shape, nm: map<string, nat>, H: string -> nat)
    requires Named(t, w, nm, H)
    ensures Inv(t, w) && Shaped(t, w) && |t.ite| == |t.bits| && |Live(t)| == t.h.entries
  {
  }

  /** The ITEs that bear names are the allocated ones that are not dead, one each. */
  lemma NamesAreAlive(t: Tab, w: Shape, nm: map<string, nat>, H: string -> nat)
    requires Named(t, w, nm, H)
    ensures nm.Values == Live(t) - Dead(t)
    ensures forall x, y | x in nm && y in nm && x != y :: nm[x] != nm[y]
  {
    NamedSizes(t, w, nm, H);
    hide Inv, HeadOf, GoodName, Shaped;
    forall x, y | x in nm && y in nm && x != y ensures nm[x] != nm[y] {
      assert BornBy(t, nm, x) && BornBy(t, nm, y);
    }
    forall e | e in nm.Values ensures e in Live(t) - Dead(t) {
      var x :| x in nm && nm[x] == e;
      assert BornBy(t, nm, x);
    }
    forall e | e in Live(t) - Dead(t) ensures e in nm.Values {
      assert Placed(t, w, nm, H, e);
    }
  }

  /** Names and dead ITEs together fill exactly the allocated ITEs. */
  lemma NamesAndDead(t: Tab, w: Shape, nm: map<string, nat>, H: string -> nat)
    requires Named(t, w, nm, H)
    ensures Inv(t, w) && forall x | x in nm :: nm[x] < |t.ite|
    ensures |nm| + |Dead(t)| == |Live(t)| == t.h.entries
    ensures Meaning(t, nm).Keys == nm.Keys && |Meaning(t, nm)| == |nm|
  {
    NamedSizes(t, w, nm, H);
    hide HeadOf, GoodName, Shaped, Placed, Inv;
    assert forall x | x in nm :: BornBy(t, nm, x);
    assert Meaning(t, nm).Keys == nm.Keys;
    NamesAreAlive(t, w, nm, H);
    ValuesCount(nm);
    assert Dead(t) <= Live(t);
  }

  // --------------------------------------------------- how names change

  /** The invariant speaks of ITE contents only through their number. */
  lemma InvOfParts(t: Tab, w: Shape, t': Tab)
    requires Inv(t, w) && t' == t.(ite := t'.ite) && |t'.ite| == |t.ite|
    ensures Inv(t', w)
  {
    ShapeOfParts(t, w, t');
    assert Live(t') == Live(t) && Upper(t') == Upper(t);
  }

  /** Adding an ITE under the head of its name names it. */
  lemma FilesAfterAdd(t: Tab, w: Shape, nm: map<string, nat>, H: string -> nat,
                      t': Tab, w': Shape, nr: nat, e: Ite)
    requires Files(t, w, nm, H) && Shaped(t', w')
    requires GoodName(e.name) && e.name !in nm && e.state != Unlinked && e.hash == StoredHash(H(e.name), e.meta)
    requires Grown(t, w, t', w', H(e.name) % Cap(t), nr, e)
    ensures Files(t', w', nm[e.name := nr], H)
    ensures Meaning(t', nm[e.name := nr]) == Meaning(t, nm)[e.name := FileOf(e)]
    ensures Tombs(t') == Tombs(t)
  {
    hide ChainOk, SlotAt, EntryAt;
    var nm' := nm[e.name := nr];
    forall x | x in nm' ensures BornBy(t', nm', x) {
      if x != e.name { assert BornBy(t, nm, x); }
    }
    forall i | 0 <= i < Cap(t') && t'.bits[i]
      ensures Placed(t', w', nm', H, i)
    {
      if i != nr { assert Placed(t, w, nm, H, i); }
    }
  }

  lemma NamedAfterAdd(t: Tab, w: Shape, nm: map<string, nat>, H: string -> nat,
                      t': Tab, w': Shape, nr: nat, e: Ite)
    requires Named(t, w, nm, H) && Inv(t', w')
    requires GoodName(e.name) && e.name !in nm && e.state != Unlinked && e.hash == StoredHash(H(e.name), e.meta)
    requires Grown(t, w, t', w', H(e.name) % Cap(t), nr, e)
    ensures Named(t', w', nm[e.name := nr], H)
    ensures Meaning(t', nm[e.name := nr]) == Meaning(t, nm)[e.name := FileOf(e)]
    ensures Tombs(t') == Tombs(t)
  {
    FilesAfterAdd(t, w, nm, H, t', w', nr, e);
  }

  /** Releasing the bearer of a name removes the name. */
  lemma FilesAfterDelete(t: Tab, w: Shape, nm: map<string, nat>, H: string -> nat,
                         t': Tab, w': Shape, x: string)
    requires Files(t, w, nm, H) && Shaped(t', w') && x in nm
    requires Released(t, w, t', w', {nm[x]})
    ensures Files(t', w', nm - {x}, H)
    ensures Meaning(t', nm - {x}) == Meaning(t, nm) - {x}
    ensures Tombs(t') == Tombs(t)
  {
    hide ChainOk, SlotAt, EntryAt;
    var nm' := nm - {x};
    assert BornBy(t, nm, x);
    forall y | y in nm' ensures BornBy(t', nm', y) {
      assert BornBy(t, nm, y);
    }
    forall i | 0 <= i < Cap(t') && t'.bits[i]
      ensures Placed(t', w', nm', H, i)
    {
      assert Placed(t, w, nm, H, i);
    }
  }

  lemma NamedAfterDelete(t: Tab, w: Shape, nm: map<string, nat>, H: string -> nat,
                         t': Tab, w': Shape, x: string)
    requires Named(t, w, nm, H) && Inv(t', w') && x in nm
    requires Released(t, w, t', w', {nm[x]})
    ensures Named(t', w', nm - {x}, H)
    ensures Meaning(t', nm - {x}) == Meaning(t, nm) - {x}
    ensures Tombs(t') == Tombs(t)
  {
    FilesAfterDelete(t, w, nm, H, t', w', x);
  }

  /** Changing a bearer in place changes the file of its name. */
  lemma FilesAfterUpdate(t: Tab, w: Shape, nm: map<string, nat>, H: string -> nat, t': Tab, x: string, e: Ite)
    requires Files(t, w, nm, H) && x in nm && nm[x] < |t.ite|
    requires e.name == x && e.state != Unlinked && t' == t.(ite := t.ite[nm[x] := e])
    requires e.hash == t.ite[nm[x]].hash && e.meta.LinkSource? == t.ite[nm[x]].meta.LinkSource?
    ensures Files(t', w, nm, H)
    ensures Meaning(t', nm) == Meaning(t, nm)[x := FileOf(e)]
    ensures Tombs(t') == Tombs(t)
  {
    hide ChainOk, SlotAt, EntryAt;
    ShapeOfParts(t, w, t');
    assert BornBy(t, nm, x);
    forall y | y in nm ensures BornBy(t', nm, y) {
      assert BornBy(t, nm, y);
    }
    forall i | 0 <= i < Cap(t') && t'.bits[i]
      ensures Placed(t', w, nm, H, i)
    {
      assert Placed(t, w, nm, H, i);
    }
    assert forall y | y in nm && y != x :: BornBy(t, nm, y);
  }

  lemma NamedAfterUpdate(t: Tab, w: Shape, nm: map<string, nat>, H: string -> nat, t': Tab, x: string, e: Ite)
    requires Named(t, w, nm, H) && x in nm && nm[x] < |t.ite|
    requires e.name == x && e.state != Unlinked && t' == t.(ite := t.ite[nm[x] := e])
    requires e.hash == t.ite[nm[x]].hash && e.meta.LinkSource? == t.ite[nm[x]].meta.LinkSource?
    ensures Named(t', w, nm, H)
    ensures Meaning(t', nm) == Meaning(t, nm)[x := FileOf(e)]
    ensures Tombs(t') == Tombs(t)
  {
    InvOfParts(t, w, t');
    FilesAfterUpdate(t, w, nm, H, t', x, e);
  }

  /** Marking a bearer UNLINKED removes its name and leaves a dead ITE. */
  lemma FilesAfterKill(t: Tab, w: Shape, nm: map<string, nat>, H: string -> nat, t': Tab, x: string, e: Ite)
    requires Files(t, w, nm, H) && x in nm && nm[x] < |t.ite|
    requires e.state == Unlinked && e.name == x && t' == t.(ite := t.ite[nm[x] := e])
    requires e.hash == t.ite[nm[x]].hash && e.meta.LinkSource? == t.ite[nm[x]].meta.LinkSource?
    ensures Files(t', w, nm - {x}, H)
    ensures Meaning(t', nm - {x}) == Meaning(t, nm) - {x}
    ensures nm[x] !in Tombs(t) && Tombs(t') == Tombs(t)[nm[x] := Tomb(x, FileOf(e))]
  {
    hide ChainOk, SlotAt, EntryAt;
    ShapeOfParts(t, w, t');
    assert BornBy(t, nm, x);
    forall y | y in nm - {x} ensures BornBy(t', nm - {x}, y) {
      assert BornBy(t, nm, y);
    }
    forall i | 0 <= i < Cap(t') && t'.bits[i]
      ensures Placed(t', w, nm - {x}, H, i)
    {
      assert Placed(t, w, nm, H, i);
    }
    KillBuries(t, w, nm, H, t', x, e);
  }

  lemma NamedAfterKill(t: Tab, w: Shape, nm: map<string, nat>, H: string -> nat, t': Tab, x: string, e: Ite)
    requires Named(t, w, nm, H) && x in nm && nm[x] < |t.ite|
    requires e.state == Unlinked && e.name == x && t' == t.(ite := t.ite[nm[x] := e])
    requires e.hash == t.ite[nm[x]].hash && e.meta.LinkSource? == t.ite[nm[x]].meta.LinkSource?
    ensures Named(t', w, nm - {x}, H)
    ensures Meaning(t', nm - {x}) == Meaning(t, nm) - {x}
    ensures nm[x] !in Tombs(t) && Tombs(t') == Tombs(t)[nm[x] := Tomb(x, FileOf(e))]
  {
    InvOfParts(t, w, t');
    FilesAfterKill(t, w, nm, H, t', x, e);
  }

  /** There is one new dead ITE, of that name. */
  lemma KillBuries(t: Tab, w: Shape, nm: map<string, nat>, H: string -> nat, t': Tab, x: string, e: Ite)
    requires Files(t, w, nm, H) && x in nm && nm[x] < |t.ite|
    requires e.state == Unlinked && e.name == x && t' == t.(ite := t.ite[nm[x] := e])
    requires e.hash == t.ite[nm[x]].hash && e.meta.LinkSource? == t.ite[nm[x]].meta.LinkSource?
    ensures Shaped(t', w) && nm[x] !in Tombs(t) && Tombs(t') == Tombs(t)[nm[x] := Tomb(x, FileOf(e))]
  {
    hide ChainOk, SlotAt, EntryAt;
    ShapeOfParts(t, w, t');
    assert BornBy(t, nm, x);
    assert Placed(t, w, nm, H, nm[x]);
    assert Dead(t') == Dead(t) + {nm[x]};
  }

  /** The head under which a name, or a dead ITE of that name, is found. */
  function Head(cap: nat, H: string -> nat, x: string): nat
    requires cap > 0
  {
    H(x) % cap
  }

  /** The tombstones whose heads are n or more. */
  ghost function Above(cap: nat, H: string -> nat, dead: map<nat, Tomb>, n: nat): map<nat, Tomb>
    requires cap > 0
  {
    map e | e in dead && Head(cap, H, dead[e].x) >= n :: dead[e]
  }

  /** Async unlink changes no name and no answer to a by-name lookup. */
  lemma NamedAfterSweep(t: Tab, w: Shape, nm: map<string, nat>, H: string -> nat, t': Tab, w': Shape, n: nat)
    requires Named(t, w, nm, H) && Swept(t, w, n, t', w')
    ensures Named(t', w', nm, H)
    ensures Meaning(t', nm) == Meaning(t, nm)
    ensures Tombs(t') == Above(Cap(t), H, Tombs(t), n)
    ensures n >= Cap(t) ==> Tombs(t') == map[]
  {
    SweepReaps(t, w, nm, H, t', w', n);
    hide ChainOk, SlotAt, EntryAt, Counted, Bounded, Tombs;
    forall y | y in nm ensures BornBy(t', nm, y) {
      assert BornBy(t, nm, y);
    }
    forall i | 0 <= i < Cap(t') && t'.bits[i]
      ensures Placed(t', w', nm, H, i)
    {
      assert Placed(t, w, nm, H, i);
    }
  }

  /** A sweep reaps exactly the dead ITEs under the heads it has scanned. */
  lemma SweepReaps(t: Tab, w: Shape, nm: map<string, nat>, H: string -> nat, t': Tab, w': Shape, n: nat)
    requires Files(t, w, nm, H) && Swept(t, w, n, t', w')
    ensures Tombs(t') == Above(Cap(t), H, Tombs(t), n)
    ensures n >= Cap(t) ==> Tombs(t') == map[]
  {
    hide ChainOk, Counted, Bounded, SlotAt, EntryAt, HeadOf;
    forall e | 0 <= e < Cap(t) && t.bits[e] ensures HeadOf(t, w, e) == Head(Cap(t), H, t.ite[e].name) {
      assert Placed(t, w, nm, H, e);
    }
  }

  /** Whether a name is found, and with which metadata, is the same before and after async unlink. */
  lemma SweepChangesNoAnswer(t: Tab, w: Shape, nm: map<string, nat>, H: string -> nat, t': Tab, w': Shape, n: nat, x: string)
    requires Named(t, w, nm, H) && Swept(t, w, n, t', w') && GoodName(x)
    ensures Answer(t', H(x), ByName(x)) == Answer(t, H(x), ByName(x))
  {
    NamedAfterSweep(t, w, nm, H, t', w', n);
    LookupByName(t, w, nm, H, x);
    LookupByName(t', w', nm, H, x);
    Bearer(t, w, nm, H, x);
    hide ChainOk, SlotAt, EntryAt, Counted, Bounded, Lookup;
  }

  // ------------------------------------------------ the directory machine

  /** Requests by name, a lookup by uuid, and async unlink.  `uuid` is the next
      value of the uuid counter; `active` is the filter INDEX_ITE_ACTIVE; `dc` is
      what async unlink has done before, of its budget `max`. */
  datatype Op =
    | Find(x: string, f: Flags)
    | FindUuid(id: nat, h: nat, f: Flags)
    | Create(x: string, uuid: nat)
    | CreateLink(x: string, uuid: nat, src: nat)
    | LinkAdd(x: string, active: bool)
    | Remove(x: string, active: bool)
    | Reap(dc: nat, max: nat)

  datatype Reply = Done | Found(meta: Meta) | NoEntry | Exists | NoAccess | Full | Reaped

  /** A directory: the names with their files, and the dead ITEs, which still take
      up room and can still be found. */
  datatype Directory = Directory(names: map<string, File>, dead: map<nat, Tomb>)

  /** nlink is a u16. */
  const LINKS := 65536

  predicate ProperOp(op: Op) {
    match op
    case Reap(_, _) => true
    case FindUuid(_, _, _) => true
    case _ => GoodName(op.x)
  }

  /** The directory has a file, or for a search for SHADOW a dead ITE, of name x
      that passes the filters, with metadata m. */
  ghost predicate Shows(d: Directory, x: string, f: Flags, m: Meta) {
    || (x in d.names && Passes(f, d.names[x].state) && d.names[x].meta == m)
    || (Raises(f) && exists e: nat :: e in d.dead && d.dead[e].x == x && d.dead[e].f.meta == m)
  }

  /** A search for uuid `id` and hash h meets file f of name x: it looks along the
      chain of h and compares with the stored hash. */
  predicate Bears(cap: nat, H: string -> nat, x: string, f: File, id: nat, h: nat)
    requires cap > 0
  {
    f.uuid == id && StoredHash(H(x), f.meta) == h && Head(cap, H, x) == h % cap
  }

  ghost predicate Meets(cap: nat, H: string -> nat, d: Directory, id: nat, h: nat, f: Flags, m: Meta)
    requires cap > 0
  {
    || (exists x :: x in d.names && Bears(cap, H, x, d.names[x], id, h) && Passes(f, d.names[x].state) && d.names[x].meta == m)
    || (Raises(f) && exists e: nat :: e in d.dead && Bears(cap, H, d.dead[e].x, d.dead[e].f, id, h) && d.dead[e].f.meta == m)
  }

  /** The filters of a request that is not a search by uuid: a create has none. */
  function FlagsOf(op: Op): Flags {
    match op
    case Find(_, f) => f
    case LinkAdd(_, active) => Flags(false, active)
    case Remove(_, active) => Flags(false, active)
    case _ => NOFLAGS
  }

  /** An unlink or link request finds x. */
  predicate Hits(d: Directory, x: string, active: bool) { x in d.names && (active ==> d.names[x].state == Active) }

  /** The directory d may answer op with r and become d'. */
  ghost predicate Serves(cap: nat, H: string -> nat, d: Directory, op: Op, r: Reply, d': Directory)
    requires cap > 0
  {
    match op
    case Find(x, f) =>
      d' == d && (match r
                  case Found(m) => Shows(d, x, f, m)
                  case NoEntry => forall m :: !Shows(d, x, f, m)
                  case _ => false)
    case FindUuid(id, h, f) =>
      d' == d && (match r
                  case Found(m) => Meets(cap, H, d, id, h, f, m)
                  case NoEntry => forall m :: !Meets(cap, H, d, id, h, f, m)
                  case _ => false)
    case Create(x, uuid) => ServesCreate(cap, d, x, File(uuid, Mdu(1), Active), r, d')
    case CreateLink(x, uuid, src) => ServesCreate(cap, d, x, File(uuid, LinkSource(src), Active), r, d')
    case LinkAdd(x, active) =>
      if !Hits(d, x, active) then r == NoEntry && d' == d
      else if d.names[x].meta.LinkSource? then r == NoAccess && d' == d
      else r == Done && d' == Relinked(d, x, (d.names[x].meta.nlink + 1) % LINKS, d.names[x].state)
    case Remove(x, active) =>
      if !Hits(d, x, active) then r == NoEntry && d' == d
      else if d.names[x].meta.LinkSource? then r == Done && d' == d.(names := d.names - {x})
      else
        var n := (d.names[x].meta.nlink + LINKS - 1) % LINKS;
        && r == Done
        && if n == 0 then d'.names == d.names - {x} && Buried(d.dead, Tomb(x, File(d.names[x].uuid, Mdu(0), Unlinked)), d'.dead)
           else d' == Relinked(d, x, n, Shadow)
    case Reap(dc, max) => r == Reaped && d'.names == d.names && ReapedTo(cap, H, d, dc, max, d'.dead)
  }

  function Relinked(d: Directory, x: string, n: nat, st: IteState): Directory
    requires x in d.names
  {
    d.(names := d.names[x := File(d.names[x].uuid, Mdu(n), st)])
  }

  /** There is one more dead ITE. */
  ghost predicate Buried(dead: map<nat, Tomb>, b: Tomb, dead': map<nat, Tomb>) {
    exists e: nat :: e !in dead && dead' == dead[e := b]
  }

  /** Some name or dead ITE is found under head h. */
  ghost predicate Occupied(cap: nat, H: string -> nat, d: Directory, h: nat)
    requires cap > 0
  {
    (exists x :: x in d.names && Head(cap, H, x) == h) || (exists e: nat :: e in d.dead && Head(cap, H, d.dead[e].x) == h)
  }

  /** Some heads from 0 on were swept, and exactly their dead ITEs are gone.  The
      sweep has stopped before the end only if its budget was used up, of which a
      dead ITE takes one unit or two; and it went past an occupied head only if
      the dead ITEs up to there had not used it up. */
  ghost predicate ReapedTo(cap: nat, H: string -> nat, d: Directory, dc: nat, max: nat, dead': map<nat, Tomb>)
    requires cap > 0
  {
    exists n: nat :: n <= cap && dead' == Above(cap, H, d.dead, n)
      && (n == cap || max <= dc + 2 * (|d.dead| - |dead'|))
      && forall h: nat | h + 1 < n :: MayPass(cap, H, d, dc, max, h)
  }

  /** If head h is occupied, the dead ITEs up to there do not use up the budget. */
  ghost predicate MayPass(cap: nat, H: string -> nat, d: Directory, dc: nat, max: nat, h: nat)
    requires cap > 0
  {
    Occupied(cap, H, d, h) ==> dc + (|d.dead| - |Above(cap, H, d.dead, h + 1)|) < max
  }

  ghost predicate ServesCreate(cap: nat, d: Directory, x: string, f: File, r: Reply, d': Directory) {
    if x in d.names then r == Exists && d' == d
    else if |d.names| + |d.dead| >= cap then r == Full && d' == d
    else r == Done && d' == d.(names := d.names[x := f])
  }

  // --------------------------------------- a sweep is what the machine calls reaping

  /** The dead ITEs below head n are those that a sweep up to n reaps. */
  lemma AboveKeys(t: Tab, w: Shape, nm: map<string, nat>, H: string -> nat, n: nat)
    requires Files(t, w, nm, H)
    ensures Above(Cap(t), H, Tombs(t), n).Keys == Dead(t) - DeadBelow(t, w, n) && DeadBelow(t, w, n) <= Dead(t)
  {
    hide ChainOk, SlotAt, EntryAt, HeadOf, StoredHash, GoodName;
    forall e | 0 <= e < Cap(t) && t.bits[e] ensures HeadOf(t, w, e) == Head(Cap(t), H, t.ite[e].name) {
      assert Placed(t, w, nm, H, e);
    }
  }

  lemma AboveCounts(t: Tab, w: Shape, nm: map<string, nat>, H: string -> nat, n: nat)
    requires Files(t, w, nm, H)
    ensures |Tombs(t)| - |Above(Cap(t), H, Tombs(t), n)| == |DeadBelow(t, w, n)|
  {
    assert Shaped(t, w);
    AboveKeys(t, w, nm, H, n);
    hide Files, Shaped, Dead, DeadBelow, Above, Tombs;
    var m := Above(Cap(t), H, Tombs(t), n);
    assert |m| == |m.Keys| && |Tombs(t)| == |Tombs(t).Keys|;
  }

  /** A head under which something is found is in use. */
  lemma OccupiedIsUsed(t: Tab, w: Shape, nm: map<string, nat>, H: string -> nat, d: Directory, h: nat)
    requires Files(t, w, nm, H) && (forall x | x in nm :: nm[x] < |t.ite|) && d == Directory(Meaning(t, nm), Tombs(t))
    requires Occupied(Cap(t), H, d, h)
    ensures h < Cap(t) && Used(t, h)
  {
    hide ChainOk, SlotAt, EntryAt, HeadOf;
    if x :| x in d.names && Head(Cap(t), H, x) == h {
      assert BornBy(t, nm, x);
      assert Placed(t, w, nm, H, nm[x]);
      HeadIsUsed(t, w, nm[x]);
    } else {
      var e: nat :| e in d.dead && Head(Cap(t), H, d.dead[e].x) == h;
      assert Placed(t, w, nm, H, e);
      HeadIsUsed(t, w, e);
    }
  }

  lemma PassesIfUsed(t: Tab, w: Shape, nm: map<string, nat>, H: string -> nat, dc: nat, max: nat, h: nat)
    requires Named(t, w, nm, H) && (forall x | x in nm :: nm[x] < |t.ite|) && h < Cap(t)
    requires Used(t, h) ==> dc + Tally(t, w, h + 1) < max
    ensures MayPass(Cap(t), H, Directory(Meaning(t, nm), Tombs(t)), dc, max, h)
  {
    assert Files(t, w, nm, H) && Shaped(t, w);
    hide Named, Shaped, Files, DeadBelow, Recounted, Meaning, Above, Occupied;
    var d := Directory(Meaning(t, nm), Tombs(t));
    if Occupied(Cap(t), H, d, h) {
      OccupiedIsUsed(t, w, nm, H, d, h);
      AboveCounts(t, w, nm, H, h + 1);
    }
  }

  lemma SweepIsReap(t: Tab, w: Shape, nm: map<string, nat>, H: string -> nat, dc: nat, max: nat, n: nat)
    requires Named(t, w, nm, H) && (forall x | x in nm :: nm[x] < |t.ite|) && n <= Cap(t)
    requires n < Cap(t) ==> dc + Tally(t, w, n) >= max
    requires forall h: nat | h + 1 < n && Used(t, h) :: dc + Tally(t, w, h + 1) < max
    ensures ReapedTo(Cap(t), H, Directory(Meaning(t, nm), Tombs(t)), dc, max, Above(Cap(t), H, Tombs(t), n))
  {
    assert Files(t, w, nm, H) && Shaped(t, w);
    hide Named, Shaped, Files, DeadBelow, Recounted, Meaning, Above, MayPass;
    AboveCounts(t, w, nm, H, n);
    TallyAtMost(t, w, n);
    forall h: nat | h + 1 < n ensures MayPass(Cap(t), H, Directory(Meaning(t, nm), Tombs(t)), dc, max, h) {
      PassesIfUsed(t, w, nm, H, dc, max, h);
    }
  }

  /** The directory machine, started empty, may answer `ops` with `rs`. */
  ghost predicate Answers(cap: nat, H: string -> nat, ops: seq<Op>, rs: seq<Reply>)
    requires cap > 0
  {
    exists ds: seq<Directory> :: Explains(cap, H, ds, ops, rs)
  }

  /** A run of the directory machine through the directories ds. */
  ghost predicate Explains(cap: nat, H: string -> nat, ds: seq<Directory>, ops: seq<Op>, rs: seq<Reply>)
    requires cap > 0
  {
    && |rs| == |ops| && |ds| == |ops| + 1
    && ds[0] == Directory(map[], map[])
    && forall i | 0 <= i < |ops| :: Serves(cap, H, ds[i], ops[i], rs[i], ds[i + 1])
  }

  /** The ITE that itb_add_ite and ite_create build for a plain create: creating
      the MDU clears the hash word of the ITE. */
  function PlainIte(hash: nat, uuid: nat, x: string): Ite {
    var e := Ite(hash, uuid, Active, Mdu(1), x);
    e.(hash := 0)
  }

  function LinkIte(hash: nat, uuid: nat, x: string, src: nat): Ite {
    Ite(hash, uuid, Active, LinkSource(src), x)
  }

  // ------------------------------------------------------- what searches find

  /** A by-name search finds what the directory shows it, and nothing else. */
  lemma LookupShows(t: Tab, w: Shape, nm: map<string, nat>, H: string -> nat, d: Directory, x: string, f: Flags)
    requires Named(t, w, nm, H) && (forall y | y in nm :: nm[y] < |t.ite|) && d == Directory(Meaning(t, nm), Tombs(t)) && GoodName(x)
    ensures match Lookup(t, H(x), Sought(x, f))
            case Some(s) => s < |t.index| && t.index[s].entry < |t.ite| && Shows(d, x, f, t.ite[t.index[s].entry].meta)
            case None => forall m :: !Shows(d, x, f, m)
  {
    NamedSearch(t, w, nm, H, x, f);
    hide Named, Lookup;
    match Lookup(t, H(x), Sought(x, f))
    case Some(s) =>
      var e := t.index[s].entry;
      if t.ite[e].state == Unlinked { assert e in d.dead && d.dead[e].x == x; }
    case None =>
  }

  /** A query by uuid. */
  function ByUuid(id: nat, h: nat, f: Flags): Query { Query(true, false, f.shadow, f.active, id, h, "") }

  /** A by-uuid search finds what the directory lets it meet, and nothing else. */
  lemma LookupByUuid(t: Tab, w: Shape, nm: map<string, nat>, H: string -> nat, d: Directory, id: nat, h: nat, f: Flags)
    requires Named(t, w, nm, H) && (forall x | x in nm :: nm[x] < |t.ite|) && d == Directory(Meaning(t, nm), Tombs(t))
    ensures match Lookup(t, h, ByUuid(id, h, f))
            case Some(s) => s < |t.index| && t.index[s].entry < |t.ite|
                            && Meets(Cap(t), H, d, id, h, f, t.ite[t.index[s].entry].meta)
            case None => forall m :: !Meets(Cap(t), H, d, id, h, f, m)
  {
    var q := ByUuid(id, h, f);
    hide ChainOk, SlotAt, EntryAt, Inv, Lookup, Match, GoodName, HeadOf;
    LookupFinds(t, w, h, q);
    match Lookup(t, h, q)
    case Some(s) =>
      var e := t.index[s].entry;
      BearsIfMatched(t, w, nm, H, id, h, f, e);
      if t.ite[e].state == Unlinked { assert e in Tombs(t); } else { assert t.ite[e].name in d.names; }
    case None =>
      forall x | x in nm ensures !(Bears(Cap(t), H, x, d.names[x], id, h) && Passes(f, d.names[x].state)) {
        assert BornBy(t, nm, x);
        BearsIfMatched(t, w, nm, H, id, h, f, nm[x]);
      }
      forall e | e in d.dead ensures !(Raises(f) && Bears(Cap(t), H, d.dead[e].x, d.dead[e].f, id, h)) {
        BearsIfMatched(t, w, nm, H, id, h, f, e);
      }
  }

  /** An allocated ITE under the head of h is matched by uuid exactly if it bears it. */
  lemma BearsIfMatched(t: Tab, w: Shape, nm: map<string, nat>, H: string -> nat, id: nat, h: nat, f: Flags, e: nat)
    requires Files(t, w, nm, H) && e < Cap(t) && t.bits[e]
    ensures var i := t.ite[e];
            (HeadOf(t, w, e) == h % Cap(t) && Match(i, ByUuid(id, h, f))) <==>
              Bears(Cap(t), H, i.name, FileOf(i), id, h) && if i.state == Unlinked then Raises(f) else Passes(f, i.state)
    ensures t.ite[e].state != Unlinked ==> t.ite[e].name in nm && nm[t.ite[e].name] == e
  {
    hide ChainOk, SlotAt, EntryAt, HeadOf, GoodName;
    assert Placed(t, w, nm, H, e);
  }

  /** The uuid that a request would give a new file. */
  function NewUuid(op: Op): Option<nat> {
    match op
    case Create(_, uuid) => Some(uuid)
    case CreateLink(_, uuid, _) => Some(uuid)
    case _ => None
  }

  /** The uuid counter never gives a value twice. */
  ghost predicate FreshUuids(ops: seq<Op>) {
    forall i, j | 0 <= i < j < |ops| && NewUuid(ops[i]).Some? :: NewUuid(ops[i]) != NewUuid(ops[j])
  }

  /** Request op, if it succeeds, makes file f under name x. */
  predicate Makes(op: Op, x: string, f: File) {
    match op
    case Create(y, uuid) => y == x && f.uuid == uuid && f.meta.Mdu?
    case CreateLink(y, uuid, src) => y == x && f.uuid == uuid && f.meta == LinkSource(src)
    case _ => false
  }

  /** Each file was made by one of the first k requests, and no two bear the same uuid. */
  ghost predicate Numbered(ops: seq<Op>, k: nat, names: map<string, File>) {
    && (forall x | x in names :: exists i :: 0 <= i < k && i < |ops| && Makes(ops[i], x, names[x]))
    && (forall x, y | x in names && y in names && x != y :: names[x].uuid != names[y].uuid)
  }

  /** A file is as it was, up to its link count, or was just made. */
  lemma FileStays(cap: nat, H: string -> nat, d: Directory, op: Op, r: Reply, d': Directory, x: string)
    requires cap > 0 && Serves(cap, H, d, op, r, d') && x in d'.names
    ensures if x in d.names then d'.names[x].uuid == d.names[x].uuid
                                 && (d'.names[x].meta == d.names[x].meta || (d.names[x].meta.Mdu? && d'.names[x].meta.Mdu?))
            else Makes(op, x, d'.names[x])
  {
    hide Shows, Meets, Buried, ReapedTo;
  }

  lemma StepIsNumbered(cap: nat, H: string -> nat, d: Directory, ops: seq<Op>, r: Reply, d': Directory, k: nat)
    requires cap > 0 && FreshUuids(ops) && k < |ops| && Numbered(ops, k, d.names) && Serves(cap, H, d, ops[k], r, d')
    ensures Numbered(ops, k + 1, d'.names)
  {
    hide Serves;
    forall x | x in d'.names
      ensures exists i :: 0 <= i < k + 1 && i < |ops| && Makes(ops[i], x, d'.names[x])
    {
      FileStays(cap, H, d, ops[k], r, d', x);
      if x in d.names {
        var i :| 0 <= i < k && i < |ops| && Makes(ops[i], x, d.names[x]);
        assert Makes(ops[i], x, d'.names[x]);
      }
    }
    forall x, y | x in d'.names && y in d'.names && x != y
      ensures d'.names[x].uuid != d'.names[y].uuid
    {
      FileStays(cap, H, d, ops[k], r, d', x);
      FileStays(cap, H, d, ops[k], r, d', y);
    }
  }

  lemma {:induction false} RunIsNumbered(cap: nat, H: string -> nat, ds: seq<Directory>, ops: seq<Op>, rs: seq<Reply>, k: nat)
    requires cap > 0 && Explains(cap, H, ds, ops, rs) && FreshUuids(ops) && k <= |ops|
    ensures Numbered(ops, k, ds[k].names)
  {
    hide Serves;
    if k > 0 {
      RunIsNumbered(cap, H, ds, ops, rs, k - 1);
      StepIsNumbered(cap, H, ds[k - 1], ops, rs[k - 1], ds[k], k - 1);
    }
  }

  /** In every run in which the counter gives each uuid once, a search by the uuid
      and the name hash of a file that is present finds it exactly if it was
      created as a hard link or its name hashes to 0. */
  lemma FoundByUuid(cap: nat, H: string -> nat, ds: seq<Directory>, ops: seq<Op>, rs: seq<Reply>, k: nat, x: string)
    requires cap > 0 && Explains(cap, H, ds, ops, rs) && FreshUuids(ops) && k < |ops|
    requires x in ds[k].names && ops[k] == FindUuid(ds[k].names[x].uuid, H(x), NOFLAGS)
    ensures rs[k] == Found(ds[k].names[x].meta) || rs[k] == NoEntry
    ensures rs[k] == Found(ds[k].names[x].meta) <==>
            H(x) == 0 || exists i :: 0 <= i < k && ops[i].CreateLink? && ops[i].x == x && ops[i].uuid == ds[k].names[x].uuid
  {
    RunIsNumbered(cap, H, ds, ops, rs, k);
    var d, f := ds[k], ds[k].names[x];
    assert Serves(cap, H, d, ops[k], rs[k], ds[k + 1]);
    MeetsItself(cap, H, d, ops, k, x);
    var i :| 0 <= i < k && i < |ops| && Makes(ops[i], x, f);
    assert forall j | 0 <= j < k && NewUuid(ops[j]) == Some(f.uuid) :: NewUuid(ops[j]) == NewUuid(ops[i]);
  }

  /** A search by the uuid and name hash of a file can meet this file only. */
  lemma MeetsItself(cap: nat, H: string -> nat, d: Directory, ops: seq<Op>, k: nat, x: string)
    requires cap > 0 && Numbered(ops, k, d.names) && x in d.names
    ensures forall m | Meets(cap, H, d, d.names[x].uuid, H(x), NOFLAGS, m) :: m == d.names[x].meta
    ensures Meets(cap, H, d, d.names[x].uuid, H(x), NOFLAGS, d.names[x].meta) <==> d.names[x].meta.LinkSource? || H(x) == 0
  {
    var f := d.names[x];
    assert Bears(cap, H, x, f, f.uuid, H(x)) <==> f.meta.LinkSource? || H(x) == 0;
    assert forall y | y in d.names && Bears(cap, H, y, d.names[y], f.uuid, H(x)) :: y == x;
  }
}
