/** The edits of an ITB as changes of the directory it stands for, whatever its
    header says. */
module ItbChanges {
  import opened ItbTable
  import opened ItbInvariant
  import opened ItbCounts
  import opened ItbEdits
  import opened ItbMatch
  import opened ItbNames

  /** What a request may change: nothing, or it stores a new ITE, drops a hard
      link, buries a file whose last link goes, or alters the metadata of a name. */
  datatype Change = Nothing | Store(e: Ite) | Drop(x: string) | Bury(x: string) | Alter(x: string, m: Meta, st: IteState)

  /** The directory after a change. */
  function After(d: map<string, File>, c: Change): map<string, File> {
    match c
    case Nothing => d
    case Store(e) => d[e.name := FileOf(e)]
    case Drop(x) => d - {x}
    case Bury(x) => d - {x}
    case Alter(x, m, st) => if x in d then d[x := File(d[x].uuid, m, st)] else d
  }

  /** The table stands for directory d: lookups see its files and no others. */
  ghost predicate Stands(H: string -> nat, t: Tab, d: map<string, File>) {
    exists w: Shape, nm: map<string, nat> :: Files(t, w, nm, H) && Bearing(t, nm) && Meaning(t, nm) == d
  }

  ghost predicate Bearing(t: Tab, nm: map<string, nat>) { forall x | x in nm :: nm[x] < |t.ite| }

  /** The ITE that bears x becomes e. */
  ghost predicate Rewrites(t: Tab, nm: map<string, nat>, x: string, e: Ite, t': Tab) {
    x in nm && nm[x] < |t.ite| && t' == t.(ite := t.ite[nm[x] := e])
  }

  /** Change c, made to the table t with names nm. */
  ghost predicate Makes(t: Tab, w: Shape, nm: map<string, nat>, H: string -> nat, c: Change, t': Tab)
    requires Files(t, w, nm, H)
  {
    match c
    case Nothing => t' == t
    case Store(e) =>
      && GoodName(e.name) && e.name !in nm && e.state != Unlinked && e.hash == StoredHash(H(e.name), e.meta)
      && exists nr: nat, f: nat :: AddsAt(t, H(e.name) % Cap(t), nr, f, e, t')
    case Drop(x) =>
      && x in nm
      && exists s: nat :: s in w.ch[H(x) % Cap(t)] && s < |t.index| && t.index[s].entry == nm[x]
                          && DeletesSlot(t, w, H(x) % Cap(t), s, t')
    case Bury(x) => exists e: Ite :: Rewrites(t, nm, x, e, t') && SameFile(t.ite[nm[x]], e) && e.state == Unlinked
    case Alter(x, m, st) =>
      exists e: Ite :: Rewrites(t, nm, x, e, t') && SameFile(t.ite[nm[x]], e) && e.meta == m && e.state == st != Unlinked
  }

  /** An ITE that is changed in place stays the same file. */
  predicate SameFile(e: Ite, e': Ite) {
    e'.name == e.name && e'.hash == e.hash && e'.uuid == e.uuid && e'.meta.LinkSource? == e.meta.LinkSource?
  }

  ghost predicate Applies(H: string -> nat, t: Tab, c: Change, t': Tab) {
    exists w: Shape, nm: map<string, nat> :: Files(t, w, nm, H) && Makes(t, w, nm, H, c, t')
  }

  /** A table has but one assignment of names. */
  lemma NamesAreUnique(t: Tab, w: Shape, nm: map<string, nat>, w': Shape, nm': map<string, nat>, H: string -> nat)
    requires Files(t, w, nm, H) && Files(t, w', nm', H)
    ensures nm == nm'
  {
    hide Shaped, GoodName, HeadOf, StoredHash;
    NamedPart(t, w, nm, w', nm', H);
    NamedPart(t, w', nm', w, nm, H);
  }

  lemma NamedPart(t: Tab, w: Shape, nm: map<string, nat>, w': Shape, nm': map<string, nat>, H: string -> nat)
    requires Files(t, w, nm, H) && Files(t, w', nm', H)
    ensures forall x | x in nm :: x in nm' && nm'[x] == nm[x]
  {
    hide GoodName, HeadOf, StoredHash, ChainOk, SlotAt, EntryAt;
    forall x | x in nm ensures x in nm' && nm'[x] == nm[x] {
      assert BornBy(t, nm, x);
      assert Placed(t, w', nm', H, nm[x]);
    }
  }

  lemma FilesBear(t: Tab, w: Shape, nm: map<string, nat>, H: string -> nat)
    requires Files(t, w, nm, H)
    ensures Bearing(t, nm) && Sized(t) && Meaning(t, nm).Keys == nm.Keys
  {
    assert forall y | y in nm :: BornBy(t, nm, y);
  }

  /** A directory is determined by its table. */
  lemma StandsForOne(H: string -> nat, t: Tab, w: Shape, nm: map<string, nat>, d: map<string, File>)
    requires Stands(H, t, d) && Files(t, w, nm, H)
    ensures Bearing(t, nm) && Meaning(t, nm) == d
  {
    hide Files, Meaning;
    var w', nm' :| Files(t, w', nm', H) && Bearing(t, nm') && Meaning(t, nm') == d;
    NamesAreUnique(t, w, nm, w', nm', H);
  }

  // ------------------------------------------- a change is an edit, and acts as it says

  lemma StoreActs(t: Tab, w: Shape, nm: map<string, nat>, H: string -> nat, e: Ite, t': Tab)
    requires Files(t, w, nm, H) && Makes(t, w, nm, H, Store(e), t')
    ensures Adds(t, t') && Bearing(t, nm) && Stands(H, t', Meaning(t, nm)[e.name := FileOf(e)])
  {
    hide ChainOk, SlotAt, EntryAt, Grown, AddIte, AddIteShape, Picks, BornBy, Placed, FirstZero;
    FilesBear(t, w, nm, H);
    var off := H(e.name) % Cap(t);
    var nr: nat, f: nat :| AddsAt(t, off, nr, f, e, t');
    FirstZeroIsFree(Live(t), nr);
    if Used(t, off) { PickFacts(t, t, f); }
    AddIteGrows(t, w, off, nr, f, e);
    var w' := AddIteShape(t, w, off, nr, f);
    FilesAfterAdd(t, w, nm, H, t', w', nr, e);
    FilesBear(t', w', nm[e.name := nr], H);
  }

  lemma DropActs(t: Tab, w: Shape, nm: map<string, nat>, H: string -> nat, x: string, t': Tab)
    requires Files(t, w, nm, H) && Makes(t, w, nm, H, Drop(x), t')
    ensures Deletes(t, t') && Bearing(t, nm) && Stands(H, t', Meaning(t, nm) - {x})
  {
    hide ChainOk, SlotAt, EntryAt, Released, DeleteSlot, BornBy, Placed;
    FilesBear(t, w, nm, H);
    var h := H(x) % Cap(t);
    var s: nat :| s in w.ch[h] && s < |t.index| && t.index[s].entry == nm[x] && DeletesSlot(t, w, h, s, t');
    DeletedIsEdit(t, w, h, s, t');
    var k: nat :| k < |w.ch[h]| && w.ch[h][k] == s;
    var w' := DeleteShaped(t, w, h, k);
    assert t' == DeleteSlot(t, w, h, k);
    FilesAfterDelete(t, w, nm, H, t', w', x);
    FilesBear(t', w', nm - {x}, H);
  }

  lemma BuryActs(t: Tab, w: Shape, nm: map<string, nat>, H: string -> nat, x: string, e: Ite, t': Tab)
    requires Files(t, w, nm, H) && Rewrites(t, nm, x, e, t') && SameFile(t.ite[nm[x]], e) && e.state == Unlinked
    ensures Updates(t, t') && Bearing(t, nm) && Stands(H, t', Meaning(t, nm) - {x})
  {
    hide ChainOk, SlotAt, EntryAt, Placed;
    FilesBear(t, w, nm, H);
    assert BornBy(t, nm, x);
    assert UpdatesAt(t, nm[x], t');
    FilesAfterKill(t, w, nm, H, t', x, e);
    FilesBear(t', w, nm - {x}, H);
  }

  lemma AlterActs(t: Tab, w: Shape, nm: map<string, nat>, H: string -> nat, x: string, e: Ite, t': Tab)
    requires Files(t, w, nm, H) && Rewrites(t, nm, x, e, t') && SameFile(t.ite[nm[x]], e) && e.state != Unlinked
    ensures Updates(t, t') && Bearing(t, nm) && x in Meaning(t, nm)
    ensures Stands(H, t', Meaning(t, nm)[x := File(Meaning(t, nm)[x].uuid, e.meta, e.state)])
  {
    hide ChainOk, SlotAt, EntryAt, Placed;
    FilesBear(t, w, nm, H);
    assert BornBy(t, nm, x);
    assert UpdatesAt(t, nm[x], t');
    FilesAfterUpdate(t, w, nm, H, t', x, e);
    FilesBear(t', w, nm, H);
  }

  /** A change is one edit of the table and turns its directory into the changed one. */
  lemma ChangeActs(H: string -> nat, t: Tab, c: Change, t': Tab, d: map<string, File>)
    requires Applies(H, t, c, t') && Stands(H, t, d)
    ensures Edit(t, t') && Stands(H, t', After(d, c))
  {
    hide Files, Makes, Meaning, Adds, Deletes, Updates, Stands;
    var w, nm :| Files(t, w, nm, H) && Makes(t, w, nm, H, c, t');
    StandsForOne(H, t, w, nm, d);
    match c
    case Nothing => assert t' == t by { MakesNothing(t, w, nm, H, t'); }
    case Store(e) => StoreActs(t, w, nm, H, e, t');
    case Drop(x) => DropActs(t, w, nm, H, x, t');
    case Bury(x) =>
      var e := MakesRewrite(t, w, nm, H, c, x, t');
      BuryActs(t, w, nm, H, x, e, t');
    case Alter(x, m, st) =>
      var e := MakesRewrite(t, w, nm, H, c, x, t');
      AlterActs(t, w, nm, H, x, e, t');
  }

  lemma MakesNothing(t: Tab, w: Shape, nm: map<string, nat>, H: string -> nat, t': Tab)
    requires Files(t, w, nm, H) && Makes(t, w, nm, H, Nothing, t')
    ensures t' == t
  {
  }

  lemma MakesRewrite(t: Tab, w: Shape, nm: map<string, nat>, H: string -> nat, c: Change, x: string, t': Tab) returns (e: Ite)
    requires Files(t, w, nm, H) && Makes(t, w, nm, H, c, t') && ((c.Bury? && c.x == x) || (c.Alter? && c.x == x))
    ensures Rewrites(t, nm, x, e, t') && SameFile(t.ite[nm[x]], e) && (c.Bury? ==> e.state == Unlinked)
    ensures c.Alter? ==> e.meta == c.m && e.state == c.st != Unlinked
  {
    if c.Bury? {
      e :| Rewrites(t, nm, x, e, t') && SameFile(t.ite[nm[x]], e) && e.state == Unlinked;
    } else {
      e :| Rewrites(t, nm, x, e, t') && SameFile(t.ite[nm[x]], e) && e.meta == c.m && e.state == c.st != Unlinked;
    }
  }

  /** Some change leads from t to t'. */
  ghost predicate Changes(H: string -> nat, t: Tab, t': Tab) { exists c: Change :: Applies(H, t, c, t') }

  lemma ChangesIsEdit(H: string -> nat, t: Tab, t': Tab)
    requires Changes(H, t, t')
    ensures Edit(t, t')
  {
    hide Files, Makes, Edit;
    var c :| Applies(H, t, c, t');
    var w, nm :| Files(t, w, nm, H) && Makes(t, w, nm, H, c, t');
    FilesBear(t, w, nm, H);
    ChangeActs(H, t, c, t', Meaning(t, nm));
  }

  lemma NothingChanges(t: Tab, w: Shape, nm: map<string, nat>, H: string -> nat)
    requires Named(t, w, nm, H)
    ensures Changes(H, t, t)
  {
    hide Inv, Files;
    assert Makes(t, w, nm, H, Nothing, t);
    assert Applies(H, t, Nothing, t);
  }

  lemma StoreChanges(t: Tab, w: Shape, nm: map<string, nat>, H: string -> nat, nr: nat, f: nat, e: Ite, t': Tab)
    requires Named(t, w, nm, H) && GoodName(e.name) && e.name !in nm && e.state != Unlinked
    requires e.hash == StoredHash(H(e.name), e.meta) && Sized(t) && AddsAt(t, H(e.name) % Cap(t), nr, f, e, t')
    ensures Changes(H, t, t')
  {
    hide Inv, BornBy, Placed, AddsAt, ChainAt, SlotAt, EntryAt;
    assert Makes(t, w, nm, H, Store(e), t');
    assert Applies(H, t, Store(e), t');
  }

  lemma DropChanges(t: Tab, w: Shape, nm: map<string, nat>, H: string -> nat, x: string, s: nat, t': Tab)
    requires Named(t, w, nm, H) && x in nm && Sized(t) && H(x) % Cap(t) < |w.ch| && s in w.ch[H(x) % Cap(t)]
    requires s < |t.index| && t.index[s].entry == nm[x] && Shaped(t, w) && DeletesSlot(t, w, H(x) % Cap(t), s, t')
    ensures Changes(H, t, t')
  {
    hide Inv, BornBy, Placed, DeletesSlot, ChainAt, SlotAt, EntryAt;
    assert Makes(t, w, nm, H, Drop(x), t');
    assert Applies(H, t, Drop(x), t');
  }

  lemma RewriteChanges(t: Tab, w: Shape, nm: map<string, nat>, H: string -> nat, x: string, e: Ite, t': Tab)
    requires Named(t, w, nm, H) && x in nm && nm[x] < |t.ite| && t' == t.(ite := t.ite[nm[x] := e])
    requires SameFile(t.ite[nm[x]], e)
    ensures Changes(H, t, t')
  {
    hide Inv, BornBy, Placed, ChainAt, SlotAt, EntryAt;
    assert Rewrites(t, nm, x, e, t');
    var c := if e.state == Unlinked then Bury(x) else Alter(x, e.meta, e.state);
    assert Makes(t, w, nm, H, c, t');
    assert Applies(H, t, c, t');
  }

  // ------------------------------------------------- what lookups then see

  /** A by-name search of a table that stands for d answers as d does. */
  lemma StandsAnswers(H: string -> nat, t: Tab, d: map<string, File>, x: string)
    requires Stands(H, t, d) && GoodName(x)
    ensures match Answer(t, H(x), ByName(x))
            case Some(e) => x in d && e.name == x && d[x] == FileOf(e)
            case None => x !in d
  {
    hide Files, Lookup;
    var w, nm :| Files(t, w, nm, H) && Bearing(t, nm) && Meaning(t, nm) == d;
    FilesLookup(t, w, nm, H, x);
    FilesBear(t, w, nm, H);
    if x in nm { BearsName(t, w, nm, H, x); }
  }

  lemma BearsName(t: Tab, w: Shape, nm: map<string, nat>, H: string -> nat, x: string)
    requires Files(t, w, nm, H) && x in nm
    ensures nm[x] < |t.ite| && t.ite[nm[x]].name == x
  {
    assert BornBy(t, nm, x);
  }
}
