/** What searches see across all copies of an ITB: the directory that the
    changes of all requests make, in the order in which they are made. */
module TxgDirectories {
  import opened Common
  import opened ItbTable
  import opened ItbEdits
  import opened ItbMatch
  import opened ItbNames
  import opened ItbChanges
  import opened ItbCow
  import opened TxgModel
  import opened TxgInvariant
  import opened TxgSteps
  import opened TxgTables
  import opened TxgLost

  // ----------------------------------------------------------- the deeds

  /** What a step means for the directories: it starts one with a new ITB, puts
      a copy n in the place of ITB i, or makes a change through ITB i. */
  datatype Deed = Quiet | Starts(i: nat, d: map<string, File>) | Copies(i: nat, n: nat) | Makes(i: nat, c: Change)

  /** The ITB whose content the step may change. */
  function Edited(s: State, a: Act): Option<nat> {
    match a
    case Access(_, i, _) => Some(i)
    case RefreshAccess(r, _) => if r in s.req && s.req[r].Refresh? then Some(s.req[r].i) else None
    case ReboundAccess(r, _) => if r in s.req && s.req[r].Rebound? then Some(s.req[r].i) else None
    case _ => None
  }

  ghost predicate Does(H: string -> nat, s: State, a: Act, d: Deed) {
    match d
    case Quiet => !a.Insert? && !a.CowWin? && Edited(s, a) == None
    case Starts(i, dir) => a.Insert? && a.i == i && Stands(H, a.body, dir)
    case Copies(i, n) => a.CowWin? && a.n == n && Takes(s, a, i)
    case Makes(i, c) => Edited(s, a) == Some(i) && i in s.itbs && Applies(H, s.itbs[i].body, c, a.body)
  }

  /** For every ITB the first one it stems from by copying, and for each of
      those the directory that all changes made through its copies amount to. */
  datatype Books = Books(root: map<nat, nat>, dirs: map<nat, map<string, File>>)

  function Book(b: Books, d: Deed): Books {
    match d
    case Quiet => b
    case Starts(i, dir) => Books(b.root[i := i], b.dirs[i := dir])
    case Copies(i, n) => if i in b.root then b.(root := b.root[n := b.root[i]]) else b
    case Makes(i, c) =>
      if i in b.root && b.root[i] in b.dirs
      then b.(dirs := b.dirs[b.root[i] := After(b.dirs[b.root[i]], c)])
      else b
  }

  /** The books after some deeds, in order. */
  function BooksOf(ds: seq<Deed>): Books {
    if ds == [] then Books(map[], map[]) else Book(BooksOf(ds[..|ds| - 1]), ds[|ds| - 1])
  }

  // -------------------------------------- what they do to what searches reach

  /** The ITBs that searches reach. */
  ghost function Reached(s: State): (v: map<nat, Tab>) { map i | i in s.itbs && s.itbs[i].hashed :: s.itbs[i].body }

  /** t' stands for what t stands for. */
  ghost predicate Inherits(H: string -> nat, t: Tab, t': Tab) {
    forall dir :: Stands(H, t, dir) ==> Stands(H, t', dir)
  }

  ghost predicate Leads(H: string -> nat, v: map<nat, Tab>, d: Deed, v': map<nat, Tab>) {
    match d
    case Quiet => v' == v
    case Starts(i, dir) => i in v' && v' == v[i := v'[i]] && Stands(H, v'[i], dir)
    case Copies(i, n) => i in v && n in v' && v' == (v - {i})[n := v'[n]] && Inherits(H, v[i], v'[n])
    case Makes(i, c) => i in v && i in v' && v' == v[i := v'[i]] && Applies(H, v[i], c, v'[i])
  }

  /** Each reachable ITB stands for the directory of its root, and has it alone. */
  ghost predicate Right(H: string -> nat, v: map<nat, Tab>, b: Books) {
    && (forall i | i in v :: i in b.root && b.root[i] in b.dirs && Stands(H, v[i], b.dirs[b.root[i]]))
    && (forall i, j | i in v && j in v && i != j && i in b.root && j in b.root :: b.root[i] != b.root[j])
  }

  lemma DeedKeepsRight(H: string -> nat, v: map<nat, Tab>, b: Books, d: Deed, v': map<nat, Tab>)
    requires Right(H, v, b) && Leads(H, v, d, v') && (d.Starts? ==> d.i !in b.dirs)
    ensures Right(H, v', Book(b, d))
  {
    hide Stands, Applies, After;
    match d
    case Quiet =>
    case Starts(i, dir) =>
    case Copies(i, n) => CopyKeepsRight(H, v, b, i, n, v');
    case Makes(i, c) => ChangeActs(H, v[i], c, v'[i], b.dirs[b.root[i]]);
  }

  lemma CopyKeepsRight(H: string -> nat, v: map<nat, Tab>, b: Books, i: nat, n: nat, v': map<nat, Tab>)
    requires Right(H, v, b) && Leads(H, v, Copies(i, n), v')
    ensures Right(H, v', Book(b, Copies(i, n)))
  {
    hide Stands, Applies, After;
  }

  /** A copy of a table that keeps its ITEs inside its len stands for the same directory. */
  lemma CopyStands(H: string -> nat, t: Tab, d: map<string, File>, hdr: Header, junk: seq<Ite>)
    requires Stands(H, t, d) && Inside(t) && |junk| == |t.ite|
    ensures Stands(H, Recopy(t, hdr, junk), d)
  {
    hide Files, Meaning, Recopy;
    var w, nm :| Files(t, w, nm, H) && Bearing(t, nm) && Meaning(t, nm) == d;
    CopyHasFiles(t, w, nm, H, hdr, junk);
  }

  // ------------------------------------------------- what the steps do to it

  /** The body of ITB i is as before, or as the step edits it. */
  predicate Writes(s: State, a: Act, s': State, i: nat)
    requires i in s.itbs
  {
    i in s'.itbs && s'.itbs[i].body == if Edited(s, a) == Some(i) then a.body else s.itbs[i].body
  }

  /** The step adds an ITB if it is an insert or a win, and none otherwise. */
  predicate Gains(s: State, a: Act, s': State) {
    match a
    case Insert(_, i, _, body) =>
      i !in s.itbs && s'.itbs.Keys == s.itbs.Keys + {i} && s'.itbs[i].hashed && s'.itbs[i].body == body
    case CowWin(r, n, _) =>
      && Wins(s, a) && n !in s.itbs && s'.itbs.Keys == s.itbs.Keys + {n} && s'.itbs[n].hashed
      && s'.itbs[n].body == Copied(s, a) && s.itbs[s.req[r].i].hashed
    case _ => s'.itbs.Keys == s.itbs.Keys
  }

  lemma ReqEffect(s: State, a: Act, s': State)
    requires ReqNext(s, a, s')
    ensures Gains(s, a, s') && forall i | i in s.itbs :: Writes(s, a, s', i)
  {
    hide Edit, Formed, TxgModel.Keeps;
  }

  lemma CowEffect(s: State, a: Act, s': State)
    requires CowNext(s, a, s')
    ensures Gains(s, a, s')
  {
    hide Edit, Recopy, TxgModel.Keeps, HoldsLock, Reaches;
  }

  lemma CowWritesTo(s: State, a: Act, s': State, i: nat)
    requires CowNext(s, a, s') && i in s.itbs
    ensures Writes(s, a, s', i)
  {
    hide Edit, Recopy, TxgModel.Keeps, HoldsLock, Reaches;
  }

  lemma RebindEffect(s: State, a: Act, s': State)
    requires RebindNext(s, a, s')
    ensures Gains(s, a, s') && forall i | i in s.itbs :: Writes(s, a, s', i)
  {
    hide Edit, Reaches, AssertsHold;
  }

  lemma OtherEffect(s: State, a: Act, s': State)
    requires SwNext(s, a, s') || ComNext(s, a, s')
    ensures Gains(s, a, s') && forall i | i in s.itbs :: Writes(s, a, s', i)
  {
  }

  lemma Effect(s: State, a: Act, s': State)
    requires Next(s, a, s')
    ensures Gains(s, a, s') && forall i | i in s.itbs :: Writes(s, a, s', i)
  {
    hide ReqNext, CowNext, RebindNext, SwNext, ComNext, Gains, Writes;
    if ReqNext(s, a, s') { ReqEffect(s, a, s'); }
    if CowNext(s, a, s') {
      CowEffect(s, a, s');
      forall i | i in s.itbs ensures Writes(s, a, s', i) { CowWritesTo(s, a, s', i); }
    }
    if RebindNext(s, a, s') { RebindEffect(s, a, s'); }
    if SwNext(s, a, s') || ComNext(s, a, s') { OtherEffect(s, a, s'); }
  }

  /** The winner of a copy writes to an ITB that searches reach: its update is not lost. */
  predicate NotLost(s: State, a: Act) {
    a.RefreshAccess? && a.r in s.req && s.req[a.r].Refresh? && s.req[a.r].i in s.itbs ==> s.itbs[s.req[a.r].i].hashed
  }

  /** What a request writes to is then reached by searches. */
  lemma WritesToReached(s: State, a: Act, s': State, i: nat)
    requires Inv(s) && Next(s, a, s') && NotLost(s, a) && Edited(s, a) == Some(i)
    ensures i in s.itbs && s.itbs[i].hashed
  {
    hide CowNext, ReqNext, RebindNext, SwNext, ComNext, TxgOk, ItbOk;
    match a
    case Access(r, _, _) => AccessReaches(s, a, s');
    case RefreshAccess(r, _) => assert ReqOk(s, r);
    case ReboundAccess(r, _) => assert ReqOk(s, r);
    case _ =>
  }

  lemma AccessReaches(s: State, a: Act, s': State)
    requires Next(s, a, s') && a.Access?
    ensures Reaches(s, a.r, a.i)
  {
    hide Edit, Touch;
  }

  /** Every step does what its deed says to the ITBs that searches reach. */
  lemma DeedLeads(H: string -> nat, s: State, a: Act, d: Deed, s': State)
    requires Inv(s) && Next(s, a, s') && NotLost(s, a) && Does(H, s, a, d)
    requires forall i | i in s.itbs :: Inside(s.itbs[i].body)
    ensures Leads(H, Reached(s), d, Reached(s'))
    ensures s'.itbs.Keys == match d case Starts(i, _) => s.itbs.Keys + {i} case Copies(_, n) => s.itbs.Keys + {n} case _ => s.itbs.Keys
  {
    hide Inv, Next, NotLost, Stands, Applies, Inside, Recopy;
    Effect(s, a, s');
    forall i | i in s.itbs ensures i in s'.itbs && (s'.itbs[i].hashed <==> s.itbs[i].hashed && !Takes(s, a, i)) {
      NextHashes(s, a, s', i);
    }
    match d
    case Quiet => QuietLeads(H, s, a, s');
    case Starts(i, dir) => StartLeads(H, s, a, i, dir, s');
    case Copies(i, n) => CopyLeads(H, s, a, i, n, s');
    case Makes(i, c) =>
      WritesToReached(s, a, s', i);
      ChangeLeads(H, s, a, i, c, s');
  }

  lemma NoneGained(s: State, a: Act, s': State)
    requires Gains(s, a, s') && !a.Insert? && !a.CowWin?
    ensures s'.itbs.Keys == s.itbs.Keys && forall i :: !Takes(s, a, i)
  {
    hide Copied;
  }

  lemma QuietLeads(H: string -> nat, s: State, a: Act, s': State)
    requires Gains(s, a, s') && Does(H, s, a, Quiet)
    requires forall i | i in s.itbs :: Writes(s, a, s', i) && (s'.itbs[i].hashed <==> s.itbs[i].hashed && !Takes(s, a, i))
    ensures Leads(H, Reached(s), Quiet, Reached(s')) && s'.itbs.Keys == s.itbs.Keys
  {
    hide Gains, Takes, Edited, Stands, Applies;
    NoneGained(s, a, s');
    assert Reached(s') == Reached(s);
  }

  lemma StartLeads(H: string -> nat, s: State, a: Act, n: nat, dir: map<string, File>, s': State)
    requires Gains(s, a, s') && Does(H, s, a, Starts(n, dir))
    requires forall i | i in s.itbs :: Writes(s, a, s', i) && (s'.itbs[i].hashed <==> s.itbs[i].hashed && !Takes(s, a, i))
    ensures Leads(H, Reached(s), Starts(n, dir), Reached(s')) && s'.itbs.Keys == s.itbs.Keys + {n}
  {
    hide Stands, Applies, Copied;
    assert Reached(s') == Reached(s)[n := Reached(s')[n]];
  }

  lemma CopyLeads(H: string -> nat, s: State, a: Act, i: nat, n: nat, s': State)
    requires Gains(s, a, s') && Does(H, s, a, Copies(i, n)) && (i in s.itbs ==> Inside(s.itbs[i].body))
    requires forall j | j in s.itbs :: Writes(s, a, s', j) && (s'.itbs[j].hashed <==> s.itbs[j].hashed && !Takes(s, a, j))
    ensures Leads(H, Reached(s), Copies(i, n), Reached(s')) && s'.itbs.Keys == s.itbs.Keys + {n}
  {
    hide Stands, Applies, Recopy, Inside;
    forall dir | Stands(H, s.itbs[i].body, dir) ensures Stands(H, s'.itbs[n].body, dir) {
      CopyStands(H, s.itbs[i].body, dir, s.req[a.r].hdr, a.junk);
    }
    assert Reached(s') == (Reached(s) - {i})[n := Reached(s')[n]];
  }

  lemma ChangeLeads(H: string -> nat, s: State, a: Act, n: nat, c: Change, s': State)
    requires Gains(s, a, s') && !a.Insert? && !a.CowWin? && Does(H, s, a, Makes(n, c)) && s.itbs[n].hashed
    requires forall i | i in s.itbs :: Writes(s, a, s', i) && (s'.itbs[i].hashed <==> s.itbs[i].hashed && !Takes(s, a, i))
    ensures Leads(H, Reached(s), Makes(n, c), Reached(s')) && s'.itbs.Keys == s.itbs.Keys
  {
    hide Gains, Takes, Edited, Stands, Applies;
    NoneGained(s, a, s');
    assert Reached(s') == Reached(s)[n := Reached(s')[n]];
  }

  // ------------------------------------------------------------- whole runs

  /** A run with its deeds, in which up to step k only lasting headers enter the
      hash table and no winner's update is lost. */
  ghost predicate InOrder(H: string -> nat, ss: seq<State>, acts: seq<Act>, ds: seq<Deed>, k: nat) {
    && Run(ss, acts) && k < |ss| && |ds| == k
    && forall j | 0 <= j < k :: Does(H, ss[j], acts[j], ds[j]) && Steady(ss[j], acts[j]) && NotLost(ss[j], acts[j])
  }

  lemma BookKeys(b: Books, d: Deed, ks: set<nat>)
    requires b.dirs.Keys <= ks
    ensures Book(b, d).dirs.Keys <= match d case Starts(i, _) => ks + {i} case Copies(_, n) => ks + {n} case _ => ks
  {
    hide After;
  }

  lemma NewIsNew(H: string -> nat, s: State, a: Act, d: Deed, s': State)
    requires Next(s, a, s') && Does(H, s, a, d)
    ensures (d.Starts? ==> d.i !in s.itbs) && (d.Copies? ==> d.n !in s.itbs && d.i in s.itbs)
  {
    hide Next, Stands, Writes, Applies, Copied;
    Effect(s, a, s');
  }

  lemma {:induction false} BooksAreRight(H: string -> nat, ss: seq<State>, acts: seq<Act>, ds: seq<Deed>, k: nat)
    requires InOrder(H, ss, acts, ds, k)
    ensures Right(H, Reached(ss[k]), BooksOf(ds)) && BooksOf(ds).dirs.Keys <= ss[k].itbs.Keys
  {
    hide Inv, Next, Does, Steady, NotLost, Right, Book, Reached, Inside, Leads, Answer;
    if k == 0 {
      NothingBooked(H, ss[0]);
    } else {
      var s, a, d, s', b := ss[k - 1], acts[k - 1], ds[k - 1], ss[k], BooksOf(ds[..k - 1]);
      BooksAreRight(H, ss, acts, ds[..k - 1], k - 1);
      RunKeepsInv(ss, acts, k - 1);
      WinKeepsMeaning(ss, acts, k - 1, 0, ByName(""));
      assert Next(s, a, s') && Does(H, s, a, d) && NotLost(s, a);
      DeedLeads(H, s, a, d, s');
      NewIsNew(H, s, a, d, s');
      BookKeys(b, d, s.itbs.Keys);
      DeedKeepsRight(H, Reached(s), b, d, Reached(s'));
    }
  }

  lemma NothingBooked(H: string -> nat, s: State)
    requires Init(s)
    ensures Right(H, Reached(s), Books(map[], map[]))
  {
  }

  /** In every such run, whatever copies come in between, each ITB that searches
      reach stands for the directory that the changes of all requests make, in
      order: a by-name search finds exactly its files.  No two reachable ITBs
      stem from the same first one. */
  lemma SearchesSeeAllChanges(H: string -> nat, ss: seq<State>, acts: seq<Act>, ds: seq<Deed>, k: nat, i: nat, x: string)
    requires InOrder(H, ss, acts, ds, k) && i in ss[k].itbs && ss[k].itbs[i].hashed && GoodName(x)
    ensures var b := BooksOf(ds);
            && i in b.root && b.root[i] in b.dirs
            && (forall j | j in ss[k].itbs && ss[k].itbs[j].hashed && j != i :: j in b.root && b.root[j] != b.root[i])
            && match Answer(ss[k].itbs[i].body, H(x), ByName(x))
               case Some(e) => x in b.dirs[b.root[i]] && e.name == x && b.dirs[b.root[i]][x] == FileOf(e)
               case None => x !in b.dirs[b.root[i]]
  {
    hide Stands, Answer, Run, Does, Steady, NotLost, BooksOf;
    BooksAreRight(H, ss, acts, ds, k);
    var b := BooksOf(ds);
    assert i in Reached(ss[k]);
    forall j | j in ss[k].itbs && ss[k].itbs[j].hashed && j != i ensures j in b.root && b.root[j] != b.root[i] {
      assert j in Reached(ss[k]);
    }
    StandsAnswers(H, ss[k].itbs[i].body, b.dirs[b.root[i]], x);
  }

  // -------------------------------------------------- a lost update is seen

  /** Every ITB has a reachable one of the same root. */
  ghost predicate Followed(v: map<nat, Tab>, b: Books) { forall i | i in b.root :: HasFollower(v, b, b.root[i]) }

  ghost predicate HasFollower(v: map<nat, Tab>, b: Books, r: nat) {
    exists j :: j in v && j in b.root && b.root[j] == r
  }

  /** A deed leaves each root that had a follower with one. */
  lemma DeedKeepsFollower(H: string -> nat, v: map<nat, Tab>, b: Books, d: Deed, v': map<nat, Tab>, r: nat)
    requires HasFollower(v, b, r) && Leads(H, v, d, v')
    requires (d.Starts? ==> d.i !in b.root) && (d.Copies? ==> d.n !in b.root)
    ensures HasFollower(v', Book(b, d), r)
  {
    hide Stands, Applies, After, Inherits;
    var j :| j in v && j in b.root && b.root[j] == r;
    if d.Copies? && j == d.i { assert Book(b, d).root[d.n] == r; } else { assert j in v' && Book(b, d).root[j] == r; }
  }

  lemma DeedKeepsFollowed(H: string -> nat, v: map<nat, Tab>, b: Books, d: Deed, v': map<nat, Tab>)
    requires Followed(v, b) && Leads(H, v, d, v')
    requires (d.Starts? ==> d.i !in b.root) && (d.Copies? ==> d.n !in b.root)
    ensures Followed(v', Book(b, d))
  {
    hide Stands, Applies, After, Inherits, HasFollower;
    forall i | i in Book(b, d).root ensures HasFollower(v', Book(b, d), Book(b, d).root[i]) {
      if i in b.root {
        DeedKeepsFollower(H, v, b, d, v', b.root[i]);
      } else if d.Starts? {
        assert HasFollower(v', Book(b, d), i) by { StarterFollows(H, v, b, d, v'); }
      } else {
        DeedKeepsFollower(H, v, b, d, v', b.root[d.i]);
      }
    }
  }

  lemma StarterFollows(H: string -> nat, v: map<nat, Tab>, b: Books, d: Deed, v': map<nat, Tab>)
    requires Leads(H, v, d, v') && d.Starts?
    ensures HasFollower(v', Book(b, d), d.i)
  {
    hide Stands;
    assert d.i in v' && Book(b, d).root[d.i] == d.i;
  }

  lemma RootKeys(b: Books, d: Deed, ks: set<nat>)
    requires b.root.Keys == ks && (d.Copies? ==> d.i in ks)
    ensures Book(b, d).root.Keys == match d case Starts(i, _) => ks + {i} case Copies(_, n) => ks + {n} case _ => ks
  {
    hide After;
  }

  lemma {:induction false} AllFollowed(H: string -> nat, ss: seq<State>, acts: seq<Act>, ds: seq<Deed>, k: nat)
    requires InOrder(H, ss, acts, ds, k)
    ensures Followed(Reached(ss[k]), BooksOf(ds)) && BooksOf(ds).root.Keys == ss[k].itbs.Keys
  {
    hide Inv, Next, Does, Steady, NotLost, Right, Followed, Book, Reached, Inside, Leads, Answer;
    if k == 0 {
      NobodyFollows(ss[0]);
    } else {
      var s, a, d, s', b := ss[k - 1], acts[k - 1], ds[k - 1], ss[k], BooksOf(ds[..k - 1]);
      AllFollowed(H, ss, acts, ds[..k - 1], k - 1);
      BooksAreRight(H, ss, acts, ds[..k - 1], k - 1);
      RunKeepsInv(ss, acts, k - 1);
      WinKeepsMeaning(ss, acts, k - 1, 0, ByName(""));
      assert Next(s, a, s') && Does(H, s, a, d) && NotLost(s, a);
      DeedLeads(H, s, a, d, s');
      NewIsNew(H, s, a, d, s');
      RootKeys(b, d, s.itbs.Keys);
      DeedKeepsFollowed(H, Reached(s), b, d, Reached(s'));
    }
  }

  lemma NobodyFollows(s: State)
    requires Init(s)
    ensures Followed(Reached(s), Books(map[], map[])) && s.itbs == map[]
  {
  }

  /** A lost change leaves what searches reach as it was. */
  lemma LostLeadsNowhere(H: string -> nat, s: State, a: Act, i: nat, c: Change, s': State)
    requires Next(s, a, s') && Does(H, s, a, Makes(i, c)) && !NotLost(s, a)
    ensures !s.itbs[i].hashed && Reached(s') == Reached(s)
  {
    hide Next, Gains, Applies;
    Effect(s, a, s');
    forall j | j in s.itbs ensures j in s'.itbs && s'.itbs[j].hashed == s.itbs[j].hashed { NextHashes(s, a, s', j); }
    NoneGained(s, a, s');
  }

  /** A table stands for one directory only. */
  lemma StandsOnce(H: string -> nat, t: Tab, d: map<string, File>, d': map<string, File>)
    requires Stands(H, t, d) && Stands(H, t, d')
    ensures d == d'
  {
    hide Files, Meaning;
    var w, nm :| Files(t, w, nm, H) && Bearing(t, nm) && Meaning(t, nm) == d;
    StandsForOne(H, t, w, nm, d');
  }

  /** After a lost change the books are wrong, unless it changes nothing. */
  lemma LostIsWrong(H: string -> nat, v: map<nat, Tab>, b: Books, i: nat, c: Change)
    requires Right(H, v, b) && Followed(v, b) && i in b.root && b.root[i] in b.dirs
    ensures Right(H, v, Book(b, Makes(i, c))) <==> After(b.dirs[b.root[i]], c) == b.dirs[b.root[i]]
  {
    hide Stands, After;
    assert HasFollower(v, b, b.root[i]);
    var j :| j in v && j in b.root && b.root[j] == b.root[i];
    var dir, dir' := b.dirs[b.root[i]], After(b.dirs[b.root[i]], c);
    if dir' == dir {
      assert Book(b, Makes(i, c)) == b;
    } else if Right(H, v, Book(b, Makes(i, c))) {
      StandsOnce(H, v[j], dir, dir');
    }
  }

  /** The condition on updates is exact: after a run in order, the step of a
      request leaves every reachable ITB with the directory of all changes exactly
      if its update is not lost, or does not alter the directory. */
  lemma RightUnlessLost(H: string -> nat, ss: seq<State>, acts: seq<Act>, ds: seq<Deed>, k: nat, d: Deed)
    requires InOrder(H, ss, acts, ds, k) && k < |acts| && Does(H, ss[k], acts[k], d) && d.Makes?
    ensures var b := BooksOf(ds);
            && d.i in b.root && b.root[d.i] in b.dirs
            && (Right(H, Reached(ss[k + 1]), BooksOf(ds + [d])) <==>
                  NotLost(ss[k], acts[k]) || After(b.dirs[b.root[d.i]], d.c) == b.dirs[b.root[d.i]])
  {
    hide Inv, Init, Next, Steady, NotLost, Right, Followed, Book, Reached, Inside, Leads, Answer, After, Stands, Applies, BooksOf;
    var s, a, s', b := ss[k], acts[k], ss[k + 1], BooksOf(ds);
    BooksAreRight(H, ss, acts, ds, k);
    AllFollowed(H, ss, acts, ds, k);
    HasBook(H, s, b, d.i);
    assert BooksOf(ds + [d]) == Book(b, d) by { OneMore(ds, d); }
    assert Next(s, a, s');
    if NotLost(s, a) {
      RunKeepsInv(ss, acts, k);
      WinKeepsMeaning(ss, acts, k, 0, ByName(""));
      DeedLeads(H, s, a, d, s');
      DeedKeepsRight(H, Reached(s), b, d, Reached(s'));
    } else {
      LostLeadsNowhere(H, s, a, d.i, d.c, s');
      LostIsWrong(H, Reached(s), b, d.i, d.c);
    }
  }

  lemma OneMore(ds: seq<Deed>, d: Deed)
    ensures BooksOf(ds + [d]) == Book(BooksOf(ds), d)
  {
    assert (ds + [d])[..|ds|] == ds;
  }

  lemma HasBook(H: string -> nat, s: State, b: Books, i: nat)
    requires Right(H, Reached(s), b) && Followed(Reached(s), b) && b.root.Keys == s.itbs.Keys && i in s.itbs
    ensures i in b.root && b.root[i] in b.dirs
  {
    hide Stands;
    assert HasFollower(Reached(s), b, b.root[i]);
    var j :| j in Reached(s) && j in b.root && b.root[j] == b.root[i];
  }
}
