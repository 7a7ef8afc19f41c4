/** What searches with a state filter find over whole runs: INDEX_ITE_ACTIVE the
    files that were not unlinked, INDEX_ITE_SHADOW what an unlink has left. */
module ItbStates {
  import opened ItbTable
  import opened ItbMatch
  import opened ItbNames

  /** Of the first k requests that created or unlinked x, the last one unlinked it. */
  predicate LastUnlinked(ops: seq<Op>, rs: seq<Reply>, k: nat, x: string)
    requires k <= |ops| == |rs|
  {
    if k == 0 then false
    else if rs[k - 1] == Done && ops[k - 1].Remove? && ops[k - 1].x == x then true
    else if rs[k - 1] == Done && (ops[k - 1].Create? || ops[k - 1].CreateLink?) && ops[k - 1].x == x then false
    else LastUnlinked(ops, rs, k - 1, x)
  }

  /** The state of each file tells whether it was unlinked since it was made. */
  ghost predicate StatesTell(ops: seq<Op>, rs: seq<Reply>, k: nat, names: map<string, File>)
    requires k <= |ops| == |rs|
  {
    forall x | x in names :: names[x].state == if LastUnlinked(ops, rs, k, x) then Shadow else Active
  }

  lemma StateStep(cap: nat, H: string -> nat, d: Directory, op: Op, r: Reply, d': Directory, x: string)
    requires cap > 0 && Serves(cap, H, d, op, r, d') && x in d'.names
    ensures r == Done && op.Remove? && op.x == x ==> d'.names[x].state == Shadow
    ensures r == Done && (op.Create? || op.CreateLink?) && op.x == x ==> d'.names[x].state == Active
    ensures !(r == Done && (op.Remove? || op.Create? || op.CreateLink?) && op.x == x) ==>
              x in d.names && d'.names[x].state == d.names[x].state
  {
    hide Shows, Meets, Buried, ReapedTo;
  }

  lemma {:induction false} RunTellsStates(cap: nat, H: string -> nat, ds: seq<Directory>, ops: seq<Op>, rs: seq<Reply>, k: nat)
    requires cap > 0 && Explains(cap, H, ds, ops, rs) && k <= |ops|
    ensures StatesTell(ops, rs, k, ds[k].names)
  {
    hide Serves;
    if k > 0 {
      RunTellsStates(cap, H, ds, ops, rs, k - 1);
      forall x | x in ds[k].names
        ensures ds[k].names[x].state == if LastUnlinked(ops, rs, k, x) then Shadow else Active
      {
        StateStep(cap, H, ds[k - 1], ops[k - 1], rs[k - 1], ds[k], x);
      }
    }
  }

  /** Every dead ITE was left by an unlink of its name. */
  ghost predicate DeadTell(ops: seq<Op>, rs: seq<Reply>, k: nat, dead: map<nat, Tomb>) {
    forall e | e in dead ::
      dead[e].f.state == Unlinked && exists i: nat :: i < k && i < |ops| && i < |rs| && Unlinks(ops[i], rs[i], dead[e].x)
  }

  predicate Unlinks(op: Op, r: Reply, x: string) { r == Done && op.Remove? && op.x == x }

  lemma DeadStep(cap: nat, H: string -> nat, d: Directory, op: Op, r: Reply, d': Directory, e: nat)
    requires cap > 0 && Serves(cap, H, d, op, r, d') && e in d'.dead
    ensures (e in d.dead && d'.dead[e] == d.dead[e]) || (d'.dead[e].f.state == Unlinked && Unlinks(op, r, d'.dead[e].x))
  {
    hide Shows, Meets, Occupied;
  }

  lemma {:induction false} RunTellsDead(cap: nat, H: string -> nat, ds: seq<Directory>, ops: seq<Op>, rs: seq<Reply>, k: nat)
    requires cap > 0 && Explains(cap, H, ds, ops, rs) && k <= |ops|
    ensures DeadTell(ops, rs, k, ds[k].dead)
  {
    hide Serves, Unlinks;
    if k > 0 {
      RunTellsDead(cap, H, ds, ops, rs, k - 1);
      forall e | e in ds[k].dead
        ensures ds[k].dead[e].f.state == Unlinked && exists i: nat :: i < k && i < |ops| && i < |rs| && Unlinks(ops[i], rs[i], ds[k].dead[e].x)
      {
        DeadStep(cap, H, ds[k - 1], ops[k - 1], rs[k - 1], ds[k], e);
      }
    }
  }

  /** When the directory shows something of name x. */
  lemma ShowsIff(d: Directory, x: string, f: Flags)
    ensures (exists m :: Shows(d, x, f, m)) <==>
              || (x in d.names && Passes(f, d.names[x].state))
              || (Raises(f) && exists e: nat :: e in d.dead && d.dead[e].x == x)
  {
    if x in d.names && Passes(f, d.names[x].state) { assert Shows(d, x, f, d.names[x].meta); }
    if Raises(f) && exists e: nat :: e in d.dead && d.dead[e].x == x {
      var e: nat :| e in d.dead && d.dead[e].x == x;
      assert Shows(d, x, f, d.dead[e].f.meta);
    }
  }

  /** In every run a search with no filter finds x exactly if x is present; one for
      ACTIVE exactly if x is present and was not unlinked since it was created; one
      for SHADOW exactly if x is present and was, or a dead ITE of that name is
      left, and in either case x was unlinked before; one for both finds nothing. */
  lemma SearchesByState(cap: nat, H: string -> nat, ds: seq<Directory>, ops: seq<Op>, rs: seq<Reply>, k: nat, x: string)
    requires cap > 0 && Explains(cap, H, ds, ops, rs) && k < |ops| && ops[k].Find? && ops[k].x == x
    ensures rs[k].Found? || rs[k] == NoEntry
    ensures !ops[k].f.shadow && rs[k].Found? ==> x in ds[k].names && rs[k].meta == ds[k].names[x].meta
    ensures !ops[k].f.shadow && !ops[k].f.active ==> (rs[k].Found? <==> x in ds[k].names)
    ensures !ops[k].f.shadow && ops[k].f.active ==> (rs[k].Found? <==> x in ds[k].names && !LastUnlinked(ops, rs, k, x))
    ensures ops[k].f.shadow && !ops[k].f.active ==>
              (rs[k].Found? <==> || (x in ds[k].names && LastUnlinked(ops, rs, k, x))
                                 || exists e: nat :: e in ds[k].dead && ds[k].dead[e].x == x)
    ensures ops[k].f.shadow && rs[k].Found? ==> exists i: nat :: i < k && ops[i].Remove? && ops[i].x == x && rs[i] == Done
    ensures ops[k].f.shadow && ops[k].f.active ==> rs[k] == NoEntry
  {
    RunTellsStates(cap, H, ds, ops, rs, k);
    RunTellsDead(cap, H, ds, ops, rs, k);
    assert Serves(cap, H, ds[k], ops[k], rs[k], ds[k + 1]);
    if x in ds[k].names && LastUnlinked(ops, rs, k, x) { var i := TheUnlink(ops, rs, k, x); }
    ShowsIff(ds[k], x, ops[k].f);
  }

  lemma {:induction false} TheUnlink(ops: seq<Op>, rs: seq<Reply>, k: nat, x: string) returns (i: nat)
    requires k <= |ops| == |rs| && LastUnlinked(ops, rs, k, x)
    ensures i < k && ops[i].Remove? && ops[i].x == x && rs[i] == Done
  {
    if rs[k - 1] == Done && ops[k - 1].Remove? && ops[k - 1].x == x { i := k - 1; } else { i := TheUnlink(ops, rs, k - 1, x); }
  }

  // ---------------------------------------------------------- link counts

  /** One link for the create, one for every link and one less for every unlink of
      x since then, among the first k requests. */
  function NetLinks(ops: seq<Op>, rs: seq<Reply>, k: nat, x: string): int
    requires k <= |ops| == |rs|
  {
    if k == 0 then 0
    else if rs[k - 1] != Done then NetLinks(ops, rs, k - 1, x)
    else
      match ops[k - 1]
      case Create(y, _) => if y == x then 1 else NetLinks(ops, rs, k - 1, x)
      case CreateLink(y, _, _) => if y == x then 1 else NetLinks(ops, rs, k - 1, x)
      case LinkAdd(y, _) => NetLinks(ops, rs, k - 1, x) + if y == x then 1 else 0
      case Remove(y, _) => NetLinks(ops, rs, k - 1, x) - if y == x then 1 else 0
      case _ => NetLinks(ops, rs, k - 1, x)
  }

  /** Every plain file counts its links, up to multiples of 65536. */
  ghost predicate LinksTell(ops: seq<Op>, rs: seq<Reply>, k: nat, names: map<string, File>)
    requires k <= |ops| == |rs|
  {
    forall x | x in names && names[x].meta.Mdu? :: names[x].meta.nlink == NetLinks(ops, rs, k, x) % 65536
  }

  /** What a request adds to the links of the name x. */
  function LinkDelta(op: Op, r: Reply, x: string): int {
    if r != Done then 0
    else
      match op
      case LinkAdd(y, _) => if y == x then 1 else 0
      case Remove(y, _) => if y == x then -1 else 0
      case _ => 0
  }

  predicate Creates(op: Op, r: Reply, x: string) { r == Done && (op.Create? || op.CreateLink?) && op.x == x }

  lemma LinkStep(cap: nat, H: string -> nat, d: Directory, op: Op, r: Reply, d': Directory, x: string)
    requires cap > 0 && Serves(cap, H, d, op, r, d') && x in d'.names && d'.names[x].meta.Mdu?
    requires x in d.names && d.names[x].meta.Mdu? ==> d.names[x].meta.nlink < 65536
    ensures Creates(op, r, x) ==> d'.names[x].meta.nlink == 1
    ensures !Creates(op, r, x) ==>
              x in d.names && d.names[x].meta.Mdu? && d'.names[x].meta.nlink == (d.names[x].meta.nlink + LinkDelta(op, r, x)) % 65536
  {
    hide Shows, Meets, Buried, ReapedTo, Serves;
    match op
    case LinkAdd(y, active) => LinkAddStep(cap, H, d, y, active, r, d', x);
    case Remove(y, active) => UnlinkStep(cap, H, d, y, active, r, d', x);
    case _ => OtherStep(cap, H, d, op, r, d', x);
  }

  lemma LinkAddStep(cap: nat, H: string -> nat, d: Directory, y: string, active: bool, r: Reply, d': Directory, x: string)
    requires cap > 0 && Serves(cap, H, d, LinkAdd(y, active), r, d') && x in d'.names && d'.names[x].meta.Mdu?
    requires x in d.names && d.names[x].meta.Mdu? ==> d.names[x].meta.nlink < 65536
    ensures x in d.names && d.names[x].meta.Mdu?
    ensures d'.names[x].meta.nlink == (d.names[x].meta.nlink + if r == Done && y == x then 1 else 0) % 65536
  {
  }

  lemma UnlinkStep(cap: nat, H: string -> nat, d: Directory, y: string, active: bool, r: Reply, d': Directory, x: string)
    requires cap > 0 && Serves(cap, H, d, Remove(y, active), r, d') && x in d'.names && d'.names[x].meta.Mdu?
    requires x in d.names && d.names[x].meta.Mdu? ==> d.names[x].meta.nlink < 65536
    ensures x in d.names && d.names[x].meta.Mdu?
    ensures d'.names[x].meta.nlink == (d.names[x].meta.nlink + if r == Done && y == x then -1 else 0) % 65536
  {
    hide Buried;
    if x in d.names && d.names[x].meta.Mdu? { WrapDown(d.names[x].meta.nlink); }
  }

  lemma OtherStep(cap: nat, H: string -> nat, d: Directory, op: Op, r: Reply, d': Directory, x: string)
    requires !op.LinkAdd? && !op.Remove?
    requires cap > 0 && Serves(cap, H, d, op, r, d') && x in d'.names && d'.names[x].meta.Mdu?
    requires x in d.names && d.names[x].meta.Mdu? ==> d.names[x].meta.nlink < 65536
    ensures Creates(op, r, x) ==> d'.names[x].meta.nlink == 1
    ensures !Creates(op, r, x) ==>
              x in d.names && d.names[x].meta.Mdu? && d'.names[x].meta.nlink == (d.names[x].meta.nlink + LinkDelta(op, r, x)) % 65536
  {
    hide Shows, Meets, Buried, ReapedTo;
  }

  lemma WrapDown(n: nat)
    ensures (n + 65535) % 65536 == (n - 1) % 65536 && (n < 65536 ==> n % 65536 == n && ((n + 65535) % 65536 == 0 <==> n == 1))
  {
  }

  lemma WrapSum(n: int, d: int)
    ensures (n % 65536 + d) % 65536 == (n + d) % 65536
  {
  }

  lemma {:induction false} RunTellsLinks(cap: nat, H: string -> nat, ds: seq<Directory>, ops: seq<Op>, rs: seq<Reply>, k: nat)
    requires cap > 0 && Explains(cap, H, ds, ops, rs) && k <= |ops|
    ensures LinksTell(ops, rs, k, ds[k].names)
  {
    hide Serves;
    if k > 0 {
      RunTellsLinks(cap, H, ds, ops, rs, k - 1);
      forall x | x in ds[k].names && ds[k].names[x].meta.Mdu?
        ensures ds[k].names[x].meta.nlink == NetLinks(ops, rs, k, x) % 65536
      {
        LinkStep(cap, H, ds[k - 1], ops[k - 1], rs[k - 1], ds[k], x);
        WrapSum(NetLinks(ops, rs, k - 1, x), LinkDelta(ops[k - 1], rs[k - 1], x));
      }
    }
  }

  /** In every run an unlink that finds a plain file takes its name away exactly if
      the links made since its create are one more than the unlinks, up to a
      multiple of 65536; otherwise the name stays. */
  lemma GoneAtLastLink(cap: nat, H: string -> nat, ds: seq<Directory>, ops: seq<Op>, rs: seq<Reply>, k: nat, x: string)
    requires cap > 0 && Explains(cap, H, ds, ops, rs) && k < |ops| && ops[k].Remove? && ops[k].x == x && rs[k] == Done
    ensures x in ds[k].names
    ensures ds[k].names[x].meta.Mdu? ==>
              (x !in ds[k + 1].names <==> NetLinks(ops, rs, k, x) % 65536 == 1)
    ensures ds[k].names[x].meta.LinkSource? ==> x !in ds[k + 1].names
  {
    hide Serves, Explains;
    RunTellsLinks(cap, H, ds, ops, rs, k);
    RunServes(cap, H, ds, ops, rs, k);
    RemoveStep(cap, H, ds[k], ops[k], ds[k + 1]);
  }

  lemma RunServes(cap: nat, H: string -> nat, ds: seq<Directory>, ops: seq<Op>, rs: seq<Reply>, k: nat)
    requires cap > 0 && Explains(cap, H, ds, ops, rs) && k < |ops|
    ensures k + 1 < |ds| && Serves(cap, H, ds[k], ops[k], rs[k], ds[k + 1])
  {
  }

  lemma RemoveStep(cap: nat, H: string -> nat, d: Directory, op: Op, d': Directory)
    requires cap > 0 && op.Remove? && Serves(cap, H, d, op, Done, d')
    ensures op.x in d.names
    ensures d.names[op.x].meta.LinkSource? ==> op.x !in d'.names
    ensures d.names[op.x].meta.Mdu? && d.names[op.x].meta.nlink < 65536 ==> (op.x !in d'.names <==> d.names[op.x].meta.nlink == 1)
  {
    hide Shows, Meets, Buried, ReapedTo;
    if op.x in d.names && d.names[op.x].meta.Mdu? { WrapDown(d.names[op.x].meta.nlink); }
  }
}
