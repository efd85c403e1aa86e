// Persisting the configuration with snapshot rotation (conf/src/fs.rs). The file system is a
// map from paths to texts; a persist is a list of file operations, each atomic or not.
module Snapshots {
  import P = Printer
  import opened Ast
  import opened Decimal
  import opened Parser
  import opened PlainForms
  import opened Wrappers

  type Path = string
  type Files = map<Path, string>

  const SNAPSHOT_COUNT := 10

  // ----- paths -----

  // A configuration path: its directory (with the slash) and its file name.
  datatype Place = Place(dir: string, name: string)

  // Position of the last dot, or the length if there is none.
  function LastDot(s: string): (i: nat)
    ensures i <= |s|
  {
    if s == [] then 0
    else if s[|s| - 1] == '.' then |s| - 1
    else
      var i := LastDot(s[..|s| - 1]);
      if i == |s| - 1 then |s| else i
  }

  // Where `.<index>` goes: before the extension, or at the end if there is none.
  function Cut(name: string): (i: nat)
    ensures i <= |name|
  {
    var i := LastDot(name);
    if 0 < i < |name| then i else |name|
  }

  function Main(p: Place): Path { p.dir + p.name }

  function Slot(p: Place, i: nat): Path {
    var c := Cut(p.name);
    p.dir + p.name[..c] + "." + Digits(i) + p.name[c..]
  }

  function Tmp(p: Place): Path { p.dir + p.name + ".tmp" }

  lemma SlotsDistinct(p: Place, i: nat, j: nat)
    requires i != j
    ensures Slot(p, i) != Slot(p, j)
  {
    var c := Cut(p.name);
    var head := p.dir + p.name[..c] + ".";
    if Slot(p, i) == Slot(p, j) {
      var a, b := Slot(p, i), Slot(p, j);
      assert |a| == |head| + |Digits(i)| + |p.name[c..]|;
      assert |b| == |head| + |Digits(j)| + |p.name[c..]|;
      assert a[|head|..|head| + |Digits(i)|] == Digits(i);
      assert b[|head|..|head| + |Digits(j)|] == Digits(j);
      ValueOfDigits(i);
      ValueOfDigits(j);
    }
  }

  // No snapshot is the configuration or its temporary sibling.
  lemma SlotApart(p: Place, i: nat)
    requires i < 100
    ensures Slot(p, i) != Main(p) && Slot(p, i) != Tmp(p) && Tmp(p) != Main(p)
  {
    assert |Slot(p, i)| == |p.dir| + |p.name| + 1 + |Digits(i)|;
    assert |Tmp(p)| == |p.dir| + |p.name| + 4;
    assert |Main(p)| == |p.dir| + |p.name|;
  }

  // ----- file operations -----

  datatype Op = Remove(path: Path) | Rename(from: Path, to: Path) | Copy(from: Path, to: Path) |
    Write(path: Path, text: string)

  function Read(f: Files, p: Path): Option<string> { if p in f then Some(f[p]) else None }

  // A missing source is skipped, as the callers do.
  function Do(f: Files, op: Op): Files {
    match op
    case Remove(p) => f - {p}
    case Rename(a, b) => if a in f then (f - {a})[b := f[a]] else f
    case Copy(a, b) => if a in f then f[b := f[a]] else f
    case Write(p, t) => f[p := t]
  }

  function DoAll(f: Files, ops: seq<Op>): Files
    decreases ops
  {
    if ops == [] then f else DoAll(Do(f, ops[0]), ops[1..])
  }

  // `for i in (1..n).rev()`: rename slot i to slot i + 1.
  function Renames(p: Place, hi: nat): seq<Op> {
    if hi == 0 then [] else [Rename(Slot(p, hi), Slot(p, hi + 1))] + Renames(p, hi - 1)
  }

  function RotateOps(p: Place, n: nat): seq<Op> {
    if n == 0 then [] else [Op.Remove(Slot(p, n))] + Renames(p, n - 1)
  }

  function PersistOps(p: Place, text: string): seq<Op> {
    RotateOps(p, SNAPSHOT_COUNT) +
    [Copy(Main(p), Slot(p, 1)), Write(Tmp(p), text), Rename(Tmp(p), Main(p))]
  }

  lemma {:induction false} DoConcat(f: Files, a: seq<Op>, b: seq<Op>)
    ensures DoAll(f, a + b) == DoAll(DoAll(f, a), b)
    decreases a
  {
    hide Do;
    if a == [] {
      assert a + b == b;
    } else {
      assert (a + b)[1..] == a[1..] + b;
      DoConcat(Do(f, a[0]), a[1..], b);
    }
  }

  // ----- rotation -----

  // Sliding the snapshots up: every slot gets what the one below it had.
  lemma {:induction false} RenamesSlot(p: Place, f: Files, hi: nat, m: nat)
    requires Read(f, Slot(p, hi + 1)).None?
    ensures Read(DoAll(f, Renames(p, hi)), Slot(p, m)) ==
            if hi >= 1 && m == 1 then None
            else if 2 <= m <= hi + 1 then Read(f, Slot(p, m - 1)) else Read(f, Slot(p, m))
    decreases hi
  {
    hide Slot;
    if hi > 0 {
      var op := Rename(Slot(p, hi), Slot(p, hi + 1));
      var g := Do(f, op);
      SlotsDistinct(p, hi, hi + 1);
      assert Renames(p, hi)[1..] == Renames(p, hi - 1);
      assert DoAll(f, Renames(p, hi)) == DoAll(g, Renames(p, hi - 1));
      RenamesSlot(p, g, hi - 1, m);
      if m != hi { SlotsDistinct(p, m, hi); }
      if m != hi + 1 { SlotsDistinct(p, m, hi + 1); }
      if m >= 1 && m - 1 != hi { SlotsDistinct(p, m - 1, hi); }
      if m >= 1 && m - 1 != hi + 1 { SlotsDistinct(p, m - 1, hi + 1); }
    }
  }

  predicate NoSlot(p: Place, q: Path) {
    forall i | 1 <= i <= SNAPSHOT_COUNT :: q != Slot(p, i)
  }

  lemma {:induction false} RenamesOther(p: Place, f: Files, hi: nat, q: Path)
    requires hi < SNAPSHOT_COUNT && NoSlot(p, q)
    ensures Read(DoAll(f, Renames(p, hi)), q) == Read(f, q)
    decreases hi
  {
    hide Slot;
    if hi > 0 {
      var g := Do(f, Rename(Slot(p, hi), Slot(p, hi + 1)));
      assert Read(g, q) == Read(f, q);
      RenamesOther(p, g, hi - 1, q);
      hide Do, NoSlot;
      assert Renames(p, hi)[1..] == Renames(p, hi - 1);
      assert DoAll(f, Renames(p, hi)) == DoAll(g, Renames(p, hi - 1));
    }
  }

  lemma Rotated(p: Place, f: Files, m: nat)
    ensures Read(DoAll(f, RotateOps(p, SNAPSHOT_COUNT)), Slot(p, m)) ==
            if m == 1 then None
            else if 2 <= m <= SNAPSHOT_COUNT then Read(f, Slot(p, m - 1)) else Read(f, Slot(p, m))
  {
    hide Slot, Renames;
    var n := SNAPSHOT_COUNT;
    var g := Do(f, Op.Remove(Slot(p, n)));
    assert RotateOps(p, n)[1..] == Renames(p, n - 1);
    assert DoAll(f, RotateOps(p, n)) == DoAll(g, Renames(p, n - 1));
    RenamesSlot(p, g, n - 1, m);
    if m != n { SlotsDistinct(p, m, n); }
    if m >= 1 && m - 1 != n { SlotsDistinct(p, m - 1, n); }
  }

  lemma RotatedOther(p: Place, f: Files, q: Path)
    requires NoSlot(p, q)
    ensures Read(DoAll(f, RotateOps(p, SNAPSHOT_COUNT)), q) == Read(f, q)
  {
    hide Slot, Renames;
    var n := SNAPSHOT_COUNT;
    var g := Do(f, Op.Remove(Slot(p, n)));
    assert RotateOps(p, n)[1..] == Renames(p, n - 1);
    RenamesOther(p, g, n - 1, q);
  }

  // ----- one persist -----

  lemma MainNoSlot(p: Place)
    ensures NoSlot(p, Main(p)) && NoSlot(p, Tmp(p)) && Main(p) != Tmp(p)
  {
    SlotApart(p, 0);
    forall i | 1 <= i <= SNAPSHOT_COUNT ensures Main(p) != Slot(p, i) && Tmp(p) != Slot(p, i) {
      SlotApart(p, i);
    }
  }

  // What a persist leaves in every file.
  lemma Persisted(p: Place, f: Files, text: string, q: Path)
    requires NoSlot(p, q)
    ensures Read(DoAll(f, PersistOps(p, text)), q) ==
            if q == Main(p) then Some(text) else if q == Tmp(p) then None else Read(f, q)
  {
    hide Slot, Main, Tmp, RotateOps;
    MainNoSlot(p);
    var g := DoAll(f, RotateOps(p, SNAPSHOT_COUNT));
    RotatedOther(p, f, q);
    LastSteps(p, f, g, text);
    assert Slot(p, 1) != q;
  }

  lemma LastSteps(p: Place, f: Files, g: Files, text: string)
    requires g == DoAll(f, RotateOps(p, SNAPSHOT_COUNT))
    ensures DoAll(f, PersistOps(p, text)) ==
            Do(Do(Do(g, Copy(Main(p), Slot(p, 1))), Write(Tmp(p), text)), Rename(Tmp(p), Main(p)))
  {
    hide Slot, Main, Tmp, RotateOps, Do;
    var ops := [Copy(Main(p), Slot(p, 1)), Write(Tmp(p), text), Rename(Tmp(p), Main(p))];
    DoConcat(f, RotateOps(p, SNAPSHOT_COUNT), ops);
    var g1 := Do(g, ops[0]);
    assert DoAll(g, ops) == DoAll(g1, ops[1..]);
    var g2 := Do(g1, ops[1]);
    assert ops[1..][1..] == ops[2..] && ops[1..][0] == ops[1];
    assert DoAll(g1, ops[1..]) == DoAll(g2, ops[2..]);
    assert ops[2..][1..] == [];
    assert DoAll(g2, ops[2..]) == DoAll(Do(g2, ops[2]), []);
  }

  lemma PersistedSlot(p: Place, f: Files, text: string, m: nat)
    requires 1 <= m <= SNAPSHOT_COUNT
    ensures Read(DoAll(f, PersistOps(p, text)), Slot(p, m)) ==
            if m == 1 then Read(f, Main(p)) else Read(f, Slot(p, m - 1))
  {
    hide Slot, Main, Tmp, RotateOps;
    MainNoSlot(p);
    var g := DoAll(f, RotateOps(p, SNAPSHOT_COUNT));
    Rotated(p, f, m);
    RotatedOther(p, f, Main(p));
    LastSteps(p, f, g, text);
    assert Main(p) != Slot(p, m) && Tmp(p) != Slot(p, m) && Main(p) != Slot(p, 1) && Tmp(p) != Slot(p, 1);
    if m != 1 { SlotsDistinct(p, m, 1); }
  }

  // The main path after a persist that stopped anywhere: after any number of operations, and
  // even inside one that is not atomic, whose target may then hold anything.
  lemma OldOrNew(p: Place, f: Files, text: string, k: nat, junk: string)
    requires k <= |PersistOps(p, text)|
    ensures var ops := PersistOps(p, text);
      var g := DoAll(f, ops[..k]);
      var stopped := if k < |ops| && ops[k].Write? then g[ops[k].path := junk]
                     else if k < |ops| && ops[k].Copy? then g[ops[k].to := junk] else g;
      Read(stopped, Main(p)) == if k == |ops| then Some(text) else Read(f, Main(p))
  {
    hide Slot, Main, Tmp, RotateOps, PersistOps;
    var ops := PersistOps(p, text);
    MainNoSlot(p);
    if k == |ops| {
      assert ops[..k] == ops;
      Persisted(p, f, text, Main(p));
    } else {
      PersistTargets(p, text, k);
      PrefixKeepsMain(p, f, text, k);
    }
  }

  // Which operations write to the main path: only the last.
  predicate Spares(op: Op, q: Path) {
    match op
    case Remove(p) => p != q
    case Rename(a, b) => a != q && b != q
    case Copy(_, b) => b != q
    case Write(p, _) => p != q
  }

  lemma {:induction false} RenamesSpare(p: Place, hi: nat, k: nat)
    requires hi < SNAPSHOT_COUNT && k < |Renames(p, hi)|
    ensures Spares(Renames(p, hi)[k], Main(p))
    decreases hi
  {
    hide Slot, Main;
    MainNoSlot(p);
    if k > 0 {
      assert Renames(p, hi)[k] == Renames(p, hi - 1)[k - 1];
      RenamesSpare(p, hi - 1, k - 1);
    }
  }

  lemma PersistTargets(p: Place, text: string, k: nat)
    requires k < |PersistOps(p, text)|
    ensures k < |PersistOps(p, text)| - 1 ==> Spares(PersistOps(p, text)[k], Main(p))
    ensures PersistOps(p, text)[|PersistOps(p, text)| - 1].Rename?
  {
    hide Slot, Main, Tmp, Renames;
    MainNoSlot(p);
    var rotate := RotateOps(p, SNAPSHOT_COUNT);
    if k < |rotate| {
      if k > 0 {
        assert rotate[k] == Renames(p, SNAPSHOT_COUNT - 1)[k - 1];
        RenamesSpare(p, SNAPSHOT_COUNT - 1, k - 1);
      }
    }
  }

  lemma {:induction false} PrefixKeepsMain(p: Place, f: Files, text: string, k: nat)
    requires k < |PersistOps(p, text)|
    ensures Read(DoAll(f, PersistOps(p, text)[..k]), Main(p)) == Read(f, Main(p))
    decreases k
  {
    hide PersistOps, Main;
    var ops := PersistOps(p, text);
    if k > 0 {
      PrefixKeepsMain(p, f, text, k - 1);
      PersistTargets(p, text, k - 1);
      assert ops[..k] == ops[..k - 1] + [ops[k - 1]];
      DoConcat(f, ops[..k - 1], [ops[k - 1]]);
      var g := DoAll(f, ops[..k - 1]);
      assert DoAll(g, [ops[k - 1]]) == Do(g, ops[k - 1]) by { OneOp(g, ops[k - 1]); }
    } else {
      assert ops[..0] == [];
    }
  }

  lemma OneOp(f: Files, op: Op)
    ensures DoAll(f, [op]) == Do(f, op)
  {
    assert [op][1..] == [];
  }

  // ----- history -----

  // The files after the versions `vs` have been persisted, oldest first.
  predicate History(p: Place, f: Files, vs: seq<string>) {
    && Read(f, Main(p)) == (if vs == [] then None else Some(vs[|vs| - 1]))
    && Read(f, Tmp(p)).None?
    && forall i {:trigger Slot(p, i)} | 1 <= i <= SNAPSHOT_COUNT ::
         Read(f, Slot(p, i)) == if i < |vs| then Some(vs[|vs| - 1 - i]) else None
  }

  lemma PersistHistory(p: Place, f: Files, vs: seq<string>, text: string)
    requires History(p, f, vs)
    ensures History(p, DoAll(f, PersistOps(p, text)), vs + [text])
  {
    hide Slot, Main, Tmp, PersistOps, DoAll;
    var g, ws := DoAll(f, PersistOps(p, text)), vs + [text];
    MainNoSlot(p);
    Persisted(p, f, text, Main(p));
    Persisted(p, f, text, Tmp(p));
    forall i | 1 <= i <= SNAPSHOT_COUNT
      ensures Read(g, Slot(p, i)) == if i < |ws| then Some(ws[|ws| - 1 - i]) else None
    {
      PersistedSlot(p, f, text, i);
      if i > 1 { assert Read(f, Slot(p, i - 1)) == if i - 1 < |vs| then Some(vs[|vs| - i]) else None; }
    }
  }

  // ----- the service -----

  function WithService(r: Root, b: Body): Root {
    if r.services == [] then Root([b]) else Root(r.services[0 := b])
  }

  // The text a persist writes; None if the present file does not parse.
  function Merged(f: Files, p: Place, b: Body): Option<string> {
    match Read(f, Main(p))
    case None => Some(P.RootText(WithService(Root([]), b)))
    case Some(t) =>
      match Parse(t)
      case Err => None
      case Ok(r) => Some(P.RootText(WithService(r, b)))
  }

  // `persist_service_config`, when every file operation succeeds.
  function Persist(f: Files, p: Place, b: Body): (Files, bool) {
    match Merged(f, p, b)
    case None => (f, false)
    case Some(t) => (DoAll(f, PersistOps(p, t)), true)
  }

  function PersistAll(f: Files, p: Place, bs: seq<Body>): (Files, bool)
    decreases bs
  {
    hide Persist;
    if bs == [] then (f, true)
    else
      var (g, ok) := Persist(f, p, bs[0]);
      if ok then PersistAll(g, p, bs[1..]) else (g, false)
  }

  // The texts that are written, up to the first persist that fails.
  function Versions(f: Files, p: Place, bs: seq<Body>): seq<string>
    decreases bs
  {
    hide P.RootText, Parse, PersistOps, DoAll;
    if bs == [] || Merged(f, p, bs[0]).None? then []
    else
      var t := Merged(f, p, bs[0]).value;
      [t] + Versions(DoAll(f, PersistOps(p, t)), p, bs[1..])
  }

  // Any run of persists extends the history by what it writes, and succeeds if and only if
  // each of them writes something.
  lemma {:induction false} PersistRun(f: Files, p: Place, vs: seq<string>, bs: seq<Body>)
    requires History(p, f, vs)
    ensures var (g, ok) := PersistAll(f, p, bs);
      History(p, g, vs + Versions(f, p, bs)) && (ok <==> |Versions(f, p, bs)| == |bs|)
    ensures |Versions(f, p, bs)| <= |bs|
    decreases bs
  {
    hide History, Merged, PersistOps, DoAll;
    if bs == [] {
      assert vs + [] == vs;
    } else if Merged(f, p, bs[0]).None? {
      assert vs + [] == vs;
    } else {
      var t := Merged(f, p, bs[0]).value;
      var g := DoAll(f, PersistOps(p, t));
      PersistHistory(p, f, vs, t);
      PersistRun(g, p, vs + [t], bs[1..]);
      assert vs + [t] + Versions(g, p, bs[1..]) == vs + ([t] + Versions(g, p, bs[1..]));
    }
  }

  // What the versions are: each is the one before it with the service replaced, and the run
  // ends early only at a version that does not parse.
  ghost predicate Chain(before: Option<string>, vs: seq<string>, bs: seq<Body>)
    decreases vs
  {
    hide P.RootText, Parse;
    match Next(before, bs)
    case None => vs == []
    case Some(t) => vs != [] && vs[0] == t && Chain(Some(t), vs[1..], bs[1..])
  }

  function Next(before: Option<string>, bs: seq<Body>): Option<string> {
    hide P.RootText, Parse;
    if bs == [] then None
    else match before
      case None => Some(ServiceText(bs[0]))
      case Some(t) =>
        match Parse(t)
        case Err => None
        case Ok(r) => Some(P.RootText(WithService(r, bs[0])))
  }

  lemma {:induction false} VersionsChain(f: Files, p: Place, bs: seq<Body>)
    ensures Chain(Read(f, Main(p)), Versions(f, p, bs), bs)
    decreases bs
  {
    hide P.RootText, Parse, PersistOps, DoAll, Main;
    if bs != [] && Merged(f, p, bs[0]).Some? {
      var t := Merged(f, p, bs[0]).value;
      var g := DoAll(f, PersistOps(p, t));
      MainNoSlot(p);
      Persisted(p, f, t, Main(p));
      VersionsChain(g, p, bs[1..]);
      assert Versions(f, p, bs)[1..] == Versions(g, p, bs[1..]);
    }
  }

  // The text of a file that holds one service.
  function ServiceText(b: Body): string { P.RootText(Root([b])) }

  predicate CleanDirectory(f: Files, p: Place) {
    Main(p) !in f && Tmp(p) !in f && forall i | 1 <= i <= SNAPSHOT_COUNT :: Slot(p, i) !in f
  }

  // From a directory without configuration, whatever is persisted: the main file is the last
  // version written, slot i is the version i before it, and no other slot exists. All
  // persists succeed if and only if there is a version for each of them.
  lemma SnapshotHistory(f: Files, p: Place, bs: seq<Body>)
    requires CleanDirectory(f, p)
    ensures var (g, ok), vs := PersistAll(f, p, bs), Versions(f, p, bs);
      && (ok <==> |vs| == |bs|)
      && Chain(None, vs, bs)
      && Read(g, Main(p)) == (if vs == [] then None else Some(vs[|vs| - 1]))
      && forall i {:trigger Slot(p, i)} | 1 <= i <= SNAPSHOT_COUNT ::
           Read(g, Slot(p, i)) == if i < |vs| then Some(vs[|vs| - 1 - i]) else None
  {
    hide PersistAll, Versions, Slot, Main, Tmp, Chain;
    assert History(p, f, []);
    PersistRun(f, p, [], bs);
    assert [] + Versions(f, p, bs) == Versions(f, p, bs);
    VersionsChain(f, p, bs);
  }

  predicate AllPlain(bs: seq<Body>) { forall b | b in bs :: PlainBody(b) }

  function Texts(bs: seq<Body>): (ts: seq<string>)
    ensures |ts| == |bs| && forall i | 0 <= i < |bs| :: ts[i] == ServiceText(bs[i])
  {
    seq(|bs|, i requires 0 <= i < |bs| => ServiceText(bs[i]))
  }

  // Services of plain words are written as they are.
  lemma {:induction false} PlainChain(before: Option<Body>, vs: seq<string>, bs: seq<Body>)
    requires AllPlain(bs) && (before.Some? ==> PlainBody(before.value))
    requires Chain(if before.Some? then Some(ServiceText(before.value)) else None, vs, bs)
    ensures vs == Texts(bs)
    decreases bs
  {
    hide P.RootText, Parse, PlainBody;
    if bs != [] {
      if before.Some? {
        PlainRoundTrip(Root([before.value]));
        assert Root([before.value]).services[0 := bs[0]] == [bs[0]];
      }
      PlainChain(Some(bs[0]), vs[1..], bs[1..]);
      assert vs == [vs[0]] + vs[1..] && Texts(bs) == [ServiceText(bs[0])] + Texts(bs[1..]);
    }
  }

  // Then every persist succeeds, and version k is the text of the k-th service.
  lemma PlainHistory(f: Files, p: Place, bs: seq<Body>)
    requires CleanDirectory(f, p) && AllPlain(bs)
    ensures PersistAll(f, p, bs).1 && Versions(f, p, bs) == Texts(bs)
  {
    hide PersistAll, Versions, CleanDirectory, AllPlain, Texts, Chain, Slot, Main, ServiceText;
    SnapshotHistory(f, p, bs);
    PlainChain(None, Versions(f, p, bs), bs);
  }

  // Persisting touches nothing but the configuration, its snapshots and its sibling.
  lemma PersistElsewhere(f: Files, p: Place, b: Body, q: Path)
    requires NoSlot(p, q) && q != Main(p) && q != Tmp(p)
    ensures Read(Persist(f, p, b).0, q) == Read(f, q)
  {
    hide P.RootText, Parse, PersistOps, DoAll, Slot, Main, Tmp;
    if Merged(f, p, b).Some? {
      Persisted(p, f, Merged(f, p, b).value, q);
    }
  }

  // ----- the file system as an object -----

  class Disk {
    var files: Files

    constructor (f: Files)
      ensures files == f
    {
      files := f;
    }

    method Perform(op: Op)
      modifies this
      ensures files == Do(old(files), op)
    {
      files := Do(files, op);
    }

    // `rotate_snapshots`.
    method RotateSnapshots(p: Place, n: nat)
      modifies this
      ensures files == DoAll(old(files), RotateOps(p, n))
    {
      hide Slot, Do;
      if n == 0 {
        return;
      }
      Perform(Op.Remove(Slot(p, n)));
      assert RotateOps(p, n)[1..] == Renames(p, n - 1);
      var i := n - 1;
      while i > 0
        invariant 0 <= i < n
        invariant DoAll(files, Renames(p, i)) == DoAll(old(files), RotateOps(p, n))
      {
        assert Renames(p, i)[1..] == Renames(p, i - 1);
        Perform(Rename(Slot(p, i), Slot(p, i + 1)));
        i := i - 1;
      }
    }

    // `persist_service_config`.
    method PersistServiceConfig(p: Place, b: Body) returns (ok: bool)
      modifies this
      ensures (files, ok) == Persist(old(files), p, b)
    {
      hide Slot, Main, Tmp, Do, RotateOps, P.RootText, Parse;
      var existing := Root([]);
      if Main(p) in files {
        var parsed := Parse(files[Main(p)]);
        if parsed.Err? {
          return false;
        }
        existing := parsed.value;
      }
      var merged := P.RootText(WithService(existing, b));
      ghost var before := files;
      RotateSnapshots(p, SNAPSHOT_COUNT);
      LastSteps(p, before, files, merged);
      Perform(Copy(Main(p), Slot(p, 1)));
      Perform(Write(Tmp(p), merged));
      Perform(Rename(Tmp(p), Main(p)));
      return true;
    }
  }
}
