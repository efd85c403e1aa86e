// Configure sessions of many shells and the shared-lock handlers of the daemon, over all
// interleavings (conf/src/fs.rs, ggsh/src/cmd_configure.rs, ggsh/src/shell.rs). Taking the
// lock and giving it back are one step each.
module Sessions {
  import E = Edits
  import opened Grammar
  import opened Parser
  import opened Shell
  import opened Trees
  import opened Wrappers

  type Id = nat

  // The lock file: who holds it how, and what it contains (None: it does not exist).
  datatype Locks = Locks(exclusive: Option<Id>, shared: set<Id>, file: Option<string>)

  predicate Free(l: Locks) { l.exclusive.None? && l.shared == {} }

  // `acquire_exclusive_lock`: opening creates a missing file, and the UUID is written only
  // once the lock is held.
  function AcquireExclusive(l: Locks, i: Id, uuid: string): (Locks, bool) {
    if Free(l) then (l.(exclusive := Some(i), file := Some(uuid)), true)
      else (l.(file := Some(l.file.GetOr(""))), false)
  }

  function AcquireShared(l: Locks, h: Id): (Locks, bool) {
    if l.exclusive.None? then (l.(shared := l.shared + {h}, file := Some(l.file.GetOr(""))), true)
    else (l.(file := Some(l.file.GetOr(""))), false)
  }

  function ReleaseShared(l: Locks, h: Id): Locks { l.(shared := l.shared - {h}) }

  // Leaving configure mode removes the file and drops the lock.
  function ReleaseExclusive(l: Locks, i: Id): Locks
    requires l.exclusive == Some(i)
  {
    l.(exclusive := None, file := None)
  }

  // ----- the system -----

  datatype System = System(shells: map<Id, State>, locks: Locks)

  datatype Step =
    | Open(shell: Id)                                                     // a new shell starts
    | Type(shell: Id, tokens: seq<string>, file: File, daemonAccepts: bool) // a line at a prompt
    | Die(shell: Id)                                                      // a shell dies; its lock is dropped
    | Share(handler: Id)                                                  // a handler asks for the shared lock
    | Unshare(handler: Id)

  predicate TriesToConfigure(s: State, tokens: seq<string>, valid: Validator)
    requires Live(s)
  {
    var r := ParseLine(LevelTree(Top(s)), tokens, valid);
    r.Execution? && r.command.Configure?
  }

  // What a line does to the lock file. A session that could not read the configuration
  // leaves the file, one that could not parse it removes the file.
  function LockEffect(s: State, t: State, l: Locks, i: Id, uuid: string, tries: bool, file: File): Locks {
    if tries then
      var (m, ok) := AcquireExclusive(l, i, uuid);
      if !ok || t.locked then m
      else if file.Unreadable? then m.(exclusive := None) else m.(exclusive := None, file := None)
    else if s.locked && !t.locked && l.exclusive == Some(i) then ReleaseExclusive(l, i)
    else l
  }

  predicate Enabled(y: System, p: Step) {
    match p
    case Open(i) => i !in y.shells
    case Type(i, _, _, _) => i in y.shells && Live(y.shells[i])
    case Die(i) => i in y.shells
    case Share(h) => h !in y.locks.shared
    case Unshare(h) => h in y.locks.shared
  }

  function Next(y: System, p: Step, uuid: Id -> string, valid: Validator): System
    requires Enabled(y, p)
  {
    hide Line, TriesToConfigure;
    match p
    case Open(i) => y.(shells := y.shells[i := START])
    case Type(i, tokens, file, accepts) =>
      var s := y.shells[i];
      var (t, over) := Line(s, tokens, World(Free(y.locks), file, accepts), valid);
      var l := LockEffect(s, t, y.locks, i, uuid(i), TriesToConfigure(s, tokens, valid), file);
      System(if over then y.shells - {i} else y.shells[i := t], l)
    case Die(i) =>
      System(y.shells - {i}, if y.locks.exclusive == Some(i) then y.locks.(exclusive := None) else y.locks)
    case Share(h) => y.(locks := AcquireShared(y.locks, h).0)
    case Unshare(h) => y.(locks := ReleaseShared(y.locks, h))
  }

  // Exclusive means alone and named in the file; whoever holds anything, the file exists;
  // and a shell is in configure mode exactly when it is the exclusive holder.
  ghost predicate Safe(y: System, uuid: Id -> string) {
    && (y.locks.exclusive.Some? ==>
          && y.locks.shared == {}
          && y.locks.file == Some(uuid(y.locks.exclusive.value))
          && y.locks.exclusive.value in y.shells)
    && (y.locks.shared != {} ==> y.locks.file.Some?)
    && (forall i | i in y.shells :: Live(y.shells[i]) && (y.shells[i].locked <==> y.locks.exclusive == Some(i)))
  }

  // A line that does not ask for configure mode never takes the lock.
  lemma LineLocks(s: State, tokens: seq<string>, w: World, valid: Validator)
    requires Live(s)
    ensures var (t, over) := Line(s, tokens, w, valid);
      && (!over ==> Live(t))
      && (over ==> !t.locked && !s.locked)
      && (!s.locked && t.locked ==> TriesToConfigure(s, tokens, valid) && w.lockFree)
      && (TriesToConfigure(s, tokens, valid) ==> !s.locked && !over)
      && (TriesToConfigure(s, tokens, valid) && !w.lockFree ==> t == s)
  {
    hide ParseLine, LevelTree, Fits, EditOf, E.Apply, Parse;
    LineSafe(s, tokens, valid);
    LineKeepsValid(s, tokens, w, valid);
    LineFits(Top(s), tokens, valid);
    StackTop(s.levels);
    PopsToRoot(s.levels);
  }

  lemma StepSafe(y: System, p: Step, uuid: Id -> string, valid: Validator)
    requires Safe(y, uuid) && Enabled(y, p)
    ensures Safe(Next(y, p, uuid, valid), uuid)
  {
    hide Line, Live, TriesToConfigure;
    match p {
      case Type(i, tokens, file, accepts) => LineLocks(y.shells[i], tokens, World(Free(y.locks), file, accepts), valid);
      case Open(_) => assert Live(START) by { StartLive(); }
      case _ =>
    }
  }

  // ----- runs -----

  ghost predicate Executes(y: System, ps: seq<Step>, uuid: Id -> string, valid: Validator)
    decreases ps
  {
    hide Next, Enabled;
    ps == [] || (Enabled(y, ps[0]) && Executes(Next(y, ps[0], uuid, valid), ps[1..], uuid, valid))
  }

  function After(y: System, ps: seq<Step>, uuid: Id -> string, valid: Validator): System
    requires Executes(y, ps, uuid, valid)
    decreases ps
  {
    hide Next, Enabled;
    if ps == [] then y else After(Next(y, ps[0], uuid, valid), ps[1..], uuid, valid)
  }

  lemma {:induction false} RunSafe(y: System, ps: seq<Step>, uuid: Id -> string, valid: Validator)
    requires Safe(y, uuid) && Executes(y, ps, uuid, valid)
    ensures Safe(After(y, ps, uuid, valid), uuid)
    decreases ps
  {
    hide Safe, Next, Enabled;
    if ps != [] {
      StepSafe(y, ps[0], uuid, valid);
      RunSafe(Next(y, ps[0], uuid, valid), ps[1..], uuid, valid);
    }
  }

  // Nobody is logged in and nobody holds the lock, whatever file was left behind.
  function Idle(file: Option<string>): System { System(map[], Locks(None, {}, file)) }

  // If shell i is in configure mode, it alone holds the lock, the lock file names its UUID
  // and shell j is not in configure mode and has no candidate.
  predicate Excludes(y: System, uuid: Id -> string, i: Id, j: Id) {
    i in y.shells && ConfigureLevel in y.shells[i].levels ==>
      && y.locks == Locks(Some(i), {}, Some(uuid(i)))
      && (j in y.shells && j != i ==> ConfigureLevel !in y.shells[j].levels && y.shells[j].candidate.None?)
  }

  // Over every interleaving at most one shell is in configure mode, it shares with nobody,
  // and the lock file names its UUID.
  lemma SessionExclusion(file: Option<string>, ps: seq<Step>, uuid: Id -> string, valid: Validator, i: Id, j: Id)
    requires Executes(Idle(file), ps, uuid, valid)
    ensures Excludes(After(Idle(file), ps, uuid, valid), uuid, i, j)
  {
    hide Next, Enabled, Executes, After;
    assert Safe(Idle(file), uuid);
    RunSafe(Idle(file), ps, uuid, valid);
  }

  // Who gets a lock is decided by who holds one, and a rejected attempt changes nothing.
  lemma Rejection(y: System, uuid: Id -> string, i: Id, text: string)
    requires Safe(y, uuid)
    ensures var (l, ok) := AcquireExclusive(y.locks, i, text);
      (ok <==> Free(y.locks)) && (!ok ==> l == y.locks) && (ok ==> l == Locks(Some(i), {}, Some(text)))
    ensures var (l, ok) := AcquireShared(y.locks, i);
      (ok <==> y.locks.exclusive.None?) && (!ok ==> l == y.locks)
  {
  }

  // The same for a whole command line: `configure` while somebody holds the lock changes
  // neither the shell nor the lock file.
  lemma RejectedLine(y: System, p: Step, uuid: Id -> string, valid: Validator)
    requires Safe(y, uuid) && Enabled(y, p) && p.Type? && TriesToConfigure(y.shells[p.shell], p.tokens, valid)
    requires !Free(y.locks)
    ensures Next(y, p, uuid, valid) == y
  {
    hide Line, Live, TriesToConfigure;
    LineLocks(y.shells[p.shell], p.tokens, World(Free(y.locks), p.file, p.daemonAccepts), valid);
    Rejection(y, uuid, p.shell, uuid(p.shell));
    assert y.shells[p.shell := y.shells[p.shell]] == y.shells;
  }
}
