// The shell as a state machine (ggsh/src/shell.rs, ggsh/src/cmd_configure.rs): the level
// stack, the candidate and the session lock over every run of command lines.
module Shell {
  import E = Edits
  import P = Printer
  import opened Ast
  import opened EditCommit
  import opened EditLoops
  import opened Grammar
  import opened Parser
  import opened Trees
  import opened Wrappers

  const FULL_STACK := [RootLevel, ConfigureLevel, BgpServiceLevel]

  datatype State = State(levels: seq<Level>, candidate: Option<Root>, locked: bool)

  const START := State([RootLevel], None, false)

  // What the world answers while one command runs: whether the exclusive lock is free, what
  // the configuration file holds, whether the daemon can be reached and takes the commit.
  datatype File = Contents(text: string) | Missing | Unreadable
  datatype World = World(lockFree: bool, file: File, daemonAccepts: bool)

  // In every reachable state of a live shell.
  predicate Live(s: State) {
    && s.levels != [] && s.levels <= FULL_STACK
    && s.candidate.Some? == (ConfigureLevel in s.levels)
    && s.locked == (ConfigureLevel in s.levels)
  }

  function Top(s: State): Level
    requires s.levels != []
  {
    s.levels[|s.levels| - 1]
  }

  // `enter_level` demands the right parent.
  function EnterLevel(s: State, l: Level): (State, bool) {
    if l.RootLevel? || s.levels == [] then (s, false)
    else if Top(s) != (if l.ConfigureLevel? then RootLevel else ConfigureLevel) then (s, false)
    else (s.(levels := s.levels + [l]), true)
  }

  // `exit_level`: leaving the root ends the shell.
  function ExitLevel(s: State): (State, bool) {
    if s.levels == [] then (s, true)
    else
      var rest := s.levels[..|s.levels| - 1];
      match Top(s)
      case BgpServiceLevel => (s.(levels := rest), false)
      case ConfigureLevel => (State(rest, None, false), false)
      case RootLevel => (s.(levels := rest), true)
  }

  // The lock is taken first; if the file cannot be read or parsed it is given back.
  function EnterConfigure(s: State, w: World): State {
    if s.levels == [] || Top(s) != RootLevel || !w.lockFree || w.file.Unreadable? then s
    else
      match Parse(if w.file.Contents? then w.file.text else "")
      case Err => s
      case Ok(root) => EnterLevel(s.(candidate := Some(root)).(locked := true), ConfigureLevel).0
  }

  // The text a commit sends: the candidate is there whenever the level asks for it.
  function CommitText(s: State): string
    requires s.candidate.Some?
  {
    P.RootText(s.candidate.value)
  }

  // `while !matches!(levels.last(), Root | None) { pop }`.
  function PopToRoot(levels: seq<Level>): seq<Level> {
    if levels == [] || levels[|levels| - 1] == RootLevel then levels else PopToRoot(levels[..|levels| - 1])
  }

  function CommitConfigure(s: State, w: World): State {
    if s.levels == [] || Top(s) == RootLevel || !w.daemonAccepts then s else State(PopToRoot(s.levels), None, false)
  }

  // The `set` commands, with their words read; None for the others.
  function SetEditOf(c: Command, args: seq<string>): Option<E.Edit>
    requires Fits(c, |args|)
  {
    match c
    case SetTop(k) => Some(SetTopTyped(k, args[0]))
    case SetTopOriginate => Some(E.SetOriginate(args[0], args[1]))
    case SetPeer(k) => Some(SetPeerTyped(k, args[0], args[1]))
    case SetPeerFamily(d) => Some(E.SetFamily(d, args[0], ParseFamily(args[1], args[2]), args[3]))
    case SetPolicyMatch => Some(E.SetMatch(args[0], args[1], args[2]))
    case SetPolicyDefault => Some(E.SetDefault(args[0], args[1]))
    case SetPrefixListEntry => Some(E.SetEntry(args[0], args[1]))
    case SetBmpServer => Some(E.SetBmp(args[0], ParseU64(args[1])))
    case SetRpkiCache(k) => Some(E.SetRpki(k, args[0], ParseCacheField(k, args[1])))
    case SetBgpLs => Some(E.SetBgpLs(ParseU64(args[0])))
    case SetTelemetryJson => Some(E.SetJson)
    case SetTelemetryEmf => Some(E.SetEmf(args[0]))
    case SetTelemetryPrometheus => Some(E.SetPrometheus)
    case SetTelemetryListen => Some(E.SetListen(args[0]))
    case _ => None
  }

  // The `unset` commands.
  function UnsetEditOf(c: Command, args: seq<string>): Option<E.Edit>
    requires Fits(c, |args|)
  {
    match c
    case UnsetTop(k) => Some(E.UnsetTop(k))
    case UnsetTopOriginate => Some(E.UnsetOriginate(args[0]))
    case UnsetPeer => Some(E.UnsetPeer(args[0]))
    case UnsetPeerSetting(k) => Some(E.UnsetPeerSetting(k, args[0]))
    case UnsetPeerFamily => Some(E.UnsetFamily(args[0], ParseFamily(args[1], args[2])))
    case UnsetPeerDirective(d) => Some(E.UnsetDirective(d, args[0], ParseFamily(args[1], args[2])))
    case UnsetPolicy => Some(E.UnsetPolicy(args[0]))
    case UnsetPrefixList => Some(E.UnsetPrefixList(args[0]))
    case UnsetPrefixListEntry => Some(E.UnsetEntry(args[0], args[1]))
    case UnsetBmpServer => Some(E.UnsetBmp(args[0]))
    case UnsetBmpTimeout => Some(E.UnsetBmpTimeout(args[0]))
    case UnsetRpkiCache => Some(E.UnsetRpki(args[0]))
    case UnsetRpkiField(k) => Some(E.UnsetRpkiField(k, args[0]))
    case UnsetBgpLs => Some(E.UnsetBgpLs)
    case UnsetBgpLsSetting => Some(E.UnsetBgpLsSetting)
    case UnsetTelemetry => Some(E.UnsetTelemetry)
    case UnsetTelemetryJson => Some(E.UnsetJson)
    case UnsetTelemetryEmf => Some(E.UnsetEmf)
    case UnsetTelemetryPrometheus => Some(E.UnsetPrometheus)
    case UnsetTelemetryListen => Some(E.UnsetListen)
    case _ => None
  }

  // Every editing command is one or the other.
  function EditOf(c: Command, args: seq<string>): E.Edit
    requires IsEdit(c) && Fits(c, |args|)
  {
    if SetEditOf(c, args).Some? then SetEditOf(c, args).value else UnsetEditOf(c, args).value
  }

  // `execute`: the new state and whether the shell ends. Its demands are that every index
  // into the arguments is there, and a candidate for the commands that unwrap one.
  function Execute(s: State, c: Command, args: seq<string>, w: World): (State, bool)
    requires Fits(c, |args|) && (IsEdit(c) ==> s.candidate.Some?)
    requires c.Commit? && s.levels != [] && !Top(s).RootLevel? ==> s.candidate.Some?
  {
    if c.Exit? then ExitLevel(s)
    else if c.Configure? then (EnterConfigure(s, w), false)
    else if c.EnterBgp? then (EnterLevel(s, BgpServiceLevel).0, false)
    else if c.Commit? then (CommitConfigure(s, w), false)
    else if IsEdit(c) then (s.(candidate := Some(E.Apply(EditOf(c, args), s.candidate.value).0)), false)
    else (s, false)
  }

  // One command line at the prompt of the current level.
  function Line(s: State, tokens: seq<string>, w: World, valid: Validator): (State, bool)
    requires Live(s)
  {
    hide ParseLine, LevelTree, Fits, EditOf, ExitLevel, EnterConfigure, CommitConfigure, EnterLevel;
    LineSafe(s, tokens, valid);
    var r := ParseLine(LevelTree(Top(s)), tokens, valid);
    if r.Execution? then Execute(s, r.command, r.args, w) else (s, false)
  }

  // Accepted lines meet every demand of the dispatcher.
  lemma LineSafe(s: State, tokens: seq<string>, valid: Validator)
    requires Live(s)
    ensures var r := ParseLine(LevelTree(Top(s)), tokens, valid);
      r.Execution? ==>
        && Fits(r.command, |r.args|)
        && (IsEdit(r.command) || r.command.Commit? || r.command.ShowCandidate? || r.command.ShowDiff? ==>
              s.candidate.Some?)
  {
    hide ParseLine, LevelTree, Fits;
    LineFits(Top(s), tokens, valid);
    StackTop(s.levels);
  }

  lemma StackTop(levels: seq<Level>)
    requires levels != [] && levels <= FULL_STACK
    ensures levels[|levels| - 1] != RootLevel <==> ConfigureLevel in levels
    ensures levels[|levels| - 1] == FULL_STACK[|levels| - 1]
    ensures |levels| == 1 ==> levels == [RootLevel]
    ensures |levels| == 2 ==> levels == [RootLevel, ConfigureLevel]
    ensures |levels| == 3 ==> levels == FULL_STACK
  {
  }

  lemma {:induction false} PopsToRoot(levels: seq<Level>)
    requires levels != [] && levels <= FULL_STACK
    ensures PopToRoot(levels) == [RootLevel]
  {
    StackTop(levels);
    if |levels| > 1 {
      var rest := levels[..|levels| - 1];
      assert rest <= FULL_STACK;
      PopsToRoot(rest);
    }
  }

  lemma EnterKeepsValid(s: State, w: World)
    requires Live(s)
    ensures Live(EnterConfigure(s, w)) && Live(EnterLevel(s, BgpServiceLevel).0)
  {
    hide Parse;
    StackTop(s.levels);
    assert [RootLevel] + [ConfigureLevel] == FULL_STACK[..2];
    assert [RootLevel, ConfigureLevel] + [BgpServiceLevel] == FULL_STACK;
  }

  lemma ExitKeepsValid(s: State, w: World)
    requires Live(s)
    ensures !ExitLevel(s).1 ==> Live(ExitLevel(s).0)
    ensures Live(CommitConfigure(s, w))
  {
    StackTop(s.levels);
    PopsToRoot(s.levels);
    var rest := s.levels[..|s.levels| - 1];
    assert rest <= FULL_STACK;
    if rest != [] { StackTop(rest); }
  }

  // Every step of a live shell keeps its state valid.
  lemma LineKeepsValid(s: State, tokens: seq<string>, w: World, valid: Validator)
    requires Live(s)
    ensures var (t, over) := Line(s, tokens, w, valid); !over ==> Live(t)
  {
    hide ParseLine, LevelTree, Fits, EditOf, E.Apply, EnterConfigure, ExitLevel, CommitConfigure, EnterLevel;
    LineSafe(s, tokens, valid);
    EnterKeepsValid(s, w);
    ExitKeepsValid(s, w);
  }

  // ----- runs -----

  datatype Input = Input(tokens: seq<string>, world: World)

  // The state after a run, None once the shell has ended.
  function Run(s: State, inputs: seq<Input>, valid: Validator): Option<State>
    requires Live(s)
    decreases inputs
  {
    hide Line, Live;
    if inputs == [] then Some(s)
    else
      LineKeepsValid(s, inputs[0].tokens, inputs[0].world, valid);
      var (t, over) := Line(s, inputs[0].tokens, inputs[0].world, valid);
      if over then None else Run(t, inputs[1..], valid)
  }

  lemma {:induction false} RunKeepsValid(s: State, inputs: seq<Input>, valid: Validator)
    requires Live(s)
    ensures var r := Run(s, inputs, valid); r.Some? ==> Live(r.value)
    decreases inputs
  {
    hide Line, Live;
    if inputs != [] {
      LineKeepsValid(s, inputs[0].tokens, inputs[0].world, valid);
      var (t, over) := Line(s, inputs[0].tokens, inputs[0].world, valid);
      if !over { RunKeepsValid(t, inputs[1..], valid); }
    }
  }

  lemma StartLive()
    ensures Live(START)
  {
  }

  function RunFromStart(inputs: seq<Input>, valid: Validator): Option<State> {
    hide Line;
    StartLive();
    Run(START, inputs, valid)
  }

  // Whatever is typed and however the world answers, a shell that is still alive has a
  // prefix of the full stack, and a candidate and a lock exactly in configure mode.
  lemma AlwaysValid(inputs: seq<Input>, valid: Validator)
    ensures var r := RunFromStart(inputs, valid);
      r.Some? ==>
        && r.value.levels in [[RootLevel], [RootLevel, ConfigureLevel], FULL_STACK]
        && (r.value.candidate.Some? <==> ConfigureLevel in r.value.levels)
        && (r.value.locked <==> ConfigureLevel in r.value.levels)
  {
    hide Run;
    StartLive();
    RunKeepsValid(START, inputs, valid);
    var r := RunFromStart(inputs, valid);
    if r.Some? {
      StackTop(r.value.levels);
    }
  }

  // ----- the shell object -----

  class ShellObject {
    var levels: seq<Level>
    var candidate: Option<Root>
    var locked: bool

    function Now(): State
      reads this
    {
      State(levels, candidate, locked)
    }

    constructor ()
      ensures Now() == START
    {
      levels, candidate, locked := [RootLevel], None, false;
    }

    method Enter(l: Level) returns (ok: bool)
      modifies this`levels
      ensures (Now(), ok) == EnterLevel(old(Now()), l)
    {
      if l == RootLevel || levels == [] {
        return false;
      }
      var parent := if l == ConfigureLevel then RootLevel else ConfigureLevel;
      if levels[|levels| - 1] != parent {
        return false;
      }
      levels := levels + [l];
      return true;
    }

    method Leave() returns (over: bool)
      modifies this
      ensures (Now(), over) == ExitLevel(old(Now()))
    {
      if levels == [] {
        return true;
      }
      var top := levels[|levels| - 1];
      levels := levels[..|levels| - 1];
      if top == ConfigureLevel {
        locked := false;
        candidate := None;
      }
      over := top == RootLevel;
    }

    method Configure(w: World)
      modifies this
      ensures Now() == EnterConfigure(old(Now()), w)
    {
      if levels == [] || levels[|levels| - 1] != RootLevel || !w.lockFree || w.file.Unreadable? {
        return;
      }
      var parsed := Parse(if w.file.Contents? then w.file.text else "");
      if parsed.Err? {
        return;
      }
      candidate := Some(parsed.value);
      locked := true;
      var _ := Enter(ConfigureLevel);
    }

    method Commit(w: World)
      modifies this
      ensures Now() == CommitConfigure(old(Now()), w)
    {
      if levels == [] || levels[|levels| - 1] == RootLevel || !w.daemonAccepts {
        return;
      }
      while levels != [] && levels[|levels| - 1] != RootLevel
        invariant PopToRoot(levels) == PopToRoot(old(levels))
        decreases |levels|
      {
        levels := levels[..|levels| - 1];
      }
      locked := false;
      candidate := None;
    }

    method Run(tokens: seq<string>, w: World, valid: Validator) returns (over: bool)
      requires Live(Now())
      modifies this
      ensures (Now(), over) == Line(old(Now()), tokens, w, valid)
      ensures !over ==> Live(Now())
    {
      hide ParseLine, LevelTree, Fits, EditOf, E.Apply, EnterConfigure, ExitLevel, CommitConfigure, EnterLevel;
      LineKeepsValid(Now(), tokens, w, valid);
      LineSafe(Now(), tokens, valid);
      over := false;
      var r := ParseLoop(LevelTree(levels[|levels| - 1]), tokens, valid);
      if r.Execution? {
        if r.command.Exit? {
          over := Leave();
        } else if r.command.Configure? {
          Configure(w);
        } else if r.command.EnterBgp? {
          var _ := Enter(BgpServiceLevel);
        } else if r.command.Commit? {
          Commit(w);
        } else if IsEdit(r.command) {
          var c := new Candidate(candidate.value);
          var _ := c.Perform(EditOf(r.command, r.args));
          candidate := Some(Root(c.services));
        }
      }
    }
  }
}
