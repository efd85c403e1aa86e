// What a shell sends when it commits (ggsh/src/cmd_configure.rs): over every run of plain
// command lines, the text parses back to the candidate.
module Commits {
  import E = Edits
  import opened Ast
  import opened EditCommit
  import opened Grammar
  import opened Lexer
  import opened Parser
  import opened PlainForms
  import opened Shell
  import opened Trees
  import opened Wrappers

  predicate PlainWords(ws: seq<string>) { forall w | w in ws :: PlainWord(w) }

  // The arguments of a command are words of its line.
  lemma {:induction false} WalkPlain(nodes: seq<Node>, tokens: seq<string>, args: seq<string>, valid: Validator)
    requires tokens != [] && PlainWords(tokens) && PlainWords(args)
    ensures var r := Walk(nodes, tokens, args, valid); r.Execution? ==> PlainWords(r.args)
    decreases tokens
  {
    hide MatchNode, PlainWord;
    var m := MatchNode(tokens[0], nodes, valid);
    if m.Some? && |tokens| > 1 && m.value.children != [] {
      WalkPlain(m.value.children, tokens[1..], WithArg(args, m.value, tokens[0]), valid);
    }
  }

  lemma SetEditPlain(c: Command, args: seq<string>)
    requires Fits(c, |args|) && PlainWords(args) && SetEditOf(c, args).Some?
    ensures PlainEdit(SetEditOf(c, args).value)
  {
    hide PlainWord, PlainSetting;
    match c
    case SetTop(k) => assert PlainEdit(SetTopTyped(k, args[0]));
    case SetPeer(k) => assert PlainEdit(SetPeerTyped(k, args[0], args[1]));
    case _ =>
  }

  lemma UnsetEditPlain(c: Command, args: seq<string>)
    requires Fits(c, |args|) && UnsetEditOf(c, args).Some?
    ensures PlainEdit(UnsetEditOf(c, args).value)
  {
  }

  // Plain words make a plain command.
  lemma EditPlain(c: Command, args: seq<string>)
    requires IsEdit(c) && Fits(c, |args|) && PlainWords(args)
    ensures PlainEdit(EditOf(c, args))
  {
    hide SetEditOf, UnsetEditOf, PlainEdit, Fits, PlainWords;
    if SetEditOf(c, args).Some? {
      SetEditPlain(c, args);
    } else {
      assert UnsetEditOf(c, args).Some? by { EitherEdit(c, args); }
      UnsetEditPlain(c, args);
    }
  }

  lemma EitherEdit(c: Command, args: seq<string>)
    requires IsEdit(c) && Fits(c, |args|)
    ensures SetEditOf(c, args).Some? || UnsetEditOf(c, args).Some?
  {
  }

  // The file that configure mode starts from holds a plain configuration, if it parses at all.
  predicate PlainFile(w: World) {
    w.file.Contents? && Parse(w.file.text).Ok? ==> PlainRoot(Parse(w.file.text).value)
  }

  predicate PlainCandidate(s: State) { s.candidate.Some? ==> PlainRoot(s.candidate.value) }

  lemma EmptyFile()
    ensures Parse("") == Ok(Root([])) && PlainRoot(Root([]))
  {
    assert Tokenize("") == End;
  }

  lemma EnterKeepsPlain(s: State, w: World)
    requires PlainFile(w) && PlainCandidate(s)
    ensures PlainCandidate(EnterConfigure(s, w))
  {
    hide Parse, PlainRoot;
    EmptyFile();
  }

  // A line of plain words keeps the candidate plain.
  lemma LineKeepsPlain(s: State, input: Input, valid: Validator)
    requires Live(s) && PlainCandidate(s) && PlainWords(input.tokens) && PlainFile(input.world)
    ensures PlainCandidate(Line(s, input.tokens, input.world, valid).0)
  {
    hide LevelTree, Fits, EditOf, E.Apply, EnterConfigure, Walk, PlainEdit, PlainWords, PlainFile, PlainRoot;
    LineSafe(s, input.tokens, valid);
    EnterKeepsPlain(s, input.world);
    var r := ParseLine(LevelTree(Top(s)), input.tokens, valid);
    if r.Execution? && IsEdit(r.command) {
      NoWords();
      WalkPlain(LevelTree(Top(s)), input.tokens, [], valid);
      EditPlain(r.command, r.args);
      EditKeepsPlain(EditOf(r.command, r.args), s.candidate.value);
    }
  }

  lemma NoWords()
    ensures PlainWords([])
  {
  }

  ghost predicate PlainInputs(inputs: seq<Input>) {
    forall i | i in inputs :: PlainWords(i.tokens) && PlainFile(i.world)
  }

  lemma {:induction false} RunKeepsPlain(s: State, inputs: seq<Input>, valid: Validator)
    requires Live(s) && PlainCandidate(s) && PlainInputs(inputs)
    ensures var r := Run(s, inputs, valid); r.Some? ==> PlainCandidate(r.value)
    decreases inputs
  {
    hide Line, Live, PlainCandidate, PlainWords, PlainFile;
    if inputs != [] {
      LineKeepsValid(s, inputs[0].tokens, inputs[0].world, valid);
      LineKeepsPlain(s, inputs[0], valid);
      var (t, over) := Line(s, inputs[0].tokens, inputs[0].world, valid);
      if !over { RunKeepsPlain(t, inputs[1..], valid); }
    }
  }

  predicate CommitParses(s: State) {
    s.candidate.Some? ==> Parse(CommitText(s)) == Ok(s.candidate.value)
  }

  // Whatever plain lines are typed and however the world answers: whenever there is a
  // candidate, the text a commit would send parses back to it.
  lemma CommitAlwaysParses(inputs: seq<Input>, valid: Validator)
    requires PlainInputs(inputs)
    ensures var r := RunFromStart(inputs, valid); r.Some? ==> CommitParses(r.value)
  {
    hide Run, PlainRoot, Parse, PlainInputs, Live;
    StartLive();
    RunKeepsPlain(START, inputs, valid);
    var r := RunFromStart(inputs, valid);
    if r.Some? && r.value.candidate.Some? {
      PlainRoundTrip(r.value.candidate.value);
    }
  }
}
