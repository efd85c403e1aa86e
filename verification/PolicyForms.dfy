// Rendering a policy and lowering it again (conf/src/bgp.rs): the result is the normal form.
module PolicyForms {
  import opened Ast
  import opened Lowering
  import opened Wrappers

  // ----- conditions -----

  function KindOf(m: MatchClause): nat {
    match m
    case PrefixSet(_) => 0
    case NeighborSet(_) => 1
    case AsPathSet(_) => 2
    case CommunitySet(_) => 3
    case ExtCommunitySet(_) => 4
    case LargeCommunitySet(_) => 5
    case Prefix(_) => 6
    case Neighbor(_) => 7
    case HasAsn(_) => 8
    case RouteType(_) => 9
    case Community(_) => 10
    case Rpki(_) => 11
    case AfiSafi(_) => 12
    case LsNlriType(_) => 13
    case LsProtocolId(_) => 14
    case LsInstanceId(_) => 15
    case LsNodeAs(_) => 16
    case LsNodeRouterId(_) => 17
  }

  // A clause sets its own condition and no other.
  lemma ApplyMatchAt(c: ConditionsConfig, m: MatchClause, k: nat)
    ensures ClauseAt(ApplyMatch(c, m), k) == if k == KindOf(m) then Some(m) else ClauseAt(c, k)
  {
  }

  lemma ClauseKind(c: ConditionsConfig, k: nat)
    ensures ClauseAt(c, k).Some? ==> KindOf(ClauseAt(c, k).value) == k
  {
  }

  // Conditions are determined by their clauses.
  lemma ClausesDetermine(c: ConditionsConfig, d: ConditionsConfig)
    requires forall k | 0 <= k < CONDITIONS :: ClauseAt(c, k) == ClauseAt(d, k)
    ensures c == d
  {
    assert ClauseAt(c, 0) == ClauseAt(d, 0);
    assert ClauseAt(c, 1) == ClauseAt(d, 1);
    assert ClauseAt(c, 2) == ClauseAt(d, 2);
    assert ClauseAt(c, 3) == ClauseAt(d, 3);
    assert ClauseAt(c, 4) == ClauseAt(d, 4);
    assert ClauseAt(c, 5) == ClauseAt(d, 5);
    assert ClauseAt(c, 6) == ClauseAt(d, 6);
    assert ClauseAt(c, 7) == ClauseAt(d, 7);
    assert ClauseAt(c, 8) == ClauseAt(d, 8);
    assert ClauseAt(c, 9) == ClauseAt(d, 9);
    assert ClauseAt(c, 10) == ClauseAt(d, 10);
    assert ClauseAt(c, 11) == ClauseAt(d, 11);
    assert ClauseAt(c, 12) == ClauseAt(d, 12);
    assert ClauseAt(c, 13) == ClauseAt(d, 13);
    assert ClauseAt(c, 14) == ClauseAt(d, 14);
    assert ClauseAt(c, 15) == ClauseAt(d, 15);
    assert ClauseAt(c, 16) == ClauseAt(d, 16);
    assert ClauseAt(c, 17) == ClauseAt(d, 17);
  }

  lemma {:induction false} ClausesApply(c: ConditionsConfig, k: nat, d: ConditionsConfig, j: nat)
    requires k <= CONDITIONS && j < CONDITIONS
    ensures ClauseAt(ApplyMatches(d, ClausesFrom(c, k)), j) ==
            if j >= k && ClauseAt(c, j).Some? then ClauseAt(c, j) else ClauseAt(d, j)
    decreases CONDITIONS - k
  {
    hide ClauseAt, ApplyMatch;
    if k < CONDITIONS {
      var rest := ClausesFrom(c, k + 1);
      if ClauseAt(c, k).Some? {
        var m := ClauseAt(c, k).value;
        ClauseKind(c, k);
        ApplyMatchAt(d, m, j);
        assert ([m] + rest)[1..] == rest;
        ClausesApply(c, k + 1, ApplyMatch(d, m), j);
      } else {
        assert [] + rest == rest;
        ClausesApply(c, k + 1, d, j);
      }
    }
  }

  lemma ConditionsBack(c: ConditionsConfig)
    ensures ApplyMatches(NO_CONDITIONS, RenderConditions(c)) == c
  {
    hide ApplyMatches, ClausesFrom, ClauseAt;
    var d := ApplyMatches(NO_CONDITIONS, RenderConditions(c));
    forall j | 0 <= j < CONDITIONS ensures ClauseAt(d, j) == ClauseAt(c, j) {
      ClausesApply(c, 0, NO_CONDITIONS, j);
      NoClause(j);
    }
    ClausesDetermine(d, c);
  }

  lemma NoClause(j: nat)
    ensures ClauseAt(NO_CONDITIONS, j).None?
  {
  }

  // ----- actions -----

  // What the language can say: one disposition at most, known community operations.
  predicate Renderable(s: StatementConfig) {
    OpsKnown(s.actions) && !(Truth(s.actions.accept) && Truth(s.actions.reject))
  }

  // Explicit `false` dispositions dropped, a local preference that is not forced written as
  // a plain one, a MED removal flagged.
  function Normal(s: StatementConfig): StatementConfig {
    s.(actions := NormalActions(s.actions))
  }

  function NormalActions(a: ActionsConfig): ActionsConfig {
    ActionsConfig(
      if Truth(a.accept) then Some(true) else None,
      if Truth(a.reject) then Some(true) else None,
      if a.localPref.Some? then Some(NormalPref(a.localPref.value)) else None,
      if a.med.Some? && a.med.value.RemoveMed? then Some(RemoveMed(true)) else a.med,
      a.community, a.extCommunity, a.largeCommunity, a.rpkiState)
  }

  function NormalPref(p: LocalPrefAction): LocalPrefAction {
    if p.ForcePref? && !p.force then SetPref(p.value) else p
  }

  lemma {:induction false} SetsConcat(a: ActionsConfig, x: seq<SetClause>, y: seq<SetClause>)
    ensures ApplySets(a, x + y) == ApplySets(ApplySets(a, x), y)
    decreases x
  {
    if x == [] {
      assert x + y == y;
    } else {
      assert (x + y)[1..] == x[1..] + y;
      SetsConcat(ApplySet(a, x[0]), x[1..], y);
    }
  }

  lemma OpBack(a: CommunityAction)
    requires OpOf(a.operation).Some?
    ensures CommunityConfig(RenderCommunity(a).value) == a
  {
  }

  lemma PrefBack(a: ActionsConfig, d: ActionsConfig)
    requires d == NO_ACTIONS
    ensures ApplySets(d, RenderPref(a)) == d.(localPref := NormalActions(a).localPref)
  {
  }

  lemma MedBack(a: ActionsConfig, d: ActionsConfig)
    requires d.med.None?
    ensures ApplySets(d, RenderMed(a)) == d.(med := NormalActions(a).med)
  {
  }

  lemma CommunitiesBack(a: ActionsConfig, d: ActionsConfig)
    requires OpsKnown(a) && d.community.None? && d.extCommunity.None? && d.largeCommunity.None?
    ensures ApplySets(d, RenderCommunities(a)) ==
            d.(community := a.community).(extCommunity := a.extCommunity).(largeCommunity := a.largeCommunity)
  {
    hide OpOf, OpText;
    var l0 := if a.community.Some? then [SetCommunity(RenderCommunity(a.community.value).value)] else [];
    var l1 := if a.extCommunity.Some? then [SetExtCommunity(RenderCommunity(a.extCommunity.value).value)] else [];
    var l2 := if a.largeCommunity.Some? then [SetLargeCommunity(RenderCommunity(a.largeCommunity.value).value)] else [];
    if a.community.Some? { OpBack(a.community.value); }
    if a.extCommunity.Some? { OpBack(a.extCommunity.value); }
    if a.largeCommunity.Some? { OpBack(a.largeCommunity.value); }
    var d1 := d.(community := a.community);
    var d2 := d1.(extCommunity := a.extCommunity);
    SetsConcat(d, l0, l1 + l2);
    assert ApplySets(d, l0) == d1;
    SetsConcat(d1, l1, l2);
    assert ApplySets(d1, l1) == d2;
    assert ApplySets(d2, l2) == d2.(largeCommunity := a.largeCommunity);
  }

  lemma SetsBack(a: ActionsConfig)
    requires OpsKnown(a)
    ensures ApplySets(NO_ACTIONS, RenderSets(a)) == NormalActions(a).(accept := None, reject := None)
  {
    hide ApplySets, RenderPref, RenderMed, RenderCommunities, OpOf;
    var l3 := if a.rpkiState.Some? then [SetRpkiState(a.rpkiState.value)] else [];
    var n := NormalActions(a);
    var d1 := NO_ACTIONS.(localPref := n.localPref);
    SetsConcat(NO_ACTIONS, RenderPref(a), RenderMed(a) + (RenderCommunities(a) + l3));
    PrefBack(a, NO_ACTIONS);
    var d2 := d1.(med := n.med);
    SetsConcat(d1, RenderMed(a), RenderCommunities(a) + l3);
    MedBack(a, d1);
    var d3 := d2.(community := a.community).(extCommunity := a.extCommunity).(largeCommunity := a.largeCommunity);
    SetsConcat(d2, RenderCommunities(a), l3);
    CommunitiesBack(a, d2);
    StateBack(a, d3);
  }

  lemma StateBack(a: ActionsConfig, d: ActionsConfig)
    requires d.rpkiState.None?
    ensures ApplySets(d, if a.rpkiState.Some? then [SetRpkiState(a.rpkiState.value)] else []) ==
            d.(rpkiState := a.rpkiState)
  {
  }

  // ----- statements and policies -----

  lemma StatementBack(s: StatementConfig)
    ensures RenderStatement(s).Some? <==> Renderable(s)
    ensures Renderable(s) ==> LowerStatement(RenderStatement(s).value) == Normal(s)
  {
    hide RenderConditions, ApplyMatches, ApplySets, RenderSets, OpsKnown;
    if Renderable(s) {
      ConditionsBack(s.conditions);
      SetsBack(s.actions);
    }
  }

  // The shorthand denotes the statement that the full form denotes.
  lemma ShorthandDenotes(s: StatementConfig)
    requires Shorthand(s).Some?
    ensures Renderable(s)
    ensures LowerRule(Shorthand(s).value) == LowerRule(StatementRule(RenderStatement(s).value))
    ensures LowerRule(Shorthand(s).value) == Some(Normal(s))
  {
    hide RenderConditions, ApplyMatches, ApplySets, RenderSets;
    StatementBack(s);
    assert s.conditions == NO_CONDITIONS.(prefixSet := s.conditions.prefixSet);
    assert NormalActions(s.actions) == LowerAction(RenderAction(s.actions).value).value;
  }

  lemma RuleBack(s: StatementConfig)
    ensures RenderRule(s).Some? <==> Renderable(s)
    ensures Renderable(s) ==> LowerRule(RenderRule(s).value) == Some(Normal(s))
  {
    hide Shorthand, LowerStatement, RenderStatement, LowerAction, Renderable;
    StatementBack(s);
    if Shorthand(s).Some? {
      ShorthandDenotes(s);
    }
  }

  predicate RenderableAll(ss: seq<StatementConfig>) {
    forall s | s in ss :: Renderable(s)
  }

  function NormalAll(ss: seq<StatementConfig>): seq<StatementConfig> {
    seq(|ss|, i requires 0 <= i < |ss| => Normal(ss[i]))
  }

  lemma {:induction false} RulesBack(ss: seq<StatementConfig>)
    ensures RenderRules(ss).Some? <==> RenderableAll(ss)
    ensures RenderableAll(ss) ==> LowerRules(RenderRules(ss).value) == Some(NormalAll(ss))
  {
    hide LowerRule, RenderRule, Renderable, Normal;
    if ss == [] {
      assert NormalAll(ss) == [];
    } else {
      RuleBack(ss[0]);
      RulesBack(ss[1..]);
      assert RenderableAll(ss) <==> Renderable(ss[0]) && RenderableAll(ss[1..]);
      if RenderableAll(ss) {
        var rs := RenderRules(ss).value;
        assert rs[1..] == RenderRules(ss[1..]).value;
        assert NormalAll(ss) == [Normal(ss[0])] + NormalAll(ss[1..]);
      }
    }
  }

  // A policy can be rendered exactly when all its statements can, and lowering the block
  // gives the normal form of every statement, in order.
  lemma PolicyBack(p: PolicyConfig)
    ensures RenderPolicy(p).Some? <==> RenderableAll(p.statements)
    ensures RenderPolicy(p).Some? ==>
              LowerPolicy(RenderPolicy(p).value) == Some(PolicyConfig(p.name, NormalAll(p.statements)))
  {
    hide RenderRules, LowerRules;
    RulesBack(p.statements);
  }

  // ----- lowered policies are in normal form -----

  predicate NormalForm(s: StatementConfig) {
    Renderable(s) && Normal(s) == s
  }

  // What `set` clauses can leave behind.
  predicate SetForm(a: ActionsConfig) {
    && OpsKnown(a)
    && a.accept.None? && a.reject.None?
    && (a.localPref.Some? && a.localPref.value.ForcePref? ==> a.localPref.value.force)
    && (a.med.Some? && a.med.value.RemoveMed? ==> a.med.value.remove)
  }

  lemma {:induction false} SetsForm(a: ActionsConfig, cs: seq<SetClause>)
    requires SetForm(a)
    ensures SetForm(ApplySets(a, cs))
    decreases cs
  {
    if cs != [] {
      SetFormStep(a, cs[0]);
      SetsForm(ApplySet(a, cs[0]), cs[1..]);
    }
  }

  lemma SetFormStep(a: ActionsConfig, c: SetClause)
    requires SetForm(a)
    ensures SetForm(ApplySet(a, c))
  {
  }

  lemma LoweredRule(r: PolicyRule)
    requires LowerRule(r).Some?
    ensures NormalForm(LowerRule(r).value)
  {
    hide ApplySets, ApplyMatches;
    if r.StatementRule? {
      SetsForm(NO_ACTIONS, r.statement.sets);
    }
  }

  lemma {:induction false} LoweredRules(rs: seq<PolicyRule>)
    requires LowerRules(rs).Some?
    ensures forall s | s in LowerRules(rs).value :: NormalForm(s)
  {
    hide LowerRule, NormalForm;
    if rs != [] {
      LoweredRule(rs[0]);
      LoweredRules(rs[1..]);
    }
  }
}
