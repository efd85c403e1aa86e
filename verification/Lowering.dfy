// From the syntax tree to the runtime configuration and back (conf/src/bgp.rs).
// Runtime fields the language has no word for are left out of the model: lowering leaves
// them at their defaults and rendering ignores them.
module Lowering {
  import opened Ast
  import opened Decimal
  import opened Wrappers

  // ----- peers -----

  datatype MaxPrefixSetting = MaxPrefixSetting(limit: u32, action: MaxPrefixAction)

  datatype AfiSafiConfig = AfiSafiConfig(
    afi: Afi,
    safi: Safi,
    maxPrefix: Option<MaxPrefixSetting>,
    addPathSend: Option<AddPathSend>,
    importPolicy: seq<string>,
    exportPolicy: seq<string>)

  datatype PeerConfig = PeerConfig(
    address: string,
    port: u16,
    idleHoldTimeSecs: Option<u64>,
    dampPeerOscillations: bool,
    allowAutomaticStop: bool,
    passiveMode: bool,
    delayOpenTimeSecs: Option<u64>,
    sendNotificationWithoutOpen: bool,
    minRouteAdvertisementIntervalSecs: Option<u64>,
    rrClient: bool,
    rsClient: bool,
    enforceFirstAs: bool,
    asn: Option<u32>,
    md5KeyFile: Option<string>,
    nextHopSelf: bool,
    gracefulShutdown: bool,
    ttlMin: Option<u8>,
    interface_: Option<string>,
    sendRpkiCommunity: bool,
    adminDown: bool,
    afiSafis: seq<AfiSafiConfig>)

  const DEFAULT_PORT: u16 := 179
  const DEFAULT_IDLE_HOLD: u64 := 30

  function DefaultPeer(address: string): PeerConfig {
    PeerConfig(address, DEFAULT_PORT, Some(DEFAULT_IDLE_HOLD), true, true, false, None, false, None, false, false,
               true, None, None, false, false, None, None, false, false, [])
  }

  function ApplyPeerSetting(c: PeerConfig, s: Setting): PeerConfig {
    match s
    case RemoteAs(v) => c.(asn := Some(v))
    case Port(v) => c.(port := v)
    case Interface(v) => c.(interface_ := Some(v))
    case Md5KeyFile(v) => c.(md5KeyFile := Some(v))
    case TtlMin(v) => c.(ttlMin := Some(v))
    case NextHopSelf(v) => c.(nextHopSelf := v)
    case Passive(v) => c.(passiveMode := v)
    case RrClient(v) => c.(rrClient := v)
    case RsClient(v) => c.(rsClient := v)
    case GracefulShutdown(v) => c.(gracefulShutdown := v)
    case DelayOpenTimeSecs(v) => c.(delayOpenTimeSecs := Some(v))
    case IdleHoldTimeSecs(v) => c.(idleHoldTimeSecs := Some(v))
    case DampPeerOscillations(v) => c.(dampPeerOscillations := v)
    case AllowAutomaticStop(v) => c.(allowAutomaticStop := v)
    case SendNotificationWithoutOpen(v) => c.(sendNotificationWithoutOpen := v)
    case MinRouteAdvertisementIntervalSecs(v) => c.(minRouteAdvertisementIntervalSecs := Some(v))
    case EnforceFirstAs(v) => c.(enforceFirstAs := v)
    case SendRpkiCommunity(v) => c.(sendRpkiCommunity := v)
    case AdminDown(v) => c.(adminDown := v)
    case _ => c
  }

  function ApplyPeerSettings(c: PeerConfig, ss: seq<Setting>): PeerConfig
    decreases ss
  {
    if ss == [] then c else ApplyPeerSettings(ApplyPeerSetting(c, ss[0]), ss[1..])
  }

  function NewEntry(afi: Afi, safi: Safi): AfiSafiConfig {
    AfiSafiConfig(afi, safi, None, None, [], [])
  }

  function ApplyDirective(e: AfiSafiConfig, d: FamilyDirective): AfiSafiConfig {
    match d
    case ImportPolicy(name) => e.(importPolicy := e.importPolicy + [name])
    case ExportPolicy(name) => e.(exportPolicy := e.exportPolicy + [name])
    case MaxPrefix(limit, action) => e.(maxPrefix := Some(MaxPrefixSetting(limit, action)))
    case AddPath(mode) => e.(addPathSend := Some(mode))
  }

  function ApplyDirectives(e: AfiSafiConfig, ds: seq<FamilyDirective>): AfiSafiConfig
    decreases ds
  {
    if ds == [] then e else ApplyDirectives(ApplyDirective(e, ds[0]), ds[1..])
  }

  // `afi_safi_entry_mut`: where the entry of a family is, or the length if there is none.
  function EntryIndex(es: seq<AfiSafiConfig>, afi: Afi, safi: Safi): (i: nat)
    ensures i <= |es|
    ensures i < |es| ==> es[i].afi == afi && es[i].safi == safi
    ensures forall j | 0 <= j < i :: !(es[j].afi == afi && es[j].safi == safi)
  {
    if es == [] || (es[0].afi == afi && es[0].safi == safi) then 0 else 1 + EntryIndex(es[1..], afi, safi)
  }

  function ApplyFamily(es: seq<AfiSafiConfig>, f: FamilyBlock): seq<AfiSafiConfig> {
    var i := EntryIndex(es, f.afi, f.safi);
    if i < |es| then es[i := ApplyDirectives(es[i], f.directives)]
    else es + [ApplyDirectives(NewEntry(f.afi, f.safi), f.directives)]
  }

  function ApplyFamilies(es: seq<AfiSafiConfig>, fs: seq<FamilyBlock>): seq<AfiSafiConfig>
    decreases fs
  {
    if fs == [] then es else ApplyFamilies(ApplyFamily(es, fs[0]), fs[1..])
  }

  function LowerPeer(p: PeerBlock): PeerConfig {
    ApplyPeerSettings(DefaultPeer(p.address), p.settings).(afiSafis := ApplyFamilies([], p.families))
  }

  // Rendering writes only what differs from the defaults.
  function When(b: bool, s: Setting): seq<Setting> { if b then [s] else [] }

  function IdentitySettings(c: PeerConfig): seq<Setting> {
    When(c.asn.Some?, Setting.RemoteAs(c.asn.GetOr(0))) +
    (When(c.port != DEFAULT_PORT, Setting.Port(c.port)) +
    (When(c.interface_.Some?, Setting.Interface(c.interface_.GetOr(""))) +
    (When(c.md5KeyFile.Some?, Setting.Md5KeyFile(c.md5KeyFile.GetOr(""))) +
     When(c.ttlMin.Some?, Setting.TtlMin(c.ttlMin.GetOr(0))))))
  }

  function RoleSettings(c: PeerConfig): seq<Setting> {
    When(c.nextHopSelf, Setting.NextHopSelf(true)) +
    (When(c.passiveMode, Setting.Passive(true)) +
    (When(c.rrClient, Setting.RrClient(true)) +
    (When(c.rsClient, Setting.RsClient(true)) +
     When(c.gracefulShutdown, Setting.GracefulShutdown(true)))))
  }

  function SessionSettings(c: PeerConfig): seq<Setting> {
    When(c.delayOpenTimeSecs.Some?, Setting.DelayOpenTimeSecs(c.delayOpenTimeSecs.GetOr(0))) +
    (When(c.idleHoldTimeSecs != Some(DEFAULT_IDLE_HOLD) && c.idleHoldTimeSecs.Some?,
          Setting.IdleHoldTimeSecs(c.idleHoldTimeSecs.GetOr(0))) +
    (When(!c.dampPeerOscillations, Setting.DampPeerOscillations(c.dampPeerOscillations)) +
     When(!c.allowAutomaticStop, Setting.AllowAutomaticStop(c.allowAutomaticStop))))
  }

  function UpdateSettings(c: PeerConfig): seq<Setting> {
    When(c.sendNotificationWithoutOpen, Setting.SendNotificationWithoutOpen(true)) +
    (When(c.minRouteAdvertisementIntervalSecs.Some?,
          Setting.MinRouteAdvertisementIntervalSecs(c.minRouteAdvertisementIntervalSecs.GetOr(0))) +
    (When(!c.enforceFirstAs, Setting.EnforceFirstAs(c.enforceFirstAs)) +
    (When(c.sendRpkiCommunity, Setting.SendRpkiCommunity(true)) +
     When(c.adminDown, Setting.AdminDown(true)))))
  }

  function PeerSettings(c: PeerConfig): seq<Setting> {
    IdentitySettings(c) + (RoleSettings(c) + (SessionSettings(c) + UpdateSettings(c)))
  }

  predicate HasAnything(e: AfiSafiConfig) {
    e.importPolicy != [] || e.exportPolicy != [] || e.maxPrefix.Some? || e.addPathSend.Some?
  }

  function Imports(names: seq<string>): seq<FamilyDirective> {
    if names == [] then [] else [ImportPolicy(names[0])] + Imports(names[1..])
  }

  function Exports(names: seq<string>): seq<FamilyDirective> {
    if names == [] then [] else [ExportPolicy(names[0])] + Exports(names[1..])
  }

  function EntryDirectives(e: AfiSafiConfig): seq<FamilyDirective> {
    (if e.maxPrefix.Some? then [MaxPrefix(e.maxPrefix.value.limit, e.maxPrefix.value.action)] else []) +
    ((if e.addPathSend.Some? then [AddPath(e.addPathSend.value)] else []) +
    (Imports(e.importPolicy) + Exports(e.exportPolicy)))
  }

  function Families(es: seq<AfiSafiConfig>): seq<FamilyBlock> {
    if es == [] then []
    else if HasAnything(es[0]) then
      [FamilyBlock(es[0].afi, es[0].safi, EntryDirectives(es[0]))] + Families(es[1..])
    else Families(es[1..])
  }

  function RenderPeer(c: PeerConfig): PeerBlock {
    PeerBlock(c.address, PeerSettings(c), Families(c.afiSafis))
  }

  // ----- policies -----

  datatype ConditionsConfig = ConditionsConfig(
    prefixSet: Option<MatchSetRef>,
    neighborSet: Option<MatchSetRef>,
    asPathSet: Option<MatchSetRef>,
    communitySet: Option<MatchSetRef>,
    extCommunitySet: Option<MatchSetRef>,
    largeCommunitySet: Option<MatchSetRef>,
    prefix: Option<string>,
    neighbor: Option<string>,
    hasAsn: Option<u32>,
    routeType: Option<string>,
    community: Option<string>,
    rpkiValidation: Option<RpkiValidation>,
    afiSafi: Option<string>,
    lsNlriType: Option<string>,
    lsProtocolId: Option<string>,
    lsInstanceId: Option<u64>,
    lsNodeAs: Option<u32>,
    lsNodeRouterId: Option<string>)

  const NO_CONDITIONS := ConditionsConfig(None, None, None, None, None, None, None, None, None, None, None, None,
                                          None, None, None, None, None, None)

  datatype LocalPrefAction = SetPref(value: u32) | ForcePref(value: u32, force: bool)
  datatype MedAction = SetMed(value: u32) | RemoveMed(remove: bool)
  datatype CommunityAction = CommunityAction(operation: string, communities: seq<string>)

  datatype ActionsConfig = ActionsConfig(
    accept: Option<bool>,
    reject: Option<bool>,
    localPref: Option<LocalPrefAction>,
    med: Option<MedAction>,
    community: Option<CommunityAction>,
    extCommunity: Option<CommunityAction>,
    largeCommunity: Option<CommunityAction>,
    rpkiState: Option<RpkiValidation>)

  const NO_ACTIONS := ActionsConfig(None, None, None, None, None, None, None, None)

  datatype StatementConfig = StatementConfig(name: Option<string>, conditions: ConditionsConfig, actions: ActionsConfig)
  datatype PolicyConfig = PolicyConfig(name: string, statements: seq<StatementConfig>)

  function ApplyMatch(c: ConditionsConfig, m: MatchClause): ConditionsConfig {
    match m
    case PrefixSet(r) => c.(prefixSet := Some(r))
    case NeighborSet(r) => c.(neighborSet := Some(r))
    case AsPathSet(r) => c.(asPathSet := Some(r))
    case CommunitySet(r) => c.(communitySet := Some(r))
    case ExtCommunitySet(r) => c.(extCommunitySet := Some(r))
    case LargeCommunitySet(r) => c.(largeCommunitySet := Some(r))
    case Prefix(v) => c.(prefix := Some(v))
    case Neighbor(v) => c.(neighbor := Some(v))
    case HasAsn(v) => c.(hasAsn := Some(v))
    case RouteType(v) => c.(routeType := Some(v))
    case Community(v) => c.(community := Some(v))
    case Rpki(v) => c.(rpkiValidation := Some(v))
    case AfiSafi(v) => c.(afiSafi := Some(v))
    case LsNlriType(v) => c.(lsNlriType := Some(v))
    case LsProtocolId(v) => c.(lsProtocolId := Some(v))
    case LsInstanceId(v) => c.(lsInstanceId := Some(v))
    case LsNodeAs(v) => c.(lsNodeAs := Some(v))
    case LsNodeRouterId(v) => c.(lsNodeRouterId := Some(v))
  }

  function ApplyMatches(c: ConditionsConfig, ms: seq<MatchClause>): ConditionsConfig
    decreases ms
  {
    if ms == [] then c else ApplyMatches(ApplyMatch(c, ms[0]), ms[1..])
  }

  function OpText(op: CommunityOpKind): string {
    match op
    case Add => "add"
    case Remove => "remove"
    case Replace => "replace"
  }

  function OpOf(s: string): Option<CommunityOpKind> {
    if s == "add" then Some(Add) else if s == "remove" then Some(Remove) else if s == "replace" then Some(Replace)
    else None
  }

  function CommunityConfig(op: CommunityOp): CommunityAction {
    CommunityAction(OpText(op.op), op.values)
  }

  function ApplySet(a: ActionsConfig, c: SetClause): ActionsConfig {
    match c
    case LocalPref(v, true) => a.(localPref := Some(ForcePref(v, true)))
    case LocalPref(v, false) => a.(localPref := Some(SetPref(v)))
    case Med(MedSet(v)) => a.(med := Some(SetMed(v)))
    case Med(MedRemove) => a.(med := Some(RemoveMed(true)))
    case SetCommunity(op) => a.(community := Some(CommunityConfig(op)))
    case SetExtCommunity(op) => a.(extCommunity := Some(CommunityConfig(op)))
    case SetLargeCommunity(op) => a.(largeCommunity := Some(CommunityConfig(op)))
    case SetRpkiState(v) => a.(rpkiState := Some(v))
  }

  function ApplySets(a: ActionsConfig, cs: seq<SetClause>): ActionsConfig
    decreases cs
  {
    if cs == [] then a else ApplySets(ApplySet(a, cs[0]), cs[1..])
  }

  function Dispose(a: ActionsConfig, d: Option<Disposition>): ActionsConfig {
    match d
    case Some(Accept) => a.(accept := Some(true))
    case Some(Reject) => a.(reject := Some(true))
    case None => a
  }

  function LowerStatement(b: StatementBlock): StatementConfig {
    var actions := Dispose(ApplySets(NO_ACTIONS, b.sets), b.disposition);
    StatementConfig(b.name, ApplyMatches(NO_CONDITIONS, b.matches), actions)
  }

  // `action_to_config`: only these two words are actions.
  function LowerAction(action: string): Option<ActionsConfig> {
    if action == "accept" then Some(NO_ACTIONS.(accept := Some(true)))
    else if action == "reject" then Some(NO_ACTIONS.(reject := Some(true)))
    else None
  }

  function LowerRule(r: PolicyRule): Option<StatementConfig> {
    match r
    case MatchRule(name, action) =>
      var a :- LowerAction(action);
      Some(StatementConfig(None, NO_CONDITIONS.(prefixSet := Some(MatchSetRef(name, MatchAny))), a))
    case DefaultRule(action) =>
      var a :- LowerAction(action);
      Some(StatementConfig(None, NO_CONDITIONS, a))
    case StatementRule(b) => Some(LowerStatement(b))
  }

  function LowerRules(rs: seq<PolicyRule>): Option<seq<StatementConfig>> {
    if rs == [] then Some([])
    else
      var s :- LowerRule(rs[0]);
      var ss :- LowerRules(rs[1..]);
      Some([s] + ss)
  }

  function LowerPolicy(b: PolicyBlock): Option<PolicyConfig> {
    var ss :- LowerRules(b.rules);
    Some(PolicyConfig(b.name, ss))
  }

  predicate Truth(o: Option<bool>) { o == Some(true) }

  // `config_to_action`.
  function RenderAction(a: ActionsConfig): Option<string> {
    if a.localPref.Some? || a.med.Some? || a.community.Some? || a.extCommunity.Some? || a.largeCommunity.Some?
       || a.rpkiState.Some? then None
    else if Truth(a.accept) && !Truth(a.reject) then Some("accept")
    else if !Truth(a.accept) && Truth(a.reject) then Some("reject")
    else None
  }

  // `shorthand_for`.
  function Shorthand(s: StatementConfig): Option<PolicyRule> {
    if s.name.Some? || s.conditions.(prefixSet := None) != NO_CONDITIONS then None
    else
      var action :- RenderAction(s.actions);
      match s.conditions.prefixSet
      case Some(r) => if r.option == MatchAny then Some(MatchRule(r.setName, action)) else None
      case None => Some(DefaultRule(action))
  }

  // The clause for the k-th condition, in the order the clauses are written.
  function ClauseAt(c: ConditionsConfig, k: nat): Option<MatchClause> {
    match k
    case 0 => if c.prefixSet.Some? then Some(MatchClause.PrefixSet(c.prefixSet.value)) else None
    case 1 => if c.neighborSet.Some? then Some(MatchClause.NeighborSet(c.neighborSet.value)) else None
    case 2 => if c.asPathSet.Some? then Some(MatchClause.AsPathSet(c.asPathSet.value)) else None
    case 3 => if c.communitySet.Some? then Some(MatchClause.CommunitySet(c.communitySet.value)) else None
    case 4 => if c.extCommunitySet.Some? then Some(MatchClause.ExtCommunitySet(c.extCommunitySet.value)) else None
    case 5 => if c.largeCommunitySet.Some? then Some(MatchClause.LargeCommunitySet(c.largeCommunitySet.value)) else None
    case 6 => if c.prefix.Some? then Some(MatchClause.Prefix(c.prefix.value)) else None
    case 7 => if c.neighbor.Some? then Some(MatchClause.Neighbor(c.neighbor.value)) else None
    case 8 => if c.hasAsn.Some? then Some(MatchClause.HasAsn(c.hasAsn.value)) else None
    case 9 => if c.routeType.Some? then Some(MatchClause.RouteType(c.routeType.value)) else None
    case 10 => if c.community.Some? then Some(MatchClause.Community(c.community.value)) else None
    case 11 => if c.rpkiValidation.Some? then Some(MatchClause.Rpki(c.rpkiValidation.value)) else None
    case 12 => if c.afiSafi.Some? then Some(MatchClause.AfiSafi(c.afiSafi.value)) else None
    case 13 => if c.lsNlriType.Some? then Some(MatchClause.LsNlriType(c.lsNlriType.value)) else None
    case 14 => if c.lsProtocolId.Some? then Some(MatchClause.LsProtocolId(c.lsProtocolId.value)) else None
    case 15 => if c.lsInstanceId.Some? then Some(MatchClause.LsInstanceId(c.lsInstanceId.value)) else None
    case 16 => if c.lsNodeAs.Some? then Some(MatchClause.LsNodeAs(c.lsNodeAs.value)) else None
    case 17 => if c.lsNodeRouterId.Some? then Some(MatchClause.LsNodeRouterId(c.lsNodeRouterId.value)) else None
    case _ => None
  }

  const CONDITIONS := 18

  function ClausesFrom(c: ConditionsConfig, k: nat): seq<MatchClause>
    decreases CONDITIONS - k
  {
    if k >= CONDITIONS then []
    else (if ClauseAt(c, k).Some? then [ClauseAt(c, k).value] else []) + ClausesFrom(c, k + 1)
  }

  function RenderConditions(c: ConditionsConfig): seq<MatchClause> {
    ClausesFrom(c, 0)
  }

  function RenderCommunity(a: CommunityAction): Option<CommunityOp> {
    var op :- OpOf(a.operation);
    Some(CommunityOp(op, a.communities))
  }

  predicate OpsKnown(a: ActionsConfig) {
    && (a.community.Some? ==> OpOf(a.community.value.operation).Some?)
    && (a.extCommunity.Some? ==> OpOf(a.extCommunity.value.operation).Some?)
    && (a.largeCommunity.Some? ==> OpOf(a.largeCommunity.value.operation).Some?)
  }

  function RenderPref(a: ActionsConfig): seq<SetClause> {
    match a.localPref
    case None => []
    case Some(SetPref(v)) => [LocalPref(v, false)]
    case Some(ForcePref(v, force)) => [LocalPref(v, force)]
  }

  function RenderMed(a: ActionsConfig): seq<SetClause> {
    match a.med
    case None => []
    case Some(SetMed(v)) => [Med(MedSet(v))]
    case Some(RemoveMed(_)) => [Med(MedRemove)]
  }

  function RenderCommunities(a: ActionsConfig): seq<SetClause>
    requires OpsKnown(a)
  {
    (if a.community.Some? then [SetCommunity(RenderCommunity(a.community.value).value)] else []) +
    ((if a.extCommunity.Some? then [SetExtCommunity(RenderCommunity(a.extCommunity.value).value)] else []) +
     (if a.largeCommunity.Some? then [SetLargeCommunity(RenderCommunity(a.largeCommunity.value).value)] else []))
  }

  function RenderSets(a: ActionsConfig): seq<SetClause>
    requires OpsKnown(a)
  {
    RenderPref(a) + (RenderMed(a) + (RenderCommunities(a) +
    (if a.rpkiState.Some? then [SetRpkiState(a.rpkiState.value)] else [])))
  }

  // `statement_config_to_block`.
  function RenderStatement(s: StatementConfig): Option<StatementBlock> {
    if !OpsKnown(s.actions) || (Truth(s.actions.accept) && Truth(s.actions.reject)) then None
    else
      var d := if Truth(s.actions.accept) then Some(Accept) else if Truth(s.actions.reject) then Some(Reject) else None;
      Some(StatementBlock(s.name, RenderConditions(s.conditions), RenderSets(s.actions), d))
  }

  function RenderRule(s: StatementConfig): Option<PolicyRule> {
    if Shorthand(s).Some? then Shorthand(s)
    else
      var b :- RenderStatement(s);
      Some(StatementRule(b))
  }

  function RenderRules(ss: seq<StatementConfig>): Option<seq<PolicyRule>> {
    if ss == [] then Some([])
    else
      var r :- RenderRule(ss[0]);
      var rs :- RenderRules(ss[1..]);
      Some([r] + rs)
  }

  function RenderPolicy(p: PolicyConfig): Option<PolicyBlock> {
    var rs :- RenderRules(p.statements);
    Some(PolicyBlock(p.name, rs))
  }

  // ----- prefix sets -----

  datatype PrefixMatch = PrefixMatch(prefix: string, masklength: Option<string>)
  datatype PrefixSetConfig = PrefixSetConfig(name: string, prefixes: seq<PrefixMatch>)

  function BoundText(b: Option<u8>): string { if b.Some? then Digits(b.value) else "" }

  function RangeText(r: MasklengthRange): string {
    match r
    case Exact => "exact"
    case Range(ge, le) => BoundText(ge) + ".." + BoundText(le)
  }

  // Position of the first "..", or the length if there is none.
  function DotsAt(s: string): (i: nat)
    ensures i <= |s|
    ensures i < |s| ==> i + 2 <= |s| && s[i] == '.' && s[i + 1] == '.'
  {
    if |s| < 2 then |s| else if s[0] == '.' && s[1] == '.' then 0 else 1 + DotsAt(s[1..])
  }

  function ParseRange(s: string): Option<MasklengthRange> {
    if s == "exact" then Some(Exact)
    else
      var i := DotsAt(s);
      if i == |s| then None
      else
        var lo, hi := s[..i], s[i + 2..];
        if (lo != [] && ParseUint(lo, U8_MAX).None?) || (hi != [] && ParseUint(hi, U8_MAX).None?) then None
        else
          var ge: Option<u8> := if lo == [] then None else ParseUint(lo, U8_MAX);
          var le: Option<u8> := if hi == [] then None else ParseUint(hi, U8_MAX);
          if ge.None? && le.None? then None else Some(Range(ge, le))
  }

  function LowerEntry(e: PrefixListEntry): PrefixMatch {
    PrefixMatch(e.prefix, if e.range.Some? then Some(RangeText(e.range.value)) else None)
  }

  function RenderEntry(m: PrefixMatch): PrefixListEntry {
    PrefixListEntry(m.prefix, if m.masklength.Some? then ParseRange(m.masklength.value) else None)
  }

  function LowerEntries(es: seq<PrefixListEntry>): seq<PrefixMatch> {
    if es == [] then [] else [LowerEntry(es[0])] + LowerEntries(es[1..])
  }

  function RenderEntries(ms: seq<PrefixMatch>): seq<PrefixListEntry> {
    if ms == [] then [] else [RenderEntry(ms[0])] + RenderEntries(ms[1..])
  }

  function LowerPrefixLists(bs: seq<PrefixListBlock>): seq<PrefixSetConfig> {
    if bs == [] then [] else [PrefixSetConfig(bs[0].name, LowerEntries(bs[0].prefixes))] + LowerPrefixLists(bs[1..])
  }

  // Sets without entries are dropped.
  function RenderPrefixSets(ps: seq<PrefixSetConfig>): seq<PrefixListBlock> {
    if ps == [] then []
    else if ps[0].prefixes == [] then RenderPrefixSets(ps[1..])
    else [PrefixListBlock(ps[0].name, RenderEntries(ps[0].prefixes))] + RenderPrefixSets(ps[1..])
  }

  // ----- the rest of the configuration -----

  datatype RpkiCacheConfig = RpkiCacheConfig(
    address: string,
    preference: u8,
    transport: TransportType,
    sshUsername: Option<string>,
    sshPrivateKeyFile: Option<string>,
    sshKnownHostsFile: Option<string>,
    retryInterval: Option<u64>,
    refreshInterval: Option<u64>,
    expireInterval: Option<u64>)

  function LowerRpki(b: RpkiCacheBlock): RpkiCacheConfig {
    RpkiCacheConfig(b.address, b.preference.GetOr(0), b.transport.GetOr(Tcp), b.sshUsername, b.sshPrivateKeyFile,
                    b.sshKnownHostsFile, b.retryInterval, b.refreshInterval, b.expireInterval)
  }

  function RenderRpki(c: RpkiCacheConfig): RpkiCacheBlock {
    RpkiCacheBlock(c.address, if c.preference == 0 then None else Some(c.preference),
                   if c.transport == Tcp then None else Some(c.transport), c.sshUsername, c.sshPrivateKeyFile,
                   c.sshKnownHostsFile, c.retryInterval, c.refreshInterval, c.expireInterval)
  }

  function LowerRpkis(bs: seq<RpkiCacheBlock>): seq<RpkiCacheConfig> {
    if bs == [] then [] else [LowerRpki(bs[0])] + LowerRpkis(bs[1..])
  }

  function RenderRpkis(cs: seq<RpkiCacheConfig>): seq<RpkiCacheBlock> {
    if cs == [] then [] else [RenderRpki(cs[0])] + RenderRpkis(cs[1..])
  }

  datatype TelemetrySink = JsonSink | EmfSink(namespace: string)
  datatype TelemetryConfig = TelemetryConfig(sink: Option<TelemetrySink>, prometheus: Option<string>)

  const DEFAULT_PROMETHEUS := "127.0.0.1:9273"

  function LowerTelemetry(b: TelemetryBlock): TelemetryConfig {
    TelemetryConfig(
      if b.json then Some(JsonSink)
      else if b.cloudwatchEmf.Some? then Some(EmfSink(b.cloudwatchEmf.value)) else None,
      if b.prometheus.Some? then Some(b.prometheus.value.listen.GetOr(DEFAULT_PROMETHEUS)) else None)
  }

  function RenderTelemetry(c: TelemetryConfig): TelemetryBlock {
    TelemetryBlock(
      c.sink == Some(JsonSink),
      if c.sink.Some? && c.sink.value.EmfSink? then Some(c.sink.value.namespace) else None,
      if c.prometheus.None? then None
      else Some(PrometheusBlock(if c.prometheus.value == DEFAULT_PROMETHEUS then None else c.prometheus)))
  }

  // Scalar settings of the service.
  datatype Globals = Globals(
    asn: u32,
    routerId: Ipv4,
    listenAddr: string,
    grpcListenAddr: string,
    logLevel: string,
    holdTimeSecs: u64,
    connectRetrySecs: u64,
    clusterId: Option<Ipv4>,
    sysName: Option<string>,
    sysDescr: Option<string>,
    enhancedRrStaleTtl: Option<u64>,
    originate: seq<OriginateRoute>)

  const DEFAULT_LISTEN := "0.0.0.0:179"
  const DEFAULT_GRPC := "127.0.0.1:50051"
  const DEFAULT_LOG := "info"
  const DEFAULT_HOLD: u64 := 180
  const DEFAULT_RETRY: u64 := 30
  const DEFAULT_STALE: u64 := 360
  const UNSPECIFIED := Ipv4(0, 0, 0, 0)

  const DEFAULT_GLOBALS := Globals(65000, Ipv4(1, 1, 1, 1), DEFAULT_LISTEN, DEFAULT_GRPC, DEFAULT_LOG, DEFAULT_HOLD,
                                   DEFAULT_RETRY, None, None, None, Some(DEFAULT_STALE), [])

  function ApplyTop(g: Globals, s: Setting): Globals {
    match s
    case Asn(v) => g.(asn := v)
    case RouterId(v) => g.(routerId := v)
    case ListenAddr(v) => g.(listenAddr := v)
    case GrpcListenAddr(v) => g.(grpcListenAddr := v)
    case LogLevel(v) => g.(logLevel := v)
    case HoldTime(v) => g.(holdTimeSecs := v)
    case ConnectRetry(v) => g.(connectRetrySecs := v)
    case ClusterId(v) => g.(clusterId := Some(v))
    case SysName(v) => g.(sysName := Some(v))
    case SysDescr(v) => g.(sysDescr := Some(v))
    case EnhancedRrStaleTtl(v) => g.(enhancedRrStaleTtl := Some(v))
    case Originate(r) => g.(originate := g.originate + [r])
    case _ => g
  }

  function ApplyTops(g: Globals, ss: seq<Setting>): Globals
    decreases ss
  {
    if ss == [] then g else ApplyTops(ApplyTop(g, ss[0]), ss[1..])
  }

  function OriginateSettings(rs: seq<OriginateRoute>): seq<Setting> {
    if rs == [] then [] else [Originate(rs[0])] + OriginateSettings(rs[1..])
  }

  // The setting for the k-th scalar; the AS number and the router id are always written.
  function GlobalAt(g: Globals, k: nat): Option<Setting> {
    match k
    case 0 => Some(Setting.Asn(g.asn))
    case 1 => Some(Setting.RouterId(g.routerId))
    case 2 => if g.listenAddr != DEFAULT_LISTEN then Some(Setting.ListenAddr(g.listenAddr)) else None
    case 3 => if g.grpcListenAddr != DEFAULT_GRPC then Some(Setting.GrpcListenAddr(g.grpcListenAddr)) else None
    case 4 => if g.logLevel != DEFAULT_LOG then Some(Setting.LogLevel(g.logLevel)) else None
    case 5 => if g.holdTimeSecs != DEFAULT_HOLD then Some(Setting.HoldTime(g.holdTimeSecs)) else None
    case 6 => if g.connectRetrySecs != DEFAULT_RETRY then Some(Setting.ConnectRetry(g.connectRetrySecs)) else None
    case 7 => if g.clusterId.Some? then Some(Setting.ClusterId(g.clusterId.value)) else None
    case 8 => if g.sysName.Some? then Some(Setting.SysName(g.sysName.value)) else None
    case 9 => if g.sysDescr.Some? then Some(Setting.SysDescr(g.sysDescr.value)) else None
    case 10 =>
      if g.enhancedRrStaleTtl.Some? && g.enhancedRrStaleTtl.value != DEFAULT_STALE then
        Some(Setting.EnhancedRrStaleTtl(g.enhancedRrStaleTtl.value))
      else None
    case _ => None
  }

  const GLOBALS := 11

  function GlobalsFrom(g: Globals, k: nat): seq<Setting>
    decreases GLOBALS - k
  {
    if k >= GLOBALS then []
    else (if GlobalAt(g, k).Some? then [GlobalAt(g, k).value] else []) + GlobalsFrom(g, k + 1)
  }

  function RenderGlobals(g: Globals): seq<Setting> {
    GlobalsFrom(g, 0) + OriginateSettings(g.originate)
  }

  // neighbor, AS-path and community sets and BMP servers have the shape of their blocks.
  datatype BgpConfig = BgpConfig(
    globals: Globals,
    peers: seq<PeerConfig>,
    policies: seq<PolicyConfig>,
    prefixSets: seq<PrefixSetConfig>,
    neighborSets: seq<WordListBlock>,
    asPathSets: seq<WordListBlock>,
    communitySets: seq<WordListBlock>,
    extCommunitySets: seq<WordListBlock>,
    largeCommunitySets: seq<WordListBlock>,
    bmpServers: seq<BmpServerBlock>,
    rpkiCaches: seq<RpkiCacheConfig>,
    instanceId: u64,
    telemetry: Option<TelemetryConfig>)

  // Addresses are compared after parsing; the text of IPv6 addresses is not modelled, so
  // the address parser is a parameter.
  type Address = seq<u8>
  type AddressParser = string -> Option<Address>

  // `insert_peer` for each peer block in turn.
  function InsertPeers(cs: seq<PeerConfig>, bs: seq<PeerBlock>, ip: AddressParser): Option<seq<PeerConfig>>
    decreases bs
  {
    if bs == [] then Some(cs)
    else
      var c := LowerPeer(bs[0]);
      var a :- ip(c.address);
      if exists i | 0 <= i < |cs| :: ip(cs[i].address) == Some(a) then None
      else InsertPeers(cs + [c], bs[1..], ip)
  }

  function RenderPeers(cs: seq<PeerConfig>): seq<PeerBlock> {
    if cs == [] then [] else [RenderPeer(cs[0])] + RenderPeers(cs[1..])
  }

  function LowerPolicies(bs: seq<PolicyBlock>): Option<seq<PolicyConfig>> {
    if bs == [] then Some([])
    else
      var p :- LowerPolicy(bs[0]);
      var ps :- LowerPolicies(bs[1..]);
      Some([p] + ps)
  }

  // Policies outside the language are skipped.
  function RenderPolicies(ps: seq<PolicyConfig>): seq<PolicyBlock> {
    if ps == [] then []
    else if RenderPolicy(ps[0]).Some? then [RenderPolicy(ps[0]).value] + RenderPolicies(ps[1..])
    else RenderPolicies(ps[1..])
  }

  // `from_conf_str`, after parsing.
  function Lower(b: Body, ip: AddressParser): Option<BgpConfig> {
    var g := ApplyTops(DEFAULT_GLOBALS, b.settings);
    if !(exists s | s in b.settings :: s.Asn?) || !(exists s | s in b.settings :: s.RouterId?)
       || g.routerId == UNSPECIFIED then None
    else
      var peers :- InsertPeers([], b.peers, ip);
      var policies :- LowerPolicies(b.policies);
      Some(BgpConfig(g, peers, policies, LowerPrefixLists(b.prefixLists), b.neighborSets, b.asPathSets,
                     b.communitySets, b.extCommunitySets, b.largeCommunitySets, b.bmpServers,
                     LowerRpkis(b.rpkiCaches), b.bgpLs.GetOr(0),
                     if b.telemetry.Some? then Some(LowerTelemetry(b.telemetry.value)) else None))
  }

  // `to_bgp_service_body`.
  function Render(c: BgpConfig): Body {
    Body(RenderGlobals(c.globals), RenderPeers(c.peers), RenderPolicies(c.policies), RenderPrefixSets(c.prefixSets),
         c.neighborSets, c.asPathSets, c.communitySets, c.extCommunitySets, c.largeCommunitySets, c.bmpServers,
         RenderRpkis(c.rpkiCaches), if c.instanceId != 0 then Some(c.instanceId) else None,
         if c.telemetry.Some? then Some(RenderTelemetry(c.telemetry.value)) else None)
  }
}
