// The `set` and `unset` commands of a configure session (ggsh/src/cmd_configure.rs) and the
// plain map from key paths to values that they refine.
module Edits {
  import opened Ast
  import opened Decimal
  import opened Keyed
  import opened Keywords
  import opened Wrappers

  // ----- keys of list elements -----

  datatype SettingKey = TopS(top: TopKey) | PeerS(peer: PeerKey) | OriginateS(prefix: string)

  function KeyOf(s: Setting): SettingKey {
    match s
    case Asn(_) => TopS(TopKey.Asn)
    case RouterId(_) => TopS(TopKey.RouterId)
    case ListenAddr(_) => TopS(TopKey.ListenAddr)
    case GrpcListenAddr(_) => TopS(TopKey.GrpcListenAddr)
    case LogLevel(_) => TopS(TopKey.LogLevel)
    case HoldTime(_) => TopS(TopKey.HoldTime)
    case ConnectRetry(_) => TopS(TopKey.ConnectRetry)
    case ClusterId(_) => TopS(TopKey.ClusterId)
    case SysName(_) => TopS(TopKey.SysName)
    case SysDescr(_) => TopS(TopKey.SysDescr)
    case EnhancedRrStaleTtl(_) => TopS(TopKey.EnhancedRrStaleTtl)
    case Originate(r) => OriginateS(r.prefix)
    case RemoteAs(_) => PeerS(PeerKey.RemoteAs)
    case Port(_) => PeerS(PeerKey.Port)
    case Interface(_) => PeerS(PeerKey.Interface)
    case Md5KeyFile(_) => PeerS(PeerKey.Md5KeyFile)
    case TtlMin(_) => PeerS(PeerKey.TtlMin)
    case NextHopSelf(_) => PeerS(PeerKey.NextHopSelf)
    case Passive(_) => PeerS(PeerKey.Passive)
    case RrClient(_) => PeerS(PeerKey.RrClient)
    case RsClient(_) => PeerS(PeerKey.RsClient)
    case GracefulShutdown(_) => PeerS(PeerKey.GracefulShutdown)
    case DelayOpenTimeSecs(_) => PeerS(PeerKey.DelayOpenTimeSecs)
    case IdleHoldTimeSecs(_) => PeerS(PeerKey.IdleHoldTimeSecs)
    case DampPeerOscillations(_) => PeerS(PeerKey.DampPeerOscillations)
    case AllowAutomaticStop(_) => PeerS(PeerKey.AllowAutomaticStop)
    case SendNotificationWithoutOpen(_) => PeerS(PeerKey.SendNotificationWithoutOpen)
    case MinRouteAdvertisementIntervalSecs(_) => PeerS(PeerKey.MinRouteAdvertisementIntervalSecs)
    case EnforceFirstAs(_) => PeerS(PeerKey.EnforceFirstAs)
    case SendRpkiCommunity(_) => PeerS(PeerKey.SendRpkiCommunity)
    case AdminDown(_) => PeerS(PeerKey.AdminDown)
  }

  datatype FamilyId = FamilyId(afi: Afi, safi: Safi)
  datatype DirectiveKey = ExportKey | ImportKey | MaxPrefixKey | AddPathKey
  datatype RuleKey = MatchKey(setName: string) | DefaultKey | StatementKey

  function FamilyOf(f: FamilyBlock): FamilyId { FamilyId(f.afi, f.safi) }

  function DirectiveOf(d: FamilyDirective): DirectiveKey {
    match d
    case ExportPolicy(_) => ExportKey
    case ImportPolicy(_) => ImportKey
    case MaxPrefix(_, _) => MaxPrefixKey
    case AddPath(_) => AddPathKey
  }

  function RuleOf(r: PolicyRule): RuleKey {
    match r
    case MatchRule(s, _) => MatchKey(s)
    case DefaultRule(_) => DefaultKey
    case StatementRule(_) => StatementKey
  }

  function PeerOf(p: PeerBlock): string { p.address }

  function PolicyOf(p: PolicyBlock): string { p.name }

  function PrefixListOf(p: PrefixListBlock): string { p.name }

  function EntryOf(e: PrefixListEntry): string { e.prefix }

  function BmpOf(b: BmpServerBlock): string { b.address }

  function RpkiOf(r: RpkiCacheBlock): string { r.address }

  // ----- commands -----

  datatype PolicyDirection = Import | Export

  datatype RpkiSetting =
    | CachePreference(u8: u8)
    | CacheTransport(transport: TransportType)
    | CacheUsername(text: string)
    | CacheKeyFile(text: string)
    | CacheHostsFile(text: string)
    | CacheRetry(u64: u64)
    | CacheRefresh(u64: u64)
    | CacheExpire(u64: u64)

  // A command whose typed words have been read; None where they are not what is asked for.
  datatype RawEdit =
    | SetTop(top: TopKey, setting: Option<Setting>)
    | SetOriginate(prefix: string, nexthop: string)
    | UnsetTop(top: TopKey)
    | UnsetOriginate(prefix: string)
    | SetPeer(peerKey: PeerKey, addr: string, setting: Option<Setting>)
    | SetFamily(dir: PolicyDirection, addr: string, family: Option<FamilyId>, name: string)
    | UnsetPeer(addr: string)
    | UnsetPeerSetting(peerKey: PeerKey, addr: string)
    | UnsetFamily(addr: string, family: Option<FamilyId>)
    | UnsetDirective(dir: PolicyDirection, addr: string, family: Option<FamilyId>)
    | SetMatch(name: string, setName: string, action: string)
    | SetDefault(name: string, action: string)
    | UnsetPolicy(name: string)
    | SetEntry(name: string, prefix: string)
    | UnsetPrefixList(name: string)
    | UnsetEntry(name: string, prefix: string)
    | SetBmp(addr: string, timeout: Option<u64>)
    | UnsetBmp(addr: string)
    | UnsetBmpTimeout(addr: string)
    | SetRpki(rpkiKey: RpkiCacheKey, addr: string, field: Option<RpkiSetting>)
    | UnsetRpki(addr: string)
    | UnsetRpkiField(rpkiKey: RpkiCacheKey, addr: string)
    | SetBgpLs(instanceId: Option<u64>)
    | UnsetBgpLs
    | UnsetBgpLsSetting
    | SetJson
    | SetEmf(namespace: string)
    | SetPrometheus
    | SetListen(addr: string)
    | UnsetTelemetry
    | UnsetJson
    | UnsetEmf
    | UnsetPrometheus
    | UnsetListen

  // What was read is a value of the key.
  predicate WellTyped(e: RawEdit) {
    match e
    case SetTop(k, Some(s)) => KeyOf(s) == TopS(k)
    case SetPeer(k, _, Some(s)) => KeyOf(s) == PeerS(k)
    case SetRpki(k, _, Some(f)) => FieldKey(f) == k
    case _ => true
  }

  type Edit = e: RawEdit | WellTyped(e) witness UnsetBgpLs

  predicate TopEdit(e: Edit) { e.SetTop? || e.SetOriginate? || e.UnsetTop? || e.UnsetOriginate? }

  predicate PeerEdit(e: Edit) {
    e.SetPeer? || e.SetFamily? || e.UnsetPeer? || e.UnsetPeerSetting? || e.UnsetFamily? || e.UnsetDirective?
  }

  predicate PolicyEdit(e: Edit) { e.SetMatch? || e.SetDefault? || e.UnsetPolicy? }

  predicate PrefixEdit(e: Edit) { e.SetEntry? || e.UnsetPrefixList? || e.UnsetEntry? }

  predicate BmpEdit(e: Edit) { e.SetBmp? || e.UnsetBmp? || e.UnsetBmpTimeout? }

  predicate RpkiEdit(e: Edit) { e.SetRpki? || e.UnsetRpki? || e.UnsetRpkiField? }

  predicate BgpLsEdit(e: Edit) { e.SetBgpLs? || e.UnsetBgpLs? || e.UnsetBgpLsSetting? }

  predicate TelemetryEdit(e: Edit) {
    !TopEdit(e) && !PeerEdit(e) && !PolicyEdit(e) && !PrefixEdit(e) && !BmpEdit(e) && !RpkiEdit(e) && !BgpLsEdit(e)
  }

  // The command names a family that does not exist: it fails before it looks at anything.
  predicate BadFamily(e: Edit) {
    (e.SetFamily? || e.UnsetFamily? || e.UnsetDirective?) && e.family.None?
  }

  function DirectionKey(d: PolicyDirection): DirectiveKey {
    if d.Import? then ImportKey else ExportKey
  }

  // ----- what the commands do to each part of the body: the new part, and success -----

  function EditSettings(e: Edit, ss: seq<Setting>): (seq<Setting>, bool)
    requires TopEdit(e)
  {
    match e
    case SetTop(_, None) => (ss, false)
    case SetTop(k, Some(s)) => (Without(ss, KeyOf, TopS(k)) + [s], true)
    case SetOriginate(p, n) =>
      (Without(ss, KeyOf, OriginateS(p)) + [Setting.Originate(OriginateRoute(p, n))], true)
    case UnsetTop(k) =>
      var r := Without(ss, KeyOf, TopS(k));
      (r, |r| != |ss|)
    case UnsetOriginate(p) =>
      var r := Without(ss, KeyOf, OriginateS(p));
      (r, |r| != |ss|)
  }

  // `peer_mut`, `family_mut` and their like.
  function PeerAt(ps: seq<PeerBlock>, addr: string): PeerBlock {
    Find(ps, PeerOf, addr).GetOr(PeerBlock(addr, [], []))
  }

  function FamilyAt(fs: seq<FamilyBlock>, id: FamilyId): FamilyBlock {
    Find(fs, FamilyOf, id).GetOr(FamilyBlock(id.afi, id.safi, []))
  }

  function PolicyLine(d: PolicyDirection, name: string): FamilyDirective {
    if d.Import? then ImportPolicy(name) else ExportPolicy(name)
  }

  function EditPeers(e: Edit, ps: seq<PeerBlock>): (seq<PeerBlock>, bool)
    requires PeerEdit(e) && !BadFamily(e)
  {
    match e
    case SetPeer(_, addr, None) => (Store(ps, PeerOf, PeerAt(ps, addr)), false)
    case SetPeer(k, addr, Some(s)) =>
      var p := PeerAt(ps, addr);
      (Store(ps, PeerOf, p.(settings := Without(p.settings, KeyOf, PeerS(k)) + [s])), true)
    case SetFamily(d, addr, _, name) =>
      var p := PeerAt(ps, addr);
      var f := FamilyAt(p.families, e.family.value);
      var f' := f.(directives := Without(f.directives, DirectiveOf, DirectionKey(d)) + [PolicyLine(d, name)]);
      (Store(ps, PeerOf, p.(families := Store(p.families, FamilyOf, f'))), true)
    case UnsetPeer(addr) =>
      var r := Without(ps, PeerOf, addr);
      (r, |r| != |ps|)
    case UnsetPeerSetting(k, addr) =>
      (match Find(ps, PeerOf, addr)
       case None => (ps, false)
       case Some(p) =>
         var r := Without(p.settings, KeyOf, PeerS(k));
         (Store(ps, PeerOf, p.(settings := r)), |r| != |p.settings|))
    case UnsetFamily(addr, _) =>
      (match Find(ps, PeerOf, addr)
       case None => (ps, false)
       case Some(p) =>
         var r := Without(p.families, FamilyOf, e.family.value);
         (Store(ps, PeerOf, p.(families := r)), |r| != |p.families|))
    case UnsetDirective(d, addr, _) =>
      (match Find(ps, PeerOf, addr)
       case None => (ps, false)
       case Some(p) =>
         match Find(p.families, FamilyOf, e.family.value)
         case None => (ps, false)
         case Some(f) =>
           var r := Without(f.directives, DirectiveOf, DirectionKey(d));
           (Store(ps, PeerOf, p.(families := Store(p.families, FamilyOf, f.(directives := r)))),
            |r| != |f.directives|))
  }

  function PolicyAt(ps: seq<PolicyBlock>, name: string): PolicyBlock {
    Find(ps, PolicyOf, name).GetOr(PolicyBlock(name, []))
  }

  function EditPolicies(e: Edit, ps: seq<PolicyBlock>): (seq<PolicyBlock>, bool)
    requires PolicyEdit(e)
  {
    match e
    case SetMatch(name, s, action) =>
      var p := PolicyAt(ps, name);
      (Store(ps, PolicyOf, p.(rules := Without(p.rules, RuleOf, MatchKey(s)) + [MatchRule(s, action)])), true)
    case SetDefault(name, action) =>
      var p := PolicyAt(ps, name);
      (Store(ps, PolicyOf, p.(rules := Without(p.rules, RuleOf, DefaultKey) + [DefaultRule(action)])), true)
    case UnsetPolicy(name) =>
      var r := Without(ps, PolicyOf, name);
      (r, |r| != |ps|)
  }

  function PrefixListAt(ps: seq<PrefixListBlock>, name: string): PrefixListBlock {
    Find(ps, PrefixListOf, name).GetOr(PrefixListBlock(name, []))
  }

  function EditPrefixLists(e: Edit, ps: seq<PrefixListBlock>): (seq<PrefixListBlock>, bool)
    requires PrefixEdit(e)
  {
    match e
    case SetEntry(name, prefix) =>
      var p := PrefixListAt(ps, name);
      var p' := if Find(p.prefixes, EntryOf, prefix).Some? then p
                else p.(prefixes := p.prefixes + [PrefixListEntry(prefix, None)]);
      (Store(ps, PrefixListOf, p'), true)
    case UnsetPrefixList(name) =>
      var r := Without(ps, PrefixListOf, name);
      (r, |r| != |ps|)
    case UnsetEntry(name, prefix) =>
      (match Find(ps, PrefixListOf, name)
       case None => (ps, false)
       case Some(p) =>
         var r := Without(p.prefixes, EntryOf, prefix);
         (Store(ps, PrefixListOf, p.(prefixes := r)), |r| != |p.prefixes|))
  }

  function BmpAt(bs: seq<BmpServerBlock>, addr: string): BmpServerBlock {
    Find(bs, BmpOf, addr).GetOr(BmpServerBlock(addr, None))
  }

  function EditBmp(e: Edit, bs: seq<BmpServerBlock>): (seq<BmpServerBlock>, bool)
    requires BmpEdit(e)
  {
    match e
    case SetBmp(addr, None) => (Store(bs, BmpOf, BmpAt(bs, addr)), false)
    case SetBmp(addr, Some(x)) => (Store(bs, BmpOf, BmpAt(bs, addr).(statisticsTimeout := Some(x))), true)
    case UnsetBmp(addr) =>
      var r := Without(bs, BmpOf, addr);
      (r, |r| != |bs|)
    case UnsetBmpTimeout(addr) =>
      (match Find(bs, BmpOf, addr)
       case None => (bs, false)
       case Some(b) => (Store(bs, BmpOf, b.(statisticsTimeout := None)), b.statisticsTimeout.Some?))
  }

  function RpkiAt(rs: seq<RpkiCacheBlock>, addr: string): RpkiCacheBlock {
    Find(rs, RpkiOf, addr).GetOr(EmptyRpkiCache(addr))
  }

  function RpkiField(r: RpkiCacheBlock, k: RpkiCacheKey): Option<RpkiSetting> {
    match k
    case Preference => if r.preference.Some? then Some(CachePreference(r.preference.value)) else None
    case Transport => if r.transport.Some? then Some(CacheTransport(r.transport.value)) else None
    case SshUsername => if r.sshUsername.Some? then Some(CacheUsername(r.sshUsername.value)) else None
    case SshPrivateKeyFile => if r.sshPrivateKeyFile.Some? then Some(CacheKeyFile(r.sshPrivateKeyFile.value)) else None
    case SshKnownHostsFile => if r.sshKnownHostsFile.Some? then Some(CacheHostsFile(r.sshKnownHostsFile.value))
      else None
    case RetryInterval => if r.retryInterval.Some? then Some(CacheRetry(r.retryInterval.value)) else None
    case RefreshInterval => if r.refreshInterval.Some? then Some(CacheRefresh(r.refreshInterval.value)) else None
    case ExpireInterval => if r.expireInterval.Some? then Some(CacheExpire(r.expireInterval.value)) else None
  }

  function FieldKey(s: RpkiSetting): RpkiCacheKey {
    match s
    case CachePreference(_) => Preference
    case CacheTransport(_) => Transport
    case CacheUsername(_) => SshUsername
    case CacheKeyFile(_) => SshPrivateKeyFile
    case CacheHostsFile(_) => SshKnownHostsFile
    case CacheRetry(_) => RetryInterval
    case CacheRefresh(_) => RefreshInterval
    case CacheExpire(_) => ExpireInterval
  }

  function WithField(r: RpkiCacheBlock, s: RpkiSetting): RpkiCacheBlock {
    match s
    case CachePreference(v) => r.(preference := Some(v))
    case CacheTransport(v) => r.(transport := Some(v))
    case CacheUsername(v) => r.(sshUsername := Some(v))
    case CacheKeyFile(v) => r.(sshPrivateKeyFile := Some(v))
    case CacheHostsFile(v) => r.(sshKnownHostsFile := Some(v))
    case CacheRetry(v) => r.(retryInterval := Some(v))
    case CacheRefresh(v) => r.(refreshInterval := Some(v))
    case CacheExpire(v) => r.(expireInterval := Some(v))
  }

  function WithoutField(r: RpkiCacheBlock, k: RpkiCacheKey): RpkiCacheBlock {
    match k
    case Preference => r.(preference := None)
    case Transport => r.(transport := None)
    case SshUsername => r.(sshUsername := None)
    case SshPrivateKeyFile => r.(sshPrivateKeyFile := None)
    case SshKnownHostsFile => r.(sshKnownHostsFile := None)
    case RetryInterval => r.(retryInterval := None)
    case RefreshInterval => r.(refreshInterval := None)
    case ExpireInterval => r.(expireInterval := None)
  }

  function EditRpki(e: Edit, rs: seq<RpkiCacheBlock>): (seq<RpkiCacheBlock>, bool)
    requires RpkiEdit(e)
  {
    match e
    case SetRpki(_, addr, None) => (Store(rs, RpkiOf, RpkiAt(rs, addr)), false)
    case SetRpki(_, addr, Some(x)) => (Store(rs, RpkiOf, WithField(RpkiAt(rs, addr), x)), true)
    case UnsetRpki(addr) =>
      var r := Without(rs, RpkiOf, addr);
      (r, |r| != |rs|)
    case UnsetRpkiField(k, addr) =>
      (match Find(rs, RpkiOf, addr)
       case None => (rs, false)
       case Some(r) => (Store(rs, RpkiOf, WithoutField(r, k)), RpkiField(r, k).Some?))
  }

  function EditBgpLs(e: Edit, ls: Option<u64>): (Option<u64>, bool)
    requires BgpLsEdit(e)
  {
    match e
    case SetBgpLs(None) => (Some(ls.GetOr(0)), false)
    case SetBgpLs(Some(x)) => (Some(x), true)
    case UnsetBgpLs => (None, ls.Some?)
    case UnsetBgpLsSetting => (ls, false)
  }

  function EditTelemetry(e: Edit, t: Option<TelemetryBlock>): (Option<TelemetryBlock>, bool)
    requires TelemetryEdit(e)
  {
    var b := t.GetOr(EMPTY_TELEMETRY);
    match e
    case SetJson => if b.cloudwatchEmf.Some? then (Some(b), false) else (Some(b.(json := true)), true)
    case SetEmf(ns) => if b.json then (Some(b), false) else (Some(b.(cloudwatchEmf := Some(ns))), true)
    case SetPrometheus => (Some(b.(prometheus := Some(b.prometheus.GetOr(PrometheusBlock(None))))), true)
    case SetListen(addr) => (Some(b.(prometheus := Some(PrometheusBlock(Some(addr))))), true)
    case UnsetTelemetry => (None, t.Some?)
    case UnsetJson => if t.Some? && b.json then (Some(b.(json := false)), true) else (t, false)
    case UnsetEmf => if t.Some? then (Some(b.(cloudwatchEmf := None)), b.cloudwatchEmf.Some?) else (t, false)
    case UnsetPrometheus => if t.Some? then (Some(b.(prometheus := None)), b.prometheus.Some?) else (t, false)
    case UnsetListen =>
      if t.Some? && b.prometheus.Some? then
        (Some(b.(prometheus := Some(PrometheusBlock(None)))), b.prometheus.value.listen.Some?)
      else (t, false)
  }

  function EditBody(e: Edit, b: Body): (Body, bool)
    requires !BadFamily(e)
  {
    if TopEdit(e) then var (x, ok) := EditSettings(e, b.settings); (b.(settings := x), ok)
    else if PeerEdit(e) then var (x, ok) := EditPeers(e, b.peers); (b.(peers := x), ok)
    else if PolicyEdit(e) then var (x, ok) := EditPolicies(e, b.policies); (b.(policies := x), ok)
    else if PrefixEdit(e) then var (x, ok) := EditPrefixLists(e, b.prefixLists); (b.(prefixLists := x), ok)
    else if BmpEdit(e) then var (x, ok) := EditBmp(e, b.bmpServers); (b.(bmpServers := x), ok)
    else if RpkiEdit(e) then var (x, ok) := EditRpki(e, b.rpkiCaches); (b.(rpkiCaches := x), ok)
    else if BgpLsEdit(e) then var (x, ok) := EditBgpLs(e, b.bgpLs); (b.(bgpLs := x), ok)
    else var (x, ok) := EditTelemetry(e, b.telemetry); (b.(telemetry := x), ok)
  }

  // A command on the candidate; `bgp_body_mut` adds the service if there is none.
  function Apply(e: Edit, root: Root): (Root, bool) {
    if BadFamily(e) || e.UnsetBgpLsSetting? then (root, false)
    else
      var services := if root.services == [] then [EMPTY_BODY] else root.services;
      var (b, ok) := EditBody(e, services[0]);
      (Root(services[0 := b]), ok)
  }

  function Run(es: seq<Edit>, root: Root): Root
    decreases es
  {
    if es == [] then root else Run(es[1..], Apply(es[0], root).0)
  }
}
