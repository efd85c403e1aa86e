// The `Display` implementations of conf/src/language_bgp.rs and language.rs.
// Every printed line is built as a Layout.Line; nested blocks are printed as the source
// does, by cutting the inner text into lines and indenting each.
module Printer {
  import opened Ast
  import opened Decimal
  import opened Keywords
  import opened Layout
  import opened Lexer
  import opened Wrappers

  function AfiWord(afi: Afi): Keyword {
    match afi
    case Ipv4Afi => ValueKw(ValueWord.Ipv4)
    case Ipv6Afi => ValueKw(Ipv6)
    case LinkStateAfi => ValueKw(Ls)
  }

  function SafiWord(safi: Safi): Keyword {
    match safi
    case Unicast => ValueKw(ValueWord.Unicast)
    case Multicast => ValueKw(ValueWord.Multicast)
    case MplsLabel => ValueKw(ValueWord.MplsLabel)
    case LinkState => ValueKw(ValueWord.LinkState)
    case LinkStateVpn => ValueKw(ValueWord.LinkStateVpn)
  }

  function TransportWord(t: TransportType): Keyword {
    if t.Tcp? then ValueKw(ValueWord.Tcp) else ValueKw(ValueWord.Ssh)
  }

  function BoolWord(b: bool): Keyword {
    if b then ValueKw(True) else ValueKw(False)
  }

  function RpkiWord(v: RpkiValidation): Keyword {
    match v
    case Valid => ValueKw(ValueWord.Valid)
    case Invalid => ValueKw(ValueWord.Invalid)
    case NotFound => ValueKw(ValueWord.NotFound)
  }

  // Line shapes.
  function Number(k: Keyword, n: nat): Line { Key(k, Bare(Digits(n), Stop)) }

  function Named(k: Keyword, w: string): Line { Key(k, Bare(w, Stop)) }

  function Choice(k: Keyword, v: Keyword): Line { Key(k, Key(v, Stop)) }

  // `quote_if_needed`.
  predicate NeedsQuotes(s: string) {
    exists c | c in s :: EndsWord(c) || c == '"' || c == '#'
  }

  function Unquoted(s: string): (r: string)
    ensures '"' !in r
    ensures '"' !in s ==> r == s
  {
    if s == [] then [] else (if s[0] == '"' then [] else [s[0]]) + Unquoted(s[1..])
  }

  function Value(k: Keyword, s: string): Line {
    Key(k, if NeedsQuotes(s) then Quoted(Unquoted(s), Stop) else Bare(s, Stop))
  }

  function SettingLine(s: Setting): Line {
    match s
    case Asn(v) => Number(TopKw(TopKey.Asn), v)
    case RouterId(ip) => Named(TopKw(TopKey.RouterId), Ipv4Text(ip))
    case ListenAddr(v) => Named(TopKw(TopKey.ListenAddr), v)
    case GrpcListenAddr(v) => Named(TopKw(TopKey.GrpcListenAddr), v)
    case LogLevel(v) => Named(TopKw(TopKey.LogLevel), v)
    case HoldTime(v) => Number(TopKw(TopKey.HoldTime), v)
    case ConnectRetry(v) => Number(TopKw(TopKey.ConnectRetry), v)
    case ClusterId(ip) => Named(TopKw(TopKey.ClusterId), Ipv4Text(ip))
    case SysName(v) => Value(TopKw(TopKey.SysName), v)
    case SysDescr(v) => Value(TopKw(TopKey.SysDescr), v)
    case EnhancedRrStaleTtl(v) => Number(TopKw(TopKey.EnhancedRrStaleTtl), v)
    case RemoteAs(v) => Number(PeerKw(PeerKey.RemoteAs), v)
    case Port(v) => Number(PeerKw(PeerKey.Port), v)
    case Interface(v) => Named(PeerKw(PeerKey.Interface), v)
    case Md5KeyFile(v) => Named(PeerKw(PeerKey.Md5KeyFile), v)
    case TtlMin(v) => Number(PeerKw(PeerKey.TtlMin), v)
    case NextHopSelf(v) => Choice(PeerKw(PeerKey.NextHopSelf), BoolWord(v))
    case Passive(v) => Choice(PeerKw(PeerKey.Passive), BoolWord(v))
    case RrClient(v) => Choice(PeerKw(PeerKey.RrClient), BoolWord(v))
    case RsClient(v) => Choice(PeerKw(PeerKey.RsClient), BoolWord(v))
    case GracefulShutdown(v) => Choice(PeerKw(PeerKey.GracefulShutdown), BoolWord(v))
    case Originate(r) =>
      Key(LeafKw(LeafWord.Originate), Bare(r.prefix, Key(LeafKw(Nexthop), Bare(r.nexthop, Stop))))
    case DelayOpenTimeSecs(v) => Number(PeerKw(PeerKey.DelayOpenTimeSecs), v)
    case IdleHoldTimeSecs(v) => Number(PeerKw(PeerKey.IdleHoldTimeSecs), v)
    case DampPeerOscillations(v) => Choice(PeerKw(PeerKey.DampPeerOscillations), BoolWord(v))
    case AllowAutomaticStop(v) => Choice(PeerKw(PeerKey.AllowAutomaticStop), BoolWord(v))
    case SendNotificationWithoutOpen(v) => Choice(PeerKw(PeerKey.SendNotificationWithoutOpen), BoolWord(v))
    case MinRouteAdvertisementIntervalSecs(v) =>
      Number(PeerKw(PeerKey.MinRouteAdvertisementIntervalSecs), v)
    case EnforceFirstAs(v) => Choice(PeerKw(PeerKey.EnforceFirstAs), BoolWord(v))
    case SendRpkiCommunity(v) => Choice(PeerKw(PeerKey.SendRpkiCommunity), BoolWord(v))
    case AdminDown(v) => Choice(PeerKw(PeerKey.AdminDown), BoolWord(v))
  }

  function DirectiveLine(d: FamilyDirective): Line {
    match d
    case ExportPolicy(name) => Key(FamilyKw(Export), Named(BlockKw(BlockKey.Policy), name))
    case ImportPolicy(name) => Key(FamilyKw(Import), Named(BlockKw(BlockKey.Policy), name))
    case MaxPrefix(limit, Terminate) => Number(FamilyKw(FamilyWord.MaxPrefix), limit)
    case MaxPrefix(limit, Discard) =>
      Key(FamilyKw(FamilyWord.MaxPrefix),
          Bare(Digits(limit), Choice(FamilyKw(FamilyWord.Action), FamilyKw(FamilyWord.Discard))))
    case AddPath(mode) =>
      Choice(FamilyKw(FamilyWord.AddPathSend),
             if mode.All? then FamilyKw(FamilyWord.All) else FamilyKw(FamilyWord.Disabled))
  }

  function OptionWord(o: MatchOption): Line {
    match o
    case MatchAny => Stop
    case MatchAll => Key(FamilyKw(FamilyWord.All), Stop)
    case MatchInvert => Key(PolicyKw(Invert), Stop)
  }

  function SetRefLine(kind: Keyword, r: MatchSetRef): Line {
    Key(PolicyKw(PolicyWord.Match), Key(kind, Bare(r.setName, OptionWord(r.option))))
  }

  function MatchLine(m: MatchClause): Line {
    match m
    case PrefixSet(r) => SetRefLine(MatchKw(MatchWord.PrefixSet), r)
    case NeighborSet(r) => SetRefLine(SetBlockKw(SetBlockKey.NeighborSet), r)
    case AsPathSet(r) => SetRefLine(SetBlockKw(SetBlockKey.AsPathSet), r)
    case CommunitySet(r) => SetRefLine(SetBlockKw(SetBlockKey.CommunitySet), r)
    case ExtCommunitySet(r) => SetRefLine(SetBlockKw(SetBlockKey.ExtCommunitySet), r)
    case LargeCommunitySet(r) => SetRefLine(SetBlockKw(SetBlockKey.LargeCommunitySet), r)
    case Prefix(v) => Key(PolicyKw(PolicyWord.Match), Named(MatchKw(MatchWord.Prefix), v))
    case Neighbor(v) => Key(PolicyKw(PolicyWord.Match), Named(MatchKw(MatchWord.Neighbor), v))
    case HasAsn(v) => Key(PolicyKw(PolicyWord.Match), Number(MatchKw(MatchWord.HasAsn), v))
    case RouteType(v) => Key(PolicyKw(PolicyWord.Match), Named(MatchKw(MatchWord.RouteType), v))
    case Community(v) => Key(PolicyKw(PolicyWord.Match), Named(MatchKw(MatchWord.Community), v))
    case Rpki(v) => Key(PolicyKw(PolicyWord.Match), Choice(MatchKw(MatchWord.Rpki), RpkiWord(v)))
    case AfiSafi(v) => Key(PolicyKw(PolicyWord.Match), Named(MatchKw(MatchWord.AfiSafi), v))
    case LsNlriType(v) => Key(PolicyKw(PolicyWord.Match), Named(MatchKw(MatchWord.LsNlriType), v))
    case LsProtocolId(v) => Key(PolicyKw(PolicyWord.Match), Named(MatchKw(MatchWord.LsProtocolId), v))
    case LsInstanceId(v) => Key(PolicyKw(PolicyWord.Match), Number(MatchKw(MatchWord.LsInstanceId), v))
    case LsNodeAs(v) => Key(PolicyKw(PolicyWord.Match), Number(MatchKw(MatchWord.LsNodeAs), v))
    case LsNodeRouterId(v) => Key(PolicyKw(PolicyWord.Match), Named(MatchKw(MatchWord.LsNodeRouterId), v))
  }

  function OpWord(op: CommunityOpKind): Keyword {
    match op
    case Add => PolicyKw(PolicyWord.Add)
    case Remove => PolicyKw(PolicyWord.Remove)
    case Replace => PolicyKw(PolicyWord.Replace)
  }

  function Words(ws: seq<string>): Line {
    if ws == [] then Stop else Bare(ws[0], Words(ws[1..]))
  }

  function CommunityLine(kind: Keyword, op: CommunityOp): Line {
    Key(PolicyKw(PolicyWord.Set), Key(kind, Key(OpWord(op.op), Words(op.values))))
  }

  function SetLine(s: SetClause): Line {
    match s
    case LocalPref(v, true) =>
      Key(PolicyKw(PolicyWord.Set), Key(SetKw(SetWord.LocalPref), Number(PolicyKw(Force), v)))
    case LocalPref(v, false) => Key(PolicyKw(PolicyWord.Set), Number(SetKw(SetWord.LocalPref), v))
    case Med(MedSet(v)) => Key(PolicyKw(PolicyWord.Set), Number(SetKw(SetWord.Med), v))
    case Med(MedRemove) =>
      Key(PolicyKw(PolicyWord.Set), Choice(SetKw(SetWord.Med), PolicyKw(PolicyWord.Remove)))
    case SetCommunity(op) => CommunityLine(MatchKw(MatchWord.Community), op)
    case SetExtCommunity(op) => CommunityLine(SetKw(SetWord.ExtCommunity), op)
    case SetLargeCommunity(op) => CommunityLine(SetKw(SetWord.LargeCommunity), op)
    case SetRpkiState(v) => Key(PolicyKw(PolicyWord.Set), Choice(SetKw(SetWord.RpkiState), RpkiWord(v)))
  }

  function EntryLine(e: PrefixListEntry): Line {
    match e.range
    case None => Bare(e.prefix, Stop)
    case Some(Exact) => Bare(e.prefix, Key(LeafKw(LeafWord.Exact), Stop))
    case Some(Range(ge, le)) =>
      var tail := if le.Some? then Number(LeafKw(Le), le.value) else Stop;
      Bare(e.prefix, if ge.Some? then Key(LeafKw(Ge), Bare(Digits(ge.value), tail)) else tail)
  }

  // Rows of a block: header, one row per entry, closing brace.
  function Each<X>(xs: seq<X>, line: X -> Line): seq<Row> {
    if xs == [] then [] else [Row(1, line(xs[0]))] + Each(xs[1..], line)
  }

  function Optional<X>(x: Option<X>, line: X -> Line): seq<Row> {
    if x.Some? then [Row(1, line(x.value))] else []
  }

  function Block(header: Line, rows: seq<Row>): seq<Row> {
    [Row(0, header)] + rows + [Row(0, CloseBrace(Stop))]
  }

  function Header(k: Keyword, name: string): Line { Key(k, Bare(name, OpenBrace(Stop))) }

  function FamilyRows(f: FamilyBlock): seq<Row> {
    Block(Key(BlockKw(Family), Key(AfiWord(f.afi), Key(SafiWord(f.safi), OpenBrace(Stop)))),
          Each(f.directives, DirectiveLine))
  }

  function DispositionLine(d: Disposition): Line {
    Key(PolicyKw(if d.Accept? then PolicyWord.Accept else PolicyWord.Reject), Stop)
  }

  function StatementHeader(name: Option<string>): Line {
    if name.Some? then Header(BlockKw(Statement), name.value) else Key(BlockKw(Statement), OpenBrace(Stop))
  }

  function StatementRows(s: StatementBlock): seq<Row> {
    Block(StatementHeader(s.name),
          Each(s.matches, MatchLine) + (Each(s.sets, SetLine) + Optional(s.disposition, DispositionLine)))
  }

  function PrefixListRows(p: PrefixListBlock): seq<Row> {
    Block(Header(SetBlockKw(PrefixList), p.name), Each(p.prefixes, EntryLine))
  }

  function BareLine(w: string): Line { Bare(w, Stop) }

  function QuotedLine(w: string): Line { Quoted(w, Stop) }

  // AS-path patterns may contain whitespace, so only those are quoted.
  function WordListRows(kind: SetBlockKey, b: WordListBlock): seq<Row> {
    Block(Header(SetBlockKw(kind), b.name),
          if kind.AsPathSet? then Each(b.entries, QuotedLine) else Each(b.entries, BareLine))
  }

  // Rows of optional scalars.
  predicate Natural(x: Option<int>) { x.Some? ==> x.value >= 0 }

  function NumberRow(k: Keyword, x: Option<int>): seq<Row>
    requires Natural(x)
  {
    if x.Some? then [Row(1, Number(k, x.value))] else []
  }

  function NamedRow(k: Keyword, x: Option<string>): seq<Row> {
    if x.Some? then [Row(1, Named(k, x.value))] else []
  }

  function TransportRow(t: Option<TransportType>): seq<Row> {
    if t.Some? then [Row(1, Choice(RpkiKw(Transport), TransportWord(t.value)))] else []
  }

  function BgpLsRows(instanceId: u64): seq<Row> {
    Block(Key(BlockKw(BgpLs), OpenBrace(Stop)), NumberRow(LeafKw(InstanceId), Some(instanceId)))
  }

  function BmpRows(b: BmpServerBlock): seq<Row> {
    Block(Header(BlockKw(BmpServer), b.address), NumberRow(LeafKw(StatisticsTimeout), b.statisticsTimeout))
  }

  function RpkiScalars(r: RpkiCacheBlock): seq<Row> {
    NumberRow(RpkiKw(Preference), r.preference) +
    (TransportRow(r.transport) +
    (NamedRow(RpkiKw(SshUsername), r.sshUsername) +
    (NamedRow(RpkiKw(SshPrivateKeyFile), r.sshPrivateKeyFile) +
    (NamedRow(RpkiKw(SshKnownHostsFile), r.sshKnownHostsFile) +
     RpkiTimers(r)))))
  }

  function RpkiTimers(r: RpkiCacheBlock): seq<Row> {
    NumberRow(RpkiKw(RetryInterval), r.retryInterval) +
    (NumberRow(RpkiKw(RefreshInterval), r.refreshInterval) +
     NumberRow(RpkiKw(ExpireInterval), r.expireInterval))
  }

  function RpkiRows(r: RpkiCacheBlock): seq<Row> {
    Block(Header(BlockKw(RpkiCache), r.address), RpkiScalars(r))
  }

  function PrometheusRows(p: PrometheusBlock): seq<Row> {
    if p.listen.Some? then
      Shift(Block(Key(LeafKw(Prometheus), OpenBrace(Stop)), NamedRow(LeafKw(Listen), p.listen)))
    else
      [Row(1, Key(LeafKw(Prometheus), EmptyBraces(Stop)))]
  }

  function EmfRows(namespace: string): seq<Row> {
    Shift(Block(Key(LeafKw(CloudwatchEmf), OpenBrace(Stop)), NamedRow(LeafKw(Namespace), Some(namespace))))
  }

  function TelemetryParts(t: TelemetryBlock): seq<Row> {
    (if t.json then [Row(1, Key(LeafKw(Json), EmptyBraces(Stop)))] else []) +
    ((if t.cloudwatchEmf.Some? then EmfRows(t.cloudwatchEmf.value) else []) +
     (if t.prometheus.Some? then PrometheusRows(t.prometheus.value) else []))
  }

  function TelemetryRows(t: TelemetryBlock): seq<Row> {
    Block(Key(BlockKw(Telemetry), OpenBrace(Stop)), TelemetryParts(t))
  }

  // ----- blocks that nest other blocks: the text, and the rows it amounts to -----

  function RowsText(rs: seq<Row>): string {
    Joined(RowTexts(rs))
  }

  function RuleLine(r: PolicyRule): Line
    requires !r.StatementRule?
  {
    match r
    case MatchRule(set_, action) => Key(PolicyKw(PolicyWord.Match), Bare(set_, Bare(action, Stop)))
    case DefaultRule(action) => Named(PolicyKw(Default), action)
  }

  function RuleRows(r: PolicyRule): seq<Row> {
    if r.StatementRule? then Shift(StatementRows(r.statement)) else [Row(1, RuleLine(r))]
  }

  function RuleLines(r: PolicyRule): seq<string> {
    if r.StatementRule? then Reindent(RowsText(StatementRows(r.statement)))
    else RowTexts([Row(1, RuleLine(r))])
  }

  function Flatten<X, Y>(xs: seq<X>, f: X -> seq<Y>): seq<Y> {
    if xs == [] then [] else f(xs[0]) + Flatten(xs[1..], f)
  }

  function PolicyRows(p: PolicyBlock): seq<Row> {
    Block(Header(BlockKw(BlockKey.Policy), p.name), Flatten(p.rules, RuleRows))
  }

  function PolicyText(p: PolicyBlock): string {
    Joined(RowTexts([Row(0, Header(BlockKw(BlockKey.Policy), p.name))])
           + Flatten(p.rules, RuleLines)
           + RowTexts([Row(0, CloseBrace(Stop))]))
  }

  function PeerFamilyRows(f: FamilyBlock): seq<Row> {
    [Row(0, Stop)] + Shift(FamilyRows(f))
  }

  function PeerFamilyLines(f: FamilyBlock): seq<string> {
    [""] + Reindent(RowsText(FamilyRows(f)))
  }

  function PeerRows(p: PeerBlock): seq<Row> {
    Block(Header(BlockKw(BlockKey.Peer), p.address),
          Each(p.settings, SettingLine) + Flatten(p.families, PeerFamilyRows))
  }

  function PeerText(p: PeerBlock): string {
    Joined(RowTexts([Row(0, Header(BlockKw(BlockKey.Peer), p.address))])
           + (RowTexts(Each(p.settings, SettingLine)) + Flatten(p.families, PeerFamilyLines))
           + RowTexts([Row(0, CloseBrace(Stop))]))
  }

  // One entry of the `service bgp` body, in printing order.
  datatype Item =
    | SettingItem(setting: Setting)
    | PeerItem(peer: PeerBlock)
    | BmpItem(bmp: BmpServerBlock)
    | RpkiItem(rpki: RpkiCacheBlock)
    | PolicyItem(policy: PolicyBlock)
    | PrefixListItem(prefixList: PrefixListBlock)
    | WordListItem(kind: SetBlockKey, wordList: WordListBlock)
    | BgpLsItem(instanceId: u64)
    | TelemetryItem(telemetry: TelemetryBlock)

  function ItemRows(i: Item): seq<Row> {
    match i
    case SettingItem(s) => [Row(0, SettingLine(s))]
    case PeerItem(p) => PeerRows(p)
    case BmpItem(b) => BmpRows(b)
    case RpkiItem(r) => RpkiRows(r)
    case PolicyItem(p) => PolicyRows(p)
    case PrefixListItem(p) => PrefixListRows(p)
    case WordListItem(kind, b) => WordListRows(kind, b)
    case BgpLsItem(v) => BgpLsRows(v)
    case TelemetryItem(t) => TelemetryRows(t)
  }

  function ItemText(i: Item): string
    requires !i.SettingItem?
  {
    match i
    case PeerItem(p) => PeerText(p)
    case PolicyItem(p) => PolicyText(p)
    case _ => RowsText(ItemRows(i))
  }

  function ItemLines(i: Item): seq<string> {
    if i.SettingItem? then RowTexts([Row(1, SettingLine(i.setting))]) else Reindent(ItemText(i))
  }

  function Map<X, Y>(xs: seq<X>, f: X -> Y): (ys: seq<Y>)
    ensures |ys| == |xs| && forall i | 0 <= i < |xs| :: ys[i] == f(xs[i])
  {
    seq(|xs|, i requires 0 <= i < |xs| => f(xs[i]))
  }

  function Items(b: Body): seq<Item> {
    Map(b.settings, s => SettingItem(s)) +
    (Map(b.peers, p => PeerItem(p)) +
    (Map(b.bmpServers, p => BmpItem(p)) +
    (Map(b.rpkiCaches, p => RpkiItem(p)) +
    (Map(b.policies, p => PolicyItem(p)) +
    (Map(b.prefixLists, p => PrefixListItem(p)) +
     SetItems(b))))))
  }

  function SetItems(b: Body): seq<Item> {
    Map(b.neighborSets, p => WordListItem(SetBlockKey.NeighborSet, p)) +
    (Map(b.asPathSets, p => WordListItem(SetBlockKey.AsPathSet, p)) +
    (Map(b.communitySets, p => WordListItem(SetBlockKey.CommunitySet, p)) +
    (Map(b.extCommunitySets, p => WordListItem(SetBlockKey.ExtCommunitySet, p)) +
    (Map(b.largeCommunitySets, p => WordListItem(SetBlockKey.LargeCommunitySet, p)) +
    ((if b.bgpLs.Some? then [BgpLsItem(b.bgpLs.value)] else []) +
     (if b.telemetry.Some? then [TelemetryItem(b.telemetry.value)] else []))))))
  }

  // A blank line comes before every block but not before settings or the first entry.
  function Gap(i: Item, first: bool): bool {
    !first && !i.SettingItem?
  }

  function ItemsRows(items: seq<Item>, first: bool): seq<Row> {
    if items == [] then []
    else
      var gap := if Gap(items[0], first) then [Row(0, Stop)] else [];
      gap + (Shift(ItemRows(items[0])) + ItemsRows(items[1..], false))
  }

  function ItemsLines(items: seq<Item>, first: bool): seq<string> {
    if items == [] then []
    else (if Gap(items[0], first) then [""] else []) + (ItemLines(items[0]) + ItemsLines(items[1..], false))
  }

  const SERVICE_HEADER: Line := Key(BlockKw(Service), Key(BlockKw(Bgp), OpenBrace(Stop)))

  function BodyRows(b: Body): seq<Row> {
    Block(SERVICE_HEADER, ItemsRows(Items(b), true))
  }

  function BodyText(b: Body): string {
    Joined(RowTexts([Row(0, SERVICE_HEADER)])
           + ItemsLines(Items(b), true)
           + RowTexts([Row(0, CloseBrace(Stop))]))
  }

  // `impl Display for Root`: services end with a line feed, a blank line between them.
  function RootText(r: Root): string {
    ServicesText(r.services, true)
  }

  function ServicesText(bodies: seq<Body>, first: bool): string {
    if bodies == [] then []
    else (if first then "" else "\n") + (BodyText(bodies[0]) + "\n" + ServicesText(bodies[1..], false))
  }

  function ServicesRows(bodies: seq<Body>, first: bool): seq<Row> {
    if bodies == [] then []
    else (if first then [] else [Row(0, Stop)]) + (BodyRows(bodies[0]) + ServicesRows(bodies[1..], false))
  }
}
