// The typed syntax tree of a configuration file (conf/src/language_bgp.rs, language.rs).
module Ast {
  import opened Decimal
  import opened Wrappers

  datatype Afi = Ipv4Afi | Ipv6Afi | LinkStateAfi
  datatype Safi = Unicast | Multicast | MplsLabel | LinkState | LinkStateVpn
  datatype TransportType = Tcp | Ssh

  datatype OriginateRoute = OriginateRoute(prefix: string, nexthop: string)

  datatype Setting =
    | Asn(u32: u32)
    | RouterId(ip: Ipv4)
    | ListenAddr(text: string)
    | GrpcListenAddr(text: string)
    | LogLevel(text: string)
    | HoldTime(u64: u64)
    | ConnectRetry(u64: u64)
    | ClusterId(ip: Ipv4)
    | SysName(text: string)
    | SysDescr(text: string)
    | EnhancedRrStaleTtl(u64: u64)
    | RemoteAs(u32: u32)
    | Port(u16: u16)
    | Interface(text: string)
    | Md5KeyFile(text: string)
    | TtlMin(u8: u8)
    | NextHopSelf(flag: bool)
    | Passive(flag: bool)
    | RrClient(flag: bool)
    | RsClient(flag: bool)
    | GracefulShutdown(flag: bool)
    | Originate(route: OriginateRoute)
    | DelayOpenTimeSecs(u64: u64)
    | IdleHoldTimeSecs(u64: u64)
    | DampPeerOscillations(flag: bool)
    | AllowAutomaticStop(flag: bool)
    | SendNotificationWithoutOpen(flag: bool)
    | MinRouteAdvertisementIntervalSecs(u64: u64)
    | EnforceFirstAs(flag: bool)
    | SendRpkiCommunity(flag: bool)
    | AdminDown(flag: bool)

  datatype MaxPrefixAction = Terminate | Discard
  datatype AddPathSend = All | Disabled

  datatype FamilyDirective =
    | ExportPolicy(name: string)
    | ImportPolicy(name: string)
    | MaxPrefix(limit: u32, action: MaxPrefixAction)
    | AddPath(mode: AddPathSend)

  datatype FamilyBlock = FamilyBlock(afi: Afi, safi: Safi, directives: seq<FamilyDirective>)

  datatype PeerBlock = PeerBlock(address: string, settings: seq<Setting>, families: seq<FamilyBlock>)

  datatype MatchOption = MatchAny | MatchAll | MatchInvert
  datatype MatchSetRef = MatchSetRef(setName: string, option: MatchOption)
  datatype RpkiValidation = Valid | Invalid | NotFound

  datatype MatchClause =
    | PrefixSet(ref: MatchSetRef)
    | NeighborSet(ref: MatchSetRef)
    | AsPathSet(ref: MatchSetRef)
    | CommunitySet(ref: MatchSetRef)
    | ExtCommunitySet(ref: MatchSetRef)
    | LargeCommunitySet(ref: MatchSetRef)
    | Prefix(text: string)
    | Neighbor(text: string)
    | HasAsn(u32: u32)
    | RouteType(text: string)
    | Community(text: string)
    | Rpki(state: RpkiValidation)
    | AfiSafi(text: string)
    | LsNlriType(text: string)
    | LsProtocolId(text: string)
    | LsInstanceId(u64: u64)
    | LsNodeAs(u32: u32)
    | LsNodeRouterId(text: string)

  datatype MedSet = MedSet(u32: u32) | MedRemove
  datatype CommunityOpKind = Add | Remove | Replace
  datatype CommunityOp = CommunityOp(op: CommunityOpKind, values: seq<string>)

  datatype SetClause =
    | LocalPref(value: u32, force: bool)
    | Med(med: MedSet)
    | SetCommunity(op: CommunityOp)
    | SetExtCommunity(op: CommunityOp)
    | SetLargeCommunity(op: CommunityOp)
    | SetRpkiState(state: RpkiValidation)

  datatype Disposition = Accept | Reject

  datatype StatementBlock = StatementBlock(
    name: Option<string>,
    matches: seq<MatchClause>,
    sets: seq<SetClause>,
    disposition: Option<Disposition>)

  datatype PolicyRule =
    | MatchRule(setName: string, action: string)
    | DefaultRule(action: string)
    | StatementRule(statement: StatementBlock)

  datatype PolicyBlock = PolicyBlock(name: string, rules: seq<PolicyRule>)

  datatype MasklengthRange = Exact | Range(ge: Option<u8>, le: Option<u8>)
  datatype PrefixListEntry = PrefixListEntry(prefix: string, range: Option<MasklengthRange>)
  datatype PrefixListBlock = PrefixListBlock(name: string, prefixes: seq<PrefixListEntry>)

  // neighbor-set, as-path-set, community-set, ext-community-set and large-community-set
  // blocks all hold a name and a list of words.
  datatype WordListBlock = WordListBlock(name: string, entries: seq<string>)

  datatype BmpServerBlock = BmpServerBlock(address: string, statisticsTimeout: Option<u64>)

  datatype RpkiCacheBlock = RpkiCacheBlock(
    address: string,
    preference: Option<u8>,
    transport: Option<TransportType>,
    sshUsername: Option<string>,
    sshPrivateKeyFile: Option<string>,
    sshKnownHostsFile: Option<string>,
    retryInterval: Option<u64>,
    refreshInterval: Option<u64>,
    expireInterval: Option<u64>)

  datatype TelemetryBlock = TelemetryBlock(
    json: bool,
    cloudwatchEmf: Option<string>,      // the namespace
    prometheus: Option<PrometheusBlock>)

  datatype PrometheusBlock = PrometheusBlock(listen: Option<string>)

  datatype Body = Body(
    settings: seq<Setting>,
    peers: seq<PeerBlock>,
    policies: seq<PolicyBlock>,
    prefixLists: seq<PrefixListBlock>,
    neighborSets: seq<WordListBlock>,
    asPathSets: seq<WordListBlock>,
    communitySets: seq<WordListBlock>,
    extCommunitySets: seq<WordListBlock>,
    largeCommunitySets: seq<WordListBlock>,
    bmpServers: seq<BmpServerBlock>,
    rpkiCaches: seq<RpkiCacheBlock>,
    bgpLs: Option<u64>,                 // the instance id
    telemetry: Option<TelemetryBlock>)

  const EMPTY_BODY := Body([], [], [], [], [], [], [], [], [], [], [], None, None)
  const EMPTY_TELEMETRY := TelemetryBlock(false, None, None)

  function EmptyRpkiCache(address: string): RpkiCacheBlock {
    RpkiCacheBlock(address, None, None, None, None, None, None, None, None)
  }

  // Every service is a BGP service.
  datatype Root = Root(services: seq<Body>)
}
