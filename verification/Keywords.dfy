// The vocabulary of the rogg configuration language (conf/src/language_bgp.rs):
// every word the parser dispatches on, grouped by the scope that gives it its meaning.
// The parser compares words with these texts and the printer writes them; that the two
// agree rests on TextInjective: no two keywords have the same text.
module Keywords {
  import opened Lexer
  import opened Wrappers

  // Settings of the `service bgp` body.
  datatype TopKey = Asn | RouterId | ListenAddr | GrpcListenAddr | LogLevel | HoldTime |
    ConnectRetry | ClusterId | SysName | SysDescr | EnhancedRrStaleTtl

  function TopText(k: TopKey): string {
    match k
    case Asn => "asn" case RouterId => "router-id" case ListenAddr => "listen-addr"
    case GrpcListenAddr => "grpc-listen-addr" case LogLevel => "log-level"
    case HoldTime => "hold-time" case ConnectRetry => "connect-retry" case ClusterId => "cluster-id"
    case SysName => "sys-name" case SysDescr => "sys-descr"
    case EnhancedRrStaleTtl => "enhanced-rr-stale-ttl"
  }

  // Settings of a `peer` block.
  datatype PeerKey = RemoteAs | Port | Interface | Md5KeyFile | TtlMin | NextHopSelf | Passive |
    RrClient | RsClient | GracefulShutdown | DelayOpenTimeSecs | IdleHoldTimeSecs |
    DampPeerOscillations | AllowAutomaticStop | SendNotificationWithoutOpen |
    MinRouteAdvertisementIntervalSecs | EnforceFirstAs | SendRpkiCommunity | AdminDown

  function PeerText(k: PeerKey): string {
    if FlagKey(k) then FlagText(k)
    else if SessionKey(k) then SessionText(k)
    else if TimerKey(k) then TimerText(k)
    else PlainText(k)
  }

  // Peer settings that take `true` or `false`.
  predicate FlagKey(k: PeerKey) {
    || k.NextHopSelf? || k.Passive? || k.RrClient? || k.RsClient?
    || k.GracefulShutdown? || k.EnforceFirstAs? || k.AdminDown?
  }

  function FlagText(k: PeerKey): string
    requires FlagKey(k)
  {
    match k
    case NextHopSelf => "next-hop-self" case Passive => "passive" case RrClient => "rr-client"
    case RsClient => "rs-client" case GracefulShutdown => "graceful-shutdown"
    case EnforceFirstAs => "enforce-first-as" case AdminDown => "admin-down"
  }

  // Peer settings of the session state machine.
  predicate SessionKey(k: PeerKey) {
    || k.DampPeerOscillations? || k.AllowAutomaticStop? || k.SendNotificationWithoutOpen? || k.SendRpkiCommunity?
  }

  function SessionText(k: PeerKey): string
    requires SessionKey(k)
  {
    match k
    case DampPeerOscillations => "damp-peer-oscillations"
    case AllowAutomaticStop => "allow-automatic-stop"
    case SendNotificationWithoutOpen => "send-notification-without-open"
    case SendRpkiCommunity => "send-rpki-community"
  }

  // Peer settings that are numbers of seconds.
  predicate TimerKey(k: PeerKey) {
    || k.DelayOpenTimeSecs? || k.IdleHoldTimeSecs? || k.MinRouteAdvertisementIntervalSecs?
  }

  function TimerText(k: PeerKey): string
    requires TimerKey(k)
  {
    match k
    case DelayOpenTimeSecs => "delay-open-time-secs" case IdleHoldTimeSecs => "idle-hold-time-secs"
    case MinRouteAdvertisementIntervalSecs => "min-route-advertisement-interval-secs"
  }

  // Peer settings that take a number or a word.
  predicate PlainKey(k: PeerKey) {
    || k.RemoteAs? || k.Port? || k.Interface? || k.Md5KeyFile?
    || k.TtlMin?
  }

  function PlainText(k: PeerKey): string
    requires PlainKey(k)
  {
    match k
    case RemoteAs => "remote-as" case Port => "port" case Interface => "interface"
    case Md5KeyFile => "md5-key-file" case TtlMin => "ttl-min"
  }

  // Directives of an `rpki-cache` block.
  datatype RpkiCacheKey = Preference | Transport | SshUsername | SshPrivateKeyFile |
    SshKnownHostsFile | RetryInterval | RefreshInterval | ExpireInterval

  function RpkiText(k: RpkiCacheKey): string {
    match k
    case Preference => "preference" case Transport => "transport" case SshUsername => "ssh-username"
    case SshPrivateKeyFile => "ssh-private-key-file"
    case SshKnownHostsFile => "ssh-known-hosts-file" case RetryInterval => "retry-interval"
    case RefreshInterval => "refresh-interval" case ExpireInterval => "expire-interval"
  }

  // Blocks with their own sub-grammar.
  datatype BlockKey = Service | Bgp | Peer | Family | Policy | Statement | BmpServer | RpkiCache |
    BgpLs | Telemetry

  function BlockText(k: BlockKey): string {
    match k
    case Service => "service" case Bgp => "bgp" case Peer => "peer" case Family => "family"
    case Policy => "policy" case Statement => "statement" case BmpServer => "bmp-server"
    case RpkiCache => "rpki-cache" case BgpLs => "bgp-ls" case Telemetry => "telemetry"
  }

  // Defined-set blocks (the last five also name match clauses).
  datatype SetBlockKey = PrefixList | NeighborSet | AsPathSet | CommunitySet | ExtCommunitySet |
    LargeCommunitySet

  function SetBlockText(k: SetBlockKey): string {
    match k
    case PrefixList => "prefix-list" case NeighborSet => "neighbor-set"
    case AsPathSet => "as-path-set" case CommunitySet => "community-set"
    case ExtCommunitySet => "ext-community-set" case LargeCommunitySet => "large-community-set"
  }

  // Words of a `family` block; `all` is also a match option.
  datatype FamilyWord = Export | Import | MaxPrefix | Action | Terminate | Discard | AddPathSend |
    All | Disabled

  function FamilyText(k: FamilyWord): string {
    match k
    case Export => "export" case Import => "import" case MaxPrefix => "max-prefix"
    case Action => "action" case Terminate => "terminate" case Discard => "discard"
    case AddPathSend => "add-path-send" case All => "all" case Disabled => "disabled"
  }

  // Words of `policy` and `statement` blocks.
  datatype PolicyWord = Match | Default | Set | Accept | Reject | Any | Invert | Force | Remove |
    Add | Replace

  function PolicyText(k: PolicyWord): string {
    match k
    case Match => "match" case Default => "default" case Set => "set" case Accept => "accept"
    case Reject => "reject" case Any => "any" case Invert => "invert" case Force => "force"
    case Remove => "remove" case Add => "add" case Replace => "replace"
  }

  // Kinds of match clause (`community` is also a set clause).
  datatype MatchWord = PrefixSet | Prefix | Neighbor | HasAsn | RouteType | Community | Rpki |
    AfiSafi | LsNlriType | LsProtocolId | LsInstanceId | LsNodeAs | LsNodeRouterId

  function MatchText(k: MatchWord): string {
    match k
    case PrefixSet => "prefix-set" case Prefix => "prefix" case Neighbor => "neighbor"
    case HasAsn => "has-asn" case RouteType => "route-type" case Community => "community"
    case Rpki => "rpki" case AfiSafi => "afi-safi" case LsNlriType => "ls-nlri-type"
    case LsProtocolId => "ls-protocol-id" case LsInstanceId => "ls-instance-id"
    case LsNodeAs => "ls-node-as" case LsNodeRouterId => "ls-node-router-id"
  }

  // Kinds of set clause.
  datatype SetWord = LocalPref | Med | ExtCommunity | LargeCommunity | RpkiState

  function SetText(k: SetWord): string {
    match k
    case LocalPref => "local-pref" case Med => "med" case ExtCommunity => "ext-community"
    case LargeCommunity => "large-community" case RpkiState => "rpki-state"
  }

  // Words of leaf statements and of small blocks.
  datatype LeafWord = Originate | Nexthop | Exact | Ge | Le | StatisticsTimeout | InstanceId | Json
    | CloudwatchEmf | Prometheus | Namespace | Listen

  function LeafText(k: LeafWord): string {
    match k
    case Originate => "originate" case Nexthop => "nexthop" case Exact => "exact" case Ge => "ge"
    case Le => "le" case StatisticsTimeout => "statistics-timeout" case InstanceId => "instance-id"
    case Json => "json" case CloudwatchEmf => "cloudwatch-emf" case Prometheus => "prometheus"
    case Namespace => "namespace" case Listen => "listen"
  }

  // Words that are values: families, transports, states, booleans.
  datatype ValueWord = Ipv4 | Ipv6 | Ls | Unicast | Multicast | MplsLabel | LinkState | LinkStateVpn
    | Tcp | Ssh | Valid | Invalid | NotFound | True | False

  function ValueText(k: ValueWord): string {
    match k
    case Ipv4 => "ipv4" case Ipv6 => "ipv6" case Ls => "ls" case Unicast => "unicast"
    case Multicast => "multicast" case MplsLabel => "mpls-label" case LinkState => "link-state"
    case LinkStateVpn => "link-state-vpn" case Tcp => "tcp" case Ssh => "ssh" case Valid => "valid"
    case Invalid => "invalid" case NotFound => "not-found" case True => "true" case False => "false"
  }

  datatype Keyword = TopKw(t: TopKey) | PeerKw(p: PeerKey) | RpkiKw(r: RpkiCacheKey) | BlockKw(b:
    BlockKey) | SetBlockKw(sb: SetBlockKey) | FamilyKw(f: FamilyWord) | PolicyKw(pw: PolicyWord) |
    MatchKw(m: MatchWord) | SetKw(s: SetWord) | LeafKw(l: LeafWord) | ValueKw(v: ValueWord)

  function Text(k: Keyword): string {
    match k
    case TopKw(k) => TopText(k)
    case PeerKw(k) => PeerText(k)
    case RpkiKw(k) => RpkiText(k)
    case BlockKw(k) => BlockText(k)
    case SetBlockKw(k) => SetBlockText(k)
    case FamilyKw(k) => FamilyText(k)
    case PolicyKw(k) => PolicyText(k)
    case MatchKw(k) => MatchText(k)
    case SetKw(k) => SetText(k)
    case LeafKw(k) => LeafText(k)
    case ValueKw(k) => ValueText(k)
  }

  // ----- keywords are plain words -----

  predicate KeywordChar(c: char) { 'a' <= c <= 'z' || c == '-' || '0' <= c <= '9' }

  predicate Spelled(s: string) { s != [] && forall c | c in s :: KeywordChar(c) }

  lemma TopTextSpelled(k: TopKey)
    ensures Spelled(TopText(k))
  {}

  lemma FlagTextSpelled(k: PeerKey)
    requires FlagKey(k)
    ensures Spelled(FlagText(k))
  {}

  lemma SpelledTwice(a: string, b: string)
    requires Spelled(a) && Spelled(b)
    ensures Spelled(a + b)
  {
  }

  lemma SessionTextSpelled(k: PeerKey)
    requires SessionKey(k)
    ensures Spelled(SessionText(k))
  {
    match k
    case DampPeerOscillations => SpelledTwice("damp-peer", "-oscillations");
    case AllowAutomaticStop => SpelledTwice("allow-automatic", "-stop");
    case SendNotificationWithoutOpen => SpelledTwice("send-notification", "-without-open");
    case SendRpkiCommunity => SpelledTwice("send-rpki", "-community");
  }

  lemma TimerTextSpelled(k: PeerKey)
    requires TimerKey(k)
    ensures Spelled(TimerText(k))
  {
    match k
    case DelayOpenTimeSecs => SpelledTwice("delay-open", "-time-secs");
    case IdleHoldTimeSecs => SpelledTwice("idle-hold", "-time-secs");
    case MinRouteAdvertisementIntervalSecs => SpelledTwice("min-route-advertisement", "-interval-secs");
  }

  lemma PlainTextSpelled(k: PeerKey)
    requires PlainKey(k)
    ensures Spelled(PlainText(k))
  {}

  lemma RpkiTextSpelled(k: RpkiCacheKey)
    ensures Spelled(RpkiText(k))
  {}

  lemma BlockTextSpelled(k: BlockKey)
    ensures Spelled(BlockText(k))
  {}

  lemma SetBlockTextSpelled(k: SetBlockKey)
    ensures Spelled(SetBlockText(k))
  {}

  lemma FamilyTextSpelled(k: FamilyWord)
    ensures Spelled(FamilyText(k))
  {}

  lemma PolicyTextSpelled(k: PolicyWord)
    ensures Spelled(PolicyText(k))
  {}

  lemma MatchTextSpelled(k: MatchWord)
    ensures Spelled(MatchText(k))
  {}

  lemma SetTextSpelled(k: SetWord)
    ensures Spelled(SetText(k))
  {}

  lemma LeafTextSpelled(k: LeafWord)
    ensures Spelled(LeafText(k))
  {}

  lemma ValueTextSpelled(k: ValueWord)
    ensures Spelled(ValueText(k))
  {}

  lemma TextPlain(k: Keyword)
    ensures PlainWord(Text(k))
  {
    match k
    case TopKw(k) => TopTextSpelled(k);
    case PeerKw(k) =>
      if FlagKey(k) { FlagTextSpelled(k); }
      else if SessionKey(k) { SessionTextSpelled(k); }
      else if TimerKey(k) { TimerTextSpelled(k); }
      else { PlainTextSpelled(k); }
    case RpkiKw(k) => RpkiTextSpelled(k);
    case BlockKw(k) => BlockTextSpelled(k);
    case SetBlockKw(k) => SetBlockTextSpelled(k);
    case FamilyKw(k) => FamilyTextSpelled(k);
    case PolicyKw(k) => PolicyTextSpelled(k);
    case MatchKw(k) => MatchTextSpelled(k);
    case SetKw(k) => SetTextSpelled(k);
    case LeafKw(k) => LeafTextSpelled(k);
    case ValueKw(k) => ValueTextSpelled(k);
  }

  // ----- keywords are told apart by four of their characters -----

  ghost function Code(w: string): int
    requires |w| >= 2
  {
    var n := |w|;
    ((w[1] as int * 128 + w[n / 2] as int) * 128 + w[n - 2] as int) * 128 + w[n - 1] as int
  }

  ghost function TopCode(k: TopKey): int {
    match k
    case Asn => 243071470 case RouterId => 234452196 case ListenAddr => 222016114
    case GrpcListenAddr => 240988786 case LogLevel => 234566380 case HoldTime => 233535205
    case ConnectRetry => 234699129 case ClusterId => 228160740 case SysName => 255571685
    case SysDescr => 255406578 case EnhancedRrStaleTtl => 232569452
  }

  ghost function PeerCode(k: PeerKey): int {
    match k
    case RemoteAs => 213725427 case Port => 234666356 case Interface => 232567269
    case Md5KeyFile => 211711589 case TtlMin => 244020462 case NextHopSelf => 213644902
    case Passive => 205323109 case RrClient => 240858996 case RsClient => 242956148
    case GracefulShutdown => 239827950 case DelayOpenTimeSecs => 212562419
    case IdleHoldTimeSecs => 210465267 case DampPeerOscillations => 205322099
    case AllowAutomaticStop => 228292592 case SendNotificationWithoutOpen => 213644014
    case MinRouteAdvertisementIntervalSecs => 221868531 case EnforceFirstAs => 232370419
    case SendRpkiCommunity => 212564601 case AdminDown => 210467822
  }

  ghost function RpkiCode(k: RpkiCacheKey): int {
    match k
    case Preference => 240955877 case Transport => 240974196 case SshUsername => 242841317
    case SshPrivateKeyFile => 242841189 case SshKnownHostsFile => 242890341
    case RetryInterval => 213627116 case RefreshInterval => 213545196
    case ExpireInterval => 253391084
  }

  ghost function BlockCode(k: BlockKey): int {
    match k
    case Service => 213758437 case Bgp => 217707504 case Peer => 213480178 case Family => 205158009
    case Policy => 234516985 case Statement => 244938612 case BmpServer => 230257394
    case RpkiCache => 236516453 case BgpLs => 216757875 case Telemetry => 213612921
  }

  ghost function SetBlockCode(k: SetBlockKey): int {
    match k
    case PrefixList => 241056244 case NeighborSet => 213644020 case AsPathSet => 243086068
    case CommunitySet => 234517236 case ExtCommunitySet => 253588212
    case LargeCommunitySet => 205222644
  }

  ghost function FamilyCode(k: FamilyWord): int {
    match k
    case Export => 253491572 case Import => 230422900 case MaxPrefix => 205305080
    case Action => 209352686 case Terminate => 213547621 case Discard => 221837668
    case AddPathSend => 211629924 case All => 228275820 case Disabled => 221819620
  }

  ghost function PolicyCode(k: PolicyWord): int {
    match k
    case Match => 205337064 case Default => 213415540 case Set => 213480180 case Accept => 209287284
    case Reject => 213479924 case Any => 232503161 case Invert => 232356212 case Force => 234664421
    case Remove => 213646181 case Add => 211366500 case Replace => 213594597
  }

  ghost function MatchCode(k: MatchWord): int {
    match k
    case PrefixSet => 241054452 case Prefix => 240760056 case Neighbor => 213530610
    case HasAsn => 204175854 case RouteType => 233535589 case Community => 234715769
    case Rpki => 236647913 case AfiSafi => 215806825 case LsNlriType => 242907237
    case LsProtocolId => 243004644 case LsInstanceId => 242775268 case LsNodeAs => 242823411
    case LsNodeRouterId => 243053796
  }

  ghost function SetCode(k: SetWord): int {
    match k
    case LocalPref => 233534182 case Med => 213480164 case ExtCommunity => 253459065
    case LargeCommunity => 205257337 case RpkiState => 236780133
  }

  ghost function LeafCode(k: LeafWord): int {
    match k
    case Originate => 240810597 case Nexthop => 213727216 case Exact => 253260276
    case Ge => 213480421 case Le => 213481061 case StatisticsTimeout => 245168884
    case InstanceId => 232502500 case Json => 243005422 case CloudwatchEmf => 228407014
    case Prometheus => 240990963 case Namespace => 205320677 case Listen => 222114542
  }

  ghost function ValueCode(k: ValueWord): int {
    match k
    case Ipv4 => 236829492 case Ipv6 => 236829494 case Ls => 243070579 case Unicast => 232323572
    case Multicast => 247101940 case MplsLabel => 236663532 case LinkState => 222100069
    case LinkStateVpn => 221804654 case Tcp => 209252848 case Ssh => 243071464
    case Valid => 205206756 case Invalid => 232289508 case NotFound => 234469220
    case True => 241007333 case False => 205208037
  }

  ghost function KeyCode(k: Keyword): int {
    match k
    case TopKw(k) => TopCode(k)
    case PeerKw(k) => PeerCode(k)
    case RpkiKw(k) => RpkiCode(k)
    case BlockKw(k) => BlockCode(k)
    case SetBlockKw(k) => SetBlockCode(k)
    case FamilyKw(k) => FamilyCode(k)
    case PolicyKw(k) => PolicyCode(k)
    case MatchKw(k) => MatchCode(k)
    case SetKw(k) => SetCode(k)
    case LeafKw(k) => LeafCode(k)
    case ValueKw(k) => ValueCode(k)
  }

  lemma TopTextCode(k: TopKey)
    ensures |TopText(k)| >= 2 && Code(TopText(k)) == TopCode(k)
  {}

  lemma FlagTextCode(k: PeerKey)
    requires FlagKey(k)
    ensures |FlagText(k)| >= 2 && Code(FlagText(k)) == PeerCode(k)
  {}

  lemma SessionTextCode(k: PeerKey)
    requires SessionKey(k)
    ensures |SessionText(k)| >= 2 && Code(SessionText(k)) == PeerCode(k)
  {}

  lemma TimerTextCode(k: PeerKey)
    requires TimerKey(k)
    ensures |TimerText(k)| >= 2 && Code(TimerText(k)) == PeerCode(k)
  {}

  lemma PlainTextCode(k: PeerKey)
    requires PlainKey(k)
    ensures |PlainText(k)| >= 2 && Code(PlainText(k)) == PeerCode(k)
  {}

  lemma RpkiTextCode(k: RpkiCacheKey)
    ensures |RpkiText(k)| >= 2 && Code(RpkiText(k)) == RpkiCode(k)
  {}

  lemma BlockTextCode(k: BlockKey)
    ensures |BlockText(k)| >= 2 && Code(BlockText(k)) == BlockCode(k)
  {}

  lemma SetBlockTextCode(k: SetBlockKey)
    ensures |SetBlockText(k)| >= 2 && Code(SetBlockText(k)) == SetBlockCode(k)
  {}

  lemma FamilyTextCode(k: FamilyWord)
    ensures |FamilyText(k)| >= 2 && Code(FamilyText(k)) == FamilyCode(k)
  {}

  lemma PolicyTextCode(k: PolicyWord)
    ensures |PolicyText(k)| >= 2 && Code(PolicyText(k)) == PolicyCode(k)
  {}

  lemma MatchTextCode(k: MatchWord)
    ensures |MatchText(k)| >= 2 && Code(MatchText(k)) == MatchCode(k)
  {}

  lemma SetTextCode(k: SetWord)
    ensures |SetText(k)| >= 2 && Code(SetText(k)) == SetCode(k)
  {}

  lemma LeafTextCode(k: LeafWord)
    ensures |LeafText(k)| >= 2 && Code(LeafText(k)) == LeafCode(k)
  {}

  lemma ValueTextCode(k: ValueWord)
    ensures |ValueText(k)| >= 2 && Code(ValueText(k)) == ValueCode(k)
  {}

  lemma TextCode(k: Keyword)
    ensures |Text(k)| >= 2 && Code(Text(k)) == KeyCode(k)
  {
    match k
    case TopKw(k) => TopTextCode(k);
    case PeerKw(k) =>
      if FlagKey(k) { FlagTextCode(k); }
      else if SessionKey(k) { SessionTextCode(k); }
      else if TimerKey(k) { TimerTextCode(k); }
      else { PlainTextCode(k); }
    case RpkiKw(k) => RpkiTextCode(k);
    case BlockKw(k) => BlockTextCode(k);
    case SetBlockKw(k) => SetBlockTextCode(k);
    case FamilyKw(k) => FamilyTextCode(k);
    case PolicyKw(k) => PolicyTextCode(k);
    case MatchKw(k) => MatchTextCode(k);
    case SetKw(k) => SetTextCode(k);
    case LeafKw(k) => LeafTextCode(k);
    case ValueKw(k) => ValueTextCode(k);
  }

  lemma TopCodeUnique(a: TopKey, b: Keyword)
    requires TopCode(a) == KeyCode(b)
    ensures b == TopKw(a)
  {}

  lemma PeerCodeUnique(a: PeerKey, b: Keyword)
    requires PeerCode(a) == KeyCode(b)
    ensures b == PeerKw(a)
  {}

  lemma RpkiCodeUnique(a: RpkiCacheKey, b: Keyword)
    requires RpkiCode(a) == KeyCode(b)
    ensures b == RpkiKw(a)
  {}

  lemma BlockCodeUnique(a: BlockKey, b: Keyword)
    requires BlockCode(a) == KeyCode(b)
    ensures b == BlockKw(a)
  {}

  lemma SetBlockCodeUnique(a: SetBlockKey, b: Keyword)
    requires SetBlockCode(a) == KeyCode(b)
    ensures b == SetBlockKw(a)
  {}

  lemma FamilyCodeUnique(a: FamilyWord, b: Keyword)
    requires FamilyCode(a) == KeyCode(b)
    ensures b == FamilyKw(a)
  {}

  lemma PolicyCodeUnique(a: PolicyWord, b: Keyword)
    requires PolicyCode(a) == KeyCode(b)
    ensures b == PolicyKw(a)
  {}

  lemma MatchCodeUnique(a: MatchWord, b: Keyword)
    requires MatchCode(a) == KeyCode(b)
    ensures b == MatchKw(a)
  {}

  lemma SetCodeUnique(a: SetWord, b: Keyword)
    requires SetCode(a) == KeyCode(b)
    ensures b == SetKw(a)
  {}

  lemma LeafCodeUnique(a: LeafWord, b: Keyword)
    requires LeafCode(a) == KeyCode(b)
    ensures b == LeafKw(a)
  {}

  lemma ValueCodeUnique(a: ValueWord, b: Keyword)
    requires ValueCode(a) == KeyCode(b)
    ensures b == ValueKw(a)
  {}

  lemma TextInjective(a: Keyword, b: Keyword)
    requires Text(a) == Text(b)
    ensures a == b
  {
    TextCode(a);
    TextCode(b);
    match a
    case TopKw(k) => TopCodeUnique(k, b);
    case PeerKw(k) => PeerCodeUnique(k, b);
    case RpkiKw(k) => RpkiCodeUnique(k, b);
    case BlockKw(k) => BlockCodeUnique(k, b);
    case SetBlockKw(k) => SetBlockCodeUnique(k, b);
    case FamilyKw(k) => FamilyCodeUnique(k, b);
    case PolicyKw(k) => PolicyCodeUnique(k, b);
    case MatchKw(k) => MatchCodeUnique(k, b);
    case SetKw(k) => SetCodeUnique(k, b);
    case LeafKw(k) => LeafCodeUnique(k, b);
    case ValueKw(k) => ValueCodeUnique(k, b);
  }

  // ----- looking a word up -----

  function FindTop(w: string): (k: Option<TopKey>) {
    if exists k: TopKey :: TopText(k) == w then
      TopTextUnique();
      var k: TopKey :| TopText(k) == w;
      Some(k)
    else
      None
  }

  lemma TopTextUnique()
    ensures forall a: TopKey, b: TopKey | TopText(a) == TopText(b) :: a == b
  {
    forall a: TopKey, b: TopKey | TopText(a) == TopText(b) ensures a == b {
      TextInjective(TopKw(a), TopKw(b));
    }
  }

  function FindPeer(w: string): (k: Option<PeerKey>) {
    if exists k: PeerKey :: PeerText(k) == w then
      PeerTextUnique();
      var k: PeerKey :| PeerText(k) == w;
      Some(k)
    else
      None
  }

  lemma PeerTextUnique()
    ensures forall a: PeerKey, b: PeerKey | PeerText(a) == PeerText(b) :: a == b
  {
    forall a: PeerKey, b: PeerKey | PeerText(a) == PeerText(b) ensures a == b {
      TextInjective(PeerKw(a), PeerKw(b));
    }
  }

  function FindRpki(w: string): (k: Option<RpkiCacheKey>) {
    if exists k: RpkiCacheKey :: RpkiText(k) == w then
      RpkiTextUnique();
      var k: RpkiCacheKey :| RpkiText(k) == w;
      Some(k)
    else
      None
  }

  lemma RpkiTextUnique()
    ensures forall a: RpkiCacheKey, b: RpkiCacheKey | RpkiText(a) == RpkiText(b) :: a == b
  {
    forall a: RpkiCacheKey, b: RpkiCacheKey | RpkiText(a) == RpkiText(b) ensures a == b {
      TextInjective(RpkiKw(a), RpkiKw(b));
    }
  }

  function FindBlock(w: string): (k: Option<BlockKey>) {
    if exists k: BlockKey :: BlockText(k) == w then
      BlockTextUnique();
      var k: BlockKey :| BlockText(k) == w;
      Some(k)
    else
      None
  }

  lemma BlockTextUnique()
    ensures forall a: BlockKey, b: BlockKey | BlockText(a) == BlockText(b) :: a == b
  {
    forall a: BlockKey, b: BlockKey | BlockText(a) == BlockText(b) ensures a == b {
      TextInjective(BlockKw(a), BlockKw(b));
    }
  }

  function FindSetBlock(w: string): (k: Option<SetBlockKey>) {
    if exists k: SetBlockKey :: SetBlockText(k) == w then
      SetBlockTextUnique();
      var k: SetBlockKey :| SetBlockText(k) == w;
      Some(k)
    else
      None
  }

  lemma SetBlockTextUnique()
    ensures forall a: SetBlockKey, b: SetBlockKey | SetBlockText(a) == SetBlockText(b) :: a == b
  {
    forall a: SetBlockKey, b: SetBlockKey | SetBlockText(a) == SetBlockText(b) ensures a == b {
      TextInjective(SetBlockKw(a), SetBlockKw(b));
    }
  }

  function FindFamily(w: string): (k: Option<FamilyWord>) {
    if exists k: FamilyWord :: FamilyText(k) == w then
      FamilyTextUnique();
      var k: FamilyWord :| FamilyText(k) == w;
      Some(k)
    else
      None
  }

  lemma FamilyTextUnique()
    ensures forall a: FamilyWord, b: FamilyWord | FamilyText(a) == FamilyText(b) :: a == b
  {
    forall a: FamilyWord, b: FamilyWord | FamilyText(a) == FamilyText(b) ensures a == b {
      TextInjective(FamilyKw(a), FamilyKw(b));
    }
  }

  function FindPolicy(w: string): (k: Option<PolicyWord>) {
    if exists k: PolicyWord :: PolicyText(k) == w then
      PolicyTextUnique();
      var k: PolicyWord :| PolicyText(k) == w;
      Some(k)
    else
      None
  }

  lemma PolicyTextUnique()
    ensures forall a: PolicyWord, b: PolicyWord | PolicyText(a) == PolicyText(b) :: a == b
  {
    forall a: PolicyWord, b: PolicyWord | PolicyText(a) == PolicyText(b) ensures a == b {
      TextInjective(PolicyKw(a), PolicyKw(b));
    }
  }

  function FindMatch(w: string): (k: Option<MatchWord>) {
    if exists k: MatchWord :: MatchText(k) == w then
      MatchTextUnique();
      var k: MatchWord :| MatchText(k) == w;
      Some(k)
    else
      None
  }

  lemma MatchTextUnique()
    ensures forall a: MatchWord, b: MatchWord | MatchText(a) == MatchText(b) :: a == b
  {
    forall a: MatchWord, b: MatchWord | MatchText(a) == MatchText(b) ensures a == b {
      TextInjective(MatchKw(a), MatchKw(b));
    }
  }

  function FindSet(w: string): (k: Option<SetWord>) {
    if exists k: SetWord :: SetText(k) == w then
      SetTextUnique();
      var k: SetWord :| SetText(k) == w;
      Some(k)
    else
      None
  }

  lemma SetTextUnique()
    ensures forall a: SetWord, b: SetWord | SetText(a) == SetText(b) :: a == b
  {
    forall a: SetWord, b: SetWord | SetText(a) == SetText(b) ensures a == b {
      TextInjective(SetKw(a), SetKw(b));
    }
  }

  function FindLeaf(w: string): (k: Option<LeafWord>) {
    if exists k: LeafWord :: LeafText(k) == w then
      LeafTextUnique();
      var k: LeafWord :| LeafText(k) == w;
      Some(k)
    else
      None
  }

  lemma LeafTextUnique()
    ensures forall a: LeafWord, b: LeafWord | LeafText(a) == LeafText(b) :: a == b
  {
    forall a: LeafWord, b: LeafWord | LeafText(a) == LeafText(b) ensures a == b {
      TextInjective(LeafKw(a), LeafKw(b));
    }
  }

  function FindValue(w: string): (k: Option<ValueWord>) {
    if exists k: ValueWord :: ValueText(k) == w then
      ValueTextUnique();
      var k: ValueWord :| ValueText(k) == w;
      Some(k)
    else
      None
  }

  lemma ValueTextUnique()
    ensures forall a: ValueWord, b: ValueWord | ValueText(a) == ValueText(b) :: a == b
  {
    forall a: ValueWord, b: ValueWord | ValueText(a) == ValueText(b) ensures a == b {
      TextInjective(ValueKw(a), ValueKw(b));
    }
  }

  // The keyword a word spells, if any.
  function KeywordOf(w: string): (k: Option<Keyword>) {
    if FindTop(w).Some? then Some(TopKw(FindTop(w).value))
    else if FindPeer(w).Some? then Some(PeerKw(FindPeer(w).value))
    else if FindRpki(w).Some? then Some(RpkiKw(FindRpki(w).value))
    else if FindBlock(w).Some? then Some(BlockKw(FindBlock(w).value))
    else if FindSetBlock(w).Some? then Some(SetBlockKw(FindSetBlock(w).value))
    else if FindFamily(w).Some? then Some(FamilyKw(FindFamily(w).value))
    else if FindPolicy(w).Some? then Some(PolicyKw(FindPolicy(w).value))
    else if FindMatch(w).Some? then Some(MatchKw(FindMatch(w).value))
    else if FindSet(w).Some? then Some(SetKw(FindSet(w).value))
    else if FindLeaf(w).Some? then Some(LeafKw(FindLeaf(w).value))
    else if FindValue(w).Some? then Some(ValueKw(FindValue(w).value))
    else None
  }

  lemma KeywordOfText(k: Keyword)
    ensures KeywordOf(Text(k)) == Some(k)
  {
    var f := KeywordOf(Text(k));
    if f.Some? {
      TextInjective(f.value, k);
    }
  }
}
