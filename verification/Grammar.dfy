// The command trees of the shell and the walk that parses a command line
// (ggsh/src/grammar.rs, ggsh/src/parser.rs).
module Grammar {
  import E = Edits
  import opened Keywords
  import opened Wrappers

  datatype ValueKind = AsnKind | Ipv4Kind | IpAddrKind | AddrPortKind | PrefixKind | AfiKind | SafiKind | LogLevelKind |
    StringKind | BoolKind | U8Kind | U16Kind | U64Kind | TransportKind | PolicyNameKind

  datatype Query = Summary | Info | Peers | OnePeer | PeerIn | PeerOut | Routes | Caches | Roa | Validate | History

  datatype Command =
    | Show(query: Query)
    | Version
    | Configure
    | Exit
    | EnterBgp
    | Commit
    | ShowDiff
    | ShowRunningConfig
    | ShowCandidate
    | SetTop(top: TopKey)
    | SetTopOriginate
    | SetPeer(peer: PeerKey)
    | SetPeerFamily(dir: E.PolicyDirection)
    | SetPolicyMatch
    | SetPolicyDefault
    | SetPrefixListEntry
    | SetBmpServer
    | SetRpkiCache(rpki: RpkiCacheKey)
    | SetBgpLs
    | SetTelemetryJson
    | SetTelemetryEmf
    | SetTelemetryPrometheus
    | SetTelemetryListen
    | UnsetTop(top: TopKey)
    | UnsetTopOriginate
    | UnsetPeer
    | UnsetPeerSetting(peer: PeerKey)
    | UnsetPeerFamily
    | UnsetPeerDirective(dir: E.PolicyDirection)
    | UnsetPolicy
    | UnsetPrefixList
    | UnsetPrefixListEntry
    | UnsetBmpServer
    | UnsetBmpTimeout
    | UnsetRpkiCache
    | UnsetRpkiField(rpki: RpkiCacheKey)
    | UnsetBgpLs
    | UnsetBgpLsSetting
    | UnsetTelemetry
    | UnsetTelemetryJson
    | UnsetTelemetryEmf
    | UnsetTelemetryPrometheus
    | UnsetTelemetryListen

  // An argument node has a kind, a keyword node none.
  datatype Node = Node(name: string, kind: Option<ValueKind>, command: Option<Command>, children: seq<Node>)

  function Kw(name: string, children: seq<Node>): Node { Node(name, None, None, children) }

  function KwDo(name: string, c: Command, children: seq<Node>): Node { Node(name, None, Some(c), children) }

  function Arg(name: string, kind: ValueKind, children: seq<Node>): Node { Node(name, Some(kind), None, children) }

  function ArgDo(name: string, kind: ValueKind, c: Command, children: seq<Node>): Node {
    Node(name, Some(kind), Some(c), children)
  }

  // ----- keys -----

  const TOP_KEYS: seq<TopKey> :=
    [Asn, RouterId, ListenAddr, GrpcListenAddr, LogLevel, HoldTime, ConnectRetry, ClusterId, SysName, SysDescr,
     EnhancedRrStaleTtl]

  const PEER_KEYS: seq<PeerKey> :=
    [RemoteAs, Port, Interface, Md5KeyFile, TtlMin, NextHopSelf, Passive, RrClient, RsClient, GracefulShutdown,
     DelayOpenTimeSecs, IdleHoldTimeSecs, DampPeerOscillations, AllowAutomaticStop, SendNotificationWithoutOpen,
     MinRouteAdvertisementIntervalSecs, EnforceFirstAs, SendRpkiCommunity, AdminDown]

  const RPKI_KEYS: seq<RpkiCacheKey> :=
    [Preference, Transport, SshUsername, SshPrivateKeyFile, SshKnownHostsFile, RetryInterval, RefreshInterval,
     ExpireInterval]

  function TopKind(k: TopKey): ValueKind {
    match k
    case Asn => AsnKind
    case RouterId => Ipv4Kind
    case ClusterId => Ipv4Kind
    case ListenAddr => AddrPortKind
    case GrpcListenAddr => AddrPortKind
    case LogLevel => LogLevelKind
    case SysName => StringKind
    case SysDescr => StringKind
    case _ => U64Kind
  }

  function PeerKind(k: PeerKey): ValueKind {
    match k
    case RemoteAs => AsnKind
    case Port => U16Kind
    case Interface => StringKind
    case Md5KeyFile => StringKind
    case TtlMin => U8Kind
    case DelayOpenTimeSecs => U64Kind
    case IdleHoldTimeSecs => U64Kind
    case MinRouteAdvertisementIntervalSecs => U64Kind
    case _ => BoolKind
  }

  function RpkiKind(k: RpkiCacheKey): ValueKind {
    match k
    case Preference => U8Kind
    case Transport => TransportKind
    case SshUsername => StringKind
    case SshPrivateKeyFile => StringKind
    case SshKnownHostsFile => StringKind
    case _ => U64Kind
  }

  // `setting_leaves`: a keyword and its value for every key.
  function TopLeaves(ks: seq<TopKey>): seq<Node> {
    if ks == [] then []
    else [Kw(Text(TopKw(ks[0])), [ArgDo("<value>", TopKind(ks[0]), SetTop(ks[0]), [])])] + TopLeaves(ks[1..])
  }

  function PeerLeaves(ks: seq<PeerKey>): seq<Node> {
    if ks == [] then []
    else [Kw(Text(PeerKw(ks[0])), [ArgDo("<value>", PeerKind(ks[0]), SetPeer(ks[0]), [])])] + PeerLeaves(ks[1..])
  }

  function RpkiLeaves(ks: seq<RpkiCacheKey>): seq<Node> {
    if ks == [] then []
    else [Kw(Text(RpkiKw(ks[0])), [ArgDo("<value>", RpkiKind(ks[0]), SetRpkiCache(ks[0]), [])])] + RpkiLeaves(ks[1..])
  }

  function TopUnsets(ks: seq<TopKey>): seq<Node> {
    if ks == [] then [] else [KwDo(Text(TopKw(ks[0])), UnsetTop(ks[0]), [])] + TopUnsets(ks[1..])
  }

  function PeerUnsets(ks: seq<PeerKey>): seq<Node> {
    if ks == [] then [] else [KwDo(Text(PeerKw(ks[0])), UnsetPeerSetting(ks[0]), [])] + PeerUnsets(ks[1..])
  }

  function RpkiUnsets(ks: seq<RpkiCacheKey>): seq<Node> {
    if ks == [] then [] else [KwDo(Text(RpkiKw(ks[0])), UnsetRpkiField(ks[0]), [])] + RpkiUnsets(ks[1..])
  }

  // ----- the operational tree -----

  function FamilyArgs(c: Command): Node {
    ArgDo("<afi>", AfiKind, c, [ArgDo("<safi>", SafiKind, c, [])])
  }

  function ShowBgp(): seq<Node> {
    [KwDo("summary", Show(Summary), []),
     KwDo("info", Show(Info), []),
     KwDo("peers", Show(Peers),
          [ArgDo("<address>", IpAddrKind, Show(OnePeer),
                 [KwDo("in", Show(PeerIn), [FamilyArgs(Show(PeerIn))]),
                  KwDo("out", Show(PeerOut), [FamilyArgs(Show(PeerOut))])])]),
     KwDo("routes", Show(Routes), [FamilyArgs(Show(Routes)), ArgDo("<prefix>", PrefixKind, Show(Routes), [])])]
  }

  function ShowRpki(): seq<Node> {
    [KwDo("caches", Show(Caches), []),
     KwDo("roa", Show(Roa), []),
     Kw("validate", [Arg("<prefix>", PrefixKind, [Kw("origin", [ArgDo("<asn>", AsnKind, Show(Validate), [])])])])]
  }

  function Tree(): seq<Node> {
    [Kw("show", [Kw("bgp", ShowBgp()), Kw("rpki", ShowRpki()), Kw("config", [KwDo("history", Show(History), [])]),
                 KwDo("version", Version, [])]),
     KwDo("configure", Configure, []),
     KwDo("exit", Exit, []),
     KwDo("quit", Exit, [])]
  }

  // ----- the configure trees -----

  function TreeConfig(): seq<Node> {
    [Kw("service", [KwDo("bgp", EnterBgp, [])]),
     KwDo("commit", Commit, []),
     KwDo("exit", Exit, []),
     Kw("show", [KwDo("diff", ShowDiff, []), KwDo("running-config", ShowRunningConfig, [])])]
  }

  function FamilyDirectives(): seq<Node> {
    [Kw("export", [Kw("policy", [ArgDo("<name>", PolicyNameKind, SetPeerFamily(E.Export), [])])]),
     Kw("import", [Kw("policy", [ArgDo("<name>", PolicyNameKind, SetPeerFamily(E.Import), [])])])]
  }

  function FamilyUnsets(): seq<Node> {
    [Kw("export", [KwDo("policy", UnsetPeerDirective(E.Export), [])]),
     Kw("import", [KwDo("policy", UnsetPeerDirective(E.Import), [])])]
  }

  function PeerSubtree(): Node {
    Kw("peer", [Arg("<addr>", IpAddrKind,
                    PeerLeaves(PEER_KEYS) +
                    [Kw("family", [Arg("<afi>", AfiKind, [Arg("<safi>", SafiKind, FamilyDirectives())])])])])
  }

  function PolicySubtree(): Node {
    Kw("policy", [Arg("<name>", StringKind,
                      [Kw("match", [Arg("<set>", StringKind, [ArgDo("<action>", StringKind, SetPolicyMatch, [])])]),
                       Kw("default", [ArgDo("<action>", StringKind, SetPolicyDefault, [])])])])
  }

  function PrefixListSubtree(): Node {
    Kw("prefix-list", [Arg("<name>", StringKind, [ArgDo("<prefix>", PrefixKind, SetPrefixListEntry, [])])])
  }

  function BmpSubtree(): Node {
    Kw("bmp-server", [Arg("<addr>", AddrPortKind,
                          [Kw("statistics-timeout", [ArgDo("<value>", U64Kind, SetBmpServer, [])])])])
  }

  function RpkiSubtree(): Node {
    Kw("rpki-cache", [Arg("<addr>", AddrPortKind, RpkiLeaves(RPKI_KEYS))])
  }

  function BgpLsSubtree(): Node {
    Kw("bgp-ls", [Kw("instance-id", [ArgDo("<value>", U64Kind, SetBgpLs, [])])])
  }

  function EmfSubtree(): Node {
    Kw("cloudwatch-emf", [Kw("namespace", [ArgDo("<namespace>", StringKind, SetTelemetryEmf, [])])])
  }

  function PrometheusSubtree(): Node {
    KwDo("prometheus", SetTelemetryPrometheus, [Kw("listen", [ArgDo("<addr>", AddrPortKind, SetTelemetryListen, [])])])
  }

  function TelemetrySubtree(): Node {
    Kw("telemetry", [KwDo("json", SetTelemetryJson, []), EmfSubtree(), PrometheusSubtree()])
  }

  function OriginateSubtree(): Node {
    Kw("originate", [Arg("<prefix>", PrefixKind, [Kw("nexthop", [ArgDo("<addr>", IpAddrKind, SetTopOriginate, [])])])])
  }

  function UnsetPeerSubtree(): Node {
    Kw("peer", [ArgDo("<addr>", IpAddrKind, UnsetPeer,
                      PeerUnsets(PEER_KEYS) +
                      [Kw("family", [Arg("<afi>", AfiKind,
                                         [ArgDo("<safi>", SafiKind, UnsetPeerFamily, FamilyUnsets())])])])])
  }

  function UnsetOriginateSubtree(): Node {
    Kw("originate", [ArgDo("<prefix>", PrefixKind, UnsetTopOriginate, [])])
  }

  function UnsetPolicySubtree(): Node {
    Kw("policy", [ArgDo("<name>", StringKind, UnsetPolicy, [])])
  }

  function UnsetPrefixListSubtree(): Node {
    Kw("prefix-list", [ArgDo("<name>", StringKind, UnsetPrefixList,
                             [ArgDo("<prefix>", PrefixKind, UnsetPrefixListEntry, [])])])
  }

  function UnsetBmpSubtree(): Node {
    Kw("bmp-server", [ArgDo("<addr>", AddrPortKind, UnsetBmpServer,
                            [KwDo("statistics-timeout", UnsetBmpTimeout, [])])])
  }

  function UnsetRpkiSubtree(): Node {
    Kw("rpki-cache", [ArgDo("<addr>", AddrPortKind, UnsetRpkiCache, RpkiUnsets(RPKI_KEYS))])
  }

  function UnsetBgpLsSubtree(): Node {
    KwDo("bgp-ls", UnsetBgpLs, [KwDo("instance-id", UnsetBgpLsSetting, [])])
  }

  function UnsetPrometheus(): Node {
    KwDo("prometheus", UnsetTelemetryPrometheus, [KwDo("listen", UnsetTelemetryListen, [])])
  }

  function UnsetTelemetrySubtree(): Node {
    KwDo("telemetry", UnsetTelemetry,
         [KwDo("json", UnsetTelemetryJson, []), KwDo("cloudwatch-emf", UnsetTelemetryEmf, []), UnsetPrometheus()])
  }

  function UnsetBlocks(): seq<Node> {
    [UnsetOriginateSubtree(), UnsetPeerSubtree(), UnsetPolicySubtree(), UnsetPrefixListSubtree(), UnsetBmpSubtree(),
     UnsetRpkiSubtree(), UnsetBgpLsSubtree(), UnsetTelemetrySubtree()]
  }

  function SessionNodes(): seq<Node> {
    [KwDo("commit", Commit, []),
     KwDo("exit", Exit, []),
     Kw("show", [KwDo("diff", ShowDiff, []), KwDo("running-config", ShowRunningConfig, []),
                 KwDo("candidate", ShowCandidate, [])]),
     Kw("unset", TopUnsets(TOP_KEYS) + UnsetBlocks())]
  }

  function BlockNodes(): seq<Node> {
    [OriginateSubtree(), PeerSubtree(), PolicySubtree(), PrefixListSubtree(), BmpSubtree(), RpkiSubtree(),
      BgpLsSubtree(),
     TelemetrySubtree()]
  }

  function TreeConfigBgp(): seq<Node> {
    SessionNodes() + (TopLeaves(TOP_KEYS) + BlockNodes())
  }

  // ----- parsing a command line -----

  datatype ParseResult = Execution(command: Command, args: seq<string>) | Help | Error

  // Which words an argument accepts; IPv6 and socket addresses are not modelled.
  type Validator = (ValueKind, string) -> bool

  function FindKeyword(token: string, nodes: seq<Node>): Option<Node> {
    if nodes == [] then None
    else if nodes[0].kind.None? && nodes[0].name == token then Some(nodes[0])
    else FindKeyword(token, nodes[1..])
  }

  function FindArg(token: string, nodes: seq<Node>, valid: Validator): Option<Node> {
    if nodes == [] then None
    else if nodes[0].kind.Some? && valid(nodes[0].kind.value, token) then Some(nodes[0])
    else FindArg(token, nodes[1..], valid)
  }

  // Keywords win over arguments.
  function MatchNode(token: string, nodes: seq<Node>, valid: Validator): Option<Node> {
    if FindKeyword(token, nodes).Some? then FindKeyword(token, nodes) else FindArg(token, nodes, valid)
  }

  function WithArg(args: seq<string>, n: Node, token: string): seq<string> {
    if n.kind.Some? then args + [token] else args
  }

  function Walk(nodes: seq<Node>, tokens: seq<string>, args: seq<string>, valid: Validator): ParseResult
    requires tokens != []
    decreases tokens
  {
    match MatchNode(tokens[0], nodes, valid)
    case None => Error
    case Some(n) =>
      var args' := WithArg(args, n, tokens[0]);
      if |tokens| == 1 then if n.command.Some? then Execution(n.command.value, args') else Help
      else if n.children == [] then Error
      else Walk(n.children, tokens[1..], args', valid)
  }

  predicate AsksForHelp(tokens: seq<string>) {
    tokens != [] && (var last := tokens[|tokens| - 1]; last == "?" || last == "help" || last == "--help")
  }

  function ParseLine(tree: seq<Node>, tokens: seq<string>, valid: Validator): ParseResult {
    if tokens == [] then Error else if AsksForHelp(tokens) then Help else Walk(tree, tokens, [], valid)
  }

  // The loop of `parse`.
  method ParseLoop(tree: seq<Node>, tokens: seq<string>, valid: Validator) returns (r: ParseResult)
    ensures r == ParseLine(tree, tokens, valid)
  {
    hide MatchNode;
    if tokens == [] {
      return Error;
    }
    if AsksForHelp(tokens) {
      return Help;
    }
    var nodes := tree;
    var args: seq<string> := [];
    var last: Option<Node> := None;
    var idx := 0;
    assert tokens[0..] == tokens;
    while idx < |tokens|
      invariant 0 <= idx <= |tokens|
      invariant idx < |tokens| ==> ParseLine(tree, tokens, valid) == Walk(nodes, tokens[idx..], args, valid)
      invariant idx == |tokens| ==> last.Some?
      invariant idx == |tokens| ==>
                  ParseLine(tree, tokens, valid) ==
                  if last.value.command.Some? then Execution(last.value.command.value, args) else Help
    {
      var found := MatchNode(tokens[idx], nodes, valid);
      if found.None? {
        return Error;
      }
      var n := found.value;
      args := WithArg(args, n, tokens[idx]);
      last := Some(n);
      if idx < |tokens| - 1 {
        if n.children == [] {
          return Error;
        }
        assert tokens[idx..][1..] == tokens[idx + 1..];
        nodes := n.children;
      }
      idx := idx + 1;
    }
    r := if last.value.command.Some? then Execution(last.value.command.value, args) else Help;
  }
}
