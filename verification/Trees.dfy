// The command trees fit the dispatcher (ggsh/src/grammar.rs, ggsh/src/shell.rs): whatever a
// level's tree accepts is a command of that level with all the arguments it indexes.
module Trees {
  import E = Edits
  import opened Grammar
  import opened Keywords

  datatype Level = RootLevel | ConfigureLevel | BgpServiceLevel

  // ----- arguments and levels of commands -----

  // How many arguments a command may come with: the handlers index below the first number.
  function MinArgs(c: Command): nat {
    match c
    case Show(OnePeer) => 1
    case Show(PeerIn) => 1
    case Show(PeerOut) => 1
    case Show(Validate) => 2
    case SetTop(_) => 1
    case SetTopOriginate => 2
    case SetPeer(_) => 2
    case SetPeerFamily(_) => 4
    case SetPolicyMatch => 3
    case SetPolicyDefault => 2
    case SetPrefixListEntry => 2
    case SetBmpServer => 2
    case SetRpkiCache(_) => 2
    case SetBgpLs => 1
    case SetTelemetryEmf => 1
    case SetTelemetryListen => 1
    case UnsetTopOriginate => 1
    case UnsetPeer => 1
    case UnsetPeerSetting(_) => 1
    case UnsetPeerFamily => 3
    case UnsetPeerDirective(_) => 3
    case UnsetPolicy => 1
    case UnsetPrefixList => 1
    case UnsetPrefixListEntry => 2
    case UnsetBmpServer => 1
    case UnsetBmpTimeout => 1
    case UnsetRpkiCache => 1
    case UnsetRpkiField(_) => 1
    case _ => 0
  }

  predicate Fits(c: Command, n: nat) {
    if c.Show? then MinArgs(c) <= n <= 3 else n == MinArgs(c)
  }

  predicate IsEdit(c: Command) {
    !(c.Show? || c.Version? || c.Configure? || c.Exit? || c.EnterBgp? || c.Commit? || c.ShowDiff? ||
      c.ShowRunningConfig? || c.ShowCandidate?)
  }

  // Which commands the tree of a level offers.
  predicate Allowed(l: Level, c: Command) {
    match l
    case RootLevel => c.Show? || c.Version? || c.Configure? || c.Exit?
    case ConfigureLevel => c.EnterBgp? || c.Commit? || c.Exit? || c.ShowDiff? || c.ShowRunningConfig?
    case BgpServiceLevel =>
      IsEdit(c) || c.Commit? || c.Exit? || c.ShowDiff? || c.ShowRunningConfig? || c.ShowCandidate?
  }

  // Every command below a node is allowed and gets as many arguments as there are argument
  // nodes on the way to it.
  predicate NodeOk(n: Node, depth: nat, l: Level) {
    var d := if n.kind.Some? then depth + 1 else depth;
    && (n.command.Some? ==> Allowed(l, n.command.value) && Fits(n.command.value, d))
    && (forall c | c in n.children :: NodeOk(c, d, l))
  }

  predicate TreeOk(ns: seq<Node>, depth: nat, l: Level) {
    forall n | n in ns :: NodeOk(n, depth, l)
  }

  // ----- the three trees -----

  lemma {:induction false} TopLeavesOk(ks: seq<TopKey>)
    ensures TreeOk(TopLeaves(ks), 0, BgpServiceLevel)
  {
    hide Text;
    if ks != [] {
      TopLeavesOk(ks[1..]);
      assert NodeOk(ArgDo("<value>", TopKind(ks[0]), SetTop(ks[0]), []), 0, BgpServiceLevel);
    }
  }

  lemma {:induction false} PeerLeavesOk(ks: seq<PeerKey>)
    ensures TreeOk(PeerLeaves(ks), 1, BgpServiceLevel)
  {
    hide Text;
    if ks != [] {
      PeerLeavesOk(ks[1..]);
      assert NodeOk(ArgDo("<value>", PeerKind(ks[0]), SetPeer(ks[0]), []), 1, BgpServiceLevel);
    }
  }

  lemma {:induction false} RpkiLeavesOk(ks: seq<RpkiCacheKey>)
    ensures TreeOk(RpkiLeaves(ks), 1, BgpServiceLevel)
  {
    hide Text;
    if ks != [] {
      RpkiLeavesOk(ks[1..]);
      assert NodeOk(ArgDo("<value>", RpkiKind(ks[0]), SetRpkiCache(ks[0]), []), 1, BgpServiceLevel);
    }
  }

  lemma {:induction false} TopUnsetsOk(ks: seq<TopKey>)
    ensures TreeOk(TopUnsets(ks), 0, BgpServiceLevel)
  {
    hide Text;
    if ks != [] {
      TopUnsetsOk(ks[1..]);
    }
  }

  lemma {:induction false} PeerUnsetsOk(ks: seq<PeerKey>)
    ensures TreeOk(PeerUnsets(ks), 1, BgpServiceLevel)
  {
    hide Text;
    if ks != [] {
      PeerUnsetsOk(ks[1..]);
    }
  }

  lemma {:induction false} RpkiUnsetsOk(ks: seq<RpkiCacheKey>)
    ensures TreeOk(RpkiUnsets(ks), 1, BgpServiceLevel)
  {
    hide Text;
    if ks != [] {
      RpkiUnsetsOk(ks[1..]);
    }
  }

  // Inner nodes without a command are fine when their children are.
  lemma KwOk(name: string, children: seq<Node>, depth: nat, l: Level)
    requires TreeOk(children, depth, l)
    ensures NodeOk(Kw(name, children), depth, l)
  {
  }

  lemma KwDoOk(name: string, c: Command, children: seq<Node>, depth: nat, l: Level)
    requires Allowed(l, c) && Fits(c, depth) && TreeOk(children, depth, l)
    ensures NodeOk(KwDo(name, c, children), depth, l)
  {
  }

  lemma ArgOk(name: string, kind: ValueKind, children: seq<Node>, depth: nat, l: Level)
    requires TreeOk(children, depth + 1, l)
    ensures NodeOk(Arg(name, kind, children), depth, l)
  {
  }

  lemma ArgDoOk(name: string, kind: ValueKind, c: Command, children: seq<Node>, depth: nat, l: Level)
    requires Allowed(l, c) && Fits(c, depth + 1) && TreeOk(children, depth + 1, l)
    ensures NodeOk(ArgDo(name, kind, c, children), depth, l)
  {
  }

  lemma FamilyArgsOk(c: Command, depth: nat)
    requires c.Show? && Fits(c, depth + 1) && Fits(c, depth + 2)
    ensures NodeOk(FamilyArgs(c), depth, RootLevel)
  {
    ArgDoOk("<safi>", SafiKind, c, [], depth + 1, RootLevel);
    ArgDoOk("<afi>", AfiKind, c, [ArgDo("<safi>", SafiKind, c, [])], depth, RootLevel);
  }

  lemma ShowBgpOk()
    ensures TreeOk(ShowBgp(), 0, RootLevel)
  {
    hide NodeOk, FamilyArgs;
    var l := RootLevel;
    KwDoOk("summary", Show(Summary), [], 0, l);
    KwDoOk("info", Show(Info), [], 0, l);
    FamilyArgsOk(Show(PeerIn), 1);
    FamilyArgsOk(Show(PeerOut), 1);
    FamilyArgsOk(Show(Routes), 0);
    KwDoOk("in", Show(PeerIn), [FamilyArgs(Show(PeerIn))], 1, l);
    KwDoOk("out", Show(PeerOut), [FamilyArgs(Show(PeerOut))], 1, l);
    var sides := [KwDo("in", Show(PeerIn), [FamilyArgs(Show(PeerIn))]),
                  KwDo("out", Show(PeerOut), [FamilyArgs(Show(PeerOut))])];
    ArgDoOk("<address>", IpAddrKind, Show(OnePeer), sides, 0, l);
    KwDoOk("peers", Show(Peers), [ArgDo("<address>", IpAddrKind, Show(OnePeer), sides)], 0, l);
    ArgDoOk("<prefix>", PrefixKind, Show(Routes), [], 0, l);
    KwDoOk("routes", Show(Routes), [FamilyArgs(Show(Routes)), ArgDo("<prefix>", PrefixKind, Show(Routes), [])], 0, l);
  }

  lemma ShowRpkiOk()
    ensures TreeOk(ShowRpki(), 0, RootLevel)
  {
    hide NodeOk;
    var l := RootLevel;
    KwDoOk("caches", Show(Caches), [], 0, l);
    KwDoOk("roa", Show(Roa), [], 0, l);
    var asn := ArgDo("<asn>", AsnKind, Show(Validate), []);
    ArgDoOk("<asn>", AsnKind, Show(Validate), [], 1, l);
    KwOk("origin", [asn], 1, l);
    ArgOk("<prefix>", PrefixKind, [Kw("origin", [asn])], 0, l);
    KwOk("validate", [Arg("<prefix>", PrefixKind, [Kw("origin", [asn])])], 0, l);
  }

  lemma RootTreeOk()
    ensures TreeOk(Tree(), 0, RootLevel)
  {
    hide NodeOk, ShowBgp, ShowRpki;
    var l := RootLevel;
    ShowBgpOk();
    ShowRpkiOk();
    KwOk("bgp", ShowBgp(), 0, l);
    KwOk("rpki", ShowRpki(), 0, l);
    KwDoOk("history", Show(History), [], 0, l);
    KwOk("config", [KwDo("history", Show(History), [])], 0, l);
    KwDoOk("version", Version, [], 0, l);
    var show := [Kw("bgp", ShowBgp()), Kw("rpki", ShowRpki()), Kw("config", [KwDo("history", Show(History), [])]),
                 KwDo("version", Version, [])];
    KwOk("show", show, 0, l);
    KwDoOk("configure", Configure, [], 0, l);
    KwDoOk("exit", Exit, [], 0, l);
    KwDoOk("quit", Exit, [], 0, l);
  }

  lemma ConfigTreeOk()
    ensures TreeOk(TreeConfig(), 0, ConfigureLevel)
  {
    hide NodeOk;
    var l := ConfigureLevel;
    KwDoOk("bgp", EnterBgp, [], 0, l);
    KwOk("service", [KwDo("bgp", EnterBgp, [])], 0, l);
    KwDoOk("commit", Commit, [], 0, l);
    KwDoOk("exit", Exit, [], 0, l);
    KwDoOk("diff", ShowDiff, [], 0, l);
    KwDoOk("running-config", ShowRunningConfig, [], 0, l);
    KwOk("show", [KwDo("diff", ShowDiff, []), KwDo("running-config", ShowRunningConfig, [])], 0, l);
  }

  lemma FamilyDirectivesOk()
    ensures TreeOk(FamilyDirectives(), 3, BgpServiceLevel)
  {
    hide NodeOk;
    var l := BgpServiceLevel;
    var out := ArgDo("<name>", PolicyNameKind, SetPeerFamily(E.Export), []);
    ArgDoOk("<name>", PolicyNameKind, SetPeerFamily(E.Export), [], 3, l);
    KwOk("policy", [out], 3, l);
    KwOk("export", [Kw("policy", [out])], 3, l);
    var in_ := ArgDo("<name>", PolicyNameKind, SetPeerFamily(E.Import), []);
    ArgDoOk("<name>", PolicyNameKind, SetPeerFamily(E.Import), [], 3, l);
    KwOk("policy", [in_], 3, l);
    KwOk("import", [Kw("policy", [in_])], 3, l);
  }

  lemma FamilyUnsetsOk()
    ensures TreeOk(FamilyUnsets(), 3, BgpServiceLevel)
  {
    hide NodeOk;
    var l := BgpServiceLevel;
    KwDoOk("policy", UnsetPeerDirective(E.Export), [], 3, l);
    KwOk("export", [KwDo("policy", UnsetPeerDirective(E.Export), [])], 3, l);
    KwDoOk("policy", UnsetPeerDirective(E.Import), [], 3, l);
    KwOk("import", [KwDo("policy", UnsetPeerDirective(E.Import), [])], 3, l);
  }

  lemma PeerSubtreeOk()
    ensures NodeOk(PeerSubtree(), 0, BgpServiceLevel)
  {
    hide NodeOk, PeerLeaves, FamilyDirectives;
    var l := BgpServiceLevel;
    PeerLeavesOk(PEER_KEYS);
    FamilyDirectivesOk();
    var safi := Arg("<safi>", SafiKind, FamilyDirectives());
    ArgOk("<safi>", SafiKind, FamilyDirectives(), 2, l);
    ArgOk("<afi>", AfiKind, [safi], 1, l);
    KwOk("family", [Arg("<afi>", AfiKind, [safi])], 1, l);
    var children := PeerLeaves(PEER_KEYS) + [Kw("family", [Arg("<afi>", AfiKind, [safi])])];
    ArgOk("<addr>", IpAddrKind, children, 0, l);
    KwOk("peer", [Arg("<addr>", IpAddrKind, children)], 0, l);
  }

  lemma UnsetPeerSubtreeOk()
    ensures NodeOk(UnsetPeerSubtree(), 0, BgpServiceLevel)
  {
    hide NodeOk, PeerUnsets, FamilyUnsets;
    var l := BgpServiceLevel;
    PeerUnsetsOk(PEER_KEYS);
    FamilyUnsetsOk();
    var safi := ArgDo("<safi>", SafiKind, UnsetPeerFamily, FamilyUnsets());
    ArgDoOk("<safi>", SafiKind, UnsetPeerFamily, FamilyUnsets(), 2, l);
    ArgOk("<afi>", AfiKind, [safi], 1, l);
    KwOk("family", [Arg("<afi>", AfiKind, [safi])], 1, l);
    var children := PeerUnsets(PEER_KEYS) + [Kw("family", [Arg("<afi>", AfiKind, [safi])])];
    ArgDoOk("<addr>", IpAddrKind, UnsetPeer, children, 0, l);
    KwOk("peer", [ArgDo("<addr>", IpAddrKind, UnsetPeer, children)], 0, l);
  }

  lemma OriginateOk()
    ensures NodeOk(OriginateSubtree(), 0, BgpServiceLevel)
  {
    hide NodeOk;
    var l := BgpServiceLevel;
    var hop := ArgDo("<addr>", IpAddrKind, SetTopOriginate, []);
    ArgDoOk("<addr>", IpAddrKind, SetTopOriginate, [], 1, l);
    KwOk("nexthop", [hop], 1, l);
    ArgOk("<prefix>", PrefixKind, [Kw("nexthop", [hop])], 0, l);
    KwOk("originate", [Arg("<prefix>", PrefixKind, [Kw("nexthop", [hop])])], 0, l);
  }

  lemma PolicyOk()
    ensures NodeOk(PolicySubtree(), 0, BgpServiceLevel)
  {
    hide NodeOk;
    var l := BgpServiceLevel;
    var act := ArgDo("<action>", StringKind, SetPolicyMatch, []);
    ArgDoOk("<action>", StringKind, SetPolicyMatch, [], 2, l);
    ArgOk("<set>", StringKind, [act], 1, l);
    KwOk("match", [Arg("<set>", StringKind, [act])], 1, l);
    ArgDoOk("<action>", StringKind, SetPolicyDefault, [], 1, l);
    KwOk("default", [ArgDo("<action>", StringKind, SetPolicyDefault, [])], 1, l);
    var rules := [Kw("match", [Arg("<set>", StringKind, [act])]),
                  Kw("default", [ArgDo("<action>", StringKind, SetPolicyDefault, [])])];
    ArgOk("<name>", StringKind, rules, 0, l);
    KwOk("policy", [Arg("<name>", StringKind, rules)], 0, l);
  }

  lemma PrefixListOk()
    ensures NodeOk(PrefixListSubtree(), 0, BgpServiceLevel)
  {
    hide NodeOk;
    var l := BgpServiceLevel;
    var entry := ArgDo("<prefix>", PrefixKind, SetPrefixListEntry, []);
    ArgDoOk("<prefix>", PrefixKind, SetPrefixListEntry, [], 1, l);
    ArgOk("<name>", StringKind, [entry], 0, l);
    KwOk("prefix-list", [Arg("<name>", StringKind, [entry])], 0, l);
  }

  lemma ServerSubtreesOk()
    ensures NodeOk(BmpSubtree(), 0, BgpServiceLevel) && NodeOk(RpkiSubtree(), 0, BgpServiceLevel)
    ensures NodeOk(BgpLsSubtree(), 0, BgpServiceLevel) && NodeOk(TelemetrySubtree(), 0, BgpServiceLevel)
  {
    hide NodeOk, RpkiLeaves;
    var l := BgpServiceLevel;
    var timeout := Kw("statistics-timeout", [ArgDo("<value>", U64Kind, SetBmpServer, [])]);
    ArgDoOk("<value>", U64Kind, SetBmpServer, [], 1, l);
    KwOk("statistics-timeout", [ArgDo("<value>", U64Kind, SetBmpServer, [])], 1, l);
    ArgOk("<addr>", AddrPortKind, [timeout], 0, l);
    KwOk("bmp-server", [Arg("<addr>", AddrPortKind, [timeout])], 0, l);
    RpkiLeavesOk(RPKI_KEYS);
    ArgOk("<addr>", AddrPortKind, RpkiLeaves(RPKI_KEYS), 0, l);
    KwOk("rpki-cache", [Arg("<addr>", AddrPortKind, RpkiLeaves(RPKI_KEYS))], 0, l);
    ArgDoOk("<value>", U64Kind, SetBgpLs, [], 0, l);
    KwOk("instance-id", [ArgDo("<value>", U64Kind, SetBgpLs, [])], 0, l);
    KwOk("bgp-ls", [Kw("instance-id", [ArgDo("<value>", U64Kind, SetBgpLs, [])])], 0, l);
    TelemetrySubtreeOk();
  }

  lemma EmfOk()
    ensures NodeOk(EmfSubtree(), 0, BgpServiceLevel)
  {
    hide NodeOk;
    var l := BgpServiceLevel;
    var ns := ArgDo("<namespace>", StringKind, SetTelemetryEmf, []);
    ArgDoOk("<namespace>", StringKind, SetTelemetryEmf, [], 0, l);
    KwOk("namespace", [ns], 0, l);
    KwOk("cloudwatch-emf", [Kw("namespace", [ns])], 0, l);
  }

  lemma PrometheusOk()
    ensures NodeOk(PrometheusSubtree(), 0, BgpServiceLevel)
  {
    hide NodeOk;
    var l := BgpServiceLevel;
    var addr := ArgDo("<addr>", AddrPortKind, SetTelemetryListen, []);
    ArgDoOk("<addr>", AddrPortKind, SetTelemetryListen, [], 0, l);
    KwOk("listen", [addr], 0, l);
    KwDoOk("prometheus", SetTelemetryPrometheus, [Kw("listen", [addr])], 0, l);
  }

  lemma TelemetrySubtreeOk()
    ensures NodeOk(TelemetrySubtree(), 0, BgpServiceLevel)
  {
    hide NodeOk, EmfSubtree, PrometheusSubtree;
    KwDoOk("json", SetTelemetryJson, [], 0, BgpServiceLevel);
    EmfOk();
    PrometheusOk();
    KwOk("telemetry", [KwDo("json", SetTelemetryJson, []), EmfSubtree(), PrometheusSubtree()], 0, BgpServiceLevel);
  }

  lemma UnsetTelemetryOk()
    ensures NodeOk(UnsetTelemetrySubtree(), 0, BgpServiceLevel)
  {
    hide NodeOk, UnsetPrometheus;
    var l := BgpServiceLevel;
    KwDoOk("json", UnsetTelemetryJson, [], 0, l);
    KwDoOk("cloudwatch-emf", UnsetTelemetryEmf, [], 0, l);
    UnsetPrometheusOk();
    KwDoOk("telemetry", UnsetTelemetry,
           [KwDo("json", UnsetTelemetryJson, []), KwDo("cloudwatch-emf", UnsetTelemetryEmf, []), UnsetPrometheus()],
             0, l);
  }

  lemma UnsetPrometheusOk()
    ensures NodeOk(UnsetPrometheus(), 0, BgpServiceLevel)
  {
    KwDoOk("listen", UnsetTelemetryListen, [], 0, BgpServiceLevel);
    KwDoOk("prometheus", UnsetTelemetryPrometheus, [KwDo("listen", UnsetTelemetryListen, [])], 0, BgpServiceLevel);
  }

  lemma UnsetOriginateOk()
    ensures NodeOk(UnsetOriginateSubtree(), 0, BgpServiceLevel)
  {
    hide NodeOk;
    ArgDoOk("<prefix>", PrefixKind, UnsetTopOriginate, [], 0, BgpServiceLevel);
    KwOk("originate", [ArgDo("<prefix>", PrefixKind, UnsetTopOriginate, [])], 0, BgpServiceLevel);
  }

  lemma UnsetPolicyOk()
    ensures NodeOk(UnsetPolicySubtree(), 0, BgpServiceLevel)
  {
    hide NodeOk;
    ArgDoOk("<name>", StringKind, UnsetPolicy, [], 0, BgpServiceLevel);
    KwOk("policy", [ArgDo("<name>", StringKind, UnsetPolicy, [])], 0, BgpServiceLevel);
  }

  lemma UnsetPrefixListOk()
    ensures NodeOk(UnsetPrefixListSubtree(), 0, BgpServiceLevel)
  {
    hide NodeOk;
    var l := BgpServiceLevel;
    var entry := ArgDo("<prefix>", PrefixKind, UnsetPrefixListEntry, []);
    ArgDoOk("<prefix>", PrefixKind, UnsetPrefixListEntry, [], 1, l);
    ArgDoOk("<name>", StringKind, UnsetPrefixList, [entry], 0, l);
    KwOk("prefix-list", [ArgDo("<name>", StringKind, UnsetPrefixList, [entry])], 0, l);
  }

  lemma UnsetBmpOk()
    ensures NodeOk(UnsetBmpSubtree(), 0, BgpServiceLevel)
  {
    hide NodeOk;
    var l := BgpServiceLevel;
    var timeout := KwDo("statistics-timeout", UnsetBmpTimeout, []);
    KwDoOk("statistics-timeout", UnsetBmpTimeout, [], 1, l);
    ArgDoOk("<addr>", AddrPortKind, UnsetBmpServer, [timeout], 0, l);
    KwOk("bmp-server", [ArgDo("<addr>", AddrPortKind, UnsetBmpServer, [timeout])], 0, l);
  }

  lemma UnsetRpkiOk()
    ensures NodeOk(UnsetRpkiSubtree(), 0, BgpServiceLevel)
  {
    hide NodeOk, RpkiUnsets;
    var l := BgpServiceLevel;
    RpkiUnsetsOk(RPKI_KEYS);
    ArgDoOk("<addr>", AddrPortKind, UnsetRpkiCache, RpkiUnsets(RPKI_KEYS), 0, l);
    KwOk("rpki-cache", [ArgDo("<addr>", AddrPortKind, UnsetRpkiCache, RpkiUnsets(RPKI_KEYS))], 0, l);
  }

  lemma UnsetBgpLsOk()
    ensures NodeOk(UnsetBgpLsSubtree(), 0, BgpServiceLevel)
  {
    hide NodeOk;
    KwDoOk("instance-id", UnsetBgpLsSetting, [], 0, BgpServiceLevel);
    KwDoOk("bgp-ls", UnsetBgpLs, [KwDo("instance-id", UnsetBgpLsSetting, [])], 0, BgpServiceLevel);
  }

  lemma UnsetBlocksOk()
    ensures TreeOk(UnsetBlocks(), 0, BgpServiceLevel)
  {
    hide NodeOk, UnsetOriginateSubtree, UnsetPeerSubtree, UnsetPolicySubtree, UnsetPrefixListSubtree, UnsetBmpSubtree,
      UnsetRpkiSubtree, UnsetBgpLsSubtree, UnsetTelemetrySubtree;
    UnsetOriginateOk();
    UnsetPolicyOk();
    UnsetPrefixListOk();
    UnsetPeerSubtreeOk();
    UnsetBmpOk();
    UnsetRpkiOk();
    UnsetBgpLsOk();
    UnsetTelemetryOk();
  }

  lemma SessionNodesOk()
    ensures TreeOk(SessionNodes(), 0, BgpServiceLevel)
  {
    hide NodeOk, UnsetBlocks, TopUnsets;
    var l := BgpServiceLevel;
    KwDoOk("commit", Commit, [], 0, l);
    KwDoOk("exit", Exit, [], 0, l);
    KwDoOk("diff", ShowDiff, [], 0, l);
    KwDoOk("running-config", ShowRunningConfig, [], 0, l);
    KwDoOk("candidate", ShowCandidate, [], 0, l);
    KwOk("show", [KwDo("diff", ShowDiff, []), KwDo("running-config", ShowRunningConfig, []),
                  KwDo("candidate", ShowCandidate, [])], 0, l);
    TopUnsetsOk(TOP_KEYS);
    UnsetBlocksOk();
    KwOk("unset", TopUnsets(TOP_KEYS) + UnsetBlocks(), 0, l);
  }

  lemma BgpTreeOk()
    ensures TreeOk(TreeConfigBgp(), 0, BgpServiceLevel)
  {
    hide NodeOk, SessionNodes, TopLeaves, OriginateSubtree, PeerSubtree, PolicySubtree, PrefixListSubtree, BmpSubtree,
      RpkiSubtree, BgpLsSubtree, TelemetrySubtree;
    SessionNodesOk();
    TopLeavesOk(TOP_KEYS);
    OriginateOk();
    PolicyOk();
    PrefixListOk();
    PeerSubtreeOk();
    ServerSubtreesOk();
  }

  // ----- what the parser hands to the dispatcher -----

  lemma {:induction false} MatchNodeIn(token: string, nodes: seq<Node>, valid: Validator)
    ensures var r := MatchNode(token, nodes, valid); r.Some? ==> r.value in nodes
  {
    KeywordIn(token, nodes);
    ArgIn(token, nodes, valid);
  }

  lemma {:induction false} KeywordIn(token: string, nodes: seq<Node>)
    ensures var r := FindKeyword(token, nodes); r.Some? ==> r.value in nodes
  {
    if nodes != [] { KeywordIn(token, nodes[1..]); }
  }

  lemma {:induction false} ArgIn(token: string, nodes: seq<Node>, valid: Validator)
    ensures var r := FindArg(token, nodes, valid); r.Some? ==> r.value in nodes
  {
    if nodes != [] { ArgIn(token, nodes[1..], valid); }
  }

  // Whatever a tree accepts is a command of its level with as many arguments as it indexes.
  lemma {:induction false} WalkFits(nodes: seq<Node>, tokens: seq<string>, args: seq<string>, valid: Validator,
      l: Level)
    requires tokens != [] && TreeOk(nodes, |args|, l)
    ensures var r := Walk(nodes, tokens, args, valid);
      r.Execution? ==> Allowed(l, r.command) && Fits(r.command, |r.args|)
    decreases tokens
  {
    hide MatchNode, Allowed, Fits;
    MatchNodeIn(tokens[0], nodes, valid);
    var m := MatchNode(tokens[0], nodes, valid);
    if m.Some? {
      assert NodeOk(m.value, |args|, l);
      if |tokens| > 1 && m.value.children != [] {
        WalkFits(m.value.children, tokens[1..], WithArg(args, m.value, tokens[0]), valid, l);
      }
    }
  }

  function LevelTree(l: Level): seq<Node> {
    match l
    case RootLevel => Tree()
    case ConfigureLevel => TreeConfig()
    case BgpServiceLevel => TreeConfigBgp()
  }

  lemma LineFits(l: Level, tokens: seq<string>, valid: Validator)
    ensures var r := ParseLine(LevelTree(l), tokens, valid);
      r.Execution? ==> Allowed(l, r.command) && Fits(r.command, |r.args|)
  {
    hide Tree, TreeConfig, TreeConfigBgp, Walk, Allowed, Fits, NodeOk;
    match l {
      case RootLevel => RootTreeOk();
      case ConfigureLevel => ConfigTreeOk();
      case BgpServiceLevel => BgpTreeOk();
    }
    if tokens != [] { WalkFits(LevelTree(l), tokens, [], valid, l); }
  }
}
