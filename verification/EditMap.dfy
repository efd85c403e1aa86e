// Every run of `set` and `unset` commands refines a plain map from key paths to values.
module EditMap {
  import opened Ast
  import opened Decimal
  import opened Edits
  import opened Keyed
  import opened Keywords
  import opened Wrappers

  // ----- the map -----

  datatype PeerPart =
    | PeerItself
    | PeerSettingPart(key: SettingKey)
    | FamilyPart(family: FamilyId)
    | DirectivePart(family: FamilyId, directive: DirectiveKey)
  datatype PolicyPart = PolicyItself | RulePart(rule: RuleKey)
  datatype PrefixPart = PrefixListItself | EntryPart(prefix: string)
  datatype BmpPart = BmpItself | TimeoutPart
  datatype RpkiPart = RpkiItself | RpkiFieldPart(field: RpkiCacheKey)
  datatype TelemetryPart = TelemetryItself | JsonPart | EmfPart | PrometheusPart | ListenPart

  datatype Path =
    | ServicePath
    | TopPath(key: SettingKey)
    | PeerPath(addr: string, peer: PeerPart)
    | PolicyPath(name: string, policy: PolicyPart)
    | PrefixPath(name: string, prefixList: PrefixPart)
    | BmpPath(addr: string, bmp: BmpPart)
    | RpkiPath(addr: string, rpki: RpkiPart)
    | BgpLsPath
    | TelemetryPath(telemetry: TelemetryPart)
    | WordListsPath(kind: SetBlockKey)
    | OtherServicesPath

  // A key that may be repeated holds everything that was said under it, in order: in
  // particular all the statements of a policy, and a list of import policies.
  datatype Value =
    | Present
    | SettingValue(settings: seq<Setting>)
    | DirectiveValue(directives: seq<FamilyDirective>)
    | RuleValue(rules: seq<PolicyRule>)
    | EntryValue(entries: seq<PrefixListEntry>)
    | NumberValue(number: u64)
    | RpkiFieldValue(rpki: RpkiSetting)
    | TextValue(text: string)
    | WordListsValue(lists: seq<WordListBlock>)
    | ServicesValue(services: seq<Body>)

  // `q` is a proper ancestor of `p`.
  predicate Above(q: Path, p: Path) {
    match q
    case ServicePath => p != ServicePath && p != OtherServicesPath
    case PeerPath(a, PeerItself) => p.PeerPath? && p.addr == a && p != q
    case PeerPath(a, FamilyPart(f)) => p.PeerPath? && p.addr == a && p.peer.DirectivePart? && p.peer.family == f
    case PolicyPath(n, PolicyItself) => p.PolicyPath? && p.name == n && p != q
    case PrefixPath(n, PrefixListItself) => p.PrefixPath? && p.name == n && p != q
    case BmpPath(a, BmpItself) => p.BmpPath? && p.addr == a && p != q
    case RpkiPath(a, RpkiItself) => p.RpkiPath? && p.addr == a && p != q
    case TelemetryPath(TelemetryItself) => p.TelemetryPath? && p != q
    case TelemetryPath(PrometheusPart) => p == TelemetryPath(ListenPart)
    case _ => false
  }

  // What a path holds when it is only touched.
  function Default(p: Path): Value {
    match p
    case PrefixPath(_, EntryPart(x)) => EntryValue([PrefixListEntry(x, None)])
    case BgpLsPath => NumberValue(0)
    case _ => Present
  }

  // A step of the map. Everything above a written or touched path exists afterwards.
  datatype Effect = Put(path: Path, value: Value) | Touch(path: Path) | Delete(path: Path) | Nothing

  // The value of `q` afterwards, from its value before.
  function After(f: Effect, q: Path, before: Option<Value>): Option<Value> {
    match f
    case Put(p, v) => if q == p then Some(v) else if Above(q, p) && before.None? then Some(Default(q)) else before
    case Touch(p) => if (q == p || Above(q, p)) && before.None? then Some(Default(q)) else before
    case Delete(p) => if q == p || Above(p, q) then None else before
    case Nothing => before
  }

  // ----- the map of a candidate -----

  function GetSetting(ss: seq<Setting>, k: SettingKey): Option<Value> {
    var xs :- FindAll(ss, KeyOf, k);
    Some(SettingValue(xs))
  }

  function GetDirective(f: FamilyBlock, d: DirectiveKey): Option<Value> {
    var xs :- FindAll(f.directives, DirectiveOf, d);
    Some(DirectiveValue(xs))
  }

  function GetPeer(p: PeerBlock, part: PeerPart): Option<Value> {
    match part
    case PeerItself => Some(Present)
    case PeerSettingPart(k) => GetSetting(p.settings, k)
    case FamilyPart(f) => var x :- Find(p.families, FamilyOf, f); Some(Present)
    case DirectivePart(f, d) =>
      var x :- Find(p.families, FamilyOf, f);
      GetDirective(x, d)
  }

  function GetPolicy(p: PolicyBlock, part: PolicyPart): Option<Value> {
    match part
    case PolicyItself => Some(Present)
    case RulePart(k) => var rs :- FindAll(p.rules, RuleOf, k); Some(RuleValue(rs))
  }

  function GetPrefixList(p: PrefixListBlock, part: PrefixPart): Option<Value> {
    match part
    case PrefixListItself => Some(Present)
    case EntryPart(x) => var es :- FindAll(p.prefixes, EntryOf, x); Some(EntryValue(es))
  }

  function GetBmp(b: BmpServerBlock, part: BmpPart): Option<Value> {
    match part
    case BmpItself => Some(Present)
    case TimeoutPart => var t :- b.statisticsTimeout; Some(NumberValue(t))
  }

  function GetRpki(r: RpkiCacheBlock, part: RpkiPart): Option<Value> {
    match part
    case RpkiItself => Some(Present)
    case RpkiFieldPart(k) => var v :- RpkiField(r, k); Some(RpkiFieldValue(v))
  }

  function GetTelemetry(t: TelemetryBlock, part: TelemetryPart): Option<Value> {
    match part
    case TelemetryItself => Some(Present)
    case JsonPart => if t.json then Some(Present) else None
    case EmfPart => var ns :- t.cloudwatchEmf; Some(TextValue(ns))
    case PrometheusPart => if t.prometheus.Some? then Some(Present) else None
    case ListenPart => var p :- t.prometheus; var a :- p.listen; Some(TextValue(a))
  }

  function GetBody(b: Body, p: Path): Option<Value> {
    match p
    case ServicePath => Some(Present)
    case TopPath(k) => GetSetting(b.settings, k)
    case PeerPath(a, part) => var x :- Find(b.peers, PeerOf, a); GetPeer(x, part)
    case PolicyPath(n, part) => var x :- Find(b.policies, PolicyOf, n); GetPolicy(x, part)
    case PrefixPath(n, part) => var x :- Find(b.prefixLists, PrefixListOf, n); GetPrefixList(x, part)
    case BmpPath(a, part) => var x :- Find(b.bmpServers, BmpOf, a); GetBmp(x, part)
    case RpkiPath(a, part) => var x :- Find(b.rpkiCaches, RpkiOf, a); GetRpki(x, part)
    case BgpLsPath => var v :- b.bgpLs; Some(NumberValue(v))
    case TelemetryPath(part) => var t :- b.telemetry; GetTelemetry(t, part)
    case WordListsPath(kind) => if WordLists(b, kind) == [] then None else Some(WordListsValue(WordLists(b, kind)))
    case OtherServicesPath => None
  }

  function WordLists(b: Body, kind: SetBlockKey): seq<WordListBlock> {
    match kind
    case NeighborSet => b.neighborSets
    case AsPathSet => b.asPathSets
    case CommunitySet => b.communitySets
    case ExtCommunitySet => b.extCommunitySets
    case LargeCommunitySet => b.largeCommunitySets
    case PrefixList => []
  }

  // The map of the service that is edited, and the services after it as they are.
  function Get(root: Root, p: Path): Option<Value> {
    if root.services == [] then None
    else if p.OtherServicesPath? then
      if |root.services| == 1 then None else Some(ServicesValue(root.services[1..]))
    else GetBody(root.services[0], p)
  }

  // ----- what each command means for the map -----

  // The path a command is about.
  function Target(e: Edit): Path {
    if BadFamily(e) then ServicePath
    else match e
      case SetTop(k, _) => TopPath(TopS(k))
      case SetOriginate(p, _) => TopPath(OriginateS(p))
      case UnsetTop(k) => TopPath(TopS(k))
      case UnsetOriginate(p) => TopPath(OriginateS(p))
      case SetPeer(k, a, _) => PeerPath(a, PeerSettingPart(PeerS(k)))
      case SetFamily(d, a, _, _) => PeerPath(a, DirectivePart(e.family.value, DirectionKey(d)))
      case UnsetPeer(a) => PeerPath(a, PeerItself)
      case UnsetPeerSetting(k, a) => PeerPath(a, PeerSettingPart(PeerS(k)))
      case UnsetFamily(a, _) => PeerPath(a, FamilyPart(e.family.value))
      case UnsetDirective(d, a, _) => PeerPath(a, DirectivePart(e.family.value, DirectionKey(d)))
      case SetMatch(n, s, _) => PolicyPath(n, RulePart(MatchKey(s)))
      case SetDefault(n, _) => PolicyPath(n, RulePart(DefaultKey))
      case UnsetPolicy(n) => PolicyPath(n, PolicyItself)
      case SetEntry(n, x) => PrefixPath(n, EntryPart(x))
      case UnsetPrefixList(n) => PrefixPath(n, PrefixListItself)
      case UnsetEntry(n, x) => PrefixPath(n, EntryPart(x))
      case SetBmp(a, _) => BmpPath(a, TimeoutPart)
      case UnsetBmp(a) => BmpPath(a, BmpItself)
      case UnsetBmpTimeout(a) => BmpPath(a, TimeoutPart)
      case SetRpki(k, a, _) => RpkiPath(a, RpkiFieldPart(k))
      case UnsetRpki(a) => RpkiPath(a, RpkiItself)
      case UnsetRpkiField(k, a) => RpkiPath(a, RpkiFieldPart(k))
      case SetBgpLs(_) => BgpLsPath
      case UnsetBgpLs => BgpLsPath
      case UnsetBgpLsSetting => BgpLsPath
      case SetJson => TelemetryPath(JsonPart)
      case SetEmf(_) => TelemetryPath(EmfPart)
      case SetPrometheus => TelemetryPath(PrometheusPart)
      case SetListen(_) => TelemetryPath(ListenPart)
      case UnsetTelemetry => TelemetryPath(TelemetryItself)
      case UnsetJson => TelemetryPath(JsonPart)
      case UnsetEmf => TelemetryPath(EmfPart)
      case UnsetPrometheus => TelemetryPath(PrometheusPart)
      case UnsetListen => TelemetryPath(ListenPart)
  }

  // The path that must be free for the command to succeed: the two telemetry sinks exclude
  // each other.
  function Rival(e: Edit): Option<Path> {
    match e
    case SetJson => Some(TelemetryPath(EmfPart))
    case SetEmf(_) => Some(TelemetryPath(JsonPart))
    case _ => None
  }

  // What a `set` command writes; None if the words it was given are no value.
  function Written(e: Edit): Option<Value> {
    match e
    case SetTop(_, s) => var x :- s; Some(SettingValue([x]))
    case SetOriginate(p, n) => Some(SettingValue([Setting.Originate(OriginateRoute(p, n))]))
    case SetPeer(_, _, s) => var x :- s; Some(SettingValue([x]))
    case SetFamily(d, _, _, n) => Some(DirectiveValue([PolicyLine(d, n)]))
    case SetMatch(_, s, a) => Some(RuleValue([MatchRule(s, a)]))
    case SetDefault(_, a) => Some(RuleValue([DefaultRule(a)]))
    case SetBmp(_, t) => var x :- t; Some(NumberValue(x))
    case SetRpki(_, _, f) => var x :- f; Some(RpkiFieldValue(x))
    case SetBgpLs(v) => var x :- v; Some(NumberValue(x))
    case SetJson => Some(Present)
    case SetEmf(ns) => Some(TextValue(ns))
    case SetListen(a) => Some(TextValue(a))
    case _ => None
  }

  predicate IsUnset(e: Edit) {
    e.UnsetTop? || e.UnsetOriginate? || e.UnsetPeer? || e.UnsetPeerSetting? || e.UnsetFamily? || e.UnsetDirective? ||
    e.UnsetPolicy? || e.UnsetPrefixList? || e.UnsetEntry? || e.UnsetBmp? || e.UnsetBmpTimeout? || e.UnsetRpki? ||
    e.UnsetRpkiField? || e.UnsetBgpLs? || e.UnsetBgpLsSetting? || e.UnsetTelemetry? || e.UnsetJson? || e.UnsetEmf? ||
    e.UnsetPrometheus? || e.UnsetListen?
  }

  // What a failing `set` leaves behind: the block it was going to write into.
  function Opened(e: Edit): Path {
    match e
    case SetPeer(_, a, _) => PeerPath(a, PeerItself)
    case SetBmp(a, _) => BmpPath(a, BmpItself)
    case SetRpki(_, a, _) => RpkiPath(a, RpkiItself)
    case SetBgpLs(_) => BgpLsPath
    case SetJson => TelemetryPath(TelemetryItself)
    case SetEmf(_) => TelemetryPath(TelemetryItself)
    case _ => ServicePath
  }

  // Whether the command succeeds, from the values at its target and at its rival.
  predicate Succeeds(e: Edit, target: Option<Value>, rival: Option<Value>) {
    && !BadFamily(e) && !e.UnsetBgpLsSetting?
    && (IsUnset(e) ==> target.Some?)
    && (!IsUnset(e) ==> rival.None? && (Written(e).Some? || e.SetEntry? || e.SetPrometheus?))
  }

  function EffectOf(e: Edit, target: Option<Value>, rival: Option<Value>): Effect {
    if BadFamily(e) || e.UnsetBgpLsSetting? then Nothing
    else if IsUnset(e) then if target.Some? then Delete(Target(e)) else Touch(ServicePath)
    else if e.SetEntry? || e.SetPrometheus? then Touch(Target(e))
    else if Succeeds(e, target, rival) then Put(Target(e), Written(e).value)
    else Touch(Opened(e))
  }

  // ----- settings of the service -----

  lemma SetTopRefines(e: Edit, ss: seq<Setting>, k: SettingKey)
    requires e.SetTop?
    ensures var (r, ok) := EditSettings(e, ss);
      ok == e.setting.Some? &&
      GetSetting(r, k) == if ok && k == TopS(e.top) then Written(e) else GetSetting(ss, k)
  {
    hide KeyOf, FindAll, Without;
    if e.setting.Some? {
      FindAllReplaced(ss, KeyOf, e.setting.value, k);
    }
  }

  lemma OtherTopRefines(e: Edit, ss: seq<Setting>, k: SettingKey)
    requires TopEdit(e) && !e.SetTop?
    ensures var (r, ok) := EditSettings(e, ss);
      var target := if e.UnsetTop? then TopS(e.top) else OriginateS(e.prefix);
      && GetSetting(r, k) == (if k == target then if e.SetOriginate? then Written(e) else None else GetSetting(ss, k))
      && ok == (e.SetOriginate? || GetSetting(ss, target).Some?)
  {
    hide FindAll, Without;
    match e {
      case SetOriginate(p, n) => FindAllReplaced(ss, KeyOf, Setting.Originate(OriginateRoute(p, n)), k);
      case UnsetTop(key) => FindAllWithout(ss, KeyOf, TopS(key), k);
      case UnsetOriginate(p) => FindAllWithout(ss, KeyOf, OriginateS(p), k);
    }
  }

  // ----- peers -----

  function GetPeers(ps: seq<PeerBlock>, a: string, part: PeerPart): Option<Value> {
    var p :- Find(ps, PeerOf, a);
    GetPeer(p, part)
  }

  lemma PeerStored(ps: seq<PeerBlock>, p: PeerBlock, a: string, part: PeerPart)
    ensures GetPeers(Store(ps, PeerOf, p), a, part) ==
            if a == p.address then GetPeer(p, part) else GetPeers(ps, a, part)
  {
    hide Find, Store, GetPeer;
    FindStore(ps, PeerOf, p, a);
  }

  // The peer at an address, or the empty one.
  lemma PeerFound(ps: seq<PeerBlock>, a: string, part: PeerPart)
    ensures var p := PeerAt(ps, a);
      p.address == a &&
      GetPeers(ps, a, part) == if GetPeers(ps, a, PeerItself).Some? then GetPeer(p, part) else None
    ensures var p := PeerAt(ps, a);
      GetPeers(ps, a, PeerItself).None? ==> p == PeerBlock(a, [], []) && (part != PeerItself ==> GetPeer(p, part).None?)
  {
    FindKey(ps, PeerOf, a);
  }

  lemma SettingReplaced(p: PeerBlock, s: Setting, part: PeerPart)
    ensures GetPeer(p.(settings := Without(p.settings, KeyOf, KeyOf(s)) + [s]), part) ==
            if part == PeerSettingPart(KeyOf(s)) then Some(SettingValue([s])) else GetPeer(p, part)
  {
    hide KeyOf, Find, FindAll, Without;
    if part.PeerSettingPart? {
      FindAllReplaced(p.settings, KeyOf, s, part.key);
    }
  }

  lemma SettingGone(p: PeerBlock, k: SettingKey, part: PeerPart)
    ensures GetPeer(p.(settings := Without(p.settings, KeyOf, k)), part) ==
            if part == PeerSettingPart(k) then None else GetPeer(p, part)
    ensures |Without(p.settings, KeyOf, k)| != |p.settings| <==> GetPeer(p, PeerSettingPart(k)).Some?
  {
    hide KeyOf, Find, FindAll, Without;
    FindAllWithout(p.settings, KeyOf, k, if part.PeerSettingPart? then part.key else k);
  }

  lemma FamilyStored(p: PeerBlock, f: FamilyBlock, part: PeerPart)
    ensures GetPeer(p.(families := Store(p.families, FamilyOf, f)), part) ==
            if part == FamilyPart(FamilyOf(f)) then Some(Present)
            else if part.DirectivePart? && part.family == FamilyOf(f) then GetDirective(f, part.directive)
            else GetPeer(p, part)
  {
    hide Find, Store;
    if part.FamilyPart? || part.DirectivePart? {
      FindStore(p.families, FamilyOf, f, part.family);
    }
  }

  lemma FamilyGone(p: PeerBlock, id: FamilyId, part: PeerPart)
    ensures GetPeer(p.(families := Without(p.families, FamilyOf, id)), part) ==
            if part == FamilyPart(id) || (part.DirectivePart? && part.family == id) then None else GetPeer(p, part)
    ensures |Without(p.families, FamilyOf, id)| != |p.families| <==> GetPeer(p, FamilyPart(id)).Some?
  {
    hide Find, Without;
    WithoutAbsent(p.families, FamilyOf, id);
    if part.FamilyPart? || part.DirectivePart? {
      FindWithout(p.families, FamilyOf, id, part.family);
    }
  }

  lemma SetPeerRefines(e: Edit, ps: seq<PeerBlock>, a: string, part: PeerPart)
    requires e.SetPeer?
    ensures var (r, ok) := EditPeers(e, ps);
      ok == e.setting.Some? &&
      GetPeers(r, a, part) ==
        if a != e.addr then GetPeers(ps, a, part)
        else if ok && part == PeerSettingPart(PeerS(e.peerKey)) then Written(e)
        else if part == PeerItself then Some(Present) else GetPeers(ps, a, part)
  {
    hide KeyOf, Find, Store, Without, GetPeers, PeerAt;
    var p := PeerAt(ps, e.addr);
    PeerFound(ps, e.addr, part);
    if e.setting.Some? {
      var s := e.setting.value;
      SettingReplaced(p, s, part);
      PeerStored(ps, p.(settings := Without(p.settings, KeyOf, PeerS(e.peerKey)) + [s]), a, part);
    } else {
      PeerStored(ps, p, a, part);
    }
  }

  lemma SetFamilyRefines(e: Edit, ps: seq<PeerBlock>, a: string, part: PeerPart)
    requires e.SetFamily? && !BadFamily(e)
    ensures var (r, ok) := EditPeers(e, ps);
      var id := e.family.value;
      ok && GetPeers(r, a, part) ==
        if a != e.addr then GetPeers(ps, a, part)
        else if part == DirectivePart(id, DirectionKey(e.dir)) then Written(e)
        else if part == PeerItself || part == FamilyPart(id) then Some(Present) else GetPeers(ps, a, part)
  {
    hide Find, FindAll, Store, Without, GetPeers, PeerAt;
    var p := PeerAt(ps, e.addr);
    var id := e.family.value;
    var f := FamilyAt(p.families, id);
    var d := PolicyLine(e.dir, e.name);
    var f' := f.(directives := Without(f.directives, DirectiveOf, DirectionKey(e.dir)) + [d]);
    PeerFound(ps, e.addr, part);
    FindKey(p.families, FamilyOf, id);
    FamilyStored(p, f', part);
    PeerStored(ps, p.(families := Store(p.families, FamilyOf, f')), a, part);
    if part.DirectivePart? {
      FindAllReplaced(f.directives, DirectiveOf, d, part.directive);
      NoDirectives(part.directive);
    }
  }

  lemma NoDirectives(d: DirectiveKey)
    ensures FindAll([], DirectiveOf, d).None?
  {
  }

  lemma UnsetPeerRefines(e: Edit, ps: seq<PeerBlock>, a: string, part: PeerPart)
    requires e.UnsetPeer?
    ensures var (r, ok) := EditPeers(e, ps);
      ok == GetPeers(ps, e.addr, PeerItself).Some? &&
      GetPeers(r, a, part) == if a == e.addr then None else GetPeers(ps, a, part)
  {
    hide Find, Without;
    FindWithout(ps, PeerOf, e.addr, a);
    WithoutAbsent(ps, PeerOf, e.addr);
  }

  lemma UnsetPeerSettingRefines(e: Edit, ps: seq<PeerBlock>, a: string, part: PeerPart)
    requires e.UnsetPeerSetting?
    ensures var (r, ok) := EditPeers(e, ps);
      var target := PeerSettingPart(PeerS(e.peerKey));
      ok == GetPeers(ps, e.addr, target).Some? &&
      GetPeers(r, a, part) == if a == e.addr && part == target then None else GetPeers(ps, a, part)
  {
    hide KeyOf, Find, Without, Store;
    var p := Find(ps, PeerOf, e.addr);
    FindKey(ps, PeerOf, e.addr);
    if p.Some? {
      SettingGone(p.value, PeerS(e.peerKey), part);
      PeerStored(ps, p.value.(settings := Without(p.value.settings, KeyOf, PeerS(e.peerKey))), a, part);
    }
  }

  lemma UnsetFamilyRefines(e: Edit, ps: seq<PeerBlock>, a: string, part: PeerPart)
    requires e.UnsetFamily? && !BadFamily(e)
    ensures var (r, ok) := EditPeers(e, ps);
      var id := e.family.value;
      ok == GetPeers(ps, e.addr, FamilyPart(id)).Some? &&
      GetPeers(r, a, part) ==
        if a == e.addr && (part == FamilyPart(id) || (part.DirectivePart? && part.family == id)) then None
        else GetPeers(ps, a, part)
  {
    hide Find, Without, Store;
    var p := Find(ps, PeerOf, e.addr);
    FindKey(ps, PeerOf, e.addr);
    if p.Some? {
      FamilyGone(p.value, e.family.value, part);
      PeerStored(ps, p.value.(families := Without(p.value.families, FamilyOf, e.family.value)), a, part);
    }
  }

  lemma UnsetDirectiveRefines(e: Edit, ps: seq<PeerBlock>, a: string, part: PeerPart)
    requires e.UnsetDirective? && !BadFamily(e)
    ensures var (r, ok) := EditPeers(e, ps);
      var target := DirectivePart(e.family.value, DirectionKey(e.dir));
      ok == GetPeers(ps, e.addr, target).Some? &&
      GetPeers(r, a, part) == if a == e.addr && part == target then None else GetPeers(ps, a, part)
  {
    hide Find, FindAll, Without, Store;
    var p := Find(ps, PeerOf, e.addr);
    var id, k := e.family.value, DirectionKey(e.dir);
    FindKey(ps, PeerOf, e.addr);
    if p.Some? {
      var f := Find(p.value.families, FamilyOf, id);
      FindKey(p.value.families, FamilyOf, id);
      if f.Some? {
        var f' := f.value.(directives := Without(f.value.directives, DirectiveOf, k));
        FamilyStored(p.value, f', part);
        PeerStored(ps, p.value.(families := Store(p.value.families, FamilyOf, f')), a, part);
        FindAllWithout(f.value.directives, DirectiveOf, k, if part.DirectivePart? then part.directive else k);
      }
    }
  }

  // ----- policies and prefix lists -----

  function GetPolicies(ps: seq<PolicyBlock>, n: string, part: PolicyPart): Option<Value> {
    var p :- Find(ps, PolicyOf, n);
    GetPolicy(p, part)
  }

  lemma SetRuleRefines(e: Edit, ps: seq<PolicyBlock>, n: string, part: PolicyPart)
    requires e.SetMatch? || e.SetDefault?
    ensures var (r, ok) := EditPolicies(e, ps);
      var key := if e.SetMatch? then MatchKey(e.setName) else DefaultKey;
      ok && GetPolicies(r, n, part) ==
        if n != e.name then GetPolicies(ps, n, part)
        else if part == RulePart(key) then Written(e)
        else if part == PolicyItself then Some(Present) else GetPolicies(ps, n, part)
  {
    hide Find, FindAll, Store, Without;
    var p := PolicyAt(ps, e.name);
    var rule := if e.SetMatch? then MatchRule(e.setName, e.action) else DefaultRule(e.action);
    FindKey(ps, PolicyOf, e.name);
    FindStore(ps, PolicyOf, p.(rules := Without(p.rules, RuleOf, RuleOf(rule)) + [rule]), n);
    if part.RulePart? {
      FindAllReplaced(p.rules, RuleOf, rule, part.rule);
      NoRules(part.rule);
    }
  }

  lemma NoRules(k: RuleKey)
    ensures FindAll([], RuleOf, k).None?
  {
  }

  lemma UnsetPolicyRefines(e: Edit, ps: seq<PolicyBlock>, n: string, part: PolicyPart)
    requires e.UnsetPolicy?
    ensures var (r, ok) := EditPolicies(e, ps);
      ok == GetPolicies(ps, e.name, PolicyItself).Some? &&
      GetPolicies(r, n, part) == if n == e.name then None else GetPolicies(ps, n, part)
  {
    hide Find, Without;
    FindWithout(ps, PolicyOf, e.name, n);
    WithoutAbsent(ps, PolicyOf, e.name);
  }

  function GetPrefixLists(ps: seq<PrefixListBlock>, n: string, part: PrefixPart): Option<Value> {
    var p :- Find(ps, PrefixListOf, n);
    GetPrefixList(p, part)
  }

  lemma SetEntryRefines(e: Edit, ps: seq<PrefixListBlock>, n: string, part: PrefixPart)
    requires e.SetEntry?
    ensures var (r, ok) := EditPrefixLists(e, ps);
      ok && GetPrefixLists(r, n, part) ==
        if n != e.name || GetPrefixLists(ps, n, part).Some? then GetPrefixLists(ps, n, part)
        else if part == EntryPart(e.prefix) then Some(EntryValue([PrefixListEntry(e.prefix, None)]))
        else if part == PrefixListItself then Some(Present) else None
  {
    hide Find, FindAll, Store, Without;
    var p := PrefixListAt(ps, e.name);
    var x := PrefixListEntry(e.prefix, None);
    FindKey(ps, PrefixListOf, e.name);
    FindStore(ps, PrefixListOf, p, n);
    FindStore(ps, PrefixListOf, p.(prefixes := p.prefixes + [x]), n);
    OnlyAbsent(p.prefixes, EntryOf, e.prefix);
    if part.EntryPart? {
      if FindAll(p.prefixes, EntryOf, e.prefix).None? { FindAllAdded(p.prefixes, EntryOf, x, part.prefix); }
      NoEntries(part.prefix);
    }
  }

  lemma NoEntries(x: string)
    ensures FindAll([], EntryOf, x).None?
  {
  }

  lemma UnsetPrefixRefines(e: Edit, ps: seq<PrefixListBlock>, n: string, part: PrefixPart)
    requires e.UnsetPrefixList? || e.UnsetEntry?
    ensures var (r, ok) := EditPrefixLists(e, ps);
      var target := if e.UnsetEntry? then EntryPart(e.prefix) else PrefixListItself;
      ok == GetPrefixLists(ps, e.name, target).Some? &&
      GetPrefixLists(r, n, part) ==
        if n == e.name && (part == target || target == PrefixListItself) then None else GetPrefixLists(ps, n, part)
  {
    hide Find, FindAll, Without, Store;
    FindWithout(ps, PrefixListOf, e.name, n);
    WithoutAbsent(ps, PrefixListOf, e.name);
    var p := Find(ps, PrefixListOf, e.name);
    FindKey(ps, PrefixListOf, e.name);
    if e.UnsetEntry? && p.Some? {
      FindStore(ps, PrefixListOf, p.value.(prefixes := Without(p.value.prefixes, EntryOf, e.prefix)), n);
      FindAllWithout(p.value.prefixes, EntryOf, e.prefix, if part.EntryPart? then part.prefix else e.prefix);
    }
  }

  // ----- BMP servers and RPKI caches -----

  function GetBmps(bs: seq<BmpServerBlock>, a: string, part: BmpPart): Option<Value> {
    var b :- Find(bs, BmpOf, a);
    GetBmp(b, part)
  }

  lemma BmpRefines(e: Edit, bs: seq<BmpServerBlock>, a: string, part: BmpPart)
    requires BmpEdit(e)
    ensures var (r, ok) := EditBmp(e, bs);
      && ok == (if e.SetBmp? then e.timeout.Some?
                else GetBmps(bs, e.addr, if e.UnsetBmp? then BmpItself else TimeoutPart).Some?)
      && GetBmps(r, a, part) ==
           if a != e.addr then GetBmps(bs, a, part)
           else if e.UnsetBmp? then None
           else if e.UnsetBmpTimeout? then (if part == TimeoutPart then None else GetBmps(bs, a, part))
           else if part == BmpItself then Some(Present)
           else if ok then Written(e) else GetBmps(bs, a, part)
  {
    hide Find, Without, Store;
    FindKey(bs, BmpOf, e.addr);
    var b := BmpAt(bs, e.addr);
    match e {
      case SetBmp(_, t) =>
        FindStore(bs, BmpOf, b, a);
        if t.Some? { FindStore(bs, BmpOf, b.(statisticsTimeout := Some(t.value)), a); }
      case UnsetBmp(_) => FindWithout(bs, BmpOf, e.addr, a); WithoutAbsent(bs, BmpOf, e.addr);
      case UnsetBmpTimeout(_) => FindStore(bs, BmpOf, b.(statisticsTimeout := None), a);
    }
  }

  function GetRpkis(rs: seq<RpkiCacheBlock>, a: string, part: RpkiPart): Option<Value> {
    var r :- Find(rs, RpkiOf, a);
    GetRpki(r, part)
  }

  // A cache field holds what is stored in it, and no other field changes.
  lemma FieldStored(r: RpkiCacheBlock, s: RpkiSetting, j: RpkiCacheKey)
    ensures RpkiField(WithField(r, s), j) == if j == FieldKey(s) then Some(s) else RpkiField(r, j)
    ensures WithField(r, s).address == r.address
  {
  }

  lemma FieldGone(r: RpkiCacheBlock, k: RpkiCacheKey, j: RpkiCacheKey)
    ensures RpkiField(WithoutField(r, k), j) == if j == k then None else RpkiField(r, j)
    ensures WithoutField(r, k).address == r.address
  {
  }

  lemma SetRpkiRefines(e: Edit, rs: seq<RpkiCacheBlock>, a: string, part: RpkiPart)
    requires e.SetRpki?
    ensures var (r, ok) := EditRpki(e, rs);
      && ok == e.field.Some?
      && GetRpkis(r, a, part) ==
           if a != e.addr then GetRpkis(rs, a, part)
           else if ok && part == RpkiFieldPart(e.rpkiKey) then Written(e)
           else if part == RpkiItself then Some(Present)
           else GetRpkis(rs, a, part)
  {
    hide Find, Without, Store, RpkiField, WithField, FieldKey;
    FindKey(rs, RpkiOf, e.addr);
    var r := RpkiAt(rs, e.addr);
    FindStore(rs, RpkiOf, r, a);
    if e.field.Some? {
      FieldStored(r, e.field.value, if part.RpkiFieldPart? then part.field else Preference);
      FindStore(rs, RpkiOf, WithField(r, e.field.value), a);
    }
    if part.RpkiFieldPart? {
      EmptyField(e.addr, part.field);
    }
  }

  lemma UnsetRpkiRefines(e: Edit, rs: seq<RpkiCacheBlock>, a: string, part: RpkiPart)
    requires e.UnsetRpki? || e.UnsetRpkiField?
    ensures var (r, ok) := EditRpki(e, rs);
      var target := if e.UnsetRpki? then RpkiItself else RpkiFieldPart(e.rpkiKey);
      && ok == GetRpkis(rs, e.addr, target).Some?
      && GetRpkis(r, a, part) ==
           if a == e.addr && (part == target || e.UnsetRpki?) then None else GetRpkis(rs, a, part)
  {
    hide Find, Without, Store, RpkiField, WithoutField;
    FindKey(rs, RpkiOf, e.addr);
    var r := RpkiAt(rs, e.addr);
    match e {
      case UnsetRpki(_) => FindWithout(rs, RpkiOf, e.addr, a); WithoutAbsent(rs, RpkiOf, e.addr);
      case UnsetRpkiField(k, _) =>
        FieldGone(r, k, if part.RpkiFieldPart? then part.field else k);
        FindStore(rs, RpkiOf, WithoutField(r, k), a);
    }
  }

  lemma EmptyField(a: string, k: RpkiCacheKey)
    ensures RpkiField(EmptyRpkiCache(a), k).None?
  {
  }

  // ----- BGP-LS and telemetry -----

  function GetTelemetries(t: Option<TelemetryBlock>, part: TelemetryPart): Option<Value> {
    var b :- t;
    GetTelemetry(b, part)
  }

  lemma SetTelemetryRefines(e: Edit, t: Option<TelemetryBlock>, part: TelemetryPart)
    requires e.SetJson? || e.SetEmf? || e.SetPrometheus? || e.SetListen?
    ensures var (r, ok) := EditTelemetry(e, t);
      && ok == !((e.SetJson? && GetTelemetries(t, EmfPart).Some?) || (e.SetEmf? && GetTelemetries(t, JsonPart).Some?))
      && GetTelemetries(r, part) ==
           if part == TelemetryItself then Some(Present)
           else if !ok then GetTelemetries(t, part)
           else if e.SetJson? && part == JsonPart then Some(Present)
           else if e.SetEmf? && part == EmfPart then Some(TextValue(e.namespace))
           else if e.SetListen? && part == ListenPart then Some(TextValue(e.addr))
           else if (e.SetPrometheus? || e.SetListen?) && part == PrometheusPart then Some(Present)
           else GetTelemetries(t, part)
  {
  }

  lemma UnsetTelemetryRefines(e: Edit, t: Option<TelemetryBlock>, part: TelemetryPart)
    requires e.UnsetTelemetry? || e.UnsetJson? || e.UnsetEmf? || e.UnsetPrometheus? || e.UnsetListen?
    ensures var (r, ok) := EditTelemetry(e, t);
      var target := match e case UnsetTelemetry => TelemetryItself case UnsetJson => JsonPart case UnsetEmf => EmfPart
                            case UnsetPrometheus => PrometheusPart case _ => ListenPart;
      && ok == GetTelemetries(t, target).Some?
      && GetTelemetries(r, part) ==
           if part == target || Above(TelemetryPath(target), TelemetryPath(part)) then None else GetTelemetries(t, part)
  {
  }
}
