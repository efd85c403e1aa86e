// A condition on values, not on text, under which a configuration can be printed and read
// back: names and words are plain words, quoted texts are single lines without quotes.
module PlainForms {
  import P = Printer
  import opened Ast
  import opened Decimal
  import opened Keywords
  import opened Layout
  import opened Leaves
  import opened Lexer
  import Parser
  import opened RoundTrip
  import opened Wrappers

  predicate PlainSetting(s: Setting) {
    match s
    case ListenAddr(v) => PlainWord(v)
    case GrpcListenAddr(v) => PlainWord(v)
    case LogLevel(v) => PlainWord(v)
    case SysName(v) => v != [] && Quotable(v)
    case SysDescr(v) => v != [] && Quotable(v)
    case Interface(v) => PlainWord(v)
    case Md5KeyFile(v) => PlainWord(v)
    case Originate(r) => PlainWord(r.prefix) && PlainWord(r.nexthop)
    case _ => true
  }

  predicate PlainDirective(d: FamilyDirective) {
    d.ExportPolicy? || d.ImportPolicy? ==> PlainWord(d.name)
  }

  predicate PlainFamily(f: FamilyBlock) {
    forall d | d in f.directives :: PlainDirective(d)
  }

  predicate PlainPeer(p: PeerBlock) {
    && PlainWord(p.address)
    && (forall s | s in p.settings :: PlainSetting(s) && !s.Originate?)
    && (forall f | f in p.families :: PlainFamily(f))
  }

  predicate PlainMatch(m: MatchClause) {
    match m
    case PrefixSet(r) => PlainWord(r.setName)
    case NeighborSet(r) => PlainWord(r.setName)
    case AsPathSet(r) => PlainWord(r.setName)
    case CommunitySet(r) => PlainWord(r.setName)
    case ExtCommunitySet(r) => PlainWord(r.setName)
    case LargeCommunitySet(r) => PlainWord(r.setName)
    case Prefix(v) => PlainWord(v)
    case Neighbor(v) => PlainWord(v)
    case RouteType(v) => PlainWord(v)
    case Community(v) => PlainWord(v)
    case AfiSafi(v) => PlainWord(v)
    case LsNlriType(v) => PlainWord(v)
    case LsProtocolId(v) => PlainWord(v)
    case LsNodeRouterId(v) => PlainWord(v)
    case _ => true
  }

  predicate PlainWords(ws: seq<string>) { forall w | w in ws :: PlainWord(w) }

  predicate PlainSet(c: SetClause) {
    c.SetCommunity? || c.SetExtCommunity? || c.SetLargeCommunity? ==> PlainWords(c.op.values)
  }

  predicate PlainStatement(s: StatementBlock) {
    && (s.name.Some? ==> PlainWord(s.name.value))
    && (forall m | m in s.matches :: PlainMatch(m))
    && (forall c | c in s.sets :: PlainSet(c))
  }

  predicate PlainRule(r: PolicyRule) {
    match r
    case MatchRule(s, a) => PlainWord(s) && PlainWord(a)
    case DefaultRule(a) => PlainWord(a)
    case StatementRule(s) => PlainStatement(s)
  }

  predicate PlainPolicy(p: PolicyBlock) {
    PlainWord(p.name) && forall r | r in p.rules :: PlainRule(r)
  }

  predicate PlainPrefixList(p: PrefixListBlock) {
    PlainWord(p.name) && forall e | e in p.prefixes :: PlainWord(e.prefix) && EntryShape(e)
  }

  predicate PlainWordList(w: WordListBlock, quoted: bool) {
    PlainWord(w.name) && forall x | x in w.entries :: if quoted then Quotable(x) else PlainWord(x)
  }

  predicate PlainBmp(b: BmpServerBlock) { PlainWord(b.address) }

  predicate PlainOption(o: Option<string>) { o.Some? ==> PlainWord(o.value) }

  predicate PlainRpki(r: RpkiCacheBlock) {
    PlainWord(r.address) && PlainOption(r.sshUsername) && PlainOption(r.sshPrivateKeyFile) &&
    PlainOption(r.sshKnownHostsFile)
  }

  predicate PlainTelemetry(t: TelemetryBlock) {
    && !(t.json && t.cloudwatchEmf.Some?)
    && PlainOption(t.cloudwatchEmf)
    && (t.prometheus.Some? ==> PlainOption(t.prometheus.value.listen))
  }

  predicate PlainBody(b: Body) {
    && (forall s | s in b.settings :: PlainSetting(s))
    && (forall p | p in b.peers :: PlainPeer(p))
    && (forall p | p in b.policies :: PlainPolicy(p))
    && (forall p | p in b.prefixLists :: PlainPrefixList(p))
    && PlainLists(b)
    && (forall x | x in b.bmpServers :: PlainBmp(x))
    && (forall r | r in b.rpkiCaches :: PlainRpki(r))
    && (b.telemetry.Some? ==> PlainTelemetry(b.telemetry.value))
  }

  predicate PlainLists(b: Body) {
    && (forall w | w in b.neighborSets :: PlainWordList(w, false))
    && (forall w | w in b.asPathSets :: PlainWordList(w, true))
    && (forall w | w in b.communitySets :: PlainWordList(w, false))
    && (forall w | w in b.extCommunitySets :: PlainWordList(w, false))
    && (forall w | w in b.largeCommunitySets :: PlainWordList(w, false))
  }

  predicate PlainRoot(r: Root) { forall b | b in r.services :: PlainBody(b) }

  // ----- plain values make plain lines -----

  lemma DigitsPlain(n: nat)
    ensures PlainWord(Digits(n))
  {
    forall c | c in Digits(n) ensures !EndsWord(c) && c != '#' && c != '"' {
      assert IsDigit(c);
    }
  }

  lemma Ipv4Plain(ip: Ipv4)
    ensures PlainWord(Ipv4Text(ip))
  {
    DigitsPlain(ip.a);
    DigitsPlain(ip.b);
    DigitsPlain(ip.c);
    DigitsPlain(ip.d);
  }

  lemma NumberPlain(k: Keyword, n: nat)
    ensures PlainLine(P.Number(k, n))
  {
    DigitsPlain(n);
  }

  lemma NamedPlain(k: Keyword, w: string)
    requires PlainWord(w)
    ensures PlainLine(P.Named(k, w))
  {
    hide PlainWord;
    assert PlainLine(Bare(w, Stop));
  }

  lemma ValuePlain(k: Keyword, v: string)
    requires v != [] && Quotable(v)
    ensures PlainLine(P.Value(k, v))
  {
    assert P.Unquoted(v) == v;
  }

  lemma TopPlain(s: Setting)
    requires PlainSetting(s)
    requires s.Asn? || s.RouterId? || s.HoldTime? || s.ConnectRetry? || s.ClusterId? || s.SysName? || s.SysDescr? ||
             s.EnhancedRrStaleTtl? || s.RemoteAs? || s.Port? || s.TtlMin?
    ensures PlainLine(P.SettingLine(s))
  {
    hide P.Number, P.Value, P.Named, PlainWord, Quotable, Ipv4Text;
    match s {
      case Asn(v) => NumberPlain(TopKw(TopKey.Asn), v);
      case RouterId(ip) => Ipv4Plain(ip); NamedPlain(TopKw(TopKey.RouterId), Ipv4Text(ip));
      case HoldTime(v) => NumberPlain(TopKw(TopKey.HoldTime), v);
      case ConnectRetry(v) => NumberPlain(TopKw(TopKey.ConnectRetry), v);
      case ClusterId(ip) => Ipv4Plain(ip); NamedPlain(TopKw(TopKey.ClusterId), Ipv4Text(ip));
      case SysName(v) => ValuePlain(TopKw(TopKey.SysName), v);
      case SysDescr(v) => ValuePlain(TopKw(TopKey.SysDescr), v);
      case EnhancedRrStaleTtl(v) => NumberPlain(TopKw(TopKey.EnhancedRrStaleTtl), v);
      case RemoteAs(v) => NumberPlain(PeerKw(PeerKey.RemoteAs), v);
      case Port(v) => NumberPlain(PeerKw(PeerKey.Port), v);
      case TtlMin(v) => NumberPlain(PeerKw(PeerKey.TtlMin), v);
    }
  }

  lemma SettingPlain(s: Setting)
    requires PlainSetting(s)
    ensures PlainLine(P.SettingLine(s)) && SettingShape(s)
  {
    hide P.SettingLine, PlainLine;
    if s.Asn? || s.RouterId? || s.HoldTime? || s.ConnectRetry? || s.ClusterId? || s.SysName? || s.SysDescr? ||
       s.EnhancedRrStaleTtl? || s.RemoteAs? || s.Port? || s.TtlMin? {
      TopPlain(s);
    } else if s.ListenAddr? || s.GrpcListenAddr? || s.LogLevel? || s.Interface? || s.Md5KeyFile? {
      WordPlain(s);
    } else if s.DelayOpenTimeSecs? || s.IdleHoldTimeSecs? || s.MinRouteAdvertisementIntervalSecs? {
      TimerPlain(s);
    } else if s.Originate? {
      RoutePlain(s);
    } else {
      FlagPlain(s);
    }
  }

  lemma WordPlain(s: Setting)
    requires PlainSetting(s) && (s.ListenAddr? || s.GrpcListenAddr? || s.LogLevel? || s.Interface? || s.Md5KeyFile?)
    ensures PlainLine(P.SettingLine(s))
  {
    hide P.Named, PlainWord, Text;
    match s {
      case ListenAddr(v) => NamedPlain(TopKw(TopKey.ListenAddr), v);
      case GrpcListenAddr(v) => NamedPlain(TopKw(TopKey.GrpcListenAddr), v);
      case LogLevel(v) => NamedPlain(TopKw(TopKey.LogLevel), v);
      case Interface(v) => NamedPlain(PeerKw(PeerKey.Interface), v);
      case Md5KeyFile(v) => NamedPlain(PeerKw(PeerKey.Md5KeyFile), v);
    }
  }

  lemma TimerPlain(s: Setting)
    requires s.DelayOpenTimeSecs? || s.IdleHoldTimeSecs? || s.MinRouteAdvertisementIntervalSecs?
    ensures PlainLine(P.SettingLine(s))
  {
    hide P.Number, PlainWord, Text;
    match s {
      case DelayOpenTimeSecs(v) => NumberPlain(PeerKw(PeerKey.DelayOpenTimeSecs), v);
      case IdleHoldTimeSecs(v) => NumberPlain(PeerKw(PeerKey.IdleHoldTimeSecs), v);
      case MinRouteAdvertisementIntervalSecs(v) => NumberPlain(PeerKw(PeerKey.MinRouteAdvertisementIntervalSecs), v);
    }
  }

  lemma RoutePlain(s: Setting)
    requires PlainSetting(s) && s.Originate?
    ensures PlainLine(P.SettingLine(s))
  {
    hide PlainWord, Text;
    OriginatePlain(s.route);
  }

  // Flags print as two keywords.
  lemma FlagPlain(s: Setting)
    requires !s.Asn? && !s.RouterId? && !s.HoldTime? && !s.ConnectRetry? && !s.ClusterId? && !s.SysName? && !s.SysDescr?
    requires !s.EnhancedRrStaleTtl? && !s.RemoteAs? && !s.Port? && !s.TtlMin? && !s.ListenAddr? && !s.GrpcListenAddr?
    requires !s.LogLevel? && !s.Interface? && !s.Md5KeyFile? && !s.DelayOpenTimeSecs? && !s.IdleHoldTimeSecs?
    requires !s.MinRouteAdvertisementIntervalSecs? && !s.Originate?
    ensures PlainLine(P.SettingLine(s))
  {
    hide PlainWord, Text;
  }

  lemma OriginatePlain(r: OriginateRoute)
    requires PlainWord(r.prefix) && PlainWord(r.nexthop)
    ensures PlainLine(P.SettingLine(Setting.Originate(r)))
  {
    hide PlainWord;
    var tail := Bare(r.nexthop, Stop);
    assert PlainLine(tail);
    assert PlainLine(Key(LeafKw(Nexthop), tail));
    assert PlainLine(Bare(r.prefix, Key(LeafKw(Nexthop), tail)));
  }

  lemma DirectivePlain(d: FamilyDirective)
    requires PlainDirective(d)
    ensures PlainLine(P.DirectiveLine(d))
  {
    hide PlainWord;
    match d {
      case ExportPolicy(n) => NamedPlain(BlockKw(BlockKey.Policy), n);
      case ImportPolicy(n) => NamedPlain(BlockKw(BlockKey.Policy), n);
      case MaxPrefix(limit, action) =>
        DigitsPlain(limit);
        assert PlainLine(P.Choice(FamilyKw(FamilyWord.Action), FamilyKw(FamilyWord.Discard)));
        assert PlainLine(Bare(Digits(limit), P.Choice(FamilyKw(FamilyWord.Action), FamilyKw(FamilyWord.Discard))));
      case AddPath(_) =>
    }
  }

  lemma SetRefPlain(kind: Keyword, r: MatchSetRef)
    requires PlainWord(r.setName)
    ensures PlainLine(P.SetRefLine(kind, r))
  {
    hide PlainWord;
    assert PlainLine(P.OptionWord(r.option));
    assert PlainLine(Bare(r.setName, P.OptionWord(r.option)));
  }

  lemma MatchNumberPlain(k: Keyword, n: nat)
    ensures PlainLine(Key(PolicyKw(PolicyWord.Match), P.Number(k, n)))
  {
    NumberPlain(k, n);
  }

  lemma MatchWordPlain(k: Keyword, w: string)
    requires PlainWord(w)
    ensures PlainLine(Key(PolicyKw(PolicyWord.Match), P.Named(k, w)))
  {
    NamedPlain(k, w);
  }

  lemma MatchPlain(m: MatchClause)
    requires PlainMatch(m)
    ensures PlainLine(P.MatchLine(m))
  {
    hide P.SetRefLine, P.Number, P.Named, PlainWord;
    match m {
      case PrefixSet(r) => SetRefPlain(MatchKw(MatchWord.PrefixSet), r);
      case NeighborSet(r) => SetRefPlain(SetBlockKw(SetBlockKey.NeighborSet), r);
      case AsPathSet(r) => SetRefPlain(SetBlockKw(SetBlockKey.AsPathSet), r);
      case CommunitySet(r) => SetRefPlain(SetBlockKw(SetBlockKey.CommunitySet), r);
      case ExtCommunitySet(r) => SetRefPlain(SetBlockKw(SetBlockKey.ExtCommunitySet), r);
      case LargeCommunitySet(r) => SetRefPlain(SetBlockKw(SetBlockKey.LargeCommunitySet), r);
      case Prefix(v) => MatchWordPlain(MatchKw(MatchWord.Prefix), v);
      case Neighbor(v) => MatchWordPlain(MatchKw(MatchWord.Neighbor), v);
      case HasAsn(v) => MatchNumberPlain(MatchKw(MatchWord.HasAsn), v);
      case RouteType(v) => MatchWordPlain(MatchKw(MatchWord.RouteType), v);
      case Community(v) => MatchWordPlain(MatchKw(MatchWord.Community), v);
      case AfiSafi(v) => MatchWordPlain(MatchKw(MatchWord.AfiSafi), v);
      case LsNlriType(v) => MatchWordPlain(MatchKw(MatchWord.LsNlriType), v);
      case LsProtocolId(v) => MatchWordPlain(MatchKw(MatchWord.LsProtocolId), v);
      case LsInstanceId(v) => MatchNumberPlain(MatchKw(MatchWord.LsInstanceId), v);
      case LsNodeAs(v) => MatchNumberPlain(MatchKw(MatchWord.LsNodeAs), v);
      case LsNodeRouterId(v) => MatchWordPlain(MatchKw(MatchWord.LsNodeRouterId), v);
      case Rpki(v) => RpkiPlain(v);
    }
  }

  lemma RpkiPlain(v: RpkiValidation)
    ensures PlainLine(P.MatchLine(MatchClause.Rpki(v)))
  {
    assert PlainLine(P.Choice(MatchKw(MatchWord.Rpki), P.RpkiWord(v)));
  }

  lemma {:induction false} WordsPlain(ws: seq<string>)
    requires PlainWords(ws)
    ensures PlainLine(P.Words(ws))
  {
    hide PlainWord;
    if ws != [] {
      WordsPlain(ws[1..]);
    }
  }

  lemma CommunityPlain(kind: Keyword, op: CommunityOp)
    requires PlainWords(op.values)
    ensures PlainLine(P.CommunityLine(kind, op))
  {
    WordsPlain(op.values);
    assert PlainLine(Key(P.OpWord(op.op), P.Words(op.values)));
    assert PlainLine(Key(kind, Key(P.OpWord(op.op), P.Words(op.values))));
  }

  lemma SetPlain(c: SetClause)
    requires PlainSet(c)
    ensures PlainLine(P.SetLine(c))
  {
    hide P.CommunityLine, PlainWords;
    match c {
      case LocalPref(v, _) =>
        NumberPlain(PolicyKw(Force), v);
        NumberPlain(SetKw(SetWord.LocalPref), v);
        assert PlainLine(Key(SetKw(SetWord.LocalPref), P.Number(PolicyKw(Force), v)));
      case Med(MedSet(v)) => NumberPlain(SetKw(SetWord.Med), v);
      case Med(MedRemove) => assert PlainLine(P.Choice(SetKw(SetWord.Med), PolicyKw(PolicyWord.Remove)));
      case SetCommunity(op) => CommunityPlain(MatchKw(MatchWord.Community), op);
      case SetExtCommunity(op) => CommunityPlain(SetKw(SetWord.ExtCommunity), op);
      case SetLargeCommunity(op) => CommunityPlain(SetKw(SetWord.LargeCommunity), op);
      case SetRpkiState(v) => assert PlainLine(P.Choice(SetKw(SetWord.RpkiState), P.RpkiWord(v)));
    }
  }

  lemma EntryPlain(e: PrefixListEntry)
    requires PlainWord(e.prefix)
    ensures PlainLine(P.EntryLine(e))
  {
    hide PlainWord, Digits;
    if e.range.Some? && e.range.value.Range? {
      var ge, le := e.range.value.ge, e.range.value.le;
      var tail := if le.Some? then P.Number(LeafKw(Le), le.value) else Stop;
      if le.Some? { NumberPlain(LeafKw(Le), le.value); }
      assert PlainLine(tail);
      if ge.Some? {
        DigitsPlain(ge.value);
        assert PlainLine(Bare(Digits(ge.value), tail));
        assert PlainLine(Key(LeafKw(Ge), Bare(Digits(ge.value), tail)));
      }
    } else {
      assert PlainLine(Key(LeafKw(LeafWord.Exact), Stop));
    }
  }

  // ----- and plain rows -----

  predicate PlainRows(rs: seq<Row>) { forall r | r in rs :: PlainLine(r.line) }

  lemma PlainRowsSafe(rs: seq<Row>)
    requires PlainRows(rs)
    ensures SafeRows(rs)
  {
    forall r | r in rs ensures Safe(r.line, false) {
      PlainLineSafe(r.line);
    }
  }

  lemma {:induction false} EachPlain<X(!new)>(xs: seq<X>, line: X -> Line)
    requires forall x | x in xs :: PlainLine(line(x))
    ensures PlainRows(P.Each(xs, line))
  {
    if xs != [] {
      EachPlain(xs[1..], line);
    }
  }

  lemma {:induction false} FlattenPlain<X(!new)>(xs: seq<X>, rows: X -> seq<Row>)
    requires forall x | x in xs :: PlainRows(rows(x))
    ensures PlainRows(P.Flatten(xs, rows))
  {
    if xs != [] {
      FlattenPlain(xs[1..], rows);
    }
  }

  lemma ShiftPlain(rs: seq<Row>)
    requires PlainRows(rs)
    ensures PlainRows(Shift(rs))
  {
    hide PlainLine;
    forall r | r in Shift(rs) ensures PlainLine(r.line) {
      var i :| 0 <= i < |rs| && Shift(rs)[i] == r;
      assert rs[i] in rs;
    }
  }

  lemma BlockPlain(header: Line, rows: seq<Row>)
    requires PlainLine(header) && PlainRows(rows)
    ensures PlainRows(P.Block(header, rows))
  {
    assert PlainLine(CloseBrace(Stop));
  }

  lemma HeaderPlain(k: Keyword, name: string)
    requires PlainWord(name)
    ensures PlainLine(P.Header(k, name))
  {
    hide PlainWord;
    assert PlainLine(Bare(name, OpenBrace(Stop)));
  }

  lemma FamilyPlain(f: FamilyBlock)
    requires PlainFamily(f)
    ensures PlainRows(P.PeerFamilyRows(f))
  {
    hide P.DirectiveLine, PlainDirective;
    forall d | d in f.directives ensures PlainLine(P.DirectiveLine(d)) {
      DirectivePlain(d);
    }
    EachPlain(f.directives, P.DirectiveLine);
    var tail := Key(P.SafiWord(f.safi), OpenBrace(Stop));
    assert PlainLine(tail) && PlainLine(Key(P.AfiWord(f.afi), tail));
    BlockPlain(Key(BlockKw(Family), Key(P.AfiWord(f.afi), tail)), P.Each(f.directives, P.DirectiveLine));
    ShiftPlain(P.FamilyRows(f));
  }

  lemma PeerPlain(p: PeerBlock)
    requires PlainPeer(p)
    ensures PlainRows(P.PeerRows(p))
  {
    hide P.SettingLine, P.PeerFamilyRows, PlainSetting, PlainFamily, PlainWord;
    forall s | s in p.settings ensures PlainLine(P.SettingLine(s)) {
      SettingPlain(s);
    }
    EachPlain(p.settings, P.SettingLine);
    forall f | f in p.families ensures PlainRows(P.PeerFamilyRows(f)) {
      FamilyPlain(f);
    }
    FlattenPlain(p.families, P.PeerFamilyRows);
    HeaderPlain(BlockKw(BlockKey.Peer), p.address);
    BlockPlain(P.Header(BlockKw(BlockKey.Peer), p.address),
               P.Each(p.settings, P.SettingLine) + P.Flatten(p.families, P.PeerFamilyRows));
  }

  lemma StatementPlain(s: StatementBlock)
    requires PlainStatement(s)
    ensures PlainRows(P.StatementRows(s))
  {
    hide P.MatchLine, P.SetLine, PlainMatch, PlainSet, PlainWord;
    forall m | m in s.matches ensures PlainLine(P.MatchLine(m)) {
      MatchPlain(m);
    }
    EachPlain(s.matches, P.MatchLine);
    forall c | c in s.sets ensures PlainLine(P.SetLine(c)) {
      SetPlain(c);
    }
    EachPlain(s.sets, P.SetLine);
    if s.name.Some? { HeaderPlain(BlockKw(Statement), s.name.value); }
    BlockPlain(P.StatementHeader(s.name),
               P.Each(s.matches, P.MatchLine) +
               (P.Each(s.sets, P.SetLine) + P.Optional(s.disposition, P.DispositionLine)));
  }

  lemma RulePlain(r: PolicyRule)
    requires PlainRule(r)
    ensures PlainRows(P.RuleRows(r))
  {
    hide PlainWord, P.StatementRows, PlainStatement;
    match r {
      case StatementRule(s) => StatementPlain(s); ShiftPlain(P.StatementRows(s));
      case MatchRule(s, a) =>
        assert PlainLine(Bare(a, Stop));
        assert PlainLine(Bare(s, Bare(a, Stop)));
      case DefaultRule(a) => assert PlainLine(Bare(a, Stop));
    }
  }

  lemma PolicyPlain(p: PolicyBlock)
    requires PlainPolicy(p)
    ensures PlainRows(P.PolicyRows(p))
  {
    hide PlainWord, P.RuleRows, PlainRule;
    forall r | r in p.rules ensures PlainRows(P.RuleRows(r)) {
      RulePlain(r);
    }
    FlattenPlain(p.rules, P.RuleRows);
    HeaderPlain(BlockKw(BlockKey.Policy), p.name);
    BlockPlain(P.Header(BlockKw(BlockKey.Policy), p.name), P.Flatten(p.rules, P.RuleRows));
  }

  lemma PrefixListPlain(p: PrefixListBlock)
    requires PlainPrefixList(p)
    ensures PlainRows(P.PrefixListRows(p))
  {
    hide PlainWord, P.EntryLine, EntryShape;
    forall e | e in p.prefixes ensures PlainLine(P.EntryLine(e)) {
      EntryPlain(e);
    }
    EachPlain(p.prefixes, P.EntryLine);
    HeaderPlain(SetBlockKw(PrefixList), p.name);
    BlockPlain(P.Header(SetBlockKw(PrefixList), p.name), P.Each(p.prefixes, P.EntryLine));
  }

  lemma WordListPlain(kind: SetBlockKey, w: WordListBlock)
    requires PlainWordList(w, kind.AsPathSet?)
    ensures PlainRows(P.WordListRows(kind, w))
  {
    hide PlainWord, Quotable;
    HeaderPlain(SetBlockKw(kind), w.name);
    if kind.AsPathSet? {
      EachPlain(w.entries, P.QuotedLine);
      BlockPlain(P.Header(SetBlockKw(kind), w.name), P.Each(w.entries, P.QuotedLine));
    } else {
      EachPlain(w.entries, P.BareLine);
      BlockPlain(P.Header(SetBlockKw(kind), w.name), P.Each(w.entries, P.BareLine));
    }
  }

  lemma NumberRowPlain(k: Keyword, x: Option<int>)
    requires P.Natural(x)
    ensures PlainRows(P.NumberRow(k, x))
  {
    if x.Some? { NumberPlain(k, x.value); }
  }

  lemma NamedRowPlain(k: Keyword, x: Option<string>)
    requires PlainOption(x)
    ensures PlainRows(P.NamedRow(k, x))
  {
    hide P.Named;
    if x.Some? { NamedPlain(k, x.value); }
  }

  lemma BmpPlain(b: BmpServerBlock)
    requires PlainBmp(b)
    ensures PlainRows(P.BmpRows(b))
  {
    hide PlainWord;
    HeaderPlain(BlockKw(BmpServer), b.address);
    assert b.statisticsTimeout.Some? ==> b.statisticsTimeout.value >= 0;
    NumberRowPlain(LeafKw(StatisticsTimeout), b.statisticsTimeout);
    BlockPlain(P.Header(BlockKw(BmpServer), b.address), P.NumberRow(LeafKw(StatisticsTimeout), b.statisticsTimeout));
  }

  lemma RpkiCachePlain(r: RpkiCacheBlock)
    requires PlainRpki(r)
    ensures PlainRows(P.RpkiRows(r))
  {
    hide PlainWord, P.NumberRow, P.NamedRow;
    HeaderPlain(BlockKw(RpkiCache), r.address);
    assert r.preference.Some? ==> r.preference.value >= 0;
    assert r.retryInterval.Some? ==> r.retryInterval.value >= 0;
    assert r.refreshInterval.Some? ==> r.refreshInterval.value >= 0;
    assert r.expireInterval.Some? ==> r.expireInterval.value >= 0;
    NumberRowPlain(RpkiKw(Preference), r.preference);
    NamedRowPlain(RpkiKw(SshUsername), r.sshUsername);
    NamedRowPlain(RpkiKw(SshPrivateKeyFile), r.sshPrivateKeyFile);
    NamedRowPlain(RpkiKw(SshKnownHostsFile), r.sshKnownHostsFile);
    NumberRowPlain(RpkiKw(RetryInterval), r.retryInterval);
    NumberRowPlain(RpkiKw(RefreshInterval), r.refreshInterval);
    NumberRowPlain(RpkiKw(ExpireInterval), r.expireInterval);
    assert PlainRows(P.TransportRow(r.transport));
    BlockPlain(P.Header(BlockKw(RpkiCache), r.address), P.RpkiScalars(r));
  }

  lemma TelemetryPlain(t: TelemetryBlock)
    requires PlainTelemetry(t)
    ensures PlainRows(P.TelemetryRows(t))
  {
    hide PlainWord, P.NamedRow;
    if t.cloudwatchEmf.Some? {
      NamedRowPlain(LeafKw(Namespace), t.cloudwatchEmf);
      BlockPlain(Key(LeafKw(CloudwatchEmf), OpenBrace(Stop)), P.NamedRow(LeafKw(Namespace), t.cloudwatchEmf));
      ShiftPlain(P.Block(Key(LeafKw(CloudwatchEmf), OpenBrace(Stop)), P.NamedRow(LeafKw(Namespace), t.cloudwatchEmf)));
    }
    if t.prometheus.Some? { PrometheusPlain(t.prometheus.value); }
    BlockPlain(Key(BlockKw(Telemetry), OpenBrace(Stop)), P.TelemetryParts(t));
  }

  lemma PrometheusPlain(p: PrometheusBlock)
    requires PlainOption(p.listen)
    ensures PlainRows(P.PrometheusRows(p))
  {
    hide PlainWord, P.NamedRow;
    NamedRowPlain(LeafKw(Listen), p.listen);
    BlockPlain(Key(LeafKw(Prometheus), OpenBrace(Stop)), P.NamedRow(LeafKw(Listen), p.listen));
    ShiftPlain(P.Block(Key(LeafKw(Prometheus), OpenBrace(Stop)), P.NamedRow(LeafKw(Listen), p.listen)));
  }

  // ----- the whole body -----

  predicate PlainItem(i: P.Item) {
    match i
    case SettingItem(s) => PlainSetting(s)
    case PeerItem(p) => PlainPeer(p)
    case BmpItem(b) => PlainBmp(b)
    case RpkiItem(r) => PlainRpki(r)
    case PolicyItem(p) => PlainPolicy(p)
    case PrefixListItem(p) => PlainPrefixList(p)
    case WordListItem(kind, w) => !kind.PrefixList? && PlainWordList(w, kind.AsPathSet?)
    case BgpLsItem(_) => true
    case TelemetryItem(t) => PlainTelemetry(t)
  }

  lemma ItemPlain(i: P.Item)
    requires PlainItem(i)
    ensures PlainRows(P.ItemRows(i)) && ItemShape(i)
  {
    hide PlainWord, PlainSetting, P.SettingLine, P.PeerRows, P.BmpRows, P.RpkiRows, P.PolicyRows, P.PrefixListRows,
      P.WordListRows, P.TelemetryRows, EntryShape, PlainRule, PlainFamily;
    match i {
      case SettingItem(s) => SettingPlain(s);
      case PeerItem(p) => PeerPlain(p); PeerShape(p);
      case BmpItem(b) => BmpPlain(b);
      case RpkiItem(r) => RpkiCachePlain(r);
      case PolicyItem(p) => PolicyPlain(p);
      case PrefixListItem(p) => PrefixListPlain(p);
      case WordListItem(kind, w) => WordListPlain(kind, w);
      case BgpLsItem(v) => BgpLsPlain(v);
      case TelemetryItem(t) => TelemetryPlain(t);
    }
  }

  lemma PeerShape(p: PeerBlock)
    requires PlainPeer(p)
    ensures forall s | s in p.settings :: SettingShape(s) && !s.Originate?
  {
    hide PlainWord, PlainFamily;
    forall s | s in p.settings ensures SettingShape(s) {
      SettingPlain(s);
    }
  }

  lemma BgpLsPlain(v: u64)
    ensures PlainRows(P.BgpLsRows(v))
  {
    NumberRowPlain(LeafKw(InstanceId), Some(v));
    BlockPlain(Key(BlockKw(BgpLs), OpenBrace(Stop)), P.NumberRow(LeafKw(InstanceId), Some(v)));
  }

  lemma {:induction false} ItemsPlain(items: seq<P.Item>, first: bool)
    requires PlainItems(items)
    ensures PlainRows(P.ItemsRows(items, first)) && ItemShapes(items)
  {
    hide P.ItemRows, PlainItem, ItemShape;
    if items != [] {
      ItemPlain(items[0]);
      ShiftPlain(P.ItemRows(items[0]));
      ItemsPlain(items[1..], false);
      assert PlainLine(Stop);
    }
  }

  predicate PlainItems(items: seq<P.Item>) { forall i | i in items :: PlainItem(i) }

  lemma SetItemsPlain(b: Body)
    requires PlainBody(b)
    ensures PlainItems(P.SetItems(b))
  {
    hide PlainSetting, PlainPeer, PlainBmp, PlainRpki, PlainPolicy, PlainPrefixList, PlainWordList, PlainTelemetry;
    var m0 := P.Map(b.neighborSets, p => P.WordListItem(SetBlockKey.NeighborSet, p));
    forall i | 0 <= i < |m0| ensures PlainItem(m0[i]) { assert b.neighborSets[i] in b.neighborSets; }
    var m1 := P.Map(b.asPathSets, p => P.WordListItem(SetBlockKey.AsPathSet, p));
    forall i | 0 <= i < |m1| ensures PlainItem(m1[i]) { assert b.asPathSets[i] in b.asPathSets; }
    var m2 := P.Map(b.communitySets, p => P.WordListItem(SetBlockKey.CommunitySet, p));
    forall i | 0 <= i < |m2| ensures PlainItem(m2[i]) { assert b.communitySets[i] in b.communitySets; }
    var m3 := P.Map(b.extCommunitySets, p => P.WordListItem(SetBlockKey.ExtCommunitySet, p));
    forall i | 0 <= i < |m3| ensures PlainItem(m3[i]) { assert b.extCommunitySets[i] in b.extCommunitySets; }
    var m4 := P.Map(b.largeCommunitySets, p => P.WordListItem(SetBlockKey.LargeCommunitySet, p));
    forall i | 0 <= i < |m4| ensures PlainItem(m4[i]) { assert b.largeCommunitySets[i] in b.largeCommunitySets; }
    var last := (if b.bgpLs.Some? then [P.BgpLsItem(b.bgpLs.value)] else []) +
                (if b.telemetry.Some? then [P.TelemetryItem(b.telemetry.value)] else []);
    assert P.SetItems(b) == m0 + (m1 + (m2 + (m3 + (m4 + last))));
  }

  lemma BodyItemsPlain(b: Body)
    requires PlainBody(b)
    ensures PlainItems(P.Items(b))
  {
    hide PlainSetting, PlainPeer, PlainBmp, PlainRpki, PlainPolicy, PlainPrefixList, PlainLists, PlainTelemetry,
        P.SetItems;
    SetItemsPlain(b);
    var m0 := P.Map(b.settings, s => P.SettingItem(s));
    forall i | 0 <= i < |m0| ensures PlainItem(m0[i]) { assert b.settings[i] in b.settings; }
    var m1 := P.Map(b.peers, p => P.PeerItem(p));
    forall i | 0 <= i < |m1| ensures PlainItem(m1[i]) { assert b.peers[i] in b.peers; }
    var m2 := P.Map(b.bmpServers, p => P.BmpItem(p));
    forall i | 0 <= i < |m2| ensures PlainItem(m2[i]) { assert b.bmpServers[i] in b.bmpServers; }
    var m3 := P.Map(b.rpkiCaches, p => P.RpkiItem(p));
    forall i | 0 <= i < |m3| ensures PlainItem(m3[i]) { assert b.rpkiCaches[i] in b.rpkiCaches; }
    var m4 := P.Map(b.policies, p => P.PolicyItem(p));
    forall i | 0 <= i < |m4| ensures PlainItem(m4[i]) { assert b.policies[i] in b.policies; }
    var m5 := P.Map(b.prefixLists, p => P.PrefixListItem(p));
    forall i | 0 <= i < |m5| ensures PlainItem(m5[i]) { assert b.prefixLists[i] in b.prefixLists; }
    assert P.Items(b) == m0 + (m1 + (m2 + (m3 + (m4 + (m5 + P.SetItems(b))))));
  }

  // A plain configuration can be printed and read back.
  lemma PlainPrintable(b: Body)
    requires PlainBody(b)
    ensures Printable(b)
  {
    hide PlainBody, P.Items, P.ItemsRows, PlainItem, ItemShapes;
    BodyItemsPlain(b);
    ItemsPlain(P.Items(b), true);
    assert PlainLine(OpenBrace(Stop));
    assert PlainLine(Key(BlockKw(Bgp), OpenBrace(Stop)));
    BlockPlain(P.SERVICE_HEADER, P.ItemsRows(P.Items(b), true));
    PlainRowsSafe(P.BodyRows(b));
  }

  lemma PlainRoundTrip(r: Root)
    requires PlainRoot(r)
    ensures Parser.Parse(P.RootText(r)) == Ok(r)
  {
    hide Parser.Parse, P.RootText, PlainBody, Printable;
    forall b | b in r.services ensures Printable(b) {
      PlainPrintable(b);
    }
    ParsePrinted(r);
  }
}
