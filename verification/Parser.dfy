// The recursive-descent parser (conf/src/language_bgp.rs, parse_root in language.rs).
// A parser maps the tokens that remain to a value and the tokens left after it, or fails.
module Parser {
  import opened Ast
  import opened Decimal
  import opened Keywords
  import opened Lexer
  import opened Wrappers

  datatype Parsed<+T> = Fail | Done(value: T, rest: Tokens) {
    predicate IsFailure() { Fail? }

    function PropagateFailure<U>(): Parsed<U>
      requires Fail?
    {
      Fail
    }

    function Extract(): (T, Tokens)
      requires Done?
    {
      (value, rest)
    }
  }

  // ----- brace nesting, independent of the grammar -----

  // The tokens after the brace that closes the block we are `depth` levels inside of.
  function AfterBlock(ts: Tokens, depth: nat): Option<Tokens> {
    match ts
    case End => None
    case Open(r) => AfterBlock(r, depth + 1)
    case Close(r) => if depth == 0 then Some(r) else AfterBlock(r, depth - 1)
    case Word(_, r) => AfterBlock(r, depth)
    case Newline(r) => AfterBlock(r, depth)
  }

  predicate Balanced(ts: Tokens, depth: nat) {
    match ts
    case End => depth == 0
    case Open(r) => Balanced(r, depth + 1)
    case Close(r) => depth > 0 && Balanced(r, depth - 1)
    case Word(_, r) => Balanced(r, depth)
    case Newline(r) => Balanced(r, depth)
  }

  // Leaving d + 2 levels is leaving d + 1 levels and then one more.
  lemma {:induction false} AfterNested(ts: Tokens, depth: nat)
    ensures AfterBlock(ts, depth + 1) ==
            (match AfterBlock(ts, depth) case None => None case Some(r) => AfterBlock(r, 0))
    ensures Balanced(ts, depth + 1) ==
            (match AfterBlock(ts, depth) case None => false case Some(r) => Balanced(r, 0))
  {
    match ts
    case End =>
    case Open(r) => AfterNested(r, depth + 1);
    case Close(r) => if depth > 0 { AfterNested(r, depth - 1); }
    case Word(_, r) => AfterNested(r, depth);
    case Newline(r) => AfterNested(r, depth);
  }

  // `rest` is what remains of `ts` after whole statements of one block.
  predicate Within(ts: Tokens, rest: Tokens) {
    Length(rest) <= Length(ts) && AfterBlock(ts, 0) == AfterBlock(rest, 0)
  }

  // `rest` is what remains of `ts` after the brace that closes the current block.
  predicate Beyond(ts: Tokens, rest: Tokens) {
    Length(rest) < Length(ts) && AfterBlock(ts, 0) == Some(rest)
  }

  // ----- shared helpers of language.rs -----

  function SkipNewlines(ts: Tokens): (r: Tokens)
    ensures Within(ts, r) && !r.Newline?
  {
    if ts.Newline? then SkipNewlines(ts.rest) else ts
  }

  function ExpectWord(ts: Tokens): (r: Parsed<string>)
    ensures r.Done? ==> Within(ts, r.rest)
  {
    if ts.Word? then Done(ts.word, ts.rest) else Fail
  }

  // `finish_statement`: a leaf statement ends at a newline, a closing brace or the end.
  function Finish<T>(value: T, ts: Tokens): (r: Parsed<T>)
    ensures r.Done? ==> Within(ts, r.rest)
  {
    match ts
    case Newline(r) => Done(value, r)
    case Close(_) => Done(value, ts)
    case End => Done(value, ts)
    case _ => Fail
  }

  // Everything up to and including `{`, which may stand on a later line.
  function ExpectOpen(ts: Tokens): (r: Parsed<()>)
    ensures r.Done? ==> Length(r.rest) < Length(ts)
    ensures r.Done? ==> AfterBlock(ts, 0) == AfterBlock(r.rest, 1)
  {
    var t := SkipNewlines(ts);
    if t.Open? then Done((), t.rest) else Fail
  }

  // ----- blocks -----

  // All block parsers share one loop; they differ in what they do with the word that
  // starts a statement.
  ghost predicate Stays<B(!new)>(item: (string, Tokens, B) -> Parsed<B>) {
    forall w, ts, b :: item(w, ts, b).Done? ==> Within(ts, item(w, ts, b).rest)
  }

  function Block<B(!new)>(item: (string, Tokens, B) -> Parsed<B>, ts: Tokens, b: B): (r: Parsed<B>)
    requires Stays(item)
    ensures r.Done? ==> Beyond(ts, r.rest)
    decreases Length(ts)
  {
    match ts
    case Newline(rest) => Block(item, rest, b)
    case Close(rest) => Done(b, rest)
    case End => Fail
    case Open(_) => Fail
    case Word(w, rest) =>
      var (b', rest') :- item(w, rest, b);
      Block(item, rest', b')
  }

  // A nested block: its opening brace, then its statements.
  function Nested<B(!new)>(item: (string, Tokens, B) -> Parsed<B>, ts: Tokens, b: B): (r: Parsed<B>)
    requires Stays(item)
    ensures r.Done? ==> Within(ts, r.rest)
  {
    var (_, rest) :- ExpectOpen(ts);
    AfterNested(rest, 0);
    Block(item, rest, b)
  }

  // ----- values -----

  function ParseU8(s: string): Option<u8> { ParseUint(s, U8_MAX) }

  function ParseU16(s: string): Option<u16> { ParseUint(s, U16_MAX) }

  function ParseU32(s: string): Option<u32> { ParseUint(s, U32_MAX) }

  function ParseU64(s: string): Option<u64> { ParseUint(s, U64_MAX) }

  function ParseBool(s: string): Option<bool> {
    match KeywordOf(s)
    case Some(ValueKw(True)) => Some(true)
    case Some(ValueKw(False)) => Some(false)
    case _ => None
  }

  function ParseAfi(s: string): Option<Afi> {
    match KeywordOf(s)
    case Some(ValueKw(Ipv4)) => Some(Ipv4Afi)
    case Some(ValueKw(Ipv6)) => Some(Ipv6Afi)
    case Some(ValueKw(Ls)) => Some(LinkStateAfi)
    case _ => None
  }

  function ParseSafi(s: string): Option<Safi> {
    match KeywordOf(s)
    case Some(ValueKw(Unicast)) => Some(Safi.Unicast)
    case Some(ValueKw(Multicast)) => Some(Safi.Multicast)
    case Some(ValueKw(MplsLabel)) => Some(Safi.MplsLabel)
    case Some(ValueKw(LinkState)) => Some(Safi.LinkState)
    case Some(ValueKw(LinkStateVpn)) => Some(Safi.LinkStateVpn)
    case _ => None
  }

  function ParseTransport(s: string): Option<TransportType> {
    match KeywordOf(s)
    case Some(ValueKw(Tcp)) => Some(TransportType.Tcp)
    case Some(ValueKw(Ssh)) => Some(TransportType.Ssh)
    case _ => None
  }

  function ParseRpkiState(s: string): Option<RpkiValidation> {
    match KeywordOf(s)
    case Some(ValueKw(Valid)) => Some(RpkiValidation.Valid)
    case Some(ValueKw(Invalid)) => Some(RpkiValidation.Invalid)
    case Some(ValueKw(NotFound)) => Some(RpkiValidation.NotFound)
    case _ => None
  }

  // ----- settings -----

  function TopSetting(k: TopKey, v: string): Option<Setting> {
    match k
    case Asn => var x :- ParseU32(v); Some(Setting.Asn(x))
    case RouterId => var x :- ParseIpv4(v); Some(Setting.RouterId(x))
    case ListenAddr => Some(Setting.ListenAddr(v))
    case GrpcListenAddr => Some(Setting.GrpcListenAddr(v))
    case LogLevel => Some(Setting.LogLevel(v))
    case HoldTime => var x :- ParseU64(v); Some(Setting.HoldTime(x))
    case ConnectRetry => var x :- ParseU64(v); Some(Setting.ConnectRetry(x))
    case ClusterId => var x :- ParseIpv4(v); Some(Setting.ClusterId(x))
    case SysName => Some(Setting.SysName(v))
    case SysDescr => Some(Setting.SysDescr(v))
    case EnhancedRrStaleTtl => var x :- ParseU64(v); Some(Setting.EnhancedRrStaleTtl(x))
  }

  function PeerSetting(k: PeerKey, v: string): Option<Setting> {
    match k
    case RemoteAs => var x :- ParseU32(v); Some(Setting.RemoteAs(x))
    case Port => var x :- ParseU16(v); Some(Setting.Port(x))
    case Interface => Some(Setting.Interface(v))
    case Md5KeyFile => Some(Setting.Md5KeyFile(v))
    case TtlMin => var x :- ParseU8(v); Some(Setting.TtlMin(x))
    case NextHopSelf => var x :- ParseBool(v); Some(Setting.NextHopSelf(x))
    case Passive => var x :- ParseBool(v); Some(Setting.Passive(x))
    case RrClient => var x :- ParseBool(v); Some(Setting.RrClient(x))
    case RsClient => var x :- ParseBool(v); Some(Setting.RsClient(x))
    case GracefulShutdown => var x :- ParseBool(v); Some(Setting.GracefulShutdown(x))
    case DelayOpenTimeSecs => var x :- ParseU64(v); Some(Setting.DelayOpenTimeSecs(x))
    case IdleHoldTimeSecs => var x :- ParseU64(v); Some(Setting.IdleHoldTimeSecs(x))
    case DampPeerOscillations => var x :- ParseBool(v); Some(Setting.DampPeerOscillations(x))
    case AllowAutomaticStop => var x :- ParseBool(v); Some(Setting.AllowAutomaticStop(x))
    case SendNotificationWithoutOpen => var x :- ParseBool(v); Some(Setting.SendNotificationWithoutOpen(x))
    case MinRouteAdvertisementIntervalSecs =>
      var x :- ParseU64(v); Some(Setting.MinRouteAdvertisementIntervalSecs(x))
    case EnforceFirstAs => var x :- ParseBool(v); Some(Setting.EnforceFirstAs(x))
    case SendRpkiCommunity => var x :- ParseBool(v); Some(Setting.SendRpkiCommunity(x))
    case AdminDown => var x :- ParseBool(v); Some(Setting.AdminDown(x))
  }

  // `Setting::parse`: any key is accepted in any scope, `originate` in none.
  function ParseSetting(key: string, value: Option<string>): Option<Setting> {
    match KeywordOf(key)
    case Some(TopKw(k)) => var v :- value; TopSetting(k, v)
    case Some(PeerKw(k)) => var v :- value; PeerSetting(k, v)
    case _ => None
  }

  function SettingStatement(key: string, ts: Tokens): (r: Parsed<Setting>)
    ensures r.Done? ==> Within(ts, r.rest)
  {
    var value := if ts.Word? then Some(ts.word) else None;
    var (_, rest) :- Finish((), if ts.Word? then ts.rest else ts);
    match ParseSetting(key, value)
    case None => Fail
    case Some(s) => Done(s, rest)
  }

  function OriginateStatement(ts: Tokens): (r: Parsed<OriginateRoute>)
    ensures r.Done? ==> Within(ts, r.rest)
  {
    var (prefix, ts) :- ExpectWord(ts);
    var (kw, ts) :- ExpectWord(ts);
    if KeywordOf(kw) != Some(LeafKw(Nexthop)) then Fail
    else
      var (nexthop, ts) :- ExpectWord(ts);
      Finish(OriginateRoute(prefix, nexthop), ts)
  }

  // A scalar `KEY VALUE` line.
  function Scalar<T>(ts: Tokens, parse: string -> Option<T>): (r: Parsed<T>)
    ensures r.Done? ==> Within(ts, r.rest)
  {
    var (v, ts) :- ExpectWord(ts);
    match parse(v)
    case None => Fail
    case Some(x) => Finish(x, ts)
  }

  function AnyWord(s: string): Option<string> { Some(s) }

  // ----- peers -----

  function DirectiveStatement(key: string, ts: Tokens): (r: Parsed<FamilyDirective>)
    ensures r.Done? ==> Within(ts, r.rest)
  {
    match KeywordOf(key)
    case Some(FamilyKw(Export)) => var (n, r) :- PolicyReference(ts); Finish(ExportPolicy(n), r)
    case Some(FamilyKw(Import)) => var (n, r) :- PolicyReference(ts); Finish(ImportPolicy(n), r)
    case Some(FamilyKw(MaxPrefix)) => MaxPrefixStatement(ts)
    case Some(FamilyKw(AddPathSend)) =>
      var (v, r) :- ExpectWord(ts);
      (match KeywordOf(v)
       case Some(FamilyKw(All)) => Finish(AddPath(AddPathSend.All), r)
       case Some(FamilyKw(Disabled)) => Finish(AddPath(AddPathSend.Disabled), r)
       case _ => Fail)
    case _ => Fail
  }

  function PolicyReference(ts: Tokens): (r: Parsed<string>)
    ensures r.Done? ==> Within(ts, r.rest)
  {
    var (sub, ts) :- ExpectWord(ts);
    if KeywordOf(sub) != Some(BlockKw(BlockKey.Policy)) then Fail else ExpectWord(ts)
  }

  function MaxPrefixStatement(ts: Tokens): (r: Parsed<FamilyDirective>)
    ensures r.Done? ==> Within(ts, r.rest)
  {
    var (v, ts) :- ExpectWord(ts);
    match ParseU32(v)
    case None => Fail
    case Some(limit) =>
      if ts.Word? && KeywordOf(ts.word) == Some(FamilyKw(FamilyWord.Action)) then
        var (a, r) :- ExpectWord(ts.rest);
        match KeywordOf(a)
        case Some(FamilyKw(Terminate)) => Finish(FamilyDirective.MaxPrefix(limit, MaxPrefixAction.Terminate), r)
        case Some(FamilyKw(Discard)) => Finish(FamilyDirective.MaxPrefix(limit, MaxPrefixAction.Discard), r)
        case _ => Fail
      else
        Finish(FamilyDirective.MaxPrefix(limit, MaxPrefixAction.Terminate), ts)
  }

  function FamilyStatement(key: string, ts: Tokens, f: FamilyBlock): (r: Parsed<FamilyBlock>)
    ensures r.Done? ==> Within(ts, r.rest)
  {
    var (d, rest) :- DirectiveStatement(key, ts);
    Done(f.(directives := f.directives + [d]), rest)
  }

  function PeerStatement(key: string, ts: Tokens, p: PeerBlock): (r: Parsed<PeerBlock>)
    ensures r.Done? ==> Within(ts, r.rest)
  {
    if KeywordOf(key) == Some(BlockKw(Family)) then
      var (a, ts) :- ExpectWord(ts);
      var (s, ts) :- ExpectWord(ts);
      if ParseAfi(a).None? || ParseSafi(s).None? then Fail
      else
        var (f, rest) :- Nested(FamilyStatement, ts, FamilyBlock(ParseAfi(a).value, ParseSafi(s).value, []));
        Done(p.(families := p.families + [f]), rest)
    else
      var (s, rest) :- SettingStatement(key, ts);
      Done(p.(settings := p.settings + [s]), rest)
  }

  // ----- policies -----

  function ParseMatchSetRef(ts: Tokens): (r: Parsed<MatchSetRef>)
    ensures r.Done? ==> Within(ts, r.rest)
  {
    var (name, ts) :- ExpectWord(ts);
    if !ts.Word? then Done(MatchSetRef(name, MatchAny), ts)
    else match KeywordOf(ts.word)
      case Some(FamilyKw(All)) => Done(MatchSetRef(name, MatchAll), ts.rest)
      case Some(PolicyKw(Invert)) => Done(MatchSetRef(name, MatchInvert), ts.rest)
      case Some(PolicyKw(Any)) => Done(MatchSetRef(name, MatchAny), ts.rest)
      case _ => Done(MatchSetRef(name, MatchAny), ts)
  }

  function MatchSetStatement(ts: Tokens, make: MatchSetRef -> MatchClause): (r: Parsed<MatchClause>)
    ensures r.Done? ==> Within(ts, r.rest)
  {
    var (ref, ts) :- ParseMatchSetRef(ts);
    Finish(make(ref), ts)
  }

  function Mapped<S, T>(p: Parsed<S>, f: S -> T): Parsed<T> {
    if p.Done? then Done(f(p.value), p.rest) else Fail
  }

  function MatchStatement(ts: Tokens): (r: Parsed<MatchClause>)
    ensures r.Done? ==> Within(ts, r.rest)
  {
    var (kind, ts) :- ExpectWord(ts);
    match KeywordOf(kind)
    case Some(MatchKw(PrefixSet)) => MatchSetStatement(ts, r => MatchClause.PrefixSet(r))
    case Some(SetBlockKw(NeighborSet)) => MatchSetStatement(ts, r => MatchClause.NeighborSet(r))
    case Some(SetBlockKw(AsPathSet)) => MatchSetStatement(ts, r => MatchClause.AsPathSet(r))
    case Some(SetBlockKw(CommunitySet)) => MatchSetStatement(ts, r => MatchClause.CommunitySet(r))
    case Some(SetBlockKw(ExtCommunitySet)) => MatchSetStatement(ts, r => MatchClause.ExtCommunitySet(r))
    case Some(SetBlockKw(LargeCommunitySet)) => MatchSetStatement(ts, r => MatchClause.LargeCommunitySet(r))
    case Some(MatchKw(Prefix)) => Mapped(Scalar(ts, AnyWord), v => MatchClause.Prefix(v))
    case Some(MatchKw(Neighbor)) => Mapped(Scalar(ts, AnyWord), v => MatchClause.Neighbor(v))
    case Some(MatchKw(HasAsn)) => Mapped(Scalar(ts, ParseU32), v => MatchClause.HasAsn(v))
    case Some(MatchKw(RouteType)) => Mapped(Scalar(ts, AnyWord), v => MatchClause.RouteType(v))
    case Some(MatchKw(Community)) => Mapped(Scalar(ts, AnyWord), v => MatchClause.Community(v))
    case Some(MatchKw(Rpki)) => Mapped(Scalar(ts, ParseRpkiState), v => MatchClause.Rpki(v))
    case Some(MatchKw(AfiSafi)) => Mapped(Scalar(ts, AnyWord), v => MatchClause.AfiSafi(v))
    case Some(MatchKw(LsNlriType)) => Mapped(Scalar(ts, AnyWord), v => MatchClause.LsNlriType(v))
    case Some(MatchKw(LsProtocolId)) => Mapped(Scalar(ts, AnyWord), v => MatchClause.LsProtocolId(v))
    case Some(MatchKw(LsInstanceId)) => Mapped(Scalar(ts, ParseU64), v => MatchClause.LsInstanceId(v))
    case Some(MatchKw(LsNodeAs)) => Mapped(Scalar(ts, ParseU32), v => MatchClause.LsNodeAs(v))
    case Some(MatchKw(LsNodeRouterId)) => Mapped(Scalar(ts, AnyWord), v => MatchClause.LsNodeRouterId(v))
    case _ => Fail
  }

  function TakeWords(ts: Tokens): (r: (seq<string>, Tokens))
    ensures Within(ts, r.1)
  {
    if ts.Word? then
      var (ws, rest) := TakeWords(ts.rest);
      ([ts.word] + ws, rest)
    else ([], ts)
  }

  function CommunityStatement(ts: Tokens, make: CommunityOp -> SetClause): (r: Parsed<SetClause>)
    ensures r.Done? ==> Within(ts, r.rest)
  {
    var (w, ts) :- ExpectWord(ts);
    var (ws, rest) := TakeWords(ts);
    match KeywordOf(w)
    case Some(PolicyKw(Add)) => Finish(make(CommunityOp(CommunityOpKind.Add, ws)), rest)
    case Some(PolicyKw(Remove)) => Finish(make(CommunityOp(CommunityOpKind.Remove, ws)), rest)
    case Some(PolicyKw(Replace)) => Finish(make(CommunityOp(CommunityOpKind.Replace, ws)), rest)
    case _ => Fail
  }

  function LocalPrefStatement(ts: Tokens): (r: Parsed<SetClause>)
    ensures r.Done? ==> Within(ts, r.rest)
  {
    var (next, rest) :- ExpectWord(ts);
    if KeywordOf(next) == Some(PolicyKw(Force)) then
      Mapped(Scalar(rest, ParseU32), v => SetClause.LocalPref(v, true))
    else
      Mapped(Scalar(ts, ParseU32), v => SetClause.LocalPref(v, false))
  }

  function ParseMed(s: string): Option<MedSet> {
    if KeywordOf(s) == Some(PolicyKw(PolicyWord.Remove)) then Some(MedRemove)
    else var v :- ParseU32(s); Some(MedSet(v))
  }

  function SetStatement(ts: Tokens): (r: Parsed<SetClause>)
    ensures r.Done? ==> Within(ts, r.rest)
  {
    var (kind, ts) :- ExpectWord(ts);
    match KeywordOf(kind)
    case Some(SetKw(LocalPref)) => LocalPrefStatement(ts)
    case Some(SetKw(Med)) => Mapped(Scalar(ts, ParseMed), v => SetClause.Med(v))
    case Some(MatchKw(Community)) => CommunityStatement(ts, op => SetCommunity(op))
    case Some(SetKw(ExtCommunity)) => CommunityStatement(ts, op => SetExtCommunity(op))
    case Some(SetKw(LargeCommunity)) => CommunityStatement(ts, op => SetLargeCommunity(op))
    case Some(SetKw(RpkiState)) => Mapped(Scalar(ts, ParseRpkiState), v => SetRpkiState(v))
    case _ => Fail
  }

  function DispositionStatement(d: Disposition, ts: Tokens, s: StatementBlock): (r: Parsed<StatementBlock>)
    ensures r.Done? ==> Within(ts, r.rest)
  {
    if s.disposition.Some? then Fail else Finish(s.(disposition := Some(d)), ts)
  }

  function StatementStatement(key: string, ts: Tokens, s: StatementBlock): (r: Parsed<StatementBlock>)
    ensures r.Done? ==> Within(ts, r.rest)
  {
    match KeywordOf(key)
    case Some(PolicyKw(Match)) =>
      var (m, rest) :- MatchStatement(ts);
      Done(s.(matches := s.matches + [m]), rest)
    case Some(PolicyKw(Set)) =>
      var (c, rest) :- SetStatement(ts);
      Done(s.(sets := s.sets + [c]), rest)
    case Some(PolicyKw(Accept)) => DispositionStatement(Disposition.Accept, ts, s)
    case Some(PolicyKw(Reject)) => DispositionStatement(Disposition.Reject, ts, s)
    case _ => Fail
  }

  function ParseRule(key: string, ts: Tokens): (r: Parsed<PolicyRule>)
    ensures r.Done? ==> Within(ts, r.rest)
  {
    match KeywordOf(key)
    case Some(PolicyKw(Match)) =>
      var (name, r) :- ExpectWord(ts);
      var (action, r) :- ExpectWord(r);
      Finish(MatchRule(name, action), r)
    case Some(PolicyKw(Default)) =>
      var (action, r) :- ExpectWord(ts);
      Finish(DefaultRule(action), r)
    case Some(BlockKw(Statement)) =>
      var name := if ts.Word? then Some(ts.word) else None;
      var rest := if ts.Word? then ts.rest else ts;
      Mapped(Nested(StatementStatement, rest, StatementBlock(name, [], [], None)), s => StatementRule(s))
    case _ => Fail
  }

  function PolicyStatement(key: string, ts: Tokens, p: PolicyBlock): (r: Parsed<PolicyBlock>)
    ensures r.Done? ==> Within(ts, r.rest)
  {
    var (rule, rest) :- ParseRule(key, ts);
    Done(p.(rules := p.rules + [rule]), rest)
  }

  // ----- defined sets -----

  // The `exact | ge N | le M` tail of a prefix-list entry, in any order, none repeated.
  function MasklengthTail(ts: Tokens, exact: bool, ge: Option<u8>, le: Option<u8>)
      : (r: Parsed<Option<MasklengthRange>>)
    ensures r.Done? ==> Within(ts, r.rest)
    decreases Length(ts)
  {
    var found :=
      if exact then Some(MasklengthRange.Exact) else if ge.Some? || le.Some? then Some(Range(ge, le)) else None;
    if !ts.Word? then Done(found, ts)
    else match KeywordOf(ts.word)
      case Some(LeafKw(Exact)) =>
        if exact || ge.Some? || le.Some? then Fail else MasklengthTail(ts.rest, true, ge, le)
      case Some(LeafKw(Ge)) =>
        if exact then Fail
        else
          var (v, rest) :- ExpectWord(ts.rest);
          if ParseU8(v).None? || ge.Some? then Fail else MasklengthTail(rest, exact, ParseU8(v), le)
      case Some(LeafKw(Le)) =>
        if exact then Fail
        else
          var (v, rest) :- ExpectWord(ts.rest);
          if ParseU8(v).None? || le.Some? then Fail else MasklengthTail(rest, exact, ge, ParseU8(v))
      case _ => Done(found, ts)
  }

  function PrefixListStatement(prefix: string, ts: Tokens, p: PrefixListBlock): (r: Parsed<PrefixListBlock>)
    ensures r.Done? ==> Within(ts, r.rest)
  {
    var (range, rest) :- MasklengthTail(ts, false, None, None);
    Finish(p.(prefixes := p.prefixes + [PrefixListEntry(prefix, range)]), rest)
  }

  function WordListStatement(entry: string, ts: Tokens, b: WordListBlock): (r: Parsed<WordListBlock>)
    ensures r.Done? ==> Within(ts, r.rest)
  {
    Finish(b.(entries := b.entries + [entry]), ts)
  }

  // ----- small blocks -----

  function BmpStatement(key: string, ts: Tokens, b: BmpServerBlock): (r: Parsed<BmpServerBlock>)
    ensures r.Done? ==> Within(ts, r.rest)
  {
    if KeywordOf(key) != Some(LeafKw(StatisticsTimeout)) then Fail
    else Mapped(Scalar(ts, ParseU64), v => b.(statisticsTimeout := Some(v)))
  }

  function BgpLsStatement(key: string, ts: Tokens, id: u64): (r: Parsed<u64>)
    ensures r.Done? ==> Within(ts, r.rest)
  {
    if KeywordOf(key) != Some(LeafKw(InstanceId)) then Fail else Scalar(ts, ParseU64)
  }

  function RpkiStatement(key: string, ts: Tokens, b: RpkiCacheBlock): (r: Parsed<RpkiCacheBlock>)
    ensures r.Done? ==> Within(ts, r.rest)
  {
    match KeywordOf(key)
    case Some(RpkiKw(Preference)) => Mapped(Scalar(ts, ParseU8), v => b.(preference := Some(v)))
    case Some(RpkiKw(Transport)) => Mapped(Scalar(ts, ParseTransport), v => b.(transport := Some(v)))
    case Some(RpkiKw(SshUsername)) => Mapped(Scalar(ts, AnyWord), v => b.(sshUsername := Some(v)))
    case Some(RpkiKw(SshPrivateKeyFile)) => Mapped(Scalar(ts, AnyWord), v => b.(sshPrivateKeyFile := Some(v)))
    case Some(RpkiKw(SshKnownHostsFile)) => Mapped(Scalar(ts, AnyWord), v => b.(sshKnownHostsFile := Some(v)))
    case Some(RpkiKw(RetryInterval)) => Mapped(Scalar(ts, ParseU64), v => b.(retryInterval := Some(v)))
    case Some(RpkiKw(RefreshInterval)) => Mapped(Scalar(ts, ParseU64), v => b.(refreshInterval := Some(v)))
    case Some(RpkiKw(ExpireInterval)) => Mapped(Scalar(ts, ParseU64), v => b.(expireInterval := Some(v)))
    case _ => Fail
  }

  function NothingStatement(key: string, ts: Tokens, u: ()): Parsed<()> { Fail }

  function EmfStatement(key: string, ts: Tokens, ns: Option<string>): (r: Parsed<Option<string>>)
    ensures r.Done? ==> Within(ts, r.rest)
  {
    if KeywordOf(key) != Some(LeafKw(Namespace)) then Fail else Mapped(Scalar(ts, AnyWord), v => Some(v))
  }

  function PrometheusStatement(key: string, ts: Tokens, p: PrometheusBlock): (r: Parsed<PrometheusBlock>)
    ensures r.Done? ==> Within(ts, r.rest)
  {
    if KeywordOf(key) != Some(LeafKw(Listen)) then Fail
    else Mapped(Scalar(ts, AnyWord), v => PrometheusBlock(Some(v)))
  }

  function TelemetryStatement(key: string, ts: Tokens, t: TelemetryBlock): (r: Parsed<TelemetryBlock>)
    ensures r.Done? ==> Within(ts, r.rest)
  {
    match KeywordOf(key)
    case Some(LeafKw(Json)) =>
      if t.json then Fail
      else Mapped(Nested(NothingStatement, ts, ()), _ => t.(json := true))
    case Some(LeafKw(CloudwatchEmf)) =>
      if t.cloudwatchEmf.Some? then Fail
      else
        var (ns, rest) :- Nested(EmfStatement, ts, None);
        if ns.None? then Fail else Done(t.(cloudwatchEmf := ns), rest)
    case Some(LeafKw(Prometheus)) =>
      if t.prometheus.Some? then Fail
      else Mapped(Nested(PrometheusStatement, ts, PrometheusBlock(None)), p => t.(prometheus := Some(p)))
    case _ => Fail
  }

  // ----- the service body -----

  function NamedBlock<B(!new)>(item: (string, Tokens, B) -> Parsed<B>, ts: Tokens, make: string -> B): (r: Parsed<B>)
    requires Stays(item)
    ensures r.Done? ==> Within(ts, r.rest)
  {
    var (name, rest) :- ExpectWord(ts);
    Nested(item, rest, make(name))
  }

  function AddWordList(kind: SetBlockKey, w: WordListBlock, b: Body): Body
    requires !kind.PrefixList?
  {
    match kind
    case NeighborSet => b.(neighborSets := b.neighborSets + [w])
    case AsPathSet => b.(asPathSets := b.asPathSets + [w])
    case CommunitySet => b.(communitySets := b.communitySets + [w])
    case ExtCommunitySet => b.(extCommunitySets := b.extCommunitySets + [w])
    case LargeCommunitySet => b.(largeCommunitySets := b.largeCommunitySets + [w])
  }

  function BlockStatement(k: BlockKey, ts: Tokens, b: Body): (r: Parsed<Body>)
    ensures r.Done? ==> Within(ts, r.rest)
  {
    match k
    case Peer =>
      Mapped(NamedBlock(PeerStatement, ts, n => PeerBlock(n, [], [])), p => b.(peers := b.peers + [p]))
    case Policy =>
      Mapped(NamedBlock(PolicyStatement, ts, n => PolicyBlock(n, [])), p => b.(policies := b.policies + [p]))
    case BmpServer =>
      Mapped(NamedBlock(BmpStatement, ts, n => BmpServerBlock(n, None)), p => b.(bmpServers := b.bmpServers + [p]))
    case RpkiCache =>
      Mapped(NamedBlock(RpkiStatement, ts, n => EmptyRpkiCache(n)), p => b.(rpkiCaches := b.rpkiCaches + [p]))
    case BgpLs =>
      if b.bgpLs.Some? then Fail
      else Mapped(Nested(BgpLsStatement, ts, 0), v => b.(bgpLs := Some(v)))
    case Telemetry =>
      if b.telemetry.Some? then Fail
      else
        var (t, rest) :- Nested(TelemetryStatement, ts, EMPTY_TELEMETRY);
        if t.json && t.cloudwatchEmf.Some? then Fail else Done(b.(telemetry := Some(t)), rest)
    case _ => Fail
  }

  function BodyStatement(key: string, ts: Tokens, b: Body): (r: Parsed<Body>)
    ensures r.Done? ==> Within(ts, r.rest)
  {
    match KeywordOf(key)
    case Some(BlockKw(k)) => BlockStatement(k, ts, b)
    case Some(SetBlockKw(PrefixList)) =>
      Mapped(NamedBlock(PrefixListStatement, ts, n => PrefixListBlock(n, [])),
             p => b.(prefixLists := b.prefixLists + [p]))
    case Some(SetBlockKw(kind)) =>
      var (w, rest) :- NamedBlock(WordListStatement, ts, n => WordListBlock(n, []));
      Done(AddWordList(kind, w, b), rest)
    case Some(LeafKw(Originate)) =>
      Mapped(OriginateStatement(ts), r => b.(settings := b.settings + [Setting.Originate(r)]))
    case _ =>
      var (s, rest) :- SettingStatement(key, ts);
      Done(b.(settings := b.settings + [s]), rest)
  }

  // ----- the root -----

  function ParseRoot(ts: Tokens, root: Root): (r: Result<Root>)
    ensures r.Ok? ==> Balanced(ts, 0)
    decreases Length(ts)
  {
    match ts
    case End => Ok(root)
    case Newline(rest) => ParseRoot(rest, root)
    case Open(_) => Err
    case Close(_) => Err
    case Word(kw, rest) =>
      if KeywordOf(kw) != Some(BlockKw(Service)) then Err
      else match ExpectWord(rest)
        case Fail => Err
        case Done(name, rest) =>
          match ExpectOpen(rest)
          case Fail => Err
          case Done(_, inner) =>
            if KeywordOf(name) != Some(BlockKw(Bgp)) then Err
            else match Block(BodyStatement, inner, EMPTY_BODY)
              case Fail => Err
              case Done(body, rest') =>
                AfterNested(inner, 0);
                BalancedOpen(rest);
                ParseRoot(rest', Root(root.services + [body]))
  }

  lemma BalancedOpen(ts: Tokens)
    ensures ExpectOpen(ts).Done? ==> Balanced(ts, 0) == Balanced(ExpectOpen(ts).rest, 1)
  {
  }

  // `language::parse`.
  function Parse(input: string): Result<Root> {
    ParseRoot(Tokenize(input), Root([]))
  }
}
