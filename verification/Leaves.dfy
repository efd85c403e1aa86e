// Leaf statements of the configuration language: the tokens of a printed line are read
// back as the value that was printed.
module Leaves {
  import P = Printer
  import opened Ast
  import opened Decimal
  import opened Keywords
  import opened Layout
  import opened Lexer
  import opened Parser
  import opened Wrappers

  // ----- what can be printed -----

  // Text values lose their double quotes when printed.
  predicate SettingShape(s: Setting) {
    match s
    case SysName(v) => '"' !in v
    case SysDescr(v) => '"' !in v
    case _ => true
  }

  // A masklength range without bounds prints as nothing.
  predicate EntryShape(e: PrefixListEntry) {
    e.range.Some? && e.range.value.Range? ==> e.range.value.ge.Some? || e.range.value.le.Some?
  }

  // ----- leaf statements -----

  // The first word of a printed setting selects the statement that reads the rest.
  ghost predicate ReadsSetting(s: Setting, k: Tokens) {
    var t := LineTokens(P.SettingLine(s), Newline(k));
    && t.Word?
    && SettingStatement(t.word, t.rest) == Done(s, k)
    && KeywordOf(t.word).Some?
    && (KeywordOf(t.word).value.TopKw? || KeywordOf(t.word).value.PeerKw?)
  }

  predicate KeyReads(key: Keyword, w: string, s: Setting) {
    match key
    case TopKw(k) => TopSetting(k, w) == Some(s)
    case PeerKw(k) => PeerSetting(k, w) == Some(s)
    case _ => false
  }

  lemma SettingWord(key: Keyword, w: string, s: Setting, rest: Tokens)
    requires KeyReads(key, w, s)
    ensures SettingStatement(Text(key), Word(w, Newline(rest))) == Done(s, rest)
    ensures KeywordOf(Text(key)) == Some(key) && (key.TopKw? || key.PeerKw?)
  {
    hide Text, KeywordOf, TopSetting, PeerSetting;
    KeywordOfText(key);
  }

  lemma ValueReads(s: Setting, key: Keyword, w: string, rest: Tokens)
    requires P.SettingLine(s) == Key(key, Bare(w, Stop)) || P.SettingLine(s) == Key(key, Quoted(w, Stop))
    requires KeyReads(key, w, s)
    ensures ReadsSetting(s, rest)
  {
    hide Text, KeywordOf, KeyReads, SettingStatement, P.SettingLine;
    SettingWord(key, w, s, rest);
    var more := P.SettingLine(s).more;
    assert LineTokens(more, Newline(rest)) == Word(w, Newline(rest));
  }

  lemma FlagReads(s: Setting, key: Keyword, b: bool, rest: Tokens)
    requires P.SettingLine(s) == Key(key, Key(P.BoolWord(b), Stop))
    requires ParseBool(Text(P.BoolWord(b))) == Some(b) ==> KeyReads(key, Text(P.BoolWord(b)), s)
    ensures ReadsSetting(s, rest)
  {
    hide Text, KeywordOf, KeyReads, SettingStatement, P.SettingLine;
    var w := P.BoolWord(b);
    KeywordOfText(w);
    SettingWord(key, Text(w), s, rest);
    var more := P.SettingLine(s).more;
    assert LineTokens(more, Newline(rest)) == Word(Text(w), Newline(rest));
  }

  lemma TopNumberReads(s: Setting, k: Tokens)
    requires
      || s.Asn? || s.HoldTime? || s.ConnectRetry?
      || s.EnhancedRrStaleTtl? || s.RouterId? || s.ClusterId?
    ensures ReadsSetting(s, k)
  {
    hide Text, KeywordOf, ParseUint, ParseIpv4, Digits, Ipv4Text, ReadsSetting, ParseBool;
    match s
    case Asn(v) => ParseDigits(v, U32_MAX); ValueReads(s, TopKw(TopKey.Asn), Digits(v), k);
    case HoldTime(v) => ParseDigits(v, U64_MAX); ValueReads(s, TopKw(TopKey.HoldTime), Digits(v), k);
    case ConnectRetry(v) => ParseDigits(v, U64_MAX); ValueReads(s, TopKw(TopKey.ConnectRetry), Digits(v), k);
    case EnhancedRrStaleTtl(v) => ParseDigits(v, U64_MAX);
      ValueReads(s, TopKw(TopKey.EnhancedRrStaleTtl), Digits(v), k);
    case RouterId(ip) => Ipv4RoundTrip(ip); ValueReads(s, TopKw(TopKey.RouterId), Ipv4Text(ip), k);
    case ClusterId(ip) => Ipv4RoundTrip(ip); ValueReads(s, TopKw(TopKey.ClusterId), Ipv4Text(ip), k);
  }

  lemma TopTextReads(s: Setting, k: Tokens)
    requires
      || s.ListenAddr? || s.GrpcListenAddr? || s.LogLevel?
      || s.SysName? || s.SysDescr?
    requires SettingShape(s)
    ensures ReadsSetting(s, k)
  {
    hide Text, KeywordOf, ParseUint, ParseIpv4, Digits, Ipv4Text, ReadsSetting, ParseBool;
    match s
    case ListenAddr(v) => ValueReads(s, TopKw(TopKey.ListenAddr), v, k);
    case GrpcListenAddr(v) => ValueReads(s, TopKw(TopKey.GrpcListenAddr), v, k);
    case LogLevel(v) => ValueReads(s, TopKw(TopKey.LogLevel), v, k);
    case SysName(v) => ValueReads(s, TopKw(TopKey.SysName), v, k);
    case SysDescr(v) => ValueReads(s, TopKw(TopKey.SysDescr), v, k);
  }

  lemma PeerValueReads(s: Setting, k: Tokens)
    requires
      || s.RemoteAs? || s.Port? || s.Interface?
      || s.Md5KeyFile? || s.TtlMin?
    ensures ReadsSetting(s, k)
  {
    hide Text, KeywordOf, ParseUint, ParseIpv4, Digits, Ipv4Text, ReadsSetting, ParseBool;
    match s
    case RemoteAs(v) => ParseDigits(v, U32_MAX); ValueReads(s, PeerKw(PeerKey.RemoteAs), Digits(v), k);
    case Port(v) => ParseDigits(v, U16_MAX); ValueReads(s, PeerKw(PeerKey.Port), Digits(v), k);
    case Interface(v) => ValueReads(s, PeerKw(PeerKey.Interface), v, k);
    case Md5KeyFile(v) => ValueReads(s, PeerKw(PeerKey.Md5KeyFile), v, k);
    case TtlMin(v) => ParseDigits(v, U8_MAX); ValueReads(s, PeerKw(PeerKey.TtlMin), Digits(v), k);
  }

  lemma PeerTimerReads(s: Setting, k: Tokens)
    requires
      || s.DelayOpenTimeSecs? || s.IdleHoldTimeSecs? || s.MinRouteAdvertisementIntervalSecs?
    ensures ReadsSetting(s, k)
  {
    hide Text, KeywordOf, ParseUint, ParseIpv4, Digits, Ipv4Text, ReadsSetting, ParseBool;
    match s
    case DelayOpenTimeSecs(v) => ParseDigits(v, U64_MAX);
      ValueReads(s, PeerKw(PeerKey.DelayOpenTimeSecs), Digits(v), k);
    case IdleHoldTimeSecs(v) => ParseDigits(v, U64_MAX); ValueReads(s, PeerKw(PeerKey.IdleHoldTimeSecs), Digits(v), k);
    case MinRouteAdvertisementIntervalSecs(v) => ParseDigits(v, U64_MAX);
      ValueReads(s, PeerKw(PeerKey.MinRouteAdvertisementIntervalSecs), Digits(v), k);
  }

  lemma PeerFlagReads(s: Setting, k: Tokens)
    requires
      || s.NextHopSelf? || s.Passive? || s.RrClient?
      || s.RsClient? || s.GracefulShutdown?
    ensures ReadsSetting(s, k)
  {
    hide Text, KeywordOf, ParseUint, ParseIpv4, Digits, Ipv4Text, ReadsSetting, ParseBool;
    match s
    case NextHopSelf(b) => FlagReads(s, PeerKw(PeerKey.NextHopSelf), b, k);
    case Passive(b) => FlagReads(s, PeerKw(PeerKey.Passive), b, k);
    case RrClient(b) => FlagReads(s, PeerKw(PeerKey.RrClient), b, k);
    case RsClient(b) => FlagReads(s, PeerKw(PeerKey.RsClient), b, k);
    case GracefulShutdown(b) => FlagReads(s, PeerKw(PeerKey.GracefulShutdown), b, k);
  }

  lemma PeerSessionReads(s: Setting, k: Tokens)
    requires s.DampPeerOscillations? || s.AllowAutomaticStop? || s.SendNotificationWithoutOpen?
    ensures ReadsSetting(s, k)
  {
    hide Text, KeywordOf, ParseUint, ParseIpv4, Digits, Ipv4Text, ReadsSetting, ParseBool;
    match s
    case DampPeerOscillations(b) => FlagReads(s, PeerKw(PeerKey.DampPeerOscillations), b, k);
    case AllowAutomaticStop(b) => FlagReads(s, PeerKw(PeerKey.AllowAutomaticStop), b, k);
    case SendNotificationWithoutOpen(b) => FlagReads(s, PeerKw(PeerKey.SendNotificationWithoutOpen), b, k);
  }

  lemma PeerPolicyReads(s: Setting, k: Tokens)
    requires s.EnforceFirstAs? || s.SendRpkiCommunity? || s.AdminDown?
    ensures ReadsSetting(s, k)
  {
    hide Text, KeywordOf, ParseUint, ParseIpv4, Digits, Ipv4Text, ReadsSetting, ParseBool;
    match s
    case EnforceFirstAs(b) => FlagReads(s, PeerKw(PeerKey.EnforceFirstAs), b, k);
    case SendRpkiCommunity(b) => FlagReads(s, PeerKw(PeerKey.SendRpkiCommunity), b, k);
    case AdminDown(b) => FlagReads(s, PeerKw(PeerKey.AdminDown), b, k);
  }

  lemma SettingReads(s: Setting, k: Tokens)
    requires SettingShape(s) && !s.Originate?
    ensures ReadsSetting(s, k)
  {
    hide ReadsSetting;
    match s
    case Asn(_) | HoldTime(_) | ConnectRetry(_) | EnhancedRrStaleTtl(_) | RouterId(_) | ClusterId(_) =>
      TopNumberReads(s, k);
    case ListenAddr(_) | GrpcListenAddr(_) | LogLevel(_) | SysName(_) | SysDescr(_) => TopTextReads(s, k);
    case RemoteAs(_) | Port(_) | Interface(_) | Md5KeyFile(_) | TtlMin(_) => PeerValueReads(s, k);
    case DelayOpenTimeSecs(_) | IdleHoldTimeSecs(_) | MinRouteAdvertisementIntervalSecs(_) => PeerTimerReads(s, k);
    case NextHopSelf(_) | Passive(_) | RrClient(_) | RsClient(_) | GracefulShutdown(_) => PeerFlagReads(s, k);
    case EnforceFirstAs(_) | SendRpkiCommunity(_) | AdminDown(_) => PeerPolicyReads(s, k);
    case _ => PeerSessionReads(s, k);
  }

  // A setting is read back from its tokens exactly when the text can say it: the values
  // of `sys-name` and `sys-descr` lose their quotes, and `originate` is no plain setting.
  lemma SettingReadsExactly(s: Setting, k: Tokens)
    ensures var t := LineTokens(P.SettingLine(s), Newline(k));
      t.Word? && (SettingStatement(t.word, t.rest) == Done(s, k) <==> SettingShape(s) && !s.Originate?)
  {
    hide Text, KeywordOf;
    if SettingShape(s) && !s.Originate? {
      SettingReads(s, k);
    } else {
      var l := P.SettingLine(s);
      KeywordOfText(l.key);
      if !s.Originate? {
        NamedTokens(l, l.key, P.Unquoted(s.text), Newline(k));
      }
    }
  }

  // ----- directives of a family block -----

  ghost predicate ReadsDirective(d: FamilyDirective, k: Tokens) {
    var t := LineTokens(P.DirectiveLine(d), Newline(k));
    t.Word? && DirectiveStatement(t.word, t.rest) == Done(d, k)
  }

  lemma NamedTokens(l: Line, key: Keyword, w: string, k: Tokens)
    requires l == Key(key, Bare(w, Stop)) || l == Key(key, Quoted(w, Stop))
    ensures LineTokens(l, k) == Word(Text(key), Word(w, k))
  {
    hide Text;
    assert LineTokens(l.more, k) == Word(w, k);
  }

  lemma ChoiceTokens(a: Keyword, b: Keyword, k: Tokens)
    ensures LineTokens(P.Choice(a, b), k) == Word(Text(a), Word(Text(b), k))
  {
    hide Text;
    assert LineTokens(Key(b, Stop), k) == Word(Text(b), k);
  }

  lemma DirectiveReads(d: FamilyDirective, k: Tokens)
    ensures ReadsDirective(d, k)
  {
    hide Text, KeywordOf, ParseUint, Digits;
    var end := Newline(k);
    KeywordOfText(BlockKw(BlockKey.Policy));
    match d
    case ExportPolicy(name) =>
      NamedTokens(P.Named(BlockKw(BlockKey.Policy), name), BlockKw(BlockKey.Policy), name, end);
      KeywordOfText(FamilyKw(Export));
    case ImportPolicy(name) =>
      NamedTokens(P.Named(BlockKw(BlockKey.Policy), name), BlockKw(BlockKey.Policy), name, end);
      KeywordOfText(FamilyKw(Import));
    case MaxPrefix(limit, action) =>
      KeywordOfText(FamilyKw(FamilyWord.MaxPrefix));
      KeywordOfText(FamilyKw(FamilyWord.Action));
      KeywordOfText(FamilyKw(FamilyWord.Discard));
      ParseDigits(limit, U32_MAX);
      NamedTokens(P.Number(FamilyKw(FamilyWord.MaxPrefix), limit), FamilyKw(FamilyWord.MaxPrefix), Digits(limit), end);
      var act := P.Choice(FamilyKw(FamilyWord.Action), FamilyKw(FamilyWord.Discard));
      ChoiceTokens(FamilyKw(FamilyWord.Action), FamilyKw(FamilyWord.Discard), end);
      assert LineTokens(Bare(Digits(limit), act), end) == Word(Digits(limit), LineTokens(act, end));
    case AddPath(mode) =>
      var w := if mode.All? then FamilyKw(FamilyWord.All) else FamilyKw(FamilyWord.Disabled);
      KeywordOfText(FamilyKw(FamilyWord.AddPathSend));
      KeywordOfText(w);
      ChoiceTokens(FamilyKw(FamilyWord.AddPathSend), w, end);
  }

  // ----- match clauses -----

  ghost predicate ReadsMatch(m: MatchClause, k: Tokens) {
    var t := LineTokens(P.MatchLine(m), Newline(k));
    t.Word? && t.word == Text(PolicyKw(PolicyWord.Match)) && MatchStatement(t.rest) == Done(m, k)
  }

  lemma SetRefReads(kind: Keyword, r: MatchSetRef, k: Tokens)
    ensures LineTokens(P.SetRefLine(kind, r), Newline(k)).Word?
    ensures var t := LineTokens(P.SetRefLine(kind, r), Newline(k));
      && t.word == Text(PolicyKw(PolicyWord.Match))
      && t.rest.Word? && t.rest.word == Text(kind)
      && ParseMatchSetRef(t.rest.rest) == Done(r, Newline(k))
  {
    hide Text, KeywordOf;
    KeywordOfText(FamilyKw(FamilyWord.All));
    KeywordOfText(PolicyKw(Invert));
    var o := P.OptionWord(r.option);
    assert LineTokens(o, Newline(k)) == if o.Stop? then Newline(k) else Word(Text(o.key), Newline(k));
    assert LineTokens(Bare(r.setName, o), Newline(k)) == Word(r.setName, LineTokens(o, Newline(k)));
    assert LineTokens(Key(kind, Bare(r.setName, o)), Newline(k)) ==
           Word(Text(kind), Word(r.setName, LineTokens(o, Newline(k))));
  }

  lemma MatchWordReads(kind: Keyword, w: string, l: Line, k: Tokens)
    requires l == Key(kind, Bare(w, Stop))
    ensures LineTokens(Key(PolicyKw(PolicyWord.Match), l), Newline(k)) ==
            Word(Text(PolicyKw(PolicyWord.Match)), Word(Text(kind), Word(w, Newline(k))))
  {
    hide Text;
    NamedTokens(l, kind, w, Newline(k));
  }

  lemma MatchSetReads(m: MatchClause, k: Tokens)
    requires m.PrefixSet? || m.NeighborSet? || m.AsPathSet? || m.CommunitySet? || m.ExtCommunitySet?
      || m.LargeCommunitySet?
    ensures ReadsMatch(m, k)
  {
    hide Text, KeywordOf, ParseMatchSetRef, P.SetRefLine, LineTokens;
    var kind := match m
      case PrefixSet(_) => MatchKw(MatchWord.PrefixSet)
      case NeighborSet(_) => SetBlockKw(SetBlockKey.NeighborSet)
      case AsPathSet(_) => SetBlockKw(SetBlockKey.AsPathSet)
      case CommunitySet(_) => SetBlockKw(SetBlockKey.CommunitySet)
      case ExtCommunitySet(_) => SetBlockKw(SetBlockKey.ExtCommunitySet)
      case LargeCommunitySet(_) => SetBlockKw(SetBlockKey.LargeCommunitySet);
    SetRefReads(kind, m.ref, k);
    KeywordOfText(kind);
  }

  function MatchTextKind(m: MatchClause): Option<MatchWord> {
    match m
    case Prefix(_) => Some(MatchWord.Prefix)
    case Neighbor(_) => Some(MatchWord.Neighbor)
    case RouteType(_) => Some(MatchWord.RouteType)
    case Community(_) => Some(MatchWord.Community)
    case AfiSafi(_) => Some(MatchWord.AfiSafi)
    case LsNlriType(_) => Some(MatchWord.LsNlriType)
    case LsProtocolId(_) => Some(MatchWord.LsProtocolId)
    case LsNodeRouterId(_) => Some(MatchWord.LsNodeRouterId)
    case _ => None
  }

  lemma MatchTextReads(m: MatchClause, k: Tokens)
    requires MatchTextKind(m).Some?
    ensures ReadsMatch(m, k)
  {
    hide Text, KeywordOf, LineTokens;
    var kind := MatchKw(MatchTextKind(m).value);
    KeywordOfText(kind);
    MatchWordReads(kind, m.text, P.Named(kind, m.text), k);
  }

  lemma MatchValueReads(m: MatchClause, k: Tokens)
    requires m.HasAsn? || m.LsInstanceId? || m.LsNodeAs? || m.Rpki?
    ensures ReadsMatch(m, k)
  {
    hide Text, KeywordOf, LineTokens, ParseUint, Digits;
    match m
    case HasAsn(v) =>
      KeywordOfText(MatchKw(MatchWord.HasAsn));
      ParseDigits(v, U32_MAX);
      MatchWordReads(MatchKw(MatchWord.HasAsn), Digits(v), P.Number(MatchKw(MatchWord.HasAsn), v), k);
    case LsNodeAs(v) =>
      KeywordOfText(MatchKw(MatchWord.LsNodeAs));
      ParseDigits(v, U32_MAX);
      MatchWordReads(MatchKw(MatchWord.LsNodeAs), Digits(v), P.Number(MatchKw(MatchWord.LsNodeAs), v), k);
    case LsInstanceId(v) =>
      KeywordOfText(MatchKw(MatchWord.LsInstanceId));
      ParseDigits(v, U64_MAX);
      MatchWordReads(MatchKw(MatchWord.LsInstanceId), Digits(v), P.Number(MatchKw(MatchWord.LsInstanceId), v), k);
    case Rpki(v) => MatchRpkiReads(v, k);
  }

  lemma MatchRpkiReads(v: RpkiValidation, k: Tokens)
    ensures ReadsMatch(MatchClause.Rpki(v), k)
  {
    hide Text, KeywordOf, MatchSetStatement;
    KeywordOfText(MatchKw(MatchWord.Rpki));
    KeywordOfText(P.RpkiWord(v));
    ChoiceTokens(MatchKw(MatchWord.Rpki), P.RpkiWord(v), Newline(k));
  }

  lemma MatchReads(m: MatchClause, k: Tokens)
    ensures ReadsMatch(m, k)
  {
    hide ReadsMatch;
    if MatchTextKind(m).Some? {
      MatchTextReads(m, k);
    } else if m.HasAsn? || m.LsInstanceId? || m.LsNodeAs? || m.Rpki? {
      MatchValueReads(m, k);
    } else {
      MatchSetReads(m, k);
    }
  }

  // ----- set clauses -----

  ghost predicate ReadsSet(c: SetClause, k: Tokens) {
    var t := LineTokens(P.SetLine(c), Newline(k));
    t.Word? && t.word == Text(PolicyKw(PolicyWord.Set)) && SetStatement(t.rest) == Done(c, k)
  }

  // No number is spelled like a keyword that may stand in its place.
  lemma DigitsAreNoKeyword(n: nat, key: Keyword)
    requires key == PolicyKw(Force) || key == PolicyKw(PolicyWord.Remove)
    ensures KeywordOf(Digits(n)) != Some(key)
  {
    hide Digits;
    assert Digits(n)[0] in Digits(n) && !IsDigit(Text(key)[0]);
  }

  lemma {:induction false} TakeWordsReads(ws: seq<string>, k: Tokens)
    ensures TakeWords(LineTokens(P.Words(ws), Newline(k))) == (ws, Newline(k))
  {
    if ws != [] {
      TakeWordsReads(ws[1..], k);
      assert [ws[0]] + ws[1..] == ws;
    }
  }

  lemma CommunityReads(c: SetClause, kind: Keyword, op: CommunityOp, k: Tokens)
    requires (c == SetCommunity(op) && kind == MatchKw(MatchWord.Community))
      || (c == SetExtCommunity(op) && kind == SetKw(SetWord.ExtCommunity))
      || (c == SetLargeCommunity(op) && kind == SetKw(SetWord.LargeCommunity))
    ensures ReadsSet(c, k)
  {
    hide Text, KeywordOf, P.Words, TakeWords, P.OpWord, CommunityStatement;
    KeywordOfText(kind);
    var tail := Key(P.OpWord(op.op), P.Words(op.values));
    assert LineTokens(tail, Newline(k)) == Word(Text(P.OpWord(op.op)), LineTokens(P.Words(op.values), Newline(k)));
    assert LineTokens(Key(kind, tail), Newline(k)) == Word(Text(kind), LineTokens(tail, Newline(k)));
    OpReads(op, k, o => SetCommunity(o));
    OpReads(op, k, o => SetExtCommunity(o));
    OpReads(op, k, o => SetLargeCommunity(o));
  }

  lemma OpReads(op: CommunityOp, k: Tokens, make: CommunityOp -> SetClause)
    ensures CommunityStatement(Word(Text(P.OpWord(op.op)), LineTokens(P.Words(op.values), Newline(k))), make) ==
            Done(make(op), k)
  {
    hide Text, KeywordOf, P.Words, TakeWords;
    KeywordOfText(P.OpWord(op.op));
    TakeWordsReads(op.values, k);
  }

  lemma LocalPrefReads(v: u32, force: bool, k: Tokens)
    ensures ReadsSet(SetClause.LocalPref(v, force), k)
  {
    hide Text, KeywordOf, ParseUint, Digits;
    KeywordOfText(SetKw(SetWord.LocalPref));
    KeywordOfText(PolicyKw(Force));
    ParseDigits(v, U32_MAX);
    DigitsAreNoKeyword(v, PolicyKw(Force));
    var kind := SetKw(SetWord.LocalPref);
    NamedTokens(P.Number(kind, v), kind, Digits(v), Newline(k));
    NamedTokens(P.Number(PolicyKw(Force), v), PolicyKw(Force), Digits(v), Newline(k));
    var tail := Key(kind, P.Number(PolicyKw(Force), v));
    assert LineTokens(tail, Newline(k)) == Word(Text(kind), LineTokens(tail.more, Newline(k)));
  }

  lemma MedReads(m: MedSet, k: Tokens)
    ensures ReadsSet(SetClause.Med(m), k)
  {
    hide Text, KeywordOf, ParseUint, Digits;
    var kind := SetKw(SetWord.Med);
    KeywordOfText(kind);
    KeywordOfText(PolicyKw(PolicyWord.Remove));
    match m
    case MedSet(v) =>
      ParseDigits(v, U32_MAX);
      DigitsAreNoKeyword(v, PolicyKw(PolicyWord.Remove));
      NamedTokens(P.Number(kind, v), kind, Digits(v), Newline(k));
    case MedRemove => ChoiceTokens(kind, PolicyKw(PolicyWord.Remove), Newline(k));
  }

  lemma SetReads(c: SetClause, k: Tokens)
    ensures ReadsSet(c, k)
  {
    hide ReadsSet;
    match c
    case LocalPref(v, force) => hide *; LocalPrefReads(v, force, k);
    case Med(m) => hide *; MedReads(m, k);
    case SetCommunity(op) => hide *; CommunityReads(c, MatchKw(MatchWord.Community), op, k);
    case SetExtCommunity(op) => hide *; CommunityReads(c, SetKw(SetWord.ExtCommunity), op, k);
    case SetLargeCommunity(op) => hide *; CommunityReads(c, SetKw(SetWord.LargeCommunity), op, k);
    case SetRpkiState(v) => hide *; RpkiStateReads(v, k);
  }

  lemma RpkiStateReads(v: RpkiValidation, k: Tokens)
    ensures ReadsSet(SetRpkiState(v), k)
  {
    hide Text, KeywordOf, P.RpkiWord, ParseRpkiState;
    var w := P.RpkiWord(v);
    KeywordOfText(SetKw(SetWord.RpkiState));
    StateRead(v);
    ChoiceTokens(SetKw(SetWord.RpkiState), w, Newline(k));
  }

  lemma StateRead(v: RpkiValidation)
    ensures ParseRpkiState(Text(P.RpkiWord(v))) == Some(v)
  {
    hide Text, KeywordOf;
    KeywordOfText(P.RpkiWord(v));
  }

  // ----- prefix-list entries -----

  lemma MasklengthReads(e: PrefixListEntry, k: Tokens)
    requires EntryShape(e)
    ensures LineTokens(P.EntryLine(e), Newline(k)).Word?
    ensures var t := LineTokens(P.EntryLine(e), Newline(k));
      t.word == e.prefix && MasklengthTail(t.rest, false, None, None) == Done(e.range, Newline(k))
  {
    hide Text, KeywordOf, ParseUint, Digits;
    KeywordOfText(LeafKw(LeafWord.Exact));
    KeywordOfText(LeafKw(Ge));
    KeywordOfText(LeafKw(Le));
    var end := Newline(k);
    match e.range
    case None =>
    case Some(Exact) =>
      assert LineTokens(Key(LeafKw(LeafWord.Exact), Stop), end) == Word(Text(LeafKw(LeafWord.Exact)), end);
    case Some(Range(ge, le)) =>
      if le.Some? {
        ParseDigits(le.value, U8_MAX);
        NamedTokens(P.Number(LeafKw(Le), le.value), LeafKw(Le), Digits(le.value), end);
      }
      var tail := if le.Some? then P.Number(LeafKw(Le), le.value) else Stop;
      assert MasklengthTail(LineTokens(tail, end), false, ge, None) == Done(e.range, end);
      if ge.Some? {
        ParseDigits(ge.value, U8_MAX);
        var l := Key(LeafKw(Ge), Bare(Digits(ge.value), tail));
        assert LineTokens(l.more, end) == Word(Digits(ge.value), LineTokens(tail, end));
        assert LineTokens(l, end) == Word(Text(LeafKw(Ge)), Word(Digits(ge.value), LineTokens(tail, end)));
      }
  }

  // An entry whose range has no bound is read back without a range.
  lemma MasklengthReadsExactly(e: PrefixListEntry, k: Tokens)
    ensures LineTokens(P.EntryLine(e), Newline(k)).Word?
    ensures var t := LineTokens(P.EntryLine(e), Newline(k));
      MasklengthTail(t.rest, false, None, None) == Done(e.range, Newline(k)) <==> EntryShape(e)
  {
    if EntryShape(e) {
      MasklengthReads(e, k);
    }
  }
}
