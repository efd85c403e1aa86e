// The text that `commit` sends parses back to the candidate (ggsh/src/cmd_configure.rs).
module EditCommit {
  import P = Printer
  import opened Ast
  import opened Decimal
  import opened Edits
  import opened Keyed
  import opened Keywords
  import opened Lexer
  import opened Parser
  import opened PlainForms
  import opened Wrappers

  // The words of the command are plain.
  predicate PlainEdit(e: Edit) {
    match e
    case SetTop(_, s) => s.Some? ==> PlainSetting(s.value)
    case SetOriginate(p, n) => PlainWord(p) && PlainWord(n)
    case SetPeer(_, a, s) => PlainWord(a) && (s.Some? ==> PlainSetting(s.value))
    case SetFamily(_, a, _, n) => PlainWord(a) && PlainWord(n)
    case SetMatch(n, s, a) => PlainWord(n) && PlainWord(s) && PlainWord(a)
    case SetDefault(n, a) => PlainWord(n) && PlainWord(a)
    case SetEntry(n, x) => PlainWord(n) && PlainWord(x)
    case SetBmp(a, _) => PlainWord(a)
    case SetRpki(_, a, f) => PlainWord(a) && (f.Some? ==> PlainField(f.value))
    case SetEmf(ns) => PlainWord(ns)
    case SetListen(a) => PlainWord(a)
    case _ => true
  }

  predicate PlainField(f: RpkiSetting) {
    f.CacheUsername? || f.CacheKeyFile? || f.CacheHostsFile? ==> PlainWord(f.text)
  }

  predicate PlainSettings(ss: seq<Setting>) { forall s | s in ss :: PlainSetting(s) }

  lemma TopKeeps(e: Edit, ss: seq<Setting>)
    requires TopEdit(e) && PlainEdit(e) && PlainSettings(ss)
    ensures PlainSettings(EditSettings(e, ss).0)
  {
    hide WellTyped, KeyOf, PlainWord;
  }

  lemma PeerKeyed(s: Setting, k: PeerKey)
    requires KeyOf(s) == PeerS(k)
    ensures !s.Originate?
  {
  }

  predicate PlainPeers(ps: seq<PeerBlock>) { forall p | p in ps :: PlainPeer(p) }

  lemma PeerAtPlain(ps: seq<PeerBlock>, a: string)
    requires PlainPeers(ps) && PlainWord(a)
    ensures PlainPeer(PeerAt(ps, a))
  {
    hide PlainWord;
    FindKey(ps, PeerOf, a);
  }

  lemma SetPeersKeep(e: Edit, ps: seq<PeerBlock>)
    requires (e.SetPeer? || e.SetFamily?) && !BadFamily(e) && PlainEdit(e) && PlainPeers(ps)
    ensures PlainPeers(EditPeers(e, ps).0)
  {
    hide KeyOf, PlainWord, PlainSetting, PlainDirective, Find, PeerAt;
    PeerAtPlain(ps, e.addr);
    var p := PeerAt(ps, e.addr);
    if e.SetPeer? {
      if e.setting.Some? {
        PeerKeyed(e.setting.value, e.peerKey);
      }
    } else {
      var f := FamilyAt(p.families, e.family.value);
      FindKey(p.families, FamilyOf, e.family.value);
      var d := PolicyLine(e.dir, e.name);
      assert PlainDirective(d) by { DirectionPlain(e.dir, e.name); }
      var f' := f.(directives := Without(f.directives, DirectiveOf, DirectionKey(e.dir)) + [d]);
      assert PlainFamily(f');
      assert PlainPeer(p.(families := Store(p.families, FamilyOf, f')));
    }
  }

  lemma DirectionPlain(d: PolicyDirection, name: string)
    requires PlainWord(name)
    ensures PlainDirective(PolicyLine(d, name))
  {
  }

  lemma UnsetPeersKeep(e: Edit, ps: seq<PeerBlock>)
    requires PeerEdit(e) && !e.SetPeer? && !e.SetFamily? && !BadFamily(e) && PlainPeers(ps)
    ensures PlainPeers(EditPeers(e, ps).0)
  {
    hide WellTyped, KeyOf, PlainWord, PlainSetting, PlainDirective, Find;
    FindKey(ps, PeerOf, e.addr);
    var p := Find(ps, PeerOf, e.addr);
    if e.UnsetDirective? && p.Some? {
      FindKey(p.value.families, FamilyOf, e.family.value);
      var f := Find(p.value.families, FamilyOf, e.family.value);
      if f.Some? {
        assert PlainFamily(f.value.(directives := Without(f.value.directives, DirectiveOf, DirectionKey(e.dir))));
      }
    }
  }

  lemma PoliciesKeep(e: Edit, ps: seq<PolicyBlock>)
    requires PolicyEdit(e) && PlainEdit(e) && forall p | p in ps :: PlainPolicy(p)
    ensures forall p | p in EditPolicies(e, ps).0 :: PlainPolicy(p)
  {
    hide WellTyped, PlainWord, PlainStatement, Find;
    FindKey(ps, PolicyOf, e.name);
  }

  lemma PrefixListsKeep(e: Edit, ps: seq<PrefixListBlock>)
    requires PrefixEdit(e) && PlainEdit(e) && forall p | p in ps :: PlainPrefixList(p)
    ensures forall p | p in EditPrefixLists(e, ps).0 :: PlainPrefixList(p)
  {
    hide WellTyped, PlainWord, Find;
    FindKey(ps, PrefixListOf, e.name);
  }

  lemma BmpKeeps(e: Edit, bs: seq<BmpServerBlock>)
    requires BmpEdit(e) && PlainEdit(e) && forall b | b in bs :: PlainBmp(b)
    ensures forall b | b in EditBmp(e, bs).0 :: PlainBmp(b)
  {
    hide WellTyped, PlainWord, Find;
    FindKey(bs, BmpOf, e.addr);
  }

  lemma FieldPlain(r: RpkiCacheBlock, f: RpkiSetting)
    requires PlainRpki(r) && PlainField(f)
    ensures PlainRpki(WithField(r, f))
  {
    hide PlainWord;
  }

  lemma RpkiKeeps(e: Edit, rs: seq<RpkiCacheBlock>)
    requires RpkiEdit(e) && PlainEdit(e) && forall r | r in rs :: PlainRpki(r)
    ensures forall r | r in EditRpki(e, rs).0 :: PlainRpki(r)
  {
    hide WellTyped, PlainWord, Find, WithField;
    FindKey(rs, RpkiOf, e.addr);
    if e.SetRpki? && e.field.Some? {
      FieldPlain(RpkiAt(rs, e.addr), e.field.value);
    }
  }

  lemma TelemetryKeeps(e: Edit, t: Option<TelemetryBlock>)
    requires TelemetryEdit(e) && PlainEdit(e) && (t.Some? ==> PlainTelemetry(t.value))
    ensures var r := EditTelemetry(e, t).0; r.Some? ==> PlainTelemetry(r.value)
  {
    hide WellTyped, PlainWord;
  }

  lemma BodyKeeps(e: Edit, b: Body)
    requires !BadFamily(e) && PlainEdit(e) && PlainBody(b)
    ensures PlainBody(EditBody(e, b).0)
  {
    hide WellTyped, BadFamily, PlainEdit, PlainSetting, PlainPeer, PlainPolicy, PlainPrefixList, PlainLists, PlainBmp,
      PlainRpki, PlainTelemetry, EditSettings, EditPeers, EditPolicies, EditPrefixLists, EditBmp, EditRpki,
        EditTelemetry,
      EditBgpLs;
    if TopEdit(e) { TopKeeps(e, b.settings); }
    if e.SetPeer? || e.SetFamily? { SetPeersKeep(e, b.peers); } else if PeerEdit(e) { UnsetPeersKeep(e, b.peers); }
    if PolicyEdit(e) { PoliciesKeep(e, b.policies); }
    if PrefixEdit(e) { PrefixListsKeep(e, b.prefixLists); }
    if BmpEdit(e) { BmpKeeps(e, b.bmpServers); }
    if RpkiEdit(e) { RpkiKeeps(e, b.rpkiCaches); }
    if TelemetryEdit(e) { TelemetryKeeps(e, b.telemetry); }
    ListsUntouched(e, b);
  }

  lemma ListsUntouched(e: Edit, b: Body)
    requires !BadFamily(e) && PlainLists(b)
    ensures PlainLists(EditBody(e, b).0)
  {
    hide WellTyped, BadFamily, PlainWordList, EditSettings, EditPeers, EditPolicies, EditPrefixLists, EditBmp, EditRpki,
      EditTelemetry, EditBgpLs;
  }

  lemma EmptyPlain()
    ensures PlainBody(EMPTY_BODY)
  {
  }

  lemma EditKeepsPlain(e: Edit, root: Root)
    requires PlainEdit(e) && PlainRoot(root)
    ensures PlainRoot(Apply(e, root).0)
  {
    hide WellTyped, BadFamily, PlainEdit, PlainBody, EditBody;
    if !BadFamily(e) && !e.UnsetBgpLsSetting? {
      EmptyPlain();
      BodyKeeps(e, if root.services == [] then EMPTY_BODY else root.services[0]);
    }
  }

  // After any run of commands with plain words from a plain start, the text of the
  // candidate parses back to the candidate.
  lemma {:induction false} CommitTextParses(es: seq<Edit>, root: Root)
    requires PlainRoot(root) && forall e | e in es :: PlainEdit(e)
    ensures PlainRoot(Run(es, root)) && Parse(P.RootText(Run(es, root))) == Ok(Run(es, root))
    decreases es
  {
    hide Apply, PlainRoot, PlainEdit, Parse, P.RootText;
    if es == [] {
      PlainRoundTrip(root);
    } else {
      EditKeepsPlain(es[0], root);
      CommitTextParses(es[1..], Apply(es[0], root).0);
    }
  }

  // ----- typed words -----

  // The commands as they are typed.
  function SetTopTyped(k: TopKey, v: string): (e: Edit)
    ensures PlainWord(v) ==> PlainEdit(e)
  {
    TypedTop(k, v);
    SetTop(k, ParseSetting(Text(TopKw(k)), Some(v)))
  }

  lemma TypedTop(k: TopKey, v: string)
    ensures var s := ParseSetting(Text(TopKw(k)), Some(v));
      s.Some? ==> KeyOf(s.value) == TopS(k) && (PlainWord(v) ==> PlainSetting(s.value))
  {
    hide Text, KeywordOf, ParseUint, ParseIpv4;
    KeywordOfText(TopKw(k));
  }

  function SetPeerTyped(k: PeerKey, addr: string, v: string): (e: Edit)
    ensures PlainWord(addr) && PlainWord(v) ==> PlainEdit(e)
  {
    TypedPeer(k, v);
    SetPeer(k, addr, ParseSetting(Text(PeerKw(k)), Some(v)))
  }

  lemma TypedPeer(k: PeerKey, v: string)
    ensures var s := ParseSetting(Text(PeerKw(k)), Some(v));
      s.Some? ==> KeyOf(s.value) == PeerS(k) && (PlainWord(v) ==> PlainSetting(s.value))
  {
    hide Text, KeywordOf, ParseUint, ParseBool, PlainWord;
    KeywordOfText(PeerKw(k));
  }

  function ParseFamily(afi: string, safi: string): Option<FamilyId> {
    var a :- ParseAfi(afi);
    var s :- ParseSafi(safi);
    Some(FamilyId(a, s))
  }

  function ParseCacheField(k: RpkiCacheKey, v: string): (r: Option<RpkiSetting>)
    ensures r.Some? ==> FieldKey(r.value) == k && (PlainWord(v) ==> PlainField(r.value))
  {
    match k
    case Preference => var x :- ParseU8(v); Some(CachePreference(x))
    case Transport => var x :- ParseTransport(v); Some(CacheTransport(x))
    case SshUsername => Some(CacheUsername(v))
    case SshPrivateKeyFile => Some(CacheKeyFile(v))
    case SshKnownHostsFile => Some(CacheHostsFile(v))
    case RetryInterval => var x :- ParseU64(v); Some(CacheRetry(x))
    case RefreshInterval => var x :- ParseU64(v); Some(CacheRefresh(x))
    case ExpireInterval => var x :- ParseU64(v); Some(CacheExpire(x))
  }
}
