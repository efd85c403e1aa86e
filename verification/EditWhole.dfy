// The map of a candidate says everything about it but order: commands never repeat the key
// of a block, and two candidates without repeated blocks have the same map exactly when one
// is the other reordered (ggsh/src/cmd_configure.rs).
module EditWhole {
  import opened Ast
  import opened EditMap
  import opened EditRuns
  import opened Edits
  import opened Keyed
  import opened Keywords
  import opened Wrappers

  // ----- no block is there twice -----

  ghost predicate UniquePeers(ps: seq<PeerBlock>) {
    Once(ps, PeerOf) && forall p | p in ps :: Once(p.families, FamilyOf)
  }

  ghost predicate UniqueBlocks(b: Body) {
    && UniquePeers(b.peers)
    && Once(b.policies, PolicyOf)
    && Once(b.prefixLists, PrefixListOf)
    && Once(b.bmpServers, BmpOf)
    && Once(b.rpkiCaches, RpkiOf)
  }

  ghost predicate UniqueRoot(r: Root) {
    r.services != [] ==> UniqueBlocks(r.services[0])
  }

  lemma Nobody<X, K(!new)>(key: X -> K)
    ensures Once([], key)
  {
  }

  lemma PeerAtUnique(ps: seq<PeerBlock>, a: string)
    requires UniquePeers(ps)
    ensures Once(PeerAt(ps, a).families, FamilyOf)
  {
    hide Once, Find;
    FindKey(ps, PeerOf, a);
    Nobody(FamilyOf);
  }

  lemma StoredPeer(ps: seq<PeerBlock>, p: PeerBlock)
    requires UniquePeers(ps) && Once(p.families, FamilyOf)
    ensures UniquePeers(Store(ps, PeerOf, p))
  {
    hide Once, Store;
    OnceStore(ps, PeerOf, p);
  }

  lemma SetPeersUnique(e: Edit, ps: seq<PeerBlock>)
    requires (e.SetPeer? || e.SetFamily?) && !BadFamily(e) && UniquePeers(ps)
    ensures UniquePeers(EditPeers(e, ps).0)
  {
    hide WellTyped, KeyOf, Once, Find, Store, Without, UniquePeers, PeerAt;
    var p := PeerAt(ps, e.addr);
    PeerAtUnique(ps, e.addr);
    if e.SetPeer? {
      if e.setting.Some? {
        StoredPeer(ps, p.(settings := Without(p.settings, KeyOf, PeerS(e.peerKey)) + [e.setting.value]));
      } else {
        StoredPeer(ps, p);
      }
    } else {
      var f := FamilyAt(p.families, e.family.value);
      var ds := Without(f.directives, DirectiveOf, DirectionKey(e.dir)) + [PolicyLine(e.dir, e.name)];
      OnceStore(p.families, FamilyOf, f.(directives := ds));
      StoredPeer(ps, p.(families := Store(p.families, FamilyOf, f.(directives := ds))));
    }
  }

  lemma UnsetPeersUnique(e: Edit, ps: seq<PeerBlock>)
    requires PeerEdit(e) && !e.SetPeer? && !e.SetFamily? && !BadFamily(e) && UniquePeers(ps)
    ensures UniquePeers(EditPeers(e, ps).0)
  {
    hide WellTyped, KeyOf, Once, Find, Store, Without;
    var found := Find(ps, PeerOf, e.addr);
    FindKey(ps, PeerOf, e.addr);
    match e {
      case UnsetPeer(a) => OnceWithout(ps, PeerOf, a); assert forall p | p in Without(ps, PeerOf, a) :: p in ps;
      case UnsetPeerSetting(k, _) =>
        if found.Some? { StoredPeer(ps, found.value.(settings := Without(found.value.settings, KeyOf, PeerS(k)))); }
      case UnsetFamily(_, f) =>
        if found.Some? {
          OnceWithout(found.value.families, FamilyOf, f.value);
          StoredPeer(ps, found.value.(families := Without(found.value.families, FamilyOf, f.value)));
        }
      case UnsetDirective(d, _, f) =>
        if found.Some? && Find(found.value.families, FamilyOf, f.value).Some? {
          var x := Find(found.value.families, FamilyOf, f.value).value;
          var y := x.(directives := Without(x.directives, DirectiveOf, DirectionKey(d)));
          OnceStore(found.value.families, FamilyOf, y);
          StoredPeer(ps, found.value.(families := Store(found.value.families, FamilyOf, y)));
        }
    }
  }

  lemma PoliciesUnique(e: Edit, ps: seq<PolicyBlock>)
    requires PolicyEdit(e) && Once(ps, PolicyOf)
    ensures Once(EditPolicies(e, ps).0, PolicyOf)
  {
    hide WellTyped, Once, Store, Without;
    var p := PolicyAt(ps, e.name);
    match e {
      case SetMatch(_, s, a) =>
        OnceStore(ps, PolicyOf, p.(rules := Without(p.rules, RuleOf, MatchKey(s)) + [MatchRule(s, a)]));
      case SetDefault(_, a) =>
        OnceStore(ps, PolicyOf, p.(rules := Without(p.rules, RuleOf, DefaultKey) + [DefaultRule(a)]));
      case UnsetPolicy(n) => OnceWithout(ps, PolicyOf, n);
    }
  }

  lemma PrefixListsUnique(e: Edit, ps: seq<PrefixListBlock>)
    requires PrefixEdit(e) && Once(ps, PrefixListOf)
    ensures Once(EditPrefixLists(e, ps).0, PrefixListOf)
  {
    hide WellTyped, Once, Store, Without;
    match e {
      case SetEntry(n, x) =>
        var p := PrefixListAt(ps, n);
        OnceStore(ps, PrefixListOf, p);
        OnceStore(ps, PrefixListOf, p.(prefixes := p.prefixes + [PrefixListEntry(x, None)]));
      case UnsetPrefixList(n) => OnceWithout(ps, PrefixListOf, n);
      case UnsetEntry(n, x) =>
        var found := Find(ps, PrefixListOf, n);
        if found.Some? {
          OnceStore(ps, PrefixListOf, found.value.(prefixes := Without(found.value.prefixes, EntryOf, x)));
        }
    }
  }

  lemma BmpUnique(e: Edit, bs: seq<BmpServerBlock>)
    requires BmpEdit(e) && Once(bs, BmpOf)
    ensures Once(EditBmp(e, bs).0, BmpOf)
  {
    hide WellTyped, Once, Store, Without;
    match e {
      case SetBmp(a, t) =>
        var b := BmpAt(bs, a);
        OnceStore(bs, BmpOf, b);
        OnceStore(bs, BmpOf, b.(statisticsTimeout := t));
      case UnsetBmp(a) => OnceWithout(bs, BmpOf, a);
      case UnsetBmpTimeout(a) =>
        var found := Find(bs, BmpOf, a);
        if found.Some? { OnceStore(bs, BmpOf, found.value.(statisticsTimeout := None)); }
    }
  }

  lemma RpkiUnique(e: Edit, rs: seq<RpkiCacheBlock>)
    requires RpkiEdit(e) && Once(rs, RpkiOf)
    ensures Once(EditRpki(e, rs).0, RpkiOf)
  {
    hide WellTyped, Once, Store, Without, WithField, WithoutField, RpkiField;
    match e {
      case SetRpki(_, a, f) =>
        var r := RpkiAt(rs, a);
        OnceStore(rs, RpkiOf, r);
        if f.Some? { OnceStore(rs, RpkiOf, WithField(r, f.value)); }
      case UnsetRpki(a) => OnceWithout(rs, RpkiOf, a);
      case UnsetRpkiField(k, a) =>
        var found := Find(rs, RpkiOf, a);
        if found.Some? { OnceStore(rs, RpkiOf, WithoutField(found.value, k)); }
    }
  }

  lemma BodyUnique(e: Edit, b: Body)
    requires !BadFamily(e) && UniqueBlocks(b)
    ensures UniqueBlocks(EditBody(e, b).0)
  {
    hide WellTyped, EditSettings, EditPeers, EditPolicies, EditPrefixLists, EditBmp, EditRpki, EditBgpLs, EditTelemetry,
      BadFamily, Once, UniquePeers;
    if e.SetPeer? || e.SetFamily? {
      SetPeersUnique(e, b.peers);
    } else if PeerEdit(e) {
      UnsetPeersUnique(e, b.peers);
    }
    if PolicyEdit(e) { PoliciesUnique(e, b.policies); }
    if PrefixEdit(e) { PrefixListsUnique(e, b.prefixLists); }
    if BmpEdit(e) { BmpUnique(e, b.bmpServers); }
    if RpkiEdit(e) { RpkiUnique(e, b.rpkiCaches); }
  }

  lemma EmptyUnique()
    ensures UniqueBlocks(EMPTY_BODY)
  {
  }

  // No command repeats the key of a block, and so no run of them does.
  lemma EditUnique(e: Edit, root: Root)
    requires UniqueRoot(root)
    ensures UniqueRoot(Apply(e, root).0)
  {
    hide WellTyped, EditBody, BadFamily, UniqueBlocks;
    EmptyUnique();
    if !BadFamily(e) {
      BodyUnique(e, if root.services == [] then EMPTY_BODY else root.services[0]);
    }
  }

  lemma {:induction false} RunUnique(es: seq<Edit>, root: Root)
    requires UniqueRoot(root)
    ensures UniqueRoot(Run(es, root))
    decreases es
  {
    hide Apply, UniqueRoot;
    if es != [] {
      EditUnique(es[0], root);
      RunUnique(es[1..], Apply(es[0], root).0);
    }
  }

  // ----- no key is given twice -----

  ghost predicate SinglePeer(p: PeerBlock) {
    Once(p.settings, KeyOf) && forall f | f in p.families :: Once(f.directives, DirectiveOf)
  }

  // A policy may have any number of statements.
  ghost predicate SinglePolicy(p: PolicyBlock) {
    forall k | k != StatementKey :: |Only(p.rules, RuleOf, k)| <= 1
  }

  ghost predicate SinglePrefixList(p: PrefixListBlock) { Once(p.prefixes, EntryOf) }

  ghost predicate SingleKeys(b: Body) {
    && Once(b.settings, KeyOf)
    && (forall p | p in b.peers :: SinglePeer(p))
    && (forall p | p in b.policies :: SinglePolicy(p))
    && (forall p | p in b.prefixLists :: SinglePrefixList(p))
  }

  lemma SettingsSingle(e: Edit, ss: seq<Setting>)
    requires TopEdit(e) && Once(ss, KeyOf)
    ensures Once(EditSettings(e, ss).0, KeyOf)
  {
    hide Once, Without;
    match e {
      case SetTop(_, s) => if s.Some? { OnceReplaced(ss, KeyOf, s.value); }
      case SetOriginate(p, n) => OnceReplaced(ss, KeyOf, Setting.Originate(OriginateRoute(p, n)));
      case UnsetTop(k) => OnceWithout(ss, KeyOf, TopS(k));
      case UnsetOriginate(p) => OnceWithout(ss, KeyOf, OriginateS(p));
    }
  }

  ghost predicate SinglePeers(ps: seq<PeerBlock>) { forall p | p in ps :: SinglePeer(p) }

  lemma StoredSingle(ps: seq<PeerBlock>, p: PeerBlock)
    requires SinglePeers(ps) && SinglePeer(p)
    ensures SinglePeers(Store(ps, PeerOf, p))
  {
    hide SinglePeer, Store;
  }

  lemma PeerAtSingle(ps: seq<PeerBlock>, a: string)
    requires SinglePeers(ps)
    ensures SinglePeer(PeerAt(ps, a))
  {
    hide Once, Find;
    FindKey(ps, PeerOf, a);
    Nobody(KeyOf);
  }

  // A family with new directives keeps its peer single.
  lemma FamilySingle(p: PeerBlock, f: FamilyBlock)
    requires SinglePeer(p) && Once(f.directives, DirectiveOf)
    ensures SinglePeer(p.(families := Store(p.families, FamilyOf, f)))
  {
    hide Once, Store;
  }

  lemma FamilyAtSingle(p: PeerBlock, id: FamilyId)
    requires SinglePeer(p)
    ensures Once(FamilyAt(p.families, id).directives, DirectiveOf)
  {
    hide Once, Find;
    FindKey(p.families, FamilyOf, id);
    Nobody(DirectiveOf);
  }

  lemma SetPeersSingle(e: Edit, ps: seq<PeerBlock>)
    requires (e.SetPeer? || e.SetFamily?) && !BadFamily(e) && SinglePeers(ps)
    ensures SinglePeers(EditPeers(e, ps).0)
  {
    hide KeyOf, Once, Find, Store, Without, SinglePeers, PeerAt, FamilyAt;
    var p := PeerAt(ps, e.addr);
    PeerAtSingle(ps, e.addr);
    if e.SetPeer? {
      if e.setting.Some? {
        OnceReplaced(p.settings, KeyOf, e.setting.value);
        StoredSingle(ps, p.(settings := Without(p.settings, KeyOf, PeerS(e.peerKey)) + [e.setting.value]));
      } else {
        StoredSingle(ps, p);
      }
    } else {
      var f, d := FamilyAt(p.families, e.family.value), PolicyLine(e.dir, e.name);
      FamilyAtSingle(p, e.family.value);
      OnceReplaced(f.directives, DirectiveOf, d);
      var g := f.(directives := Without(f.directives, DirectiveOf, DirectionKey(e.dir)) + [d]);
      FamilySingle(p, g);
      StoredSingle(ps, p.(families := Store(p.families, FamilyOf, g)));
    }
  }

  lemma UnsetPeersSingle(e: Edit, ps: seq<PeerBlock>)
    requires PeerEdit(e) && !e.SetPeer? && !e.SetFamily? && !BadFamily(e) && SinglePeers(ps)
    ensures SinglePeers(EditPeers(e, ps).0)
  {
    hide WellTyped, KeyOf, Once, Find, Store, Without;
    var found := Find(ps, PeerOf, e.addr);
    FindKey(ps, PeerOf, e.addr);
    if found.Some? {
      var p := found.value;
      match e {
        case UnsetPeer(a) =>
        case UnsetPeerSetting(k, _) =>
          OnceWithout(p.settings, KeyOf, PeerS(k));
          StoredSingle(ps, p.(settings := Without(p.settings, KeyOf, PeerS(k))));
        case UnsetFamily(_, f) => StoredSingle(ps, p.(families := Without(p.families, FamilyOf, f.value)));
        case UnsetDirective(d, _, f) =>
          FindKey(p.families, FamilyOf, f.value);
          if Find(p.families, FamilyOf, f.value).Some? {
            var x := Find(p.families, FamilyOf, f.value).value;
            OnceWithout(x.directives, DirectiveOf, DirectionKey(d));
            var y := x.(directives := Without(x.directives, DirectiveOf, DirectionKey(d)));
            FamilySingle(p, y);
            StoredSingle(ps, p.(families := Store(p.families, FamilyOf, y)));
          }
      }
    }
  }

  lemma PoliciesSingle(e: Edit, ps: seq<PolicyBlock>)
    requires PolicyEdit(e) && forall p | p in ps :: SinglePolicy(p)
    ensures forall p | p in EditPolicies(e, ps).0 :: SinglePolicy(p)
  {
    hide WellTyped, Store, Without, Find, SinglePolicy, RuleOf;
    if !e.UnsetPolicy? {
      var p := PolicyAt(ps, e.name);
      FindKey(ps, PolicyOf, e.name);
      assert SinglePolicy(PolicyBlock(e.name, [])) by { NewPolicySingle(e.name); }
      RuleSingle(p, if e.SetMatch? then MatchRule(e.setName, e.action) else DefaultRule(e.action));
      assert e.SetMatch? ==> RuleOf(MatchRule(e.setName, e.action)) == MatchKey(e.setName) by { RuleKeys(e); }
      assert e.SetDefault? ==> RuleOf(DefaultRule(e.action)) == DefaultKey by { RuleKeys(e); }
    }
  }

  lemma RuleKeys(e: Edit)
    ensures e.SetMatch? ==> RuleOf(MatchRule(e.setName, e.action)) == MatchKey(e.setName)
    ensures e.SetDefault? ==> RuleOf(DefaultRule(e.action)) == DefaultKey
  {
  }

  lemma NewPolicySingle(name: string)
    ensures SinglePolicy(PolicyBlock(name, []))
  {
  }

  lemma RuleSingle(p: PolicyBlock, r: PolicyRule)
    requires SinglePolicy(p)
    ensures SinglePolicy(p.(rules := Without(p.rules, RuleOf, RuleOf(r)) + [r]))
  {
    hide Only, Without, RuleOf;
    var rest := Without(p.rules, RuleOf, RuleOf(r));
    forall k | k != StatementKey ensures |Only(rest + [r], RuleOf, k)| <= 1 {
      OnlyWithout(p.rules, RuleOf, RuleOf(r), k);
      OnlyAppend(rest, RuleOf, r, k);
    }
  }

  lemma PrefixListsSingle(e: Edit, ps: seq<PrefixListBlock>)
    requires PrefixEdit(e) && forall p | p in ps :: SinglePrefixList(p)
    ensures forall p | p in EditPrefixLists(e, ps).0 :: SinglePrefixList(p)
  {
    hide WellTyped, Once, Store, Without, Find;
    Nobody(EntryOf);
    FindKey(ps, PrefixListOf, e.name);
    match e {
      case SetEntry(n, x) =>
        var p := PrefixListAt(ps, n);
        OnceReplaced(p.prefixes, EntryOf, PrefixListEntry(x, None));
        WithoutAbsent(p.prefixes, EntryOf, x);
      case UnsetPrefixList(n) =>
      case UnsetEntry(n, x) =>
        var found := Find(ps, PrefixListOf, n);
        if found.Some? { OnceWithout(found.value.prefixes, EntryOf, x); }
    }
  }

  lemma BodySingle(e: Edit, b: Body)
    requires !BadFamily(e) && SingleKeys(b)
    ensures SingleKeys(EditBody(e, b).0)
  {
    hide WellTyped, EditSettings, EditPeers, EditPolicies, EditPrefixLists, EditBmp, EditRpki, EditBgpLs, EditTelemetry,
      BadFamily, Once, SinglePeer, SinglePolicy, SinglePrefixList;
    if TopEdit(e) { SettingsSingle(e, b.settings); }
    if e.SetPeer? || e.SetFamily? {
      SetPeersSingle(e, b.peers);
    } else if PeerEdit(e) {
      UnsetPeersSingle(e, b.peers);
    }
    if PolicyEdit(e) { PoliciesSingle(e, b.policies); }
    if PrefixEdit(e) { PrefixListsSingle(e, b.prefixLists); }
  }

  ghost predicate SingleRoot(r: Root) {
    r.services != [] ==> SingleKeys(r.services[0])
  }

  lemma EmptySingle()
    ensures SingleKeys(EMPTY_BODY)
  {
  }

  lemma EditSingle(e: Edit, root: Root)
    requires SingleRoot(root)
    ensures SingleRoot(Apply(e, root).0)
  {
    hide WellTyped, EditBody, BadFamily, SingleKeys;
    EmptySingle();
    if !BadFamily(e) {
      BodySingle(e, if root.services == [] then EMPTY_BODY else root.services[0]);
    }
  }

  // A key that has one value at the start never gets a second one.
  lemma {:induction false} RunSingle(es: seq<Edit>, root: Root)
    requires SingleRoot(root)
    ensures SingleRoot(Run(es, root))
    decreases es
  {
    hide Apply, SingleRoot;
    if es != [] {
      EditSingle(es[0], root);
      RunSingle(es[1..], Apply(es[0], root).0);
    }
  }

  // ----- the same up to order -----

  ghost predicate SameFamily(f: FamilyBlock, g: FamilyBlock) {
    FamilyOf(f) == FamilyOf(g) && Reordered(f.directives, g.directives, DirectiveOf)
  }

  ghost predicate SamePeer(p: PeerBlock, q: PeerBlock) {
    && p.address == q.address
    && Reordered(p.settings, q.settings, KeyOf)
    && SameBlocks(p.families, q.families, SameFamily)
  }

  ghost predicate SamePolicy(p: PolicyBlock, q: PolicyBlock) {
    p.name == q.name && Reordered(p.rules, q.rules, RuleOf)
  }

  ghost predicate SamePrefixList(p: PrefixListBlock, q: PrefixListBlock) {
    p.name == q.name && Reordered(p.prefixes, q.prefixes, EntryOf)
  }

  predicate SameBmp(a: BmpServerBlock, b: BmpServerBlock) { a == b }

  predicate SameRpki(a: RpkiCacheBlock, b: RpkiCacheBlock) { a == b }

  // Nothing but the order of different keys differs.
  ghost predicate SameBody(a: Body, b: Body) {
    && Reordered(a.settings, b.settings, KeyOf)
    && SameBlocks(a.peers, b.peers, SamePeer)
    && SameBlocks(a.policies, b.policies, SamePolicy)
    && SameBlocks(a.prefixLists, b.prefixLists, SamePrefixList)
    && SameBlocks(a.bmpServers, b.bmpServers, SameBmp)
    && SameBlocks(a.rpkiCaches, b.rpkiCaches, SameRpki)
    && a.bgpLs == b.bgpLs
    && a.telemetry == b.telemetry
    && forall kind :: WordLists(a, kind) == WordLists(b, kind)
  }

  ghost predicate SameRoot(a: Root, b: Root) {
    && |a.services| == |b.services|
    && (a.services != [] ==> SameBody(a.services[0], b.services[0]) && a.services[1..] == b.services[1..])
  }

  // ----- the map determines the candidate up to order -----

  lemma SettingsDetermined(ss: seq<Setting>, ts: seq<Setting>)
    ensures (forall k :: GetSetting(ss, k) == GetSetting(ts, k)) <==> Reordered(ss, ts, KeyOf)
  {
    hide FindAll, KeyOf, Reordered;
    SameLeaves(ss, ts, KeyOf);
    forall k ensures GetSetting(ss, k) == GetSetting(ts, k) <==> FindAll(ss, KeyOf, k) == FindAll(ts, KeyOf, k) {}
  }

  lemma DirectivesDetermined(f: FamilyBlock, g: FamilyBlock)
    ensures (forall d :: GetDirective(f, d) == GetDirective(g, d)) <==>
            Reordered(f.directives, g.directives, DirectiveOf)
  {
    hide FindAll, DirectiveOf, Reordered;
    SameLeaves(f.directives, g.directives, DirectiveOf);
    forall d
      ensures GetDirective(f, d) == GetDirective(g, d) <==>
              FindAll(f.directives, DirectiveOf, d) == FindAll(g.directives, DirectiveOf, d)
    {}
  }

  // What the map shows of a family.
  ghost predicate FamilyAlike(p: PeerBlock, q: PeerBlock, id: FamilyId) {
    && GetPeer(p, FamilyPart(id)) == GetPeer(q, FamilyPart(id))
    && forall d :: GetPeer(p, DirectivePart(id, d)) == GetPeer(q, DirectivePart(id, d))
  }

  lemma FamilyDetermined(p: PeerBlock, q: PeerBlock, id: FamilyId)
    ensures FamilyAlike(p, q, id) <==> FoundSame(p.families, q.families, FamilyOf, SameFamily, id)
  {
    hide Find, GetDirective, Reordered;
    FindKey(p.families, FamilyOf, id);
    FindKey(q.families, FamilyOf, id);
    var f, g := Find(p.families, FamilyOf, id), Find(q.families, FamilyOf, id);
    if f.Some? && g.Some? {
      DirectivesDetermined(f.value, g.value);
      forall d ensures GetPeer(p, DirectivePart(id, d)) == GetDirective(f.value, d) {}
      forall d ensures GetPeer(q, DirectivePart(id, d)) == GetDirective(g.value, d) {}
    }
  }

  ghost predicate PeerAlike(p: PeerBlock, q: PeerBlock) {
    forall part :: GetPeer(p, part) == GetPeer(q, part)
  }

  lemma PeerDetermined(p: PeerBlock, q: PeerBlock)
    requires p.address == q.address && Once(p.families, FamilyOf) && Once(q.families, FamilyOf)
    ensures PeerAlike(p, q) <==> SamePeer(p, q)
  {
    hide Once, Find, Reordered, SameBlocks, FoundSame, GetSetting, FamilyAlike;
    SettingsDetermined(p.settings, q.settings);
    BlocksFound(p.families, q.families, FamilyOf, SameFamily);
    forall id ensures FamilyAlike(p, q, id) <==> FoundSame(p.families, q.families, FamilyOf, SameFamily, id) {
      FamilyDetermined(p, q, id);
    }
    PeerParts(p, q);
  }

  lemma PeerParts(p: PeerBlock, q: PeerBlock)
    ensures PeerAlike(p, q) <==>
            (forall k :: GetSetting(p.settings, k) == GetSetting(q.settings, k)) && forall id :: FamilyAlike(p, q, id)
  {
    hide Find, GetSetting;
    if (forall k :: GetSetting(p.settings, k) == GetSetting(q.settings, k)) && forall id :: FamilyAlike(p, q, id) {
      forall part ensures GetPeer(p, part) == GetPeer(q, part) {
        if part.FamilyPart? || part.DirectivePart? { assert FamilyAlike(p, q, part.family); }
      }
    }
    if PeerAlike(p, q) {
      forall k ensures GetSetting(p.settings, k) == GetSetting(q.settings, k) {
        assert GetPeer(p, PeerSettingPart(k)) == GetPeer(q, PeerSettingPart(k));
      }
    }
  }

  ghost predicate PeersAlike(ps: seq<PeerBlock>, qs: seq<PeerBlock>, a: string) {
    forall part :: GetPeers(ps, a, part) == GetPeers(qs, a, part)
  }

  lemma PeersDetermined(ps: seq<PeerBlock>, qs: seq<PeerBlock>)
    requires UniquePeers(ps) && UniquePeers(qs)
    ensures (forall a :: PeersAlike(ps, qs, a)) <==> SameBlocks(ps, qs, SamePeer)
  {
    hide Once, Find, SamePeer, SameBlocks, FoundSame, PeersAlike;
    assert forall x, y | SamePeer(x, y) :: PeerOf(x) == PeerOf(y) by { PeerAddresses(); }
    BlocksFound(ps, qs, PeerOf, SamePeer);
    forall a ensures PeersAlike(ps, qs, a) <==> FoundSame(ps, qs, PeerOf, SamePeer, a) { PeerFoundSame(ps, qs, a); }
  }

  lemma PeerAddresses()
    ensures forall x, y | SamePeer(x, y) :: PeerOf(x) == PeerOf(y)
  {
  }

  lemma PeerFoundSame(ps: seq<PeerBlock>, qs: seq<PeerBlock>, a: string)
    requires UniquePeers(ps) && UniquePeers(qs)
    ensures PeersAlike(ps, qs, a) <==> FoundSame(ps, qs, PeerOf, SamePeer, a)
  {
    hide Once, Find, SamePeer, GetPeer;
    FindKey(ps, PeerOf, a);
    FindKey(qs, PeerOf, a);
    var f, g := Find(ps, PeerOf, a), Find(qs, PeerOf, a);
    if f.Some? && g.Some? {
      PeerDetermined(f.value, g.value);
      forall part ensures GetPeers(ps, a, part) == GetPeer(f.value, part) {}
      forall part ensures GetPeers(qs, a, part) == GetPeer(g.value, part) {}
    } else if f.Some? {
      assert GetPeers(ps, a, PeerItself) == Some(Present) by { PeerThere(f.value); }
      assert GetPeers(qs, a, PeerItself).None?;
    } else if g.Some? {
      assert GetPeers(qs, a, PeerItself) == Some(Present) by { PeerThere(g.value); }
      assert GetPeers(ps, a, PeerItself).None?;
    }
  }

  lemma PeerThere(p: PeerBlock)
    ensures GetPeer(p, PeerItself) == Some(Present)
  {
  }

  lemma RulesDetermined(p: PolicyBlock, q: PolicyBlock)
    ensures (forall part :: GetPolicy(p, part) == GetPolicy(q, part)) <==> Reordered(p.rules, q.rules, RuleOf)
  {
    hide FindAll, RuleOf, Reordered;
    SameLeaves(p.rules, q.rules, RuleOf);
    forall k
      ensures GetPolicy(p, RulePart(k)) == GetPolicy(q, RulePart(k)) <==>
              FindAll(p.rules, RuleOf, k) == FindAll(q.rules, RuleOf, k)
    {}
  }

  ghost predicate PoliciesAlike(ps: seq<PolicyBlock>, qs: seq<PolicyBlock>, n: string) {
    forall part :: GetPolicies(ps, n, part) == GetPolicies(qs, n, part)
  }

  lemma PolicyFoundSame(ps: seq<PolicyBlock>, qs: seq<PolicyBlock>, n: string)
    ensures PoliciesAlike(ps, qs, n) <==> FoundSame(ps, qs, PolicyOf, SamePolicy, n)
  {
    hide Find, FindAll, Reordered;
    FindKey(ps, PolicyOf, n);
    FindKey(qs, PolicyOf, n);
    var f, g := Find(ps, PolicyOf, n), Find(qs, PolicyOf, n);
    if f.Some? && g.Some? {
      RulesDetermined(f.value, g.value);
      forall part ensures GetPolicies(ps, n, part) == GetPolicy(f.value, part) {}
      forall part ensures GetPolicies(qs, n, part) == GetPolicy(g.value, part) {}
    } else {
      assert GetPolicies(ps, n, PolicyItself).Some? == f.Some? && GetPolicies(qs, n, PolicyItself).Some? == g.Some?;
    }
  }

  lemma PoliciesDetermined(ps: seq<PolicyBlock>, qs: seq<PolicyBlock>)
    requires Once(ps, PolicyOf) && Once(qs, PolicyOf)
    ensures (forall n :: PoliciesAlike(ps, qs, n)) <==> SameBlocks(ps, qs, SamePolicy)
  {
    hide Once, SameBlocks, FoundSame, PoliciesAlike;
    BlocksFound(ps, qs, PolicyOf, SamePolicy);
    forall n ensures PoliciesAlike(ps, qs, n) <==> FoundSame(ps, qs, PolicyOf, SamePolicy, n) {
      PolicyFoundSame(ps, qs, n);
    }
  }

  lemma EntriesDetermined(p: PrefixListBlock, q: PrefixListBlock)
    ensures (forall part :: GetPrefixList(p, part) == GetPrefixList(q, part)) <==>
            Reordered(p.prefixes, q.prefixes, EntryOf)
  {
    hide FindAll, EntryOf, Reordered;
    SameLeaves(p.prefixes, q.prefixes, EntryOf);
    forall x
      ensures GetPrefixList(p, EntryPart(x)) == GetPrefixList(q, EntryPart(x)) <==>
              FindAll(p.prefixes, EntryOf, x) == FindAll(q.prefixes, EntryOf, x)
    {}
  }

  ghost predicate PrefixListsAlike(ps: seq<PrefixListBlock>, qs: seq<PrefixListBlock>, n: string) {
    forall part :: GetPrefixLists(ps, n, part) == GetPrefixLists(qs, n, part)
  }

  lemma PrefixListFoundSame(ps: seq<PrefixListBlock>, qs: seq<PrefixListBlock>, n: string)
    ensures PrefixListsAlike(ps, qs, n) <==> FoundSame(ps, qs, PrefixListOf, SamePrefixList, n)
  {
    hide Find, FindAll, Reordered;
    FindKey(ps, PrefixListOf, n);
    FindKey(qs, PrefixListOf, n);
    var f, g := Find(ps, PrefixListOf, n), Find(qs, PrefixListOf, n);
    if f.Some? && g.Some? {
      EntriesDetermined(f.value, g.value);
      forall part ensures GetPrefixLists(ps, n, part) == GetPrefixList(f.value, part) {}
      forall part ensures GetPrefixLists(qs, n, part) == GetPrefixList(g.value, part) {}
    } else {
      assert GetPrefixLists(ps, n, PrefixListItself).Some? == f.Some?;
      assert GetPrefixLists(qs, n, PrefixListItself).Some? == g.Some?;
    }
  }

  lemma PrefixListsDetermined(ps: seq<PrefixListBlock>, qs: seq<PrefixListBlock>)
    requires Once(ps, PrefixListOf) && Once(qs, PrefixListOf)
    ensures (forall n :: PrefixListsAlike(ps, qs, n)) <==> SameBlocks(ps, qs, SamePrefixList)
  {
    hide Once, SameBlocks, FoundSame, PrefixListsAlike;
    BlocksFound(ps, qs, PrefixListOf, SamePrefixList);
    forall n ensures PrefixListsAlike(ps, qs, n) <==> FoundSame(ps, qs, PrefixListOf, SamePrefixList, n) {
      PrefixListFoundSame(ps, qs, n);
    }
  }

  ghost predicate BmpsAlike(xs: seq<BmpServerBlock>, ys: seq<BmpServerBlock>, a: string) {
    forall part :: GetBmps(xs, a, part) == GetBmps(ys, a, part)
  }

  lemma BmpFoundSame(xs: seq<BmpServerBlock>, ys: seq<BmpServerBlock>, a: string)
    ensures BmpsAlike(xs, ys, a) <==> FoundSame(xs, ys, BmpOf, SameBmp, a)
  {
    hide Find;
    FindKey(xs, BmpOf, a);
    FindKey(ys, BmpOf, a);
    if BmpsAlike(xs, ys, a) {
      assert GetBmps(xs, a, BmpItself) == GetBmps(ys, a, BmpItself);
      assert GetBmps(xs, a, TimeoutPart) == GetBmps(ys, a, TimeoutPart);
    }
  }

  lemma BmpsDetermined(xs: seq<BmpServerBlock>, ys: seq<BmpServerBlock>)
    requires Once(xs, BmpOf) && Once(ys, BmpOf)
    ensures (forall a :: BmpsAlike(xs, ys, a)) <==> SameBlocks(xs, ys, SameBmp)
  {
    hide Once, SameBlocks, FoundSame, BmpsAlike;
    BlocksFound(xs, ys, BmpOf, SameBmp);
    forall a ensures BmpsAlike(xs, ys, a) <==> FoundSame(xs, ys, BmpOf, SameBmp, a) { BmpFoundSame(xs, ys, a); }
  }

  ghost predicate RpkisAlike(xs: seq<RpkiCacheBlock>, ys: seq<RpkiCacheBlock>, a: string) {
    forall part :: GetRpkis(xs, a, part) == GetRpkis(ys, a, part)
  }

  // A cache is its address and its fields.
  lemma FieldsDetermined(r: RpkiCacheBlock, s: RpkiCacheBlock)
    requires r.address == s.address && forall k :: RpkiField(r, k) == RpkiField(s, k)
    ensures r == s
  {
    assert RpkiField(r, Preference) == RpkiField(s, Preference);
    assert RpkiField(r, Transport) == RpkiField(s, Transport);
    assert RpkiField(r, SshUsername) == RpkiField(s, SshUsername);
    assert RpkiField(r, SshPrivateKeyFile) == RpkiField(s, SshPrivateKeyFile);
    assert RpkiField(r, SshKnownHostsFile) == RpkiField(s, SshKnownHostsFile);
    assert RpkiField(r, RetryInterval) == RpkiField(s, RetryInterval);
    assert RpkiField(r, RefreshInterval) == RpkiField(s, RefreshInterval);
    assert RpkiField(r, ExpireInterval) == RpkiField(s, ExpireInterval);
  }

  lemma RpkiFoundSame(xs: seq<RpkiCacheBlock>, ys: seq<RpkiCacheBlock>, a: string)
    ensures RpkisAlike(xs, ys, a) <==> FoundSame(xs, ys, RpkiOf, SameRpki, a)
  {
    hide Find, RpkiField;
    FindKey(xs, RpkiOf, a);
    FindKey(ys, RpkiOf, a);
    var f, g := Find(xs, RpkiOf, a), Find(ys, RpkiOf, a);
    if RpkisAlike(xs, ys, a) {
      assert GetRpkis(xs, a, RpkiItself) == GetRpkis(ys, a, RpkiItself);
      if f.Some? {
        forall k ensures RpkiField(f.value, k) == RpkiField(g.value, k) {
          assert GetRpkis(xs, a, RpkiFieldPart(k)) == GetRpkis(ys, a, RpkiFieldPart(k));
        }
        FieldsDetermined(f.value, g.value);
      }
    }
  }

  lemma RpkisDetermined(xs: seq<RpkiCacheBlock>, ys: seq<RpkiCacheBlock>)
    requires Once(xs, RpkiOf) && Once(ys, RpkiOf)
    ensures (forall a :: RpkisAlike(xs, ys, a)) <==> SameBlocks(xs, ys, SameRpki)
  {
    hide Once, SameBlocks, FoundSame, RpkisAlike;
    BlocksFound(xs, ys, RpkiOf, SameRpki);
    forall a ensures RpkisAlike(xs, ys, a) <==> FoundSame(xs, ys, RpkiOf, SameRpki, a) { RpkiFoundSame(xs, ys, a); }
  }

  lemma TelemetryDetermined(t: Option<TelemetryBlock>, u: Option<TelemetryBlock>)
    ensures (forall part :: GetTelemetries(t, part) == GetTelemetries(u, part)) <==> t == u
  {
    if forall part :: GetTelemetries(t, part) == GetTelemetries(u, part) {
      assert GetTelemetries(t, TelemetryItself) == GetTelemetries(u, TelemetryItself);
      assert GetTelemetries(t, JsonPart) == GetTelemetries(u, JsonPart);
      assert GetTelemetries(t, EmfPart) == GetTelemetries(u, EmfPart);
      assert GetTelemetries(t, PrometheusPart) == GetTelemetries(u, PrometheusPart);
      assert GetTelemetries(t, ListenPart) == GetTelemetries(u, ListenPart);
    }
  }

  // ----- the whole candidate -----

  ghost predicate BodyAlike(a: Body, b: Body) {
    forall q :: GetBody(a, q) == GetBody(b, q)
  }

  // The map, section by section.
  ghost predicate ListsAlike(a: Body, b: Body) {
    && (forall k :: GetSetting(a.settings, k) == GetSetting(b.settings, k))
    && (forall x :: PeersAlike(a.peers, b.peers, x))
    && (forall x :: PoliciesAlike(a.policies, b.policies, x))
    && (forall x :: PrefixListsAlike(a.prefixLists, b.prefixLists, x))
  }

  ghost predicate BlocksAlike(a: Body, b: Body) {
    && (forall x :: BmpsAlike(a.bmpServers, b.bmpServers, x))
    && (forall x :: RpkisAlike(a.rpkiCaches, b.rpkiCaches, x))
    && a.bgpLs == b.bgpLs
    && (forall part :: GetTelemetries(a.telemetry, part) == GetTelemetries(b.telemetry, part))
    && (forall kind :: WordLists(a, kind) == WordLists(b, kind))
  }

  lemma AlikeLists(a: Body, b: Body)
    requires BodyAlike(a, b)
    ensures ListsAlike(a, b)
  {
    hide GetBody, GetSetting, GetPeers, GetPolicies, GetPrefixLists;
    forall k ensures GetSetting(a.settings, k) == GetSetting(b.settings, k) { Shown(a, b, TopPath(k)); }
    forall x ensures PeersAlike(a.peers, b.peers, x) {
      forall part ensures GetPeers(a.peers, x, part) == GetPeers(b.peers, x, part) { Shown(a, b, PeerPath(x, part)); }
    }
    forall x ensures PoliciesAlike(a.policies, b.policies, x) {
      forall part ensures GetPolicies(a.policies, x, part) == GetPolicies(b.policies, x, part) {
        Shown(a, b, PolicyPath(x, part));
      }
    }
    forall x ensures PrefixListsAlike(a.prefixLists, b.prefixLists, x) {
      forall part ensures GetPrefixLists(a.prefixLists, x, part) == GetPrefixLists(b.prefixLists, x, part) {
        Shown(a, b, PrefixPath(x, part));
      }
    }
  }

  lemma Shown(a: Body, b: Body, q: Path)
    requires BodyAlike(a, b)
    ensures GetBody(a, q) == GetBody(b, q)
    ensures q.TopPath? ==> GetSetting(a.settings, q.key) == GetSetting(b.settings, q.key)
    ensures q.PeerPath? ==> GetPeers(a.peers, q.addr, q.peer) == GetPeers(b.peers, q.addr, q.peer)
    ensures q.PolicyPath? ==> GetPolicies(a.policies, q.name, q.policy) == GetPolicies(b.policies, q.name, q.policy)
    ensures q.PrefixPath? ==>
              GetPrefixLists(a.prefixLists, q.name, q.prefixList) == GetPrefixLists(b.prefixLists, q.name, q.prefixList)
    ensures q.BmpPath? ==> GetBmps(a.bmpServers, q.addr, q.bmp) == GetBmps(b.bmpServers, q.addr, q.bmp)
    ensures q.RpkiPath? ==> GetRpkis(a.rpkiCaches, q.addr, q.rpki) == GetRpkis(b.rpkiCaches, q.addr, q.rpki)
    ensures q.TelemetryPath? ==> GetTelemetries(a.telemetry, q.telemetry) == GetTelemetries(b.telemetry, q.telemetry)
  {
    hide GetBody, GetSetting, GetPeers, GetPolicies, GetPrefixLists, GetBmps, GetRpkis, GetTelemetries;
    ShownPart(a, q);
    ShownPart(b, q);
  }

  lemma AlikeBlocks(a: Body, b: Body)
    requires BodyAlike(a, b)
    ensures BlocksAlike(a, b)
  {
    hide GetBmps, GetRpkis, GetTelemetries, GetPeers, GetPolicies, GetPrefixLists, GetSetting, Find;
    forall x ensures BmpsAlike(a.bmpServers, b.bmpServers, x) {
      forall part ensures GetBmps(a.bmpServers, x, part) == GetBmps(b.bmpServers, x, part) {
        Shown(a, b, BmpPath(x, part));
      }
    }
    forall x ensures RpkisAlike(a.rpkiCaches, b.rpkiCaches, x) {
      forall part ensures GetRpkis(a.rpkiCaches, x, part) == GetRpkis(b.rpkiCaches, x, part) {
        Shown(a, b, RpkiPath(x, part));
      }
    }
    Shown(a, b, BgpLsPath);
    forall part ensures GetTelemetries(a.telemetry, part) == GetTelemetries(b.telemetry, part) {
      Shown(a, b, TelemetryPath(part));
    }
    forall kind ensures WordLists(a, kind) == WordLists(b, kind) { Shown(a, b, WordListsPath(kind)); }
  }

  lemma SectionsAlike(a: Body, b: Body)
    requires ListsAlike(a, b) && BlocksAlike(a, b)
    ensures BodyAlike(a, b)
  {
    hide GetBmps, GetRpkis, GetTelemetries, GetPeers, GetPolicies, GetPrefixLists, GetSetting, Find, GetPeer, GetPolicy,
      GetPrefixList, GetBmp, GetRpki, GetTelemetry;
    forall q ensures GetBody(a, q) == GetBody(b, q) {
      ShownPart(a, q);
      ShownPart(b, q);
      if q.PeerPath? { assert PeersAlike(a.peers, b.peers, q.addr); }
      if q.PolicyPath? { assert PoliciesAlike(a.policies, b.policies, q.name); }
      if q.PrefixPath? { assert PrefixListsAlike(a.prefixLists, b.prefixLists, q.name); }
      if q.BmpPath? { assert BmpsAlike(a.bmpServers, b.bmpServers, q.addr); }
      if q.RpkiPath? { assert RpkisAlike(a.rpkiCaches, b.rpkiCaches, q.addr); }
    }
  }

  // Two services without repeated blocks have the same map if and only if one is the other
  // reordered: nothing else is invisible to the map.
  lemma MapDetermines(a: Body, b: Body)
    requires UniqueBlocks(a) && UniqueBlocks(b)
    ensures BodyAlike(a, b) <==> SameBody(a, b)
  {
    hide BodyAlike, Once, UniquePeers, Reordered, SameBlocks, PeersAlike, PoliciesAlike, PrefixListsAlike, BmpsAlike,
      RpkisAlike, GetSetting, GetTelemetries, WordLists, SamePeer, SamePolicy, SamePrefixList;
    SettingsDetermined(a.settings, b.settings);
    PeersDetermined(a.peers, b.peers);
    PoliciesDetermined(a.policies, b.policies);
    PrefixListsDetermined(a.prefixLists, b.prefixLists);
    BmpsDetermined(a.bmpServers, b.bmpServers);
    RpkisDetermined(a.rpkiCaches, b.rpkiCaches);
    TelemetryDetermined(a.telemetry, b.telemetry);
    if BodyAlike(a, b) {
      AlikeLists(a, b);
      AlikeBlocks(a, b);
    }
    if SameBody(a, b) {
      SectionsAlike(a, b);
    }
  }

  lemma MapDeterminesRoot(a: Root, b: Root)
    requires UniqueRoot(a) && UniqueRoot(b)
    ensures (forall q :: Get(a, q) == Get(b, q)) <==> SameRoot(a, b)
  {
    hide GetBody, SameBody, UniqueBlocks;
    if a.services != [] && b.services != [] {
      MapDetermines(a.services[0], b.services[0]);
      forall q ensures GetBody(a.services[0], q) == GetBody(b.services[0], q) <==>
                       (q == OtherServicesPath || Get(a, q) == Get(b, q))
      {
        OthersUnseen(a.services[0], b.services[0]);
      }
      assert Get(a, OtherServicesPath) == Get(b, OtherServicesPath) <==> a.services[1..] == b.services[1..];
    } else {
      if a.services != [] { ServicePresent(a.services[0]); }
      if b.services != [] { ServicePresent(b.services[0]); }
      assert Get(a, ServicePath).Some? == (a.services != []) && Get(b, ServicePath).Some? == (b.services != []);
    }
  }

  lemma OthersUnseen(a: Body, b: Body)
    ensures GetBody(a, OtherServicesPath) == GetBody(b, OtherServicesPath)
  {
  }

  // A run leaves exactly the candidate that the map prescribes: whatever has the map of the
  // run and no repeated block is the result reordered.
  lemma RunDetermined(es: seq<Edit>, root: Root, m: Map, other: Root)
    requires UniqueRoot(root) && UniqueRoot(other)
    requires Represents(root, m) && Represents(other, MapRun(es, m))
    ensures SameRoot(Run(es, root), other)
  {
    hide Get, UniqueRoot, SameRoot, MapRun, Run;
    RunRefines(es, root, m);
    RunUnique(es, root);
    var result := Run(es, root);
    forall q ensures Get(result, q) == Get(other, q) {
      assert MapRun(es, m)(q) == Get(result, q) && MapRun(es, m)(q) == Get(other, q);
    }
    MapDeterminesRoot(result, other);
  }
}
