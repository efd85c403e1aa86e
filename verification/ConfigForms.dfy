// Rendering a whole configuration and lowering it again (conf/src/bgp.rs), and the same
// through the text of the configuration file.
module ConfigForms {
  import P = Printer
  import opened Ast
  import opened Decimal
  import opened Leaves
  import opened Lowering
  import opened Parser
  import opened PeerForms
  import opened PolicyForms
  import opened RoundTrip
  import opened Wrappers

  // ----- scalars -----

  lemma {:induction false} TopsConcat(g: Globals, a: seq<Setting>, b: seq<Setting>)
    ensures ApplyTops(g, a + b) == ApplyTops(ApplyTops(g, a), b)
    decreases a
  {
    hide ApplyTop;
    if a == [] {
      assert a + b == b;
    } else {
      assert (a + b)[1..] == a[1..] + b;
      TopsConcat(ApplyTop(g, a[0]), a[1..], b);
    }
  }

  // A rendered setting restores its own scalar and touches no other.
  lemma ApplyTopAt(c: Globals, k: nat, g: Globals, j: nat)
    requires GlobalAt(c, k).Some?
    ensures var r := ApplyTop(g, GlobalAt(c, k).value);
      GlobalAt(r, j) == (if j == k then GlobalAt(c, k) else GlobalAt(g, j)) && r.originate == g.originate
      && (g.enhancedRrStaleTtl.Some? ==> r.enhancedRrStaleTtl.Some?)
  {
  }

  lemma {:induction false} GlobalsApply(c: Globals, k: nat, g: Globals, j: nat)
    requires k <= GLOBALS && j < GLOBALS
    ensures var r := ApplyTops(g, GlobalsFrom(c, k));
      GlobalAt(r, j) == (if j >= k && GlobalAt(c, j).Some? then GlobalAt(c, j) else GlobalAt(g, j))
      && r.originate == g.originate && (g.enhancedRrStaleTtl.Some? ==> r.enhancedRrStaleTtl.Some?)
    decreases GLOBALS - k
  {
    hide GlobalAt, ApplyTop;
    if k < GLOBALS {
      var rest := GlobalsFrom(c, k + 1);
      if GlobalAt(c, k).Some? {
        var s := GlobalAt(c, k).value;
        ApplyTopAt(c, k, g, j);
        assert ([s] + rest)[1..] == rest;
        GlobalsApply(c, k + 1, ApplyTop(g, s), j);
      } else {
        assert [] + rest == rest;
        GlobalsApply(c, k + 1, g, j);
      }
    }
  }

  lemma GlobalsDetermine(c: Globals, d: Globals)
    requires forall k | 0 <= k < GLOBALS :: GlobalAt(c, k) == GlobalAt(d, k)
    requires d.enhancedRrStaleTtl.Some?
    ensures d == c.(originate := d.originate, enhancedRrStaleTtl := Some(c.enhancedRrStaleTtl.GetOr(DEFAULT_STALE)))
  {
    assert GlobalAt(c, 0) == GlobalAt(d, 0);
    assert GlobalAt(c, 1) == GlobalAt(d, 1);
    assert GlobalAt(c, 2) == GlobalAt(d, 2);
    assert GlobalAt(c, 3) == GlobalAt(d, 3);
    assert GlobalAt(c, 4) == GlobalAt(d, 4);
    assert GlobalAt(c, 5) == GlobalAt(d, 5);
    assert GlobalAt(c, 6) == GlobalAt(d, 6);
    assert GlobalAt(c, 7) == GlobalAt(d, 7);
    assert GlobalAt(c, 8) == GlobalAt(d, 8);
    assert GlobalAt(c, 9) == GlobalAt(d, 9);
    assert GlobalAt(c, 10) == GlobalAt(d, 10);
  }

  lemma DefaultsOmitted(j: nat)
    requires 2 <= j
    ensures GlobalAt(DEFAULT_GLOBALS, j).None?
  {
  }

  lemma {:induction false} OriginateApply(g: Globals, rs: seq<OriginateRoute>)
    ensures ApplyTops(g, OriginateSettings(rs)) == g.(originate := g.originate + rs)
    decreases rs
  {
    if rs == [] {
      assert g.originate + rs == g.originate;
    } else {
      OriginateApply(ApplyTop(g, Originate(rs[0])), rs[1..]);
      assert g.originate + [rs[0]] + rs[1..] == g.originate + rs;
      assert OriginateSettings(rs)[1..] == OriginateSettings(rs[1..]);
    }
  }

  lemma AlwaysWritten(g: Globals)
    ensures GlobalAt(g, 0) == Some(Setting.Asn(g.asn)) && GlobalAt(g, 1) == Some(Setting.RouterId(g.routerId))
    ensures Setting.Asn(g.asn) in RenderGlobals(g) && Setting.RouterId(g.routerId) in RenderGlobals(g)
  {
    var all := RenderGlobals(g);
    assert GlobalsFrom(g, 0) == [Setting.Asn(g.asn)] + GlobalsFrom(g, 1);
    assert GlobalsFrom(g, 1) == [Setting.RouterId(g.routerId)] + GlobalsFrom(g, 2);
    assert all[0] == Setting.Asn(g.asn) && all[1] == Setting.RouterId(g.routerId);
  }

  lemma GlobalsBack(c: Globals)
    ensures ApplyTops(DEFAULT_GLOBALS, RenderGlobals(c)) ==
            c.(enhancedRrStaleTtl := Some(c.enhancedRrStaleTtl.GetOr(DEFAULT_STALE)))
  {
    hide ApplyTops, GlobalsFrom, GlobalAt, OriginateSettings;
    var d := ApplyTops(DEFAULT_GLOBALS, GlobalsFrom(c, 0));
    GlobalsApply(c, 0, DEFAULT_GLOBALS, 0);
    forall j | 0 <= j < GLOBALS ensures GlobalAt(c, j) == GlobalAt(d, j) {
      GlobalsApply(c, 0, DEFAULT_GLOBALS, j);
      AlwaysWritten(c);
      if j >= 2 {
        DefaultsOmitted(j);
      }
    }
    GlobalsDetermine(c, d);
    TopsConcat(DEFAULT_GLOBALS, GlobalsFrom(c, 0), OriginateSettings(c.originate));
    OriginateApply(d, c.originate);
    assert [] + c.originate == c.originate;
  }

  lemma TopKeepsTtl(g: Globals, s: Setting)
    requires g.enhancedRrStaleTtl.Some?
    ensures ApplyTop(g, s).enhancedRrStaleTtl.Some?
  {
  }

  lemma {:induction false} TopsKeepTtl(g: Globals, ss: seq<Setting>)
    requires g.enhancedRrStaleTtl.Some?
    ensures ApplyTops(g, ss).enhancedRrStaleTtl.Some?
    decreases ss
  {
    hide ApplyTop;
    if ss != [] {
      TopKeepsTtl(g, ss[0]);
      TopsKeepTtl(ApplyTop(g, ss[0]), ss[1..]);
    }
  }

  // ----- masklength strings and prefix sets -----

  predicate Bounded(r: MasklengthRange) {
    r.Range? ==> r.ge.Some? || r.le.Some?
  }

  lemma {:induction false} DotsAfter(a: string, b: string)
    requires '.' !in a
    ensures DotsAt(a + ".." + b) == |a|
  {
    var s := a + ".." + b;
    if a != [] {
      assert s[1..] == a[1..] + ".." + b;
      assert s[0] == a[0] && a[0] in a;
      DotsAfter(a[1..], b);
    }
  }

  lemma BoundBack(b: Option<u8>)
    ensures '.' !in BoundText(b) && (BoundText(b) == [] <==> b.None?)
    ensures b.Some? ==> ParseUint(BoundText(b), U8_MAX) == b
  {
    if b.Some? {
      DigitsHold(b.value, '.');
      ParseDigits(b.value, U8_MAX);
    }
  }

  // Reading the runtime string of a range gives the range back, unless it has no bound.
  lemma RangeBack(r: MasklengthRange)
    ensures ParseRange(RangeText(r)) == if Bounded(r) then Some(r) else None
  {
    hide ParseUint, BoundText;
    if r.Range? {
      var a, b := BoundText(r.ge), BoundText(r.le);
      var s := RangeText(r);
      BoundBack(r.ge);
      BoundBack(r.le);
      DotsAfter(a, b);
      assert s[|a|] == '.' && "exact"[0] != '.' && '.' !in "exact";
      assert s != "exact" by { assert '.' in s; }
      assert s[..|a|] == a && s[|a| + 2..] == b;
    }
  }

  lemma ParsedBounded(s: string)
    ensures ParseRange(s).Some? ==> Bounded(ParseRange(s).value)
  {
  }

  // A prefix whose masklength string is the text of a range with a bound.
  ghost predicate Canonical(m: PrefixMatch) {
    m.masklength.Some? ==> exists r: MasklengthRange :: Bounded(r) && RangeText(r) == m.masklength.value
  }

  lemma EntryBack(m: PrefixMatch)
    ensures LowerEntry(RenderEntry(m)) == m <==> Canonical(m)
  {
    hide ParseRange, RangeText;
    if m.masklength.Some? {
      var text := m.masklength.value;
      ParsedBounded(text);
      if Canonical(m) {
        var r :| Bounded(r) && RangeText(r) == text;
        RangeBack(r);
      }
    }
  }

  lemma LoweredEntry(e: PrefixListEntry)
    requires EntryShape(e)
    ensures Canonical(LowerEntry(e))
  {
    hide RangeText;
    if e.range.Some? {
      assert Bounded(e.range.value);
    }
  }

  lemma ConsEqual<X>(a: X, xs: seq<X>, b: X, ys: seq<X>)
    ensures [a] + xs == [b] + ys <==> a == b && xs == ys
  {
    assert ([a] + xs)[1..] == xs && ([b] + ys)[1..] == ys;
    assert ([a] + xs)[0] == a && ([b] + ys)[0] == b;
  }

  lemma {:induction false} EntriesBack(ms: seq<PrefixMatch>)
    ensures LowerEntries(RenderEntries(ms)) == ms <==> forall m | m in ms :: Canonical(m)
  {
    hide LowerEntry, RenderEntry, Canonical;
    if ms != [] {
      var rest, first := ms[1..], LowerEntry(RenderEntry(ms[0]));
      assert RenderEntries(ms)[1..] == RenderEntries(rest);
      var back := LowerEntries(RenderEntries(rest));
      assert LowerEntries(RenderEntries(ms)) == [first] + back;
      EntryBack(ms[0]);
      EntriesBack(rest);
      hide LowerEntries, RenderEntries;
      ConsEqual(first, back, ms[0], rest);
      assert ms == [ms[0]] + rest;
      assert forall m :: m in ms <==> m == ms[0] || m in rest;
    }
  }

  ghost predicate SetExpressible(p: PrefixSetConfig) {
    p.prefixes != [] && forall m | m in p.prefixes :: Canonical(m)
  }

  lemma {:induction false} PrefixSetsShrink(ps: seq<PrefixSetConfig>)
    ensures |LowerPrefixLists(RenderPrefixSets(ps))| == |RenderPrefixSets(ps)| <= |ps|
    ensures |RenderPrefixSets(ps)| == |ps| ==> forall p | p in ps :: p.prefixes != []
  {
    if ps != [] {
      PrefixSetsShrink(ps[1..]);
      if ps[0].prefixes != [] {
        assert RenderPrefixSets(ps)[1..] == RenderPrefixSets(ps[1..]);
      }
    }
  }

  lemma {:induction false} PrefixSetsBack(ps: seq<PrefixSetConfig>)
    ensures LowerPrefixLists(RenderPrefixSets(ps)) == ps <==> forall p | p in ps :: SetExpressible(p)
  {
    hide LowerEntries, RenderEntries, Canonical;
    PrefixSetsShrink(ps);
    if ps != [] && ps[0].prefixes != [] {
      EntriesBack(ps[0].prefixes);
      PrefixSetsBack(ps[1..]);
      var b := PrefixListBlock(ps[0].name, RenderEntries(ps[0].prefixes));
      assert RenderPrefixSets(ps)[1..] == RenderPrefixSets(ps[1..]);
      var first := PrefixSetConfig(b.name, LowerEntries(b.prefixes));
      assert LowerPrefixLists(RenderPrefixSets(ps)) == [first] + LowerPrefixLists(RenderPrefixSets(ps[1..]));
      assert first == ps[0] <==> SetExpressible(ps[0]);
      assert ps == [ps[0]] + ps[1..];
      assert forall p :: p in ps <==> p == ps[0] || p in ps[1..];
    } else if ps != [] {
      assert ps[0] in ps && !SetExpressible(ps[0]);
    }
  }

  // ----- peers -----

  predicate UniqueAddresses(cs: seq<PeerConfig>, ip: AddressParser) {
    && (forall i | 0 <= i < |cs| :: ip(cs[i].address).Some?)
    && (forall i, j | 0 <= i < j < |cs| :: ip(cs[i].address) != ip(cs[j].address))
  }

  function LowerPeers(bs: seq<PeerBlock>): seq<PeerConfig> {
    if bs == [] then [] else [LowerPeer(bs[0])] + LowerPeers(bs[1..])
  }

  // Inserting the peers one by one succeeds exactly when all addresses are valid and
  // different, and keeps the order of the blocks.
  lemma {:induction false} InsertPeersExact(cs: seq<PeerConfig>, bs: seq<PeerBlock>, ip: AddressParser)
    requires UniqueAddresses(cs, ip)
    ensures InsertPeers(cs, bs, ip) ==
            if UniqueAddresses(cs + LowerPeers(bs), ip) then Some(cs + LowerPeers(bs)) else None
    decreases bs
  {
    hide LowerPeer;
    if bs == [] {
      assert cs + LowerPeers(bs) == cs;
    } else {
      var c, all := LowerPeer(bs[0]), cs + LowerPeers(bs);
      assert cs + [c] + LowerPeers(bs[1..]) == all;
      assert all[|cs|] == c && forall i | 0 <= i < |cs| :: all[i] == cs[i];
      if ip(c.address).Some? && forall i | 0 <= i < |cs| :: ip(cs[i].address) != ip(c.address) {
        InsertPeersExact(cs + [c], bs[1..], ip);
      }
    }
  }

  lemma {:induction false} PeersBack(cs: seq<PeerConfig>)
    ensures LowerPeers(RenderPeers(cs)) == cs <==> forall c | c in cs :: PeerExpressible(c)
  {
    hide LowerPeer, RenderPeer, PeerExpressible;
    if cs != [] {
      var rest, first := cs[1..], LowerPeer(RenderPeer(cs[0]));
      assert RenderPeers(cs)[1..] == RenderPeers(rest);
      var back := LowerPeers(RenderPeers(rest));
      assert LowerPeers(RenderPeers(cs)) == [first] + back;
      PeerFixedPoint(cs[0]);
      PeersBack(rest);
      hide LowerPeers, RenderPeers;
      ConsEqual(first, back, cs[0], rest);
      assert cs == [cs[0]] + rest;
      assert forall c :: c in cs <==> c == cs[0] || c in rest;
    }
  }

  // ----- policies -----

  predicate PolicyExpressible(p: PolicyConfig) {
    forall s | s in p.statements :: NormalForm(s)
  }

  lemma PolicyFixedPoint(p: PolicyConfig)
    requires RenderPolicy(p).Some?
    ensures LowerPolicy(RenderPolicy(p).value).Some?
    ensures LowerPolicy(RenderPolicy(p).value) == Some(p) <==> PolicyExpressible(p)
  {
    hide LowerPolicy, RenderPolicy, Renderable, Normal;
    PolicyBack(p);
    if NormalAll(p.statements) == p.statements {
      forall s | s in p.statements ensures NormalForm(s) {
        var i :| 0 <= i < |p.statements| && p.statements[i] == s;
        assert NormalAll(p.statements)[i] == Normal(s);
      }
    }
    if PolicyExpressible(p) {
      assert forall i | 0 <= i < |p.statements| :: NormalForm(p.statements[i]);
      assert NormalAll(p.statements) == p.statements;
    }
  }

  lemma {:induction false} PoliciesLower(ps: seq<PolicyConfig>)
    ensures var r := LowerPolicies(RenderPolicies(ps));
      r.Some? && |r.value| <= |ps| && (|r.value| == |ps| ==> forall p | p in ps :: RenderPolicy(p).Some?)
  {
    hide LowerPolicy, RenderPolicy;
    if ps != [] {
      PoliciesLower(ps[1..]);
      if RenderPolicy(ps[0]).Some? {
        PolicyFixedPoint(ps[0]);
        assert RenderPolicies(ps)[1..] == RenderPolicies(ps[1..]);
      }
    }
  }

  lemma {:induction false} PoliciesBack(ps: seq<PolicyConfig>)
    ensures LowerPolicies(RenderPolicies(ps)) == Some(ps) <==> forall p | p in ps :: PolicyExpressible(p)
  {
    hide LowerPolicy, RenderPolicy, Renderable, Normal;
    PoliciesLower(ps);
    if ps != [] {
      PolicyBack(ps[0]);
      if RenderPolicy(ps[0]).Some? {
        PolicyFixedPoint(ps[0]);
        PoliciesBack(ps[1..]);
        assert RenderPolicies(ps)[1..] == RenderPolicies(ps[1..]);
        PoliciesLower(ps[1..]);
        assert ps == [ps[0]] + ps[1..];
        assert forall p :: p in ps <==> p == ps[0] || p in ps[1..];
      } else {
        assert !PolicyExpressible(ps[0]);
      }
    }
  }

  // ----- caches and telemetry -----

  lemma {:induction false} RpkisBack(cs: seq<RpkiCacheConfig>)
    ensures LowerRpkis(RenderRpkis(cs)) == cs
  {
    if cs != [] {
      RpkisBack(cs[1..]);
      assert RenderRpkis(cs)[1..] == RenderRpkis(cs[1..]);
      assert LowerRpki(RenderRpki(cs[0])) == cs[0];
    }
  }

  lemma TelemetryBack(c: TelemetryConfig)
    ensures LowerTelemetry(RenderTelemetry(c)) == c
  {
  }

  // ----- the whole configuration -----

  // What a configuration must be for the language to say it.
  ghost predicate Expressible(c: BgpConfig, ip: AddressParser) {
    && c.globals.routerId != UNSPECIFIED
    && c.globals.enhancedRrStaleTtl.Some?
    && UniqueAddresses(c.peers, ip)
    && (forall p | p in c.peers :: PeerExpressible(p))
    && (forall p | p in c.policies :: PolicyExpressible(p))
    && (forall p | p in c.prefixSets :: SetExpressible(p))
  }

  lemma SameAddresses(cs: seq<PeerConfig>, ip: AddressParser)
    ensures UniqueAddresses(LowerPeers(RenderPeers(cs)), ip) == UniqueAddresses(cs, ip)
  {
    hide LowerPeers, RenderPeers;
    RenderedAddresses(cs);
  }

  lemma {:induction false} RenderedAddresses(cs: seq<PeerConfig>)
    ensures |LowerPeers(RenderPeers(cs))| == |cs|
    ensures forall i | 0 <= i < |cs| :: LowerPeers(RenderPeers(cs))[i].address == cs[i].address
  {
    hide LowerPeer, RenderPeer;
    if cs != [] {
      RenderedAddresses(cs[1..]);
      LoweredPeer(RenderPeer(cs[0]));
      KeepsAddress(cs[0]);
      assert RenderPeers(cs)[1..] == RenderPeers(cs[1..]);
    }
  }

  lemma KeepsAddress(c: PeerConfig)
    ensures RenderPeer(c).address == c.address
  {
  }

  // Lowering a rendered configuration gives it back exactly when it is expressible.
  lemma RenderThenLower(c: BgpConfig, ip: AddressParser)
    ensures Lower(Render(c), ip) == Some(c) <==> Expressible(c, ip)
  {
    hide ApplyTops, RenderGlobals, InsertPeers, RenderPeers, LowerPeers, LowerPolicies, RenderPolicies,
        LowerPrefixLists,
      RenderPrefixSets, LowerRpkis, RenderRpkis, LowerTelemetry, RenderTelemetry, PeerExpressible, PolicyExpressible,
      SetExpressible, UniqueAddresses;
    GlobalsBack(c.globals);
    AlwaysWritten(c.globals);
    NoPeers(ip);
    InsertPeersExact([], RenderPeers(c.peers), ip);
    assert [] + LowerPeers(RenderPeers(c.peers)) == LowerPeers(RenderPeers(c.peers));
    SameAddresses(c.peers, ip);
    PeersBack(c.peers);
    PoliciesLower(c.policies);
    PoliciesBack(c.policies);
    PrefixSetsBack(c.prefixSets);
    RpkisBack(c.rpkiCaches);
    if c.telemetry.Some? {
      TelemetryBack(c.telemetry.value);
    }
  }

  lemma NoPeers(ip: AddressParser)
    ensures UniqueAddresses([], ip)
  {
  }

  // ----- configurations that come from a body -----

  // Every prefix-list entry that names a range gives it a bound, as the parser demands.
  predicate BoundedEntries(b: Body) {
    forall p | p in b.prefixLists :: forall e | e in p.prefixes :: EntryShape(e)
  }

  predicate FamiliesSay(c: BgpConfig) {
    forall p | p in c.peers :: AllSet(p.afiSafis)
  }

  predicate PrefixSetsFilled(c: BgpConfig) {
    forall p | p in c.prefixSets :: p.prefixes != []
  }

  lemma {:induction false} LoweredPeers(bs: seq<PeerBlock>)
    ensures forall c | c in LowerPeers(bs) :: PeerExpressible(c) <==> AllSet(c.afiSafis)
  {
    hide LowerPeer, PeerExpressible, AllSet;
    if bs != [] {
      LoweredPeer(bs[0]);
      LoweredPeers(bs[1..]);
    }
  }

  lemma {:induction false} LoweredPolicies(bs: seq<PolicyBlock>)
    requires LowerPolicies(bs).Some?
    ensures forall p | p in LowerPolicies(bs).value :: PolicyExpressible(p)
  {
    hide LowerRules, NormalForm;
    if bs != [] {
      LoweredRules(bs[0].rules);
      LoweredPolicies(bs[1..]);
    }
  }

  lemma {:induction false} LoweredEntries(es: seq<PrefixListEntry>)
    requires forall e | e in es :: EntryShape(e)
    ensures forall m | m in LowerEntries(es) :: Canonical(m)
  {
    hide Canonical, LowerEntry, EntryShape;
    if es != [] {
      LoweredEntry(es[0]);
      LoweredEntries(es[1..]);
    }
  }

  lemma {:induction false} LoweredPrefixLists(bs: seq<PrefixListBlock>)
    requires forall b | b in bs :: forall e | e in b.prefixes :: EntryShape(e)
    ensures forall p | p in LowerPrefixLists(bs) :: forall m | m in p.prefixes :: Canonical(m)
  {
    hide Canonical, LowerEntries, EntryShape;
    if bs != [] {
      LoweredEntries(bs[0].prefixes);
      LoweredPrefixLists(bs[1..]);
    }
  }

  // A configuration that was lowered from a body is a fixed point exactly when no family
  // entry and no prefix set is empty.
  lemma LoweredFixedPoint(b: Body, ip: AddressParser, c: BgpConfig)
    requires BoundedEntries(b) && Lower(b, ip) == Some(c)
    ensures Lower(Render(c), ip) == Some(c) <==> FamiliesSay(c) && PrefixSetsFilled(c)
  {
    hide ApplyTops, InsertPeers, LowerPeers, LowerPolicies, LowerPrefixLists, LowerRpkis, Render, Canonical,
      PeerExpressible, PolicyExpressible, EntryShape, AllSet, UniqueAddresses;
    RenderThenLower(c, ip);
    TopsKeepTtl(DEFAULT_GLOBALS, b.settings);
    NoPeers(ip);
    InsertPeersExact([], b.peers, ip);
    assert [] + LowerPeers(b.peers) == LowerPeers(b.peers);
    LoweredPeers(b.peers);
    LoweredPolicies(b.policies);
    LoweredPrefixLists(b.prefixLists);
  }

  // ----- through the text -----

  function FromConfStr(text: string, ip: AddressParser): Option<BgpConfig> {
    match Parse(text)
    case Err => None
    case Ok(root) => if root.services == [] then None else Lower(root.services[0], ip)
  }

  function ToConfStr(c: BgpConfig): string {
    P.RootText(Root([Render(c)]))
  }

  // The text written for a running configuration loads as that configuration.
  lemma ConfStrRoundTrip(c: BgpConfig, ip: AddressParser)
    requires Printable(Render(c))
    ensures FromConfStr(ToConfStr(c), ip) == Some(c) <==> Expressible(c, ip)
  {
    hide Parse, P.RootText, Printable, Lower, Render, Expressible;
    ParsePrinted(Root([Render(c)]));
    RenderThenLower(c, ip);
  }
}
