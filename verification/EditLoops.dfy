// The `set` and `unset` commands as the source runs them: search, insert if missing, `retain`
// and `push` (ggsh/src/cmd_configure.rs). Each computes what the function of its section says.
module EditLoops {
  import opened Ast
  import opened Edits
  import opened Keyed
  import opened Wrappers

  // ----- the list primitives -----

  function Kept<X, K(==)>(x: X, key: X -> K, gone: K): seq<X> {
    if key(x) == gone then [] else [x]
  }

  lemma WithoutCons<X, K>(x: X, xs: seq<X>, key: X -> K, gone: K)
    ensures Without([x] + xs, key, gone) == Kept(x, key, gone) + Without(xs, key, gone)
  {
    assert ([x] + xs)[1..] == xs;
  }

  lemma Associative<X>(a: seq<X>, b: seq<X>, c: seq<X>)
    ensures a + (b + c) == a + b + c
  {
  }

  lemma {:induction false} WithoutSnoc<X, K>(xs: seq<X>, x: X, key: X -> K, gone: K)
    ensures Without(xs + [x], key, gone) == Without(xs, key, gone) + Kept(x, key, gone)
  {
    if xs == [] {
      assert xs + [x] == [x] && [x][1..] == [];
    } else {
      hide Without, Kept;
      var rest, head, end := xs[1..], Kept(xs[0], key, gone), Kept(x, key, gone);
      calc {
        Without(xs + [x], key, gone);
        { assert xs + [x] == [xs[0]] + (rest + [x]); }
        Without([xs[0]] + (rest + [x]), key, gone);
        { WithoutCons(xs[0], rest + [x], key, gone); }
        head + Without(rest + [x], key, gone);
        { WithoutSnoc(rest, x, key, gone); }
        head + (Without(rest, key, gone) + end);
        { Associative(head, Without(rest, key, gone), end); }
        head + Without(rest, key, gone) + end;
        { WithoutCons(xs[0], rest, key, gone); assert xs == [xs[0]] + rest; }
        Without(xs, key, gone) + end;
      }
    }
  }

  method Retain<X, K(==)>(xs: seq<X>, key: X -> K, gone: K) returns (r: seq<X>)
    ensures r == Without(xs, key, gone)
  {
    r := [];
    assert Without(xs[..0], key, gone) == [];
    for i := 0 to |xs|
      invariant r == Without(xs[..i], key, gone)
    {
      WithoutSnoc(xs[..i], xs[i], key, gone);
      assert xs[..i + 1] == xs[..i] + [xs[i]];
      if key(xs[i]) != gone {
        r := r + [xs[i]];
      }
    }
    assert xs[..|xs|] == xs;
  }

  // The index of the first element with the key, the length if there is none.
  method Position<X, K(==)>(xs: seq<X>, key: X -> K, k: K) returns (at: nat)
    ensures at <= |xs| && forall i | 0 <= i < at :: key(xs[i]) != k
    ensures at < |xs| <==> Find(xs, key, k).Some?
    ensures at < |xs| ==> key(xs[at]) == k && Find(xs, key, k) == Some(xs[at])
  {
    at := 0;
    while at < |xs| && key(xs[at]) != k
      invariant at <= |xs| && forall i | 0 <= i < at :: key(xs[i]) != k
      invariant Find(xs, key, k) == Find(xs[at..], key, k)
    {
      assert xs[at..][1..] == xs[at + 1..];
      at := at + 1;
    }
  }

  // Writing through the reference to the first element with a key is `Store`.
  lemma {:induction false} StoreAt<X, K>(xs: seq<X>, key: X -> K, at: nat, x: X)
    requires at < |xs| && key(xs[at]) == key(x) && forall i | 0 <= i < at :: key(xs[i]) != key(x)
    ensures xs[at := x] == Store(xs, key, x)
  {
    if at > 0 {
      StoreAt(xs[1..], key, at - 1, x);
      assert xs[at := x] == [xs[0]] + xs[1..][at - 1 := x];
    } else {
      assert xs[at := x] == [x] + xs[1..];
    }
  }

  // The same after an insertion.
  lemma {:induction false} StoreNew<X, K>(xs: seq<X>, key: X -> K, x: X)
    requires Find(xs, key, key(x)).None?
    ensures Store(xs, key, x) == xs + [x]
  {
    if xs == [] {
      assert xs + [x] == [x];
    } else {
      StoreNew(xs[1..], key, x);
      assert [xs[0]] + (xs[1..] + [x]) == xs + [x];
    }
  }

  // A `*_mut` helper (`FindOrInsert`) and a write through what it returns.
  lemma StoreInserted<X, K>(xs: seq<X>, key: X -> K, empty: X, ys: seq<X>, at: nat, x: X)
    requires at < |ys| && key(ys[at]) == key(empty) == key(x) && forall i | 0 <= i < at :: key(ys[i]) != key(empty)
    requires ys == (if Find(xs, key, key(empty)).Some? then xs else xs + [empty])
    requires Find(xs, key, key(empty)).None? ==> at == |xs|
    ensures ys[at := x] == Store(xs, key, x)
  {
    StoreAt(ys, key, at, x);
    if Find(xs, key, key(empty)).None? {
      StoreNew(xs, key, x);
      assert ys[at := x] == xs + [x];
    }
  }

  // ----- the sections of the body -----

  method EditSettingsLoop(e: Edit, ss: seq<Setting>) returns (r: seq<Setting>, ok: bool)
    requires TopEdit(e)
    ensures (r, ok) == EditSettings(e, ss)
  {
    hide KeyOf, WellTyped;
    if e.SetTop? {
      if e.setting.None? {
        return ss, false;
      }
      r := Retain(ss, KeyOf, TopS(e.top));
      r, ok := r + [e.setting.value], true;
    } else if e.SetOriginate? {
      r := Retain(ss, KeyOf, OriginateS(e.prefix));
      r, ok := r + [Setting.Originate(OriginateRoute(e.prefix, e.nexthop))], true;
    } else {
      var gone := if e.UnsetTop? then TopS(e.top) else OriginateS(e.prefix);
      r := Retain(ss, KeyOf, gone);
      ok := |r| != |ss|;
    }
  }

  method SetPeersLoop(e: Edit, ps: seq<PeerBlock>) returns (r: seq<PeerBlock>, ok: bool)
    requires !BadFamily(e) && (e.SetPeer? || e.SetFamily?)
    ensures (r, ok) == EditPeers(e, ps)
  {
    hide KeyOf, DirectiveOf, WellTyped, Find, Store;
    var empty := PeerBlock(e.addr, [], []);
    var ys, at := FindOrInsert(ps, PeerOf, empty);
    var p := ys[at];
    if e.SetPeer? {
      if e.setting.Some? {
        var ss := Retain(p.settings, KeyOf, PeerS(e.peerKey));
        p := p.(settings := ss + [e.setting.value]);
      }
      ok := e.setting.Some?;
    } else {
      var id := e.family.value;
      var fs, f := FindOrInsert(p.families, FamilyOf, FamilyBlock(id.afi, id.safi, []));
      var ds := Retain(fs[f].directives, DirectiveOf, DirectionKey(e.dir));
      var changed := fs[f].(directives := ds + [PolicyLine(e.dir, e.name)]);
      StoreInserted(p.families, FamilyOf, FamilyBlock(id.afi, id.safi, []), fs, f, changed);
      p, ok := p.(families := fs[f := changed]), true;
    }
    StoreInserted(ps, PeerOf, empty, ys, at, p);
    r := ys[at := p];
  }

  method UnsetPeersLoop(e: Edit, ps: seq<PeerBlock>) returns (r: seq<PeerBlock>, ok: bool)
    requires !BadFamily(e) && (e.UnsetPeerSetting? || e.UnsetFamily? || e.UnsetDirective?)
    ensures (r, ok) == EditPeers(e, ps)
  {
    hide KeyOf, DirectiveOf, WellTyped, Find, Store;
    var at := Position(ps, PeerOf, e.addr);
    if at == |ps| {
      return ps, false;
    }
    var p := ps[at];
    if e.UnsetPeerSetting? {
      var ss := Retain(p.settings, KeyOf, PeerS(e.peerKey));
      ok, p := |ss| != |p.settings|, p.(settings := ss);
    } else if e.UnsetFamily? {
      var fs := Retain(p.families, FamilyOf, e.family.value);
      ok, p := |fs| != |p.families|, p.(families := fs);
    } else {
      var f := Position(p.families, FamilyOf, e.family.value);
      if f == |p.families| {
        return ps, false;
      }
      var ds := Retain(p.families[f].directives, DirectiveOf, DirectionKey(e.dir));
      var changed := p.families[f].(directives := ds);
      StoreAt(p.families, FamilyOf, f, changed);
      ok, p := |ds| != |p.families[f].directives|, p.(families := p.families[f := changed]);
    }
    StoreAt(ps, PeerOf, at, p);
    r := ps[at := p];
  }

  method EditPeersLoop(e: Edit, ps: seq<PeerBlock>) returns (r: seq<PeerBlock>, ok: bool)
    requires PeerEdit(e) && !BadFamily(e)
    ensures (r, ok) == EditPeers(e, ps)
  {
    if e.SetPeer? || e.SetFamily? {
      r, ok := SetPeersLoop(e, ps);
    } else if e.UnsetPeer? {
      r := Retain(ps, PeerOf, e.addr);
      ok := |r| != |ps|;
    } else {
      r, ok := UnsetPeersLoop(e, ps);
    }
  }

  method EditPoliciesLoop(e: Edit, ps: seq<PolicyBlock>) returns (r: seq<PolicyBlock>, ok: bool)
    requires PolicyEdit(e)
    ensures (r, ok) == EditPolicies(e, ps)
  {
    hide WellTyped, RuleOf;
    if e.UnsetPolicy? {
      r := Retain(ps, PolicyOf, e.name);
      return r, |r| != |ps|;
    }
    var empty := PolicyBlock(e.name, []);
    var ys, at := FindOrInsert(ps, PolicyOf, empty);
    var key := if e.SetMatch? then MatchKey(e.setName) else DefaultKey;
    var rule := if e.SetMatch? then MatchRule(e.setName, e.action) else DefaultRule(e.action);
    var rules := Retain(ys[at].rules, RuleOf, key);
    var p := ys[at].(rules := rules + [rule]);
    StoreInserted(ps, PolicyOf, empty, ys, at, p);
    r, ok := ys[at := p], true;
  }

  method EditPrefixListsLoop(e: Edit, ps: seq<PrefixListBlock>) returns (r: seq<PrefixListBlock>, ok: bool)
    requires PrefixEdit(e)
    ensures (r, ok) == EditPrefixLists(e, ps)
  {
    hide WellTyped, Find, Store;
    if e.UnsetPrefixList? {
      r := Retain(ps, PrefixListOf, e.name);
      return r, |r| != |ps|;
    }
    if e.SetEntry? {
      var empty := PrefixListBlock(e.name, []);
      var ys, at := FindOrInsert(ps, PrefixListOf, empty);
      var p := ys[at];
      var i := Position(p.prefixes, EntryOf, e.prefix);
      if i == |p.prefixes| {
        p := p.(prefixes := p.prefixes + [PrefixListEntry(e.prefix, None)]);
      }
      StoreInserted(ps, PrefixListOf, empty, ys, at, p);
      return ys[at := p], true;
    }
    var at := Position(ps, PrefixListOf, e.name);
    if at == |ps| {
      return ps, false;
    }
    var es := Retain(ps[at].prefixes, EntryOf, e.prefix);
    var p := ps[at].(prefixes := es);
    StoreAt(ps, PrefixListOf, at, p);
    r, ok := ps[at := p], |es| != |ps[at].prefixes|;
  }

  method EditBmpLoop(e: Edit, bs: seq<BmpServerBlock>) returns (r: seq<BmpServerBlock>, ok: bool)
    requires BmpEdit(e)
    ensures (r, ok) == EditBmp(e, bs)
  {
    hide WellTyped, Find, Store;
    if e.UnsetBmp? {
      r := Retain(bs, BmpOf, e.addr);
      return r, |r| != |bs|;
    }
    if e.SetBmp? {
      var empty := BmpServerBlock(e.addr, None);
      var ys, at := FindOrInsert(bs, BmpOf, empty);
      var b := if e.timeout.Some? then ys[at].(statisticsTimeout := e.timeout) else ys[at];
      StoreInserted(bs, BmpOf, empty, ys, at, b);
      return ys[at := b], e.timeout.Some?;
    }
    var at := Position(bs, BmpOf, e.addr);
    if at == |bs| {
      return bs, false;
    }
    var b := bs[at].(statisticsTimeout := None);
    StoreAt(bs, BmpOf, at, b);
    r, ok := bs[at := b], bs[at].statisticsTimeout.Some?;
  }

  method EditRpkiLoop(e: Edit, rs: seq<RpkiCacheBlock>) returns (r: seq<RpkiCacheBlock>, ok: bool)
    requires RpkiEdit(e)
    ensures (r, ok) == EditRpki(e, rs)
  {
    hide WellTyped, Find, Store, RpkiField;
    if e.UnsetRpki? {
      r := Retain(rs, RpkiOf, e.addr);
      return r, |r| != |rs|;
    }
    if e.SetRpki? {
      var empty := EmptyRpkiCache(e.addr);
      var ys, at := FindOrInsert(rs, RpkiOf, empty);
      var c := if e.field.Some? then WithField(ys[at], e.field.value) else ys[at];
      StoreInserted(rs, RpkiOf, empty, ys, at, c);
      return ys[at := c], e.field.Some?;
    }
    var at := Position(rs, RpkiOf, e.addr);
    if at == |rs| {
      return rs, false;
    }
    var c := WithoutField(rs[at], e.rpkiKey);
    StoreAt(rs, RpkiOf, at, c);
    r, ok := rs[at := c], RpkiField(rs[at], e.rpkiKey).Some?;
  }

  // ----- the candidate -----

  class Candidate {
    var services: seq<Body>

    constructor (root: Root)
      ensures services == root.services
    {
      services := root.services;
    }

    // `bgp_body_mut`.
    method BodyMut() returns (b: Body)
      modifies this
      ensures services == (if old(services) == [] then [EMPTY_BODY] else old(services)) && b == services[0]
    {
      if services == [] {
        services := [EMPTY_BODY];
      }
      b := services[0];
    }

    // One command, in place.
    method Perform(e: Edit) returns (ok: bool)
      modifies this
      ensures (Root(services), ok) == Apply(e, Root(old(services)))
    {
      hide EditSettings, EditPeers, EditPolicies, EditPrefixLists, EditBmp, EditRpki, WellTyped;
      if BadFamily(e) || e.UnsetBgpLsSetting? {
        return false;
      }
      var b := BodyMut();
      if TopEdit(e) {
        var x, done := EditSettingsLoop(e, b.settings);
        b, ok := b.(settings := x), done;
      } else if PeerEdit(e) {
        var x, done := EditPeersLoop(e, b.peers);
        b, ok := b.(peers := x), done;
      } else if PolicyEdit(e) {
        var x, done := EditPoliciesLoop(e, b.policies);
        b, ok := b.(policies := x), done;
      } else if PrefixEdit(e) {
        var x, done := EditPrefixListsLoop(e, b.prefixLists);
        b, ok := b.(prefixLists := x), done;
      } else if BmpEdit(e) {
        var x, done := EditBmpLoop(e, b.bmpServers);
        b, ok := b.(bmpServers := x), done;
      } else if RpkiEdit(e) {
        var x, done := EditRpkiLoop(e, b.rpkiCaches);
        b, ok := b.(rpkiCaches := x), done;
      } else if BgpLsEdit(e) {
        var (x, done) := EditBgpLs(e, b.bgpLs);
        b, ok := b.(bgpLs := x), done;
      } else {
        var (x, done) := EditTelemetry(e, b.telemetry);
        b, ok := b.(telemetry := x), done;
      }
      services := services[0 := b];
    }
  }
}
