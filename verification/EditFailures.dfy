// What a failing command leaves behind (ggsh/src/cmd_configure.rs): the blocks that the
// find-or-insert helpers had already added.
module EditFailures {
  import opened Ast
  import opened EditMap
  import opened EditRuns
  import opened Edits
  import opened Keyed
  import opened Wrappers

  lemma FailingTop(e: Edit, ss: seq<Setting>)
    requires TopEdit(e) && !EditSettings(e, ss).1
    ensures EditSettings(e, ss).0 == ss
  {
    hide KeyOf, Find;
    match e {
      case UnsetTop(k) => WithoutAbsent(ss, KeyOf, TopS(k));
      case UnsetOriginate(p) => WithoutAbsent(ss, KeyOf, OriginateS(p));
      case _ =>
    }
  }

  lemma FailingPeers(e: Edit, ps: seq<PeerBlock>)
    requires PeerEdit(e) && !BadFamily(e) && !EditPeers(e, ps).1
    ensures EditPeers(e, ps).0 == ps <==> IsUnset(e) || Find(ps, PeerOf, e.addr).Some?
  {
    hide WellTyped, KeyOf, Find, Store, Without;
    FindKey(ps, PeerOf, e.addr);
    match e {
      case SetPeer(_, addr, _) => StoreSame(ps, PeerOf, PeerAt(ps, addr));
      case UnsetPeer(addr) => WithoutAbsent(ps, PeerOf, addr);
      case _ => FailingPeerPart(e, ps);
    }
  }

  lemma FailingPeerPart(e: Edit, ps: seq<PeerBlock>)
    requires (e.UnsetPeerSetting? || e.UnsetFamily? || e.UnsetDirective?) && !BadFamily(e) && !EditPeers(e, ps).1
    ensures EditPeers(e, ps).0 == ps
  {
    hide WellTyped, KeyOf, Find, Store, Without;
    FindKey(ps, PeerOf, e.addr);
    var found := Find(ps, PeerOf, e.addr);
    if found.Some? {
      var p := found.value;
      StoreSame(ps, PeerOf, p);
      match e {
        case UnsetPeerSetting(k, _) => WithoutAbsent(p.settings, KeyOf, PeerS(k));
        case UnsetFamily(_, f) => WithoutAbsent(p.families, FamilyOf, f.value);
        case UnsetDirective(d, _, f) =>
          var family := Find(p.families, FamilyOf, f.value);
          FindKey(p.families, FamilyOf, f.value);
          if family.Some? {
            WithoutAbsent(family.value.directives, DirectiveOf, DirectionKey(d));
            StoreSame(p.families, FamilyOf, family.value);
          }
      }
    }
  }

  lemma FailingPolicies(e: Edit, ps: seq<PolicyBlock>)
    requires PolicyEdit(e) && !EditPolicies(e, ps).1
    ensures EditPolicies(e, ps).0 == ps
  {
    WithoutAbsent(ps, PolicyOf, e.name);
  }

  lemma FailingPrefixLists(e: Edit, ps: seq<PrefixListBlock>)
    requires PrefixEdit(e) && !EditPrefixLists(e, ps).1
    ensures EditPrefixLists(e, ps).0 == ps
  {
    hide Find, Store, Without;
    WithoutAbsent(ps, PrefixListOf, e.name);
    FindKey(ps, PrefixListOf, e.name);
    var p := Find(ps, PrefixListOf, e.name);
    if e.UnsetEntry? && p.Some? {
      WithoutAbsent(p.value.prefixes, EntryOf, e.prefix);
      StoreSame(ps, PrefixListOf, p.value);
    }
  }

  lemma FailingBmp(e: Edit, bs: seq<BmpServerBlock>)
    requires BmpEdit(e) && !EditBmp(e, bs).1
    ensures EditBmp(e, bs).0 == bs <==> IsUnset(e) || Find(bs, BmpOf, e.addr).Some?
  {
    hide WellTyped, Find, Store, Without;
    WithoutAbsent(bs, BmpOf, e.addr);
    FindKey(bs, BmpOf, e.addr);
    StoreSame(bs, BmpOf, BmpAt(bs, e.addr));
  }

  lemma FailingRpki(e: Edit, rs: seq<RpkiCacheBlock>)
    requires RpkiEdit(e) && !EditRpki(e, rs).1
    ensures EditRpki(e, rs).0 == rs <==> IsUnset(e) || Find(rs, RpkiOf, e.addr).Some?
  {
    hide WellTyped, Find, Store, Without;
    WithoutAbsent(rs, RpkiOf, e.addr);
    FindKey(rs, RpkiOf, e.addr);
    StoreSame(rs, RpkiOf, RpkiAt(rs, e.addr));
  }

  lemma FailingTelemetry(e: Edit, t: Option<TelemetryBlock>)
    requires TelemetryEdit(e) && !EditTelemetry(e, t).1
    ensures EditTelemetry(e, t).0 == t <==> IsUnset(e) || t.Some?
  {
    hide WellTyped;
  }

  // The body changes exactly when its section does.
  lemma SectionSame(e: Edit, b: Body)
    requires !BadFamily(e)
    ensures var same := EditBody(e, b).0 == b;
      && (TopEdit(e) ==> (same <==> EditSettings(e, b.settings).0 == b.settings))
      && (PeerEdit(e) ==> (same <==> EditPeers(e, b.peers).0 == b.peers))
      && (PolicyEdit(e) ==> (same <==> EditPolicies(e, b.policies).0 == b.policies))
      && (PrefixEdit(e) ==> (same <==> EditPrefixLists(e, b.prefixLists).0 == b.prefixLists))
      && (BmpEdit(e) ==> (same <==> EditBmp(e, b.bmpServers).0 == b.bmpServers))
      && (RpkiEdit(e) ==> (same <==> EditRpki(e, b.rpkiCaches).0 == b.rpkiCaches))
      && (BgpLsEdit(e) ==> (same <==> EditBgpLs(e, b.bgpLs).0 == b.bgpLs))
      && (TelemetryEdit(e) ==> (same <==> EditTelemetry(e, b.telemetry).0 == b.telemetry))
  {
    hide WellTyped, EditSettings, EditPeers, EditPolicies, EditPrefixLists, EditBmp, EditRpki, EditBgpLs, EditTelemetry,
      BadFamily;
    SectionEdit(e);
  }

  lemma FailingBody(e: Edit, b: Body)
    requires !BadFamily(e) && !e.UnsetBgpLsSetting? && !EditBody(e, b).1
    ensures EditBody(e, b).0 == b <==> IsUnset(e) || GetBody(b, Opened(e)).Some?
  {
    hide WellTyped, EditBody, EditSettings, EditPeers, EditPolicies, EditPrefixLists, EditBmp, EditRpki, EditTelemetry,
      Find, BadFamily, TelemetryEdit;
    SectionEdit(e);
    EditedPart(e, b);
    SectionSame(e, b);
    if TopEdit(e) { FailingTop(e, b.settings); }
    if PeerEdit(e) { FailingPeers(e, b.peers); FailingFamily(e, b.peers); }
    if PolicyEdit(e) { FailingPolicies(e, b.policies); }
    if PrefixEdit(e) { FailingPrefixLists(e, b.prefixLists); }
    if BmpEdit(e) { FailingBmp(e, b.bmpServers); }
    if RpkiEdit(e) { FailingRpki(e, b.rpkiCaches); }
    if TelemetryEdit(e) { FailingTelemetry(e, b.telemetry); AlwaysPrometheus(e, b.telemetry); }
  }

  lemma FailingFamily(e: Edit, ps: seq<PeerBlock>)
    requires PeerEdit(e) && !BadFamily(e) && !EditPeers(e, ps).1
    ensures !e.SetFamily?
  {
  }

  lemma AlwaysPrometheus(e: Edit, t: Option<TelemetryBlock>)
    requires TelemetryEdit(e) && !EditTelemetry(e, t).1
    ensures !e.SetPrometheus? && !e.SetListen?
  {
  }

  // A failing command changes nothing exactly when what it opens was there: the service for
  // `unset`, the block it would have written into for `set`.
  lemma FailingEdit(e: Edit, root: Root)
    requires !Apply(e, root).1
    ensures Apply(e, root).0 == root <==>
            BadFamily(e) || e.UnsetBgpLsSetting? || Get(root, if IsUnset(e) then ServicePath else Opened(e)).Some?
  {
    hide WellTyped, EditBody, IsUnset, BadFamily, GetBody, Opened;
    if !BadFamily(e) && !e.UnsetBgpLsSetting? {
      if root.services == [] {
        assert |Apply(e, root).0.services| == 1;
      } else {
        TargetBelow(e);
        FailingBody(e, root.services[0]);
        ServicePresent(root.services[0]);
        var s, b := root.services, EditBody(e, root.services[0]).0;
        assert s[0 := b][0] == b;
        assert b == s[0] ==> s[0 := b] == s;
      }
    }
  }

  // The familiar case: on a candidate without a service even a failing `unset` leaves one.
  lemma FailingUnsetExample()
    ensures var e: Edit := UnsetPeer("192.0.2.1");
      !Apply(e, Root([])).1 && Apply(e, Root([])).0 == Root([EMPTY_BODY])
  {
    assert Without([], PeerOf, "192.0.2.1") == [];
    assert EditBody(UnsetPeer("192.0.2.1"), EMPTY_BODY) == (EMPTY_BODY, false);
    assert [EMPTY_BODY][0 := EMPTY_BODY] == [EMPTY_BODY];
  }
}
