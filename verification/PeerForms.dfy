// Rendering a peer and lowering it again (conf/src/bgp.rs): nothing is lost by dropping
// defaults, and family entries come back one to one.
module PeerForms {
  import opened Ast
  import opened Lowering
  import opened Wrappers

  // ----- settings -----

  lemma {:induction false} SettingsConcat(c: PeerConfig, a: seq<Setting>, b: seq<Setting>)
    ensures ApplyPeerSettings(c, a + b) == ApplyPeerSettings(ApplyPeerSettings(c, a), b)
    decreases a
  {
    if a == [] {
      assert a + b == b;
    } else {
      assert (a + b)[1..] == a[1..] + b;
      SettingsConcat(ApplyPeerSetting(c, a[0]), a[1..], b);
    }
  }

  // At most one setting in front of the others.
  lemma {:induction false} SettingStep(c: PeerConfig, l: seq<Setting>, rest: seq<Setting>)
    requires |l| <= 1
    ensures ApplyPeerSettings(c, l + rest) ==
            ApplyPeerSettings(if l == [] then c else ApplyPeerSetting(c, l[0]), rest)
  {
    if l == [] {
      assert l + rest == rest;
    } else {
      assert (l + rest)[1..] == rest;
    }
  }

  lemma {:induction false} NoSettings(c: PeerConfig)
    ensures ApplyPeerSettings(c, []) == c
  {
  }

  lemma {:induction false} RemoteAsStep(c: PeerConfig, p: PeerConfig, l: seq<Setting>, rest: seq<Setting>)
    requires p.asn.None?
    requires l == When(c.asn.Some?, Setting.RemoteAs(c.asn.GetOr(0)))
    ensures ApplyPeerSettings(p, l + rest) == ApplyPeerSettings(p.(asn := c.asn), rest)
  {
    SettingStep(p, l, rest);
  }

  lemma {:induction false} PortStep(c: PeerConfig, p: PeerConfig, l: seq<Setting>, rest: seq<Setting>)
    requires p.port == DEFAULT_PORT
    requires l == When(c.port != DEFAULT_PORT, Setting.Port(c.port))
    ensures ApplyPeerSettings(p, l + rest) == ApplyPeerSettings(p.(port := c.port), rest)
  {
    SettingStep(p, l, rest);
  }

  lemma {:induction false} InterfaceStep(c: PeerConfig, p: PeerConfig, l: seq<Setting>, rest: seq<Setting>)
    requires p.interface_.None?
    requires l == When(c.interface_.Some?, Setting.Interface(c.interface_.GetOr("")))
    ensures ApplyPeerSettings(p, l + rest) == ApplyPeerSettings(p.(interface_ := c.interface_), rest)
  {
    SettingStep(p, l, rest);
  }

  lemma {:induction false} Md5KeyFileStep(c: PeerConfig, p: PeerConfig, l: seq<Setting>, rest: seq<Setting>)
    requires p.md5KeyFile.None?
    requires l == When(c.md5KeyFile.Some?, Setting.Md5KeyFile(c.md5KeyFile.GetOr("")))
    ensures ApplyPeerSettings(p, l + rest) == ApplyPeerSettings(p.(md5KeyFile := c.md5KeyFile), rest)
  {
    SettingStep(p, l, rest);
  }

  lemma {:induction false} TtlMinStep(c: PeerConfig, p: PeerConfig, l: seq<Setting>, rest: seq<Setting>)
    requires p.ttlMin.None?
    requires l == When(c.ttlMin.Some?, Setting.TtlMin(c.ttlMin.GetOr(0)))
    ensures ApplyPeerSettings(p, l + rest) == ApplyPeerSettings(p.(ttlMin := c.ttlMin), rest)
  {
    SettingStep(p, l, rest);
  }

  lemma {:induction false} IdentityApplies(c: PeerConfig, p: PeerConfig)
    requires p.asn.None? && p.port == DEFAULT_PORT && p.interface_.None? && p.md5KeyFile.None? && p.ttlMin.None?
    ensures ApplyPeerSettings(p, IdentitySettings(c)) ==
            p.(asn := c.asn).(port := c.port).(interface_ := c.interface_).(md5KeyFile := c.md5KeyFile)
             .(ttlMin := c.ttlMin)
  {
    hide ApplyPeerSettings, ApplyPeerSetting, When;
    var l4 := When(c.ttlMin.Some?, Setting.TtlMin(c.ttlMin.GetOr(0)));
    var l3 := When(c.md5KeyFile.Some?, Setting.Md5KeyFile(c.md5KeyFile.GetOr("")));
    var l2 := When(c.interface_.Some?, Setting.Interface(c.interface_.GetOr("")));
    var l1 := When(c.port != DEFAULT_PORT, Setting.Port(c.port));
    var l0 := When(c.asn.Some?, Setting.RemoteAs(c.asn.GetOr(0)));
    RemoteAsStep(c, p, l0, l1 + (l2 + (l3 + l4)));
    var p1 := p.(asn := c.asn);
    PortStep(c, p1, l1, l2 + (l3 + l4));
    var p2 := p1.(port := c.port);
    InterfaceStep(c, p2, l2, l3 + l4);
    var p3 := p2.(interface_ := c.interface_);
    Md5KeyFileStep(c, p3, l3, l4);
    var p4 := p3.(md5KeyFile := c.md5KeyFile);
    TtlMinStep(c, p4, l4, []);
    var p5 := p4.(ttlMin := c.ttlMin);
    assert l4 + [] == l4;
    NoSettings(p5);
  }

  lemma {:induction false} NextHopSelfStep(c: PeerConfig, p: PeerConfig, l: seq<Setting>, rest: seq<Setting>)
    requires !p.nextHopSelf
    requires l == When(c.nextHopSelf, Setting.NextHopSelf(true))
    ensures ApplyPeerSettings(p, l + rest) == ApplyPeerSettings(p.(nextHopSelf := c.nextHopSelf), rest)
  {
    SettingStep(p, l, rest);
  }

  lemma {:induction false} PassiveStep(c: PeerConfig, p: PeerConfig, l: seq<Setting>, rest: seq<Setting>)
    requires !p.passiveMode
    requires l == When(c.passiveMode, Setting.Passive(true))
    ensures ApplyPeerSettings(p, l + rest) == ApplyPeerSettings(p.(passiveMode := c.passiveMode), rest)
  {
    SettingStep(p, l, rest);
  }

  lemma {:induction false} RrClientStep(c: PeerConfig, p: PeerConfig, l: seq<Setting>, rest: seq<Setting>)
    requires !p.rrClient
    requires l == When(c.rrClient, Setting.RrClient(true))
    ensures ApplyPeerSettings(p, l + rest) == ApplyPeerSettings(p.(rrClient := c.rrClient), rest)
  {
    SettingStep(p, l, rest);
  }

  lemma {:induction false} RsClientStep(c: PeerConfig, p: PeerConfig, l: seq<Setting>, rest: seq<Setting>)
    requires !p.rsClient
    requires l == When(c.rsClient, Setting.RsClient(true))
    ensures ApplyPeerSettings(p, l + rest) == ApplyPeerSettings(p.(rsClient := c.rsClient), rest)
  {
    SettingStep(p, l, rest);
  }

  lemma {:induction false} GracefulShutdownStep(c: PeerConfig, p: PeerConfig, l: seq<Setting>, rest: seq<Setting>)
    requires !p.gracefulShutdown
    requires l == When(c.gracefulShutdown, Setting.GracefulShutdown(true))
    ensures ApplyPeerSettings(p, l + rest) == ApplyPeerSettings(p.(gracefulShutdown := c.gracefulShutdown), rest)
  {
    SettingStep(p, l, rest);
  }

  lemma {:induction false} RoleApplies(c: PeerConfig, p: PeerConfig)
    requires !p.nextHopSelf && !p.passiveMode && !p.rrClient && !p.rsClient && !p.gracefulShutdown
    ensures ApplyPeerSettings(p, RoleSettings(c)) ==
            p.(nextHopSelf := c.nextHopSelf).(passiveMode := c.passiveMode).(rrClient := c.rrClient)
             .(rsClient := c.rsClient).(gracefulShutdown := c.gracefulShutdown)
  {
    hide ApplyPeerSettings, ApplyPeerSetting, When;
    var l4 := When(c.gracefulShutdown, Setting.GracefulShutdown(true));
    var l3 := When(c.rsClient, Setting.RsClient(true));
    var l2 := When(c.rrClient, Setting.RrClient(true));
    var l1 := When(c.passiveMode, Setting.Passive(true));
    var l0 := When(c.nextHopSelf, Setting.NextHopSelf(true));
    NextHopSelfStep(c, p, l0, l1 + (l2 + (l3 + l4)));
    var p1 := p.(nextHopSelf := c.nextHopSelf);
    PassiveStep(c, p1, l1, l2 + (l3 + l4));
    var p2 := p1.(passiveMode := c.passiveMode);
    RrClientStep(c, p2, l2, l3 + l4);
    var p3 := p2.(rrClient := c.rrClient);
    RsClientStep(c, p3, l3, l4);
    var p4 := p3.(rsClient := c.rsClient);
    GracefulShutdownStep(c, p4, l4, []);
    var p5 := p4.(gracefulShutdown := c.gracefulShutdown);
    assert l4 + [] == l4;
    NoSettings(p5);
  }

  lemma {:induction false} DelayOpenTimeSecsStep(c: PeerConfig, p: PeerConfig, l: seq<Setting>, rest: seq<Setting>)
    requires p.delayOpenTimeSecs.None?
    requires l == When(c.delayOpenTimeSecs.Some?, Setting.DelayOpenTimeSecs(c.delayOpenTimeSecs.GetOr(0)))
    ensures ApplyPeerSettings(p, l + rest) == ApplyPeerSettings(p.(delayOpenTimeSecs := c.delayOpenTimeSecs), rest)
  {
    SettingStep(p, l, rest);
  }

  lemma {:induction false} IdleHoldTimeSecsStep(c: PeerConfig, p: PeerConfig, l: seq<Setting>, rest: seq<Setting>)
    requires p.idleHoldTimeSecs == Some(DEFAULT_IDLE_HOLD)
    requires l == When(c.idleHoldTimeSecs != Some(DEFAULT_IDLE_HOLD) && c.idleHoldTimeSecs.Some?,
                       Setting.IdleHoldTimeSecs(c.idleHoldTimeSecs.GetOr(0)))
    ensures ApplyPeerSettings(p, l + rest) ==
            ApplyPeerSettings(p.(idleHoldTimeSecs := Some(c.idleHoldTimeSecs.GetOr(DEFAULT_IDLE_HOLD))), rest)
  {
    SettingStep(p, l, rest);
  }

  lemma {:induction false} DampPeerOscillationsStep(c: PeerConfig, p: PeerConfig, l: seq<Setting>, rest: seq<Setting>)
    requires p.dampPeerOscillations
    requires l == When(!c.dampPeerOscillations, Setting.DampPeerOscillations(c.dampPeerOscillations))
    ensures ApplyPeerSettings(p, l + rest) ==
            ApplyPeerSettings(p.(dampPeerOscillations := c.dampPeerOscillations), rest)
  {
    SettingStep(p, l, rest);
  }

  lemma {:induction false} AllowAutomaticStopStep(c: PeerConfig, p: PeerConfig, l: seq<Setting>, rest: seq<Setting>)
    requires p.allowAutomaticStop
    requires l == When(!c.allowAutomaticStop, Setting.AllowAutomaticStop(c.allowAutomaticStop))
    ensures ApplyPeerSettings(p, l + rest) == ApplyPeerSettings(p.(allowAutomaticStop := c.allowAutomaticStop), rest)
  {
    SettingStep(p, l, rest);
  }

  lemma {:induction false} SessionApplies(c: PeerConfig, p: PeerConfig)
    requires p.delayOpenTimeSecs.None? && p.idleHoldTimeSecs == Some(DEFAULT_IDLE_HOLD) && p.dampPeerOscillations
    requires p.allowAutomaticStop
    ensures ApplyPeerSettings(p, SessionSettings(c)) ==
            p.(delayOpenTimeSecs := c.delayOpenTimeSecs)
             .(idleHoldTimeSecs := Some(c.idleHoldTimeSecs.GetOr(DEFAULT_IDLE_HOLD)))
             .(dampPeerOscillations := c.dampPeerOscillations).(allowAutomaticStop := c.allowAutomaticStop)
  {
    hide ApplyPeerSettings, ApplyPeerSetting, When;
    var l3 := When(!c.allowAutomaticStop, Setting.AllowAutomaticStop(c.allowAutomaticStop));
    var l2 := When(!c.dampPeerOscillations, Setting.DampPeerOscillations(c.dampPeerOscillations));
    var l1 := When(c.idleHoldTimeSecs != Some(DEFAULT_IDLE_HOLD) && c.idleHoldTimeSecs.Some?,
                   Setting.IdleHoldTimeSecs(c.idleHoldTimeSecs.GetOr(0)));
    var l0 := When(c.delayOpenTimeSecs.Some?, Setting.DelayOpenTimeSecs(c.delayOpenTimeSecs.GetOr(0)));
    DelayOpenTimeSecsStep(c, p, l0, l1 + (l2 + l3));
    var p1 := p.(delayOpenTimeSecs := c.delayOpenTimeSecs);
    IdleHoldTimeSecsStep(c, p1, l1, l2 + l3);
    var p2 := p1.(idleHoldTimeSecs := Some(c.idleHoldTimeSecs.GetOr(DEFAULT_IDLE_HOLD)));
    DampPeerOscillationsStep(c, p2, l2, l3);
    var p3 := p2.(dampPeerOscillations := c.dampPeerOscillations);
    AllowAutomaticStopStep(c, p3, l3, []);
    var p4 := p3.(allowAutomaticStop := c.allowAutomaticStop);
    assert l3 + [] == l3;
    NoSettings(p4);
  }

  lemma {:induction false} SendNotificationWithoutOpenStep(c: PeerConfig, p: PeerConfig, l: seq<Setting>,
      rest: seq<Setting>)
    requires !p.sendNotificationWithoutOpen
    requires l == When(c.sendNotificationWithoutOpen, Setting.SendNotificationWithoutOpen(true))
    ensures ApplyPeerSettings(p, l + rest) ==
            ApplyPeerSettings(p.(sendNotificationWithoutOpen := c.sendNotificationWithoutOpen), rest)
  {
    SettingStep(p, l, rest);
  }

  lemma {:induction false} MinRouteAdvertisementIntervalSecsStep(c: PeerConfig, p: PeerConfig, l: seq<Setting>,
      rest: seq<Setting>)
    requires p.minRouteAdvertisementIntervalSecs.None?
    requires l == When(c.minRouteAdvertisementIntervalSecs.Some?,
                       Setting.MinRouteAdvertisementIntervalSecs(c.minRouteAdvertisementIntervalSecs.GetOr(0)))
    ensures ApplyPeerSettings(p, l + rest) ==
            ApplyPeerSettings(p.(minRouteAdvertisementIntervalSecs := c.minRouteAdvertisementIntervalSecs), rest)
  {
    SettingStep(p, l, rest);
  }

  lemma {:induction false} EnforceFirstAsStep(c: PeerConfig, p: PeerConfig, l: seq<Setting>, rest: seq<Setting>)
    requires p.enforceFirstAs
    requires l == When(!c.enforceFirstAs, Setting.EnforceFirstAs(c.enforceFirstAs))
    ensures ApplyPeerSettings(p, l + rest) == ApplyPeerSettings(p.(enforceFirstAs := c.enforceFirstAs), rest)
  {
    SettingStep(p, l, rest);
  }

  lemma {:induction false} SendRpkiCommunityStep(c: PeerConfig, p: PeerConfig, l: seq<Setting>, rest: seq<Setting>)
    requires !p.sendRpkiCommunity
    requires l == When(c.sendRpkiCommunity, Setting.SendRpkiCommunity(true))
    ensures ApplyPeerSettings(p, l + rest) == ApplyPeerSettings(p.(sendRpkiCommunity := c.sendRpkiCommunity), rest)
  {
    SettingStep(p, l, rest);
  }

  lemma {:induction false} AdminDownStep(c: PeerConfig, p: PeerConfig, l: seq<Setting>, rest: seq<Setting>)
    requires !p.adminDown
    requires l == When(c.adminDown, Setting.AdminDown(true))
    ensures ApplyPeerSettings(p, l + rest) == ApplyPeerSettings(p.(adminDown := c.adminDown), rest)
  {
    SettingStep(p, l, rest);
  }

  lemma {:induction false} UpdateApplies(c: PeerConfig, p: PeerConfig)
    requires !p.sendNotificationWithoutOpen && p.minRouteAdvertisementIntervalSecs.None? && p.enforceFirstAs
    requires !p.sendRpkiCommunity && !p.adminDown
    ensures ApplyPeerSettings(p, UpdateSettings(c)) ==
            p.(sendNotificationWithoutOpen := c.sendNotificationWithoutOpen)
             .(minRouteAdvertisementIntervalSecs := c.minRouteAdvertisementIntervalSecs)
             .(enforceFirstAs := c.enforceFirstAs).(sendRpkiCommunity := c.sendRpkiCommunity)
             .(adminDown := c.adminDown)
  {
    hide ApplyPeerSettings, ApplyPeerSetting, When;
    var l4 := When(c.adminDown, Setting.AdminDown(true));
    var l3 := When(c.sendRpkiCommunity, Setting.SendRpkiCommunity(true));
    var l2 := When(!c.enforceFirstAs, Setting.EnforceFirstAs(c.enforceFirstAs));
    var l1 := When(c.minRouteAdvertisementIntervalSecs.Some?,
                   Setting.MinRouteAdvertisementIntervalSecs(c.minRouteAdvertisementIntervalSecs.GetOr(0)));
    var l0 := When(c.sendNotificationWithoutOpen, Setting.SendNotificationWithoutOpen(true));
    SendNotificationWithoutOpenStep(c, p, l0, l1 + (l2 + (l3 + l4)));
    var p1 := p.(sendNotificationWithoutOpen := c.sendNotificationWithoutOpen);
    MinRouteAdvertisementIntervalSecsStep(c, p1, l1, l2 + (l3 + l4));
    var p2 := p1.(minRouteAdvertisementIntervalSecs := c.minRouteAdvertisementIntervalSecs);
    EnforceFirstAsStep(c, p2, l2, l3 + l4);
    var p3 := p2.(enforceFirstAs := c.enforceFirstAs);
    SendRpkiCommunityStep(c, p3, l3, l4);
    var p4 := p3.(sendRpkiCommunity := c.sendRpkiCommunity);
    AdminDownStep(c, p4, l4, []);
    var p5 := p4.(adminDown := c.adminDown);
    assert l4 + [] == l4;
    NoSettings(p5);
  }

  // Dropping defaults loses nothing but an unset idle hold time.
  lemma SettingsBack(c: PeerConfig)
    ensures ApplyPeerSettings(DefaultPeer(c.address), PeerSettings(c)) ==
            c.(afiSafis := [], idleHoldTimeSecs := Some(c.idleHoldTimeSecs.GetOr(DEFAULT_IDLE_HOLD)))
  {
    hide ApplyPeerSettings, IdentitySettings, RoleSettings, SessionSettings, UpdateSettings;
    var p0 := DefaultPeer(c.address);
    SettingsConcat(p0, IdentitySettings(c), RoleSettings(c) + (SessionSettings(c) + UpdateSettings(c)));
    IdentityApplies(c, p0);
    var p1 := ApplyPeerSettings(p0, IdentitySettings(c));
    SettingsConcat(p1, RoleSettings(c), SessionSettings(c) + UpdateSettings(c));
    RoleApplies(c, p1);
    var p2 := ApplyPeerSettings(p1, RoleSettings(c));
    SettingsConcat(p2, SessionSettings(c), UpdateSettings(c));
    SessionApplies(c, p2);
    UpdateApplies(c, ApplyPeerSettings(p2, SessionSettings(c)));
  }

  // Settings never touch the address or the families, nor unset the idle hold time.
  lemma {:induction false} SettingKeeps(c: PeerConfig, s: Setting)
    ensures var r := ApplyPeerSetting(c, s);
      r.address == c.address && r.afiSafis == c.afiSafis && (c.idleHoldTimeSecs.Some? ==> r.idleHoldTimeSecs.Some?)
  {
  }

  lemma {:induction false} SettingsKeep(c: PeerConfig, ss: seq<Setting>)
    ensures var r := ApplyPeerSettings(c, ss);
      r.address == c.address && r.afiSafis == c.afiSafis && (c.idleHoldTimeSecs.Some? ==> r.idleHoldTimeSecs.Some?)
    decreases ss
  {
    hide ApplyPeerSetting;
    if ss != [] {
      SettingKeeps(c, ss[0]);
      SettingsKeep(ApplyPeerSetting(c, ss[0]), ss[1..]);
    }
  }

  // ----- families -----

  predicate Distinct(es: seq<AfiSafiConfig>) {
    forall i, j | 0 <= i < j < |es| :: !(es[i].afi == es[j].afi && es[i].safi == es[j].safi)
  }

  predicate AllSet(es: seq<AfiSafiConfig>) {
    forall e | e in es :: HasAnything(e)
  }

  lemma {:induction false} DirectivesConcat(e: AfiSafiConfig, a: seq<FamilyDirective>, b: seq<FamilyDirective>)
    ensures ApplyDirectives(e, a + b) == ApplyDirectives(ApplyDirectives(e, a), b)
    decreases a
  {
    if a == [] {
      assert a + b == b;
    } else {
      assert (a + b)[1..] == a[1..] + b;
      DirectivesConcat(ApplyDirective(e, a[0]), a[1..], b);
    }
  }

  lemma {:induction false} ImportsApply(e: AfiSafiConfig, names: seq<string>)
    ensures ApplyDirectives(e, Imports(names)) == e.(importPolicy := e.importPolicy + names)
    decreases names
  {
    if names == [] {
      assert e.importPolicy + names == e.importPolicy;
    } else {
      ImportsApply(ApplyDirective(e, ImportPolicy(names[0])), names[1..]);
      assert e.importPolicy + [names[0]] + names[1..] == e.importPolicy + names;
      assert Imports(names)[1..] == Imports(names[1..]);
    }
  }

  lemma {:induction false} ExportsApply(e: AfiSafiConfig, names: seq<string>)
    ensures ApplyDirectives(e, Exports(names)) == e.(exportPolicy := e.exportPolicy + names)
    decreases names
  {
    if names == [] {
      assert e.exportPolicy + names == e.exportPolicy;
    } else {
      ExportsApply(ApplyDirective(e, ExportPolicy(names[0])), names[1..]);
      assert e.exportPolicy + [names[0]] + names[1..] == e.exportPolicy + names;
      assert Exports(names)[1..] == Exports(names[1..]);
    }
  }

  lemma DirectivesBack(e: AfiSafiConfig)
    ensures ApplyDirectives(NewEntry(e.afi, e.safi), EntryDirectives(e)) == e
  {
    var e0 := NewEntry(e.afi, e.safi);
    var l0 := if e.maxPrefix.Some? then [FamilyDirective.MaxPrefix(e.maxPrefix.value.limit, e.maxPrefix.value.action)]
              else [];
    var l1 := if e.addPathSend.Some? then [AddPath(e.addPathSend.value)] else [];
    var names := Imports(e.importPolicy) + Exports(e.exportPolicy);
    DirectivesConcat(e0, l0, l1 + names);
    var e1 := e0.(maxPrefix := e.maxPrefix);
    assert ApplyDirectives(e0, l0) == e1;
    DirectivesConcat(e1, l1, names);
    var e2 := e1.(addPathSend := e.addPathSend);
    assert ApplyDirectives(e1, l1) == e2;
    DirectivesConcat(e2, Imports(e.importPolicy), Exports(e.exportPolicy));
    ImportsApply(e2, e.importPolicy);
    ExportsApply(e2.(importPolicy := [] + e.importPolicy), e.exportPolicy);
    assert [] + e.importPolicy == e.importPolicy && [] + e.exportPolicy == e.exportPolicy;
  }

  // Directives keep the key of an entry, and leave it with at least one directive.
  lemma {:induction false} DirectivesKeep(e: AfiSafiConfig, ds: seq<FamilyDirective>)
    ensures var r := ApplyDirectives(e, ds);
      r.afi == e.afi && r.safi == e.safi && (HasAnything(e) || ds != [] ==> HasAnything(r))
    decreases ds
  {
    if ds != [] {
      DirectivesKeep(ApplyDirective(e, ds[0]), ds[1..]);
    }
  }

  lemma {:induction false} FamiliesBack(done: seq<AfiSafiConfig>, es: seq<AfiSafiConfig>)
    requires Distinct(done + es) && AllSet(es)
    ensures ApplyFamilies(done, Families(es)) == done + es
    decreases es
  {
    if es == [] {
      assert done + es == done;
    } else {
      var e, next := es[0], done + [es[0]];
      assert next + es[1..] == done + es;
      assert (done + es)[|done|] == e && forall i | 0 <= i < |done| :: (done + es)[i] == done[i];
      DirectivesBack(e);
      assert ApplyFamily(done, FamilyBlock(e.afi, e.safi, EntryDirectives(e))) == next;
      FamiliesBack(next, es[1..]);
      assert Families(es)[1..] == Families(es[1..]);
    }
  }

  // Lowering keeps one entry per family; with no empty family block, no entry is empty.
  lemma {:induction false} FamiliesInvariant(es: seq<AfiSafiConfig>, fs: seq<FamilyBlock>)
    requires Distinct(es)
    ensures Distinct(ApplyFamilies(es, fs))
    ensures AllSet(es) && (forall f | f in fs :: f.directives != []) ==> AllSet(ApplyFamilies(es, fs))
    decreases fs
  {
    if fs != [] {
      var f := fs[0];
      var i := EntryIndex(es, f.afi, f.safi);
      DirectivesKeep(if i < |es| then es[i] else NewEntry(f.afi, f.safi), f.directives);
      FamiliesInvariant(ApplyFamily(es, f), fs[1..]);
    }
  }

  lemma {:induction false} FamiliesHaveDirectives(es: seq<AfiSafiConfig>)
    ensures forall f | f in Families(es) :: f.directives != []
  {
    if es != [] {
      FamiliesHaveDirectives(es[1..]);
      var e := es[0];
      if HasAnything(e) {
        assert e.importPolicy != [] ==> Imports(e.importPolicy) != [];
        assert e.exportPolicy != [] ==> Exports(e.exportPolicy) != [];
      }
    }
  }

  // A peer survives rendering and lowering exactly when its idle hold time is set, no family
  // is listed twice and every family entry says something.
  predicate PeerExpressible(c: PeerConfig) {
    c.idleHoldTimeSecs.Some? && Distinct(c.afiSafis) && AllSet(c.afiSafis)
  }

  lemma {:induction false} PeerFixedPoint(c: PeerConfig)
    ensures LowerPeer(RenderPeer(c)) == c <==> PeerExpressible(c)
  {
    hide ApplyPeerSettings, PeerSettings, ApplyFamilies, Families;
    SettingsBack(c);
    FamiliesInvariant([], Families(c.afiSafis));
    FamiliesHaveDirectives(c.afiSafis);
    if Distinct(c.afiSafis) && AllSet(c.afiSafis) {
      assert [] + c.afiSafis == c.afiSafis;
      FamiliesBack([], c.afiSafis);
    }
  }

  // Every lowered peer is expressible as soon as its family entries all say something.
  lemma LoweredPeer(p: PeerBlock)
    ensures LowerPeer(p).address == p.address
    ensures PeerExpressible(LowerPeer(p)) <==> AllSet(LowerPeer(p).afiSafis)
    ensures (forall f | f in p.families :: f.directives != []) ==> PeerExpressible(LowerPeer(p))
  {
    SettingsKeep(DefaultPeer(p.address), p.settings);
    FamiliesInvariant([], p.families);
  }
}
