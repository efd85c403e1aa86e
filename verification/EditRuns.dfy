// Runs of commands: what one command does to the whole candidate, what any run does, and
// what a failing command leaves behind (ggsh/src/cmd_configure.rs).
module EditRuns {
  import opened Ast
  import opened Decimal
  import opened EditMap
  import opened Edits
  import opened Keyed
  import opened Wrappers

  // ----- effects, command by command -----

  datatype Section = RootSection | TopSection | PeerSection | PolicySection | PrefixSection | BmpSection | RpkiSection |
    BgpLsSection | TelemetrySection | WordListsSection | OtherSection

  function SectionOf(p: Path): Section {
    match p
    case ServicePath => RootSection
    case TopPath(_) => TopSection
    case PeerPath(_, _) => PeerSection
    case PolicyPath(_, _) => PolicySection
    case PrefixPath(_, _) => PrefixSection
    case BmpPath(_, _) => BmpSection
    case RpkiPath(_, _) => RpkiSection
    case BgpLsPath => BgpLsSection
    case TelemetryPath(_) => TelemetrySection
    case WordListsPath(_) => WordListsSection
    case OtherServicesPath => OtherSection
  }

  function EditSection(e: Edit): Section {
    if TopEdit(e) then TopSection else if PeerEdit(e) then PeerSection else if PolicyEdit(e) then PolicySection
    else if PrefixEdit(e) then PrefixSection else if BmpEdit(e) then BmpSection else if RpkiEdit(e) then RpkiSection
    else if BgpLsEdit(e) then BgpLsSection else TelemetrySection
  }

  lemma TargetSection(e: Edit)
    requires !BadFamily(e)
    ensures SectionOf(Target(e)) == EditSection(e)
    ensures SectionOf(Opened(e)) == RootSection || SectionOf(Opened(e)) == EditSection(e)
    ensures Rival(e).Some? ==> SectionOf(Rival(e).value) == EditSection(e)
  {
  }

  // A command leaves everything alone that is not in its section, but for the service itself.
  lemma AfterElsewhere(f: Effect, q: Path, before: Option<Value>, s: Section)
    requires f.Nothing? || SectionOf(f.path) == s || f == Touch(ServicePath)
    requires SectionOf(q) != s && s != RootSection && (q == ServicePath ==> before == Some(Present))
    ensures After(f, q, before) == before
  {
  }

  lemma EffectSection(e: Edit, target: Option<Value>, rival: Option<Value>)
    ensures var f := EffectOf(e, target, rival);
      f.Nothing? || SectionOf(f.path) == EditSection(e) || f == Touch(ServicePath)
  {
    hide Target, Opened, Written, IsUnset, BadFamily, Succeeds, SectionOf, EditSection;
    if !BadFamily(e) {
      TargetSection(e);
      OpenedService(e);
    }
  }

  lemma OpenedService(e: Edit)
    ensures SectionOf(Opened(e)) == RootSection ==> Opened(e) == ServicePath
  {
  }

  // What an `unset` means.
  lemma UnsetEffect(e: Edit, target: Option<Value>)
    requires IsUnset(e) && !BadFamily(e) && !e.UnsetBgpLsSetting?
    ensures EffectOf(e, target, None) == if target.Some? then Delete(Target(e)) else Touch(ServicePath)
    ensures Succeeds(e, target, None) == target.Some?
  {
    hide Target, Opened, Written, BadFamily, IsUnset;
  }

  // What a `set` means.
  lemma SetEffect(e: Edit, target: Option<Value>, rival: Option<Value>)
    requires !IsUnset(e) && !BadFamily(e)
    ensures Succeeds(e, target, rival) == (rival.None? && (Written(e).Some? || e.SetEntry? || e.SetPrometheus?))
    ensures EffectOf(e, target, rival) ==
            if e.SetEntry? || e.SetPrometheus? then Touch(Target(e))
            else if Succeeds(e, target, rival) then Put(Target(e), Written(e).value) else Touch(Opened(e))
  {
    hide Target, Opened, Written, BadFamily;
  }

  // ----- one command, inside its section -----

  lemma TopStep(e: Edit, ss: seq<Setting>, k: SettingKey)
    requires TopEdit(e)
    ensures var (r, ok) := EditSettings(e, ss);
      var t := GetSetting(ss, Target(e).key);
      ok == Succeeds(e, t, None) && GetSetting(r, k) == After(EffectOf(e, t, None), TopPath(k), GetSetting(ss, k))
  {
    hide WellTyped, EditSettings, Find, Written, EffectOf, Succeeds;
    var t := GetSetting(ss, Target(e).key);
    if IsUnset(e) {
      UnsetEffect(e, t);
      OtherTopRefines(e, ss, k);
    } else {
      SetEffect(e, t, None);
      if e.SetTop? {
        SetTopRefines(e, ss, k);
        SettingWritten(e);
      } else {
        OtherTopRefines(e, ss, k);
        AlwaysWritten(e);
      }
    }
  }

  lemma AlwaysWritten(e: Edit)
    requires e.SetOriginate? || e.SetFamily? || e.SetMatch? || e.SetDefault? || e.SetJson? || e.SetEmf? || e.SetListen?
    ensures Written(e).Some?
  {
  }

  lemma SettingWritten(e: Edit)
    requires e.SetTop? || e.SetPeer?
    ensures Written(e).Some? == e.setting.Some?
  {
  }

  lemma SetPeersStep(e: Edit, ps: seq<PeerBlock>, a: string, part: PeerPart)
    requires (e.SetPeer? || e.SetFamily?) && !BadFamily(e)
    ensures var (r, ok) := EditPeers(e, ps);
      var t := GetPeers(ps, e.addr, Target(e).peer);
      ok == Succeeds(e, t, None) &&
      GetPeers(r, a, part) == After(EffectOf(e, t, None), PeerPath(a, part), GetPeers(ps, a, part))
  {
    hide WellTyped, EditPeers, Find, Written, EffectOf, Succeeds, GetPeer;
    var t := GetPeers(ps, e.addr, Target(e).peer);
    SetEffect(e, t, None);
    PeerPresence(ps, a, part);
    if e.SetPeer? {
      SetPeerRefines(e, ps, a, part);
      SettingWritten(e);
    } else {
      SetFamilyRefines(e, ps, a, part);
      AlwaysWritten(e);
    }
  }

  lemma PeerPresence(ps: seq<PeerBlock>, a: string, part: PeerPart)
    ensures var v := GetPeers(ps, a, part); v.Some? && (part.PeerItself? || part.FamilyPart?) ==> v == Some(Present)
  {
  }

  lemma UnsetPeersStep(e: Edit, ps: seq<PeerBlock>, a: string, part: PeerPart)
    requires PeerEdit(e) && IsUnset(e) && !BadFamily(e)
    ensures var (r, ok) := EditPeers(e, ps);
      var t := GetPeers(ps, e.addr, Target(e).peer);
      ok == Succeeds(e, t, None) &&
      GetPeers(r, a, part) == After(EffectOf(e, t, None), PeerPath(a, part), GetPeers(ps, a, part))
  {
    hide WellTyped, EditPeers, Find, Written, EffectOf, Succeeds, GetPeer;
    var t := GetPeers(ps, e.addr, Target(e).peer);
    UnsetEffect(e, t);
    match e {
      case UnsetPeer(_) => UnsetPeerRefines(e, ps, a, part); PeerAbsent(ps, a, part);
      case UnsetPeerSetting(_, _) => UnsetPeerSettingRefines(e, ps, a, part);
      case UnsetFamily(_, _) => UnsetFamilyRefines(e, ps, a, part); PeerAbsent(ps, a, part);
      case UnsetDirective(_, _, _) => UnsetDirectiveRefines(e, ps, a, part);
    }
  }

  // Nothing is below a peer or a family that is not there.
  lemma PeerAbsent(ps: seq<PeerBlock>, a: string, part: PeerPart)
    ensures GetPeers(ps, a, PeerItself).None? ==> GetPeers(ps, a, part).None?
    ensures part.DirectivePart? && GetPeers(ps, a, FamilyPart(part.family)).None? ==> GetPeers(ps, a, part).None?
  {
  }

  lemma PoliciesStep(e: Edit, ps: seq<PolicyBlock>, n: string, part: PolicyPart)
    requires PolicyEdit(e)
    ensures var (r, ok) := EditPolicies(e, ps);
      var t := GetPolicies(ps, e.name, Target(e).policy);
      ok == Succeeds(e, t, None) &&
      GetPolicies(r, n, part) == After(EffectOf(e, t, None), PolicyPath(n, part), GetPolicies(ps, n, part))
  {
    hide WellTyped, EditPolicies, Find, Written, EffectOf, Succeeds;
    var t := GetPolicies(ps, e.name, Target(e).policy);
    if e.UnsetPolicy? {
      UnsetEffect(e, t);
      UnsetPolicyRefines(e, ps, n, part);
    } else {
      SetEffect(e, t, None);
      SetRuleRefines(e, ps, n, part);
      AlwaysWritten(e);
    }
  }

  lemma PrefixListsStep(e: Edit, ps: seq<PrefixListBlock>, n: string, part: PrefixPart)
    requires PrefixEdit(e)
    ensures var (r, ok) := EditPrefixLists(e, ps);
      var t := GetPrefixLists(ps, e.name, Target(e).prefixList);
      ok == Succeeds(e, t, None) &&
      GetPrefixLists(r, n, part) == After(EffectOf(e, t, None), PrefixPath(n, part), GetPrefixLists(ps, n, part))
  {
    hide WellTyped, EditPrefixLists, Find, Written, EffectOf, Succeeds;
    var t := GetPrefixLists(ps, e.name, Target(e).prefixList);
    if e.SetEntry? {
      SetEffect(e, t, None);
      SetEntryRefines(e, ps, n, part);
    } else {
      UnsetEffect(e, t);
      UnsetPrefixRefines(e, ps, n, part);
    }
  }

  lemma BmpStep(e: Edit, bs: seq<BmpServerBlock>, a: string, part: BmpPart)
    requires BmpEdit(e)
    ensures var (r, ok) := EditBmp(e, bs);
      var t := GetBmps(bs, e.addr, Target(e).bmp);
      ok == Succeeds(e, t, None) &&
      GetBmps(r, a, part) == After(EffectOf(e, t, None), BmpPath(a, part), GetBmps(bs, a, part))
  {
    hide WellTyped, EditBmp, Find, EffectOf, Succeeds;
    var t := GetBmps(bs, e.addr, Target(e).bmp);
    BmpRefines(e, bs, a, part);
    if e.SetBmp? {
      SetEffect(e, t, None);
    } else {
      UnsetEffect(e, t);
    }
  }

  lemma RpkiStep(e: Edit, rs: seq<RpkiCacheBlock>, a: string, part: RpkiPart)
    requires RpkiEdit(e)
    ensures var (r, ok) := EditRpki(e, rs);
      var t := GetRpkis(rs, e.addr, Target(e).rpki);
      ok == Succeeds(e, t, None) &&
      GetRpkis(r, a, part) == After(EffectOf(e, t, None), RpkiPath(a, part), GetRpkis(rs, a, part))
  {
    hide WellTyped, EditRpki, Find, EffectOf, Succeeds, RpkiField;
    var t := GetRpkis(rs, e.addr, Target(e).rpki);
    if e.SetRpki? {
      SetRpkiRefines(e, rs, a, part);
      SetEffect(e, t, None);
    } else {
      UnsetRpkiRefines(e, rs, a, part);
      UnsetEffect(e, t);
    }
  }

  function GetBgpLs(ls: Option<u64>): Option<Value> {
    var v :- ls;
    Some(NumberValue(v))
  }


  lemma BgpLsStep(e: Edit, ls: Option<u64>)
    requires BgpLsEdit(e) && !e.UnsetBgpLsSetting?
    ensures var (r, ok) := EditBgpLs(e, ls);
      ok == Succeeds(e, GetBgpLs(ls), None) &&
      GetBgpLs(r) == After(EffectOf(e, GetBgpLs(ls), None), BgpLsPath, GetBgpLs(ls))
  {
    hide EffectOf, Succeeds;
    if e.SetBgpLs? {
      SetEffect(e, GetBgpLs(ls), None);
    } else {
      UnsetEffect(e, GetBgpLs(ls));
    }
  }

  lemma UnsetTelemetryStep(e: Edit, t: Option<TelemetryBlock>, part: TelemetryPart)
    requires TelemetryEdit(e) && IsUnset(e)
    ensures var (r, ok) := EditTelemetry(e, t);
      var target := GetTelemetries(t, Target(e).telemetry);
      && ok == Succeeds(e, target, None)
      && GetTelemetries(r, part) == After(EffectOf(e, target, None), TelemetryPath(part), GetTelemetries(t, part))
  {
    hide WellTyped, EditTelemetry, EffectOf, Succeeds, Written, GetTelemetry;
    UnsetEffect(e, GetTelemetries(t, Target(e).telemetry));
    UnsetTelemetryRefines(e, t, part);
    TelemetryAbsent(t, part);
  }

  lemma TelemetryAbsent(t: Option<TelemetryBlock>, part: TelemetryPart)
    ensures GetTelemetries(t, TelemetryItself).None? ==> GetTelemetries(t, part).None?
    ensures GetTelemetries(t, PrometheusPart).None? ==> GetTelemetries(t, ListenPart).None?
    ensures var v := GetTelemetries(t, part);
      v.Some? && (part.TelemetryItself? || part.JsonPart? || part.PrometheusPart?) ==> v == Some(Present)
  {
  }

  lemma SetTelemetryStep(e: Edit, t: Option<TelemetryBlock>, part: TelemetryPart)
    requires TelemetryEdit(e) && !IsUnset(e)
    ensures var (r, ok) := EditTelemetry(e, t);
      var target := GetTelemetries(t, Target(e).telemetry);
      var rival := if Rival(e).Some? then GetTelemetries(t, Rival(e).value.telemetry) else None;
      && ok == Succeeds(e, target, rival)
      && GetTelemetries(r, part) == After(EffectOf(e, target, rival), TelemetryPath(part), GetTelemetries(t, part))
  {
    hide WellTyped, EditTelemetry, EffectOf, Succeeds, Written, GetTelemetry;
    var target := GetTelemetries(t, Target(e).telemetry);
    var rival := if Rival(e).Some? then GetTelemetries(t, Rival(e).value.telemetry) else None;
    SetEffect(e, target, rival);
    SetTelemetryRefines(e, t, part);
    TelemetryAbsent(t, part);
    WrittenSinks(e);
  }

  lemma WrittenSinks(e: Edit)
    ensures e.SetJson? ==> Written(e) == Some(Present)
    ensures e.SetEmf? ==> Written(e) == Some(TextValue(e.namespace))
    ensures e.SetListen? ==> Written(e) == Some(TextValue(e.addr))
  {
  }

  // ----- one command on the candidate -----

  function BodyRival(b: Body, e: Edit): Option<Value> {
    var p :- Rival(e);
    GetBody(b, p)
  }

  predicate Steps(e: Edit, b: Body, q: Path)
    requires !BadFamily(e)
  {
    var (r, ok) := EditBody(e, b);
    var t, v := GetBody(b, Target(e)), BodyRival(b, e);
    ok == Succeeds(e, t, v) && GetBody(r, q) == After(EffectOf(e, t, v), q, GetBody(b, q))
  }

  // The section a command edits, and the part of the map that shows it.
  lemma SectionEdit(e: Edit)
    ensures TopEdit(e) <==> EditSection(e) == TopSection
    ensures PeerEdit(e) <==> EditSection(e) == PeerSection
    ensures PolicyEdit(e) <==> EditSection(e) == PolicySection
    ensures PrefixEdit(e) <==> EditSection(e) == PrefixSection
    ensures BmpEdit(e) <==> EditSection(e) == BmpSection
    ensures RpkiEdit(e) <==> EditSection(e) == RpkiSection
    ensures BgpLsEdit(e) <==> EditSection(e) == BgpLsSection
    ensures TelemetryEdit(e) <==> EditSection(e) == TelemetrySection
    ensures EditSection(e) != TelemetrySection ==> Rival(e).None?
  {
  }

  lemma EditedPart(e: Edit, b: Body)
    requires !BadFamily(e)
    ensures var (r, ok) := EditBody(e, b);
      && (TopEdit(e) ==> (r.settings, ok) == EditSettings(e, b.settings))
      && (PeerEdit(e) ==> (r.peers, ok) == EditPeers(e, b.peers))
      && (PolicyEdit(e) ==> (r.policies, ok) == EditPolicies(e, b.policies))
      && (PrefixEdit(e) ==> (r.prefixLists, ok) == EditPrefixLists(e, b.prefixLists))
      && (BmpEdit(e) ==> (r.bmpServers, ok) == EditBmp(e, b.bmpServers))
      && (RpkiEdit(e) ==> (r.rpkiCaches, ok) == EditRpki(e, b.rpkiCaches))
      && (BgpLsEdit(e) ==> (r.bgpLs, ok) == EditBgpLs(e, b.bgpLs))
      && (TelemetryEdit(e) ==> (r.telemetry, ok) == EditTelemetry(e, b.telemetry))
  {
    hide WellTyped, EditSettings, EditPeers, EditPolicies, EditPrefixLists, EditBmp, EditRpki, EditBgpLs, EditTelemetry,
      BadFamily;
    SectionEdit(e);
  }

  lemma ShownPart(b: Body, q: Path)
    ensures q.TopPath? ==> GetBody(b, q) == GetSetting(b.settings, q.key)
    ensures q.PeerPath? ==> GetBody(b, q) == GetPeers(b.peers, q.addr, q.peer)
    ensures q.PolicyPath? ==> GetBody(b, q) == GetPolicies(b.policies, q.name, q.policy)
    ensures q.PrefixPath? ==> GetBody(b, q) == GetPrefixLists(b.prefixLists, q.name, q.prefixList)
    ensures q.BmpPath? ==> GetBody(b, q) == GetBmps(b.bmpServers, q.addr, q.bmp)
    ensures q.RpkiPath? ==> GetBody(b, q) == GetRpkis(b.rpkiCaches, q.addr, q.rpki)
    ensures q.BgpLsPath? ==> GetBody(b, q) == GetBgpLs(b.bgpLs)
    ensures q.TelemetryPath? ==> GetBody(b, q) == GetTelemetries(b.telemetry, q.telemetry)
  {
    hide Find, GetPeer, GetPolicy, GetPrefixList, GetBmp, GetRpki, GetTelemetry, GetSetting;
  }

  lemma TopPathStep(e: Edit, b: Body, q: Path)
    requires !BadFamily(e) && SectionOf(q) == EditSection(e) && q.TopPath?
    ensures Steps(e, b, q)
  {
    hide WellTyped, EditBody, GetBody, EditSettings, EditPeers, EditPolicies, EditPrefixLists, EditBmp, EditRpki,
      EditBgpLs, EditTelemetry, GetSetting, GetPeers, GetPolicies, GetPrefixLists, GetBmps, GetRpkis, GetBgpLs,
      GetTelemetries, EffectOf, Succeeds, Target, After, BadFamily, IsUnset, TopEdit, PeerEdit, PolicyEdit, PrefixEdit,
      BmpEdit, RpkiEdit, BgpLsEdit, TelemetryEdit, EditSection, Rival;
    SectionEdit(e);
    EditedPart(e, b);
    TargetSection(e);
    TargetAddress(e);
    ShownPart(b, q);
    ShownPart(b, Target(e));
    ShownPart(EditBody(e, b).0, q);
    TopStep(e, b.settings, q.key);
  }

  lemma PolicyPathStep(e: Edit, b: Body, q: Path)
    requires !BadFamily(e) && SectionOf(q) == EditSection(e) && q.PolicyPath?
    ensures Steps(e, b, q)
  {
    hide WellTyped, EditBody, GetBody, EditSettings, EditPeers, EditPolicies, EditPrefixLists, EditBmp, EditRpki,
      EditBgpLs, EditTelemetry, GetSetting, GetPeers, GetPolicies, GetPrefixLists, GetBmps, GetRpkis, GetBgpLs,
      GetTelemetries, EffectOf, Succeeds, Target, After, BadFamily, IsUnset, TopEdit, PeerEdit, PolicyEdit, PrefixEdit,
      BmpEdit, RpkiEdit, BgpLsEdit, TelemetryEdit, EditSection, Rival;
    SectionEdit(e);
    EditedPart(e, b);
    TargetSection(e);
    TargetAddress(e);
    ShownPart(b, q);
    ShownPart(b, Target(e));
    ShownPart(EditBody(e, b).0, q);
    PoliciesStep(e, b.policies, q.name, q.policy);
  }

  lemma PrefixPathStep(e: Edit, b: Body, q: Path)
    requires !BadFamily(e) && SectionOf(q) == EditSection(e) && q.PrefixPath?
    ensures Steps(e, b, q)
  {
    hide WellTyped, EditBody, GetBody, EditSettings, EditPeers, EditPolicies, EditPrefixLists, EditBmp, EditRpki,
      EditBgpLs, EditTelemetry, GetSetting, GetPeers, GetPolicies, GetPrefixLists, GetBmps, GetRpkis, GetBgpLs,
      GetTelemetries, EffectOf, Succeeds, Target, After, BadFamily, IsUnset, TopEdit, PeerEdit, PolicyEdit, PrefixEdit,
      BmpEdit, RpkiEdit, BgpLsEdit, TelemetryEdit, EditSection, Rival;
    SectionEdit(e);
    EditedPart(e, b);
    TargetSection(e);
    TargetAddress(e);
    ShownPart(b, q);
    ShownPart(b, Target(e));
    ShownPart(EditBody(e, b).0, q);
    PrefixListsStep(e, b.prefixLists, q.name, q.prefixList);
  }

  lemma BmpPathStep(e: Edit, b: Body, q: Path)
    requires !BadFamily(e) && SectionOf(q) == EditSection(e) && q.BmpPath?
    ensures Steps(e, b, q)
  {
    hide WellTyped, EditBody, GetBody, EditSettings, EditPeers, EditPolicies, EditPrefixLists, EditBmp, EditRpki,
      EditBgpLs, EditTelemetry, GetSetting, GetPeers, GetPolicies, GetPrefixLists, GetBmps, GetRpkis, GetBgpLs,
      GetTelemetries, EffectOf, Succeeds, Target, After, BadFamily, IsUnset, TopEdit, PeerEdit, PolicyEdit, PrefixEdit,
      BmpEdit, RpkiEdit, BgpLsEdit, TelemetryEdit, EditSection, Rival;
    SectionEdit(e);
    EditedPart(e, b);
    TargetSection(e);
    TargetAddress(e);
    ShownPart(b, q);
    ShownPart(b, Target(e));
    ShownPart(EditBody(e, b).0, q);
    BmpStep(e, b.bmpServers, q.addr, q.bmp);
  }

  lemma RpkiPathStep(e: Edit, b: Body, q: Path)
    requires !BadFamily(e) && SectionOf(q) == EditSection(e) && q.RpkiPath?
    ensures Steps(e, b, q)
  {
    hide WellTyped, EditBody, GetBody, EditSettings, EditPeers, EditPolicies, EditPrefixLists, EditBmp, EditRpki,
      EditBgpLs, EditTelemetry, GetSetting, GetPeers, GetPolicies, GetPrefixLists, GetBmps, GetRpkis, GetBgpLs,
      GetTelemetries, EffectOf, Succeeds, Target, After, BadFamily, IsUnset, TopEdit, PeerEdit, PolicyEdit, PrefixEdit,
      BmpEdit, RpkiEdit, BgpLsEdit, TelemetryEdit, EditSection, Rival;
    SectionEdit(e);
    EditedPart(e, b);
    TargetSection(e);
    TargetAddress(e);
    ShownPart(b, q);
    ShownPart(b, Target(e));
    ShownPart(EditBody(e, b).0, q);
    RpkiStep(e, b.rpkiCaches, q.addr, q.rpki);
  }

  lemma BgpLsPathStep(e: Edit, b: Body, q: Path)
    requires !BadFamily(e) && SectionOf(q) == EditSection(e) && q.BgpLsPath? && !e.UnsetBgpLsSetting?
    ensures Steps(e, b, q)
  {
    hide WellTyped, EditBody, GetBody, EditSettings, EditPeers, EditPolicies, EditPrefixLists, EditBmp, EditRpki,
      EditBgpLs, EditTelemetry, GetSetting, GetPeers, GetPolicies, GetPrefixLists, GetBmps, GetRpkis, GetBgpLs,
      GetTelemetries, EffectOf, Succeeds, Target, After, BadFamily, IsUnset, TopEdit, PeerEdit, PolicyEdit, PrefixEdit,
      BmpEdit, RpkiEdit, BgpLsEdit, TelemetryEdit, EditSection, Rival;
    SectionEdit(e);
    EditedPart(e, b);
    TargetSection(e);
    TargetAddress(e);
    ShownPart(b, q);
    ShownPart(b, Target(e));
    ShownPart(EditBody(e, b).0, q);
    BgpLsStep(e, b.bgpLs);
  }

  lemma PeerPathStep(e: Edit, b: Body, q: Path)
    requires !BadFamily(e) && SectionOf(q) == EditSection(e) && q.PeerPath?
    ensures Steps(e, b, q)
  {
    hide WellTyped, EditBody, GetBody, EditSettings, EditPeers, EditPolicies, EditPrefixLists, EditBmp, EditRpki,
      EditBgpLs, EditTelemetry, GetSetting, GetPeers, GetPolicies, GetPrefixLists, GetBmps, GetRpkis, GetBgpLs,
      GetTelemetries, EffectOf, Succeeds, Target, After, BadFamily, IsUnset, TopEdit, PeerEdit, PolicyEdit, PrefixEdit,
      BmpEdit, RpkiEdit, BgpLsEdit, TelemetryEdit, EditSection, Rival;
    SectionEdit(e);
    EditedPart(e, b);
    TargetSection(e);
    TargetAddress(e);
    ShownPart(b, q);
    ShownPart(b, Target(e));
    ShownPart(EditBody(e, b).0, q);
    if e.SetPeer? || e.SetFamily? {
      SetPeersStep(e, b.peers, q.addr, q.peer);
    } else {
      UnsetPeersStep(e, b.peers, q.addr, q.peer);
    }
  }

  lemma TelemetryPathStep(e: Edit, b: Body, q: Path)
    requires !BadFamily(e) && SectionOf(q) == EditSection(e) && q.TelemetryPath?
    ensures Steps(e, b, q)
  {
    hide WellTyped, EditBody, GetBody, EditSettings, EditPeers, EditPolicies, EditPrefixLists, EditBmp, EditRpki,
      EditBgpLs, EditTelemetry, GetSetting, GetPeers, GetPolicies, GetPrefixLists, GetBmps, GetRpkis, GetBgpLs,
      GetTelemetries, EffectOf, Succeeds, Target, After, BadFamily, IsUnset, TopEdit, PeerEdit, PolicyEdit, PrefixEdit,
      BmpEdit, RpkiEdit, BgpLsEdit, TelemetryEdit, EditSection, Rival;
    SectionEdit(e);
    EditedPart(e, b);
    TargetSection(e);
    TargetAddress(e);
    ShownPart(b, q);
    ShownPart(b, Target(e));
    ShownPart(EditBody(e, b).0, q);
    if Rival(e).Some? { ShownPart(b, Rival(e).value); }
    if IsUnset(e) {
      UnsetTelemetryStep(e, b.telemetry, q.telemetry);
    } else {
      SetTelemetryStep(e, b.telemetry, q.telemetry);
    }
  }

  // The rest of the body does not change.
  lemma Elsewhere(e: Edit, b: Body, q: Path)
    requires !BadFamily(e) && SectionOf(q) != EditSection(e)
    ensures GetBody(EditBody(e, b).0, q) == GetBody(b, q)
  {
    hide WellTyped, EditSettings, EditPeers, EditPolicies, EditPrefixLists, EditBmp, EditRpki, EditBgpLs, EditTelemetry,
      Find, GetPeer, GetPolicy, GetPrefixList, GetBmp, GetRpki, GetTelemetry, BadFamily,
      TopEdit, PeerEdit, PolicyEdit, PrefixEdit, BmpEdit, RpkiEdit, BgpLsEdit;
  }

  lemma OutsideStep(e: Edit, b: Body, q: Path)
    requires !BadFamily(e) && SectionOf(q) != EditSection(e) && Steps(e, b, Target(e))
    ensures Steps(e, b, q)
  {
    hide EditBody, GetBody, EffectOf, Succeeds, BadFamily, After, SectionOf, Target, BodyRival, WellTyped, EditSection;
    var t, v := GetBody(b, Target(e)), BodyRival(b, e);
    Elsewhere(e, b, q);
    EffectSection(e, t, v);
    ServicePresent(b);
    SectionsApart(e, q);
    AfterElsewhere(EffectOf(e, t, v), q, GetBody(b, q), EditSection(e));
  }

  lemma SectionsApart(e: Edit, q: Path)
    ensures EditSection(e) != RootSection && EditSection(e) != WordListsSection && EditSection(e) != OtherSection
    ensures q == ServicePath <==> SectionOf(q) == RootSection
  {
  }

  // Inside the section of the command.
  lemma SectionStep(e: Edit, b: Body, q: Path)
    requires !BadFamily(e) && !e.UnsetBgpLsSetting? && SectionOf(q) == EditSection(e)
    ensures Steps(e, b, q)
  {
    hide Steps, BadFamily, EditSection, WellTyped;
    SectionsApart(e, q);
    if q.TopPath? {
      TopPathStep(e, b, q);
    } else if q.PeerPath? {
      PeerPathStep(e, b, q);
    } else if q.PolicyPath? {
      PolicyPathStep(e, b, q);
    } else if q.PrefixPath? {
      PrefixPathStep(e, b, q);
    } else if q.BmpPath? {
      BmpPathStep(e, b, q);
    } else if q.RpkiPath? {
      RpkiPathStep(e, b, q);
    } else if q.BgpLsPath? {
      BgpLsPathStep(e, b, q);
    } else {
      TelemetryPathStep(e, b, q);
    }
  }

  lemma BodyStep(e: Edit, b: Body, q: Path)
    requires !BadFamily(e) && !e.UnsetBgpLsSetting?
    ensures Steps(e, b, q)
  {
    hide Steps, BadFamily, SectionOf, EditSection, Target, WellTyped;
    if SectionOf(q) == EditSection(e) {
      SectionStep(e, b, q);
    } else {
      TargetSection(e);
      SectionStep(e, b, Target(e));
      OutsideStep(e, b, q);
    }
  }

  lemma ServicePresent(b: Body)
    ensures GetBody(b, ServicePath) == Some(Present)
  {
  }

  lemma EmptyBody(q: Path)
    ensures GetBody(EMPTY_BODY, q) == if q == ServicePath then Some(Present) else None
  {
  }

  function GetRival(root: Root, e: Edit): Option<Value> {
    var p :- Rival(e);
    Get(root, p)
  }

  // The command does to the candidate what it does to the map, and succeeds when the map
  // says so.
  predicate Refines(e: Edit, root: Root, q: Path) {
    var (r, ok) := Apply(e, root);
    var t, v := Get(root, Target(e)), GetRival(root, e);
    ok == Succeeds(e, t, v) && Get(r, q) == After(EffectOf(e, t, v), q, Get(root, q))
  }

  lemma ServiceRefines(e: Edit, root: Root, q: Path)
    requires !BadFamily(e) && !e.UnsetBgpLsSetting? && root.services != []
    ensures Refines(e, root, q)
  {
    hide WellTyped, EditBody, GetBody, EffectOf, Succeeds, BadFamily, After, Target, Rival;
    var s, t, v := root.services, Get(root, Target(e)), GetRival(root, e);
    TargetBelow(e);
    BodyStep(e, s[0], q);
    OtherEffect(e, t, v, Get(root, OtherServicesPath));
    var b := EditBody(e, s[0]).0;
    assert s[0 := b][0] == b && s[0 := b][1..] == s[1..];
  }

  lemma EmptyRoot(e: Edit, q: Path)
    ensures Get(Root([EMPTY_BODY]), q) == if q == ServicePath then Some(Present) else None
    ensures Apply(e, Root([])).1 == Apply(e, Root([EMPTY_BODY])).1
    ensures !BadFamily(e) && !e.UnsetBgpLsSetting? ==> Apply(e, Root([])) == Apply(e, Root([EMPTY_BODY]))
  {
    hide WellTyped, EditBody, GetBody, BadFamily;
    EmptyBody(q);
  }

  lemma NoRoot(e: Edit, q: Path)
    ensures Get(Root([]), q).None? && GetRival(Root([]), e).None?
    ensures !BadFamily(e) ==> GetRival(Root([EMPTY_BODY]), e).None? && Get(Root([EMPTY_BODY]), Target(e)).None?
  {
    hide Get, BadFamily, Target, Rival;
    assert Get(Root([]), q).None? by { NothingThere(q); }
    if Rival(e).Some? {
      NothingThere(Rival(e).value);
      EmptyRoot(e, Rival(e).value);
    }
    if !BadFamily(e) {
      TargetBelow(e);
      EmptyRoot(e, Target(e));
    }
  }

  lemma NothingThere(q: Path)
    ensures Get(Root([]), q).None?
  {
  }

  lemma EmptyRefines(e: Edit, q: Path)
    requires !BadFamily(e) && !e.UnsetBgpLsSetting?
    ensures Refines(e, Root([]), q)
  {
    hide WellTyped, EffectOf, Succeeds, BadFamily, After, Target, Apply, Get, GetRival;
    NoRoot(e, q);
    NoRoot(e, Target(e));
    ServiceRefines(e, Root([EMPTY_BODY]), q);
    EmptyRoot(e, q);
    EffectOnEmpty(e, None, None, q);
  }

  // One command refines one step of the map, and succeeds exactly when the map says so.
  lemma EditRefines(e: Edit, root: Root, q: Path)
    ensures Refines(e, root, q)
  {
    if BadFamily(e) || e.UnsetBgpLsSetting? {
      hide EffectOf, Succeeds, BadFamily, After, Target, WellTyped, GetBody, EditBody;
      NoEffect(e, Get(root, Target(e)), GetRival(root, e), q, Get(root, q));
    } else if root.services != [] {
      hide Refines, BadFamily, WellTyped;
      ServiceRefines(e, root, q);
    } else {
      hide Refines, BadFamily, WellTyped;
      assert root == Root([]);
      EmptyRefines(e, q);
    }
  }

  lemma OtherEffect(e: Edit, t: Option<Value>, v: Option<Value>, before: Option<Value>)
    ensures After(EffectOf(e, t, v), OtherServicesPath, before) == before
  {
    hide EffectOf, SectionOf, EditSection;
    EffectSection(e, t, v);
    SectionsApart(e, OtherServicesPath);
    assert SectionOf(OtherServicesPath) == OtherSection by { OtherIsOther(); }
    AfterElsewhere(EffectOf(e, t, v), OtherServicesPath, before, EditSection(e));
  }

  lemma OtherIsOther()
    ensures SectionOf(OtherServicesPath) == OtherSection
  {
  }

  lemma NoEffect(e: Edit, t: Option<Value>, v: Option<Value>, q: Path, before: Option<Value>)
    requires BadFamily(e) || e.UnsetBgpLsSetting?
    ensures !Succeeds(e, t, v) && After(EffectOf(e, t, v), q, before) == before
  {
    hide Target, Written, BadFamily;
  }

  lemma TargetBelow(e: Edit)
    requires !BadFamily(e)
    ensures Target(e) != ServicePath && Rival(e) != Some(ServicePath)
    ensures Target(e) != OtherServicesPath && Rival(e) != Some(OtherServicesPath) && Opened(e) != OtherServicesPath
  {
  }

  // Creating the service first makes no difference to any command.
  lemma EffectOnEmpty(e: Edit, t: Option<Value>, v: Option<Value>, q: Path)
    requires !BadFamily(e) && !e.UnsetBgpLsSetting? && t.None?
    ensures After(EffectOf(e, t, v), q, if q == ServicePath then Some(Present) else None) ==
            After(EffectOf(e, t, v), q, None)
  {
    hide Target, Written, BadFamily, Opened;
    TargetBelow(e);
  }

  // ----- runs -----

  // The map as a function, and a step of it.
  type Map = Path -> Option<Value>

  function RivalValue(e: Edit, m: Map): Option<Value> {
    var p :- Rival(e);
    m(p)
  }

  function MapStep(e: Edit, m: Map): Map {
    var f := EffectOf(e, m(Target(e)), RivalValue(e, m));
    (q: Path) => After(f, q, m(q))
  }

  function MapRun(es: seq<Edit>, m: Map): Map
    decreases es
  {
    if es == [] then m else MapRun(es[1..], MapStep(es[0], m))
  }

  ghost predicate Represents(root: Root, m: Map) {
    forall q: Path :: m(q) == Get(root, q)
  }

  lemma StepRepresents(e: Edit, root: Root, m: Map)
    requires Represents(root, m)
    ensures Represents(Apply(e, root).0, MapStep(e, m))
  {
    hide Apply, Get, EffectOf, After, Target;
    forall q: Path ensures MapStep(e, m)(q) == Get(Apply(e, root).0, q) {
      EditRefines(e, root, q);
    }
  }

  // Any run of commands does to the candidate what it does to the map.
  lemma {:induction false} RunRefines(es: seq<Edit>, root: Root, m: Map)
    requires Represents(root, m)
    ensures Represents(Run(es, root), MapRun(es, m))
    decreases es
  {
    hide Apply, Represents, MapStep;
    if es != [] {
      StepRepresents(es[0], root, m);
      RunRefines(es[1..], Apply(es[0], root).0, MapStep(es[0], m));
    }
  }

  lemma TargetAddress(e: Edit)
    requires !BadFamily(e)
    ensures PeerEdit(e) ==> Target(e).PeerPath? && Target(e).addr == e.addr
    ensures PeerEdit(e) ==> IsUnset(e) == !(e.SetPeer? || e.SetFamily?)
    ensures PolicyEdit(e) ==> Target(e).PolicyPath? && Target(e).name == e.name
    ensures PrefixEdit(e) ==> Target(e).PrefixPath? && Target(e).name == e.name
    ensures BmpEdit(e) ==> Target(e).BmpPath? && Target(e).addr == e.addr
    ensures RpkiEdit(e) ==> Target(e).RpkiPath? && Target(e).addr == e.addr
    ensures TelemetryEdit(e) && IsUnset(e) ==> Rival(e).None?
  {
  }
}
