// The loops of the lowering as the source runs them (conf/src/bgp.rs): a structure that is
// changed setting by setting. Each computes its function.
module LoweringLoops {
  import opened Ast
  import opened Lowering
  import opened Wrappers

  method ApplySettingsLoop(start: PeerConfig, settings: seq<Setting>) returns (config: PeerConfig)
    ensures config == ApplyPeerSettings(start, settings)
  {
    hide ApplyPeerSetting;
    config := start;
    var i := 0;
    assert settings[0..] == settings;
    while i < |settings|
      invariant 0 <= i <= |settings|
      invariant ApplyPeerSettings(config, settings[i..]) == ApplyPeerSettings(start, settings)
    {
      assert settings[i..][1..] == settings[i + 1..];
      config := ApplyPeerSetting(config, settings[i]);
      i := i + 1;
    }
  }

  // `afi_safi_entry_mut`: the index of the entry, appended if it was missing.
  method EntryIndexLoop(es: seq<AfiSafiConfig>, afi: Afi, safi: Safi) returns (entries: seq<AfiSafiConfig>, at: nat)
    ensures at == EntryIndex(es, afi, safi) < |entries|
    ensures entries == if at < |es| then es else es + [NewEntry(afi, safi)]
  {
    at := 0;
    assert es[0..] == es;
    while at < |es| && !(es[at].afi == afi && es[at].safi == safi)
      invariant 0 <= at <= |es|
      invariant EntryIndex(es, afi, safi) == at + EntryIndex(es[at..], afi, safi)
    {
      assert es[at..][1..] == es[at + 1..];
      at := at + 1;
    }
    entries := if at < |es| then es else es + [NewEntry(afi, safi)];
  }

  method ApplyDirectivesLoop(start: AfiSafiConfig, ds: seq<FamilyDirective>) returns (e: AfiSafiConfig)
    ensures e == ApplyDirectives(start, ds)
  {
    e := start;
    var i := 0;
    assert ds[0..] == ds;
    while i < |ds|
      invariant 0 <= i <= |ds|
      invariant ApplyDirectives(e, ds[i..]) == ApplyDirectives(start, ds)
    {
      assert ds[i..][1..] == ds[i + 1..];
      e := ApplyDirective(e, ds[i]);
      i := i + 1;
    }
  }

  // `peer_config_from_block`.
  method PeerConfigFromBlock(p: PeerBlock) returns (config: PeerConfig)
    ensures config == LowerPeer(p)
  {
    hide ApplyPeerSettings, ApplyDirectives;
    config := ApplySettingsLoop(DefaultPeer(p.address), p.settings);
    var entries: seq<AfiSafiConfig> := [];
    var i := 0;
    assert p.families[0..] == p.families;
    while i < |p.families|
      invariant 0 <= i <= |p.families|
      invariant ApplyFamilies(entries, p.families[i..]) == ApplyFamilies([], p.families)
    {
      var f := p.families[i];
      var found, at := EntryIndexLoop(entries, f.afi, f.safi);
      var e := ApplyDirectivesLoop(found[at], f.directives);
      assert found[at := e] == ApplyFamily(entries, f);
      assert p.families[i..][1..] == p.families[i + 1..];
      entries := found[at := e];
      i := i + 1;
    }
    config := config.(afiSafis := entries);
  }

  // `families_from_peer_config`: entries that say nothing are skipped.
  method FamiliesLoop(es: seq<AfiSafiConfig>) returns (blocks: seq<FamilyBlock>)
    ensures blocks == Families(es)
  {
    hide EntryDirectives;
    blocks := [];
    var i := 0;
    assert es[0..] == es && [] + Families(es) == Families(es);
    while i < |es|
      invariant 0 <= i <= |es|
      invariant blocks + Families(es[i..]) == Families(es)
    {
      assert es[i..][1..] == es[i + 1..];
      if HasAnything(es[i]) {
        var f := FamilyBlock(es[i].afi, es[i].safi, EntryDirectives(es[i]));
        assert blocks + ([f] + Families(es[i + 1..])) == blocks + [f] + Families(es[i + 1..]);
        blocks := blocks + [f];
      }
      i := i + 1;
    }
  }

  // `policy_block_to_definition`: the first rule that is no rule stops it.
  method PolicyLoop(b: PolicyBlock) returns (r: Option<PolicyConfig>)
    ensures r == LowerPolicy(b)
  {
    hide LowerRule;
    var statements: seq<StatementConfig> := [];
    var i := 0;
    assert b.rules[0..] == b.rules;
    if LowerRules(b.rules).Some? { assert [] + LowerRules(b.rules).value == LowerRules(b.rules).value; }
    while i < |b.rules|
      invariant 0 <= i <= |b.rules|
      invariant LowerRules(b.rules) == Prepend(statements, LowerRules(b.rules[i..]))
    {
      assert b.rules[i..][1..] == b.rules[i + 1..];
      var s := LowerRule(b.rules[i]);
      if s.None? {
        return None;
      }
      if LowerRules(b.rules[i + 1..]).Some? {
        var rest := LowerRules(b.rules[i + 1..]).value;
        assert statements + ([s.value] + rest) == statements + [s.value] + rest;
      }
      statements := statements + [s.value];
      i := i + 1;
    }
    assert statements + [] == statements;
    r := Some(PolicyConfig(b.name, statements));
  }

  function Prepend(ss: seq<StatementConfig>, r: Option<seq<StatementConfig>>): Option<seq<StatementConfig>> {
    if r.Some? then Some(ss + r.value) else None
  }

  // `insert_peer` for every block: an invalid or repeated address stops it.
  method InsertPeersLoop(blocks: seq<PeerBlock>, ip: AddressParser) returns (r: Option<seq<PeerConfig>>)
    ensures r == InsertPeers([], blocks, ip)
  {
    hide LowerPeer;
    var peers: seq<PeerConfig> := [];
    var i := 0;
    assert blocks[0..] == blocks;
    while i < |blocks|
      invariant 0 <= i <= |blocks|
      invariant InsertPeers(peers, blocks[i..], ip) == InsertPeers([], blocks, ip)
    {
      assert blocks[i..][1..] == blocks[i + 1..] && blocks[i..][0] == blocks[i];
      var config := PeerConfigFromBlock(blocks[i]);
      var a := ip(config.address);
      if a.None? {
        return None;
      }
      if exists j | 0 <= j < |peers| :: ip(peers[j].address) == Some(a.value) {
        return None;
      }
      peers := peers + [config];
      i := i + 1;
    }
    r := Some(peers);
  }
}
