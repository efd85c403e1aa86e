// Printing a configuration and parsing the text gives the configuration back.
module RoundTrip {
  import P = Printer
  import opened Ast
  import opened Blocks
  import opened Keywords
  import opened Layout
  import opened Leaves
  import opened Lexer
  import opened Parser
  import opened Texts
  import opened Wrappers

  // ----- what can be printed -----

  predicate ItemShape(i: P.Item) {
    match i
    case SettingItem(s) => SettingShape(s)
    case PeerItem(p) => forall s | s in p.settings :: SettingShape(s) && !s.Originate?
    case PrefixListItem(p) => forall e | e in p.prefixes :: EntryShape(e)
    case WordListItem(kind, _) => !kind.PrefixList?
    case TelemetryItem(t) => !(t.json && t.cloudwatchEmf.Some?)
    case _ => true
  }

  predicate ItemShapes(items: seq<P.Item>) {
    forall i | i in items :: ItemShape(i)
  }

  // The lines of the text survive the lexer, and no value is one the text cannot say.
  predicate Printable(b: Body) {
    SafeRows(P.BodyRows(b)) && ItemShapes(P.Items(b))
  }

  predicate PrintableRoot(r: Root) {
    forall b | b in r.services :: Printable(b)
  }

  // ----- entries of the service body -----

  // The body after one more entry; `bgp-ls` and `telemetry` may not be repeated.
  function Add(b: Body, i: P.Item): Option<Body> {
    match i
    case SettingItem(s) => Some(b.(settings := b.settings + [s]))
    case PeerItem(p) => Some(b.(peers := b.peers + [p]))
    case BmpItem(x) => Some(b.(bmpServers := b.bmpServers + [x]))
    case RpkiItem(x) => Some(b.(rpkiCaches := b.rpkiCaches + [x]))
    case PolicyItem(p) => Some(b.(policies := b.policies + [p]))
    case PrefixListItem(p) => Some(b.(prefixLists := b.prefixLists + [p]))
    case WordListItem(kind, w) => if kind.PrefixList? then None else Some(AddWordList(kind, w, b))
    case BgpLsItem(v) => if b.bgpLs.Some? then None else Some(b.(bgpLs := Some(v)))
    case TelemetryItem(t) => if b.telemetry.Some? then None else Some(b.(telemetry := Some(t)))
  }

  function AddAll(b: Body, items: seq<P.Item>): Option<Body>
    decreases items
  {
    if items == [] then Some(b)
    else
      var b' :- Add(b, items[0]);
      AddAll(b', items[1..])
  }

  lemma OriginateReads(r: OriginateRoute, b: Body, k: Tokens)
    ensures var t := LineTokens(P.SettingLine(Setting.Originate(r)), Newline(k));
      t.Word? && BodyStatement(t.word, t.rest, b) == Done(b.(settings := b.settings + [Setting.Originate(r)]), k)
  {
    hide Text, KeywordOf, Nested, BlockStatement, SettingStatement;
    KeywordOfText(LeafKw(LeafWord.Originate));
    KeywordOfText(LeafKw(Nexthop));
    var tail := Key(LeafKw(Nexthop), Bare(r.nexthop, Stop));
    NamedTokens(tail, LeafKw(Nexthop), r.nexthop, Newline(k));
    assert LineTokens(Bare(r.prefix, tail), Newline(k)) == Word(r.prefix, LineTokens(tail, Newline(k)));
  }

  lemma BodySettingReads(s: Setting, b: Body, k: Tokens)
    requires SettingShape(s)
    ensures Block(BodyStatement, RowTokens(P.ItemRows(P.SettingItem(s)), k), b) ==
            Block(BodyStatement, k, b.(settings := b.settings + [s]))
  {
    hide Text, KeywordOf, BlockStatement, SettingStatement, OriginateStatement, P.SettingLine;
    var l := P.SettingLine(s);
    assert [Row(0, l)][1..] == [];
    assert RowTokens([Row(0, l)], k) == LineTokens(l, Newline(k)) by { NoRows(k); }
    if s.Originate? {
      OriginateReads(s.route, b, k);
    } else {
      SettingReads(s, k);
    }
  }

  lemma BlockItemReads(i: P.Item, b: Body, b': Body, k: Tokens)
    requires i.PeerItem? || i.PolicyItem? || i.BmpItem? || i.RpkiItem?
    requires ItemShape(i) && Add(b, i) == Some(b')
    ensures Block(BodyStatement, RowTokens(P.ItemRows(i), k), b) == Block(BodyStatement, k, b')
  {
    hide Text, KeywordOf, NamedBlock, Nested, Block, RowTokens, P.PeerRows, P.PolicyRows, P.BmpRows, P.RpkiRows;
    var ts := RowTokens(P.ItemRows(i), k);
    match i {
      case PeerItem(p) => KeywordOfText(BlockKw(BlockKey.Peer)); PeerBlockReads(p, k);
      case PolicyItem(p) => KeywordOfText(BlockKw(BlockKey.Policy)); PolicyBlockReads(p, k);
      case BmpItem(p) => KeywordOfText(BlockKw(BmpServer)); BmpReads(p, k);
      case RpkiItem(p) => KeywordOfText(BlockKw(RpkiCache)); RpkiReads(p, k);
    }
    StepReads(BodyStatement, ts, b, b', k);
  }

  lemma OtherItemReads(i: P.Item, b: Body, b': Body, k: Tokens)
    requires i.PrefixListItem? || i.WordListItem? || i.BgpLsItem? || i.TelemetryItem?
    requires ItemShape(i) && Add(b, i) == Some(b')
    ensures Block(BodyStatement, RowTokens(P.ItemRows(i), k), b) == Block(BodyStatement, k, b')
  {
    hide Text, KeywordOf, NamedBlock, Nested, Block, RowTokens, P.PrefixListRows, P.WordListRows, P.BgpLsRows,
        P.TelemetryRows;
    var ts := RowTokens(P.ItemRows(i), k);
    match i {
      case PrefixListItem(p) => KeywordOfText(SetBlockKw(PrefixList)); PrefixListReads(p, k);
      case WordListItem(kind, w) => KeywordOfText(SetBlockKw(kind)); WordListReads(kind, w, k);
      case BgpLsItem(v) => KeywordOfText(BlockKw(BgpLs)); BgpLsReads(v, k);
      case TelemetryItem(t) => KeywordOfText(BlockKw(Telemetry)); TelemetryReads(t, k);
    }
    StepReads(BodyStatement, ts, b, b', k);
  }

  lemma ItemReads(i: P.Item, b: Body, b': Body, k: Tokens)
    requires ItemShape(i) && Add(b, i) == Some(b')
    ensures Block(BodyStatement, RowTokens(P.ItemRows(i), k), b) == Block(BodyStatement, k, b')
  {
    hide Block, BodyStatement, RowTokens, P.ItemRows;
    if i.SettingItem? {
      BodySettingReads(i.setting, b, k);
    } else if i.PeerItem? || i.PolicyItem? || i.BmpItem? || i.RpkiItem? {
      BlockItemReads(i, b, b', k);
    } else {
      OtherItemReads(i, b, b', k);
    }
  }

  lemma {:induction false} ItemsRead(items: seq<P.Item>, first: bool, b: Body, b': Body, k: Tokens)
    requires ItemShapes(items) && AddAll(b, items) == Some(b')
    ensures Block(BodyStatement, RowTokens(P.ItemsRows(items, first), k), b) == Block(BodyStatement, k, b')
  {
    hide BodyStatement, P.ItemRows, Add, ItemShape;
    if items != [] {
      var next := Add(b, items[0]).value;
      var rows, rest := P.ItemRows(items[0]), P.ItemsRows(items[1..], false);
      var gap := if P.Gap(items[0], first) then [Row(0, Stop)] else [];
      var k' := RowTokens(rest, k);
      RowTokensConcat(gap, Shift(rows) + rest, k);
      RowTokensConcat(Shift(rows), rest, k);
      ShiftTokens(rows, k');
      ItemReads(items[0], b, next, k');
      ItemsRead(items[1..], false, next, b', k);
      var ts := RowTokens(rows, k');
      assert RowTokens([], ts) == ts;
      if gap != [] {
        BlankRow(ts);
        assert Block(BodyStatement, Newline(ts), b) == Block(BodyStatement, ts, b);
      }
    }
  }

  lemma BlankRow(k: Tokens)
    ensures RowTokens([Row(0, Stop)], k) == Newline(k)
  {
    assert [Row(0, Stop)][1..] == [] && RowTokens([], k) == k;
    assert LineTokens(Stop, Newline(k)) == Newline(k);
  }

  // ----- the entries of a body rebuild it -----

  lemma {:induction false} AddSettings(b: Body, ss: seq<Setting>, items: seq<P.Item>, rest: seq<P.Item>)
    requires |items| == |ss| && forall i | 0 <= i < |ss| :: items[i] == P.SettingItem(ss[i])
    ensures AddAll(b, items + rest) == AddAll(b.(settings := b.settings + ss), rest)
    decreases items
  {
    if ss == [] {
      assert items + rest == rest && b.settings + ss == b.settings;
    } else {
      assert (items + rest)[1..] == items[1..] + rest;
      AddSettings(b.(settings := b.settings + [ss[0]]), ss[1..], items[1..], rest);
      assert b.settings + [ss[0]] + ss[1..] == b.settings + ss;
    }
  }

  lemma {:induction false} AddPeers(b: Body, xs: seq<PeerBlock>, items: seq<P.Item>, rest: seq<P.Item>)
    requires |items| == |xs| && forall i | 0 <= i < |xs| :: items[i] == P.PeerItem(xs[i])
    ensures AddAll(b, items + rest) == AddAll(b.(peers := b.peers + xs), rest)
    decreases items
  {
    if xs == [] {
      assert items + rest == rest && b.peers + xs == b.peers;
    } else {
      assert (items + rest)[1..] == items[1..] + rest;
      AddPeers(b.(peers := b.peers + [xs[0]]), xs[1..], items[1..], rest);
      assert b.peers + [xs[0]] + xs[1..] == b.peers + xs;
    }
  }

  lemma {:induction false} AddBmp(b: Body, xs: seq<BmpServerBlock>, items: seq<P.Item>, rest: seq<P.Item>)
    requires |items| == |xs| && forall i | 0 <= i < |xs| :: items[i] == P.BmpItem(xs[i])
    ensures AddAll(b, items + rest) == AddAll(b.(bmpServers := b.bmpServers + xs), rest)
    decreases items
  {
    if xs == [] {
      assert items + rest == rest && b.bmpServers + xs == b.bmpServers;
    } else {
      assert (items + rest)[1..] == items[1..] + rest;
      AddBmp(b.(bmpServers := b.bmpServers + [xs[0]]), xs[1..], items[1..], rest);
      assert b.bmpServers + [xs[0]] + xs[1..] == b.bmpServers + xs;
    }
  }

  lemma {:induction false} AddRpki(b: Body, xs: seq<RpkiCacheBlock>, items: seq<P.Item>, rest: seq<P.Item>)
    requires |items| == |xs| && forall i | 0 <= i < |xs| :: items[i] == P.RpkiItem(xs[i])
    ensures AddAll(b, items + rest) == AddAll(b.(rpkiCaches := b.rpkiCaches + xs), rest)
    decreases items
  {
    if xs == [] {
      assert items + rest == rest && b.rpkiCaches + xs == b.rpkiCaches;
    } else {
      assert (items + rest)[1..] == items[1..] + rest;
      AddRpki(b.(rpkiCaches := b.rpkiCaches + [xs[0]]), xs[1..], items[1..], rest);
      assert b.rpkiCaches + [xs[0]] + xs[1..] == b.rpkiCaches + xs;
    }
  }

  lemma {:induction false} AddPolicies(b: Body, xs: seq<PolicyBlock>, items: seq<P.Item>, rest: seq<P.Item>)
    requires |items| == |xs| && forall i | 0 <= i < |xs| :: items[i] == P.PolicyItem(xs[i])
    ensures AddAll(b, items + rest) == AddAll(b.(policies := b.policies + xs), rest)
    decreases items
  {
    if xs == [] {
      assert items + rest == rest && b.policies + xs == b.policies;
    } else {
      assert (items + rest)[1..] == items[1..] + rest;
      AddPolicies(b.(policies := b.policies + [xs[0]]), xs[1..], items[1..], rest);
      assert b.policies + [xs[0]] + xs[1..] == b.policies + xs;
    }
  }

  lemma {:induction false} AddPrefixLists(b: Body, xs: seq<PrefixListBlock>, items: seq<P.Item>, rest: seq<P.Item>)
    requires |items| == |xs| && forall i | 0 <= i < |xs| :: items[i] == P.PrefixListItem(xs[i])
    ensures AddAll(b, items + rest) == AddAll(b.(prefixLists := b.prefixLists + xs), rest)
    decreases items
  {
    if xs == [] {
      assert items + rest == rest && b.prefixLists + xs == b.prefixLists;
    } else {
      assert (items + rest)[1..] == items[1..] + rest;
      AddPrefixLists(b.(prefixLists := b.prefixLists + [xs[0]]), xs[1..], items[1..], rest);
      assert b.prefixLists + [xs[0]] + xs[1..] == b.prefixLists + xs;
    }
  }

  function WordLists(kind: SetBlockKey, b: Body): seq<WordListBlock>
    requires !kind.PrefixList?
  {
    match kind
    case NeighborSet => b.neighborSets
    case AsPathSet => b.asPathSets
    case CommunitySet => b.communitySets
    case ExtCommunitySet => b.extCommunitySets
    case LargeCommunitySet => b.largeCommunitySets
  }

  function WithWordLists(kind: SetBlockKey, b: Body, ws: seq<WordListBlock>): Body
    requires !kind.PrefixList?
  {
    match kind
    case NeighborSet => b.(neighborSets := ws)
    case AsPathSet => b.(asPathSets := ws)
    case CommunitySet => b.(communitySets := ws)
    case ExtCommunitySet => b.(extCommunitySets := ws)
    case LargeCommunitySet => b.(largeCommunitySets := ws)
  }

  lemma {:induction false} AddWordLists(kind: SetBlockKey, b: Body, ws: seq<WordListBlock>, items: seq<P.Item>,
                                        rest: seq<P.Item>)
    requires !kind.PrefixList?
    requires |items| == |ws| && forall i | 0 <= i < |ws| :: items[i] == P.WordListItem(kind, ws[i])
    ensures AddAll(b, items + rest) == AddAll(WithWordLists(kind, b, WordLists(kind, b) + ws), rest)
    decreases items
  {
    if ws == [] {
      assert items + rest == rest && WordLists(kind, b) + ws == WordLists(kind, b);
    } else {
      assert (items + rest)[1..] == items[1..] + rest;
      var b' := AddWordList(kind, ws[0], b);
      AddWordLists(kind, b', ws[1..], items[1..], rest);
      assert WordLists(kind, b) + [ws[0]] + ws[1..] == WordLists(kind, b) + ws;
    }
  }

  lemma ItemsRebuild(b: Body)
    ensures AddAll(EMPTY_BODY, P.Items(b)) == Some(b)
  {
    hide AddAll, P.SetItems;
    var r6 := P.SetItems(b);
    var i5 := P.Map(b.prefixLists, p => P.PrefixListItem(p));
    var r5 := i5 + r6;
    var i4 := P.Map(b.policies, p => P.PolicyItem(p));
    var r4 := i4 + r5;
    var i3 := P.Map(b.rpkiCaches, p => P.RpkiItem(p));
    var r3 := i3 + r4;
    var i2 := P.Map(b.bmpServers, p => P.BmpItem(p));
    var r2 := i2 + r3;
    var i1 := P.Map(b.peers, p => P.PeerItem(p));
    var r1 := i1 + r2;
    var i0 := P.Map(b.settings, s => P.SettingItem(s));
    assert P.Items(b) == i0 + r1;
    var b0 := EMPTY_BODY.(settings := [] + b.settings);
    AddSettings(EMPTY_BODY, b.settings, i0, r1);
    var b1 := b0.(peers := [] + b.peers);
    AddPeers(b0, b.peers, i1, r2);
    var b2 := b1.(bmpServers := [] + b.bmpServers);
    AddBmp(b1, b.bmpServers, i2, r3);
    var b3 := b2.(rpkiCaches := [] + b.rpkiCaches);
    AddRpki(b2, b.rpkiCaches, i3, r4);
    var b4 := b3.(policies := [] + b.policies);
    AddPolicies(b3, b.policies, i4, r5);
    var b5 := b4.(prefixLists := [] + b.prefixLists);
    AddPrefixLists(b4, b.prefixLists, i5, r6);
    SetItemsRebuild(b, b5);
  }

  lemma SetItemsRebuild(b: Body, b5: Body)
    requires b5 == EMPTY_BODY.(settings := b.settings, peers := b.peers, bmpServers := b.bmpServers,
                               rpkiCaches := b.rpkiCaches, policies := b.policies, prefixLists := b.prefixLists)
    ensures AddAll(b5, P.SetItems(b)) == Some(b)
  {
    hide AddAll;
    var bgpLs := if b.bgpLs.Some? then [P.BgpLsItem(b.bgpLs.value)] else [];
    var telemetry := if b.telemetry.Some? then [P.TelemetryItem(b.telemetry.value)] else [];
    var r11 := bgpLs + telemetry;
    var i10 := P.Map(b.largeCommunitySets, p => P.WordListItem(SetBlockKey.LargeCommunitySet, p));
    var r10 := i10 + r11;
    var i9 := P.Map(b.extCommunitySets, p => P.WordListItem(SetBlockKey.ExtCommunitySet, p));
    var r9 := i9 + r10;
    var i8 := P.Map(b.communitySets, p => P.WordListItem(SetBlockKey.CommunitySet, p));
    var r8 := i8 + r9;
    var i7 := P.Map(b.asPathSets, p => P.WordListItem(SetBlockKey.AsPathSet, p));
    var r7 := i7 + r8;
    var i6 := P.Map(b.neighborSets, p => P.WordListItem(SetBlockKey.NeighborSet, p));
    assert P.SetItems(b) == i6 + r7;
    var b6 := b5.(neighborSets := [] + b.neighborSets);
    AddWordLists(SetBlockKey.NeighborSet, b5, b.neighborSets, i6, r7);
    var b7 := b6.(asPathSets := [] + b.asPathSets);
    AddWordLists(SetBlockKey.AsPathSet, b6, b.asPathSets, i7, r8);
    var b8 := b7.(communitySets := [] + b.communitySets);
    AddWordLists(SetBlockKey.CommunitySet, b7, b.communitySets, i8, r9);
    var b9 := b8.(extCommunitySets := [] + b.extCommunitySets);
    AddWordLists(SetBlockKey.ExtCommunitySet, b8, b.extCommunitySets, i9, r10);
    var b10 := b9.(largeCommunitySets := [] + b.largeCommunitySets);
    AddWordLists(SetBlockKey.LargeCommunitySet, b9, b.largeCommunitySets, i10, r11);
    assert b10 == b.(bgpLs := None, telemetry := None);
    AddOptions(b, b10, bgpLs, telemetry);
  }

  lemma AddOptions(b: Body, b0: Body, bgpLs: seq<P.Item>, telemetry: seq<P.Item>)
    requires b0 == b.(bgpLs := None, telemetry := None)
    requires bgpLs == if b.bgpLs.Some? then [P.BgpLsItem(b.bgpLs.value)] else []
    requires telemetry == if b.telemetry.Some? then [P.TelemetryItem(b.telemetry.value)] else []
    ensures AddAll(b0, bgpLs + telemetry) == Some(b)
  {
    var b1 := b0.(bgpLs := b.bgpLs);
    assert AddAll(b1, telemetry) == Some(b);
    if b.bgpLs.Some? {
      assert (bgpLs + telemetry)[1..] == telemetry;
    } else {
      assert bgpLs + telemetry == telemetry;
    }
  }

  // ----- services -----

  lemma BodyReads(b: Body, k: Tokens)
    requires ItemShapes(P.Items(b))
    ensures RowTokens(P.BodyRows(b), k) ==
            Word(Text(BlockKw(Service)), Word(Text(BlockKw(Bgp)), Open(Newline(
              RowTokens(P.ItemsRows(P.Items(b), true), Close(Newline(k)))))))
    ensures Block(BodyStatement, Newline(RowTokens(P.ItemsRows(P.Items(b), true), Close(Newline(k)))), EMPTY_BODY) ==
            Done(b, Newline(k))
  {
    hide Text, BodyStatement, P.Items, P.ItemsRows, ItemShapes;
    var rows := P.ItemsRows(P.Items(b), true);
    var inner := RowTokens(rows, Close(Newline(k)));
    BlockTokens(P.SERVICE_HEADER, rows, k);
    var tail := Key(BlockKw(Bgp), OpenBrace(Stop));
    assert LineTokens(OpenBrace(Stop), Newline(inner)) == Open(Newline(inner));
    assert LineTokens(tail, Newline(inner)) == Word(Text(BlockKw(Bgp)), Open(Newline(inner)));
    ItemsRebuild(b);
    ItemsRead(P.Items(b), true, EMPTY_BODY, b, Close(Newline(k)));
    assert Block(BodyStatement, Close(Newline(k)), b) == Done(b, Newline(k));
  }

  lemma {:induction false} ServicesRead(bodies: seq<Body>, first: bool, root: Root)
    requires forall b | b in bodies :: ItemShapes(P.Items(b))
    ensures ParseRoot(RowTokens(P.ServicesRows(bodies, first), End), root) == Ok(Root(root.services + bodies))
  {
    hide Text, KeywordOf, BodyStatement, Block, P.BodyRows, P.ItemsRows, P.Items, ItemShapes;
    if bodies == [] {
      assert root.services + bodies == root.services;
    } else {
      var rest := P.ServicesRows(bodies[1..], false);
      var k := RowTokens(rest, End);
      var gap := if first then [] else [Row(0, Stop)];
      RowTokensConcat(gap, P.BodyRows(bodies[0]) + rest, End);
      RowTokensConcat(P.BodyRows(bodies[0]), rest, End);
      BodyReads(bodies[0], k);
      KeywordOfText(BlockKw(Service));
      KeywordOfText(BlockKw(Bgp));
      ServicesRead(bodies[1..], false, Root(root.services + [bodies[0]]));
      assert root.services + [bodies[0]] + bodies[1..] == root.services + bodies;
      ServiceStep(RowTokens(P.BodyRows(bodies[0]), k), bodies[0], k, root);
      NoRows(RowTokens(P.BodyRows(bodies[0]), k));
      BlankRow(RowTokens(P.BodyRows(bodies[0]), k));
    }
  }

  lemma ServiceStep(ts: Tokens, body: Body, k: Tokens, root: Root)
    requires ts.Word? && ts.rest.Word? && ts.rest.rest.Open?
    requires KeywordOf(ts.word) == Some(BlockKw(Service)) && KeywordOf(ts.rest.word) == Some(BlockKw(Bgp))
    requires Block(BodyStatement, ts.rest.rest.rest, EMPTY_BODY) == Done(body, Newline(k))
    ensures ParseRoot(ts, root) == ParseRoot(k, Root(root.services + [body]))
  {
    hide KeywordOf, BodyStatement, Block, Balanced, AfterBlock;
    var next := Root(root.services + [body]);
    assert ExpectOpen(ts.rest.rest) == Done((), ts.rest.rest.rest);
    assert ParseRoot(Newline(k), next) == ParseRoot(k, next);
  }

  // Parsing the text of a printable configuration gives that configuration back.
  lemma ParsePrinted(r: Root)
    requires PrintableRoot(r)
    ensures Parse(P.RootText(r)) == Ok(r)
  {
    hide P.BodyRows, P.Items, ItemShapes, RowTexts, P.ServicesRows, P.ServicesText, Lines, LexLines, RowTokens;
    var rows := P.ServicesRows(r.services, true);
    ServicesTextRows(r.services, true);
    SafeRowsClean(rows);
    LinesOfTerminated(RowTexts(rows));
    LexRows(rows);
    ServicesRead(r.services, true, Root([]));
    assert [] + r.services == r.services;
  }

  // Two printable configurations with the same text are the same.
  lemma PrintedInjective(a: Root, b: Root)
    requires PrintableRoot(a) && PrintableRoot(b) && P.RootText(a) == P.RootText(b)
    ensures a == b
  {
    hide P.RootText, Parse, PrintableRoot;
    ParsePrinted(a);
    ParsePrinted(b);
  }
}
