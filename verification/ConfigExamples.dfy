// Inputs at which promises of the configuration language fail (conf/src/language_bgp.rs,
// conf/src/bgp.rs). When they hold is settled by the theorems named with each.
module ConfigExamples {
  import P = Printer
  import opened Ast
  import opened ConfigForms
  import opened Decimal
  import opened Keywords
  import opened Layout
  import opened Leaves
  import opened Lexer
  import opened Lowering
  import opened ParsedForms
  import opened Parser
  import opened PeerForms
  import opened PlainForms
  import opened Texts
  import opened Wrappers

  // ----- Leaves.SettingReadsExactly -----

  // `originate` prints inside a peer, where the parser refuses it.
  lemma OriginateInPeer(p: PeerBlock, k: Tokens)
    ensures var s := Setting.Originate(OriginateRoute("192.0.2.0/24", "192.0.2.1"));
      var t := LineTokens(P.SettingLine(s), Newline(k));
      t.Word? && PeerStatement(t.word, t.rest, p).Fail?
  {
    hide Text, KeywordOf;
    KeywordOfText(LeafKw(LeafWord.Originate));
  }

  // A name that holds a quote comes back without it.
  lemma QuoteInName(k: Tokens)
    ensures var t := LineTokens(P.SettingLine(Setting.SysName("a\"b")), Newline(k));
      t.Word? && SettingStatement(t.word, t.rest) == Done(Setting.SysName("ab"), k)
  {
    hide Text, KeywordOf;
    var key := TopKw(TopKey.SysName);
    KeywordOfText(key);
    Unquote();
    NamedTokens(Key(key, Quoted("ab", Stop)), key, "ab", Newline(k));
  }

  lemma Unquote()
    ensures P.SettingLine(Setting.SysName("a\"b")) == Key(TopKw(TopKey.SysName), Quoted("ab", Stop))
  {
    hide Text, P.Unquoted, P.NeedsQuotes;
    QuoteDropped();
  }

  lemma QuoteDropped()
    ensures P.NeedsQuotes("a\"b") && P.Unquoted("a\"b") == "ab"
  {
    var s := "a\"b";
    assert P.NeedsQuotes(s) by { assert s[1] in s; }
    var t := s[1..];
    var u := t[1..];
    assert t[0] == '"' && u == ['b'];
    assert P.Unquoted(u) == u;
    assert P.Unquoted(t) == [] + P.Unquoted(u);
    assert P.Unquoted(s) == ['a'] + P.Unquoted(t);
  }

  // ----- Leaves.MasklengthReadsExactly -----

  // A range without bounds prints as nothing. Only a built entry can hold one: no text
  // yields it (ParsedForms.RootBounded).
  lemma UnboundedRange(k: Tokens)
    ensures var e := PrefixListEntry("192.0.2.0/24", Some(Range(None, None)));
      var t := LineTokens(P.EntryLine(e), Newline(k));
      t == Word(e.prefix, Newline(k)) && MasklengthTail(t.rest, false, None, None) == Done(None, Newline(k))
  {
    hide KeywordOf;
  }

  // ----- ConfigForms.RenderThenLower -----

  const SILENT_PEER := DefaultPeer("192.0.2.2").(idleHoldTimeSecs := None)
  const NO_IDLE_HOLD := BgpConfig(DEFAULT_GLOBALS, [SILENT_PEER], [], [], [], [], [], [], [], [], [], 0, None)

  // A peer without an idle hold time comes back with the default one.
  lemma UnsetIdleHold(ip: AddressParser)
    ensures Lower(Render(NO_IDLE_HOLD), ip) != Some(NO_IDLE_HOLD)
    ensures LowerPeer(RenderPeer(NO_IDLE_HOLD.peers[0])) == DefaultPeer("192.0.2.2")
  {
    hide Lower, Render, ApplyPeerSettings, PeerSettings;
    var p := NO_IDLE_HOLD.peers[0];
    RenderThenLower(NO_IDLE_HOLD, ip);
    assert p in NO_IDLE_HOLD.peers && !PeerExpressible(p);
    SettingsBack(p);
    assert Families([]) == [] && ApplyFamilies([], []) == [];
  }

  // ----- ParsedForms.LoadedFixedPoint -----

  const EMPTY_FAMILY_FILE :=
    ["service bgp {",
     "  asn 7",
     "  router-id 1.2.3.4",
     "",
     "  peer 192.0.2.2 {",
     "  ",
     "    family ipv4 unicast {",
     "    }",
     "  }",
     "}"]

  const FAMILY := FamilyBlock(Ipv4Afi, Safi.Unicast, [])
  const PEER := PeerBlock("192.0.2.2", [], [FAMILY])
  const ROUTER := Ipv4.Ipv4(1, 2, 3, 4)
  const SETTINGS := [Setting.Asn(7), Setting.RouterId(ROUTER)]
  const SERVICE := EMPTY_BODY.(settings := SETTINGS).(peers := [PEER])

  function FileRows(): seq<Row> {
    [Row(0, P.SERVICE_HEADER),
     Row(1, P.SettingLine(Setting.Asn(7))),
     Row(1, P.SettingLine(Setting.RouterId(ROUTER))),
     Row(0, Stop),
     Row(1, P.Header(BlockKw(BlockKey.Peer), "192.0.2.2")),
     Row(1, Stop),
     Row(2, Key(BlockKw(Family), Key(P.AfiWord(Ipv4Afi), Key(P.SafiWord(Safi.Unicast), OpenBrace(Stop))))),
     Row(2, CloseBrace(Stop)),
     Row(1, CloseBrace(Stop)),
     Row(0, CloseBrace(Stop))]
  }

  lemma PeerRowsAre()
    ensures Shift(P.PeerRows(PEER)) == FileRows()[4..9]
  {
    hide P.SettingLine;
    var f := P.FamilyRows(FAMILY);
    assert P.Each(FAMILY.directives, P.DirectiveLine) == [];
    assert f == [FileRows()[6].(indent := 0), Row(0, CloseBrace(Stop))];
    assert P.Flatten([FAMILY], P.PeerFamilyRows) == P.PeerFamilyRows(FAMILY) by { assert [FAMILY][1..] == []; }
    assert P.Each(PEER.settings, P.SettingLine) == [];
  }

  function ItemList(): seq<P.Item> {
    [P.SettingItem(Setting.Asn(7)), P.SettingItem(Setting.RouterId(ROUTER)), P.PeerItem(PEER)]
  }

  lemma ItemsAre()
    ensures P.Items(SERVICE) == ItemList()
  {
    assert P.SetItems(SERVICE) == [];
    hide P.SetItems;
    assert P.Map(SERVICE.settings, s => P.SettingItem(s)) == ItemList()[..2];
    assert P.Map(SERVICE.peers, p => P.PeerItem(p)) == ItemList()[2..];
  }

  lemma SettingRow(s: Setting)
    ensures Shift(P.ItemRows(P.SettingItem(s))) == [Row(1, P.SettingLine(s))]
  {
    hide P.SettingLine;
  }

  lemma ServiceRowsAre()
    ensures P.BodyRows(SERVICE) == FileRows()
  {
    hide P.SettingLine, P.PeerRows, P.Items, P.ItemRows, FileRows;
    ItemsAre();
    var items := ItemList();
    var two := items[1..];
    var one := two[1..];
    assert one[1..] == [] && P.ItemsRows([], false) == [];
    assert P.ItemRows(one[0]) == P.PeerRows(PEER) by { PeerItemRows(); }
    assert P.ItemsRows(one, false) == [Row(0, Stop)] + Shift(P.PeerRows(PEER));
    SettingRow(Setting.RouterId(ROUTER));
    SettingRow(Setting.Asn(7));
    assert P.ItemsRows(two, false) == [Row(1, P.SettingLine(Setting.RouterId(ROUTER)))] + P.ItemsRows(one, false);
    assert P.ItemsRows(items, true) == [Row(1, P.SettingLine(Setting.Asn(7)))] + P.ItemsRows(two, false);
    hide P.ItemsRows;
    PeerRowsAre();
    RowsJoin();
  }

  lemma PeerItemRows()
    ensures P.ItemRows(P.PeerItem(PEER)) == P.PeerRows(PEER)
  {
  }

  lemma RowsJoin()
    ensures var rows := [Row(1, P.SettingLine(Setting.Asn(7)))]
                        + ([Row(1, P.SettingLine(Setting.RouterId(ROUTER)))] + ([Row(0, Stop)] + FileRows()[4..9]));
      P.Block(P.SERVICE_HEADER, rows) == FileRows()
  {
    hide P.SettingLine;
  }

  // ----- the lines of the file -----

  lemma Indents()
    ensures Spaces(0) == "" && Spaces(2) == "  " && Spaces(4) == "    "
  {
    assert Spaces(1) == " " && Spaces(3) == "   ";
  }

  lemma ValueLine(k: Keyword, w: string)
    ensures LineText(P.Named(k, w)) == Text(k) + " " + w
  {
    hide Text;
    assert LineText(Bare(w, Stop)) == w + [] && w + [] == w;
    assert Text(k) + (" " + w) == Text(k) + " " + w;
  }

  lemma HeaderLine(k: Keyword, w: string)
    ensures LineText(P.Header(k, w)) == Text(k) + " " + w + " {"
  {
    hide Text;
    assert LineText(OpenBrace(Stop)) == "{" by { assert "{" + [] == "{"; }
    assert LineText(Bare(w, OpenBrace(Stop))) == w + (" " + "{");
    assert Text(k) + (" " + (w + (" " + "{"))) == Text(k) + " " + w + " {";
  }

  lemma KeysLine(a: Keyword, b: Keyword)
    ensures LineText(Key(a, Key(b, OpenBrace(Stop)))) == Text(a) + " " + Text(b) + " {"
  {
    hide Text;
    assert LineText(OpenBrace(Stop)) == "{" by { assert "{" + [] == "{"; }
    assert LineText(Key(b, OpenBrace(Stop))) == Text(b) + (" " + "{");
    assert Text(a) + (" " + (Text(b) + (" " + "{"))) == Text(a) + " " + Text(b) + " {";
  }

  lemma FamilyLine(a: Keyword, b: Keyword, c: Keyword)
    ensures LineText(Key(a, Key(b, Key(c, OpenBrace(Stop))))) == Text(a) + " " + Text(b) + " " + Text(c) + " {"
  {
    hide Text;
    KeysLine(b, c);
    assert Text(a) + (" " + (Text(b) + " " + Text(c) + " {")) == Text(a) + " " + Text(b) + " " + Text(c) + " {";
  }

  lemma SmallNumbers()
    ensures Digits(7) == "7" && Ipv4Text(ROUTER) == "1.2.3.4"
  {
    assert Digits(1) == "1" && Digits(2) == "2" && Digits(3) == "3" && Digits(4) == "4";
  }

  lemma Words()
    ensures Text(BlockKw(Service)) == "service" && Text(BlockKw(Bgp)) == "bgp" && Text(BlockKw(BlockKey.Peer)) == "peer"
    ensures Text(BlockKw(Family)) == "family" && Text(ValueKw(ValueWord.Ipv4)) == "ipv4"
    ensures Text(ValueKw(ValueWord.Unicast)) == "unicast"
    ensures Text(TopKw(TopKey.Asn)) == "asn" && Text(TopKw(TopKey.RouterId)) == "router-id"
  {
  }

  lemma FirstLines()
    ensures RowText(FileRows()[0]) == EMPTY_FAMILY_FILE[0]
    ensures RowText(FileRows()[1]) == EMPTY_FAMILY_FILE[1]
    ensures RowText(FileRows()[2]) == EMPTY_FAMILY_FILE[2]
  {
    hide Text, LineText, Digits, Ipv4Text, Spaces;
    Indents();
    Words();
    SmallNumbers();
    KeysLine(BlockKw(Service), BlockKw(Bgp));
    ValueLine(TopKw(TopKey.Asn), "7");
    ValueLine(TopKw(TopKey.RouterId), "1.2.3.4");
  }

  lemma PeerLines()
    ensures RowText(FileRows()[4]) == EMPTY_FAMILY_FILE[4]
    ensures RowText(FileRows()[6]) == EMPTY_FAMILY_FILE[6]
  {
    hide Text, LineText, Digits, Ipv4Text, Spaces, P.SettingLine;
    Indents();
    Words();
    HeaderLine(BlockKw(BlockKey.Peer), "192.0.2.2");
    FamilyLine(BlockKw(Family), ValueKw(ValueWord.Ipv4), ValueKw(ValueWord.Unicast));
  }

  lemma ClosingLines()
    ensures RowText(FileRows()[3]) == "" && RowText(FileRows()[5]) == EMPTY_FAMILY_FILE[5]
    ensures RowText(FileRows()[7]) == EMPTY_FAMILY_FILE[7]
    ensures RowText(FileRows()[8]) == EMPTY_FAMILY_FILE[8]
    ensures RowText(FileRows()[9]) == EMPTY_FAMILY_FILE[9]
  {
    hide Text, Digits, Ipv4Text, Spaces, P.SettingLine;
    Indents();
    assert LineText(CloseBrace(Stop)) == "}" by { assert "}" + [] == "}"; }
  }

  lemma FileTexts()
    ensures RowTexts(FileRows()) == EMPTY_FAMILY_FILE
  {
    hide RowText;
    FirstLines();
    PeerLines();
    ClosingLines();
    var ss := RowTexts(FileRows());
    assert |FileRows()| == 10;
    forall i | 0 <= i < 10 ensures ss[i] == EMPTY_FAMILY_FILE[i] {}
  }

  // ----- the file as a whole -----

  const FILE := Terminated(EMPTY_FAMILY_FILE)

  lemma AddressPlain()
    ensures PlainWord("192.0.2.2")
  {
  }

  lemma ServicePlain()
    ensures PlainBody(SERVICE)
  {
    hide PlainWord;
    AddressPlain();
    assert PlainPeer(PEER);
    assert PlainSetting(Setting.Asn(7)) && PlainSetting(Setting.RouterId(ROUTER));
    hide PlainPeer, PlainSetting;
    assert forall s | s in SERVICE.settings :: s == Setting.Asn(7) || s == Setting.RouterId(ROUTER);
    assert forall p | p in SERVICE.peers :: p == PEER;
  }

  lemma FileParses()
    ensures Parse(FILE) == Ok(Root([SERVICE]))
  {
    hide P.BodyRows, P.BodyText, RowTexts, PlainBody, Parse, Terminated, FileRows;
    ServicePlain();
    PlainRoundTrip(Root([SERVICE]));
    PlainPrintable(SERVICE);
    ServicesTextRows([SERVICE], true);
    ServiceRowsAre();
    FileTexts();
    assert [SERVICE][1..] == [];
    assert P.ServicesRows([SERVICE], true) == P.BodyRows(SERVICE);
  }

  const ENTRY := NewEntry(Ipv4Afi, Safi.Unicast)
  const LOADED_PEER := DefaultPeer("192.0.2.2").(afiSafis := [ENTRY])
  const LOADED := BgpConfig(DEFAULT_GLOBALS.(asn := 7).(routerId := ROUTER), [LOADED_PEER], [], [], [], [], [], [], [],
                            [], [], 0, None)

  // The file is loaded with an entry for its family, which rendering drops.
  lemma EmptyFamilyLost(ip: AddressParser)
    requires ip("192.0.2.2").Some?
    ensures FromConfStr(FILE, ip) == Some(LOADED)
    ensures Lower(Render(LOADED), ip) != Some(LOADED)
  {
    hide Parse, Render, Lower, Terminated;
    assert FromConfStr(FILE, ip) == Some(LOADED) by {
      FileParses();
      ServiceLowers(ip);
      assert [SERVICE][0] == SERVICE;
    }
    hide FromConfStr;
    LoadedFixedPoint(FILE, ip, LOADED);
    SilentEntry();
  }

  lemma SilentEntry()
    ensures !FamiliesSay(LOADED)
  {
    assert ENTRY in LOADED_PEER.afiSafis && LOADED_PEER in LOADED.peers;
  }

  lemma ServiceLowers(ip: AddressParser)
    requires ip("192.0.2.2").Some?
    ensures Lower(SERVICE, ip) == Some(LOADED)
  {
    TopsApply();
    PeerInserted(ip);
    hide ApplyTops, InsertPeers;
    var ss := SERVICE.settings;
    assert ss[0].Asn? && ss[1].RouterId? && ss[0] in ss && ss[1] in ss;
    assert exists s | s in ss :: s.Asn?;
    assert exists s | s in ss :: s.RouterId?;
    assert LowerPolicies([]) == Some([]) && LowerPrefixLists([]) == [] && LowerRpkis([]) == [];
  }

  lemma TopsApply()
    ensures ApplyTops(DEFAULT_GLOBALS, SETTINGS) == DEFAULT_GLOBALS.(asn := 7).(routerId := ROUTER)
  {
    var ss := SETTINGS;
    var rest := ss[1..];
    var g := DEFAULT_GLOBALS.(asn := 7);
    assert rest == [Setting.RouterId(ROUTER)] && rest[1..] == [];
    assert ApplyTops(g.(routerId := ROUTER), rest[1..]) == g.(routerId := ROUTER);
    assert ApplyTops(g, rest) == ApplyTops(ApplyTop(g, rest[0]), rest[1..]);
    assert ApplyTops(DEFAULT_GLOBALS, ss) == ApplyTops(ApplyTop(DEFAULT_GLOBALS, ss[0]), ss[1..]);
  }

  lemma PeerInserted(ip: AddressParser)
    requires ip("192.0.2.2").Some?
    ensures InsertPeers([], [PEER], ip) == Some([LOADED_PEER])
  {
    PeerLowers();
    hide LowerPeer;
    var bs := [PEER];
    assert bs[1..] == [] && [] + [LOADED_PEER] == [LOADED_PEER];
    assert InsertPeers([LOADED_PEER], bs[1..], ip) == Some([LOADED_PEER]);
    assert InsertPeers([], bs, ip) == InsertPeers([] + [LOADED_PEER], bs[1..], ip);
  }

  lemma PeerLowers()
    ensures LowerPeer(PEER) == LOADED_PEER
  {
    var fs := [FAMILY];
    assert ApplyDirectives(ENTRY, FAMILY.directives) == ENTRY;
    assert ApplyFamily([], FAMILY) == [] + [ENTRY];
    assert fs[1..] == [] && ApplyFamilies([ENTRY], fs[1..]) == [ENTRY];
    assert ApplyFamilies([], fs) == ApplyFamilies(ApplyFamily([], FAMILY), fs[1..]);
    assert ApplyPeerSettings(DefaultPeer("192.0.2.2"), PEER.settings) == DefaultPeer("192.0.2.2");
  }
}
