// The text of a printed configuration, line by line.  The printers cut nested blocks into
// lines and indent them again; when every line is safe, what comes out is exactly the
// rows of the outer block with the inner ones shifted.
module Texts {
  import P = Printer
  import opened Ast
  import opened Keywords
  import opened Layout

  lemma TextsConcat(a: seq<Row>, b: seq<Row>)
    ensures RowTexts(a + b) == RowTexts(a) + RowTexts(b)
    ensures SafeRows(a + b) <==> SafeRows(a) && SafeRows(b)
  {
    hide RowText;
    assert forall r :: r in a + b <==> r in a || r in b;
  }

  lemma ShiftSafe(rs: seq<Row>)
    ensures SafeRows(Shift(rs)) <==> SafeRows(rs)
  {
    if SafeRows(Shift(rs)) {
      forall i | 0 <= i < |rs| ensures Safe(rs[i].line, false) {
        assert Shift(rs)[i] in Shift(rs);
      }
    }
  }

  lemma BlockTexts(header: Line, rows: seq<Row>)
    ensures RowTexts(P.Block(header, rows)) ==
            RowTexts([Row(0, header)]) + RowTexts(rows) + RowTexts([Row(0, CloseBrace(Stop))])
    ensures SafeRows(P.Block(header, rows)) ==> SafeRows(rows)
  {
    hide RowText;
    TextsConcat([Row(0, header)] + rows, [Row(0, CloseBrace(Stop))]);
    TextsConcat([Row(0, header)], rows);
  }

  // A block is re-indented by shifting its rows.
  lemma ReindentBlock(header: Line, rows: seq<Row>)
    requires SafeRows(P.Block(header, rows))
    ensures Reindent(P.RowsText(P.Block(header, rows))) == RowTexts(Shift(P.Block(header, rows)))
  {
    ReindentRows(P.Block(header, rows));
  }

  // ----- policies -----

  lemma {:induction false} RuleTexts(rs: seq<PolicyRule>)
    requires SafeRows(P.Flatten(rs, P.RuleRows))
    ensures P.Flatten(rs, P.RuleLines) == RowTexts(P.Flatten(rs, P.RuleRows))
  {
    hide RowText, Reindent, P.StatementHeader, P.RowsText;
    if rs != [] {
      var rest := P.Flatten(rs[1..], P.RuleRows);
      TextsConcat(P.RuleRows(rs[0]), rest);
      RuleTexts(rs[1..]);
      if rs[0].StatementRule? {
        var b := rs[0].statement;
        ShiftSafe(P.StatementRows(b));
        ReindentStatement(b);
      }
    }
  }

  lemma ReindentStatement(b: StatementBlock)
    requires SafeRows(P.StatementRows(b))
    ensures Reindent(P.RowsText(P.StatementRows(b))) == RowTexts(Shift(P.StatementRows(b)))
  {
    hide RowText, Reindent, P.RowsText, Shift, SafeRows;
    ReindentBlock(P.StatementHeader(b.name),
                  P.Each(b.matches, P.MatchLine) +
                  (P.Each(b.sets, P.SetLine) + P.Optional(b.disposition, P.DispositionLine)));
  }

  lemma PolicyTextRows(p: PolicyBlock)
    requires SafeRows(P.PolicyRows(p))
    ensures P.PolicyText(p) == P.RowsText(P.PolicyRows(p))
  {
    hide RowText, P.RuleRows, P.RuleLines, P.Header, SafeRows;
    var rows := P.Flatten(p.rules, P.RuleRows);
    BlockTexts(P.Header(BlockKw(BlockKey.Policy), p.name), rows);
    RuleTexts(p.rules);
  }

  // ----- peers -----

  lemma {:induction false} FamilyTexts(fs: seq<FamilyBlock>)
    requires SafeRows(P.Flatten(fs, P.PeerFamilyRows))
    ensures P.Flatten(fs, P.PeerFamilyLines) == RowTexts(P.Flatten(fs, P.PeerFamilyRows))
  {
    hide RowText, Reindent, P.RowsText, P.FamilyRows;
    if fs != [] {
      var rest := P.Flatten(fs[1..], P.PeerFamilyRows);
      var rows := P.FamilyRows(fs[0]);
      TextsConcat(P.PeerFamilyRows(fs[0]), rest);
      TextsConcat([Row(0, Stop)], Shift(rows));
      FamilyTexts(fs[1..]);
      ShiftSafe(rows);
      ReindentFamily(fs[0]);
      BlankText();
    }
  }

  lemma BlankText()
    ensures RowTexts([Row(0, Stop)]) == [""]
  {
    assert Spaces(0) + LineText(Stop) == [];
  }

  lemma ReindentFamily(f: FamilyBlock)
    requires SafeRows(P.FamilyRows(f))
    ensures Reindent(P.RowsText(P.FamilyRows(f))) == RowTexts(Shift(P.FamilyRows(f)))
  {
    hide RowText, Reindent, P.RowsText, Shift, SafeRows, P.AfiWord, P.SafiWord;
    ReindentBlock(P.FamilyRows(f)[0].line, P.Each(f.directives, P.DirectiveLine));
  }

  lemma PeerTextRows(p: PeerBlock)
    requires SafeRows(P.PeerRows(p))
    ensures P.PeerText(p) == P.RowsText(P.PeerRows(p))
  {
    hide RowText, P.PeerFamilyRows, P.PeerFamilyLines, P.SettingLine, P.Header, SafeRows;
    var ss, fs := P.Each(p.settings, P.SettingLine), P.Flatten(p.families, P.PeerFamilyRows);
    BlockTexts(P.Header(BlockKw(BlockKey.Peer), p.address), ss + fs);
    TextsConcat(ss, fs);
    FamilyTexts(p.families);
  }

  // ----- bodies and services -----

  lemma BlockItemLines(i: P.Item)
    requires SafeRows(P.ItemRows(i)) && !i.SettingItem?
    ensures P.ItemLines(i) == RowTexts(Shift(P.ItemRows(i)))
  {
    hide RowText, P.PeerRows, P.PolicyRows, P.PeerText, P.PolicyText, SafeRows, Safe;
    match i {
      case PeerItem(p) => PeerTextRows(p);
      case PolicyItem(p) => PolicyTextRows(p);
      case _ =>
    }
    ItemIsBlock(i);
    ReindentRows(P.ItemRows(i));
  }

  lemma ItemIsBlock(i: P.Item)
    requires !i.SettingItem?
    ensures var rs := P.ItemRows(i); rs != [] && rs[|rs| - 1].line == CloseBrace(Stop)
  {
    hide P.Flatten, P.Each, P.RpkiScalars, P.TelemetryParts, P.NumberRow, P.Header;
  }

  lemma {:induction false} ItemTexts(items: seq<P.Item>, first: bool)
    requires SafeRows(P.ItemsRows(items, first))
    ensures P.ItemsLines(items, first) == RowTexts(P.ItemsRows(items, first))
  {
    hide RowText, P.ItemRows, P.ItemText, P.SettingLine, Reindent;
    if items != [] {
      var i := items[0];
      var gap := if P.Gap(i, first) then [Row(0, Stop)] else [];
      var rows, rest := Shift(P.ItemRows(i)), P.ItemsRows(items[1..], false);
      TextsConcat(gap, rows + rest);
      TextsConcat(rows, rest);
      ItemTexts(items[1..], false);
      ShiftSafe(P.ItemRows(i));
      BlankText();
      if i.SettingItem? {
        SettingItemLines(i);
      } else {
        BlockItemLines(i);
      }
    }
  }

  lemma SettingItemLines(i: P.Item)
    requires i.SettingItem?
    ensures P.ItemLines(i) == RowTexts(Shift(P.ItemRows(i)))
  {
    hide RowText, P.SettingLine;
    assert Shift(P.ItemRows(i)) == [Row(1, P.SettingLine(i.setting))];
  }

  lemma BodyTextRows(b: Body)
    requires SafeRows(P.BodyRows(b))
    ensures P.BodyText(b) == P.RowsText(P.BodyRows(b))
  {
    hide RowText, P.Items, P.ItemsRows, P.ItemsLines, SafeRows;
    BlockTexts(P.SERVICE_HEADER, P.ItemsRows(P.Items(b), true));
    ItemTexts(P.Items(b), true);
  }

  lemma {:induction false} JoinedTerminated(ls: seq<string>)
    requires ls != []
    ensures Joined(ls) + "\n" == Terminated(ls)
  {
    if |ls| > 1 {
      JoinedTerminated(ls[1..]);
      assert ls[0] + "\n" + Joined(ls[1..]) + "\n" == ls[0] + "\n" + (Joined(ls[1..]) + "\n");
    } else {
      assert ls[1..] == [] && ls[0] + "\n" + [] == ls[0] + "\n";
    }
  }

  lemma {:induction false} TerminatedConcat(a: seq<string>, b: seq<string>)
    ensures Terminated(a + b) == Terminated(a) + Terminated(b)
  {
    if a == [] {
      assert a + b == b;
    } else {
      TerminatedConcat(a[1..], b);
      assert (a + b)[1..] == a[1..] + b;
      assert a[0] + "\n" + (Terminated(a[1..]) + Terminated(b)) == a[0] + "\n" + Terminated(a[1..]) + Terminated(b);
    }
  }

  lemma {:induction false} ServicesTextRows(bodies: seq<Body>, first: bool)
    requires forall b | b in bodies :: SafeRows(P.BodyRows(b))
    ensures SafeRows(P.ServicesRows(bodies, first))
    ensures P.ServicesText(bodies, first) == Terminated(RowTexts(P.ServicesRows(bodies, first)))
  {
    hide RowText, P.BodyRows, P.BodyText;
    if bodies != [] {
      var gap := if first then [] else [Row(0, Stop)];
      var rows, rest := P.BodyRows(bodies[0]), P.ServicesRows(bodies[1..], false);
      ServicesTextRows(bodies[1..], false);
      TextsConcat(gap, rows + rest);
      TextsConcat(rows, rest);
      BlankText();
      BodyTextRows(bodies[0]);
      assert rows != [] by { assert |P.Block(P.SERVICE_HEADER, P.ItemsRows(P.Items(bodies[0]), true))| >= 2;
        BodyNotEmpty(bodies[0]); }
      JoinedTerminated(RowTexts(rows));
      TerminatedConcat(RowTexts(rows), RowTexts(rest));
      TerminatedConcat(RowTexts(gap), RowTexts(rows + rest));
      assert Terminated([""]) == "\n" by { assert [""][1..] == []; assert Terminated([]) == []; }
    }
  }

  lemma BodyNotEmpty(b: Body)
    ensures P.BodyRows(b) != []
  {
    hide P.Items, P.ItemsRows;
  }
}
