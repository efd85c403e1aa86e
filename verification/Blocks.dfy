// Blocks of the configuration language: the tokens of a printed block are read back as
// the block, and the parser stops right after its closing brace.
module Blocks {
  import P = Printer
  import opened Ast
  import opened Decimal
  import opened Keywords
  import opened Layout
  import opened Leaves
  import opened Lexer
  import opened Parser
  import opened Wrappers

  // ----- blocks of leaf statements -----

  lemma BlockTokens(header: Line, rows: seq<Row>, k: Tokens)
    ensures RowTokens(P.Block(header, rows), k) == LineTokens(header, Newline(RowTokens(rows, Close(Newline(k)))))
  {
    hide Text;
    var close := [Row(0, CloseBrace(Stop))];
    RowTokensConcat([Row(0, header)] + rows, close, k);
    RowTokensConcat([Row(0, header)], rows, RowTokens(close, k));
    assert LineTokens(CloseBrace(Stop), Newline(k)) == Close(Newline(k));
    assert RowTokens(close, k) == Close(Newline(k));
    assert RowTokens([Row(0, header)], RowTokens(rows, Close(Newline(k)))) ==
           LineTokens(header, Newline(RowTokens([], RowTokens(rows, Close(Newline(k))))));
  }

  lemma EachTokens<X>(xs: seq<X>, line: X -> Line, k: Tokens)
    requires xs != []
    ensures RowTokens(P.Each(xs, line), k) == LineTokens(line(xs[0]), Newline(RowTokens(P.Each(xs[1..], line), k)))
  {
    assert P.Each(xs, line)[1..] == P.Each(xs[1..], line);
  }

  lemma HeaderTokens(key: Keyword, name: string, k: Tokens)
    ensures LineTokens(P.Header(key, name), k) == Word(Text(key), Word(name, Open(k)))
  {
    hide Text;
    assert LineTokens(OpenBrace(Stop), k) == Open(k);
    assert LineTokens(Bare(name, OpenBrace(Stop)), k) == Word(name, Open(k));
  }

  lemma {:induction false} DirectivesRead(ds: seq<FamilyDirective>, f: FamilyBlock, k: Tokens)
    ensures Block(FamilyStatement, RowTokens(P.Each(ds, P.DirectiveLine), k), f) ==
            Block(FamilyStatement, k, f.(directives := f.directives + ds))
  {
    hide Text, KeywordOf, DirectiveStatement, P.DirectiveLine;
    if ds == [] {
      assert f.directives + ds == f.directives;
    } else {
      EachTokens(ds, P.DirectiveLine, k);
      DirectiveReads(ds[0], RowTokens(P.Each(ds[1..], P.DirectiveLine), k));
      DirectivesRead(ds[1..], f.(directives := f.directives + [ds[0]]), k);
      assert f.directives + [ds[0]] + ds[1..] == f.directives + ds;
    }
  }

  lemma {:induction false} PeerSettingsRead(ss: seq<Setting>, p: PeerBlock, k: Tokens)
    requires forall s | s in ss :: SettingShape(s) && !s.Originate?
    ensures Block(PeerStatement, RowTokens(P.Each(ss, P.SettingLine), k), p) ==
            Block(PeerStatement, k, p.(settings := p.settings + ss))
  {
    hide Text, KeywordOf, SettingStatement, P.SettingLine;
    if ss == [] {
      assert p.settings + ss == p.settings;
    } else {
      EachTokens(ss, P.SettingLine, k);
      SettingReads(ss[0], RowTokens(P.Each(ss[1..], P.SettingLine), k));
      PeerSettingsRead(ss[1..], p.(settings := p.settings + [ss[0]]), k);
      assert p.settings + [ss[0]] + ss[1..] == p.settings + ss;
    }
  }

  lemma {:induction false} MatchesRead(ms: seq<MatchClause>, b: StatementBlock, k: Tokens)
    ensures Block(StatementStatement, RowTokens(P.Each(ms, P.MatchLine), k), b) ==
            Block(StatementStatement, k, b.(matches := b.matches + ms))
  {
    hide Text, KeywordOf, MatchStatement, P.MatchLine;
    if ms == [] {
      assert b.matches + ms == b.matches;
    } else {
      EachTokens(ms, P.MatchLine, k);
      KeywordOfText(PolicyKw(PolicyWord.Match));
      MatchReads(ms[0], RowTokens(P.Each(ms[1..], P.MatchLine), k));
      MatchesRead(ms[1..], b.(matches := b.matches + [ms[0]]), k);
      assert b.matches + [ms[0]] + ms[1..] == b.matches + ms;
    }
  }

  lemma {:induction false} SetsRead(cs: seq<SetClause>, b: StatementBlock, k: Tokens)
    ensures Block(StatementStatement, RowTokens(P.Each(cs, P.SetLine), k), b) ==
            Block(StatementStatement, k, b.(sets := b.sets + cs))
  {
    hide Text, KeywordOf, SetStatement, P.SetLine;
    if cs == [] {
      assert b.sets + cs == b.sets;
    } else {
      EachTokens(cs, P.SetLine, k);
      KeywordOfText(PolicyKw(PolicyWord.Set));
      SetReads(cs[0], RowTokens(P.Each(cs[1..], P.SetLine), k));
      SetsRead(cs[1..], b.(sets := b.sets + [cs[0]]), k);
      assert b.sets + [cs[0]] + cs[1..] == b.sets + cs;
    }
  }

  lemma {:induction false} EntriesRead(es: seq<PrefixListEntry>, p: PrefixListBlock, k: Tokens)
    requires forall e | e in es :: EntryShape(e)
    ensures Block(PrefixListStatement, RowTokens(P.Each(es, P.EntryLine), k), p) ==
            Block(PrefixListStatement, k, p.(prefixes := p.prefixes + es))
  {
    hide Text, KeywordOf, MasklengthTail, P.EntryLine;
    if es == [] {
      assert p.prefixes + es == p.prefixes;
    } else {
      EachTokens(es, P.EntryLine, k);
      MasklengthReads(es[0], RowTokens(P.Each(es[1..], P.EntryLine), k));
      EntriesRead(es[1..], p.(prefixes := p.prefixes + [es[0]]), k);
      assert p.prefixes + [es[0]] + es[1..] == p.prefixes + es;
    }
  }

  lemma {:induction false} WordsRead(ws: seq<string>, line: string -> Line, b: WordListBlock, k: Tokens)
    requires line == P.BareLine || line == P.QuotedLine
    ensures Block(WordListStatement, RowTokens(P.Each(ws, line), k), b) ==
            Block(WordListStatement, k, b.(entries := b.entries + ws))
  {
    hide Text, KeywordOf;
    if ws == [] {
      assert b.entries + ws == b.entries;
    } else {
      EachTokens(ws, line, k);
      var k' := Newline(RowTokens(P.Each(ws[1..], line), k));
      assert LineTokens(line(ws[0]), k') == Word(ws[0], k');
      WordsRead(ws[1..], line, b.(entries := b.entries + [ws[0]]), k);
      assert b.entries + [ws[0]] + ws[1..] == b.entries + ws;
    }
  }

  // ----- nested blocks -----

  lemma FamilyReads(f: FamilyBlock, p: PeerBlock, k: Tokens)
    ensures Block(PeerStatement, RowTokens(P.PeerFamilyRows(f), k), p) ==
            Block(PeerStatement, k, p.(families := p.families + [f]))
  {
    hide Text, KeywordOf, FamilyStatement, P.FamilyRows, Nested, AfterBlock;
    var rows := P.FamilyRows(f);
    assert P.PeerFamilyRows(f)[1..] == Shift(rows);
    assert LineTokens(Stop, Newline(RowTokens(Shift(rows), k))) == Newline(RowTokens(Shift(rows), k));
    ShiftTokens(rows, k);
    FamilyBlockReads(f, k);
    KeywordOfText(BlockKw(Family));
    KeywordOfText(P.AfiWord(f.afi));
    KeywordOfText(P.SafiWord(f.safi));
    var t := RowTokens(rows, k);
    StepReads(PeerStatement, t, p, p.(families := p.families + [f]), k);
    assert Block(PeerStatement, Newline(t), p) == Block(PeerStatement, t, p);
  }

  lemma FamilyBlockReads(f: FamilyBlock, k: Tokens)
    ensures RowTokens(P.FamilyRows(f), k).Word?
    ensures var t := RowTokens(P.FamilyRows(f), k);
      && t.word == Text(BlockKw(Family))
      && t.rest.Word? && t.rest.word == Text(P.AfiWord(f.afi))
      && t.rest.rest.Word? && t.rest.rest.word == Text(P.SafiWord(f.safi))
      && Nested(FamilyStatement, t.rest.rest.rest, FamilyBlock(f.afi, f.safi, [])) == Done(f, Newline(k))
  {
    hide Text, KeywordOf, FamilyStatement, P.AfiWord, P.SafiWord;
    var tail := Key(P.SafiWord(f.safi), OpenBrace(Stop));
    var header := Key(BlockKw(Family), Key(P.AfiWord(f.afi), tail));
    var rows := P.Each(f.directives, P.DirectiveLine);
    BlockTokens(header, rows, k);
    var inner := RowTokens(rows, Close(Newline(k)));
    DirectivesRead(f.directives, FamilyBlock(f.afi, f.safi, []), Close(Newline(k)));
    assert [] + f.directives == f.directives;
    OpenedBlock(FamilyStatement, inner, FamilyBlock(f.afi, f.safi, []), f, k);
    assert LineTokens(OpenBrace(Stop), Newline(inner)) == Open(Newline(inner));
    assert LineTokens(tail, Newline(inner)) == Word(Text(P.SafiWord(f.safi)), Open(Newline(inner)));
    assert LineTokens(header, Newline(inner)) ==
           Word(Text(BlockKw(Family)), Word(Text(P.AfiWord(f.afi)), LineTokens(tail, Newline(inner))));
  }

  lemma {:induction false} FamiliesRead(fs: seq<FamilyBlock>, p: PeerBlock, k: Tokens)
    ensures Block(PeerStatement, RowTokens(P.Flatten(fs, P.PeerFamilyRows), k), p) ==
            Block(PeerStatement, k, p.(families := p.families + fs))
  {
    hide Text, KeywordOf, PeerStatement, P.PeerFamilyRows;
    if fs == [] {
      assert p.families + fs == p.families;
    } else {
      var rest := P.Flatten(fs[1..], P.PeerFamilyRows);
      RowTokensConcat(P.PeerFamilyRows(fs[0]), rest, k);
      FamilyReads(fs[0], p, RowTokens(rest, k));
      FamiliesRead(fs[1..], p.(families := p.families + [fs[0]]), k);
      assert p.families + [fs[0]] + fs[1..] == p.families + fs;
    }
  }

  lemma DispositionReads(d: Option<Disposition>, b: StatementBlock, k: Tokens)
    requires b.disposition.None?
    ensures Block(StatementStatement, RowTokens(P.Optional(d, P.DispositionLine), k), b) ==
            Block(StatementStatement, k, b.(disposition := d))
  {
    hide Text, KeywordOf, MatchStatement, SetStatement;
    if d.Some? {
      KeywordOfText(PolicyKw(PolicyWord.Accept));
      KeywordOfText(PolicyKw(PolicyWord.Reject));
      OneRow(P.DispositionLine(d.value), k);
      assert LineTokens(Stop, Newline(k)) == Newline(k);
    }
  }

  lemma OneRow(l: Line, k: Tokens)
    ensures RowTokens([Row(1, l)], k) == LineTokens(l, Newline(k))
  {
    hide Text;
    assert [Row(1, l)][1..] == [] && RowTokens([], k) == k;
  }

  function ClauseRows(b: StatementBlock): seq<Row> {
    P.Each(b.matches, P.MatchLine) + (P.Each(b.sets, P.SetLine) + P.Optional(b.disposition, P.DispositionLine))
  }

  lemma ClausesRead(b: StatementBlock, close: Tokens)
    ensures Block(StatementStatement, RowTokens(ClauseRows(b), close), StatementBlock(b.name, [], [], None)) ==
            Block(StatementStatement, close, b)
  {
    hide Text, KeywordOf, StatementStatement, Block, P.MatchLine, P.SetLine;
    var ms, cs := P.Each(b.matches, P.MatchLine), P.Each(b.sets, P.SetLine);
    var d := P.Optional(b.disposition, P.DispositionLine);
    var empty := StatementBlock(b.name, [], [], None);
    RowTokensConcat(ms, cs + d, close);
    RowTokensConcat(cs, d, close);
    MatchesRead(b.matches, empty, RowTokens(cs + d, close));
    SetsRead(b.sets, empty.(matches := [] + b.matches), RowTokens(d, close));
    DispositionReads(b.disposition, empty.(matches := [] + b.matches, sets := [] + b.sets), close);
    assert [] + b.matches == b.matches && [] + b.sets == b.sets;
  }

  lemma StatementBlockReads(b: StatementBlock, k: Tokens)
    ensures RowTokens(P.StatementRows(b), k).Word?
    ensures var t := RowTokens(P.StatementRows(b), k);
      t.word == Text(BlockKw(Statement)) && ParseRule(t.word, t.rest) == Done(StatementRule(b), Newline(k))
  {
    hide Text, KeywordOf, StatementStatement, ClauseRows, P.StatementRows, P.Block, Block, ExpectWord, Finish, Nested;
    var rows := ClauseRows(b);
    assert P.StatementRows(b) == P.Block(P.StatementHeader(b.name), rows) by { StatementRowsAre(b); }
    var empty := StatementBlock(b.name, [], [], None);
    BlockTokens(P.StatementHeader(b.name), rows, k);
    var inner := RowTokens(rows, Close(Newline(k)));
    ClausesRead(b, Close(Newline(k)));
    OpenedBlock(StatementStatement, inner, empty, b, k);
    KeywordOfText(BlockKw(Statement));
    if b.name.Some? {
      HeaderTokens(BlockKw(Statement), b.name.value, Newline(inner));
    } else {
      assert LineTokens(OpenBrace(Stop), Newline(inner)) == Open(Newline(inner));
    }
  }

  lemma StatementRowsAre(b: StatementBlock)
    ensures P.StatementRows(b) == P.Block(P.StatementHeader(b.name), ClauseRows(b))
  {
  }

  lemma OpenedBlock<B(!new)>(item: (string, Tokens, B) -> Parsed<B>, inner: Tokens, start: B, b: B, k: Tokens)
    requires Stays(item)
    requires Block(item, inner, start) == Block(item, Close(Newline(k)), b)
    ensures Nested(item, Open(Newline(inner)), start) == Done(b, Newline(k))
  {
    hide Stays;
    assert ExpectOpen(Open(Newline(inner))) == Done((), Newline(inner));
    assert Block(item, Newline(inner), start) == Block(item, inner, start);
    assert Block(item, Close(Newline(k)), b) == Done(b, Newline(k));
  }

  lemma RuleReads(r: PolicyRule, k: Tokens)
    ensures RowTokens(P.RuleRows(r), k).Word?
    ensures var t := RowTokens(P.RuleRows(r), k);
      ParseRule(t.word, t.rest) == Done(r, k) || ParseRule(t.word, t.rest) == Done(r, Newline(k))
  {
    hide Text, KeywordOf, StatementStatement, P.StatementRows;
    match r
    case MatchRule(name, action) =>
      KeywordOfText(PolicyKw(PolicyWord.Match));
      OneRow(P.RuleLine(r), k);
      assert LineTokens(Bare(action, Stop), Newline(k)) == Word(action, Newline(k));
      assert LineTokens(Bare(name, Bare(action, Stop)), Newline(k)) == Word(name, Word(action, Newline(k)));
    case DefaultRule(action) =>
      KeywordOfText(PolicyKw(Default));
      OneRow(P.RuleLine(r), k);
      NamedTokens(P.RuleLine(r), PolicyKw(Default), action, Newline(k));
    case StatementRule(b) =>
      ShiftTokens(P.StatementRows(b), k);
      StatementBlockReads(b, k);
  }

  lemma {:induction false} RulesRead(rs: seq<PolicyRule>, p: PolicyBlock, k: Tokens)
    ensures Block(PolicyStatement, RowTokens(P.Flatten(rs, P.RuleRows), k), p) ==
            Block(PolicyStatement, k, p.(rules := p.rules + rs))
  {
    hide Text, KeywordOf, ParseRule, P.RuleRows;
    if rs == [] {
      assert p.rules + rs == p.rules;
    } else {
      var rest := P.Flatten(rs[1..], P.RuleRows);
      RowTokensConcat(P.RuleRows(rs[0]), rest, k);
      RuleReads(rs[0], RowTokens(rest, k));
      RulesRead(rs[1..], p.(rules := p.rules + [rs[0]]), k);
      assert p.rules + [rs[0]] + rs[1..] == p.rules + rs;
    }
  }

  // ----- entries of the service body -----

  lemma NamedBlockReads<B(!new)>(item: (string, Tokens, B) -> Parsed<B>, key: Keyword, name: string,
                                 rows: seq<Row>, make: string -> B, b: B, k: Tokens)
    requires Stays(item)
    requires Block(item, RowTokens(rows, Close(Newline(k))), make(name)) == Block(item, Close(Newline(k)), b)
    ensures RowTokens(P.Block(P.Header(key, name), rows), k).Word?
    ensures var t := RowTokens(P.Block(P.Header(key, name), rows), k);
      t.word == Text(key) && NamedBlock(item, t.rest, make) == Done(b, Newline(k))
  {
    hide Text;
    hide Stays, Block, Nested;
    var inner := RowTokens(rows, Close(Newline(k)));
    BlockTokens(P.Header(key, name), rows, k);
    HeaderTokens(key, name, Newline(inner));
    OpenedBlock(item, inner, make(name), b, k);
  }

  lemma PeerBlockReads(p: PeerBlock, k: Tokens)
    requires forall s | s in p.settings :: SettingShape(s) && !s.Originate?
    ensures RowTokens(P.PeerRows(p), k).Word?
    ensures var t := RowTokens(P.PeerRows(p), k);
      t.word == Text(BlockKw(BlockKey.Peer)) &&
      NamedBlock(PeerStatement, t.rest, n => PeerBlock(n, [], [])) == Done(p, Newline(k))
  {
    hide Text, KeywordOf, PeerStatement, P.SettingLine, P.PeerFamilyRows;
    var ss, fs := P.Each(p.settings, P.SettingLine), P.Flatten(p.families, P.PeerFamilyRows);
    var close := Close(Newline(k));
    RowTokensConcat(ss, fs, close);
    PeerSettingsRead(p.settings, PeerBlock(p.address, [], []), RowTokens(fs, close));
    FamiliesRead(p.families, PeerBlock(p.address, [] + p.settings, []), close);
    assert [] + p.settings == p.settings && [] + p.families == p.families;
    NamedBlockReads(PeerStatement, BlockKw(BlockKey.Peer), p.address, ss + fs, n => PeerBlock(n, [], []), p, k);
  }

  lemma PolicyBlockReads(p: PolicyBlock, k: Tokens)
    ensures RowTokens(P.PolicyRows(p), k).Word?
    ensures var t := RowTokens(P.PolicyRows(p), k);
      t.word == Text(BlockKw(BlockKey.Policy)) &&
      NamedBlock(PolicyStatement, t.rest, n => PolicyBlock(n, [])) == Done(p, Newline(k))
  {
    hide Text, KeywordOf, PolicyStatement, P.RuleRows;
    RulesRead(p.rules, PolicyBlock(p.name, []), Close(Newline(k)));
    assert [] + p.rules == p.rules;
    NamedBlockReads(PolicyStatement, BlockKw(BlockKey.Policy), p.name, P.Flatten(p.rules, P.RuleRows),
                    n => PolicyBlock(n, []), p, k);
  }

  lemma PrefixListReads(p: PrefixListBlock, k: Tokens)
    requires forall e | e in p.prefixes :: EntryShape(e)
    ensures RowTokens(P.PrefixListRows(p), k).Word?
    ensures var t := RowTokens(P.PrefixListRows(p), k);
      t.word == Text(SetBlockKw(PrefixList)) &&
      NamedBlock(PrefixListStatement, t.rest, n => PrefixListBlock(n, [])) == Done(p, Newline(k))
  {
    hide Text, KeywordOf, PrefixListStatement, P.EntryLine;
    EntriesRead(p.prefixes, PrefixListBlock(p.name, []), Close(Newline(k)));
    assert [] + p.prefixes == p.prefixes;
    NamedBlockReads(PrefixListStatement, SetBlockKw(PrefixList), p.name, P.Each(p.prefixes, P.EntryLine),
                    n => PrefixListBlock(n, []), p, k);
  }

  lemma WordListReads(kind: SetBlockKey, b: WordListBlock, k: Tokens)
    ensures RowTokens(P.WordListRows(kind, b), k).Word?
    ensures var t := RowTokens(P.WordListRows(kind, b), k);
      t.word == Text(SetBlockKw(kind)) &&
      NamedBlock(WordListStatement, t.rest, n => WordListBlock(n, [])) == Done(b, Newline(k))
  {
    hide Text, KeywordOf, WordListStatement;
    var line := if kind.AsPathSet? then P.QuotedLine else P.BareLine;
    WordsRead(b.entries, line, WordListBlock(b.name, []), Close(Newline(k)));
    assert [] + b.entries == b.entries;
    NamedBlockReads(WordListStatement, SetBlockKw(kind), b.name, P.Each(b.entries, line),
                    n => WordListBlock(n, []), b, k);
  }

  // ----- blocks of optional scalars -----

  lemma OptionReads<B(!new)>(item: (string, Tokens, B) -> Parsed<B>, rows: seq<Row>, some: bool,
                             key: Keyword, w: string, b: B, b': B, k: Tokens)
    requires Stays(item)
    requires !some ==> rows == [] && b == b'
    requires some ==> RowTokens(rows, k) == Word(Text(key), Word(w, Newline(k)))
    requires some ==> item(Text(key), Word(w, Newline(k)), b) == Done(b', k)
    ensures Block(item, RowTokens(rows, k), b) == Block(item, k, b')
  {
    hide Text, Stays;
  }

  lemma NumberReads<B(!new)>(item: (string, Tokens, B) -> Parsed<B>, key: Keyword, x: Option<int>, b: B, b': B,
      k: Tokens)
    requires P.Natural(x)
    requires Stays(item)
    requires x.None? ==> b == b'
    requires x.Some? ==> item(Text(key), Word(Digits(x.value), Newline(k)), b) == Done(b', k)
    ensures Block(item, RowTokens(P.NumberRow(key, x), k), b) == Block(item, k, b')
  {
    hide Text, Stays, Block, Digits;
    if x.Some? {
      OneRow(P.Number(key, x.value), k);
      NamedTokens(P.Number(key, x.value), key, Digits(x.value), Newline(k));
    }
    OptionReads(item, P.NumberRow(key, x), x.Some?, key, Digits(x.GetOr(0)), b, b', k);
  }

  lemma NamedReads<B(!new)>(item: (string, Tokens, B) -> Parsed<B>, key: Keyword, x: Option<string>, b: B, b': B,
      k: Tokens)
    requires Stays(item)
    requires x.None? ==> b == b'
    requires x.Some? ==> item(Text(key), Word(x.value, Newline(k)), b) == Done(b', k)
    ensures Block(item, RowTokens(P.NamedRow(key, x), k), b) == Block(item, k, b')
  {
    hide Text, Stays, Block;
    if x.Some? {
      OneRow(P.Named(key, x.value), k);
      NamedTokens(P.Named(key, x.value), key, x.value, Newline(k));
    }
    OptionReads(item, P.NamedRow(key, x), x.Some?, key, x.GetOr(""), b, b', k);
  }

  lemma BmpReads(b: BmpServerBlock, k: Tokens)
    ensures RowTokens(P.BmpRows(b), k).Word?
    ensures var t := RowTokens(P.BmpRows(b), k);
      t.word == Text(BlockKw(BmpServer)) &&
      NamedBlock(BmpStatement, t.rest, n => BmpServerBlock(n, None)) == Done(b, Newline(k))
  {
    hide Text, KeywordOf, ParseUint, Digits, Block, NamedBlock, P.NumberRow;
    var key := LeafKw(StatisticsTimeout);
    KeywordOfText(key);
    if b.statisticsTimeout.Some? { ParseDigits(b.statisticsTimeout.value, U64_MAX); }
    NumberReads(BmpStatement, key, b.statisticsTimeout, BmpServerBlock(b.address, None), b, Close(Newline(k)));
    NamedBlockReads(BmpStatement, BlockKw(BmpServer), b.address, P.NumberRow(key, b.statisticsTimeout),
                    n => BmpServerBlock(n, None), b, k);
  }

  lemma RpkiNumberReads(key: RpkiCacheKey, x: Option<int>, max: nat, b: RpkiCacheBlock, b': RpkiCacheBlock, k: Tokens)
    requires P.Natural(x)
    requires x.Some? ==> x.value <= max
    requires x.None? ==> b == b'
    requires x.Some? && max == U8_MAX ==> key.Preference? && b' == b.(preference := Some(x.value))
    requires x.Some? && max != U8_MAX ==> max == U64_MAX
    requires x.Some? && max != U8_MAX ==> (
      || (key.RetryInterval? && b' == b.(retryInterval := Some(x.value)))
      || (key.RefreshInterval? && b' == b.(refreshInterval := Some(x.value)))
      || (key.ExpireInterval? && b' == b.(expireInterval := Some(x.value))))
    ensures Block(RpkiStatement, RowTokens(P.NumberRow(RpkiKw(key), x), k), b) == Block(RpkiStatement, k, b')
  {
    hide Text, KeywordOf, ParseUint, Digits, Block, P.NumberRow;
    KeywordOfText(RpkiKw(key));
    if x.Some? { ParseDigits(x.value, max); }
    NumberReads(RpkiStatement, RpkiKw(key), x, b, b', k);
  }

  lemma RpkiNamedReads(key: RpkiCacheKey, x: Option<string>, b: RpkiCacheBlock, b': RpkiCacheBlock, k: Tokens)
    requires x.None? ==> b == b'
    requires x.Some? ==> (
      || (key.SshUsername? && b' == b.(sshUsername := x))
      || (key.SshPrivateKeyFile? && b' == b.(sshPrivateKeyFile := x))
      || (key.SshKnownHostsFile? && b' == b.(sshKnownHostsFile := x)))
    ensures Block(RpkiStatement, RowTokens(P.NamedRow(RpkiKw(key), x), k), b) == Block(RpkiStatement, k, b')
  {
    hide Text, KeywordOf, ParseUint, Block, P.NamedRow;
    KeywordOfText(RpkiKw(key));
    NamedReads(RpkiStatement, RpkiKw(key), x, b, b', k);
  }

  lemma RpkiTransportReads(t: Option<TransportType>, b: RpkiCacheBlock, k: Tokens)
    requires b.transport.None?
    ensures Block(RpkiStatement, RowTokens(P.TransportRow(t), k), b) == Block(RpkiStatement, k, b.(transport := t))
  {
    hide Text, KeywordOf, ParseUint, ParseTransport, P.TransportWord;
    if t.Some? {
      var w := P.TransportWord(t.value);
      KeywordOfText(RpkiKw(Transport));
      assert ParseTransport(Text(w)) == t by { TransportRead(t.value); }
      OneRow(P.Choice(RpkiKw(Transport), w), k);
      ChoiceTokens(RpkiKw(Transport), w, Newline(k));
      assert RpkiStatement(Text(RpkiKw(Transport)), Word(Text(w), Newline(k)), b) == Done(b.(transport := t), k);
      hide RpkiStatement;
    }
  }

  lemma TransportRead(t: TransportType)
    ensures ParseTransport(Text(P.TransportWord(t))) == Some(t)
  {
    hide Text, KeywordOf;
    KeywordOfText(P.TransportWord(t));
  }

  lemma RpkiTimersRead(r: RpkiCacheBlock, b: RpkiCacheBlock, close: Tokens)
    requires b == r.(retryInterval := None, refreshInterval := None, expireInterval := None)
    ensures Block(RpkiStatement, RowTokens(P.RpkiTimers(r), close), b) == Block(RpkiStatement, close, r)
  {
    hide Text, KeywordOf, RpkiStatement, Block, P.NumberRow, RowTokens;
    assert r.retryInterval.Some? ==> r.retryInterval.value >= 0;
    assert r.refreshInterval.Some? ==> r.refreshInterval.value >= 0;
    assert r.expireInterval.Some? ==> r.expireInterval.value >= 0;
    var r2 := P.NumberRow(RpkiKw(ExpireInterval), r.expireInterval);
    var r1 := P.NumberRow(RpkiKw(RefreshInterval), r.refreshInterval) + r2;
    var b1 := b.(retryInterval := r.retryInterval);
    var b2 := b1.(refreshInterval := r.refreshInterval);
    RowTokensConcat(P.NumberRow(RpkiKw(RetryInterval), r.retryInterval), r1, close);
    RpkiNumberReads(RetryInterval, r.retryInterval, U64_MAX, b, b1, RowTokens(r1, close));
    RowTokensConcat(P.NumberRow(RpkiKw(RefreshInterval), r.refreshInterval), r2, close);
    RpkiNumberReads(RefreshInterval, r.refreshInterval, U64_MAX, b1, b2, RowTokens(r2, close));
    RpkiNumberReads(ExpireInterval, r.expireInterval, U64_MAX, b2, r, close);
  }

  lemma RpkiRowsRead(r: RpkiCacheBlock, close: Tokens)
    ensures Block(RpkiStatement, RowTokens(P.RpkiScalars(r), close), EmptyRpkiCache(r.address)) ==
            Block(RpkiStatement, close, r)
  {
    hide Text, KeywordOf, RpkiStatement, Block, P.NumberRow, P.NamedRow, P.TransportRow, P.RpkiTimers, RowTokens;
    assert r.preference.Some? ==> r.preference.value >= 0;
    var r6 := P.RpkiTimers(r);
    var r5 := P.NamedRow(RpkiKw(SshKnownHostsFile), r.sshKnownHostsFile) + r6;
    var r4 := P.NamedRow(RpkiKw(SshPrivateKeyFile), r.sshPrivateKeyFile) + r5;
    var r3 := P.NamedRow(RpkiKw(SshUsername), r.sshUsername) + r4;
    var r2 := P.TransportRow(r.transport) + r3;
    var b1 := EmptyRpkiCache(r.address).(preference := r.preference);
    var b2 := b1.(transport := r.transport);
    var b3 := b2.(sshUsername := r.sshUsername);
    var b4 := b3.(sshPrivateKeyFile := r.sshPrivateKeyFile);
    var b5 := b4.(sshKnownHostsFile := r.sshKnownHostsFile);
    RowTokensConcat(P.NumberRow(RpkiKw(Preference), r.preference), r2, close);
    RpkiNumberReads(Preference, r.preference, U8_MAX, EmptyRpkiCache(r.address), b1, RowTokens(r2, close));
    RowTokensConcat(P.TransportRow(r.transport), r3, close);
    RpkiTransportReads(r.transport, b1, RowTokens(r3, close));
    RowTokensConcat(P.NamedRow(RpkiKw(SshUsername), r.sshUsername), r4, close);
    RpkiNamedReads(SshUsername, r.sshUsername, b2, b3, RowTokens(r4, close));
    RowTokensConcat(P.NamedRow(RpkiKw(SshPrivateKeyFile), r.sshPrivateKeyFile), r5, close);
    RpkiNamedReads(SshPrivateKeyFile, r.sshPrivateKeyFile, b3, b4, RowTokens(r5, close));
    RowTokensConcat(P.NamedRow(RpkiKw(SshKnownHostsFile), r.sshKnownHostsFile), r6, close);
    RpkiNamedReads(SshKnownHostsFile, r.sshKnownHostsFile, b4, b5, RowTokens(r6, close));
    RpkiTimersRead(r, b5, close);
  }

  lemma RpkiReads(r: RpkiCacheBlock, k: Tokens)
    ensures RowTokens(P.RpkiRows(r), k).Word?
    ensures var t := RowTokens(P.RpkiRows(r), k);
      t.word == Text(BlockKw(RpkiCache)) &&
      NamedBlock(RpkiStatement, t.rest, n => EmptyRpkiCache(n)) == Done(r, Newline(k))
  {
    hide Text, KeywordOf, Block, NamedBlock, P.RpkiScalars, RpkiStatement;
    RpkiRowsRead(r, Close(Newline(k)));
    NamedBlockReads(RpkiStatement, BlockKw(RpkiCache), r.address, P.RpkiScalars(r), n => EmptyRpkiCache(n), r, k);
  }

  // A block without a name.
  lemma PlainBlockReads<B(!new)>(item: (string, Tokens, B) -> Parsed<B>, key: Keyword, rows: seq<Row>,
                                 start: B, b: B, k: Tokens)
    requires Stays(item)
    requires Block(item, RowTokens(rows, Close(Newline(k))), start) == Block(item, Close(Newline(k)), b)
    ensures RowTokens(P.Block(Key(key, OpenBrace(Stop)), rows), k).Word?
    ensures var t := RowTokens(P.Block(Key(key, OpenBrace(Stop)), rows), k);
      t.word == Text(key) && Nested(item, t.rest, start) == Done(b, Newline(k))
  {
    hide Text, Stays, Block, Nested;
    var inner := RowTokens(rows, Close(Newline(k)));
    BlockTokens(Key(key, OpenBrace(Stop)), rows, k);
    assert LineTokens(OpenBrace(Stop), Newline(inner)) == Open(Newline(inner));
    OpenedBlock(item, inner, start, b, k);
  }

  lemma BgpLsReads(id: u64, k: Tokens)
    ensures RowTokens(P.BgpLsRows(id), k).Word?
    ensures var t := RowTokens(P.BgpLsRows(id), k);
      t.word == Text(BlockKw(BgpLs)) && Nested(BgpLsStatement, t.rest, 0) == Done(id, Newline(k))
  {
    hide Text, KeywordOf, ParseUint, Digits, Block, Nested, P.NumberRow;
    var key := LeafKw(InstanceId);
    KeywordOfText(key);
    ParseDigits(id, U64_MAX);
    NumberReads(BgpLsStatement, key, Some(id), 0, id, Close(Newline(k)));
    PlainBlockReads(BgpLsStatement, BlockKw(BgpLs), P.NumberRow(key, Some(id)), 0, id, k);
  }

  // ----- telemetry -----

  lemma EmptyBlockReads<B(!new)>(item: (string, Tokens, B) -> Parsed<B>, key: Keyword, start: B, k: Tokens)
    requires Stays(item)
    ensures RowTokens([Row(1, Key(key, EmptyBraces(Stop)))], k).Word?
    ensures var t := RowTokens([Row(1, Key(key, EmptyBraces(Stop)))], k);
      t.word == Text(key) && Nested(item, t.rest, start) == Done(start, Newline(k))
  {
    hide Text, Stays;
    OneRow(Key(key, EmptyBraces(Stop)), k);
    assert LineTokens(EmptyBraces(Stop), Newline(k)) == Open(Close(Newline(k)));
    assert ExpectOpen(Open(Close(Newline(k)))) == Done((), Close(Newline(k)));
  }

  lemma PrometheusReads(p: PrometheusBlock, k: Tokens)
    ensures RowTokens(P.PrometheusRows(p), k).Word?
    ensures var t := RowTokens(P.PrometheusRows(p), k);
      t.word == Text(LeafKw(Prometheus)) &&
      Nested(PrometheusStatement, t.rest, PrometheusBlock(None)) == Done(p, Newline(k))
  {
    hide Text, KeywordOf, Block, Nested, P.NamedRow;
    var key := LeafKw(Listen);
    if p.listen.Some? {
      KeywordOfText(key);
      NamedReads(PrometheusStatement, key, p.listen, PrometheusBlock(None), p, Close(Newline(k)));
      PlainBlockReads(PrometheusStatement, LeafKw(Prometheus), P.NamedRow(key, p.listen), PrometheusBlock(None), p, k);
      ShiftTokens(P.Block(Key(LeafKw(Prometheus), OpenBrace(Stop)), P.NamedRow(key, p.listen)), k);
    } else {
      EmptyBlockReads(PrometheusStatement, LeafKw(Prometheus), PrometheusBlock(None), k);
    }
  }

  lemma EmfReads(ns: string, k: Tokens)
    ensures RowTokens(P.EmfRows(ns), k).Word?
    ensures var t := RowTokens(P.EmfRows(ns), k);
      t.word == Text(LeafKw(CloudwatchEmf)) && Nested(EmfStatement, t.rest, None) == Done(Some(ns), Newline(k))
  {
    hide Text, KeywordOf, Block, Nested, P.NamedRow;
    var key := LeafKw(Namespace);
    KeywordOfText(key);
    NamedReads(EmfStatement, key, Some(ns), None, Some(ns), Close(Newline(k)));
    PlainBlockReads(EmfStatement, LeafKw(CloudwatchEmf), P.NamedRow(key, Some(ns)), None, Some(ns), k);
    ShiftTokens(P.Block(Key(LeafKw(CloudwatchEmf), OpenBrace(Stop)), P.NamedRow(key, Some(ns))), k);
  }

  // A statement that is read and leaves a newline behind is one step of its block.
  lemma StepReads<B(!new)>(item: (string, Tokens, B) -> Parsed<B>, ts: Tokens, b: B, b': B, k: Tokens)
    requires Stays(item) && ts.Word? && item(ts.word, ts.rest, b) == Done(b', Newline(k))
    ensures Block(item, ts, b) == Block(item, k, b')
  {
    hide Stays;
    assert Block(item, ts, b) == Block(item, Newline(k), b');
  }

  lemma TelemetryPartsRead(t: TelemetryBlock, close: Tokens)
    ensures Block(TelemetryStatement, RowTokens(P.TelemetryParts(t), close), EMPTY_TELEMETRY) ==
            Block(TelemetryStatement, close, t)
  {
    hide Text, KeywordOf, Block, Nested, P.PrometheusRows, P.EmfRows, RowTokens;
    KeywordOfText(LeafKw(Json));
    KeywordOfText(LeafKw(CloudwatchEmf));
    KeywordOfText(LeafKw(Prometheus));
    var json := if t.json then [Row(1, Key(LeafKw(Json), EmptyBraces(Stop)))] else [];
    var emf := if t.cloudwatchEmf.Some? then P.EmfRows(t.cloudwatchEmf.value) else [];
    var prom := if t.prometheus.Some? then P.PrometheusRows(t.prometheus.value) else [];
    var t1 := EMPTY_TELEMETRY.(json := t.json);
    var t2 := t1.(cloudwatchEmf := t.cloudwatchEmf);
    var k3, k2 := RowTokens(prom, close), RowTokens(emf + prom, close);
    RowTokensConcat(json, emf + prom, close);
    RowTokensConcat(emf, prom, close);
    if t.json {
      EmptyBlockReads(NothingStatement, LeafKw(Json), (), k2);
      StepReads(TelemetryStatement, RowTokens(json, k2), EMPTY_TELEMETRY, t1, k2);
    } else {
      NoRows(k2);
    }
    if t.cloudwatchEmf.Some? {
      EmfReads(t.cloudwatchEmf.value, k3);
      StepReads(TelemetryStatement, RowTokens(emf, k3), t1, t2, k3);
    } else {
      NoRows(k3);
    }
    if t.prometheus.Some? {
      PrometheusReads(t.prometheus.value, close);
      StepReads(TelemetryStatement, RowTokens(prom, close), t2, t, close);
    } else {
      NoRows(close);
    }
  }

  lemma NoRows(k: Tokens)
    ensures RowTokens([], k) == k
  {
  }

  lemma TelemetryReads(t: TelemetryBlock, k: Tokens)
    ensures RowTokens(P.TelemetryRows(t), k).Word?
    ensures var ts := RowTokens(P.TelemetryRows(t), k);
      ts.word == Text(BlockKw(Telemetry)) &&
      Nested(TelemetryStatement, ts.rest, EMPTY_TELEMETRY) == Done(t, Newline(k))
  {
    hide Text, KeywordOf, Block, Nested, P.TelemetryParts, TelemetryStatement;
    TelemetryPartsRead(t, Close(Newline(k)));
    PlainBlockReads(TelemetryStatement, BlockKw(Telemetry), P.TelemetryParts(t), EMPTY_TELEMETRY, t, k);
  }
}
