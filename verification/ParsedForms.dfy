// What every accepted text has in common, and the fixed point of load, render and load again.
module ParsedForms {
  import opened Ast
  import opened ConfigForms
  import opened Decimal
  import opened Keywords
  import opened Leaves
  import opened Lexer
  import opened Lowering
  import opened Parser
  import opened RoundTrip
  import opened Wrappers

  // ----- invariants of block parsers -----

  ghost predicate Keeps<B(!new)>(item: (string, Tokens, B) -> Parsed<B>, inv: B -> bool) {
    forall w, ts, b :: inv(b) && item(w, ts, b).Done? ==> inv(item(w, ts, b).value)
  }

  lemma {:induction false} BlockKeeps<B(!new)>(item: (string, Tokens, B) -> Parsed<B>, inv: B -> bool, ts: Tokens, b: B)
    requires Stays(item) && Keeps(item, inv) && inv(b)
    ensures Block(item, ts, b).Done? ==> inv(Block(item, ts, b).value)
    decreases Length(ts)
  {
    hide AfterBlock;
    match ts
    case Newline(rest) => BlockKeeps(item, inv, rest, b);
    case Word(w, rest) =>
      var r := item(w, rest, b);
      if r.Done? {
        assert Within(rest, r.rest);
        BlockKeeps(item, inv, r.rest, r.value);
      }
    case _ =>
  }

  lemma {:induction false} TailBounded(ts: Tokens, exact: bool, ge: Option<u8>, le: Option<u8>)
    ensures var r := MasklengthTail(ts, exact, ge, le);
      r.Done? && r.value.Some? && r.value.value.Range? ==> r.value.value.ge.Some? || r.value.value.le.Some?
    decreases Length(ts)
  {
    hide KeywordOf, ParseU8;
    if ts.Word? {
      match KeywordOf(ts.word)
      case Some(LeafKw(Exact)) => TailBounded(ts.rest, true, ge, le);
      case Some(LeafKw(Ge)) =>
        if ts.rest.Word? {
          assert Length(ts.rest.rest) < Length(ts.rest);
          TailBounded(ts.rest.rest, exact, ParseU8(ts.rest.word), le);
        }
      case Some(LeafKw(Le)) =>
        if ts.rest.Word? {
          assert Length(ts.rest.rest) < Length(ts.rest);
          TailBounded(ts.rest.rest, exact, ge, ParseU8(ts.rest.word));
        }
      case _ =>
    }
  }

  predicate BoundedList(p: PrefixListBlock) {
    forall e | e in p.prefixes :: EntryShape(e)
  }

  lemma PrefixListsKeepBounds()
    ensures Keeps(PrefixListStatement, BoundedList)
  {
    hide MasklengthTail;
    forall w, ts, p | BoundedList(p) && PrefixListStatement(w, ts, p).Done?
      ensures BoundedList(PrefixListStatement(w, ts, p).value)
    {
      TailBounded(ts, false, None, None);
    }
  }

  lemma PrefixListBounded(ts: Tokens)
    ensures var r := NamedBlock(PrefixListStatement, ts, n => PrefixListBlock(n, [])); r.Done? ==> BoundedList(r.value)
  {
    PrefixListsKeepBounds();
    if ts.Word? {
      var open := ExpectOpen(ts.rest);
      if open.Done? {
        BlockKeeps(PrefixListStatement, BoundedList, open.rest, PrefixListBlock(ts.word, []));
      }
    }
  }

  lemma OtherBlocksKeep(k: BlockKey, ts: Tokens, b: Body)
    ensures var r := BlockStatement(k, ts, b); r.Done? ==> r.value.prefixLists == b.prefixLists
  {
    hide NamedBlock, Nested;
  }

  lemma BodyKeepsBounds(w: string, ts: Tokens, b: Body)
    requires BoundedEntries(b)
    ensures var r := BodyStatement(w, ts, b); r.Done? ==> BoundedEntries(r.value)
  {
    hide KeywordOf, NamedBlock, BlockStatement, SettingStatement, OriginateStatement, EntryShape;
    match KeywordOf(w)
    case Some(BlockKw(k)) => OtherBlocksKeep(k, ts, b);
    case Some(SetBlockKw(PrefixList)) => PrefixListBounded(ts);
    case _ =>
  }

  lemma {:induction false} RootBounded(ts: Tokens, root: Root)
    requires forall b | b in root.services :: BoundedEntries(b)
    ensures ParseRoot(ts, root).Ok? ==> forall b | b in ParseRoot(ts, root).value.services :: BoundedEntries(b)
    decreases Length(ts)
  {
    hide KeywordOf, BodyStatement, Block, BoundedEntries, Balanced, AfterBlock;
    if ts.Newline? {
      RootBounded(ts.rest, root);
    } else if ts.Word? && ts.rest.Word? && ExpectOpen(ts.rest.rest).Done? {
      var inner := ExpectOpen(ts.rest.rest).rest;
      var r := Block(BodyStatement, inner, EMPTY_BODY);
      BodyBounded(inner);
      if r.Done? {
        assert Length(ts.rest.rest) < Length(ts.rest) && Beyond(inner, r.rest);
        RootBounded(r.rest, Root(root.services + [r.value]));
      }
    }
  }

  lemma BodyBounded(ts: Tokens)
    ensures var r := Block(BodyStatement, ts, EMPTY_BODY); r.Done? ==> BoundedEntries(r.value)
  {
    hide BodyStatement;
    forall w, ts, b | BoundedEntries(b) && BodyStatement(w, ts, b).Done?
      ensures BoundedEntries(BodyStatement(w, ts, b).value)
    {
      BodyKeepsBounds(w, ts, b);
    }
    BlockKeeps(BodyStatement, BoundedEntries, ts, EMPTY_BODY);
  }

  // Every configuration loaded from a text is a fixed point of rendering and loading,
  // through its own text as well, exactly when no family entry and no prefix set is empty.
  lemma LoadedFixedPoint(text: string, ip: AddressParser, c: BgpConfig)
    requires FromConfStr(text, ip) == Some(c)
    ensures Lower(Render(c), ip) == Some(c) <==> FamiliesSay(c) && PrefixSetsFilled(c)
    ensures Printable(Render(c)) ==>
              (FromConfStr(ToConfStr(c), ip) == Some(c) <==> FamiliesSay(c) && PrefixSetsFilled(c))
  {
    hide ParseRoot, Tokenize, Lower, Render, Expressible, FamiliesSay, PrefixSetsFilled, BoundedEntries, Printable,
      ToConfStr;
    RootBounded(Tokenize(text), Root([]));
    var b := Parse(text).value.services[0];
    LoweredFixedPoint(b, ip, c);
    if Printable(Render(c)) {
      ConfStrRoundTrip(c, ip);
      RenderThenLower(c, ip);
    }
  }
}
