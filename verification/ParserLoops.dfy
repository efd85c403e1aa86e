// The loops of the parser as the source runs them (conf/src/language.rs, language_bgp.rs): a
// position that only moves forward, and a value that grows. Each computes its function.
module ParserLoops {
  import opened Ast
  import opened Decimal
  import opened Keywords
  import opened Lexer
  import opened Parser
  import opened Wrappers

  method SkipNewlinesLoop(start: Tokens) returns (ts: Tokens)
    ensures ts == SkipNewlines(start)
  {
    ts := start;
    while ts.Newline?
      invariant SkipNewlines(ts) == SkipNewlines(start)
      decreases ts
    {
      ts := ts.rest;
    }
  }

  // The loop that every `parse_*_block` function runs: skip newlines, stop at the closing
  // brace, otherwise hand the word to the statement parser.
  method BlockLoop<B(!new)>(item: (string, Tokens, B) -> Parsed<B>, start: Tokens, empty: B) returns (r: Parsed<B>)
    requires Stays(item)
    ensures r == Block(item, start, empty)
    ensures r.Done? ==> Beyond(start, r.rest)
  {
    var ts, b := start, empty;
    while true
      invariant Block(item, ts, b) == Block(item, start, empty)
      decreases Length(ts)
    {
      match ts
      case Newline(rest) => ts := rest;
      case Close(rest) => return Done(b, rest);
      case End => return Fail;
      case Open(_) => return Fail;
      case Word(w, rest) =>
        var s := item(w, rest, b);
        if s.Fail? {
          return Fail;
        }
        assert Within(rest, s.rest);
        ts, b := s.rest, s.value;
    }
  }

  method TakeWordsLoop(start: Tokens) returns (words: seq<string>, ts: Tokens)
    ensures (words, ts) == TakeWords(start)
  {
    words, ts := [], start;
    assert [] + TakeWords(start).0 == TakeWords(start).0;
    while ts.Word?
      invariant TakeWords(start) == (words + TakeWords(ts).0, TakeWords(ts).1)
      decreases ts
    {
      assert words + ([ts.word] + TakeWords(ts.rest).0) == words + [ts.word] + TakeWords(ts.rest).0;
      words, ts := words + [ts.word], ts.rest;
    }
    assert words + [] == words;
  }

  // `exact`, `ge N` and `le M` in any order, none of them twice.
  method MasklengthLoop(start: Tokens) returns (r: Parsed<Option<MasklengthRange>>)
    ensures r == MasklengthTail(start, false, None, None)
  {
    hide KeywordOf;
    var ts, exact := start, false;
    var ge: Option<u8>, le: Option<u8> := None, None;
    while ts.Word?
      invariant MasklengthTail(ts, exact, ge, le) == MasklengthTail(start, false, None, None)
      decreases Length(ts)
    {
      var k := KeywordOf(ts.word);
      if k == Some(LeafKw(LeafWord.Exact)) {
        if exact || ge.Some? || le.Some? {
          return Fail;
        }
        exact := true;
        ts := ts.rest;
      } else if k == Some(LeafKw(Ge)) || k == Some(LeafKw(Le)) {
        if exact || !ts.rest.Word? {
          return Fail;
        }
        var v := ParseU8(ts.rest.word);
        if v.None? || (if k == Some(LeafKw(Ge)) then ge.Some? else le.Some?) {
          return Fail;
        }
        if k == Some(LeafKw(Ge)) {
          ge := v;
        } else {
          le := v;
        }
        assert Length(ts.rest.rest) < Length(ts.rest);
        ts := ts.rest.rest;
      } else {
        break;
      }
    }
    r := Done(if exact then Some(MasklengthRange.Exact)
              else if ge.Some? || le.Some? then Some(Range(ge, le)) else None, ts);
  }

  // `parse_root`: services until the end of the input.
  method RootLoop(start: Tokens) returns (r: Result<Root>)
    ensures r == ParseRoot(start, Root([]))
    ensures r.Ok? ==> Balanced(start, 0)
  {
    hide KeywordOf, BodyStatement, Block, Balanced, AfterBlock;
    var ts := start;
    var services: seq<Body> := [];
    while !ts.End?
      invariant ParseRoot(ts, Root(services)) == ParseRoot(start, Root([]))
      decreases Length(ts)
    {
      if ts.Newline? {
        ts := ts.rest;
        continue;
      }
      if !ts.Word? || KeywordOf(ts.word) != Some(BlockKw(BlockKey.Service)) || !ts.rest.Word? {
        return Err;
      }
      var name, rest := ts.rest.word, ts.rest.rest;
      var open := SkipNewlinesLoop(rest);
      if !open.Open? || KeywordOf(name) != Some(BlockKw(Bgp)) {
        return Err;
      }
      var body := BlockLoop(BodyStatement, open.rest, EMPTY_BODY);
      if body.Fail? {
        return Err;
      }
      assert Length(rest) < Length(ts.rest) && Length(open.rest) < Length(open) <= Length(rest);
      services := services + [body.value];
      ts := body.rest;
    }
    r := Ok(Root(services));
  }
}
