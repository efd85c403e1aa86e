// How configuration text is laid out in lines, and what the lexer makes of it.
// A printed line is a list of words and braces separated by single spaces; a block is a
// list of such lines, each at some indentation depth.
module Layout {
  import opened Keywords
  import opened Lexer

  datatype Line =
    | Stop
    | Key(key: Keyword, more: Line)
    | Bare(word: string, more: Line)
    | Quoted(word: string, more: Line)
    | OpenBrace(more: Line)
    | CloseBrace(more: Line)
    | EmptyBraces(more: Line)

  function Spell(l: Line): string
    requires !l.Stop?
  {
    match l
    case Key(k, _) => Text(k)
    case Bare(w, _) => w
    case Quoted(w, _) => "\"" + w + "\""
    case OpenBrace(_) => "{"
    case CloseBrace(_) => "}"
    case EmptyBraces(_) => "{}"
  }

  function LineText(l: Line): string {
    if l.Stop? then [] else Spell(l) + (if l.more.Stop? then [] else " " + LineText(l.more))
  }

  function LineTokens(l: Line, k: Tokens): Tokens {
    match l
    case Stop => k
    case Key(key, more) => Word(Text(key), LineTokens(more, k))
    case Bare(w, more) => Word(w, LineTokens(more, k))
    case Quoted(w, more) => Word(w, LineTokens(more, k))
    case OpenBrace(more) => Open(LineTokens(more, k))
    case CloseBrace(more) => Close(LineTokens(more, k))
    case EmptyBraces(more) => Open(Close(LineTokens(more, k)))
  }

  // A word that survives printing without quotes, when the comment stripper enters it
  // inside (`q`) or outside a quote: see BareWordExact.
  predicate BareWord(w: string, q: bool) {
    && w != [] && w[0] != '"'
    && (forall c | c in w :: !EndsWord(c))
    && StripComment(w, q) == w
  }

  // A word that survives printing between quotes: see QuotableExact.
  predicate Quotable(w: string) {
    '"' !in w && '\n' !in w
  }

  // Whether a word holds an odd number of quotes, so flips the comment stripper's state.
  function OddQuotes(w: string): bool {
    w != [] && OddQuotes(w[1..]) != (w[0] == '"')
  }

  // The line survives lexing when the stripper enters it inside (`q`) or outside a quote.
  predicate Safe(l: Line, q: bool) {
    match l
    case Stop => true
    case Key(_, more) => Safe(more, q)
    case Bare(w, more) => BareWord(w, q) && Safe(more, q != OddQuotes(w))
    case Quoted(w, more) => Quotable(w) && (q ==> '#' !in w) && Safe(more, q)
    case OpenBrace(more) => Safe(more, q)
    case CloseBrace(more) => Safe(more, q)
    case EmptyBraces(more) => Safe(more, q)
  }

  lemma {:induction false} StripBare(w: string, s: string, q: bool)
    requires StripComment(w, q) == w
    ensures StripComment(w + s, q) == w + StripComment(s, q != OddQuotes(w))
  {
    if w == [] {
      assert w + s == s;
    } else {
      assert (w + s)[1..] == w[1..] + s;
      StripBare(w[1..], s, q != (w[0] == '"'));
    }
  }

  lemma StripQuoted(w: string, s: string, q: bool)
    requires '"' !in w && (q ==> '#' !in w)
    ensures StripComment("\"" + w + "\"" + s, q) == "\"" + w + "\"" + StripComment(s, q)
  {
    var inner := w + ("\"" + s);
    assert "\"" + w + "\"" + s == ['"'] + inner;
    assert (['"'] + inner)[1..] == inner;
    NoQuotes(w);
    StripNothing(w, !q);
    StripBare(w, "\"" + s, !q);
    assert ("\"" + s)[1..] == s;
  }

  lemma {:induction false} StripNothing(w: string, q: bool)
    requires '#' in w ==> q && '"' !in w
    ensures StripComment(w, q) == w
  {
    if w != [] {
      StripNothing(w[1..], q != (w[0] == '"'));
      assert [w[0]] + w[1..] == w;
    }
  }

  lemma {:induction false} NoQuotes(w: string)
    requires '"' !in w
    ensures !OddQuotes(w)
  {
    if w != [] { NoQuotes(w[1..]); }
  }

  lemma LexBare(w: string, s: string, k: Tokens)
    requires w != [] && w[0] != '"' && (forall c | c in w :: !EndsWord(c))
    requires s == [] || EndsWord(s[0])
    ensures LexLine(w + s, k) == Word(w, LexLine(s, k))
  {
    assert w[0] in w;
    UntilIs(w + s, EndsWord, |w|);
    assert (w + s)[..|w|] == w && (w + s)[|w|..] == s;
  }

  lemma LexQuoted(w: string, s: string, k: Tokens)
    requires '"' !in w
    ensures LexLine("\"" + w + "\"" + s, k) == Word(w, LexLine(s, k))
  {
    var t := "\"" + w + "\"" + s;
    assert t[1..] == w + ("\"" + s);
    UntilIs(t[1..], IsQuote, |w|);
    assert t[1..1 + |w|] == w && t[|w| + 2..] == s;
  }

  lemma LexBraces(s: string, k: Tokens)
    ensures LexLine("{" + s, k) == Open(LexLine(s, k))
    ensures LexLine("}" + s, k) == Close(LexLine(s, k))
  {
    assert ("{" + s)[1..] == s && ("}" + s)[1..] == s;
  }

  lemma LexSpace(s: string, k: Tokens)
    ensures LexLine(" " + s, k) == LexLine(s, k)
    ensures StripComment(" " + s, false) == " " + StripComment(s, false)
  {
    assert (" " + s)[1..] == s;
  }

  lemma {:induction false} StripLine(l: Line, q: bool)
    requires Safe(l, q)
    ensures StripComment(LineText(l), q) == LineText(l)
  {
    if !l.Stop? {
      var p := Spell(l);
      var s := if l.more.Stop? then [] else " " + LineText(l.more);
      assert LineText(l) == p + s;
      if l.Key? {
        TextPlain(l.key);
        PlainWordIsBare(p, q);
      }
      var q' := if l.Bare? then q != OddQuotes(p) else q;
      StripLine(l.more, q');
      if !l.more.Stop? {
        assert s[1..] == LineText(l.more);
        assert StripComment(s, q') == s;
      }
      if l.Quoted? {
        StripQuoted(l.word, s, q);
      } else {
        if !l.Bare? && !l.Key? {
          NoQuotes(p);
          StripNothing(p, q);
        }
        StripBare(p, s, q);
      }
    }
  }

  lemma LexPiece(l: Line, s: string, k: Tokens, q: bool)
    requires !l.Stop? && Safe(l, q) && (s == [] || s[0] == ' ')
    requires LexLine(s, k) == LineTokens(l.more, k)
    ensures LexLine(Spell(l) + s, k) == LineTokens(l, k)
  {
    match l
    case Key(key, _) =>
      TextPlain(key);
      PlainWordIsBare(Text(key), q);
      LexBare(Text(key), s, k);
    case Bare(w, _) => LexBare(w, s, k);
    case Quoted(w, _) => LexQuoted(w, s, k);
    case OpenBrace(_) => LexBraces(s, k);
    case CloseBrace(_) => LexBraces(s, k);
    case EmptyBraces(_) =>
      LexBraces(s, k);
      LexBraces("}" + s, k);
      assert "{" + ("}" + s) == "{}" + s;
  }

  lemma {:induction false} LexText(l: Line, k: Tokens, q: bool)
    requires Safe(l, q)
    ensures LexLine(LineText(l), k) == LineTokens(l, k)
  {
    if !l.Stop? {
      LexText(l.more, k, if l.Bare? then q != OddQuotes(l.word) else q);
      if l.more.Stop? {
        LexPiece(l, [], k, q);
      } else {
        LexSpace(LineText(l.more), k);
        LexPiece(l, " " + LineText(l.more), k, q);
      }
    }
  }

  // ----- rows: lines at an indentation depth -----

  datatype Row = Row(indent: nat, line: Line)

  function Spaces(n: nat): (s: string)
    ensures |s| == n
  {
    if n == 0 then [] else " " + Spaces(n - 1)
  }

  function RowText(r: Row): string {
    Spaces(2 * r.indent) + LineText(r.line)
  }

  function RowTexts(rs: seq<Row>): (ss: seq<string>)
    ensures |ss| == |rs| && forall i | 0 <= i < |rs| :: ss[i] == RowText(rs[i])
  {
    seq(|rs|, i requires 0 <= i < |rs| => RowText(rs[i]))
  }

  function RowTokens(rs: seq<Row>, k: Tokens): Tokens {
    if rs == [] then k else LineTokens(rs[0].line, Newline(RowTokens(rs[1..], k)))
  }

  predicate SafeRows(rs: seq<Row>) {
    forall r | r in rs :: Safe(r.line, false)
  }

  lemma {:induction false} RowTokensConcat(a: seq<Row>, b: seq<Row>, k: Tokens)
    ensures RowTokens(a + b, k) == RowTokens(a, RowTokens(b, k))
  {
    if a == [] {
      assert a + b == b;
    } else {
      assert (a + b)[1..] == a[1..] + b;
      RowTokensConcat(a[1..], b, k);
    }
  }

  lemma {:induction false} LexSpaces(n: nat, s: string, k: Tokens)
    ensures StripComment(Spaces(n) + s, false) == Spaces(n) + StripComment(s, false)
    ensures LexLine(Spaces(n) + s, k) == LexLine(s, k)
  {
    if n == 0 {
      assert Spaces(0) + s == s && Spaces(0) + StripComment(s, false) == StripComment(s, false);
    } else {
      var t := Spaces(n - 1) + s;
      LexSpaces(n - 1, s, k);
      LexSpace(t, k);
      assert Spaces(n) + s == " " + t;
      assert " " + (Spaces(n - 1) + StripComment(s, false)) == Spaces(n) + StripComment(s, false);
    }
  }

  lemma {:induction false} LexRows(rs: seq<Row>)
    requires SafeRows(rs)
    ensures LexLines(RowTexts(rs)) == RowTokens(rs, End)
  {
    if rs != [] {
      var k := Newline(LexLines(RowTexts(rs)[1..]));
      assert RowTexts(rs)[1..] == RowTexts(rs[1..]);
      LexRows(rs[1..]);
      LexSpaces(2 * rs[0].indent, LineText(rs[0].line), k);
      StripLine(rs[0].line, false);
      LexText(rs[0].line, k, false);
    }
  }

  // ----- joining lines and cutting them again -----

  // Lines joined with line feeds, none after the last.
  function Joined(ls: seq<string>): string {
    if ls == [] then [] else if |ls| == 1 then ls[0] else ls[0] + "\n" + Joined(ls[1..])
  }

  // Every line followed by a line feed.
  function Terminated(ls: seq<string>): string {
    if ls == [] then [] else ls[0] + "\n" + Terminated(ls[1..])
  }

  predicate CleanLine(s: string) {
    '\n' !in s && (s != [] ==> s[|s| - 1] != '\r')
  }

  predicate CleanLines(ls: seq<string>) {
    forall s | s in ls :: CleanLine(s)
  }

  lemma LinesCons(s: string, t: string)
    requires CleanLine(s)
    ensures Lines(s + "\n" + t) == [s] + Lines(t)
  {
    var u := s + "\n" + t;
    UntilIs(u, IsNewline, |s|);
    assert u[..|s|] == s && u[|s| + 1..] == t;
  }

  lemma {:induction false} LinesOfJoined(ls: seq<string>)
    requires ls != [] && CleanLines(ls) && ls[|ls| - 1] != []
    ensures Lines(Joined(ls)) == ls
  {
    assert ls[0] in ls;
    if |ls| == 1 {
      UntilIs(ls[0], IsNewline, |ls[0]|);
    } else {
      LinesOfJoined(ls[1..]);
      LinesCons(ls[0], Joined(ls[1..]));
    }
  }

  lemma {:induction false} LinesOfTerminated(ls: seq<string>)
    requires CleanLines(ls)
    ensures Lines(Terminated(ls)) == ls
  {
    if ls != [] {
      assert ls[0] in ls;
      LinesOfTerminated(ls[1..]);
      LinesCons(ls[0], Terminated(ls[1..]));
    }
  }

  lemma PieceClean(l: Line, q: bool)
    requires !l.Stop? && Safe(l, q)
    ensures Spell(l) != [] && CleanLine(Spell(l))
  {
    var p := Spell(l);
    match l
    case Key(k, _) =>
      TextPlain(k);
      assert p[|p| - 1] in p;
    case Bare(w, _) => assert p[|p| - 1] in p;
    case _ =>
  }

  lemma Joins(s: string, t: string)
    ensures CleanLine([])
    ensures s != [] && CleanLine(s) && CleanLine(t) && t != [] ==> CleanLine(s + (" " + t))
    ensures CleanLine(s) ==> CleanLine(s + [])
  {
    assert s + [] == s;
  }

  lemma {:induction false} SafeLineClean(l: Line, q: bool)
    requires Safe(l, q)
    ensures CleanLine(LineText(l)) && (!l.Stop? ==> LineText(l) != [])
  {
    hide Spell, BareWord, Quotable, CleanLine;
    if l.Stop? {
      Joins([], []);
    } else {
      SafeLineClean(l.more, if l.Bare? then q != OddQuotes(l.word) else q);
      PieceClean(l, q);
      Joins(Spell(l), LineText(l.more));
    }
  }

  lemma {:induction false} SpacesClean(n: nat, s: string)
    requires CleanLine(s)
    ensures CleanLine(Spaces(n) + s)
  {
    if n == 0 {
      assert Spaces(0) + s == s;
    } else {
      SpacesClean(n - 1, s);
      assert Spaces(n) + s == " " + (Spaces(n - 1) + s);
    }
  }

  lemma SafeRowsClean(rs: seq<Row>)
    requires SafeRows(rs)
    ensures CleanLines(RowTexts(rs))
  {
    forall i | 0 <= i < |rs| ensures CleanLine(RowText(rs[i])) {
      SafeLineClean(rs[i].line, false);
      SpacesClean(2 * rs[i].indent, LineText(rs[i].line));
    }
  }

  // ----- nested blocks -----

  // What the printers do with the text of a nested block: cut it into lines and print
  // each two columns to the right.
  function Reindent(text: string): (ls: seq<string>) {
    Prefixed(Lines(text))
  }

  function Prefixed(ls: seq<string>): (ps: seq<string>)
    ensures |ps| == |ls| && forall i | 0 <= i < |ls| :: ps[i] == "  " + ls[i]
  {
    seq(|ls|, i requires 0 <= i < |ls| => "  " + ls[i])
  }

  function Shift(rs: seq<Row>): (ss: seq<Row>)
    ensures |ss| == |rs| && forall i | 0 <= i < |rs| :: ss[i] == Row(rs[i].indent + 1, rs[i].line)
  {
    seq(|rs|, i requires 0 <= i < |rs| => Row(rs[i].indent + 1, rs[i].line))
  }

  lemma RowShift(r: Row)
    ensures "  " + RowText(r) == RowText(Row(r.indent + 1, r.line))
  {
    hide LineText;
    var n := 2 * r.indent;
    assert Spaces(n + 2) == "  " + Spaces(n);
    assert "  " + (Spaces(n) + LineText(r.line)) == "  " + Spaces(n) + LineText(r.line);
  }

  lemma LastText(rs: seq<Row>)
    requires SafeRows(rs) && rs != [] && !rs[|rs| - 1].line.Stop?
    ensures RowText(rs[|rs| - 1]) != []
  {
    hide Safe, Spaces, LineText;
    var last := rs[|rs| - 1];
    assert last in rs;
    SafeLineClean(last.line, false);
  }

  lemma ShiftedTexts(rs: seq<Row>)
    ensures Prefixed(RowTexts(rs)) == RowTexts(Shift(rs))
  {
    hide RowText;
    forall i | 0 <= i < |rs| ensures "  " + RowText(rs[i]) == RowText(Shift(rs)[i]) {
      RowShift(rs[i]);
    }
  }

  lemma ReindentRows(rs: seq<Row>)
    requires SafeRows(rs) && rs != [] && !rs[|rs| - 1].line.Stop?
    ensures Reindent(Joined(RowTexts(rs))) == RowTexts(Shift(rs))
  {
    hide RowText, Lines, Joined, SafeRows, CleanLines, Prefixed, Shift;
    SafeRowsClean(rs);
    LastText(rs);
    LinesOfJoined(RowTexts(rs));
    ShiftedTexts(rs);
  }

  lemma {:induction false} ShiftTokens(rs: seq<Row>, k: Tokens)
    ensures RowTokens(Shift(rs), k) == RowTokens(rs, k)
  {
    if rs != [] {
      assert Shift(rs)[1..] == Shift(rs[1..]);
      ShiftTokens(rs[1..], k);
    }
  }

  // ----- which words survive -----

  lemma PlainWordIsBare(w: string, q: bool)
    requires PlainWord(w)
    ensures BareWord(w, q) && !OddQuotes(w)
  {
    assert w[0] in w;
    StripNothing(w, q);
    NoQuotes(w);
  }

  // A line of plain words, whatever it quotes, is safe.
  predicate PlainLine(l: Line) {
    match l
    case Stop => true
    case Bare(w, more) => PlainWord(w) && PlainLine(more)
    case Quoted(w, more) => Quotable(w) && PlainLine(more)
    case _ => PlainLine(l.more)
  }

  lemma {:induction false} PlainLineSafe(l: Line)
    requires PlainLine(l)
    ensures Safe(l, false)
  {
    if !l.Stop? {
      PlainLineSafe(l.more);
      if l.Bare? { PlainWordIsBare(l.word, false); }
    }
  }

  // The first word of a line is never longer than the line, and takes all of it only
  // when the whole line is one unquoted word.
  lemma {:induction false} FirstWord(s: string, k: Tokens)
    requires k.Newline?
    ensures var t := LexLine(s, k);
            t.Word? ==> |t.word| <= |s| && (|t.word| == |s| ==>
              s == t.word && s != [] && s[0] != '"' && forall c | c in s :: !EndsWord(c))
    decreases |s|
  {
    if s != [] {
      if IsWhitespace(s[0]) {
        FirstWord(s[1..], k);
      } else if s[0] != '"' && !IsBrace(s[0]) {
        var n := Until(s, EndsWord);
        assert |s[..n]| == |s| ==> s[..n] == s;
      }
    }
  }

  // Printing a word by itself and lexing it gives the word back exactly when it is bare.
  lemma BareWordExact(w: string)
    ensures Tokenize(w) == Word(w, Newline(End)) <==> BareWord(w, false)
  {
    if BareWord(w, false) {
      BareWordSurvives(w);
    }
    if Tokenize(w) == Word(w, Newline(End)) {
      var ls := Lines(w);
      assert ls != [] && |ls[0]| <= |w|;
      assert |ls[0]| == |w| ==> ls[0] == w;
      var line := StripComment(ls[0], false);
      FirstWord(line, Newline(LexLines(ls[1..])));
    }
  }

  lemma OneLine(s: string)
    requires s != [] && '\n' !in s
    ensures Tokenize(s) == LexLine(StripComment(s, false), Newline(End))
  {
    UntilIs(s, IsNewline, |s|);
    var ls := Lines(s);
    assert ls == [s] && ls[1..] == [] && LexLines(ls[1..]) == End;
  }

  lemma BareWordSurvives(w: string)
    requires BareWord(w, false)
    ensures Tokenize(w) == Word(w, Newline(End))
  {
    forall i | 0 <= i < |w| ensures !IsNewline(w[i]) { assert w[i] in w; }
    OneLine(w);
    assert w + [] == w;
    LexBare(w, [], Newline(End));
  }

  // Quoting a word and lexing it gives the word back exactly when it holds neither a
  // quote nor a line feed.
  lemma QuotableExact(w: string)
    ensures Tokenize("\"" + w + "\"") == Word(w, Newline(End)) <==> Quotable(w)
  {
    var t := "\"" + w + "\"";
    if '\n' !in w {
      OneLine(t);
      if '"' !in w {
        assert t + [] == t;
        StripQuoted(w, [], false);
        LexQuoted(w, [], Newline(End));
      } else {
        QuoteInside(w, t, Newline(End));
      }
    } else {
      FeedInside(w, t);
    }
  }

  lemma FeedInside(w: string, t: string)
    requires t == "\"" + w + "\"" && '\n' in w
    ensures Tokenize(t) != Word(w, Newline(End))
  {
    var i :| 0 <= i < |w| && w[i] == '\n';
    assert t[i + 1] == '\n';
    var ls := Lines(t);
    assert |ls[0]| <= Until(t, IsNewline) <= |w|;
    assert Tokenize(t) == LexLine(StripComment(ls[0], false), Newline(LexLines(ls[1..])));
    QuoteTakesOne(StripComment(ls[0], false), Newline(LexLines(ls[1..])));
  }

  lemma QuoteTakesOne(s: string, k: Tokens)
    requires k.Newline? && (s == [] || s[0] == '"')
    ensures LexLine(s, k).Word? ==> |LexLine(s, k).word| < |s|
  {
  }

  lemma QuoteInside(w: string, t: string, k: Tokens)
    requires t == "\"" + w + "\"" && '"' in w && k.Newline?
    ensures LexLine(StripComment(t, false), k) != Word(w, k)
  {
    var i :| 0 <= i < |w| && w[i] == '"';
    assert t[i + 1] == '"' && t[0] == '"';
    hide StripComment;
    QuoteEndsWord(StripComment(t, false), i, k);
  }

  // A quoted word ends at the next quote at the latest.
  lemma QuoteEndsWord(s: string, i: nat, k: Tokens)
    requires k.Newline? && (s == [] || s[0] == '"') && (i + 1 < |s| ==> s[i + 1] == '"')
    ensures LexLine(s, k).Word? ==> |LexLine(s, k).word| <= i
  {
    if s != [] {
      var n := Until(s[1..], IsQuote);
      assert i + 1 < |s| ==> s[1..][i] == '"';
    }
  }
}
