// The generic lexer of the configuration language (conf/src/language.rs).
module Lexer {

  // A token stream.  Line numbers only feed error texts and are not modelled.
  datatype Tokens =
    | End
    | Word(word: string, rest: Tokens)
    | Open(rest: Tokens)
    | Close(rest: Tokens)
    | Newline(rest: Tokens)

  function Length(ts: Tokens): nat {
    if ts.End? then 0 else 1 + Length(ts.rest)
  }

  // `char::is_whitespace`: the Unicode White_Space property.
  predicate IsWhitespace(c: char) {
    || '\t' <= c <= '\r' || c == ' ' || c == '\U{85}' || c == '\U{A0}' || c == '\U{1680}'
    || '\U{2000}' <= c <= '\U{200A}' || c == '\U{2028}' || c == '\U{2029}'
    || c == '\U{202F}' || c == '\U{205F}' || c == '\U{3000}'
  }

  predicate IsBrace(c: char) { c == '{' || c == '}' }

  predicate IsNewline(c: char) { c == '\n' }

  predicate IsQuote(c: char) { c == '"' }

  predicate EndsWord(c: char) { IsWhitespace(c) || IsBrace(c) }

  // A word free of every character the lexer treats specially.
  predicate PlainWord(w: string) {
    w != [] && forall c | c in w :: !EndsWord(c) && c != '#' && c != '"'
  }

  // Length of the longest prefix free of stop characters.
  function Until(s: string, stop: char -> bool): (n: nat)
    ensures n <= |s|
    ensures forall i | 0 <= i < n :: !stop(s[i])
    ensures n < |s| ==> stop(s[n])
  {
    if s == [] || stop(s[0]) then 0 else 1 + Until(s[1..], stop)
  }

  lemma UntilIs(s: string, stop: char -> bool, n: nat)
    requires n <= |s|
    requires forall i | 0 <= i < n :: !stop(s[i])
    requires n < |s| ==> stop(s[n])
    ensures Until(s, stop) == n
  {
  }

  // `str::lines`: cut at line feeds, drop one carriage return before each of them, and
  // yield nothing for an empty last line.
  function Lines(s: string): (lines: seq<string>)
    decreases |s|
  {
    var n := Until(s, IsNewline);
    if s == [] then []
    else if n == |s| then [s]
    else [ChopReturn(s[..n])] + Lines(s[n + 1..])
  }

  function ChopReturn(s: string): string {
    if s != [] && s[|s| - 1] == '\r' then s[..|s| - 1] else s
  }

  // Drop a trailing comment; `#` between double quotes does not start one.
  function StripComment(s: string, inQuote: bool): (r: string)
    ensures r <= s
  {
    if s == [] || (s[0] == '#' && !inQuote) then []
    else [s[0]] + StripComment(s[1..], inQuote != (s[0] == '"'))
  }

  // Tokens of one comment-free line, followed by `k`.
  function LexLine(s: string, k: Tokens): Tokens
    decreases |s|
  {
    if s == [] then k
    else if IsWhitespace(s[0]) then LexLine(s[1..], k)
    else if s[0] == '{' then Open(LexLine(s[1..], k))
    else if s[0] == '}' then Close(LexLine(s[1..], k))
    else if s[0] == '"' then
      var n := Until(s[1..], IsQuote);
      // An unterminated string ends with its line.
      Word(s[1..1 + n], LexLine(if 1 + n < |s| then s[n + 2..] else [], k))
    else
      var n := Until(s, EndsWord);
      Word(s[..n], LexLine(s[n..], k))
  }

  function LexLines(lines: seq<string>): Tokens {
    if lines == [] then End
    else LexLine(StripComment(lines[0], false), Newline(LexLines(lines[1..])))
  }

  function Tokenize(input: string): Tokens {
    LexLines(Lines(input))
  }

  // ----- the lexer as the source runs it: loops that push tokens -----

  datatype Token = WordToken(word: string) | OpenToken | CloseToken | NewlineToken

  function Push(t: Token, k: Tokens): Tokens {
    match t
    case WordToken(w) => Word(w, k)
    case OpenToken => Open(k)
    case CloseToken => Close(k)
    case NewlineToken => Newline(k)
  }

  function Stream(tokens: seq<Token>, k: Tokens): Tokens {
    if tokens == [] then k else Push(tokens[0], Stream(tokens[1..], k))
  }

  lemma {:induction false} StreamPush(tokens: seq<Token>, t: Token, k: Tokens)
    ensures Stream(tokens + [t], k) == Stream(tokens, Push(t, k))
  {
    if tokens != [] {
      StreamPush(tokens[1..], t, k);
      assert (tokens + [t])[1..] == tokens[1..] + [t];
    }
  }

  // One character of the scan.
  lemma StripStep(line: string, i: nat, inQuote: bool)
    requires i < |line|
    ensures |StripComment(line[i..], inQuote)| ==
            if line[i] == '#' && !inQuote then 0
            else 1 + |StripComment(line[i + 1..], inQuote != (line[i] == '"'))|
  {
    assert line[i..][0] == line[i] && line[i..][1..] == line[i + 1..];
  }

  // What is left is a prefix, so its length says it all.
  method StripCommentLoop(line: string) returns (r: string)
    ensures r == StripComment(line, false)
  {
    hide StripComment;
    var inQuote := false;
    var i := 0;
    assert line[0..] == line;
    while i < |line|
      invariant i <= |line|
      invariant |StripComment(line, false)| == i + |StripComment(line[i..], inQuote)|
    {
      StripStep(line, i, inQuote);
      if line[i] == '"' {
        inQuote := !inQuote;
      } else if line[i] == '#' && !inQuote {
        return line[..i];
      }
      i := i + 1;
    }
    return line;
  }

  method TokenizeLoop(input: string) returns (tokens: seq<Token>)
    ensures Stream(tokens, End) == Tokenize(input)
  {
    tokens := [];
    var lines := Lines(input);
    var l := 0;
    while l < |lines|
      invariant l <= |lines|
      invariant Stream(tokens, LexLines(lines[l..])) == Tokenize(input)
    {
      var line := StripCommentLoop(lines[l]);
      tokens := LexLineLoop(line, tokens, LexLines(lines[l + 1..]));
      l := l + 1;
    }
  }

  lemma QuotedHere(line: string, i: nat, j: nat, k: Tokens)
    requires i < j <= |line| && line[i] == '"'
    requires forall x | i + 1 <= x < j :: !IsQuote(line[x])
    requires j < |line| ==> IsQuote(line[j])
    ensures var next := if j < |line| then j + 1 else j;
      LexLine(line[i..], k) == Word(line[i + 1..j], LexLine(line[next..], k))
  {
    var here, n := line[i..], j - i - 1;
    UntilIs(here[1..], IsQuote, n);
    assert here[1..1 + n] == line[i + 1..j];
    if j < |line| {
      assert here[n + 2..] == line[j + 1..];
    } else {
      assert line[j..] == [];
    }
  }

  method ScanQuoted(line: string, i: nat) returns (word: string, next: nat)
    requires i < |line| && line[i] == '"'
    ensures i < next <= |line|
    ensures forall k :: LexLine(line[i..], k) == Word(word, LexLine(line[next..], k))
  {
    hide LexLine;
    var j := i + 1;
    while j < |line| && line[j] != '"'
      invariant i + 1 <= j <= |line|
      invariant forall x | i + 1 <= x < j :: !IsQuote(line[x])
    {
      j := j + 1;
    }
    word := line[i + 1..j];
    next := if j < |line| then j + 1 else j;
    forall k
      ensures LexLine(line[i..], k) == Word(word, LexLine(line[next..], k))
    {
      QuotedHere(line, i, j, k);
    }
  }

  method ScanBare(line: string, i: nat) returns (word: string, next: nat)
    requires i < |line| && line[i] != '"' && !EndsWord(line[i])
    ensures i < next <= |line|
    ensures forall k :: LexLine(line[i..], k) == Word(word, LexLine(line[next..], k))
  {
    next := i + 1;
    while next < |line| && !EndsWord(line[next])
      invariant i < next <= |line|
      invariant forall x | i <= x < next :: !EndsWord(line[x])
    {
      next := next + 1;
    }
    word := line[i..next];
    ghost var here := line[i..];
    UntilIs(here, EndsWord, |word|);
    assert here[..|word|] == word && here[|word|..] == line[next..];
  }

  // One line of TokenizeLoop: `tokens` grows by the tokens of the line and its Newline.
  method LexLineLoop(line: string, before: seq<Token>, ghost k: Tokens) returns (tokens: seq<Token>)
    ensures Stream(tokens, k) == Stream(before, LexLine(line, Newline(k)))
  {
    tokens := before;
    var i := 0;
    while i < |line|
      invariant i <= |line|
      invariant Stream(tokens, LexLine(line[i..], Newline(k))) == Stream(before, LexLine(line, Newline(k)))
    {
      if IsWhitespace(line[i]) {
        i := i + 1;
      } else {
        var t, next := OpenToken, i + 1;
        if line[i] == '}' {
          t := CloseToken;
        } else if line[i] == '"' {
          var w, n := ScanQuoted(line, i);
          t, next := WordToken(w), n;
        } else if line[i] != '{' {
          var w, n := ScanBare(line, i);
          t, next := WordToken(w), n;
        }
        assert LexLine(line[i..], Newline(k)) == Push(t, LexLine(line[next..], Newline(k)));
        StreamPush(tokens, t, LexLine(line[next..], Newline(k)));
        tokens, i := tokens + [t], next;
      }
    }
    StreamPush(tokens, NewlineToken, k);
    tokens := tokens + [NewlineToken];
  }
}
