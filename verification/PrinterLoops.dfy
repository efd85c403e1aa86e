// The loops of the printer as the source runs them (conf/src/language.rs, language_bgp.rs):
// a buffer that only grows. Each computes its function.
module PrinterLoops {
  import opened Ast
  import opened Layout
  import opened Lexer
  import P = Printer

  // Printing the text of a nested block two columns to the right.
  method ReindentLoop(text: string) returns (lines: seq<string>)
    ensures lines == Reindent(text)
  {
    var nested := Lines(text);
    lines := [];
    for i := 0 to |nested|
      invariant lines == Prefixed(nested[..i])
    {
      lines := lines + ["  " + nested[i]];
    }
    assert nested[..|nested|] == nested;
  }

  method ItemLoop(item: P.Item) returns (lines: seq<string>)
    ensures lines == P.ItemLines(item)
  {
    hide P.ItemText, P.SettingLine, RowTexts, Reindent;
    if item.SettingItem? {
      lines := RowTexts([Row(1, P.SettingLine(item.setting))]);
    } else {
      lines := ReindentLoop(P.ItemText(item));
    }
  }

  // The entries of a service, with the flag that keeps the first from being preceded by a
  // blank line.
  method ItemsLoop(items: seq<P.Item>) returns (lines: seq<string>)
    ensures lines == P.ItemsLines(items, true)
  {
    hide P.ItemLines, P.Gap;
    lines := [];
    var first := true;
    var i := 0;
    assert items[0..] == items && [] + P.ItemsLines(items, true) == P.ItemsLines(items, true);
    while i < |items|
      invariant 0 <= i <= |items|
      invariant lines + P.ItemsLines(items[i..], first) == P.ItemsLines(items, true)
    {
      ghost var rest := P.ItemsLines(items[i + 1..], false);
      assert items[i..][1..] == items[i + 1..] && items[i..][0] == items[i];
      var gap: seq<string> := if P.Gap(items[i], first) then [""] else [];
      var own := ItemLoop(items[i]);
      assert P.ItemsLines(items[i..], first) == gap + (own + rest);
      assert lines + (gap + (own + rest)) == lines + gap + own + rest;
      lines, first := lines + gap + own, false;
      i := i + 1;
    }
    assert items[i..] == [];
    assert lines + [] == lines;
  }

  method ServicesLoop(r: Root) returns (text: string)
    ensures text == P.RootText(r)
  {
    hide P.BodyText;
    text := "";
    var i := 0;
    assert r.services[0..] == r.services && "" + P.ServicesText(r.services, true) == P.ServicesText(r.services, true);
    while i < |r.services|
      invariant 0 <= i <= |r.services|
      invariant text + P.ServicesText(r.services[i..], i == 0) == P.ServicesText(r.services, true)
    {
      ghost var rest := P.ServicesText(r.services[i + 1..], false);
      assert r.services[i..][1..] == r.services[i + 1..];
      var gap := if i > 0 then "\n" else "";
      var body := P.BodyText(r.services[i]);
      assert text + (gap + (body + "\n" + rest)) == text + gap + body + "\n" + rest;
      text := text + gap + body + "\n";
      i := i + 1;
    }
    assert r.services[i..] == [];
  }
}
