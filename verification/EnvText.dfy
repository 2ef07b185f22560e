/** What the lines of an env file say, and which lines a patched text has. */
module EnvText {
  import opened Basics
  import opened PyText
  import opened EnvFile
  import opened EnvFileTheorems

  // ---------------------------------------------------------------- reading a line

  /** Apart from surrounding white space, the line is a name, its first "=", and the rest; it is
      no comment, and the name is not blank. */
  predicate Assigns(raw: string, name: string, rest: string) {
    && Strip(raw) == name + ("=" + rest) && '=' !in name
    && Strip(name) != "" && !("#" <= name)
  }

  /** A line binds exactly the name it assigns, trimmed, to the rest without its quotes. */
  lemma ParsesExactly(raw: string, key: string, value: string)
    ensures ParseLine(raw) == Some(Binding(key, value))
       <==> exists name, rest | Assigns(raw, name, rest) :: key == Strip(name) && value == Unquoted(rest)
  {
    hide Unquoted, Strip;
    var line := Strip(raw);
    var at := LineLength(IsEquals, line);
    if ParseLine(raw) == Some(Binding(key, value)) {
      assert line == line[..at] + ("=" + line[at + 1..]);
      assert Assigns(raw, line[..at], line[at + 1..]) by {
        assert at > 0 by {
          BlankStrip();
          assert line[..0] == "";
        }
      }
    }
    if exists name, rest | Assigns(raw, name, rest) :: key == Strip(name) && value == Unquoted(rest) {
      var name, rest :| Assigns(raw, name, rest) && key == Strip(name) && value == Unquoted(rest);
      LineLengthAt(IsEquals, name, "=" + rest);
      assert line[..|name|] == name && line[|name| + 1..] == rest;
      BlankStrip();
    }
  }

  lemma BlankStrip()
    ensures Strip("") == ""
  {
  }

  /** A value without quotes or white space at its ends is read as it is, in quotes or not. */
  lemma QuotesAreDropped(v: string)
    requires Tight(IsSpace, v) && Tight(IsDoubleQuote, v) && Tight(IsSingleQuote, v)
    ensures Unquoted(v) == v && Unquoted("\"" + v + "\"") == v && Unquoted("'" + v + "'") == v
  {
    StripTight(IsSpace, v);
    StripTight(IsDoubleQuote, v);
    StripTight(IsSingleQuote, v);
    InQuotes(v, '"', IsDoubleQuote);
    InQuotes(v, '\'', IsSingleQuote);
    var single := ['\''] + v + ['\''];
    StripTight(IsDoubleQuote, single);
  }

  lemma InQuotes(v: string, quote: char, drop: char -> bool)
    requires drop(quote) && !IsSpace(quote) && Tight(drop, v)
    ensures var quoted := [quote] + v + [quote];
            Strip(quoted) == quoted && StripBy(drop, quoted) == v
  {
    var quoted := [quote] + v + [quote];
    StripTight(IsSpace, quoted);
    assert quoted[0] == quote && quoted[1..] == v + [quote];
    assert LStrip(drop, quoted) == LStrip(drop, v + [quote]);
    if v == "" {
      assert v + [quote] == [quote] && [quote][1..] == "";
      assert LStrip(drop, [quote]) == LStrip(drop, "") == "";
    } else {
      assert LStrip(drop, v + [quote]) == v + [quote];
      assert (v + [quote])[|v|] == quote && (v + [quote])[..|v|] == v;
      assert RStrip(drop, v + [quote]) == RStrip(drop, v) == v;
    }
  }

  // ---------------------------------------------------------------- the lines of a patched text

  /** The lines of the patched text, as the patcher would split them again. */
  function TextLines(content: string, u: Updates): seq<string>
    requires GoodUpdates(u)
  {
    SplitLines(IsLineBreak, Patch(content, u))
  }

  lemma TextLinesAre(content: string, u: Updates)
    requires GoodUpdates(u)
    ensures var out := OutLines(u, SplitLines(IsLineBreak, content));
            && TextLines(content, u) == Kept(out)
            && (forall i | 0 <= i < |out| && out[i] != "" :: i < |Kept(out)|)
            && (forall i | 0 <= i < |Kept(out)| :: i < |out| ==> Kept(out)[i] == out[i])
  {
    hide OutLines, SplitLines, PlainKey, Kept;
    var out := OutLines(u, SplitLines(IsLineBreak, content));
    OutOneLine(u, SplitLines(IsLineBreak, content));
    RenderedLines(IsLineBreak, out);
    KeptPrefix(out);
  }

  lemma KeptPrefix(out: seq<string>)
    ensures forall i | 0 <= i < |out| && out[i] != "" :: i < |Kept(out)|
    ensures forall i | 0 <= i < |Kept(out)| :: i < |out| ==> Kept(out)[i] == out[i]
  {
    DropBlankPrefix(out);
    if DropBlank(out) == [] && out != [] {
      assert out[0] == "";
    }
  }

  /** Every line keeps its place: one that starts with `key=` for an updated key becomes `key=`
      and its number, any other one stays as it is. */
  lemma LinesKeepTheirPlace(content: string, u: Updates, i: nat)
    requires GoodUpdates(u) && i < |SplitLines(IsLineBreak, content)|
    ensures var line, out := SplitLines(IsLineBreak, content)[i], TextLines(content, u);
            && (line != "" ==> i < |out|)
            && (i < |out| && (forall key | key in u.keys :: !StartsWithKey(line, key)) ==> out[i] == line)
            && (forall key | key in u.keys && StartsWithKey(line, key) ::
                  i < |out| && out[i] == key + "=" + FormatMicro(u.values[key]))
  {
    hide FormatMicro, SplitLines, Patch, PlainKey;
    var lines := SplitLines(IsLineBreak, content);
    var out := OutLines(u, lines);
    TextLinesAre(content, u);
    hide Kept, TextLines;
    assert out[i] == PatchLine(u, lines[i]);
    KeyFromFinds(u, lines[i], 0);
    if key :| key in u.keys && StartsWithKey(lines[i], key) {
      KeyOfExactly(u, lines[i], KeyOf(u, lines[i]).value);
    }
    forall key | key in u.keys && StartsWithKey(lines[i], key)
      ensures out[i] == key + "=" + FormatMicro(u.values[key])
    {
      KeysHere(u, lines[i], KeyOf(u, lines[i]).value, key);
    }
  }

  lemma KeysHere(u: Updates, line: string, a: string, b: string)
    requires GoodUpdates(u) && a in u.keys && b in u.keys && StartsWithKey(line, a) && StartsWithKey(line, b)
    ensures a == b
  {
    OneKeyPerLine(line, a, b);
  }

  /** How many of the first `p` keys are not assigned by any line. */
  function Unassigned(u: Updates, lines: seq<string>, p: nat): nat
    requires p <= |u.keys|
  {
    if p == 0 then 0 else
    Unassigned(u, lines, p - 1) + if Assigned(u, lines, u.keys[p - 1]) then 0 else 1
  }

  lemma {:induction false} MissingAt(u: Updates, lines: seq<string>, i: nat, p: nat)
    requires GoodUpdates(u) && i <= p < |u.keys| && !Assigned(u, lines, u.keys[p])
    ensures var at := Unassigned(u, lines, p) - Unassigned(u, lines, i);
            0 <= at < |Missing(u, lines, i)| && Missing(u, lines, i)[at] == NewLine(u, u.keys[p])
    decreases p - i
  {
    hide Assigned, NewLine, PlainKey;
    if i < p {
      MissingAt(u, lines, i + 1, p);
    }
  }

  /** Blank lines between those of the file and the ones added. */
  function Gap(lines: seq<string>): nat {
    if lines != [] && lines[|lines| - 1] != "" then 1 else 0
  }

  predicate NoneStarts(lines: seq<string>, key: string) {
    forall line | line in lines :: !StartsWithKey(line, key)
  }

  /** A key that no line assigns gets a line of its own at the end, in the order of the keys,
      after a blank line that separates the added lines from a text that does not end in one. */
  lemma KeysAreAdded(content: string, u: Updates, lines: seq<string>, p: nat, key: string, number: int)
    requires GoodUpdates(u) && p < |u.keys| && key == u.keys[p] && key in u.values && number == u.values[key]
    requires lines == SplitLines(IsLineBreak, content) && NoneStarts(lines, key)
    ensures var out := TextLines(content, u);
            && |lines| + Gap(lines) + Unassigned(u, lines, p) < |out|
            && out[|lines| + Gap(lines) + Unassigned(u, lines, p)] == key + "=" + FormatMicro(number)
            && (Gap(lines) == 1 ==> out[|lines|] == "")
  {
    hide FormatMicro, SplitLines, Patch, PlainKey, OutLines, GoodUpdates, Kept, TextLines, NoneStarts, Unassigned;
    NotAssigned(u, lines, key);
    AddedLine(u, lines, p);
    TextLinesAre(content, u);
    var at := |lines| + Gap(lines) + Unassigned(u, lines, p);
    assert OutLines(u, lines)[at] == key + "=" + FormatMicro(number);
    assert OutLines(u, lines)[at][|key|] == '=';
  }

  lemma AddedLine(u: Updates, lines: seq<string>, p: nat)
    requires GoodUpdates(u) && p < |u.keys| && !Assigned(u, lines, u.keys[p])
    ensures u.keys[p] in u.values
    ensures var out := OutLines(u, lines);
            && |lines| + Gap(lines) + Unassigned(u, lines, p) < |out|
            && out[|lines| + Gap(lines) + Unassigned(u, lines, p)] == NewLine(u, u.keys[p])
            && (Gap(lines) == 1 ==> out[|lines|] == "")
  {
    hide Assigned, NewLine, PlainKey, Missing, Unassigned;
    MissingAt(u, lines, 0, p);
    assert Unassigned(u, lines, 0) == 0 by {
      NoneYet(u, lines);
    }
    SeparatorIsGap(u, lines);
    var mid := PatchLines(u, lines) + Separator(PatchLines(u, lines));
    assert OutLines(u, lines) == mid + Missing(u, lines, 0);
    assert |mid| == |lines| + Gap(lines);
  }

  lemma NoneYet(u: Updates, lines: seq<string>)
    ensures Unassigned(u, lines, 0) == 0
  {
  }

  lemma SeparatorIsGap(u: Updates, lines: seq<string>)
    requires GoodUpdates(u)
    ensures Separator(PatchLines(u, lines)) == if lines != [] && lines[|lines| - 1] != "" then [""] else []
  {
    hide FormatMicro, PlainKey;
    if lines != [] {
      KeyFromFinds(u, lines[|lines| - 1], 0);
    }
  }

  lemma NotAssigned(u: Updates, lines: seq<string>, key: string)
    requires GoodUpdates(u) && key in u.keys && NoneStarts(lines, key)
    ensures !Assigned(u, lines, key)
  {
    hide PlainKey;
    if i :| 0 <= i < |lines| && KeyOf(u, lines[i]) == Some(key) {
      KeyFromFinds(u, lines[i], 0);
    }
  }
}
