/** Patching an env file is a map update on what the file means. */
module EnvFileTheorems {
  import opened Basics
  import opened PyText
  import opened EnvFile

  // ---------------------------------------------------------------- numbers as text

  predicate Numeric(s: string) {
    s != "" && forall i | 0 <= i < |s| :: s[i] == '-' || s[i] == '.' || '0' <= s[i] <= '9'
  }

  lemma {:induction false} DigitsNumeric(n: nat)
    ensures Numeric(Digits(n))
    decreases n
  {
    if n >= 10 {
      DigitsNumeric(n / 10);
    }
  }

  lemma FormatNumeric(v: int)
    ensures Numeric(FormatMicro(v))
  {
    DigitsNumeric((if v < 0 then -v else v) / 1_000_000);
  }

  /** A formatted number survives the reader's trimming and unquoting. */
  lemma NumericUnquoted(s: string)
    requires Numeric(s)
    ensures Unquoted(s) == s && OneLine(IsLineBreak, s)
  {
    StripTight(IsSpace, s);
    StripTight(IsDoubleQuote, s);
    StripTight(IsSingleQuote, s);
  }

  // ---------------------------------------------------------------- texts as numbers

  predicate IsDot(c: char) { c == '.' }

  predicate AllDigits(s: string) {
    s != "" && forall i | 0 <= i < |s| :: '0' <= s[i] <= '9'
  }

  /** The number that digits stand for. */
  function Natural(s: string): nat
    requires forall i | 0 <= i < |s| :: '0' <= s[i] <= '9'
  {
    if s == "" then 0 else 10 * Natural(s[..|s| - 1]) + (s[|s| - 1] as int - '0' as int)
  }

  /** A decimal number with six decimals, as a count of millionths. */
  function DecodeMicro(s: string): Option<int> {
    var negative := s != "" && s[0] == '-';
    var body := if negative then s[1..] else s;
    var at := LineLength(IsDot, body);
    if |body| != at + 7 || !AllDigits(body[..at]) || !AllDigits(body[at + 1..]) then None
    else
      var millionths := 1_000_000 * Natural(body[..at]) + Natural(body[at + 1..]);
      Some(if negative then -millionths else millionths)
  }

  lemma {:induction false} DigitsRead(n: nat)
    ensures AllDigits(Digits(n)) && Natural(Digits(n)) == n
    decreases n
  {
    if n >= 10 {
      DigitsRead(n / 10);
      assert Digits(n)[..|Digits(n)| - 1] == Digits(n / 10);
    } else {
      assert [Digit(n)][..0] == "";
    }
  }

  lemma NaturalSnoc(s: string, c: char)
    requires (forall i | 0 <= i < |s| :: '0' <= s[i] <= '9') && '0' <= c <= '9'
    ensures Natural(s + [c]) == 10 * Natural(s) + (c as int - '0' as int)
  {
    assert (s + [c])[..|s|] == s;
  }

  lemma SixDigitsRead(n: nat)
    requires n < 1_000_000
    ensures AllDigits(SixDigits(n)) && |SixDigits(n)| == 6 && Natural(SixDigits(n)) == n
  {
    var d := SixDigits(n);
    assert d == [] + [d[0]] + [d[1]] + [d[2]] + [d[3]] + [d[4]] + [d[5]];
    NaturalSnoc([], d[0]);
    NaturalSnoc([] + [d[0]], d[1]);
    NaturalSnoc([] + [d[0]] + [d[1]], d[2]);
    NaturalSnoc([] + [d[0]] + [d[1]] + [d[2]], d[3]);
    NaturalSnoc([] + [d[0]] + [d[1]] + [d[2]] + [d[3]], d[4]);
    NaturalSnoc([] + [d[0]] + [d[1]] + [d[2]] + [d[3]] + [d[4]], d[5]);
    SixPlaces(n);
  }

  lemma SixPlaces(n: nat)
    requires n < 1_000_000
    ensures n == 10 * (10 * (10 * (10 * (10 * (n / 100_000 % 10) + n / 10_000 % 10) + n / 1_000 % 10) + n / 100 % 10)
                       + n / 10 % 10) + n % 10
  {
    assert n / 100_000 < 10;
    assert n / 10_000 / 10 == n / 100_000;
    assert n / 1_000 / 10 == n / 10_000;
    assert n / 100 / 10 == n / 1_000;
    assert n / 10 / 10 == n / 100;
  }

  lemma DotBetween(whole: string, part: string)
    requires AllDigits(whole) && AllDigits(part) && |part| == 6
    ensures var body := whole + "." + part;
            && LineLength(IsDot, body) == |whole| && |body| == |whole| + 7 && body[0] != '-'
            && body[..|whole|] == whole && body[|whole| + 1..] == part
  {
    var body := whole + "." + part;
    assert body == whole + ("." + part);
    LineLengthAt(IsDot, whole, "." + part);
    hide LineLength;
    assert body[0] == whole[0] && '0' <= whole[0] <= '9';
  }

  lemma DecodeBody(text: string, negative: bool, body: string, whole: string, part: string)
    requires AllDigits(whole) && AllDigits(part) && |part| == 6
    requires LineLength(IsDot, body) == |whole| && |body| == |whole| + 7
    requires body[..|whole|] == whole && body[|whole| + 1..] == part
    requires text != "" && negative == (text[0] == '-') && body == if negative then text[1..] else text
    ensures var millionths := 1_000_000 * Natural(whole) + Natural(part);
            DecodeMicro(text) == Some(if negative then -millionths else millionths)
  {
    hide LineLength, Natural, AllDigits;
  }

  lemma DecodeParts(negative: bool, whole: string, part: string)
    requires AllDigits(whole) && AllDigits(part) && |part| == 6
    ensures var millionths := 1_000_000 * Natural(whole) + Natural(part);
            DecodeMicro((if negative then "-" else "") + whole + "." + part)
            == Some(if negative then -millionths else millionths)
  {
    hide LineLength, Natural, AllDigits, DecodeMicro;
    DotBetween(whole, part);
    var text, body := (if negative then "-" else "") + whole + "." + part, whole + "." + part;
    assert text == if negative then "-" + body else body;
    DecodeBody(text, negative, body, whole, part);
  }

  /** Every number is read back from the text written for it. */
  lemma DecodesFormatted(v: int)
    ensures DecodeMicro(FormatMicro(v)) == Some(v)
  {
    hide Digits, SixDigits, DecodeMicro, Natural, AllDigits;
    var a := if v < 0 then -v else v;
    DigitsRead(a / 1_000_000);
    SixDigitsRead(a % 1_000_000);
    DecodeParts(v < 0, Digits(a / 1_000_000), SixDigits(a % 1_000_000));
  }

  // ---------------------------------------------------------------- lines that assign a key

  lemma StripKeepsHead(line: string, m: nat)
    requires 0 < m <= |line| && !IsSpace(line[0]) && !IsSpace(line[m - 1])
    ensures |Strip(line)| >= m && Strip(line)[..m] == line[..m]
  {
    LStripNothing(line);
    hide LStrip, RStrip, IsSpace;
    RStripCut(IsSpace, line);
    var r := RStrip(IsSpace, line);
    assert !IsSpace(line[m - 1]);
    assert m - 1 < |r|;
    assert r[..m] == line[..|r|][..m];
  }

  lemma LStripNothing(line: string)
    requires line != "" && !IsSpace(line[0])
    ensures LStrip(IsSpace, line) == line
  {
  }

  /** A line that starts with `key=` is read as an assignment of that key. */
  lemma KeyLineBinds(line: string, key: string)
    requires PlainKey(key) && StartsWithKey(line, key)
    ensures ParseLine(line).Some? && ParseLine(line).value.key == key
  {
    var m := |key| + 1;
    assert line[..|key|] == key && line[|key|] == '=';
    StripKeepsHead(line, m);
    var s := Strip(line);
    assert s[..|key|] == s[..m][..|key|] == key && s[|key|] == s[..m][|key|] == '=';
    assert s == key + s[|key|..];
    assert OneLine(IsEquals, key);
    LineLengthAt(IsEquals, key, s[|key|..]);
    StripTight(IsSpace, key);
  }

  /** A line made of a plain key and a tight value. */
  lemma PairBinds(key: string, v: string)
    requires PlainKey(key) && v != "" && !IsSpace(v[|v| - 1])
    ensures ParseLine(key + "=" + v) == Some(Binding(key, Unquoted(v)))
  {
    hide Unquoted;
    var line := key + "=" + v;
    assert line[|line| - 1] == v[|v| - 1];
    StripTight(IsSpace, line);
    assert line == key + ("=" + v);
    LineLengthAt(IsEquals, key, "=" + v);
    assert line[..|key|] == key && line[|key| + 1..] == v;
    StripTight(IsSpace, key);
  }

  lemma NewLineBinds(u: Updates, key: string)
    requires PlainKey(key) && key in u.values
    ensures ParseLine(NewLine(u, key)) == Some(Binding(key, FormatMicro(u.values[key])))
    ensures OneLine(IsLineBreak, NewLine(u, key)) && NewLine(u, key) != ""
  {
    hide FormatMicro, ParseLine, Unquoted;
    var v := FormatMicro(u.values[key]);
    FormatNumeric(u.values[key]);
    NumericUnquoted(v);
    PairBinds(key, v);
  }

  lemma {:induction false} KeyFromFinds(u: Updates, line: string, i: nat)
    requires i <= |u.keys|
    ensures var r := KeyFrom(u, line, i);
            && (r.Some? ==> r.value in u.keys && StartsWithKey(line, r.value))
            && (r.None? ==> forall k | i <= k < |u.keys| :: !StartsWithKey(line, u.keys[k]))
    decreases |u.keys| - i
  {
    if i < |u.keys| && !StartsWithKey(line, u.keys[i]) {
      KeyFromFinds(u, line, i + 1);
    }
  }

  /** Keys hold no '=', so a line assigns at most one of them. */
  lemma OneKeyPerLine(line: string, a: string, b: string)
    requires PlainKey(a) && PlainKey(b) && StartsWithKey(line, a) && StartsWithKey(line, b)
    ensures a == b
  {
    KeyLineBinds(line, a);
    KeyLineBinds(line, b);
  }

  lemma KeyOfExactly(u: Updates, line: string, key: string)
    requires GoodUpdates(u) && key in u.keys
    ensures KeyOf(u, line) == Some(key) <==> StartsWithKey(line, key)
  {
    KeyFromFinds(u, line, 0);
    if StartsWithKey(line, key) {
      var k := KeyOf(u, line).value;
      OneKeyPerLine(line, k, key);
    }
  }

  // ---------------------------------------------------------------- the last line for a key

  predicate Binds(line: string, key: string) {
    ParseLine(line).Some? && ParseLine(line).value.key == key
  }

  /** The last line that reads as an assignment of `key`. */
  function Last(lines: seq<string>, key: string): Option<string> {
    if lines == [] then None
    else if Binds(lines[|lines| - 1], key) then Some(lines[|lines| - 1])
    else Last(lines[..|lines| - 1], key)
  }

  lemma {:induction false} ReadIsLast(lines: seq<string>, key: string)
    ensures key in ReadLines(lines) <==> Last(lines, key).Some?
    ensures Last(lines, key).Some? ==>
              && Binds(Last(lines, key).value, key)
              && ReadLines(lines)[key] == ParseLine(Last(lines, key).value).value.value
  {
    if lines != [] {
      ReadIsLast(lines[..|lines| - 1], key);
    }
  }

  lemma {:induction false} LastConcat(a: seq<string>, b: seq<string>, key: string)
    ensures Last(a + b, key) == if Last(b, key).Some? then Last(b, key) else Last(a, key)
  {
    if b == [] {
      assert a + b == a;
    } else {
      assert (a + b)[..|a + b| - 1] == a + b[..|b| - 1];
      LastConcat(a, b[..|b| - 1], key);
    }
  }

  lemma PatchKeepsKey(u: Updates, line: string, key: string)
    requires GoodUpdates(u)
    ensures Binds(PatchLine(u, line), key) <==> Binds(line, key)
  {
    hide FormatMicro;
    KeyFromFinds(u, line, 0);
    if KeyOf(u, line).Some? {
      KeyLineBinds(line, KeyOf(u, line).value);
      NewLineBinds(u, KeyOf(u, line).value);
    }
  }

  lemma {:induction false} LastPatched(u: Updates, lines: seq<string>, key: string)
    requires GoodUpdates(u)
    ensures Last(PatchLines(u, lines), key)
         == if Last(lines, key).None? then None else Some(PatchLine(u, Last(lines, key).value))
  {
    hide PatchLine, Binds;
    if lines != [] {
      var n := |lines| - 1;
      PatchKeepsKey(u, lines[n], key);
      assert PatchLines(u, lines)[..n] == PatchLines(u, lines[..n]);
      LastPatched(u, lines[..n], key);
    }
  }

  lemma {:induction false} LastMissing(u: Updates, lines: seq<string>, i: nat, key: string)
    requires GoodUpdates(u) && i <= |u.keys|
    ensures Last(Missing(u, lines, i), key)
         == if key in u.keys[i..] && !Assigned(u, lines, key) then Some(NewLine(u, key)) else None
    decreases |u.keys| - i
  {
    hide FormatMicro, Assigned, ParseLine;
    if i < |u.keys| {
      var k := u.keys[i];
      LastMissing(u, lines, i + 1, key);
      NewLineBinds(u, k);
      LastConcat(if Assigned(u, lines, k) then [] else [NewLine(u, k)], Missing(u, lines, i + 1), key);
      assert u.keys[i..] == [k] + u.keys[i + 1..];
      assert Last([NewLine(u, k)], key) == if k == key then Some(NewLine(u, k)) else None by {
        assert [NewLine(u, k)][..0] == [];
      }
      assert k !in u.keys[i + 1..];
    }
  }

  lemma BlankBindsNothing(key: string)
    ensures !Binds("", key) && Last([""], key) == None
  {
    assert Strip("") == "";
  }

  lemma LastOut(u: Updates, lines: seq<string>, key: string)
    requires GoodUpdates(u)
    ensures Last(OutLines(u, lines), key)
         == if key in u.keys && !Assigned(u, lines, key) then Some(NewLine(u, key))
            else if Last(lines, key).None? then None else Some(PatchLine(u, Last(lines, key).value))
  {
    hide PatchLine, PatchLines, Assigned, NewLine, Binds;
    var out := PatchLines(u, lines);
    LastConcat(out + Separator(out), Missing(u, lines, 0), key);
    LastConcat(out, Separator(out), key);
    BlankBindsNothing(key);
    LastPatched(u, lines, key);
    LastMissing(u, lines, 0, key);
    assert u.keys[0..] == u.keys;
  }

  /** The update of `key` takes effect: no line starts with `key=`, so one is added at the end;
      or the last line that reads as `key` does, or holds the new value already. */
  predicate Settled(u: Updates, lines: seq<string>, key: string)
    requires key in u.values
  {
    Assigned(u, lines, key) && Last(lines, key).Some? ==>
      StartsWithKey(Last(lines, key).value, key)
      || ParseLine(Last(lines, key).value) == Some(Binding(key, FormatMicro(u.values[key])))
  }

  function NewValues(u: Updates): map<string, string> {
    map key | key in u.values :: FormatMicro(u.values[key])
  }

  lemma LastOfBinding(lines: seq<string>, i: nat, key: string)
    requires i < |lines| && Binds(lines[i], key)
    ensures Last(lines, key).Some?
  {
    hide Binds;
    assert lines == lines[..i] + [lines[i]] + lines[i + 1..];
    LastConcat(lines[..i] + [lines[i]], lines[i + 1..], key);
    LastConcat(lines[..i], [lines[i]], key);
    assert Last([lines[i]], key) == Some(lines[i]);
  }

  lemma AssignedIsRead(u: Updates, lines: seq<string>, key: string)
    requires GoodUpdates(u) && Assigned(u, lines, key)
    ensures Last(lines, key).Some?
  {
    hide PlainKey, ParseLine, Last;
    var i :| 0 <= i < |lines| && KeyOf(u, lines[i]) == Some(key);
    KeyFromFinds(u, lines[i], 0);
    KeyLineBinds(lines[i], key);
    LastOfBinding(lines, i, key);
  }

  /** What the patched lines bind a key to. */
  lemma PatchedValue(u: Updates, lines: seq<string>, key: string)
    requires GoodUpdates(u)
    ensures var before, after := ReadLines(lines), ReadLines(OutLines(u, lines));
            if key in u.values then
              key in after && (after[key] == FormatMicro(u.values[key]) <==> Settled(u, lines, key))
            else
              (key in after <==> key in before) && (key in before ==> after[key] == before[key])
  {
    hide FormatMicro, Assigned, ParseLine, KeyOf, NewLine, StartsWithKey;
    ReadIsLast(lines, key);
    ReadIsLast(OutLines(u, lines), key);
    LastOut(u, lines, key);
    if key in u.values && !Assigned(u, lines, key) {
      NewLineBinds(u, key);
    } else if key in u.values {
      AssignedIsRead(u, lines, key);
      PatchedLine(u, Last(lines, key).value, key);
    } else if Last(lines, key).Some? {
      PatchedLine(u, Last(lines, key).value, key);
    }
  }

  /** Patching a line that reads as `key`. */
  lemma PatchedLine(u: Updates, line: string, key: string)
    requires GoodUpdates(u) && Binds(line, key)
    ensures PatchLine(u, line) == if key in u.values && StartsWithKey(line, key) then NewLine(u, key) else line
    ensures key in u.values ==> ParseLine(NewLine(u, key)) == Some(Binding(key, FormatMicro(u.values[key])))
  {
    hide FormatMicro, ParseLine, NewLine;
    KeyFromFinds(u, line, 0);
    if KeyOf(u, line).Some? {
      KeyLineBinds(line, KeyOf(u, line).value);
    }
    if key in u.values {
      KeyOfExactly(u, line, key);
      NewLineBinds(u, key);
    }
  }

  // ---------------------------------------------------------------- text and lines

  /** Lines without the empty ones at the end. */
  function DropBlank(lines: seq<string>): seq<string> {
    if lines == [] || lines[|lines| - 1] != "" then lines else DropBlank(lines[..|lines| - 1])
  }

  /** The lines of a rendered text: at least one, none empty after the last other one. */
  function Kept(out: seq<string>): seq<string> {
    if DropBlank(out) == [] then [""] else DropBlank(out)
  }

  lemma {:induction false} JoinSnocBlank(lines: seq<string>)
    requires lines != []
    ensures JoinLines(lines + [""]) == JoinLines(lines) + "\n"
  {
    if |lines| == 1 {
      assert (lines + [""])[1..] == [""];
    } else {
      assert (lines + [""])[1..] == lines[1..] + [""];
      JoinSnocBlank(lines[1..]);
    }
  }

  lemma {:induction false} JoinEnd(lines: seq<string>)
    requires lines != [] && lines[|lines| - 1] != ""
    ensures JoinLines(lines) != "" && JoinLines(lines)[|JoinLines(lines)| - 1]
         == lines[|lines| - 1][|lines[|lines| - 1]| - 1]
  {
    if |lines| > 1 {
      JoinEnd(lines[1..]);
    }
  }

  lemma {:induction false} JoinThenNewline(lines: seq<string>)
    requires lines != []
    ensures JoinLines(lines) + "\n" == Unlines(lines)
  {
    if |lines| > 1 {
      JoinThenNewline(lines[1..]);
    } else {
      assert lines[1..] == [];
    }
  }

  lemma {:induction false} RStripJoin(lines: seq<string>)
    requires AllOneLine(IsLineBreak, lines)
    ensures RStrip(IsLf, JoinLines(lines)) == JoinLines(DropBlank(lines))
  {
    if lines != [] {
      var n := |lines| - 1;
      if lines[n] == "" {
        RStripJoin(lines[..n]);
        if n > 0 {
          JoinSnocBlank(lines[..n]);
          assert lines[..n] + [""] == lines;
          assert (JoinLines(lines[..n]) + "\n")[..|JoinLines(lines[..n])|] == JoinLines(lines[..n]);
        } else {
          assert lines == [""] && lines[..n] == [];
        }
      } else {
        JoinEnd(lines);
      }
    }
  }

  lemma {:induction false} DropBlankPrefix(lines: seq<string>)
    ensures |DropBlank(lines)| <= |lines| && DropBlank(lines) == lines[..|DropBlank(lines)|]
    ensures forall i | |DropBlank(lines)| <= i < |lines| :: lines[i] == ""
  {
    if lines != [] && lines[|lines| - 1] == "" {
      DropBlankPrefix(lines[..|lines| - 1]);
    }
  }

  /** Splitting a rendered text gives back its lines. */
  lemma RenderedLines(isBreak: char -> bool, out: seq<string>)
    requires isBreak('\n') && AllOneLine(isBreak, out) && AllOneLine(IsLineBreak, out)
    ensures SplitLines(isBreak, Rendered(out)) == Kept(out)
  {
    RStripJoin(out);
    DropBlankPrefix(out);
    JoinThenNewline(Kept(out));
    SplitUnlines(isBreak, Kept(out));
  }

  lemma {:induction false} ReadKept(out: seq<string>)
    ensures ReadLines(Kept(out)) == ReadLines(out)
  {
    if out != [] && out[|out| - 1] == "" {
      BlankBindsNothing("");
      ReadKept(out[..|out| - 1]);
    } else if out == [] {
      assert Strip("") == "" && [""][..0] == [];
    }
  }

  lemma {:induction false} MissingOneLine(u: Updates, lines: seq<string>, i: nat)
    requires GoodUpdates(u) && i <= |u.keys|
    ensures AllOneLine(IsLineBreak, Missing(u, lines, i))
    decreases |u.keys| - i
  {
    hide FormatMicro, Assigned;
    if i < |u.keys| {
      NewLineBinds(u, u.keys[i]);
      MissingOneLine(u, lines, i + 1);
    }
  }

  lemma OutOneLine(u: Updates, lines: seq<string>)
    requires GoodUpdates(u) && AllOneLine(IsLineBreak, lines)
    ensures AllOneLine(IsLineBreak, OutLines(u, lines))
  {
    hide FormatMicro, NewLine;
    MissingOneLine(u, lines, 0);
    forall i | 0 <= i < |lines| ensures OneLine(IsLineBreak, PatchLine(u, lines[i])) {
      KeyFromFinds(u, lines[i], 0);
      if KeyOf(u, lines[i]).Some? {
        NewLineBinds(u, KeyOf(u, lines[i]).value);
      }
    }
  }

  /** The only line ends in the text are newlines. */
  predicate PlainBreaks(content: string) {
    forall i | 0 <= i < |content| :: IsLineBreak(content[i]) ==> IsNewline(content[i])
  }

  lemma {:induction false} SplitAgrees(f: char -> bool, g: char -> bool, s: string)
    requires forall i | 0 <= i < |s| :: f(s[i]) == g(s[i])
    ensures SplitLines(f, s) == SplitLines(g, s)
    decreases |s|
  {
    LengthAgrees(f, g, s);
    var n := LineLength(f, s);
    if n < |s| {
      SplitAgrees(f, g, s[n + BreakLength(s, n)..]);
    }
  }

  lemma {:induction false} LengthAgrees(f: char -> bool, g: char -> bool, s: string)
    requires forall i | 0 <= i < |s| :: f(s[i]) == g(s[i])
    ensures LineLength(f, s) == LineLength(g, s)
  {
    if s != [] && !f(s[0]) {
      LengthAgrees(f, g, s[1..]);
    }
  }

  // ---------------------------------------------------------------- main results

  /** Reading the patched text is reading the patched lines. */
  lemma ReadPatched(content: string, u: Updates)
    requires GoodUpdates(u)
    ensures Read(Patch(content, u)) == ReadLines(OutLines(u, SplitLines(IsLineBreak, content)))
  {
    var out := OutLines(u, SplitLines(IsLineBreak, content));
    OutOneLine(u, SplitLines(IsLineBreak, content));
    forall k | 0 <= k < |out| ensures OneLine(IsNewline, out[k]) {
      assert OneLine(IsLineBreak, out[k]);
    }
    RenderedLines(IsNewline, out);
    ReadKept(out);
  }

  lemma MapUpdateExactly(before: map<string, string>, after: map<string, string>, changes: map<string, string>,
                         settled: set<string>)
    requires forall key | key in changes :: key in after && (after[key] == changes[key] <==> key in settled)
    ensures after == before + changes
       <==> (forall key | key in changes :: key in settled)
            && (forall key | key !in changes :: SameAt(after, before, key))
  {
    if after == before + changes {
      forall key | key in changes ensures key in settled {
        assert (before + changes)[key] == changes[key];
      }
      forall key | key !in changes ensures SameAt(after, before, key) {
        assert key in before + changes <==> key in before;
      }
    }
    if (forall key | key in changes :: key in settled) && (forall key | key !in changes :: SameAt(after, before, key)) {
      forall key ensures SameAt(after, before + changes, key) {
        assert key !in changes ==> SameAt(after, before, key);
      }
    }
  }

  predicate SameAt(a: map<string, string>, b: map<string, string>, key: string) {
    (key in a <==> key in b) && (key in a ==> a[key] == b[key])
  }

  /** The lines the patcher sees give this key the value that the reader gives it. */
  predicate ReadAlike(content: string, key: string) {
    SameAt(ReadLines(SplitLines(IsLineBreak, content)), Read(content), key)
  }

  /** Patching then reading is a map update, with nothing else changed, exactly when every
      updated key is settled (if some line starts with `key=`, then so does the last line that
      reads as `key`, or it holds the new value already) and every other key is read alike
      from the patcher's lines and from the reader's. */
  lemma PatchIsMapUpdate(content: string, u: Updates)
    requires GoodUpdates(u)
    ensures Read(Patch(content, u)) == Read(content) + NewValues(u)
       <==> (forall key | key in u.values :: Settled(u, SplitLines(IsLineBreak, content), key))
            && (forall key | key !in u.values :: ReadAlike(content, key))
    ensures NewValues(u).Keys == u.values.Keys
    ensures forall key | key in u.values :: DecodeMicro(NewValues(u)[key]) == Some(u.values[key])
  {
    hide DecodeMicro, FormatMicro, Settled, Patch, OutLines, SplitLines, ReadLines, GoodUpdates, Read;
    var lines := SplitLines(IsLineBreak, content);
    var after := Read(Patch(content, u));
    ReadPatched(content, u);
    var settled := set key | key in u.values && Settled(u, lines, key);
    forall key ensures if key in NewValues(u)
        then key in after && (after[key] == NewValues(u)[key] <==> key in settled)
        else SameAt(after, ReadLines(lines), key)
    {
      PatchedValue(u, lines, key);
    }
    MapUpdateExactly(Read(content), after, NewValues(u), settled);
    assert forall key :: key in NewValues(u) <==> key in u.values;
    assert (forall key | key in NewValues(u) :: key in settled)
      <==> (forall key | key in u.values :: Settled(u, lines, key));
    assert forall key | key !in u.values :: ReadAlike(content, key) <==> SameAt(after, Read(content), key);
    forall key | key in u.values ensures DecodeMicro(NewValues(u)[key]) == Some(u.values[key]) {
      DecodesFormatted(u.values[key]);
    }
  }

  /** The last line that reads as `key` starts with `key=`, or reads as the number. */
  predicate TakesNumber(lines: seq<string>, key: string, number: int) {
    var last := Last(lines, key);
    && last.Some?
    && (StartsWithKey(last.value, key)
        || (ParseLine(last.value).Some? && DecodeMicro(ParseLine(last.value).value.value) == Some(number)))
  }

  /** Whatever other keys do: a key is read as its new number exactly when no line starts with
      `key=`, or the last line that reads as `key` does, or that line reads as the number
      already. */
  lemma PatchSetsNumberExactly(content: string, u: Updates, key: string)
    requires GoodUpdates(u) && key in u.values
    ensures var lines, after := SplitLines(IsLineBreak, content), Read(Patch(content, u));
            && key in after
            && (DecodeMicro(after[key]) == Some(u.values[key])
                <==> !Assigned(u, lines, key) || TakesNumber(lines, key, u.values[key]))
  {
    hide DecodeMicro, FormatMicro, Patch, SplitLines, GoodUpdates, Read, Assigned, Last, NewLine;
    hide StartsWithKey, ParseLine;
    var lines := SplitLines(IsLineBreak, content);
    ReadPatched(content, u);
    DecodesFormatted(u.values[key]);
    PatchedNumber(u, lines, key);
  }

  lemma PatchedNumber(u: Updates, lines: seq<string>, key: string)
    requires GoodUpdates(u) && key in u.values
    ensures Assigned(u, lines, key) ==> Last(lines, key).Some? && Binds(Last(lines, key).value, key)
    ensures key in ReadLines(OutLines(u, lines))
    ensures ReadLines(OutLines(u, lines))[key]
         == if Assigned(u, lines, key) && !StartsWithKey(Last(lines, key).value, key)
            then ParseLine(Last(lines, key).value).value.value else FormatMicro(u.values[key])
  {
    hide FormatMicro, Assigned, ParseLine, KeyOf, NewLine, StartsWithKey;
    ReadIsLast(lines, key);
    ReadIsLast(OutLines(u, lines), key);
    LastOut(u, lines, key);
    if Assigned(u, lines, key) {
      AssignedIsRead(u, lines, key);
      PatchedLine(u, Last(lines, key).value, key);
    } else {
      NewLineBinds(u, key);
    }
  }

  /** When the only line ends are newlines, settled keys are all it takes. */
  lemma PlainPatchIsMapUpdate(content: string, u: Updates)
    requires GoodUpdates(u) && PlainBreaks(content)
    ensures Read(Patch(content, u)) == Read(content) + NewValues(u)
       <==> forall key | key in u.values :: Settled(u, SplitLines(IsNewline, content), key)
  {
    hide Settled, Patch, SplitLines, ReadLines, GoodUpdates, NewValues;
    SplitAgrees(IsLineBreak, IsNewline, content);
    PatchIsMapUpdate(content, u);
  }

  lemma PatchLineTwice(u: Updates, line: string)
    requires GoodUpdates(u)
    ensures PatchLine(u, PatchLine(u, line)) == PatchLine(u, line)
  {
    hide FormatMicro;
    KeyFromFinds(u, line, 0);
    if KeyOf(u, line).Some? {
      var key := KeyOf(u, line).value;
      assert StartsWithKey(NewLine(u, key), key);
      KeyOfExactly(u, NewLine(u, key), key);
    }
  }

  lemma {:induction false} NewLinesInMissing(u: Updates, lines: seq<string>, i: nat, k: nat)
    requires GoodUpdates(u) && i <= k < |u.keys| && !Assigned(u, lines, u.keys[k])
    ensures NewLine(u, u.keys[k]) in Missing(u, lines, i)
    decreases |u.keys| - i
  {
    hide FormatMicro, Assigned, PlainKey;
    if i < k {
      NewLinesInMissing(u, lines, i + 1, k);
    }
  }

  /** Every added line assigns an updated key. */
  lemma {:induction false} MissingLine(u: Updates, lines: seq<string>, i: nat, j: nat) returns (key: string)
    requires GoodUpdates(u) && i <= |u.keys| && j < |Missing(u, lines, i)|
    ensures key in u.keys && Missing(u, lines, i)[j] == NewLine(u, key)
    decreases |u.keys| - i
  {
    hide FormatMicro, Assigned, PlainKey, NewLine;
    if Assigned(u, lines, u.keys[i]) {
      key := MissingLine(u, lines, i + 1, j);
    } else if j == 0 {
      key := u.keys[i];
    } else {
      key := MissingLine(u, lines, i + 1, j - 1);
    }
  }

  /** Every line of a patched text is left alone by a second patch. */
  lemma OutIsFixed(u: Updates, lines: seq<string>, i: nat)
    requires GoodUpdates(u) && i < |OutLines(u, lines)|
    ensures PatchLine(u, OutLines(u, lines)[i]) == OutLines(u, lines)[i]
  {
    hide FormatMicro, NewLine, PlainKey, Assigned;
    var out := PatchLines(u, lines);
    var mid := out + Separator(out);
    if i < |out| {
      PatchLineTwice(u, lines[i]);
    } else if i < |mid| {
      KeyFromFinds(u, "", 0);
    } else {
      var key := MissingLine(u, lines, 0, i - |mid|);
      NewLineFixed(u, key);
    }
  }

  lemma NewLineFixed(u: Updates, key: string)
    requires GoodUpdates(u) && key in u.keys
    ensures PatchLine(u, NewLine(u, key)) == NewLine(u, key) && KeyOf(u, NewLine(u, key)) == Some(key)
  {
    hide FormatMicro;
    assert StartsWithKey(NewLine(u, key), key);
    KeyOfExactly(u, NewLine(u, key), key);
  }

  /** Every updated key is assigned by some line of the patched text. */
  lemma OutAssigns(u: Updates, lines: seq<string>, k: nat)
    requires GoodUpdates(u) && k < |u.keys|
    ensures NewLine(u, u.keys[k]) in OutLines(u, lines)
  {
    hide FormatMicro, PlainKey;
    var key := u.keys[k];
    if Assigned(u, lines, key) {
      var i :| 0 <= i < |lines| && KeyOf(u, lines[i]) == Some(key);
      assert PatchLines(u, lines)[i] == NewLine(u, key);
      assert OutLines(u, lines)[i] == NewLine(u, key);
    } else {
      NewLinesInMissing(u, lines, 0, k);
    }
  }

  lemma KeptAssigns(u: Updates, lines: seq<string>, key: string)
    requires GoodUpdates(u) && key in u.keys
    ensures Assigned(u, Kept(OutLines(u, lines)), key)
  {
    hide FormatMicro, PlainKey, OutLines;
    var out := OutLines(u, lines);
    var k :| 0 <= k < |u.keys| && u.keys[k] == key;
    OutAssigns(u, lines, k);
    NewLineFixed(u, key);
    NewLineBinds(u, key);
    var i :| 0 <= i < |out| && out[i] == NewLine(u, key);
    DropBlankPrefix(out);
    assert i < |DropBlank(out)| && Kept(out)[i] == out[i];
  }

  lemma {:induction false} NothingMissing(u: Updates, lines: seq<string>, i: nat)
    requires GoodUpdates(u) && i <= |u.keys|
    requires forall k | 0 <= k < |u.keys| :: Assigned(u, lines, u.keys[k])
    ensures Missing(u, lines, i) == []
    decreases |u.keys| - i
  {
    hide PlainKey, FormatMicro;
    if i < |u.keys| {
      NothingMissing(u, lines, i + 1);
    }
  }

  lemma DropBlankAgain(lines: seq<string>)
    ensures DropBlank(DropBlank(lines)) == DropBlank(lines) && DropBlank(Kept(lines)) == DropBlank(lines)
    ensures DropBlank(Kept(lines) + [""]) == DropBlank(lines)
  {
    DropBlankTight(lines);
    assert (Kept(lines) + [""])[..|Kept(lines)|] == Kept(lines);
    assert [""][..0] == [];
  }

  lemma {:induction false} DropBlankTight(lines: seq<string>)
    ensures DropBlank(lines) == [] || DropBlank(lines)[|DropBlank(lines)| - 1] != ""
  {
    if lines != [] && lines[|lines| - 1] == "" {
      DropBlankTight(lines[..|lines| - 1]);
    }
  }

  lemma BlankFixed(u: Updates)
    ensures PatchLine(u, "") == ""
  {
    KeyFromFinds(u, "", 0);
  }

  lemma KeptIsPatched(u: Updates, lines: seq<string>)
    requires GoodUpdates(u)
    ensures PatchLines(u, Kept(OutLines(u, lines))) == Kept(OutLines(u, lines))
  {
    hide PatchLine, GoodUpdates, OutLines;
    var out := OutLines(u, lines);
    var kept := Kept(out);
    DropBlankPrefix(out);
    forall i | 0 <= i < |kept| ensures PatchLine(u, kept[i]) == kept[i] {
      if DropBlank(out) != [] {
        OutIsFixed(u, lines, i);
      } else {
        BlankFixed(u);
      }
    }
  }

  /** A second patch works on the kept lines, and adds only the separator. */
  lemma OutOfKept(u: Updates, lines: seq<string>)
    requires GoodUpdates(u)
    ensures var kept := Kept(OutLines(u, lines)); OutLines(u, kept) == kept + Separator(kept)
  {
    hide PatchLine, PatchLines, PlainKey, Assigned, Kept;
    var kept := Kept(OutLines(u, lines));
    KeptIsPatched(u, lines);
    forall k | 0 <= k < |u.keys| ensures Assigned(u, kept, u.keys[k]) {
      KeptAssigns(u, lines, u.keys[k]);
    }
    NothingMissing(u, kept, 0);
    assert kept + Separator(kept) + [] == kept + Separator(kept);
  }

  lemma RenderedAgain(out: seq<string>)
    requires AllOneLine(IsLineBreak, out)
    ensures Rendered(Kept(out) + Separator(Kept(out))) == Rendered(out)
  {
    DropBlankPrefix(out);
    RStripJoin(out);
    DropBlankAgain(out);
    assert Kept(out) + [] == Kept(out);
    RStripJoin(Kept(out) + Separator(Kept(out)));
  }

  /** Patching twice with the same updates is patching once, whatever the text. */
  lemma PatchIsIdempotent(content: string, u: Updates)
    requires GoodUpdates(u)
    ensures Patch(Patch(content, u), u) == Patch(content, u)
  {
    hide OutLines, Rendered, Kept, SplitLines, GoodUpdates;
    var lines := SplitLines(IsLineBreak, content);
    OutOneLine(u, lines);
    RenderedLines(IsLineBreak, OutLines(u, lines));
    OutOfKept(u, lines);
    RenderedAgain(OutLines(u, lines));
  }

  const FORM_FEED := "A=1\U{c}B=2"

  lemma ReaderKeepsOneLine()
    ensures SplitLines(IsNewline, FORM_FEED) == [FORM_FEED]
  {
    LineLengthAt(IsNewline, FORM_FEED, "");
    assert FORM_FEED + "" == FORM_FEED && FORM_FEED[..7] == FORM_FEED;
  }

  lemma SplitOneLine(line: string)
    requires line != "" && OneLine(IsLineBreak, line)
    ensures SplitLines(IsLineBreak, line) == [line]
  {
    LineLengthAt(IsLineBreak, line, "");
    assert line + "" == line && line[..|line|] == line;
  }

  lemma PatcherSplitsIt()
    ensures SplitLines(IsLineBreak, FORM_FEED) == ["A=1", "B=2"]
  {
    var a, b := "A=1", "B=2";
    assert FORM_FEED == a + "\U{c}B=2";
    LineLengthAt(IsLineBreak, a, "\U{c}B=2");
    SplitOneLine(b);
    assert FORM_FEED[..3] == a && FORM_FEED[4..] == b;
    hide IsLineBreak, LineLength;
    assert SplitLines(IsLineBreak, FORM_FEED) == [FORM_FEED[..3]] + SplitLines(IsLineBreak, FORM_FEED[4..]);
  }

  /** A tight line "k=v" with a one-letter key. */
  lemma LetterBinds(line: string)
    requires |line| >= 3 && line[1] == '=' && line[0] != '=' && line[0] != '#' && Tight(IsSpace, line)
    ensures Binds(line, [line[0]])
  {
    StripTight(IsSpace, line);
    assert line == [line[0]] + line[1..];
    LineLengthAt(IsEquals, [line[0]], line[1..]);
    assert line[..1] == [line[0]];
    StripTight(IsSpace, [line[0]]);
  }

  /** Keys are not always read alike: the patcher also ends lines at form feeds and the like,
      which the reader keeps inside a value. Patching this text with no update at all
      makes the reader see a second key. */
  lemma FormFeedIsSplit()
    ensures "B" !in Read(FORM_FEED) && "B" in Read(Patch(FORM_FEED, Updates([], map[])))
  {
    hide SplitLines, ParseLine, Patch;
    var none := Updates([], map[]);
    var lines := ["A=1", "B=2"];
    ReaderKeepsOneLine();
    PatcherSplitsIt();
    LetterBinds(FORM_FEED);
    LetterBinds("B=2");
    ReadIsLast([FORM_FEED], "B");
    ReadPatched(FORM_FEED, none);
    LastOut(none, lines, "B");
    KeyFromFinds(none, "B=2", 0);
    ReadIsLast(OutLines(none, lines), "B");
    assert Last([FORM_FEED], "B") == None by {
      assert [FORM_FEED][..0] == [];
    }
  }
}
