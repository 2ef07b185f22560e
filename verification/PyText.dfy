/** The parts of Python's `str` that the modelled code relies on: trimming, line splitting
    and joining, as functions on `string`. */
module PyText {

  /** `str.isspace` on one character. */
  predicate IsSpace(c: char) {
    || '\t' <= c <= '\r'
    || '\U{1c}' <= c <= ' '
    || c == '\U{85}' || c == '\U{a0}' || c == '\U{1680}'
    || '\U{2000}' <= c <= '\U{200a}'
    || c == '\U{2028}' || c == '\U{2029}' || c == '\U{202f}' || c == '\U{205f}' || c == '\U{3000}'
  }

  /** The characters at which `str.splitlines` ends a line (with "\r\n" counting once). */
  predicate IsLineBreak(c: char) {
    || '\n' <= c <= '\r'
    || '\U{1c}' <= c <= '\U{1e}'
    || c == '\U{85}' || c == '\U{2028}' || c == '\U{2029}'
  }

  /** The characters at which `bytes.splitlines`, and iteration over a text file, end a line. */
  predicate IsNewline(c: char) {
    c == '\n' || c == '\r'
  }

  // ---------------------------------------------------------------- trimming

  function LStrip(drop: char -> bool, s: string): string {
    if s == [] || !drop(s[0]) then s else LStrip(drop, s[1..])
  }

  function RStrip(drop: char -> bool, s: string): string {
    if s == [] || !drop(s[|s| - 1]) then s else RStrip(drop, s[..|s| - 1])
  }

  lemma {:induction false} LStripCut(drop: char -> bool, s: string)
    ensures var r := LStrip(drop, s);
            && |r| <= |s| && r == s[|s| - |r|..]
            && (r == [] || !drop(r[0]))
            && forall i | 0 <= i < |s| - |r| :: drop(s[i])
  {
    if s != [] && drop(s[0]) {
      LStripCut(drop, s[1..]);
      var r := LStrip(drop, s[1..]);
      forall i | 0 <= i < |s| - |r| ensures drop(s[i]) {
        if i > 0 {
          assert s[i] == s[1..][i - 1];
        }
      }
    }
  }

  lemma {:induction false} RStripCut(drop: char -> bool, s: string)
    ensures var r := RStrip(drop, s);
            && |r| <= |s| && r == s[..|r|]
            && (r == [] || !drop(r[|r| - 1]))
            && forall i | |r| <= i < |s| :: drop(s[i])
  {
    if s != [] && drop(s[|s| - 1]) {
      RStripCut(drop, s[..|s| - 1]);
    }
  }

  /** `s.strip()` when `drop` is `IsSpace`, `s.strip(chars)` for another set of characters. */
  function StripBy(drop: char -> bool, s: string): string {
    RStrip(drop, LStrip(drop, s))
  }

  function Strip(s: string): string {
    StripBy(IsSpace, s)
  }

  predicate Blank(s: string) {
    Strip(s) == []
  }

  /** No character to be dropped stands at either end. */
  predicate Tight(drop: char -> bool, s: string) {
    s == [] || (!drop(s[0]) && !drop(s[|s| - 1]))
  }

  lemma StripTight(drop: char -> bool, s: string)
    requires Tight(drop, s)
    ensures StripBy(drop, s) == s
  {
  }

  lemma StripIsTight(drop: char -> bool, s: string)
    ensures Tight(drop, StripBy(drop, s))
    ensures StripBy(drop, s) == [] <==> forall i | 0 <= i < |s| :: drop(s[i])
  {
    var l := LStrip(drop, s);
    LStripCut(drop, s);
    RStripCut(drop, l);
    if forall i | 0 <= i < |s| :: drop(s[i]) {
      assert l == [];
    } else {
      var i :| 0 <= i < |s| && !drop(s[i]);
      assert i >= |s| - |l|;
      assert l[i - (|s| - |l|)] == s[i];
    }
  }

  lemma StripIdempotent(s: string)
    ensures Strip(Strip(s)) == Strip(s)
  {
    StripIsTight(IsSpace, s);
    StripTight(IsSpace, Strip(s));
  }

  // ---------------------------------------------------------------- lines

  /** No character of `s` ends a line. */
  predicate OneLine(isBreak: char -> bool, s: string) {
    forall i | 0 <= i < |s| :: !isBreak(s[i])
  }

  predicate AllOneLine(isBreak: char -> bool, lines: seq<string>) {
    forall k | 0 <= k < |lines| :: OneLine(isBreak, lines[k])
  }

  /** Length of the first line of `s`. */
  function LineLength(isBreak: char -> bool, s: string): (n: nat)
    ensures n <= |s|
    ensures OneLine(isBreak, s[..n])
    ensures n < |s| ==> isBreak(s[n])
  {
    if s == [] || isBreak(s[0]) then 0 else
    var n := 1 + LineLength(isBreak, s[1..]);
    assert s[..n] == [s[0]] + s[1..][..n - 1];
    n
  }

  /** Length of the line end found at position `n`. */
  function BreakLength(s: string, n: nat): (k: nat)
    requires n < |s|
    ensures 1 <= k && n + k <= |s|
  {
    if s[n] == '\r' && n + 1 < |s| && s[n + 1] == '\n' then 2 else 1
  }

  function SplitLines(isBreak: char -> bool, s: string): (lines: seq<string>)
    ensures AllOneLine(isBreak, lines)
    decreases |s|
  {
    if s == [] then [] else
    var n := LineLength(isBreak, s);
    if n == |s| then [s[..n]] else [s[..n]] + SplitLines(isBreak, s[n + BreakLength(s, n)..])
  }

  /** Every line followed by a newline. */
  function Unlines(lines: seq<string>): string {
    if lines == [] then "" else lines[0] + "\n" + Unlines(lines[1..])
  }

  /** `"\n".join(lines)` */
  function JoinLines(lines: seq<string>): string {
    if lines == [] then ""
    else if |lines| == 1 then lines[0]
    else lines[0] + "\n" + JoinLines(lines[1..])
  }

  lemma {:induction false} LineLengthAt(isBreak: char -> bool, line: string, rest: string)
    requires OneLine(isBreak, line)
    requires rest == [] || isBreak(rest[0])
    ensures LineLength(isBreak, line + rest) == |line|
  {
    if line == [] {
      assert line + rest == rest;
    } else {
      assert (line + rest)[1..] == line[1..] + rest;
      LineLengthAt(isBreak, line[1..], rest);
    }
  }

  /** Taking one "\n"-ended line off the front of a text. */
  lemma SplitFirst(isBreak: char -> bool, line: string, rest: string)
    requires isBreak('\n') && OneLine(isBreak, line)
    ensures SplitLines(isBreak, line + "\n" + rest) == [line] + SplitLines(isBreak, rest)
  {
    var s := line + "\n" + rest;
    assert s == line + ("\n" + rest);
    LineLengthAt(isBreak, line, "\n" + rest);
    assert s[..|line|] == line && s[|line|] == '\n' && s[|line| + 1..] == rest;
  }

  lemma {:induction false} SplitUnlines(isBreak: char -> bool, lines: seq<string>)
    requires isBreak('\n') && AllOneLine(isBreak, lines)
    ensures SplitLines(isBreak, Unlines(lines)) == lines
  {
    if lines != [] {
      SplitFirst(isBreak, lines[0], Unlines(lines[1..]));
      SplitUnlines(isBreak, lines[1..]);
    }
  }

  /** A joined list of lines splits into the same list when its last line is not empty. */
  lemma {:induction false} SplitJoin(isBreak: char -> bool, lines: seq<string>)
    requires isBreak('\n') && AllOneLine(isBreak, lines)
    requires lines != [] ==> lines[|lines| - 1] != ""
    ensures SplitLines(isBreak, JoinLines(lines)) == lines
  {
    if |lines| == 1 {
      LineLengthAt(isBreak, lines[0], "");
      assert lines[0] + "" == lines[0] && lines[0][..|lines[0]|] == lines[0];
    } else if |lines| > 1 {
      SplitFirst(isBreak, lines[0], JoinLines(lines[1..]));
      SplitJoin(isBreak, lines[1..]);
    }
  }

  lemma {:induction false} UnlinesConcat(a: seq<string>, b: seq<string>)
    ensures Unlines(a + b) == Unlines(a) + Unlines(b)
  {
    if a == [] {
      assert a + b == b;
    } else {
      assert (a + b)[1..] == a[1..] + b;
      UnlinesConcat(a[1..], b);
    }
  }
}
