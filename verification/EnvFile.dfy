/** Patching an env file (scripts/apply_reasoning_thresholds_from_audit.py:54-78) against the
    parser that defines what such a file means (server_management_gui.py:139-150). */
module EnvFile {
  import opened Basics
  import opened PyText

  // ---------------------------------------------------------------- the reader

  predicate IsDoubleQuote(c: char) { c == '"' }
  predicate IsSingleQuote(c: char) { c == '\'' }

  predicate IsEquals(c: char) { c == '=' }

  datatype Binding = Binding(key: string, value: string)

  function Unquoted(value: string): string {
    StripBy(IsSingleQuote, StripBy(IsDoubleQuote, Strip(value)))
  }

  /** What one line of an env file binds, if anything. */
  function ParseLine(raw: string): Option<Binding> {
    var line := Strip(raw);
    var at := LineLength(IsEquals, line);
    if line == "" || line[0] == '#' || at == |line| then None
    else
      var key := Strip(line[..at]);
      if key == "" then None else Some(Binding(key, Unquoted(line[at + 1..])))
  }

  /** Later lines override earlier ones. */
  function ReadLines(lines: seq<string>): map<string, string> {
    if lines == [] then map[]
    else
      var last := |lines| - 1;
      var before := ReadLines(lines[..last]);
      var b := ParseLine(lines[last]);
      if b.None? then before else before[b.value.key := b.value.value]
  }

  function Read(content: string): map<string, string> {
    ReadLines(SplitLines(IsNewline, content))
  }

  method ReadEnvFile(content: string) returns (values: map<string, string>)
    ensures values == Read(content)
  {
    values := map[];
    var lines := SplitLines(IsNewline, content);
    for i := 0 to |lines|
      invariant values == ReadLines(lines[..i])
    {
      assert lines[..i + 1][..i] == lines[..i];
      var line := Strip(lines[i]);
      var at := LineLength(IsEquals, line);
      if line == "" || line[0] == '#' || at == |line| {
        continue;
      }
      var key, value := Strip(line[..at]), Unquoted(line[at + 1..]);
      if key != "" {
        values := values[key := value];
      }
    }
    assert lines[..|lines|] == lines;
  }

  // ---------------------------------------------------------------- the patcher

  /** `f"{v:.6f}"` for a value given in micro-units. */
  function FormatMicro(v: int): string {
    var a := if v < 0 then -v else v;
    (if v < 0 then "-" else "") + Digits(a / 1_000_000) + "." + SixDigits(a % 1_000_000)
  }

  function Digit(d: nat): char
    requires d < 10
  {
    ('0' as int + d) as char
  }

  function Digits(n: nat): string {
    if n < 10 then [Digit(n)] else Digits(n / 10) + [Digit(n % 10)]
  }

  function SixDigits(n: nat): string {
    [Digit(n / 100_000 % 10), Digit(n / 10_000 % 10), Digit(n / 1_000 % 10),
     Digit(n / 100 % 10), Digit(n / 10 % 10), Digit(n % 10)]
  }

  /** New values by key, in the order the dictionary lists them. */
  datatype Updates = Updates(keys: seq<string>, values: map<string, int>)

  /** Keys that can stand before '=' on a line of their own. */
  predicate PlainKey(key: string) {
    key != "" && key[0] != '#' && Tight(IsSpace, key) && '=' !in key && OneLine(IsLineBreak, key)
  }

  predicate GoodUpdates(u: Updates) {
    && (forall i | 0 <= i < |u.keys| :: PlainKey(u.keys[i]) && u.keys[i] in u.values)
    && (forall i, j | 0 <= i < j < |u.keys| :: u.keys[i] != u.keys[j])
    && (forall key | key in u.values :: key in u.keys)
  }

  predicate StartsWithKey(line: string, key: string) {
    key + "=" <= line
  }

  function NewLine(u: Updates, key: string): string
    requires key in u.values
  {
    key + "=" + FormatMicro(u.values[key])
  }

  /** The first key, from position `i` on, whose assignment this line is. */
  function KeyFrom(u: Updates, line: string, i: nat): Option<string>
    requires i <= |u.keys|
    decreases |u.keys| - i
  {
    if i == |u.keys| then None
    else if StartsWithKey(line, u.keys[i]) then Some(u.keys[i])
    else KeyFrom(u, line, i + 1)
  }

  function KeyOf(u: Updates, line: string): (r: Option<string>)
  {
    KeyFrom(u, line, 0)
  }

  function PatchLine(u: Updates, line: string): string {
    var key := KeyOf(u, line);
    if key.Some? && key.value in u.values then NewLine(u, key.value) else line
  }

  function PatchLines(u: Updates, lines: seq<string>): seq<string> {
    seq(|lines|, i requires 0 <= i < |lines| => PatchLine(u, lines[i]))
  }

  /** A line of the file already assigns this key. */
  predicate Assigned(u: Updates, lines: seq<string>, key: string) {
    exists i | 0 <= i < |lines| :: KeyOf(u, lines[i]) == Some(key)
  }

  /** Lines added at the end for the keys, from position `i` on, that no line assigns. */
  function Missing(u: Updates, lines: seq<string>, i: nat): seq<string>
    requires i <= |u.keys| && GoodUpdates(u)
    decreases |u.keys| - i
  {
    if i == |u.keys| then []
    else (if Assigned(u, lines, u.keys[i]) then [] else [NewLine(u, u.keys[i])]) + Missing(u, lines, i + 1)
  }

  /** The separating blank line, when the text does not end with one. */
  function Separator(out: seq<string>): seq<string> {
    if out != [] && out[|out| - 1] != "" then [""] else []
  }

  function OutLines(u: Updates, lines: seq<string>): seq<string>
    requires GoodUpdates(u)
  {
    var out := PatchLines(u, lines);
    out + Separator(out) + Missing(u, lines, 0)
  }

  /** `"\n".join(out).rstrip("\n") + "\n"` */
  function Rendered(out: seq<string>): string {
    RStrip(IsLf, JoinLines(out)) + "\n"
  }

  predicate IsLf(c: char) { c == '\n' }

  function Patch(content: string, u: Updates): string
    requires GoodUpdates(u)
  {
    Rendered(OutLines(u, SplitLines(IsLineBreak, content)))
  }

  /** The inner loop over the keys: the line to keep or put in its place. */
  method PatchOneLine(line: string, u: Updates) returns (text: string, replaced: Option<string>)
    requires GoodUpdates(u)
    ensures text == PatchLine(u, line) && replaced == KeyOf(u, line)
  {
    for k := 0 to |u.keys|
      invariant KeyOf(u, line) == KeyFrom(u, line, k)
    {
      var key := u.keys[k];
      if StartsWithKey(line, key) {
        return key + "=" + FormatMicro(u.values[key]), Some(key);
      }
    }
    return line, None;
  }

  method AppendMissing(out: seq<string>, seen: set<string>, u: Updates, ghost lines: seq<string>)
    returns (r: seq<string>)
    requires GoodUpdates(u) && forall key :: key in seen <==> Assigned(u, lines, key)
    ensures r == out + Missing(u, lines, 0)
  {
    hide FormatMicro, PlainKey, Assigned;
    r := out;
    for k := 0 to |u.keys|
      invariant r + Missing(u, lines, k) == out + Missing(u, lines, 0)
    {
      var key := u.keys[k];
      if key !in seen {
        ghost var rest := Missing(u, lines, k + 1);
        assert Missing(u, lines, k) == [NewLine(u, key)] + rest;
        assert r + ([NewLine(u, key)] + rest) == (r + [NewLine(u, key)]) + rest;
        r := r + [key + "=" + FormatMicro(u.values[key])];
      } else {
        assert Missing(u, lines, k) == [] + Missing(u, lines, k + 1);
      }
    }
    assert r + [] == r;
  }

  method PatchEnvContent(content: string, u: Updates) returns (patched: string)
    requires GoodUpdates(u)
    ensures patched == Patch(content, u)
  {
    var lines := SplitLines(IsLineBreak, content);
    hide FormatMicro, PlainKey, KeyOf;
    var seen: set<string> := {};
    var out: seq<string> := [];
    for n := 0 to |lines|
      invariant out == PatchLines(u, lines[..n])
      invariant forall key :: key in seen <==> Assigned(u, lines[..n], key)
    {
      var text, replaced := PatchOneLine(lines[n], u);
      AssignedSnoc(u, lines, n);
      assert PatchLines(u, lines[..n + 1]) == PatchLines(u, lines[..n]) + [PatchLine(u, lines[n])];
      out := out + [text];
      if replaced.Some? {
        seen := seen + {replaced.value};
      }
    }
    assert lines[..|lines|] == lines;
    ghost var kept := out;
    if out != [] && out[|out| - 1] != "" {
      out := out + [""];
    }
    assert out == kept + Separator(kept);
    out := AppendMissing(out, seen, u, lines);
    patched := RStrip(IsLf, JoinLines(out)) + "\n";
  }

  lemma AssignedSnoc(u: Updates, lines: seq<string>, n: nat)
    requires n < |lines|
    ensures forall key ::
              Assigned(u, lines[..n + 1], key) <==> Assigned(u, lines[..n], key) || KeyOf(u, lines[n]) == Some(key)
  {
    forall key
      ensures Assigned(u, lines[..n + 1], key) <==> Assigned(u, lines[..n], key) || KeyOf(u, lines[n]) == Some(key)
    {
      if Assigned(u, lines[..n + 1], key) {
        var i :| 0 <= i < n + 1 && KeyOf(u, lines[..n + 1][i]) == Some(key);
        assert i < n ==> lines[..n][i] == lines[..n + 1][i];
      }
      if Assigned(u, lines[..n], key) {
        var i :| 0 <= i < n && KeyOf(u, lines[..n][i]) == Some(key);
        assert lines[..n + 1][i] == lines[..n][i];
      }
      if KeyOf(u, lines[n]) == Some(key) {
        assert lines[..n + 1][n] == lines[n];
      }
    }
  }
}
