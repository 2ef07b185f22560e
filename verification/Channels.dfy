/** Merging named context channels line by line (orchestrator.py:3994-4011). */
module Channels {
  import opened PyText

  type Channels = map<string, string>

  // ---------------------------------------------------------------- specification

  function NonBlank(lines: seq<string>): seq<string> {
    if lines == [] then [] else (if Blank(lines[0]) then [] else [lines[0]]) + NonBlank(lines[1..])
  }

  /** The lines of a channel that count. */
  function LinesOf(text: string): seq<string> {
    NonBlank(SplitLines(IsLineBreak, text))
  }

  /** Append the lines that are not there yet. */
  function Extend(acc: seq<string>, lines: seq<string>): seq<string>
    decreases |lines|
  {
    if lines == [] then acc
    else Extend(if lines[0] in acc then acc else acc + [lines[0]], lines[1..])
  }

  function MergeTexts(a: string, b: string): string {
    JoinLines(Extend([], LinesOf(a) + LinesOf(b)))
  }

  function TextAt(c: Channels, key: string): string {
    if key in c then c[key] else ""
  }

  function Merge(a: Channels, b: Channels): Channels {
    map key | key in a.Keys + b.Keys :: MergeTexts(TextAt(a, key), TextAt(b, key))
  }

  // ---------------------------------------------------------------- the method

  method KeepNonBlank(text: string) returns (lines: seq<string>)
    ensures lines == LinesOf(text)
  {
    hide Blank;
    var all := SplitLines(IsLineBreak, text);
    lines := [];
    for i := 0 to |all|
      invariant lines == NonBlank(all[..i])
    {
      assert all[..i + 1] == all[..i] + [all[i]];
      NonBlankSnoc(all[..i], all[i]);
      if !Blank(all[i]) {
        lines := lines + [all[i]];
      }
    }
    assert all[..|all|] == all;
  }

  lemma {:induction false} NonBlankSnoc(lines: seq<string>, last: string)
    ensures NonBlank(lines + [last]) == NonBlank(lines) + if Blank(last) then [] else [last]
  {
    hide Blank;
    if lines == [] {
      assert lines + [last] == [last] && [last][1..] == [];
    } else {
      assert (lines + [last])[1..] == lines[1..] + [last];
      NonBlankSnoc(lines[1..], last);
    }
  }

  method Deduplicate(lines: seq<string>) returns (deduped: seq<string>)
    ensures deduped == Extend([], lines)
  {
    var seen: set<string> := {};
    deduped := [];
    for i := 0 to |lines|
      invariant forall line :: line in seen <==> line in deduped
      invariant Extend(deduped, lines[i..]) == Extend([], lines)
    {
      var line := lines[i];
      assert lines[i..][0] == line && lines[i..][1..] == lines[i + 1..];
      if line !in seen {
        seen := seen + {line};
        deduped := deduped + [line];
      }
    }
  }

  method MergeChannelStrings(base: Channels, extra: Channels) returns (merged: Channels)
    ensures merged == Merge(base, extra)
  {
    hide LinesOf, Extend, JoinLines, TextAt;
    merged := map[];
    var keys := base.Keys + extra.Keys;
    while keys != {}
      invariant keys <= base.Keys + extra.Keys
      invariant merged.Keys == base.Keys + extra.Keys - keys
      invariant forall key | key in merged :: merged[key] == MergeTexts(TextAt(base, key), TextAt(extra, key))
      decreases keys
    {
      var key :| key in keys;
      keys := keys - {key};
      var left := KeepNonBlank(TextAt(base, key));
      var right := KeepNonBlank(TextAt(extra, key));
      var deduped := Deduplicate(left + right);
      merged := merged[key := JoinLines(deduped)];
    }
  }

  // ---------------------------------------------------------------- lines of merged texts

  /** Lines that count: on one line each, and not blank. */
  predicate Solid(lines: seq<string>) {
    AllOneLine(IsLineBreak, lines) && forall i | 0 <= i < |lines| :: !Blank(lines[i])
  }

  lemma {:induction false} NonBlankSolid(lines: seq<string>)
    requires AllOneLine(IsLineBreak, lines)
    ensures Solid(NonBlank(lines))
    ensures forall line :: line in NonBlank(lines) <==> line in lines && !Blank(line)
  {
    if lines != [] {
      NonBlankSolid(lines[1..]);
    }
  }

  lemma {:induction false} NonBlankOfSolid(lines: seq<string>)
    requires Solid(lines)
    ensures NonBlank(lines) == lines
  {
    if lines != [] {
      NonBlankOfSolid(lines[1..]);
    }
  }

  lemma {:induction false} ExtendMembers(acc: seq<string>, lines: seq<string>)
    ensures forall line :: line in Extend(acc, lines) <==> line in acc || line in lines
    ensures acc <= Extend(acc, lines)
    decreases |lines|
  {
    if lines != [] {
      ExtendMembers(if lines[0] in acc then acc else acc + [lines[0]], lines[1..]);
    }
  }

  lemma ExtendSolid(lines: seq<string>)
    requires Solid(lines)
    ensures Solid(Extend([], lines))
  {
    ExtendMembers([], lines);
    var r := Extend([], lines);
    forall i | 0 <= i < |r| ensures OneLine(IsLineBreak, r[i]) && !Blank(r[i]) {
      assert r[i] in lines;
    }
  }

  lemma JoinSolid(lines: seq<string>)
    requires Solid(lines)
    ensures LinesOf(JoinLines(lines)) == lines
  {
    if lines != [] {
      assert lines[|lines| - 1] != "" by {
        assert Blank("");
      }
    }
    SplitJoin(IsLineBreak, lines);
    NonBlankOfSolid(lines);
  }

  /** As text, through split and join: the lines of a merged channel. */
  lemma LinesOfMerged(a: string, b: string)
    ensures LinesOf(MergeTexts(a, b)) == Extend([], LinesOf(a) + LinesOf(b))
  {
    NonBlankSolid(SplitLines(IsLineBreak, a));
    NonBlankSolid(SplitLines(IsLineBreak, b));
    ExtendSolid(LinesOf(a) + LinesOf(b));
    JoinSolid(Extend([], LinesOf(a) + LinesOf(b)));
  }

  // ---------------------------------------------------------------- algebra of merging

  lemma {:induction false} ExtendConcat(acc: seq<string>, x: seq<string>, y: seq<string>)
    ensures Extend(acc, x + y) == Extend(Extend(acc, x), y)
    decreases |x|
  {
    if x == [] {
      assert x + y == y;
    } else {
      assert (x + y)[1..] == x[1..] + y;
      ExtendConcat(if x[0] in acc then acc else acc + [x[0]], x[1..], y);
    }
  }

  /** Removing duplicates first changes nothing. */
  lemma {:induction false} ExtendExtend(acc: seq<string>, s: seq<string>, y: seq<string>)
    ensures Extend(acc, Extend(s, y)) == Extend(Extend(acc, s), y)
    decreases |y|
  {
    if y != [] {
      if y[0] in s {
        ExtendExtend(acc, s, y[1..]);
        ExtendMembers(acc, s);
      } else {
        ExtendExtend(acc, s + [y[0]], y[1..]);
        ExtendConcat(acc, s, [y[0]]);
        assert [y[0]][1..] == [];
      }
    }
  }

  /** What was merged before loses nothing. */
  lemma ExtendAgain(x: seq<string>, y: seq<string>, z: seq<string>)
    ensures Extend([], Extend([], x + y) + z) == Extend([], x + y + z)
  {
    hide Extend;
    ExtendConcat([], Extend([], x + y), z);
    ExtendExtend([], [], x + y);
    ExtendNothing([]);
    ExtendConcat([], x + y, z);
  }

  lemma ExtendAssociative(x: seq<string>, y: seq<string>, z: seq<string>)
    ensures Extend([], Extend([], x + y) + z) == Extend([], x + Extend([], y + z))
  {
    hide Extend;
    ExtendAgain(x, y, z);
    assert (x + y) + z == x + (y + z);
    ExtendConcat([], x, y + z);
    ExtendExtend(Extend([], x), [], y + z);
    ExtendNothing(Extend([], x));
    ExtendConcat([], x, Extend([], y + z));
  }

  lemma ExtendNothing(acc: seq<string>)
    ensures Extend(acc, []) == acc
  {
  }

  /** Merging texts is associative, line ends and repetitions notwithstanding. */
  lemma MergeTextsAssociative(a: string, b: string, c: string)
    ensures MergeTexts(MergeTexts(a, b), c) == MergeTexts(a, MergeTexts(b, c))
  {
    hide LinesOf, JoinLines, Extend;
    LinesOfMerged(a, b);
    LinesOfMerged(b, c);
    ExtendAssociative(LinesOf(a), LinesOf(b), LinesOf(c));
  }

  lemma TextAtMerge(a: Channels, b: Channels, key: string)
    ensures TextAt(Merge(a, b), key) == MergeTexts(TextAt(a, key), TextAt(b, key))
  {
    hide MergeTexts;
    EmptyMerges();
  }

  lemma EmptyMerges()
    ensures MergeTexts("", "") == ""
  {
    assert LinesOf("") + LinesOf("") == [];
  }

  /** Merging channels is associative. */
  lemma MergeAssociative(a: Channels, b: Channels, c: Channels)
    ensures Merge(Merge(a, b), c) == Merge(a, Merge(b, c))
  {
    hide MergeTexts;
    var l, r := Merge(Merge(a, b), c), Merge(a, Merge(b, c));
    forall key | key in l ensures key in r && l[key] == r[key] {
      TextAtMerge(a, b, key);
      TextAtMerge(b, c, key);
      MergeTextsAssociative(TextAt(a, key), TextAt(b, key), TextAt(c, key));
    }
    assert r.Keys <= l.Keys;
  }

  predicate Distinct(lines: seq<string>) {
    forall i, j | 0 <= i < j < |lines| :: lines[i] != lines[j]
  }

  /** A text that merging leaves alone: distinct, non-blank lines joined by newlines. */
  predicate Normal(text: string) {
    Distinct(LinesOf(text)) && text == JoinLines(LinesOf(text))
  }

  lemma {:induction false} ExtendDistinct(acc: seq<string>, lines: seq<string>)
    requires Distinct(acc)
    ensures Distinct(Extend(acc, lines))
    decreases |lines|
  {
    if lines != [] {
      ExtendDistinct(if lines[0] in acc then acc else acc + [lines[0]], lines[1..]);
    }
  }

  lemma {:induction false} ExtendNew(acc: seq<string>, lines: seq<string>)
    requires Distinct(acc + lines)
    ensures Extend(acc, lines) == acc + lines
    decreases |lines|
  {
    if lines == [] {
      assert acc + lines == acc;
    } else {
      forall i | 0 <= i < |acc| ensures acc[i] != lines[0] {
        assert (acc + lines)[i] == acc[i] && (acc + lines)[|acc|] == lines[0];
      }
      assert acc + lines == (acc + [lines[0]]) + lines[1..];
      ExtendNew(acc + [lines[0]], lines[1..]);
    }
  }

  /** A channel is unchanged by being merged with itself exactly when it is normal. */
  lemma MergeTextsIdempotent(a: string)
    ensures MergeTexts(a, a) == a <==> Normal(a)
  {
    hide LinesOf, JoinLines, Extend, Distinct;
    var x := LinesOf(a);
    var d := Extend([], x);
    ExtendConcat([], x, x);
    ExtendDistinctLines(x);
    ExtendMembers([], x);
    ExtendKnown(d, x);
    if MergeTexts(a, a) == a {
      LinesOfMerged(a, a);
    } else if Distinct(x) {
      assert [] + x == x;
      ExtendNew([], x);
    }
  }

  lemma ExtendDistinctLines(lines: seq<string>)
    ensures Distinct(Extend([], lines))
  {
    ExtendDistinct([], lines);
  }

  lemma {:induction false} ExtendKnown(acc: seq<string>, lines: seq<string>)
    requires forall line | line in lines :: line in acc
    ensures Extend(acc, lines) == acc
    decreases |lines|
  {
    if lines != [] {
      ExtendKnown(acc, lines[1..]);
    }
  }

  lemma MergeIdempotent(a: Channels)
    ensures Merge(a, a) == a <==> forall key | key in a :: Normal(a[key])
  {
    hide MergeTexts, Normal;
    forall key | key in a ensures Merge(a, a)[key] == a[key] <==> Normal(a[key]) {
      MergeTextsIdempotent(a[key]);
    }
    if forall key | key in a :: Normal(a[key]) {
      assert Merge(a, a) == a;
    }
  }

  /** Every merged channel is normal, so merging the result with itself changes nothing. */
  lemma MergedIsNormal(a: Channels, b: Channels)
    ensures forall key | key in Merge(a, b) :: Normal(Merge(a, b)[key])
  {
    forall key | key in Merge(a, b) ensures Normal(Merge(a, b)[key]) {
      LinesOfMerged(TextAt(a, key), TextAt(b, key));
      ExtendDistinct([], LinesOf(TextAt(a, key)) + LinesOf(TextAt(b, key)));
    }
  }

  // ---------------------------------------------------------------- order of first occurrence

  /** Position of the first occurrence of a line, or the length if there is none. */
  function FirstAt(lines: seq<string>, line: string): nat {
    if lines == [] || lines[0] == line then 0 else 1 + FirstAt(lines[1..], line)
  }

  lemma {:induction false} FirstAtSnoc(lines: seq<string>, last: string, line: string)
    ensures FirstAt(lines, line) <= |lines| && (FirstAt(lines, line) < |lines| <==> line in lines)
    ensures line in lines ==> FirstAt(lines + [last], line) == FirstAt(lines, line)
    ensures line !in lines ==> FirstAt(lines + [last], line) >= |lines|
  {
    if lines != [] {
      assert (lines + [last])[1..] == lines[1..] + [last];
      FirstAtSnoc(lines[1..], last, line);
    }
  }

  /** The kept lines stand in the order of their first occurrences. */
  lemma {:induction false} ExtendInOrder(lines: seq<string>, i: nat, j: nat)
    requires i < j < |Extend([], lines)|
    ensures FirstAt(lines, Extend([], lines)[i]) < FirstAt(lines, Extend([], lines)[j])
    decreases |lines|
  {
    var n := |lines| - 1;
    var init, last := lines[..n], lines[n];
    assert lines == init + [last];
    ExtendConcat([], init, [last]);
    ExtendMembers([], init);
    assert [last][1..] == [];
    var d, e := Extend([], init), Extend([], lines);
    FirstAtSnoc(init, last, e[i]);
    FirstAtSnoc(init, last, e[j]);
    assert e[i] in init;
    if j < |d| {
      ExtendInOrder(init, i, j);
      assert e[j] in init;
    }
  }

  /** What a merged channel holds: the non-blank lines of both inputs, each once, in the order
      of their first occurrence. */
  lemma MergedLines(a: string, b: string)
    ensures var all, merged := LinesOf(a) + LinesOf(b), LinesOf(MergeTexts(a, b));
            && (forall line :: line in merged <==> line in all)
            && (forall line :: line in all <==>
                 (!Blank(line) && (line in SplitLines(IsLineBreak, a) || line in SplitLines(IsLineBreak, b))))
            && (forall i, j | 0 <= i < j < |merged| :: FirstAt(all, merged[i]) < FirstAt(all, merged[j]))
  {
    LinesOfMerged(a, b);
    var all := LinesOf(a) + LinesOf(b);
    ExtendMembers([], all);
    NonBlankSolid(SplitLines(IsLineBreak, a));
    NonBlankSolid(SplitLines(IsLineBreak, b));
    forall i, j | 0 <= i < j < |Extend([], all)|
      ensures FirstAt(all, Extend([], all)[i]) < FirstAt(all, Extend([], all)[j])
    {
      ExtendInOrder(all, i, j);
    }
  }
}
