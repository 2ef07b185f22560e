/** Workspace paths and the target of a reversible overwrite (app.py:429-447). */
module WorkspacePaths {
  import opened Basics
  import opened PyText
  import opened Authorization

  /** A POSIX path as `PurePosixPath` reads it: its root ("", "/" or "//") and its parts. */
  datatype PosixPath = PosixPath(root: string, parts: seq<string>)

  predicate IsSlash(c: char) { c == '/' }

  function PathParts(s: string): seq<string>
    decreases |s|
  {
    var n := LineLength(IsSlash, s);
    var head := s[..n];
    var rest := if n == |s| then [] else PathParts(s[n + 1..]);
    if head == "" || head == "." then rest else [head] + rest
  }

  function ParsePath(s: string): PosixPath {
    var root :=
      if |s| == 0 || s[0] != '/' then ""
      else if |s| >= 2 && s[1] == '/' && (|s| == 2 || s[2] != '/') then "//"
      else "/";
    PosixPath(root, PathParts(s))
  }

  function JoinParts(parts: seq<string>): string {
    if parts == [] then "" else if |parts| == 1 then parts[0] else parts[0] + "/" + JoinParts(parts[1..])
  }

  function ShowPath(p: PosixPath): string {
    if p.root == "" && p.parts == [] then "." else p.root + JoinParts(p.parts)
  }

  function LowerAscii(s: string): string {
    seq(|s|, i requires 0 <= i < |s| => if 'A' <= s[i] <= 'Z' then (s[i] as int + 32) as char else s[i])
  }

  /** The file whose overwrite can be compensated, if the parameters describe one. */
  function ReversibleTarget(cfg: Config, m: Params): Option<string> {
    if LowerAscii(Strip(TextOf(cfg, Get(m, Command)))) != "tee" then None
    else if LowerAscii(Strip(TextOf(cfg, Get(m, WriteMode)))) == "append" then None
    else
      var target := ParsePath(Strip(TextOf(cfg, Get(m, TargetPath))));
      var root := ParsePath(cfg.workspaceRoot);
      if target.root != root.root || !(root.parts <= target.parts) || target == root then None
      else if TextOf(cfg, Get(m, StorageScope)) != "wsl_workspace" then None
      else Some(ShowPath(target))
  }

  // ---------------------------------------------------------------- normalized paths

  /** A part of a path: not empty, not ".", without slashes. */
  predicate IsPart(part: string) {
    part != "" && part != "." && OneLine(IsSlash, part)
  }

  lemma {:induction false} PartsAreParts(s: string)
    ensures forall k | 0 <= k < |PathParts(s)| :: IsPart(PathParts(s)[k])
    decreases |s|
  {
    var n := LineLength(IsSlash, s);
    if n < |s| {
      PartsAreParts(s[n + 1..]);
    }
  }

  lemma {:induction false} PartsOfJoined(parts: seq<string>)
    requires forall k | 0 <= k < |parts| :: IsPart(parts[k])
    ensures PathParts(JoinParts(parts)) == parts
    ensures parts != [] ==> JoinParts(parts) != "" && JoinParts(parts)[0] != '/'
  {
    if |parts| == 1 {
      LineLengthAt(IsSlash, parts[0], "");
      assert parts[0] + "" == parts[0] && parts[0][..|parts[0]|] == parts[0];
    } else if |parts| > 1 {
      var s, rest := JoinParts(parts), JoinParts(parts[1..]);
      assert s == parts[0] + ("/" + rest);
      LineLengthAt(IsSlash, parts[0], "/" + rest);
      assert s[..|parts[0]|] == parts[0] && s[|parts[0]| + 1..] == rest;
      PartsOfJoined(parts[1..]);
    }
  }

  lemma SlashAdds(s: string)
    ensures PathParts("/" + s) == PathParts(s)
  {
    assert ("/" + s)[1..] == s && ("/" + s)[..0] == "";
  }

  lemma RootKinds(s: string)
    ensures ParsePath(s).root == "" || ParsePath(s).root == "/" || ParsePath(s).root == "//"
  {
  }

  /** Showing a parsed path and parsing it again changes nothing. */
  lemma ParseShown(s: string)
    ensures ParsePath(ShowPath(ParsePath(s))) == ParsePath(s)
  {
    var p := ParsePath(s);
    var t := ShowPath(p);
    var joined := JoinParts(p.parts);
    PartsAreParts(s);
    PartsOfJoined(p.parts);
    RootKinds(s);
    if p.root == "" && p.parts == [] {
      LineLengthAt(IsSlash, ".", "");
      assert "." + "" == "." && "."[..1] == ".";
    } else if p.root == "" {
      assert t == joined;
    } else if p.root == "/" {
      SlashAdds(joined);
      assert t == "/" + joined;
    } else {
      SlashAdds(joined);
      SlashAdds("/" + joined);
      assert t == "/" + ("/" + joined);
      assert t[2..] == joined;
    }
  }

  /** A target that can be compensated is written in normal form, and its parts extend those of
      the workspace root; ".." counts as a part like any other. */
  lemma TargetIsBelowRoot(cfg: Config, m: Params)
    requires ReversibleTarget(cfg, m).Some?
    ensures var target, root := ReversibleTarget(cfg, m).value, ParsePath(cfg.workspaceRoot);
            && ShowPath(ParsePath(target)) == target
            && ParsePath(target).root == root.root
            && root.parts < ParsePath(target).parts
            && ParsePath(target) == ParsePath(Strip(TextOf(cfg, Get(m, TargetPath))))
  {
    hide ParsePath, ShowPath, LowerAscii, Strip, TextOf;
    ParseShown(Strip(TextOf(cfg, Get(m, TargetPath))));
  }

  /** Two ASCII letters that differ in case only, or the same character. */
  predicate SameLetter(c: char, d: char) {
    || c == d
    || ('A' <= c <= 'Z' && d as int - 'a' as int == c as int - 'A' as int)
    || ('a' <= c <= 'z' && d as int - 'A' as int == c as int - 'a' as int)
  }

  predicate SameLetters(s: string, t: string) {
    |s| == |t| && forall k | 0 <= k < |s| :: SameLetter(s[k], t[k])
  }

  lemma LowerSays(s: string, word: string)
    requires forall k | 0 <= k < |word| :: 'a' <= word[k] <= 'z'
    ensures LowerAscii(s) == word <==> SameLetters(s, word)
  {
    if SameLetters(s, word) {
      forall k | 0 <= k < |s| ensures LowerAscii(s)[k] == word[k] {
        assert SameLetter(s[k], word[k]);
      }
    } else if |s| == |word| {
      var k :| 0 <= k < |s| && !SameLetter(s[k], word[k]);
      assert LowerAscii(s)[k] != word[k];
    }
  }

  /** There is a target exactly for a `tee`, in letters of either case, that is not said to
      append, in the scope of the workspace, to a file some names below the root. */
  lemma ReversibleExactly(cfg: Config, m: Params)
    ensures var target, root := ParsePath(Strip(TextOf(cfg, Get(m, TargetPath)))), ParsePath(cfg.workspaceRoot);
            ReversibleTarget(cfg, m).Some?
            <==> && SameLetters(Strip(TextOf(cfg, Get(m, Command))), "tee")
                 && !SameLetters(Strip(TextOf(cfg, Get(m, WriteMode))), "append")
                 && TextOf(cfg, Get(m, StorageScope)) == "wsl_workspace"
                 && target.root == root.root && exists names | names != [] :: target.parts == root.parts + names
  {
    hide ParsePath, LowerAscii, SameLetters, Strip;
    LowerSays(Strip(TextOf(cfg, Get(m, Command))), "tee");
    LowerSays(Strip(TextOf(cfg, Get(m, WriteMode))), "append");
    var target, root := ParsePath(Strip(TextOf(cfg, Get(m, TargetPath)))), ParsePath(cfg.workspaceRoot);
    if root.parts < target.parts {
      var names := target.parts[|root.parts|..];
      assert names != [] && target.parts == root.parts + names;
    }
  }

  // ---------------------------------------------------------------- "..", resolved

  const UP := ".."

  /** What parts lead to, each ".." going back one. */
  function Resolved(parts: seq<string>): seq<string> {
    if parts == [] then [] else
    var last := |parts| - 1;
    var before := Resolved(parts[..last]);
    if parts[last] != UP then before + [parts[last]] else if before == [] then [] else before[..|before| - 1]
  }

  /** Names less ".."s. */
  function Height(parts: seq<string>): int {
    if parts == [] then 0 else
    Height(parts[..|parts| - 1]) + if parts[|parts| - 1] == UP then -1 else 1
  }

  /** Along the way, no directory outside the root is entered. */
  predicate StaysBelow(root: seq<string>, rest: seq<string>) {
    forall k | 0 <= k <= |rest| :: root <= Resolved(root + rest[..k])
  }

  predicate NeverNegative(rest: seq<string>) {
    forall k | 0 <= k <= |rest| :: Height(rest[..k]) >= 0
  }

  lemma {:induction false} ResolvedRoot(root: seq<string>)
    requires UP !in root
    ensures Resolved(root) == root
  {
    if root != [] {
      ResolvedRoot(root[..|root| - 1]);
    }
  }

  lemma ResolvedNext(root: seq<string>, rest: seq<string>, k: nat)
    requires k < |rest|
    ensures var before := Resolved(root + rest[..k]);
            Resolved(root + rest[..k + 1])
            == if rest[k] != UP then before + [rest[k]] else if before == [] then [] else before[..|before| - 1]
    ensures Height(rest[..k + 1]) == Height(rest[..k]) + if rest[k] == UP then -1 else 1
  {
    assert (root + rest[..k + 1])[..|root| + k] == root + rest[..k];
    assert rest[..k + 1][..k] == rest[..k];
  }

  /** While the height is not negative, it is how far below the root the path stands. */
  lemma {:induction false} HeightIsDepth(root: seq<string>, rest: seq<string>, k: nat)
    requires UP !in root && k <= |rest| && forall n | 0 <= n <= k :: Height(rest[..n]) >= 0
    ensures var r := Resolved(root + rest[..k]); root <= r && |r| == |root| + Height(rest[..k])
    decreases k
  {
    if k == 0 {
      assert root + rest[..0] == root;
      ResolvedRoot(root);
    } else {
      HeightIsDepth(root, rest, k - 1);
      ResolvedNext(root, rest, k - 1);
    }
  }

  /** The first ".." too many leaves the root. */
  lemma {:induction false} FirstBelow(rest: seq<string>, k: nat) returns (first: nat)
    requires k <= |rest| && Height(rest[..k]) < 0
    ensures first < k && Height(rest[..first + 1]) < 0 && forall n | 0 <= n <= first :: Height(rest[..n]) >= 0
    decreases k
  {
    if n :| 0 <= n < k && Height(rest[..n]) < 0 {
      first := FirstBelow(rest, n);
    } else {
      first := k - 1;
    }
  }

  /** A path below a root without ".." stays below it exactly when nowhere along the remaining
      parts there were more ".."s than names. */
  lemma StaysBelowExactly(root: seq<string>, rest: seq<string>)
    requires root != [] && UP !in root
    ensures StaysBelow(root, rest) <==> NeverNegative(rest)
  {
    if NeverNegative(rest) {
      forall k | 0 <= k <= |rest| ensures root <= Resolved(root + rest[..k]) {
        HeightIsDepth(root, rest, k);
      }
    } else {
      var k :| 0 <= k <= |rest| && Height(rest[..k]) < 0;
      var first := FirstBelow(rest, k);
      HeightIsDepth(root, rest, first);
      ResolvedNext(root, rest, first);
      assert |Resolved(root + rest[..first + 1])| < |root|;
    }
  }

  /** A target that can be compensated stays below the workspace root exactly when the parts
      after those of the root never hold more ".."s than names. */
  lemma TargetStaysBelowExactly(cfg: Config, m: Params)
    requires ReversibleTarget(cfg, m).Some?
    requires ParsePath(cfg.workspaceRoot).parts != [] && UP !in ParsePath(cfg.workspaceRoot).parts
    ensures var target, root := ParsePath(ReversibleTarget(cfg, m).value).parts, ParsePath(cfg.workspaceRoot).parts;
            && root <= target
            && (StaysBelow(root, target[|root|..]) <==> NeverNegative(target[|root|..]))
  {
    hide ParsePath, ReversibleTarget, StaysBelow, NeverNegative;
    TargetIsBelowRoot(cfg, m);
    var target, root := ParsePath(ReversibleTarget(cfg, m).value).parts, ParsePath(cfg.workspaceRoot).parts;
    StaysBelowExactly(root, target[|root|..]);
  }

  /** What remaining parts come to: how many levels they go up for good, and the names they then
      go down. */
  datatype Net = Net(up: nat, down: seq<string>)

  function NetOf(rest: seq<string>): Net {
    if rest == [] then Net(0, []) else
    var last := |rest| - 1;
    var Net(up, down) := NetOf(rest[..last]);
    if rest[last] != UP then Net(up, down + [rest[last]])
    else if down == [] then Net(up + 1, []) else Net(up, down[..|down| - 1])
  }

  /** The levels of the root that are left after going up. */
  function LeftOf(root: seq<string>, up: nat): seq<string> {
    if up <= |root| then root[..|root| - up] else []
  }

  lemma {:induction false} ResolvedNet(root: seq<string>, rest: seq<string>)
    requires UP !in root
    ensures Resolved(root + rest) == LeftOf(root, NetOf(rest).up) + NetOf(rest).down
    decreases |rest|
  {
    if rest == [] {
      assert root + rest == root;
      ResolvedRoot(root);
    } else {
      var k := |rest| - 1;
      ResolvedNet(root, rest[..k]);
      ResolvedNext(root, rest, k);
      assert rest[..k + 1] == rest;
    }
  }

  lemma SamePrefix(left: seq<string>, a: seq<string>, b: seq<string>)
    ensures left + a < left + b <==> a < b
  {
    assert (left + a)[|left|..] == a && (left + b)[|left|..] == b;
    if a < b {
      assert left + b == left + a + b[|a|..];
    }
    if left + a < left + b {
      assert b == (left + b)[|left|..|left| + |a|] + (left + b)[|left| + |a|..];
      assert (left + b)[..|left| + |a|] == left + a;
    }
  }

  /** A path below a root without ".." resolves to one strictly below it exactly when the names
      its remaining parts go down begin with the levels of the root they went up, and go on. */
  lemma ResolvesBelowExactly(root: seq<string>, rest: seq<string>)
    requires UP !in root
    ensures var Net(up, down) := NetOf(rest); var left := LeftOf(root, up);
            root < Resolved(root + rest) <==> root[|left|..] < down
  {
    hide Resolved, NetOf;
    ResolvedNet(root, rest);
    var left, down := LeftOf(root, NetOf(rest).up), NetOf(rest).down;
    assert root == left + root[|left|..];
    SamePrefix(left, root[|left|..], down);
  }

  /** A target that can be compensated resolves to a file strictly below the workspace root
      exactly when its remaining parts come back down the way they went up, and further. */
  lemma TargetResolvesBelowExactly(cfg: Config, m: Params)
    requires ReversibleTarget(cfg, m).Some? && UP !in ParsePath(cfg.workspaceRoot).parts
    ensures var target, root := ParsePath(ReversibleTarget(cfg, m).value).parts, ParsePath(cfg.workspaceRoot).parts;
            && root <= target
            && var Net(up, down) := NetOf(target[|root|..]);
               root < Resolved(target) <==> root[|LeftOf(root, up)|..] < down
  {
    hide ParsePath, ReversibleTarget, Resolved, NetOf;
    TargetIsBelowRoot(cfg, m);
    var target, root := ParsePath(ReversibleTarget(cfg, m).value).parts, ParsePath(cfg.workspaceRoot).parts;
    assert target == root + target[|root|..];
    ResolvesBelowExactly(root, target[|root|..]);
  }

  lemma RootedParts(parts: seq<string>)
    requires parts != [] && forall k | 0 <= k < |parts| :: IsPart(parts[k])
    ensures ParsePath("/" + JoinParts(parts)) == PosixPath("/", parts)
  {
    PartsOfJoined(parts);
    SlashAdds(JoinParts(parts));
  }

  lemma JoinedAbove()
    ensures JoinParts(["w"]) == "w" && JoinParts(["w", UP, "x"]) == "w/../x"
  {
    assert ["w", UP, "x"][1..] == [UP, "x"] && [UP, "x"][1..] == ["x"];
    assert JoinParts(["x"]) == "x" && JoinParts([UP, "x"]) == "../x";
  }

  lemma ParsedAbove()
    ensures ParsePath("/w") == PosixPath("/", ["w"]) && ParsePath("/w/../x") == PosixPath("/", ["w", UP, "x"])
    ensures ShowPath(ParsePath("/w/../x")) == "/w/../x"
  {
    JoinedAbove();
    hide JoinParts, ParsePath;
    RootedParts(["w"]);
    RootedParts(["w", UP, "x"]);
    assert "/" + "w" == "/w" && "/" + "w/../x" == "/w/../x";
  }

  /** A path outside the workspace that passes for a target below its root. */
  lemma TargetAbove(cfg: Config)
    requires cfg.workspaceRoot == "/w"
    ensures var m := map[Command := Text("tee"), TargetPath := Text("/w/../x"), StorageScope := Text("wsl_workspace")];
            ReversibleTarget(cfg, m) == Some("/w/../x")
    ensures !StaysBelow(["w"], [UP, "x"])
  {
    PlainTexts();
    ParsedAbove();
    LeavesAtOnce();
    hide ParsePath, ShowPath, Strip, LowerAscii, StaysBelow;
  }

  lemma PlainTexts()
    ensures LowerAscii(Strip("tee")) == "tee" && Strip("/w/../x") == "/w/../x" && LowerAscii(Strip("")) == ""
  {
    StripTight(IsSpace, "tee");
    StripTight(IsSpace, "");
    StripTight(IsSpace, "/w/../x");
    assert LowerAscii("tee") == "tee" && LowerAscii("") == "";
  }

  lemma LeavesAtOnce()
    ensures !StaysBelow(["w"], [UP, "x"])
  {
    assert [UP, "x"][..1] == [UP] && [UP][..0] == [];
    assert Height([UP]) == -1;
    assert !NeverNegative([UP, "x"]);
    StaysBelowExactly(["w"], [UP, "x"]);
  }
}
