/** What the tool does with the parameters of a `tee` that it is handed
    (services/tools/builtin/wsl_executor.py:83-122, 642-703, 1215-1257, and its policy,
    services/tools/builtin/sys_command_policy.py:1548-1583), and with those of a compensation. */
module GovernanceTool {
  import opened Basics
  import opened PyText
  import opened Authorization
  import opened WorkspacePaths
  import opened Governance
  import opened GovernanceSafety
  import opened GovernanceTheorems

  // ---------------------------------------------------------------- the tool

  /** Largest text passed to a command, in bytes. */
  const MAX_STDIN := 65536

  predicate IsOption(arg: string) {
    arg != "" && arg[0] == '-'
  }

  /** The arguments, if all are texts of one line. */
  function Words(args: seq<Json>): Option<seq<string>> {
    if args == [] then Some([]) else
    var rest := Words(args[1..]);
    if args[0].Text? && '\n' !in args[0].s && rest.Some? then Some([args[0].s] + rest.value) else None
  }

  function Files(words: seq<string>): seq<string> {
    if words == [] then [] else (if IsOption(words[0]) then [] else [words[0]]) + Files(words[1..])
  }

  function Options(words: seq<string>): seq<string> {
    if words == [] then [] else (if IsOption(words[0]) then [words[0]] else []) + Options(words[1..])
  }

  /** The file a path names, from the working directory. */
  function FileAt(workdir: string, path: string): string {
    ShowPath(ParsePath(if path != "" && path[0] == '/' then path else workdir + "/" + path))
  }

  /** A `tee` that the tool runs: the file it writes, whether it appends, and the text. */
  datatype Tee = Tee(file: string, append: bool, text: string)

  /** One file and at most one option, to append; None for what the tool refuses. */
  function TeeOf(cfg: Config, m: Params): Option<Tee> {
    var args, stdin := Get(m, Args), Get(m, StdinText);
    if Strip(TextOf(cfg, Get(m, Command))) != "tee" || !args.Items? || !stdin.Text? then None
    else
      var words := Words(args.items);
      if words.None? || Utf8Size(stdin.s) > MAX_STDIN then None
      else
        var files, options := Files(words.value), Options(words.value);
        if |files| != 1 || (options != [] && options != ["-a"] && options != ["--append"]) then None
        else Some(Tee(FileAt(TextOf(cfg, Get(m, Workdir)), files[0]), options != [], stdin.s))
  }

  /** What it leaves. */
  function Overwritten(w: Workspace, tee: Tee): Workspace {
    w[tee.file := if tee.append && tee.file in w then w[tee.file] + tee.text else tee.text]
  }

  /** The file read back after the write: the one named as target, or the one written. */
  function ReadBack(cfg: Config, m: Params, tee: Tee): string {
    var target := Strip(TextOf(cfg, Get(m, TargetPath)));
    if target == "" then tee.file else FileAt(TextOf(cfg, Get(m, Workdir)), target)
  }

  /** Whether the text read back only has to end in the text written: as the parameters say, or
      else as the options do. */
  predicate ComparesEnd(cfg: Config, m: Params, tee: Tee) {
    var mode := Strip(TextOf(cfg, Get(m, WriteMode)));
    if mode == "" then tee.append else mode == "append"
  }

  /** An honest run: it leaves what `tee` leaves, and reports what it reads back. A write is
      verified if that is the text, or ends in it where only the end is compared. */
  function Honest(cfg: Config, w: Workspace, m: Params): ToolRun {
    var tee := TeeOf(cfg, m);
    if tee.None? then ToolRun(Failure, false, None, w)
    else
      var after, path := Overwritten(w, tee.value), ReadBack(cfg, m, tee.value);
      if path !in after then ToolRun(Failure, false, None, after)
      else
        var text, found := tee.value.text, after[path];
        var verified :=
          if ComparesEnd(cfg, m, tee.value) then |text| <= |found| && found[|found| - |text|..] == text
          else found == text;
        ToolRun(if verified then Success else Failure, verified, if verified then Some(Sha256(found)) else None, after)
  }

  // ---------------------------------------------------------------- what an approval makes it do

  lemma SameParameter(cfg: Config, a: Approval, m: Params, key: Key)
    requires Matches(cfg, a, m, None) && !IsRuntime(key) && key !in {Marker, Command}
    ensures Get(m, key) == Get(a.parameters, key)
  {
    assert SameAt(a.parameters, m, key);
  }

  /** An execution of an approved action writes what the approval says, where no session
      directory came in between. */
  lemma ApprovedTee(cfg: Config, a: Approval, m: Params)
    requires Matches(cfg, a, m, None)
    requires Strip(TextOf(cfg, ApplyParameters(a.command, a.parameters)[Command])) == Strip(a.command)
    ensures var approved := ApplyParameters(a.command, a.parameters);
            && TeeOf(cfg, m) == TeeOf(cfg, approved)
            && (TeeOf(cfg, m).Some? ==>
                  ReadBack(cfg, m, TeeOf(cfg, m).value) == ReadBack(cfg, approved, TeeOf(cfg, m).value))
  {
    hide Strip, TextOf, Words, Files, Options, FileAt, Utf8Size, Matches;
    SameParameter(cfg, a, m, Args);
    SameParameter(cfg, a, m, StdinText);
    SameParameter(cfg, a, m, Workdir);
    SameParameter(cfg, a, m, TargetPath);
    SameCommand(cfg, a, m);
  }

  lemma SameComparison(cfg: Config, a: Approval, m: Params, tee: Tee)
    requires Matches(cfg, a, m, None)
    ensures ComparesEnd(cfg, m, tee) == ComparesEnd(cfg, ApplyParameters(a.command, a.parameters), tee)
  {
    hide Strip, TextOf;
    SameParameter(cfg, a, m, WriteMode);
  }

  lemma SameCommand(cfg: Config, a: Approval, m: Params)
    requires Matches(cfg, a, m, None)
    ensures Strip(TextOf(cfg, Get(m, Command))) == Strip(a.command)
  {
    hide Strip, TextOf;
  }

  // ---------------------------------------------------------------- the compensation

  /** The workspace root is an absolute path. */
  predicate Rooted(cfg: Config) {
    cfg.workspaceRoot != "" && cfg.workspaceRoot[0] == '/'
  }

  /** What is asked of a path that was captured: it starts at the root, in normal form. */
  predicate Absolute(path: string) {
    path != "" && path[0] == '/' && ShowPath(ParsePath(path)) == path
  }

  lemma CapturedIsAbsolute(cfg: Config, m: Params)
    requires Rooted(cfg) && ReversibleTarget(cfg, m).Some?
    ensures Absolute(ReversibleTarget(cfg, m).value)
  {
    hide ReversibleTarget;
    TargetIsBelowRoot(cfg, m);
    var target := ReversibleTarget(cfg, m).value;
    assert ParsePath(target).root != "";
    RootKinds(target);
    hide ParsePath;
    assert target == ParsePath(target).root + JoinParts(ParsePath(target).parts);
  }

  /** The text that the tool reads back after the compensating write is that of the snapshot:
      it is the file written, unless white space at the end of the name is lost. */
  predicate ReadsBack(a: Artifact, w: Workspace) {
    var path := ShowPath(ParsePath(Strip(a.target)));
    path == a.target || (path in w && w[path] == a.content)
  }

  /** What a compensation needs of the tool: the name on one line, and the text small enough. */
  predicate Writable(a: Artifact) {
    '\n' !in a.target && Utf8Size(a.content) <= MAX_STDIN
  }

  lemma OneFile(file: string)
    requires file != "" && file[0] == '/'
    ensures Words([Text(file)]) == if '\n' in file then None else Some([file])
    ensures Files([file]) == [file] && Options([file]) == []
  {
    assert [Text(file)][1..] == [] && [file][1..] == [];
    assert Words([]) == Some([]) && [file] + [] == [file];
    assert Files([]) == [] && Options([]) == [];
  }

  lemma StripRooted(path: string)
    requires path != "" && path[0] == '/'
    ensures Strip(path) != "" && Strip(path)[0] == '/'
  {
    assert !IsSpace('/');
    assert LStrip(IsSpace, path) == path;
    RStripCut(IsSpace, path);
  }

  /** The parameters of a compensation make the tool write the text of the snapshot to its
      target, and nothing else. */
  lemma CompensationTee(cfg: Config, terms: Approval, parameters: Params, a: Artifact, m: Params, root: Option<string>)
    requires Rooted(cfg) && Absolute(a.target) && Matches(cfg, terms, m, root)
    requires terms.command == "tee" && terms.parameters == CompensationParameters(cfg, parameters, a)
    ensures TeeOf(cfg, m) == if Writable(a) then Some(Tee(a.target, false, a.content)) else None
    ensures TeeOf(cfg, m).Some? ==> ReadBack(cfg, m, TeeOf(cfg, m).value) == ShowPath(ParsePath(Strip(a.target)))
    ensures TeeOf(cfg, m).Some? ==> !ComparesEnd(cfg, m, TeeOf(cfg, m).value)
  {
    CompensationParts(cfg, terms, parameters, a, m, root);
    StripRooted(a.target);
    OneFile(a.target);
    FileIsThere(TextOf(cfg, Get(m, Workdir)), a.target);
    hide Strip, ParsePath, ShowPath, Utf8Size, Words, Files, Options, Matches, CompensationParameters, TextOf;
  }

  lemma FileIsThere(workdir: string, path: string)
    requires Absolute(path)
    ensures FileAt(workdir, path) == path
  {
  }

  lemma CompensationParts(cfg: Config, terms: Approval, parameters: Params, a: Artifact, m: Params,
                          root: Option<string>)
    requires Matches(cfg, terms, m, root) && a.target != ""
    requires terms.command == "tee" && terms.parameters == CompensationParameters(cfg, parameters, a)
    ensures Get(m, Args) == Items([Text(a.target)]) && Get(m, StdinText) == Text(a.content)
    ensures TextOf(cfg, Get(m, TargetPath)) == a.target && Strip(TextOf(cfg, Get(m, Command))) == "tee"
    ensures Strip(TextOf(cfg, Get(m, WriteMode))) == "overwrite"
  {
    TeeText();
    hide Strip;
    assert SameAt(terms.parameters, m, WriteMode);
    assert SameAt(terms.parameters, m, Args) && SameAt(terms.parameters, m, StdinText);
    assert SameAt(terms.parameters, m, TargetPath);
  }

  lemma TeeText()
    ensures Strip("tee") == "tee" && Strip("overwrite") == "overwrite"
  {
    StripTight(IsSpace, "tee");
    StripTight(IsSpace, "overwrite");
  }

  /** What a launch hands to the tool: an execution of what the proposal approves. */
  lemma LastExecuted(cfg: Config, s: State, r: Request, trace: Trace)
    requires Inv(cfg, s) && s.loaded == s.store && Promised(s, r) && Launch(cfg, s, r.id, r.parameters, trace).Some?
    ensures var executed := Launch(cfg, s, r.id, r.parameters, trace).value.executed;
            && |executed| == |s.executed| + 1
            && executed[|s.executed|].id == r.id && executed[|s.executed|].sessionRoot == trace.sessionRoot
            && Matches(cfg, s.store[r.id].Terms(), executed[|s.executed|].parameters, trace.sessionRoot)
  {
    hide ProposalOk, HandlerOk, FactsOf, Matches, Finalized, Granted;
    var t := Launch(cfg, s, r.id, r.parameters, trace).value;
    LaunchExecution(cfg, s, r, trace);
    var e := t.executed[|s.executed|];
    assert e in t.executed && ExecutionOk(cfg, t, e);
    assert t.store[r.id].Terms() == s.store[r.id].Terms();
  }

  lemma CapturedTarget(cfg: Config, s: State, id: Id, a: Artifact)
    requires Inv(cfg, s) && Rooted(cfg) && id in s.store && s.store[id].rollback.supported && ArtifactOk(s.store[id], a)
    ensures Absolute(a.target)
  {
    hide GoodDigest, Matches, ReversibleTarget, ApplyParameters, HandlerOk, Absolute;
    assert ProposalOk(cfg, id, FactsOf(s, id));
    EntryOfFacts(s, id);
    CapturedIsAbsolute(cfg, ApplyParameters(s.store[id].command, s.store[id].parameters));
  }

  lemma CompensationSupported(cfg: Config, s: State, id: Id)
    requires Inv(cfg, s) && id in s.store && s.store[id].tx.RollingBack?
    ensures s.store[id].rollback.supported
  {
    hide GoodDigest, Matches, SnapshotOk, HandlerOk;
    assert ProposalOk(cfg, id, FactsOf(s, id));
  }

  /** What the tool does with the execution of a compensator that just began: the text of the
      snapshot goes to its target. */
  lemma CompensationWrites(cfg: Config, s: State, trace: Trace)
    requires Inv(cfg, s) && Rooted(cfg) && s.handler.CompensationAuthorized?
    requires DoRollbackBegin(cfg, s, trace).handler.CompensationRunning?
    ensures var a, executed := s.handler.artifact, DoRollbackBegin(cfg, s, trace).executed;
            && |executed| == |s.executed| + 1 && executed[|s.executed|].id == s.handler.compensator
            && Absolute(a.target)
            && var m := executed[|s.executed|].parameters;
               && TeeOf(cfg, m) == (if Writable(a) then Some(Tee(a.target, false, a.content)) else None)
               && (Writable(a) ==>
                     && ReadBack(cfg, m, TeeOf(cfg, m).value) == ShowPath(ParsePath(Strip(a.target)))
                     && !ComparesEnd(cfg, m, TeeOf(cfg, m).value)
                     && forall w :: Overwritten(w, TeeOf(cfg, m).value) == w[a.target := a.content])
  {
    hide ProposalOk, FactsOf, Matches, CompensationParameters, TeeOf, ReadBack, ComparesEnd, Absolute, RollbackFails;
    hide Launch, Granted, ExecutionOk, Writable;
    var CompensationAuthorized(id, c, a, parameters) := s.handler;
    FailedIsIdle(Load(s), id);
    LastExecuted(cfg, s, Request(c, parameters), trace);
    CompensationSupported(cfg, s, id);
    CapturedTarget(cfg, s, id, a);
    var e := Launch(cfg, s, c, parameters, trace).value.executed[|s.executed|];
    CompensationTee(cfg, s.store[c].Terms(), s.store[id].parameters, a, e.parameters, e.sessionRoot);
  }

  /** Exactly when a compensation restores its target. An honest tool is handed what was
      recorded for the compensator; other requests may have done anything meanwhile. The
      rollback ends in `rolled_back` if and only if the name of the target fits on a line, its
      text is within the limit of the tool, and the file read back is the one written or holds
      the same text; and then the workspace has the text of the snapshot at the target. */
  lemma CompensationRestoresExactly(cfg: Config, s: State, trace: Trace, u: State)
    requires Inv(cfg, s) && Rooted(cfg) && s.handler.CompensationAuthorized?
    requires DoRollbackBegin(cfg, s, trace).handler.CompensationRunning?
    requires Inv(cfg, u) && u.handler == DoRollbackBegin(cfg, s, trace).handler
    ensures var CompensationAuthorized(id, c, a, _) := s.handler;
            var executed := DoRollbackBegin(cfg, s, trace).executed;
            && |executed| == |s.executed| + 1 && executed[|s.executed|].id == c
            && var run := Honest(cfg, u.workspace, executed[|s.executed|].parameters);
               var t := DoRollbackEnd(u, run);
               && Permitted(u, RollbackEnd(run)) && id in t.store
               && (t.store[id].tx.RolledBack? <==> Writable(a) && ReadsBack(a, u.workspace))
               && t.workspace == (if Writable(a) then u.workspace[a.target := a.content] else u.workspace)
  {
    hide Inv, TeeOf, ReadBack, ComparesEnd, Absolute, Writable, ReadsBack, Overwritten, Honest, DoRollbackEnd;
    hide ParsePath, ShowPath, Strip;
    CompensationWrites(cfg, s, trace);
    BeganHandler(cfg, s, trace);
    var CompensationAuthorized(id, c, a, _) := s.handler;
    var m := DoRollbackBegin(cfg, s, trace).executed[|s.executed|].parameters;
    hide DoRollbackBegin;
    var run := Honest(cfg, u.workspace, m);
    RollbackEndShape(cfg, u, run);
    DigestOfArtifact(cfg, u);
    HonestCompensation(cfg, u.workspace, m, a);
  }

  /** What the tool reports of a compensation that it accepts, or refuses. */
  lemma HonestCompensation(cfg: Config, w: Workspace, m: Params, a: Artifact)
    requires TeeOf(cfg, m) == if Writable(a) then Some(Tee(a.target, false, a.content)) else None
    requires Writable(a) ==>
               && ReadBack(cfg, m, TeeOf(cfg, m).value) == ShowPath(ParsePath(Strip(a.target)))
               && !ComparesEnd(cfg, m, TeeOf(cfg, m).value)
    requires a.digest == Sha256(a.content)
    ensures var run := Honest(cfg, w, m);
            && (Restores(a, run) <==> Writable(a) && ReadsBack(a, w))
            && run.after == (if Writable(a) then w[a.target := a.content] else w)
            && (run.verified ==> a.target in run.after && run.evidence == Some(Sha256(run.after[a.target])))
  {
    hide TeeOf, ReadBack, ComparesEnd, Writable, ParsePath, ShowPath, Strip;
  }

  lemma BeganHandler(cfg: Config, s: State, trace: Trace)
    requires s.handler.CompensationAuthorized? && DoRollbackBegin(cfg, s, trace).handler.CompensationRunning?
    ensures var CompensationAuthorized(id, c, a, _) := s.handler;
            DoRollbackBegin(cfg, s, trace).handler == CompensationRunning(id, c, a)
  {
    hide Launch;
    if s.handler.id in s.store {
      FailedIsIdle(Load(s), s.handler.id);
    }
  }

  lemma DigestOfArtifact(cfg: Config, s: State)
    requires Inv(cfg, s) && s.handler.CompensationRunning?
    ensures s.handler.artifact.digest == Sha256(s.handler.artifact.content)
  {
    hide ProposalOk, FactsOf, Matches;
  }
}
