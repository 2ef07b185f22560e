/** A whole transaction that nothing disturbs, from the proposal to the restored workspace, with
    the tool doing what it is handed. */
module GovernanceTransaction {
  import opened Basics
  import opened PyText
  import opened Authorization
  import opened WorkspacePaths
  import opened Governance
  import opened GovernanceSafety
  import opened GovernanceTheorems
  import opened GovernanceTool

  /** The parameters handed to the tool last. */
  function Handed(s: State): Params
    requires s.executed != []
  {
    s.executed[|s.executed| - 1].parameters
  }

  /** What the tool reports and leaves is what it does with the parameters it was handed. */
  predicate HonestEnd(cfg: Config, s: State, a: Action) {
    a.ApplyEnd? || a.RollbackEnd? ==> s.executed != [] && a.run == Honest(cfg, s.workspace, Handed(s))
  }

  ghost predicate HonestRun(cfg: Config, s: State, actions: seq<Action>)
    decreases |actions|
  {
    actions == [] ||
    var last := |actions| - 1;
    HonestRun(cfg, s, actions[..last]) && HonestEnd(cfg, Run(cfg, s, actions[..last]), actions[last])
  }

  /** A permitted run with an honest tool. */
  ghost predicate Goes(cfg: Config, s: State, actions: seq<Action>, t: State) {
    PermittedRun(cfg, s, actions) && HonestRun(cfg, s, actions) && Run(cfg, s, actions) == t
  }

  lemma GoesNowhere(cfg: Config, s: State)
    ensures Goes(cfg, s, [], s)
  {
  }

  lemma GoesOn(cfg: Config, s: State, actions: seq<Action>, t: State, a: Action)
    requires Goes(cfg, s, actions, t) && Permitted(t, a) && HonestEnd(cfg, t, a)
    ensures Goes(cfg, s, actions + [a], Step(cfg, t, a))
  {
    hide Step, Permitted, HonestEnd;
    RunSnoc(cfg, s, actions, a);
    assert (actions + [a])[..|actions|] == actions;
  }

  // ---------------------------------------------------------------- the spans of a transaction

  /** The parts of a state that the argument below follows. */
  ghost predicate At(cfg: Config, s: State, id: Id, p: Proposal, artifact: Artifact, workspace: Workspace) {
    && Inv(cfg, s) && id in s.store && s.store[id] == p && s.workspace == workspace
    && id in s.artifacts && s.artifacts[id] == artifact
  }

  lemma CaptureStep(cfg: Config, s: State, content: string)
    requires Inv(cfg, s) && s.handler.Preflight? && s.handler.id in s.store && Fits(cfg, content)
    requires s.handler.target in s.workspace && s.workspace[s.handler.target] == content
    ensures var id, target := s.handler.id, s.handler.target;
            var rollback := Rollback(true, Captured, Some(Snapshot(id, target, Sha256(content))));
            var p := s.store[id].(tx := Applying, rollback := rollback);
            var t := Step(cfg, s, ApplyCapture(CatText(content), true));
            && At(cfg, t, id, p, Artifact(1, target, content, Sha256(content)), s.workspace)
            && t.handler == ApplyReady(id) && t.store.Keys == s.store.Keys
  {
    hide ProposalOk, FactsOf, Matches, ReversibleTarget, ApplyParameters, Fits;
    ApplyCaptureKeeps(cfg, s, CatText(content), true);
  }

  lemma ApplyAuthorizeStep(cfg: Config, s: State, id: Id, p: Proposal, artifact: Artifact)
    requires At(cfg, s, id, p, artifact, s.workspace) && s.handler == ApplyReady(id)
    requires Strip(TextOf(cfg, ApplyParameters(p.command, p.parameters)[Command])) == Strip(p.command)
    ensures var t := Step(cfg, s, ApplyAuthorize);
            && At(cfg, t, id, p, artifact, s.workspace)
            && t.handler.ApplyAuthorized? && t.handler.id == id && t.store.Keys == s.store.Keys
  {
    hide ProposalOk, HandlerOk, FactsOf, Matches, Strip, ApplyParameters, TextOf, DoApplyAuthorize;
    LoadAgain(cfg, s);
    ApplyAuthorizeKeeps(cfg, s);
    ApplyAuthorizedExactly(cfg, s);
  }

  lemma ApplyBeginStep(cfg: Config, s: State, id: Id, p: Proposal, artifact: Artifact, trace: Trace)
    requires At(cfg, s, id, p, artifact, s.workspace) && s.handler.ApplyAuthorized? && s.handler.id == id
    requires trace.ready && CanBegin(p)
    ensures var t := Step(cfg, s, ApplyBegin(trace));
            && At(cfg, t, id, Begun(p), artifact, s.workspace)
            && t.handler == ApplyRunning(id) && t.store.Keys == s.store.Keys
            && t.executed != [] && Matches(cfg, p.Terms(), Handed(t), trace.sessionRoot)
  {
    hide ProposalOk, HandlerOk, FactsOf, Matches, Launch, ApplyFails, Granted, ExecutionOk;
    LoadAgain(cfg, s);
    ApplyBeginKeeps(cfg, s, trace);
    ApplyBeginsExactly(cfg, s, trace);
    FailedIsIdle(s, id);
    LastExecuted(cfg, s, Request(id, s.handler.parameters), trace);
    LaunchFrame(cfg, s, id, s.handler.parameters, trace);
  }

  lemma ApplyEndStep(cfg: Config, s: State, id: Id, p: Proposal, artifact: Artifact, run: ToolRun)
    requires At(cfg, s, id, p, artifact, s.workspace) && s.handler == ApplyRunning(id) && run.status.Success?
    ensures var t := Step(cfg, s, ApplyEnd(run));
            && At(cfg, t, id, Ended(p, Success).(tx := Applied), artifact, run.after)
            && t.handler == Idle && t.store.Keys == s.store.Keys
  {
    hide ProposalOk, HandlerOk, FactsOf, Matches;
    ApplyEndKeeps(cfg, s, run);
  }

  lemma RollbackStartStep(cfg: Config, s: State, id: Id, p: Proposal, target: string, content: string)
    requires At(cfg, s, id, p, Artifact(1, target, content, Sha256(content)), s.workspace) && s.handler == Idle
    requires p.tx.Applied? && p.rollback == Rollback(true, Captured, Some(Snapshot(id, target, Sha256(content))))
    ensures var a := Artifact(1, target, content, Sha256(content));
            var t := Step(cfg, s, RollbackStart(id));
            && At(cfg, t, id, p.(tx := RollbackPreparing, rollback := p.rollback.(state := Planned)), a, s.workspace)
            && t.handler == CompensationPlanned(id, a) && t.store.Keys == s.store.Keys
  {
    hide ProposalOk, HandlerOk, FactsOf, Matches;
    LoadAgain(cfg, s);
    RollbackStartKeeps(cfg, s, id);
  }

  /** The thread reads the store, and writes it back with the compensator. */
  lemma RollbackWriteStep(cfg: Config, s: State, id: Id, p: Proposal, a: Artifact, newId: Id)
    requires At(cfg, s, id, p, a, s.workspace) && s.handler == CompensationPlanned(id, a) && newId !in s.store
    ensures var u := Step(cfg, s, RollbackLoad); var t := Step(cfg, u, RollbackWrite(newId));
            && Permitted(s, RollbackLoad) && Permitted(u, RollbackWrite(newId))
            && At(cfg, t, id, p, a, s.workspace) && newId != id
            && t.handler == CompensationCreated(id, newId, a)
            && newId in t.store && t.store[newId].invocation.attempts == 0
  {
    hide ProposalOk, HandlerOk, FactsOf, Matches, CompensationParameters, InvocationDigest;
    RollbackLoadKeeps(cfg, s);
    RollbackWriteKeeps(cfg, DoRollbackLoad(s), newId);
  }

  lemma RollbackApproveStep(cfg: Config, s: State, id: Id, p: Proposal, a: Artifact, newId: Id)
    requires At(cfg, s, id, p, a, s.workspace) && s.handler == CompensationCreated(id, newId, a)
    requires newId in s.store && newId != id && s.store[newId].invocation.attempts == 0
    ensures var t := Step(cfg, s, RollbackApprove);
            && At(cfg, t, id, p.(tx := RollingBack, rollback := p.rollback.(state := Started)), a, s.workspace)
            && t.handler == CompensationReady(id, newId, a)
            && newId in t.store && t.store[newId].invocation.attempts == 0
  {
    hide Inv, DoRollbackApprove;
    LoadKeeps(cfg, s);
    assert Inv(cfg, Load(s));
    RollbackApproveKeeps(cfg, Load(s));
    RollbackApproveShape(cfg, Load(s));
  }

  lemma RollbackAuthorizeStep(cfg: Config, s: State, id: Id, p: Proposal, a: Artifact, newId: Id)
    requires At(cfg, s, id, p, a, s.workspace) && s.handler == CompensationReady(id, newId, a)
    requires newId in s.store && s.store[newId].invocation.attempts == 0
    ensures var t := Step(cfg, s, RollbackAuthorize);
            && At(cfg, t, id, p, a, s.workspace)
            && t.handler.CompensationAuthorized? && t.handler.id == id && t.handler.compensator == newId
            && t.handler.artifact == a && newId in t.store && t.store[newId].invocation.attempts == 0
  {
    hide ProposalOk, FactsOf, HandlerOk, Matches, CompensationParameters, RollbackFails, Authorize;
    LoadAgain(cfg, s);
    RollbackAuthorizeKeeps(cfg, s);
    CompensationIsAuthorized(cfg, s);
    FailedIsIdle(s, id);
  }

  lemma NeverBegan(cfg: Config, s: State, id: Id)
    requires Inv(cfg, s) && id in s.store && s.store[id].invocation.attempts == 0
    ensures CanBegin(s.store[id])
  {
    hide GoodDigest, SnapshotOk, HandlerOk, Matches;
    assert ProposalOk(cfg, id, FactsOf(s, id));
  }

  lemma RollbackBeginStep(cfg: Config, s: State, id: Id, p: Proposal, a: Artifact, trace: Trace)
    requires At(cfg, s, id, p, a, s.workspace) && s.handler.CompensationAuthorized? && trace.ready
    requires s.handler.id == id && s.handler.artifact == a && s.handler.compensator != id
    requires s.handler.compensator in s.store && s.store[s.handler.compensator].invocation.attempts == 0
    ensures var t := Step(cfg, s, RollbackBegin(trace));
            At(cfg, t, id, p, a, s.workspace) && t.handler == CompensationRunning(id, s.handler.compensator, a)
  {
    hide Inv, Launch, RollbackFails, CanBegin, Begun;
    var c := s.handler.compensator;
    NeverBegan(cfg, s, c);
    LoadAgain(cfg, s);
    RollbackBeginKeeps(cfg, s, trace);
    CompensationBeginsExactly(cfg, s, trace);
    FailedIsIdle(s, id);
    LaunchFrame(cfg, s, c, s.handler.parameters, trace);
  }

  // ---------------------------------------------------------------- the whole

  /** The command in the parameters is the command of the proposal. */
  predicate SaysCommand(cfg: Config, p: Proposal) {
    Strip(TextOf(cfg, ApplyParameters(p.command, p.parameters)[Command])) == Strip(p.command)
  }

  /** What the approved action has the tool do: it overwrites `target` with `text`. */
  predicate Overwrites(cfg: Config, command: string, parameters: Params, target: string, text: string) {
    var m := ApplyParameters(command, parameters);
    && Strip(TextOf(cfg, m[Command])) == Strip(command)
    && ReversibleTarget(cfg, m) == Some(target)
    && TeeOf(cfg, m) == Some(Tee(target, false, text))
  }

  lemma RootedStarts(path: string)
    requires ParsePath(path).root != ""
    ensures path != "" && path[0] == '/'
  {
  }

  lemma NotAppended(cfg: Config, m: Params, tee: Tee)
    requires ReversibleTarget(cfg, m).Some? && !tee.append
    ensures !ComparesEnd(cfg, m, tee)
  {
    hide Strip, TextOf, ParsePath;
    assert LowerAscii("append") == "append";
  }

  /** The tool reads a target that can be compensated back from where the snapshot was taken. */
  lemma TargetReadsBack(cfg: Config, m: Params, tee: Tee)
    requires Rooted(cfg) && ReversibleTarget(cfg, m).Some?
    ensures Some(ReadBack(cfg, m, tee)) == ReversibleTarget(cfg, m)
  {
    hide Strip, TextOf, LowerAscii, PathParts, ShowPath;
    var path := Strip(TextOf(cfg, Get(m, TargetPath)));
    assert ParsePath(cfg.workspaceRoot).root != "";
    RootedStarts(path);
  }

  /** The execution of an apply overwrites the target and says so. */
  lemma ApplyOverwrites(cfg: Config, p: Proposal, m: Params, sessionRoot: Option<string>, target: string, text: string,
                        w: Workspace)
    requires Rooted(cfg) && Overwrites(cfg, p.command, p.parameters, target, text)
    requires Matches(cfg, p.Terms(), m, sessionRoot)
    requires sessionRoot.None? || Truthy(Get(p.parameters, Workdir))
    ensures Honest(cfg, w, m) == ToolRun(Success, true, Some(Sha256(text)), w[target := text])
  {
    var approved := ApplyParameters(p.command, p.parameters);
    MatchesAlone(cfg, p.Terms(), m, sessionRoot);
    ApprovedTee(cfg, p.Terms(), m);
    TargetReadsBack(cfg, approved, Tee(target, false, text));
    SameComparison(cfg, p.Terms(), m, Tee(target, false, text));
    NotAppended(cfg, approved, Tee(target, false, text));
    hide Matches, TeeOf, ReversibleTarget, ComparesEnd, ReadBack, Strip, TextOf, ApplyParameters;
  }

  lemma MatchesAlone(cfg: Config, a: Approval, m: Params, sessionRoot: Option<string>)
    requires Matches(cfg, a, m, sessionRoot) && (sessionRoot.None? || Truthy(Get(a.parameters, Workdir)))
    ensures Matches(cfg, a, m, None)
  {
  }

  /** A proposal is created, */
  lemma CreateStep(cfg: Config, s: State, id: Id, command: string, parameters: Params, max: int)
    requires Inv(cfg, s) && s.handler == Idle && id !in s.store && 1 <= max <= 10
    ensures var t := Step(cfg, s, Create(id, command, parameters, max));
            && Permitted(s, Create(id, command, parameters, max))
            && Inv(cfg, t) && t.handler == Idle && t.workspace == s.workspace
            && t.store == s.store[id := NewProposal(command, parameters, max, cfg.allows(command))]
  {
    hide Inv, NewProposal;
    LoadAgain(cfg, s);
    CreateKeeps(cfg, s, id, command, parameters, max);
  }

  /** approved, */
  lemma ApproveSteps(cfg: Config, s: State, id: Id)
    requires Inv(cfg, s) && s.handler == Idle && id in s.store
    requires s.store[id].decision.Pending? && s.store[id].policyAllowed
    ensures var u := Step(cfg, s, DecideStart(id, true)); var t := Step(cfg, u, DecideFinish);
            && Permitted(s, DecideStart(id, true)) && Permitted(u, DecideFinish)
            && Inv(cfg, t) && t.handler == Idle && t.workspace == s.workspace
            && t.store == s.store[id := s.store[id].(decision := Approved)]
  {
    hide Inv;
    LoadAgain(cfg, s);
    var u := Step(cfg, s, DecideStart(id, true));
    assert Permitted(s, DecideStart(id, true)) && Permitted(u, DecideFinish);
    StepKeeps(cfg, s, DecideStart(id, true));
    StepKeeps(cfg, u, DecideFinish);
  }

  /** and its apply starts. */
  lemma ApplyStartStep(cfg: Config, s: State, id: Id, target: string)
    requires Inv(cfg, s) && s.handler == Idle && id in s.store && CanApply(s.store[id])
    requires ReversibleTarget(cfg, ApplyParameters(s.store[id].command, s.store[id].parameters)) == Some(target)
    ensures var t := Step(cfg, s, ApplyStart(id));
            && Inv(cfg, t) && t.handler == Preflight(id, None, target) && t.workspace == s.workspace
            && t.store == s.store[id := Prepared(s.store[id])]
  {
    hide Inv, ReversibleTarget, ApplyParameters;
    LoadAgain(cfg, s);
    ApplyStartKeeps(cfg, s, id);
  }

  /** From nothing to the preflight of an apply. */
  lemma UndisturbedStart(cfg: Config, s: State, id: Id, command: string, parameters: Params, max: int, target: string)
      returns (actions: seq<Action>, t: State)
    requires Inv(cfg, s) && s.handler == Idle && id !in s.store && 1 <= max <= 10 && cfg.allows(command)
    requires ReversibleTarget(cfg, ApplyParameters(command, parameters)) == Some(target)
    ensures Goes(cfg, s, actions, t) && Inv(cfg, t)
    ensures t.handler == Preflight(id, None, target) && t.workspace == s.workspace
    ensures var p := NewProposal(command, parameters, max, true).(decision := Approved, tx := Preparing);
            t.store == s.store[id := p]
  {
    hide Inv, Step, Goes, ReversibleTarget, ApplyParameters, Permitted, InvocationDigest;
    GoesNowhere(cfg, s);
    var create := Create(id, command, parameters, max);
    CreateStep(cfg, s, id, command, parameters, max);
    GoesOn(cfg, s, [], s, create);
    var s1 := Step(cfg, s, create);

    ApproveSteps(cfg, s1, id);
    var s2 := Step(cfg, s1, DecideStart(id, true));
    assert [] + [create] == [create];
    GoesOn(cfg, s, [create], s1, DecideStart(id, true));
    var s3 := Step(cfg, s2, DecideFinish);
    GoesOn(cfg, s, [create] + [DecideStart(id, true)], s2, DecideFinish);

    ApplyStartStep(cfg, s3, id, target);
    t := Step(cfg, s3, ApplyStart(id));
    StartPermitted(cfg, s3, id);
    actions := [create] + [DecideStart(id, true)] + [DecideFinish];
    GoesOn(cfg, s, actions, s3, ApplyStart(id));
    actions := actions + [ApplyStart(id)];
  }

  lemma StartPermitted(cfg: Config, s: State, id: Id)
    ensures Permitted(s, ApplyStart(id)) && Permitted(s, ApplyAuthorize) && Permitted(s, RollbackStart(id))
    ensures Permitted(s, RollbackApprove) && Permitted(s, RollbackAuthorize)
    ensures HonestEnd(cfg, s, ApplyAuthorize)
  {
  }

  lemma BeginPermitted(cfg: Config, s: State, trace: Trace)
    ensures Permitted(s, ApplyBegin(trace)) && Permitted(s, RollbackBegin(trace))
    ensures HonestEnd(cfg, s, ApplyBegin(trace)) && HonestEnd(cfg, s, RollbackBegin(trace))
  {
  }

  /** A snapshot is captured and the execution authorized, */
  lemma UndisturbedCapture(cfg: Config, s: State, first: seq<Action>, t: State, content: string)
      returns (actions: seq<Action>, u: State)
    requires Inv(cfg, t) && t.handler.Preflight? && t.handler.id in t.store && Goes(cfg, s, first, t)
    requires t.handler.target in t.workspace && t.workspace[t.handler.target] == content && Fits(cfg, content)
    requires SaysCommand(cfg, t.store[t.handler.id])
    ensures first <= actions && Goes(cfg, s, actions, u) && u.store.Keys == t.store.Keys
    ensures u.handler.ApplyAuthorized? && u.handler.id == t.handler.id
    ensures var id, target := t.handler.id, t.handler.target;
            var rollback := Rollback(true, Captured, Some(Snapshot(id, target, Sha256(content))));
            At(cfg, u, id, t.store[id].(tx := Applying, rollback := rollback),
               Artifact(1, target, content, Sha256(content)), t.workspace)
  {
    hide Inv, Step, Goes, Fits, Permitted, HonestEnd, ApplyParameters, Strip, TextOf;
    var id, target := t.handler.id, t.handler.target;
    var capture := ApplyCapture(CatText(content), true);
    CaptureStep(cfg, t, content);
    CapturePermitted(cfg, t, content);
    GoesOn(cfg, s, first, t, capture);
    var s1 := Step(cfg, t, capture);

    StartPermitted(cfg, s1, id);
    ApplyAuthorizeStep(cfg, s1, id, s1.store[id], Artifact(1, target, content, Sha256(content)));
    GoesOn(cfg, s, first + [capture], s1, ApplyAuthorize);
    u := Step(cfg, s1, ApplyAuthorize);
    actions := first + [capture] + [ApplyAuthorize];
  }

  /** and the tool overwrites the target. */
  lemma UndisturbedApply(cfg: Config, s: State, first: seq<Action>, t: State, p: Proposal, a: Artifact, text: string,
                         trace: Trace)
      returns (actions: seq<Action>, u: State)
    requires t.handler.ApplyAuthorized? && At(cfg, t, t.handler.id, p, a, t.workspace) && Goes(cfg, s, first, t)
    requires CanBegin(p) && trace.ready && Rooted(cfg)
    requires Overwrites(cfg, p.command, p.parameters, a.target, text)
    requires trace.sessionRoot.None? || Truthy(Get(p.parameters, Workdir))
    ensures first <= actions && Goes(cfg, s, actions, u) && u.store.Keys == t.store.Keys && u.handler == Idle
    ensures At(cfg, u, t.handler.id, Ended(Begun(p), Success).(tx := Applied), a, t.workspace[a.target := text])
  {
    hide Inv, Step, Goes, Overwrites, Permitted, HonestEnd, CanBegin, Matches, Honest, ApplyParameters;
    var id := t.handler.id;
    ApplyBeginStep(cfg, t, id, p, a, trace);
    BeginPermitted(cfg, t, trace);
    GoesOn(cfg, s, first, t, ApplyBegin(trace));
    var s1 := Step(cfg, t, ApplyBegin(trace));

    ApplyOverwrites(cfg, p, Handed(s1), trace.sessionRoot, a.target, text, s1.workspace);
    var run := Honest(cfg, s1.workspace, Handed(s1));
    ApplyEndStep(cfg, s1, id, s1.store[id], a, run);
    EndPermitted(cfg, s1, run);
    GoesOn(cfg, s, first + [ApplyBegin(trace)], s1, ApplyEnd(run));
    u := Step(cfg, s1, ApplyEnd(run));
    actions := first + [ApplyBegin(trace)] + [ApplyEnd(run)];
  }

  lemma CapturePermitted(cfg: Config, s: State, content: string)
    requires s.handler.Preflight? && s.handler.target in s.workspace && s.workspace[s.handler.target] == content
    ensures var a := ApplyCapture(CatText(content), true); Permitted(s, a) && HonestEnd(cfg, s, a)
  {
  }

  lemma EndPermitted(cfg: Config, s: State, run: ToolRun)
    requires s.executed != [] && run == Honest(cfg, s.workspace, Handed(s))
    ensures Permitted(s, ApplyEnd(run)) && HonestEnd(cfg, s, ApplyEnd(run)) && HonestEnd(cfg, s, RollbackEnd(run))
  {
  }

  /** A rollback starts, and its thread adds the compensator, */
  lemma UndisturbedCompensator(cfg: Config, s: State, first: seq<Action>, t: State, id: Id, p: Proposal,
                               target: string, content: string, newId: Id)
      returns (actions: seq<Action>, u: State)
    requires At(cfg, t, id, p, Artifact(1, target, content, Sha256(content)), t.workspace) && t.handler == Idle
    requires p.tx.Applied? && p.rollback == Rollback(true, Captured, Some(Snapshot(id, target, Sha256(content))))
    requires newId !in t.store && Goes(cfg, s, first, t)
    ensures first <= actions && Goes(cfg, s, actions, u) && newId != id
    ensures u.handler == CompensationCreated(id, newId, Artifact(1, target, content, Sha256(content)))
    ensures At(cfg, u, id, p.(tx := RollbackPreparing, rollback := p.rollback.(state := Planned)),
               Artifact(1, target, content, Sha256(content)), t.workspace)
    ensures newId in u.store && u.store[newId].invocation.attempts == 0
  {
    hide Inv, Step, Goes, Permitted;
    var a := Artifact(1, target, content, Sha256(content));
    RollbackStartStep(cfg, t, id, p, target, content);
    StartPermitted(cfg, t, id);
    GoesOn(cfg, s, first, t, RollbackStart(id));
    var s1 := Step(cfg, t, RollbackStart(id));
    actions := first + [RollbackStart(id)];

    RollbackWriteStep(cfg, s1, id, s1.store[id], a, newId);
    GoesOn(cfg, s, actions, s1, RollbackLoad);
    var s2 := Step(cfg, s1, RollbackLoad);
    GoesOn(cfg, s, actions + [RollbackLoad], s2, RollbackWrite(newId));
    u := Step(cfg, s2, RollbackWrite(newId));
    actions := actions + [RollbackLoad] + [RollbackWrite(newId)];
  }

  /** which is approved and authorized. */
  lemma UndisturbedApproval(cfg: Config, s: State, first: seq<Action>, t: State, id: Id, p: Proposal, a: Artifact,
                            newId: Id)
      returns (actions: seq<Action>, u: State)
    requires At(cfg, t, id, p, a, t.workspace) && t.handler == CompensationCreated(id, newId, a) && newId != id
    requires newId in t.store && t.store[newId].invocation.attempts == 0 && Goes(cfg, s, first, t)
    ensures first <= actions && Goes(cfg, s, actions, u) && u.handler.CompensationAuthorized? && u.handler.artifact == a
    ensures u.handler.id == id && u.handler.compensator == newId
    ensures At(cfg, u, id, p.(tx := RollingBack, rollback := p.rollback.(state := Started)), a, t.workspace)
    ensures newId in u.store && u.store[newId].invocation.attempts == 0
  {
    hide Inv, Step, Goes, Permitted;
    RollbackApproveStep(cfg, t, id, p, a, newId);
    StartPermitted(cfg, t, id);
    GoesOn(cfg, s, first, t, RollbackApprove);
    var s1 := Step(cfg, t, RollbackApprove);

    RollbackAuthorizeStep(cfg, s1, id, s1.store[id], a, newId);
    StartPermitted(cfg, s1, id);
    GoesOn(cfg, s, first + [RollbackApprove], s1, RollbackAuthorize);
    u := Step(cfg, s1, RollbackAuthorize);
    actions := first + [RollbackApprove] + [RollbackAuthorize];
  }

  /** Then the tool writes what it is handed. */
  lemma UndisturbedRestore(cfg: Config, s: State, first: seq<Action>, t: State, id: Id, p: Proposal, a: Artifact,
                           trace: Trace)
      returns (actions: seq<Action>, u: State)
    requires At(cfg, t, id, p, a, t.workspace) && t.handler.CompensationAuthorized? && trace.ready && Rooted(cfg)
    requires t.handler.id == id && t.handler.artifact == a && t.handler.compensator != id
    requires t.handler.compensator in t.store && t.store[t.handler.compensator].invocation.attempts == 0
    requires Goes(cfg, s, first, t)
    ensures first <= actions && Goes(cfg, s, actions, u) && id in u.store
    ensures u.store[id].tx.RolledBack? <==> Writable(a) && ReadsBack(a, t.workspace)
    ensures u.workspace == if Writable(a) then t.workspace[a.target := a.content] else t.workspace
  {
    hide Inv, Step, Goes, Permitted, HonestEnd, Honest, Writable, ReadsBack;
    RollbackBeginStep(cfg, t, id, p, a, trace);
    BeginPermitted(cfg, t, trace);
    GoesOn(cfg, s, first, t, RollbackBegin(trace));
    var s1 := Step(cfg, t, RollbackBegin(trace));
    RollbackBegins(cfg, t, trace);
    CompensationRestoresExactly(cfg, t, trace, s1);
    var run := Honest(cfg, s1.workspace, Handed(s1));
    EndPermitted(cfg, s1, run);
    GoesOn(cfg, s, first + [RollbackBegin(trace)], s1, RollbackEnd(run));
    u := Step(cfg, s1, RollbackEnd(run));
    RollbackEnds(cfg, s1, run);
    actions := first + [RollbackBegin(trace)] + [RollbackEnd(run)];
  }

  lemma RollbackBegins(cfg: Config, s: State, trace: Trace)
    ensures Step(cfg, s, RollbackBegin(trace)) == DoRollbackBegin(cfg, s, trace)
  {
  }

  lemma RollbackEnds(cfg: Config, s: State, run: ToolRun)
    ensures Step(cfg, s, RollbackEnd(run)) == DoRollbackEnd(s, run)
  {
  }

  /** A rollback that nothing disturbs, of an apply that went through, with a tool that does what
      it is handed, ends in `rolled_back` if and only if the tool accepts the text and the name of
      the target, and reads the target back where it wrote it. */
  lemma UndisturbedRollback(cfg: Config, s: State, first: seq<Action>, t: State, id: Id, p: Proposal,
                            target: string, content: string, newId: Id, trace: Trace)
      returns (actions: seq<Action>, u: State)
    requires At(cfg, t, id, p, Artifact(1, target, content, Sha256(content)), t.workspace) && t.handler == Idle
    requires p.tx.Applied? && p.rollback == Rollback(true, Captured, Some(Snapshot(id, target, Sha256(content))))
    requires newId !in t.store && Goes(cfg, s, first, t) && trace.ready && Rooted(cfg)
    ensures first <= actions && Goes(cfg, s, actions, u) && id in u.store
    ensures var a := Artifact(1, target, content, Sha256(content));
            && (u.store[id].tx.RolledBack? <==> Writable(a) && ReadsBack(a, t.workspace))
            && u.workspace == if Writable(a) then t.workspace[target := content] else t.workspace
  {
    hide Inv, Goes, Writable, ReadsBack;
    var a := Artifact(1, target, content, Sha256(content));
    var t1, t2: State;
    actions, t1 := UndisturbedCompensator(cfg, s, first, t, id, p, target, content, newId);
    actions, t2 := UndisturbedApproval(cfg, s, actions, t1, id, t1.store[id], a, newId);
    actions, u := UndisturbedRestore(cfg, s, actions, t2, id, t2.store[id], a, trace);
  }

  /** The whole of it. A proposal for an action that overwrites an existing file is created,
      approved and applied, and the apply is rolled back, with a tool that does what it is
      handed and nothing in between: the apply goes through and leaves the new text; and the
      rollback leaves the workspace as it was, exactly when the tool accepts the old text and
      the name of the file, and reads the file back where it wrote it. */
  lemma UndisturbedTransaction(cfg: Config, s: State, id: Id, newId: Id, command: string, parameters: Params, max: int,
                               target: string, text: string, t1: Trace, t2: Trace)
      returns (doing: seq<Action>, applied: State, undoing: seq<Action>, undone: State)
    requires Inv(cfg, s) && s.handler == Idle && id !in s.store && newId !in s.store && id != newId
    requires Rooted(cfg) && cfg.allows(command) && 1 <= max <= 10 && t1.ready && t2.ready
    requires Overwrites(cfg, command, parameters, target, text)
    requires t1.sessionRoot.None? || Truthy(Get(parameters, Workdir))
    requires target in s.workspace && Fits(cfg, s.workspace[target])
    ensures Goes(cfg, s, doing, applied) && id in applied.store && applied.store[id].tx.Applied?
    ensures applied.workspace == s.workspace[target := text]
    ensures doing <= undoing && Goes(cfg, s, undoing, undone) && id in undone.store
    ensures var a := Artifact(1, target, s.workspace[target], Sha256(s.workspace[target]));
            && (undone.store[id].tx.RolledBack? <==> Writable(a) && ReadsBack(a, applied.workspace))
            && undone.workspace == if Writable(a) then s.workspace else applied.workspace
  {
    hide Inv, Goes, Overwrites, ReversibleTarget, ApplyParameters, Fits, Writable, ReadsBack, InvocationDigest;
    OverwritesParts(cfg, command, parameters, target, text);
    var content := s.workspace[target];
    var u1, u2: State;
    doing, u1 := UndisturbedStart(cfg, s, id, command, parameters, max, target);
    doing, u2 := UndisturbedCapture(cfg, s, doing, u1, content);
    var a := Artifact(1, target, content, Sha256(content));
    doing, applied := UndisturbedApply(cfg, s, doing, u2, u2.store[id], a, text, t1);
    undoing, undone := UndisturbedRollback(cfg, s, doing, applied, id, applied.store[id], target, content, newId, t2);
    assert s.workspace[target := text][target := content] == s.workspace;
  }

  lemma OverwritesParts(cfg: Config, command: string, parameters: Params, target: string, text: string)
    requires Overwrites(cfg, command, parameters, target, text)
    ensures ReversibleTarget(cfg, ApplyParameters(command, parameters)) == Some(target)
    ensures forall p: Proposal | p.command == command && p.parameters == parameters :: SaysCommand(cfg, p)
  {
  }

  /** For a file named in normal form, an approved `tee` with the file as its argument is such
      an action. */
  lemma PlainTeeOverwrites(cfg: Config, command: string, parameters: Params, target: string, text: string)
    requires Rooted(cfg) && Absolute(target) && Strip(target) == target
    requires ParsePath(cfg.workspaceRoot).root == ParsePath(target).root
    requires ParsePath(cfg.workspaceRoot).parts < ParsePath(target).parts
    requires Strip(command) == "tee" && Command !in parameters
    requires Get(parameters, Args) == Items([Text(target)]) && Get(parameters, StdinText) == Text(text)
    requires Get(parameters, TargetPath) == Text(target) && Get(parameters, StorageScope) == Text("wsl_workspace")
    requires Get(parameters, WriteMode) == Null
    ensures Overwrites(cfg, command, parameters, target, text) <==> '\n' !in target && Utf8Size(text) <= MAX_STDIN
  {
    hide ParsePath, ShowPath, Utf8Size, FileAt, Words, Files, Options, Strip;
    OneFile(target);
    TeeText();
    StripNothing();
    assert command != "" && LowerAscii("tee") == "tee" && LowerAscii("") == "";
    FileIsThere(TextOf(cfg, Get(parameters, Workdir)), target);
  }

  lemma StripNothing()
    ensures Strip("") == ""
  {
  }

  /** A compensation is itself an action that could be compensated, on the same target, in the
      directory of the proposal. */
  lemma CompensationIsReversible(cfg: Config, m: Params, parameters: Params, a: Artifact)
    requires ReversibleTarget(cfg, m) == Some(a.target) && Strip(a.target) == a.target && a.target != ""
    ensures ReversibleTarget(cfg, CompensationParameters(cfg, parameters, a)) == Some(a.target)
    ensures TextOf(cfg, Get(parameters, Workdir)) != "" ==>
              TextOf(cfg, Get(CompensationParameters(cfg, parameters, a), Workdir))
              == TextOf(cfg, Get(parameters, Workdir))
  {
    hide ParsePath, ShowPath, Strip, LowerAscii, CompensationParameters, TextOf;
    CompensationSays(cfg, parameters, a);
    TeeText();
    NotAppend();
    ReversiblePath(cfg, m);
  }

  lemma CompensationSays(cfg: Config, parameters: Params, a: Artifact)
    requires a.target != ""
    ensures var c := CompensationParameters(cfg, parameters, a);
            && TextOf(cfg, Get(c, Command)) == "tee" && TextOf(cfg, Get(c, WriteMode)) == "overwrite"
            && TextOf(cfg, Get(c, TargetPath)) == a.target && TextOf(cfg, Get(c, StorageScope)) == "wsl_workspace"
            && (TextOf(cfg, Get(parameters, Workdir)) != "" ==>
                  TextOf(cfg, Get(c, Workdir)) == TextOf(cfg, Get(parameters, Workdir)))
  {
  }

  lemma NotAppend()
    ensures LowerAscii("tee") == "tee" && LowerAscii("overwrite") == "overwrite" != "append"
  {
  }

  /** The path of a target below the root is parsed as that. */
  lemma ReversiblePath(cfg: Config, m: Params)
    requires ReversibleTarget(cfg, m).Some?
    ensures var path, root := ParsePath(ReversibleTarget(cfg, m).value), ParsePath(cfg.workspaceRoot);
            && ShowPath(path) == ReversibleTarget(cfg, m).value
            && path.root == root.root && root.parts <= path.parts && path != root
  {
    hide ReversibleTarget;
    TargetIsBelowRoot(cfg, m);
  }

  // ---------------------------------------------------------------- what starts, and what ends

  /** An apply starts exactly for a proposal that was approved and never executed, and was not
      applied before or failed then: every other state of a transaction excludes it. */
  lemma ApplyStartsExactly(cfg: Config, s: State, id: Id)
    requires Inv(cfg, s) && s.handler.Idle? && id in s.store
    ensures var p := s.store[id];
            !DoApplyStart(cfg, s, id).handler.Idle?
            <==> p.decision.Approved? && p.invocation.attempts == 0 && (p.tx.NoTx? || p.tx.ApplyFailed?)
  {
    hide GoodDigest, SnapshotOk, HandlerOk, Matches, ReversibleTarget, ApplyParameters;
    assert ProposalOk(cfg, id, FactsOf(s, id));
    EntryOfFacts(s, id);
  }

  /** A rollback starts exactly if the apply went through with a snapshot, none was started
      before, and the disk still has that snapshot, with the text that the target had. */
  lemma RollbackStartsExactly(cfg: Config, s: State, id: Id)
    requires Inv(cfg, s) && s.handler.Idle? && id in s.store
    ensures var p := s.store[id];
            DoRollbackStart(s, id).handler.CompensationPlanned?
            <==> && p.tx.Applied? && p.rollback.supported && p.rollback.state.Captured? && p.rollback.snapshot.Some?
                 && var target := p.rollback.snapshot.value.target;
                    && id in s.before && target in s.before[id] && id in s.artifacts
                    && s.artifacts[id] == Artifact(1, target, s.before[id][target], Sha256(s.before[id][target]))
  {
    hide GoodDigest, HandlerOk, Matches, ReversibleTarget, ApplyParameters;
    assert ProposalOk(cfg, id, FactsOf(s, id));
    EntryOfFacts(s, id);
  }

  /** Any pending proposal can be rejected, and those that the policy allows can be approved. */
  lemma DecidesExactly(cfg: Config, s: State, id: Id, approve: bool)
    requires Inv(cfg, s) && s.handler.Idle? && id in s.store
    ensures var t := DoDecideStart(s, id, approve);
            && id in t.store
            && (t.handler.Deciding? <==> s.store[id].decision.Pending? && (approve ==> s.store[id].policyAllowed))
            && (t.handler.Deciding? ==> t.store[id].decision == if approve then Approved else Rejected)
            && (!t.handler.Deciding? ==> t == s)
  {
    hide Inv;
  }

  /** An authorized invocation begins exactly if its session was looked up, the proposal is not
      executing, and its limit is not used up. */
  lemma InvocationBeginsExactly(cfg: Config, s: State, r: Request, trace: Trace)
    requires Inv(cfg, s) && LoadedIsCurrent(s) && r in s.waiting
    ensures r.id in s.store
    ensures var i, t := s.store[r.id].invocation, DoInvokeBegin(cfg, s, r, trace);
            && (t.direct[r.id] == s.direct[r.id] + 1
                <==> trace.ready && !i.state.Invoking? && i.attempts < s.store[r.id].maxInvocations)
            && (t.direct[r.id] == s.direct[r.id] || t.direct[r.id] == s.direct[r.id] + 1)
  {
    hide ProposalOk, FactsOf, HandlerOk, ExecutionOk, Authorize, Finalized;
    assert Promised(s, r) && Granted(cfg, s, r);
  }

  /** The store shows how the execution that ended last ended, and counts it if it succeeded. */
  lemma EndShows(s: State, id: Id, run: ToolRun)
    requires id in s.direct && id in s.loaded
    ensures var t := DoInvokeEnd(s, id, run);
            && id in t.store && t.workspace == run.after && t.direct == s.direct - multiset{id}
            && t.store[id].invocation.attempts == s.loaded[id].invocation.attempts
            && (run.status.Success? <==> t.store[id].invocation.state.Succeeded?)
            && (run.status.Success? <==> t.store[id].invocation.successes == s.loaded[id].invocation.successes + 1)
            && (!run.status.Success? <==> t.store[id].invocation.state.Failed?)
  {
  }

  /** A snapshot is kept exactly if the file was read, its encoding is within the limit, or one
      byte, and it could be written; and then it is the one that the disk has. */
  lemma CapturedExactly(cfg: Config, s: State, cat: CatRun, written: bool)
    requires s.handler.Preflight? && s.handler.id in Held(s)
    ensures var id, t := s.handler.id, DoApplyCapture(cfg, s, cat, written);
            && id in t.store && t.store[id].tx.Applying?
            && (t.store[id].rollback.supported
                <==> cat.CatText? && written
                     && (Utf8Size(cat.output) <= 1 || Utf8Size(cat.output) <= cfg.maxSnapshotBytes))
            && (t.store[id].rollback.supported ==>
                  && t.store[id].rollback.state.Captured? && t.store[id].rollback.snapshot.Some?
                  && LoadSnapshot(t.artifacts, id, t.store[id].rollback.snapshot.value)
                     == Some(Artifact(1, s.handler.target, cat.output, Sha256(cat.output))))
            && (!t.store[id].rollback.supported ==> t.artifacts == s.artifacts && t.store[id].rollback.snapshot.None?)
  {
  }

  // ---------------------------------------------------------------- the snapshot file

  /** Whatever happened to the disk since a snapshot of `content` was taken: what is loaded is
      that snapshot, and it is loaded exactly when the disk still has it. */
  lemma LoadsOnlyCaptured(disk: map<Id, Artifact>, id: Id, target: string, content: string)
    ensures var captured := Artifact(1, target, content, Sha256(content));
            LoadSnapshot(disk, id, Snapshot(id, target, Sha256(content)))
            == if id in disk && disk[id] == captured then Some(captured) else None
  {
  }

  /** How many values n bytes of UTF-8 have room for: seven bits, or a prefix of n + 1 bits in
      the first byte and of two in each of the others. */
  function Room(n: nat): nat {
    if n == 0 then 0 else if n == 1 then 0x80 else PowerOfTwo(8 * n - (n + 1) - 2 * (n - 1))
  }

  function PowerOfTwo(n: nat): nat {
    if n == 0 then 1 else 2 * PowerOfTwo(n - 1)
  }

  lemma Rooms()
    ensures Room(2) == 0x800 && Room(3) == 0x10000 && Room(4) == 0x200000
  {
    assert PowerOfTwo(5) == 32;
    assert PowerOfTwo(10) == 0x400;
    assert PowerOfTwo(15) == 0x8000;
    assert PowerOfTwo(20) == 0x100000;
  }

  /** The size compared with the limit is that of the shortest encoding of every character. */
  lemma {:induction false} SizeIsShortest(s: string, c: char)
    ensures Utf8Size(s + [c]) > Utf8Size(s)
    ensures var n := Utf8Size(s + [c]) - Utf8Size(s); n <= 4 && Room(n - 1) <= c as int < Room(n)
    ensures Utf8Size("") == 0
  {
    if s == "" {
      assert s + [c] == [c] && [c][1..] == "";
      Rooms();
    } else {
      SizeIsShortest(s[1..], c);
      assert (s + [c])[1..] == s[1..] + [c];
    }
  }
}
