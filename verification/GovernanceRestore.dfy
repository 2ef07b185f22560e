/** Apply then rollback restores the workspace, over every run in between. */
module GovernanceRestore {
  import opened Basics
  import opened PyText
  import opened Authorization
  import opened WorkspacePaths
  import opened Governance
  import opened GovernanceSafety
  import opened GovernanceTheorems

  // ---------------------------------------------------------------- apply then rollback

  /** Two workspaces agree on every path but one. */
  ghost predicate AgreeOff(a: Workspace, b: Workspace, path: string) {
    forall q | q != path :: (q in a <==> q in b) && (q in a ==> a[q] == b[q])
  }

  /** The workspace that a tool or another writer leaves. */
  function Written(a: Action): Option<Workspace> {
    match a
    case InvokeEnd(_, run) => Some(run.after)
    case ApplyEnd(run) => Some(run.after)
    case RollbackEnd(run) => Some(run.after)
    case ForeignWrite(after) => Some(after)
    case _ => None
  }

  /** Whatever this action writes into the workspace, it writes to `path`. */
  ghost predicate WritesOnly(s: State, a: Action, path: string) {
    Written(SpanOf(a)).Some? ==> AgreeOff(Written(SpanOf(a)).value, s.workspace, path)
  }

  ghost predicate WritesOnlyRun(cfg: Config, s: State, actions: seq<Action>, path: string)
    decreases |actions|
  {
    actions == [] ||
    var last := |actions| - 1;
    WritesOnlyRun(cfg, s, actions[..last], path) && WritesOnly(Run(cfg, s, actions[..last]), actions[last], path)
  }

  /** What a transaction of `id` relies on while it is under way: the approved action, the
      workspace its snapshot was taken from, and the workspace off its target. */
  ghost predicate UnderWay(s: State, id: Id, p: Proposal, base: Workspace, path: string) {
    && id in s.store && s.store[id].command == p.command && s.store[id].parameters == p.parameters
    && id in s.before && s.before[id] == base
    && !(s.handler.Preflight? && s.handler.id == id)
    && AgreeOff(s.workspace, base, path)
  }

  /** What the argument needs of a span: where the workspace it leaves comes from, and that
      the base workspace of `id` changes only through a capture for `id`, which only an apply
      of `id` leads to. */
  ghost predicate Framed(s: State, a: Action, t: State, id: Id) {
    && id in s.before && id in t.before && t.before[id] == s.before[id]
    && (a != ApplyStart(id) ==> !(t.handler.Preflight? && t.handler.id == id))
    && (t.workspace == s.workspace || Written(a) == Some(t.workspace))
  }

  lemma InvokeBeginFrame(cfg: Config, s: State, r: Request, trace: Trace, id: Id)
    requires id in s.before && !(s.handler.Preflight? && s.handler.id == id)
    ensures Framed(s, InvokeBegin(r, trace), DoInvokeBegin(cfg, s, r, trace), id)
  {
    hide Launch;
    if Launch(cfg, s, r.id, r.parameters, trace).Some? {
      LaunchFrame(cfg, s, r.id, r.parameters, trace);
    }
  }

  lemma ApplyBeginFrame(cfg: Config, s: State, trace: Trace, id: Id)
    requires id in s.before && !(s.handler.Preflight? && s.handler.id == id)
    ensures Framed(s, ApplyBegin(trace), DoApplyBegin(cfg, s, trace), id)
  {
    hide Launch;
    if s.handler.ApplyAuthorized? && Launch(cfg, s, s.handler.id, s.handler.parameters, trace).Some? {
      LaunchFrame(cfg, s, s.handler.id, s.handler.parameters, trace);
    }
  }

  lemma RollbackBeginFrame(cfg: Config, s: State, trace: Trace, id: Id)
    requires id in s.before && !(s.handler.Preflight? && s.handler.id == id)
    ensures Framed(s, RollbackBegin(trace), DoRollbackBegin(cfg, s, trace), id)
  {
    hide Launch;
    if s.handler.CompensationAuthorized? && Launch(cfg, s, s.handler.compensator, s.handler.parameters, trace).Some? {
      LaunchFrame(cfg, s, s.handler.compensator, s.handler.parameters, trace);
    }
  }

  lemma InvokeAuthorizeFrame(cfg: Config, s: State, requested: Id, incoming: Params, id: Id)
    requires id in s.before && !(s.handler.Preflight? && s.handler.id == id)
    ensures Framed(s, InvokeAuthorize(requested, incoming), DoInvokeAuthorize(cfg, s, requested, incoming), id)
  {
    hide Authorize;
  }

  lemma ApplyAuthorizeFrame(cfg: Config, s: State, id: Id)
    requires id in s.before && !(s.handler.Preflight? && s.handler.id == id)
    ensures Framed(s, ApplyAuthorize, DoApplyAuthorize(cfg, s), id)
  {
    hide Authorize, ApplyParameters;
  }

  lemma RollbackAuthorizeFrame(cfg: Config, s: State, id: Id)
    requires id in s.before && !(s.handler.Preflight? && s.handler.id == id)
    ensures Framed(s, RollbackAuthorize, DoRollbackAuthorize(cfg, s), id)
  {
    hide Authorize, CompensationParameters;
  }

  lemma ApplyStartFrame(cfg: Config, s: State, applied: Id, id: Id)
    requires id in s.before && !(s.handler.Preflight? && s.handler.id == id)
    ensures Framed(s, ApplyStart(applied), DoApplyStart(cfg, s, applied), id)
  {
    hide ReversibleTarget, ApplyParameters;
  }

  lemma ApplyCaptureFrame(cfg: Config, s: State, cat: CatRun, written: bool, id: Id)
    requires id in s.before && !(s.handler.Preflight? && s.handler.id == id)
    ensures Framed(s, ApplyCapture(cat, written), DoApplyCapture(cfg, s, cat, written), id)
  {
    hide Fits;
  }

  lemma ApplyEndFrame(s: State, run: ToolRun, id: Id)
    requires id in s.before && !(s.handler.Preflight? && s.handler.id == id)
    ensures Framed(s, ApplyEnd(run), DoApplyEnd(s, run), id)
  {
    hide Put;
    if s.handler.ApplyRunning? && s.handler.id in s.loaded {
      var t := s.(store := s.loaded);
      PutLeaves(t, s.handler.id, Ended(s.loaded[s.handler.id], run.status), [EndEvent(s.handler.id, run.status)]);
      var u := Returned(s, s.handler.id, run);
      PutLeaves(u, s.handler.id, u.store[s.handler.id].(tx := Applied), [Event(ApplyCompleted, s.handler.id)]);
      PutLeaves(u, s.handler.id, u.store[s.handler.id].(tx := ApplyFailed), [Event(ApplyFailure, s.handler.id)]);
    }
  }

  lemma PutLeaves(s: State, id: Id, p: Proposal, events: seq<Event>)
    ensures var t := Put(s, id, p, events);
            id in t.store && t.before == s.before && t.workspace == s.workspace && t.handler == s.handler
  {
  }

  lemma RollbackEndFrame(s: State, run: ToolRun, id: Id)
    requires id in s.before && !(s.handler.Preflight? && s.handler.id == id)
    ensures Framed(s, RollbackEnd(run), DoRollbackEnd(s, run), id)
  {
    hide Ended, EndEvent;
  }

  lemma DecideFrame(s: State, decided: Id, approve: bool, id: Id)
    requires id in s.before && !(s.handler.Preflight? && s.handler.id == id)
    ensures Framed(s, DecideStart(decided, approve), DoDecideStart(s, decided, approve), id)
  {
  }

  lemma InvokeEndFrame(s: State, ended: Id, run: ToolRun, id: Id)
    requires id in s.before && !(s.handler.Preflight? && s.handler.id == id)
    ensures Framed(s, InvokeEnd(ended, run), DoInvokeEnd(s, ended, run), id)
  {
    hide Ended, EndEvent;
  }

  lemma RollbackStartFrame(s: State, started: Id, id: Id)
    requires id in s.before && !(s.handler.Preflight? && s.handler.id == id)
    ensures Framed(s, RollbackStart(started), DoRollbackStart(s, started), id)
  {
    hide LoadSnapshot;
  }

  lemma RollbackWriteFrame(cfg: Config, s: State, newId: Id, id: Id)
    requires id in s.before && !(s.handler.Preflight? && s.handler.id == id)
    ensures Framed(s, RollbackWrite(newId), DoRollbackWrite(cfg, s, newId), id)
  {
    hide Compensator;
  }

  lemma ApproveFrame(s: State, id: Id)
    requires id in s.before && !(s.handler.Preflight? && s.handler.id == id)
    ensures Framed(s, RollbackApprove, DoRollbackApprove(s), id)
  {
  }

  lemma CreateFrame(cfg: Config, s: State, newId: Id, command: string, parameters: Params, max: int, id: Id)
    requires id in s.before && !(s.handler.Preflight? && s.handler.id == id)
    ensures Framed(s, Create(newId, command, parameters, max),
                   DoCreate(cfg, s, newId, command, parameters, max), id)
  {
    hide NewProposal;
  }

  lemma HandlerFrame(s: State, id: Id)
    requires id in s.before && !(s.handler.Preflight? && s.handler.id == id)
    ensures Framed(s, DecideFinish, DoDecideFinish(s), id) && Framed(s, RollbackLoad, DoRollbackLoad(s), id)
    ensures Framed(s, List, Load(s), id)
  {
  }

  lemma CrashFrame(s: State, id: Id)
    requires id in s.before
    ensures Framed(s, Crash, Crashed(s), id)
  {
  }

  lemma OutsideFrame(s: State, workspace: Workspace, artifacts: map<Id, Artifact>, id: Id)
    requires id in s.before && !(s.handler.Preflight? && s.handler.id == id)
    ensures Framed(s, ForeignWrite(workspace), s.(workspace := workspace), id)
    ensures Framed(s, DiskChange(artifacts), s.(artifacts := artifacts), id)
  {
  }

  lemma NothingFrame(s: State, a: Action, id: Id)
    requires id in s.before && !(s.handler.Preflight? && s.handler.id == id)
    ensures Framed(s, a, s, id)
  {
  }

  lemma FramedLoaded(s: State, a: Action, t: State, id: Id)
    ensures Framed(Load(s), a, t, id) ==> Framed(s, a, t, id)
    ensures Load(s).before == s.before
    ensures Load(s).handler.Preflight? && Load(s).handler.id == id <==> s.handler.Preflight? && s.handler.id == id
  {
  }

  lemma RollbackSpanFrame(cfg: Config, s: State, a: Action, id: Id)
    requires id in s.before && !(s.handler.Preflight? && s.handler.id == id)
    requires a.RollbackStart? || a.RollbackLoad? || a.RollbackWrite? || a.RollbackApprove? || a.RollbackAuthorize?
          || a.RollbackBegin? || a.RollbackEnd?
    ensures Framed(s, a, Span(cfg, s, a), id)
  {
    FramedLoaded(s, a, Span(cfg, s, a), id);
    hide Framed, Load, DoRollbackStart, DoRollbackLoad, DoRollbackWrite, DoRollbackApprove, DoRollbackAuthorize,
      DoRollbackBegin, DoRollbackEnd;
    match a
    case RollbackAuthorize => RollbackAuthorizeFrame(cfg, Load(s), id);
    case RollbackBegin(trace) => RollbackBeginFrame(cfg, s, trace, id);
    case RollbackStart(started) => RollbackStartFrame(Load(s), started, id);
    case RollbackWrite(newId) => RollbackWriteFrame(cfg, s, newId, id);
    case RollbackApprove => ApproveFrame(Load(s), id);
    case RollbackEnd(run) => RollbackEndFrame(s, run, id);
    case RollbackLoad => HandlerFrame(s, id);
  }

  lemma ApplySpanFrame(cfg: Config, s: State, a: Action, id: Id)
    requires id in s.before && !(s.handler.Preflight? && s.handler.id == id)
    requires a.ApplyStart? || a.ApplyCapture? || a.ApplyAuthorize? || a.ApplyBegin? || a.ApplyEnd?
    ensures Framed(s, a, Span(cfg, s, a), id)
  {
    FramedLoaded(s, a, Span(cfg, s, a), id);
    hide Framed, Load, DoApplyStart, DoApplyCapture, DoApplyAuthorize, DoApplyBegin, DoApplyEnd;
    match a
    case ApplyAuthorize => ApplyAuthorizeFrame(cfg, Load(s), id);
    case ApplyBegin(trace) => ApplyBeginFrame(cfg, s, trace, id);
    case ApplyStart(applied) => ApplyStartFrame(cfg, Load(s), applied, id);
    case ApplyCapture(cat, written) => ApplyCaptureFrame(cfg, s, cat, written, id);
    case ApplyEnd(run) => ApplyEndFrame(s, run, id);
  }

  lemma OtherSpanFrame(cfg: Config, s: State, a: Action, id: Id)
    requires id in s.before && !(s.handler.Preflight? && s.handler.id == id)
    requires a.List? || a.Crash? || a.CrashIn? || a.ForeignWrite? || a.DiskChange? || a.DecideFinish?
    ensures Framed(s, a, Span(cfg, s, a), id)
  {
    hide Framed, Load, DoDecideFinish, Crashed;
    match a
    case DecideFinish => HandlerFrame(s, id);
    case List => HandlerFrame(s, id);
    case Crash => CrashFrame(s, id);
    case ForeignWrite(after) => OutsideFrame(s, after, s.artifacts, id);
    case DiskChange(artifacts) => OutsideFrame(s, s.workspace, artifacts, id);
    case CrashIn(_, _, _) => NothingFrame(s, a, id);
  }

  lemma RequestSpanFrame(cfg: Config, s: State, a: Action, id: Id)
    requires id in s.before && !(s.handler.Preflight? && s.handler.id == id)
    requires a.Create? || a.DecideStart? || a.InvokeAuthorize? || a.InvokeBegin? || a.InvokeEnd?
    ensures Framed(s, a, Span(cfg, s, a), id)
  {
    FramedLoaded(s, a, Span(cfg, s, a), id);
    hide Framed, Load, DoCreate, DoDecideStart, DoInvokeAuthorize, DoInvokeBegin, DoInvokeEnd;
    match a
    case InvokeAuthorize(requested, incoming) => InvokeAuthorizeFrame(cfg, Load(s), requested, incoming, id);
    case InvokeBegin(request, trace) => InvokeBeginFrame(cfg, s, request, trace, id);
    case DecideStart(decided, approve) => DecideFrame(Load(s), decided, approve, id);
    case InvokeEnd(ended, run) => InvokeEndFrame(s, ended, run, id);
    case Create(newId, command, parameters, max) => CreateFrame(cfg, Load(s), newId, command, parameters, max, id);
  }

  lemma SpanFrame(cfg: Config, s: State, a: Action, id: Id)
    requires id in s.before && !(s.handler.Preflight? && s.handler.id == id)
    ensures Framed(s, a, Span(cfg, s, a), id)
  {
    hide Framed, Span;
    if a.Create? || a.DecideStart? || a.InvokeAuthorize? || a.InvokeBegin? || a.InvokeEnd? {
      RequestSpanFrame(cfg, s, a, id);
    } else if a.ApplyStart? || a.ApplyCapture? || a.ApplyAuthorize? || a.ApplyBegin? || a.ApplyEnd? {
      ApplySpanFrame(cfg, s, a, id);
    } else if a.List? || a.Crash? || a.CrashIn? || a.ForeignWrite? || a.DiskChange? || a.DecideFinish? {
      OtherSpanFrame(cfg, s, a, id);
    } else {
      RollbackSpanFrame(cfg, s, a, id);
    }
  }

  lemma CutFrame(cfg: Config, s: State, a: Action, id: Id)
    requires id in s.before && a.CrashIn?
    requires Framed(s, a.span, Span(cfg, s, a.span), id)
    ensures var t := Step(cfg, s, a);
            && id in t.before && t.before[id] == s.before[id] && t.handler.Idle?
            && (t.workspace == s.workspace || Written(a.span) == Some(t.workspace))
  {
    hide Span, Ended, EndEvent;
  }

  lemma StepFrame(cfg: Config, s: State, a: Action, id: Id)
    requires id in s.before && !(s.handler.Preflight? && s.handler.id == id)
    requires a != ApplyStart(id)
    ensures Framed(s, SpanOf(a), Step(cfg, s, a), id)
  {
    hide Span, Cut, Halfway;
    var b := SpanOf(a);
    SpanFrame(cfg, s, b, id);
    if a.CrashIn? {
      CutFrame(cfg, s, a, id);
    }
  }

  lemma StillAgrees(s: State, a: Action, t: State, id: Id, base: Workspace, path: string)
    requires Framed(s, SpanOf(a), t, id) && WritesOnly(s, a, path) && AgreeOff(s.workspace, base, path)
    ensures AgreeOff(t.workspace, base, path)
  {
    forall q | q != path ensures (q in t.workspace <==> q in base) && (q in base ==> t.workspace[q] == base[q]) {
      assert (q in s.workspace <==> q in base) && (q in base ==> s.workspace[q] == base[q]);
    }
  }

  lemma TermsStay(cfg: Config, s: State, t: State, id: Id)
    requires Keeps(cfg, s, t) && id in s.store
    ensures id in t.store
    ensures t.store[id].command == s.store[id].command && t.store[id].parameters == s.store[id].parameters
  {
    hide Inv;
  }

  lemma StepIdles(cfg: Config, s: State, a: Action)
    ensures a.CrashIn? ==> Step(cfg, s, a).handler.Idle?
  {
    hide Span, Halfway;
  }

  lemma StepUnderWay(cfg: Config, s: State, a: Action, id: Id, p: Proposal, base: Workspace, path: string)
    requires Inv(cfg, s) && Permitted(s, a) && UnderWay(s, id, p, base, path)
    requires a != ApplyStart(id) && WritesOnly(s, a, path)
    ensures UnderWay(Step(cfg, s, a), id, p, base, path)
  {
    hide Step, Inv, Permitted, AgreeOff, WritesOnly, Keeps;
    StepFrame(cfg, s, a, id);
    StepIdles(cfg, s, a);
    StepKeeps(cfg, s, a);
    TermsStay(cfg, s, Step(cfg, s, a), id);
    StillAgrees(s, a, Step(cfg, s, a), id, base, path);
  }

  lemma {:induction false} RunUnderWay(cfg: Config, s: State, actions: seq<Action>, id: Id, p: Proposal,
                                       base: Workspace, path: string)
    requires Inv(cfg, s) && PermittedRun(cfg, s, actions) && UnderWay(s, id, p, base, path)
    requires ApplyStart(id) !in actions && WritesOnlyRun(cfg, s, actions, path)
    ensures Inv(cfg, Run(cfg, s, actions)) && UnderWay(Run(cfg, s, actions), id, p, base, path)
    decreases |actions|
  {
    hide Step, Inv, Permitted, UnderWay, WritesOnly;
    if actions != [] {
      var last := |actions| - 1;
      RunUnderWay(cfg, s, actions[..last], id, p, base, path);
      StepUnderWay(cfg, Run(cfg, s, actions[..last]), actions[last], id, p, base, path);
      RunKeeps(cfg, s, actions);
    }
  }

  lemma CaptureStarts(cfg: Config, s: State, cat: CatRun)
    requires Inv(cfg, s) && s.handler.Preflight? && cat.CatText? && Fits(cfg, cat.output)
    ensures s.handler.id in s.store
    ensures UnderWay(DoApplyCapture(cfg, s, cat, true), s.handler.id, s.store[s.handler.id], s.workspace,
                     s.handler.target)
    ensures ReversibleTarget(cfg, ApplyParameters(s.store[s.handler.id].command, s.store[s.handler.id].parameters))
         == Some(s.handler.target)
  {
    hide ProposalOk, Matches, ReversibleTarget, ApplyParameters, Fits, FactsOf;
  }

  /** Apply then rollback is the identity on the workspace. `s1` is the state right after the
      snapshot of a preflight was captured in `s`, and `s2` the one before the compensating
      execution returns. In between, let other requests, crashes and disk changes happen in
      any order, and let every write of the workspace, by the tool or by anyone, fall on the
      target: if the rollback ends in `rolled_back`, every path holds what it held before the
      apply. */
  lemma {:induction false} ApplyThenRollbackIsIdentity(cfg: Config, s: State, s1: State, actions: seq<Action>,
                                                       s2: State, run: ToolRun)
    requires Inv(cfg, s) && s.handler.Preflight? && s.handler.target in s.workspace
    requires Fits(cfg, s.workspace[s.handler.target])
    requires s1 == DoApplyCapture(cfg, s, CatText(s.workspace[s.handler.target]), true)
    requires ApplyStart(s.handler.id) !in actions
    requires PermittedRun(cfg, s1, actions) && WritesOnlyRun(cfg, s1, actions, s.handler.target)
    requires s2 == Run(cfg, s1, actions) && s2.handler.CompensationRunning? && s2.handler.id == s.handler.id
    requires Permitted(s2, RollbackEnd(run)) && AgreeOff(run.after, s2.workspace, s.handler.target)
    requires s.handler.id in DoRollbackEnd(s2, run).store && DoRollbackEnd(s2, run).store[s.handler.id].tx.RolledBack?
    ensures DoRollbackEnd(s2, run).workspace == s.workspace
  {
    hide Inv, Run, PermittedRun, WritesOnlyRun, ReversibleTarget, DoApplyCapture, DoRollbackEnd, ApplyParameters, Fits;
    var cat := CatText(s.workspace[s.handler.target]);
    CaptureStarts(cfg, s, cat);
    var id, target, p := s.handler.id, s.handler.target, s.store[s.handler.id];
    ApplyCaptureKeeps(cfg, s, cat, true);
    assert Keeps(cfg, s, s1);
    RunUnderWay(cfg, s1, actions, id, p, s.workspace, target);
    RunKeeps(cfg, s1, actions);
    RolledBackRestoresTarget(cfg, s2, run);
    RollbackEndShape(cfg, s2, run);
    SameWorkspace(DoRollbackEnd(s2, run).workspace, s.workspace, s2.workspace, target);
  }

  lemma SameWorkspace(a: Workspace, b: Workspace, between: Workspace, path: string)
    requires AgreeOff(a, between, path) && AgreeOff(between, b, path)
    requires path in a && path in b && a[path] == b[path]
    ensures a == b
  {
    forall q ensures (q in a <==> q in b) && (q in a ==> a[q] == b[q]) {
      assert q != path ==> (q in a <==> q in between) && (q in between <==> q in b);
    }
  }
}
