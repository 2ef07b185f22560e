/** The governed-action store as a state machine (app.py:373-454, 2820-3141, 3259-3642).

    One action is one span of a handler between two awaits, a part of one, or a span of the
    thread that creates a compensating proposal, so direct invocations interleave with the spans
    of the one decide, apply or rollback handler that is under way. The server works on a
    dictionary: most spans begin by loading it from the store file and end by saving it there.
    An invocation is authorized on what it loads; after it looked its session up, it begins, and
    later ends, on what was loaded last. A handler may save what it loaded long before.
    The tool, the disk and other writers of the workspace are arbitrary inputs of actions. */
module Governance {
  import opened Basics
  import opened Authorization
  import opened WorkspacePaths

  type Id = string
  /** File texts by normalized path. */
  type Workspace = map<string, string>

  datatype Decision = Pending | Approved | Rejected

  datatype InvocationState = NotInvoked | Invoking | Succeeded | Failed
  datatype Invocation = Invocation(state: InvocationState, attempts: int, successes: int)

  datatype TxState =
    | NoTx | Preparing | Applying | Applied | ApplyFailed
    | RollbackPreparing | RollingBack | RolledBack | RollbackFailed

  datatype CompensationState = Unavailable | Captured | Planned | Started | Restored | NotRestored

  /** The reference kept in the store to a snapshot file. */
  datatype Snapshot = Snapshot(artifact: Id, target: string, digest: Digest<string>)
  datatype Rollback = Rollback(supported: bool, state: CompensationState, snapshot: Option<Snapshot>)

  /** A snapshot file on disk. */
  datatype Artifact = Artifact(schema: int, target: string, content: string, digest: Digest<string>)

  datatype Proposal = Proposal(
    command: string, parameters: Params, digest: Digest<Params>, maxInvocations: int,
    policyAllowed: bool, decision: Decision, invocation: Invocation,
    tx: TxState, rollback: Rollback)
  {
    function Terms(): Approval {
      Approval(command, parameters, digest, decision.Approved?)
    }
  }

  datatype EventKind =
    | ProposalCreated | ProposalDecided
    | InvocationAttempted | InvocationCompleted | InvocationFailed
    | ApplyAttempted | ApplyCompleted | ApplyFailure
    | RollbackAttempted | RollbackCompleted | RollbackFailure
  /** One line of the audit log. */
  datatype Event = Event(kind: EventKind, id: Id)

  type Store = map<Id, Proposal>

  /** The decide, apply or rollback handler under way and where it is suspended. `copy` is the
      dictionary it saves when it resumes, or None while that still is the server's own; `view`
      is what the thread read that adds the compensating proposal. */
  datatype Handler =
    | Idle
    | Deciding(id: Id, copy: Option<Store>)
    | Preflight(id: Id, copy: Option<Store>, target: string)
    | ApplyReady(id: Id)
    | ApplyAuthorized(id: Id, parameters: Params)
    | ApplyRunning(id: Id)
    | CompensationPlanned(id: Id, artifact: Artifact)
    | CompensationCreating(id: Id, view: Store, artifact: Artifact)
    | CompensationCreated(id: Id, compensator: Id, artifact: Artifact)
    | CompensationReady(id: Id, compensator: Id, artifact: Artifact)
    | CompensationAuthorized(id: Id, compensator: Id, artifact: Artifact, parameters: Params)
    | CompensationRunning(id: Id, compensator: Id, artifact: Artifact)

  /** A direct invocation that was authorized and looks its session up. */
  datatype Request = Request(id: Id, parameters: Params)

  /** A tool execution: what was handed to the tool, for which proposal. */
  datatype Execution = Execution(id: Id, parameters: Params, sessionRoot: Option<string>)

  datatype State = State(
    store: Store,                 // the file
    loaded: Store,                // the dictionary of the server
    log: seq<Event>,
    artifacts: map<Id, Artifact>,
    workspace: Workspace,
    handler: Handler,
    waiting: multiset<Request>,   // direct invocations that are authorized and have not begun
    direct: multiset<Id>,         // direct invocations inside the tool
    // history, read by no handler:
    before: map<Id, Workspace>,   // workspace when the latest snapshot of a proposal was taken
    applyRuns: multiset<Id>,      // applies that reached the tool
    executed: seq<Execution>,
    lost: multiset<Event>)        // audit lines cut off by a crash

  const EMPTY := State(map[], map[], [], map[], map[], Idle, multiset{}, multiset{}, map[], multiset{}, [],
                       multiset{})

  /** What the tool reports, and the workspace it leaves. `evidence` is the digest of the
      target read back after a mutation. */
  datatype ToolStatus = Success | Failure | Raised
  datatype ToolRun = ToolRun(status: ToolStatus, verified: bool, evidence: Option<Digest<string>>, after: Workspace)
  datatype CatRun = CatText(output: string) | CatFailed

  /** Request identifier and confined session directory found by an invocation; `ready` is
      false when looking the session up raised. */
  datatype Trace = Trace(ready: bool, id: string, sessionRoot: Option<string>)

  datatype Action =
    | Create(id: Id, command: string, parameters: Params, maxInvocations: int)
    | DecideStart(id: Id, approve: bool)
    | DecideFinish
    | InvokeAuthorize(id: Id, incoming: Params)
    | InvokeBegin(request: Request, trace: Trace)
    | InvokeEnd(id: Id, run: ToolRun)
    | ApplyStart(id: Id)
    | ApplyCapture(cat: CatRun, written: bool)
    | ApplyAuthorize
    | ApplyBegin(trace: Trace)
    | ApplyEnd(run: ToolRun)
    | RollbackStart(id: Id)
    | RollbackLoad
    | RollbackWrite(newId: Id)
    | RollbackApprove
    | RollbackAuthorize
    | RollbackBegin(trace: Trace)
    | RollbackEnd(run: ToolRun)
    | List
    | Crash
    | CrashIn(span: Action, halfway: bool, kept: nat)
    | ForeignWrite(after: Workspace)
    | DiskChange(artifacts: map<Id, Artifact>)

  // ---------------------------------------------------------------- snapshots

  function Utf8Size(s: string): nat {
    if s == "" then 0 else
    var c := s[0] as int;
    (if c < 0x80 then 1 else if c < 0x800 then 2 else if c < 0x10000 then 3 else 4) + Utf8Size(s[1..])
  }

  predicate Fits(cfg: Config, content: string) {
    Utf8Size(content) <= Max(1, cfg.maxSnapshotBytes)
  }

  /** Load a snapshot file through its reference: schema, both digests and target must agree. */
  function LoadSnapshot(artifacts: map<Id, Artifact>, id: Id, ref: Snapshot): Option<Artifact> {
    if ref.artifact != id || id !in artifacts then None
    else
      var a := artifacts[id];
      if a.schema != 1 || Sha256(a.content) != ref.digest || Sha256(a.content) != a.digest || a.target != ref.target
      then None else Some(a)
  }

  // ---------------------------------------------------------------- proposals

  const NO_ROLLBACK := Rollback(false, Unavailable, None)

  function NewProposal(command: string, parameters: Params, maxInvocations: int, allowed: bool): Proposal {
    Proposal(command, parameters, InvocationDigest(command, parameters), maxInvocations, allowed, Pending,
             Invocation(NotInvoked, 0, 0), NoTx, NO_ROLLBACK)
  }

  predicate CanBegin(p: Proposal) {
    !p.invocation.state.Invoking? && p.invocation.attempts < p.maxInvocations
  }

  function Begun(p: Proposal): Proposal {
    p.(invocation := Invocation(Invoking, p.invocation.attempts + 1, p.invocation.successes))
  }

  function Ended(p: Proposal, status: ToolStatus): Proposal {
    var i := p.invocation;
    p.(invocation :=
         if status.Success? then Invocation(Succeeded, i.attempts, i.successes + 1) else i.(state := Failed))
  }

  function EndEvent(id: Id, status: ToolStatus): Event {
    Event(if status.Success? then InvocationCompleted else InvocationFailed, id)
  }

  predicate CanApply(p: Proposal) {
    && p.decision.Approved?
    && p.tx !in {Preparing, Applying, Applied, RollingBack, RolledBack}
    && p.invocation.attempts == 0
  }

  predicate CanRollback(p: Proposal) {
    p.tx.Applied? && p.rollback.supported && p.rollback.state.Captured?
  }

  function ApplyParameters(command: string, parameters: Params): Params {
    if Command in parameters then parameters else parameters[Command := Text(command)]
  }

  /** Parameters of the compensating overwrite. */
  function CompensationParameters(cfg: Config, parameters: Params, a: Artifact): Params {
    var workdir := TextOf(cfg, Get(parameters, Workdir));
    map[Command := Text("tee"), Args := Items([Text(a.target)]), StdinText := Text(a.content),
        TargetPath := Text(a.target), WriteMode := Text("overwrite"), StorageScope := Text("wsl_workspace"),
        Workdir := Text(if workdir == "" then cfg.workspaceRoot else workdir), Source := Text("governance_rollback")]
  }

  /** The compensator as it is created, still to be approved by whoever asked for the rollback. */
  function Compensator(cfg: Config, p: Proposal, a: Artifact): Proposal {
    NewProposal("tee", CompensationParameters(cfg, p.parameters, a), 1, true)
  }

  // ---------------------------------------------------------------- steps

  /** Loading replaces the dictionary of the server; a suspended handler keeps the old one. */
  function Load(s: State): State {
    s.(loaded := s.store, handler := Detached(s.handler, s.loaded))
  }

  function Detached(h: Handler, loaded: Store): Handler {
    match h
    case Deciding(id, None) => Deciding(id, Some(loaded))
    case Preflight(id, None, target) => Preflight(id, Some(loaded), target)
    case _ => h
  }

  /** Between these points a handler, or its thread, saves what it loaded before. */
  predicate HoldsCopy(h: Handler) {
    h.Deciding? || h.Preflight? || h.CompensationCreating?
  }

  function Held(s: State): Store
    requires HoldsCopy(s.handler)
  {
    match s.handler
    case CompensationCreating(_, view, _) => view
    case _ => if s.handler.copy.Some? then s.handler.copy.value else s.loaded
  }

  /** Save a changed entry and append to the audit log. */
  function Put(s: State, id: Id, p: Proposal, events: seq<Event>): State {
    s.(store := s.store[id := p], loaded := s.store[id := p], log := s.log + events)
  }

  function DoCreate(cfg: Config, s: State, id: Id, command: string, parameters: Params, maxInvocations: int): State {
    Put(s, id, NewProposal(command, parameters, maxInvocations, cfg.allows(command)), [Event(ProposalCreated, id)])
  }

  function DoDecideStart(s: State, id: Id, approve: bool): State {
    if !s.handler.Idle? || id !in s.store then s else
    var p := s.store[id];
    if !p.decision.Pending? || (approve && !p.policyAllowed) then s else
    var t := Put(s, id, p.(decision := if approve then Approved else Rejected), [Event(ProposalDecided, id)]);
    t.(handler := Deciding(id, None))
  }

  function DoDecideFinish(s: State): State {
    if s.handler.Deciding? then s.(store := Held(s), handler := Idle) else s
  }

  /** Begin an execution on what is loaded; None when it is refused. */
  function Launch(cfg: Config, s: State, id: Id, authorized: Params, trace: Trace): Option<State> {
    if id !in s.loaded || !trace.ready || !CanBegin(s.loaded[id]) then None else
    var execution := Execution(id, Finalized(cfg, authorized, trace.id, trace.sessionRoot), trace.sessionRoot);
    var t := Put(s.(store := s.loaded), id, Begun(s.loaded[id]), [Event(InvocationAttempted, id)]);
    Some(t.(executed := s.executed + [execution]))
  }

  function DoInvokeAuthorize(cfg: Config, s: State, id: Id, incoming: Params): State {
    if id !in s.store then s else
    var authorized := Authorize(cfg, s.store[id].Terms(), incoming);
    if authorized.Err? then s else s.(waiting := s.waiting + multiset{Request(id, authorized.value)})
  }

  function DoInvokeBegin(cfg: Config, s: State, request: Request, trace: Trace): State {
    if request !in s.waiting then s else
    var waiting := s.waiting - multiset{request};
    var t := Launch(cfg, s, request.id, request.parameters, trace);
    if t.None? then s.(waiting := waiting)
    else t.value.(waiting := waiting, direct := s.direct + multiset{request.id})
  }

  function DoInvokeEnd(s: State, id: Id, run: ToolRun): State {
    if id !in s.direct || id !in s.loaded then s else
    Returned(s, id, run).(direct := s.direct - multiset{id})
  }

  /** The save after the tool returned, which does not load first. */
  function Returned(s: State, id: Id, run: ToolRun): State
    requires id in s.loaded
  {
    Put(s.(store := s.loaded), id, Ended(s.loaded[id], run.status), [EndEvent(id, run.status)]).(workspace := run.after)
  }

  function Prepared(p: Proposal): Proposal {
    p.(tx := Preparing, rollback := NO_ROLLBACK)
  }

  function DoApplyStart(cfg: Config, s: State, id: Id): State {
    if !s.handler.Idle? || id !in s.store || !CanApply(s.store[id]) then s else
    var p := Prepared(s.store[id]);
    var target := ReversibleTarget(cfg, ApplyParameters(p.command, p.parameters));
    if target.None? then
      Put(s, id, p.(tx := Applying), [Event(ApplyAttempted, id)]).(handler := ApplyReady(id))
    else
      Put(s, id, p, []).(handler := Preflight(id, None, target.value))
  }

  function DoApplyCapture(cfg: Config, s: State, cat: CatRun, written: bool): State {
    if !s.handler.Preflight? || s.handler.id !in Held(s) then s else
    var id, target := s.handler.id, s.handler.target;
    var t := s.(store := Held(s));
    var p := t.store[id];
    if cat.CatText? && Fits(cfg, cat.output) && written then
      var digest := Sha256(cat.output);
      var rollback := Rollback(true, Captured, Some(Snapshot(id, target, digest)));
      Put(t, id, p.(tx := Applying, rollback := rollback), [Event(ApplyAttempted, id)])
        .(artifacts := s.artifacts[id := Artifact(1, target, cat.output, digest)],
          before := s.before[id := s.workspace], handler := ApplyReady(id))
    else
      Put(t, id, p.(tx := Applying, rollback := NO_ROLLBACK), [Event(ApplyAttempted, id)]).(handler := ApplyReady(id))
  }

  function ApplyFails(s: State, id: Id): State
    requires id in s.store
  {
    Put(s, id, s.store[id].(tx := ApplyFailed), [Event(ApplyFailure, id)]).(handler := Idle)
  }

  function DoApplyAuthorize(cfg: Config, s: State): State {
    if !s.handler.ApplyReady? || s.handler.id !in s.store then s else
    var id := s.handler.id;
    var incoming := ApplyParameters(s.store[id].command, s.store[id].parameters)[ProposalId := Text(id)];
    var authorized := Authorize(cfg, s.store[id].Terms(), incoming);
    if authorized.Ok? then s.(handler := ApplyAuthorized(id, authorized.value)) else ApplyFails(s, id)
  }

  function DoApplyBegin(cfg: Config, s: State, trace: Trace): State {
    if !s.handler.ApplyAuthorized? || s.handler.id !in s.store then s else
    var ApplyAuthorized(id, parameters) := s.handler;
    var t := Launch(cfg, s, id, parameters, trace);
    if t.Some? then t.value.(handler := ApplyRunning(id), applyRuns := s.applyRuns + multiset{id})
    else ApplyFails(Load(s), id)
  }

  function DoApplyEnd(s: State, run: ToolRun): State {
    if !s.handler.ApplyRunning? || s.handler.id !in s.loaded then s else
    var id := s.handler.id;
    var t := Returned(s, id, run);
    if run.status.Success?
    then Put(t, id, t.store[id].(tx := Applied), [Event(ApplyCompleted, id)]).(handler := Idle)
    else Put(t, id, t.store[id].(tx := ApplyFailed), [Event(ApplyFailure, id)]).(handler := Idle)
  }

  function DoRollbackStart(s: State, id: Id): State {
    if !s.handler.Idle? || id !in s.store || !CanRollback(s.store[id]) then s else
    if s.store[id].rollback.snapshot.None? then s else
    var p := s.store[id];
    var artifact := LoadSnapshot(s.artifacts, id, p.rollback.snapshot.value);
    if artifact.None? then s else
    Put(s, id, p.(tx := RollbackPreparing, rollback := p.rollback.(state := Planned)), [])
      .(handler := CompensationPlanned(id, artifact.value))
  }

  function DoRollbackLoad(s: State): State {
    if !s.handler.CompensationPlanned? then s else
    s.(handler := CompensationCreating(s.handler.id, s.store, s.handler.artifact))
  }

  function DoRollbackWrite(cfg: Config, s: State, newId: Id): State {
    if !s.handler.CompensationCreating? || s.handler.id !in s.handler.view then s else
    var CompensationCreating(id, view, artifact) := s.handler;
    s.(store := view[newId := Compensator(cfg, view[id], artifact)], log := s.log + [Event(ProposalCreated, newId)],
       handler := CompensationCreated(id, newId, artifact))
  }

  /** The handler fails when it does not find the proposal its thread created. */
  function DoRollbackApprove(s: State): State {
    if !s.handler.CompensationCreated? then s else
    var CompensationCreated(id, compensator, artifact) := s.handler;
    if compensator !in s.store || id !in s.store then s.(handler := Idle) else
    var t := Put(s, compensator, s.store[compensator].(decision := Approved), [Event(ProposalDecided, compensator)]);
    var p := t.store[id];
    Put(t, id, p.(tx := RollingBack, rollback := p.rollback.(state := Started)), [Event(RollbackAttempted, id)])
      .(handler := CompensationReady(id, compensator, artifact))
  }

  function RollbackFails(s: State, id: Id): State
    requires id in s.store
  {
    var p := s.store[id];
    Put(s, id, p.(tx := RollbackFailed, rollback := p.rollback.(state := NotRestored)), [Event(RollbackFailure, id)])
      .(handler := Idle)
  }

  function DoRollbackAuthorize(cfg: Config, s: State): State {
    if !s.handler.CompensationReady? || s.handler.id !in s.store then s else
    var CompensationReady(id, compensator, artifact) := s.handler;
    if compensator !in s.store then RollbackFails(s, id) else
    var incoming := CompensationParameters(cfg, s.store[id].parameters, artifact)[ProposalId := Text(compensator)];
    var authorized := Authorize(cfg, s.store[compensator].Terms(), incoming);
    if authorized.Ok? then s.(handler := CompensationAuthorized(id, compensator, artifact, authorized.value))
    else RollbackFails(s, id)
  }

  function DoRollbackBegin(cfg: Config, s: State, trace: Trace): State {
    if !s.handler.CompensationAuthorized? || s.handler.id !in s.store then s else
    var CompensationAuthorized(id, compensator, artifact, parameters) := s.handler;
    var t := Launch(cfg, s, compensator, parameters, trace);
    if t.Some? then t.value.(handler := CompensationRunning(id, compensator, artifact))
    else RollbackFails(Load(s), id)
  }

  function DoRollbackEnd(s: State, run: ToolRun): State {
    if !s.handler.CompensationRunning? || s.handler.id !in s.loaded || s.handler.compensator !in s.loaded then s else
    var CompensationRunning(id, compensator, artifact) := s.handler;
    var t := Returned(s, compensator, run);
    if run.status.Success? && run.verified && run.evidence == Some(artifact.digest) then
      var p := t.store[id];
      Put(t, id, p.(tx := RolledBack, rollback := p.rollback.(state := Restored)), [Event(RollbackCompleted, id)])
        .(handler := Idle)
    else RollbackFails(t, id)
  }

  // ---------------------------------------------------------------- crashes

  /** The server restarts from the file. */
  function Crashed(s: State): State {
    s.(handler := Idle, waiting := multiset{}, direct := multiset{}, loaded := s.store)
  }

  /** The server died in the span from `s` to `t`, after its save and the first `kept` of the
      audit lines that follow. */
  function Cut(s: State, t: State, kept: nat): State {
    var n := if |s.log| + kept < |t.log| then |s.log| + kept else |t.log|;
    Crashed(t).(log := t.log[..n], lost := t.lost + multiset(t.log[n..]))
  }

  /** Spans that save twice, up to their first save and its audit line. */
  function Halfway(s: State, a: Action): State {
    match a
    case ApplyStart(id) =>
      if !s.handler.Idle? || id !in s.store || !CanApply(s.store[id]) then s else Put(s, id, Prepared(s.store[id]), [])
    case ApplyEnd(run) =>
      if s.handler.ApplyRunning? && s.handler.id in s.loaded
      then Returned(s, s.handler.id, run).(handler := Idle) else s
    case RollbackEnd(run) =>
      if s.handler.CompensationRunning? && s.handler.compensator in s.loaded
      then Returned(s, s.handler.compensator, run).(handler := Idle) else s
    case _ => s
  }

  // ---------------------------------------------------------------- runs

  function Span(cfg: Config, s: State, a: Action): State {
    match a
    case Create(id, command, parameters, maxInvocations) =>
      DoCreate(cfg, Load(s), id, command, parameters, maxInvocations)
    case DecideStart(id, approve) => DoDecideStart(Load(s), id, approve)
    case DecideFinish => DoDecideFinish(s)
    case InvokeAuthorize(id, incoming) => DoInvokeAuthorize(cfg, Load(s), id, incoming)
    case InvokeBegin(request, trace) => DoInvokeBegin(cfg, s, request, trace)
    case InvokeEnd(id, run) => DoInvokeEnd(s, id, run)
    case ApplyStart(id) => DoApplyStart(cfg, Load(s), id)
    case ApplyCapture(cat, written) => DoApplyCapture(cfg, s, cat, written)
    case ApplyAuthorize => DoApplyAuthorize(cfg, Load(s))
    case ApplyBegin(trace) => DoApplyBegin(cfg, s, trace)
    case ApplyEnd(run) => DoApplyEnd(s, run)
    case RollbackStart(id) => DoRollbackStart(Load(s), id)
    case RollbackLoad => DoRollbackLoad(s)
    case RollbackWrite(newId) => DoRollbackWrite(cfg, s, newId)
    case RollbackApprove => DoRollbackApprove(Load(s))
    case RollbackAuthorize => DoRollbackAuthorize(cfg, Load(s))
    case RollbackBegin(trace) => DoRollbackBegin(cfg, s, trace)
    case RollbackEnd(run) => DoRollbackEnd(s, run)
    case List => Load(s)
    case Crash => Crashed(s)
    case CrashIn(_, _, _) => s
    case ForeignWrite(after) => s.(workspace := after)
    case DiskChange(artifacts) => s.(artifacts := artifacts)
  }

  function Step(cfg: Config, s: State, a: Action): State {
    if a.CrashIn? then Cut(s, if a.halfway then Halfway(s, a.span) else Span(cfg, s, a.span), a.kept)
    else Span(cfg, s, a)
  }

  /** The span that an action takes, or that is cut off by a crash. */
  function SpanOf(a: Action): Action {
    if a.CrashIn? then a.span else a
  }

  function Run(cfg: Config, s: State, actions: seq<Action>): State
    decreases |actions|
  {
    if actions == [] then s else
    var last := |actions| - 1;
    Step(cfg, Run(cfg, s, actions[..last]), actions[last])
  }

  // ---------------------------------------------------------------- hypotheses on runs

  /** What is saved when an execution begins or ends is what any suspended handler saves later,
      and has the compensating proposal if its thread created it. */
  predicate LoadedIsCurrent(s: State) {
    match s.handler
    case Deciding(_, copy) => copy.None?
    case Preflight(_, copy, _) => copy.None?
    case CompensationCreating(_, _, _) => false
    case CompensationCreated(_, compensator, _) => compensator in s.loaded
    case _ => true
  }

  /** What is assumed of an action: new ids are new and limits are in the accepted range; no
      proposal is added while a handler or its thread holds a copy of the store, and executions
      begin and end on what is current; `cat` returns the file; and the digest reported after
      the compensating write is that of the file. */
  predicate PermittedSpan(s: State, a: Action) {
    match a
    case Create(id, _, _, maxInvocations) => id !in s.store && 1 <= maxInvocations <= 10 && !HoldsCopy(s.handler)
    case InvokeBegin(_, _) => LoadedIsCurrent(s)
    case InvokeEnd(_, _) => LoadedIsCurrent(s)
    case ApplyCapture(cat, _) =>
      s.handler.Preflight? && cat.CatText? ==>
        s.handler.target in s.workspace && s.workspace[s.handler.target] == cat.output
    case RollbackWrite(newId) => newId !in s.store
    case RollbackEnd(run) =>
      s.handler.CompensationRunning? && run.verified ==>
        s.handler.artifact.target in run.after && run.evidence == Some(Sha256(run.after[s.handler.artifact.target]))
    case _ => true
  }

  /** A span that ends an execution of a handler writes its first audit line before its second
      save. */
  predicate Permitted(s: State, a: Action) {
    if a.CrashIn? then
      && PermittedSpan(s, a.span)
      && (!a.halfway && (a.span.ApplyEnd? || a.span.RollbackEnd?) ==> a.kept >= 1)
    else PermittedSpan(s, a)
  }

  predicate PermittedRun(cfg: Config, s: State, actions: seq<Action>)
    decreases |actions|
  {
    actions == [] ||
    var last := |actions| - 1;
    PermittedRun(cfg, s, actions[..last]) && Permitted(Run(cfg, s, actions[..last]), actions[last])
  }
}
