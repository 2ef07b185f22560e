/** What becomes of an invocation limit when other requests update the store while a handler,
    or its thread, holds a copy of it: the hypothesis that runs are permitted rules this out,
    the code does not. */
module GovernanceWindows {
  import opened Basics
  import opened PyText
  import opened Authorization
  import opened WorkspacePaths
  import opened Governance
  import opened GovernanceSafety
  import opened GovernanceTheorems

  // ---------------------------------------------------------------- the window

  /** Executions of a proposal that were started, by the audit lines due. */
  function Started(s: State, id: Id): nat {
    Tally(s, InvocationAttempted, id)
  }

  /** The action with which the suspended handler, or its thread, saves its copy. */
  predicate Resumes(h: Handler, a: Action) {
    match h
    case Deciding(_, _) => a.DecideFinish?
    case Preflight(_, _, _) => a.ApplyCapture?
    case CompensationCreating(_, _, _) => a.RollbackWrite?
    case _ => false
  }

  /** What other requests and the surroundings do; new ids are new. */
  predicate Elsewhere(a: Action, id: Id) {
    || a.InvokeAuthorize? || a.InvokeBegin? || a.InvokeEnd? || a.List? || a.ForeignWrite? || a.DiskChange?
    || (a.Create? && a.id != id)
  }

  ghost predicate WindowRun(actions: seq<Action>, id: Id) {
    forall a | a in actions :: Elsewhere(a, id)
  }

  /** Only how often the proposal was invoked, and with what outcome, may differ. */
  predicate SameTerms(p: Proposal, q: Proposal) {
    q == p.(invocation := q.invocation)
  }

  /** The held copy is no longer the dictionary of the server. */
  predicate Apart(h: Handler) {
    h.CompensationCreating? || (h.Deciding? && h.copy.Some?) || (h.Preflight? && h.copy.Some?)
  }

  /** How many executions of a proposal were started while the held copy was apart. */
  ghost function StartedApart(cfg: Config, s: State, window: seq<Action>, id: Id): nat
    decreases |window|
  {
    if window == [] then 0 else
    var last := |window| - 1;
    var u := Run(cfg, s, window[..last]);
    StartedApart(cfg, s, window[..last], id) + NewApart(u, Step(cfg, u, window[last]), id)
  }

  function NewApart(s: State, t: State, id: Id): nat {
    if Apart(s.handler) && Started(t, id) > Started(s, id) then Started(t, id) - Started(s, id) else 0
  }

  /** The copy held since `s0` lacks `n` of the attempts of now. */
  ghost predicate CopyKept(s0: State, s: State, id: Id, n: nat) {
    && HoldsCopy(s.handler)
    && (s.handler.Deciding? <==> s0.handler.Deciding?) && (s.handler.Preflight? <==> s0.handler.Preflight?)
    && s.loaded == s.store && id in s0.store && s0.store.Keys <= Held(s).Keys
    && (s.handler.Deciding? || s.handler.id in Held(s))
    && SameTerms(s0.store[id], Held(s)[id])
    && Held(s)[id].invocation.attempts + n == Started(s, id)
  }

  /** The store has them all. */
  ghost predicate Counted(s0: State, s: State, id: Id) {
    && id in s0.store && id in s.store && SameTerms(s0.store[id], s.store[id])
    && Started(s, id) == s.store[id].invocation.attempts <= s.store[id].maxInvocations
    && InFlight(s, id) <= Bit(s.store[id].invocation.state.Invoking?)
  }

  /** Some request was authorized to start the proposal. */
  ghost predicate Grants(cfg: Config, p: Proposal) {
    exists incoming :: Authorize(cfg, p.Terms(), incoming).Ok?
  }

  /** Who waits to start the proposal was authorized on the same terms. */
  ghost predicate WaitingGranted(cfg: Config, s0: State, s: State, id: Id) {
    forall r | r in s.waiting && r.id == id :: id in s0.store && Grants(cfg, s0.store[id])
  }

  ghost predicate InWindow(cfg: Config, s0: State, s: State, id: Id, n: nat) {
    && CopyKept(s0, s, id, n) && Counted(s0, s, id) && WaitingGranted(cfg, s0, s, id)
    && (n == 0 ==> InFlight(s, id) <= Bit(Held(s)[id].invocation.state.Invoking?))
    && (n > 0 ==> Grants(cfg, s0.store[id]))
  }

  lemma WindowOpens(cfg: Config, s: State, id: Id)
    requires Inv(cfg, s) && HoldsCopy(s.handler) && id in s.store
    ensures InWindow(cfg, s, s, id, 0) && Started(s, id) == s.store[id].invocation.attempts
  {
    hide GoodDigest, SnapshotOk, Matches, ReversibleTarget, ApplyParameters, ArtifactOk, Authorize;
    assert ProposalOk(cfg, id, FactsOf(s, id));
    forall r | r in s.waiting && r.id == id ensures Grants(cfg, s.store[id]) {
      assert Granted(cfg, s, r);
    }
  }

  lemma LoadInWindow(cfg: Config, s0: State, s: State, id: Id, n: nat)
    requires InWindow(cfg, s0, s, id, n)
    ensures InWindow(cfg, s0, Load(s), id, n) && Started(Load(s), id) == Started(s, id) && Apart(Load(s).handler)
  {
    hide Grants;
  }

  lemma AuthorizeInWindow(cfg: Config, s0: State, s: State, requested: Id, incoming: Params, id: Id, n: nat)
    requires InWindow(cfg, s0, s, id, n) && Apart(s.handler)
    ensures var t := DoInvokeAuthorize(cfg, s, requested, incoming);
            InWindow(cfg, s0, t, id, n) && Started(t, id) == Started(s, id)
  {
    hide Authorize, Due;
    if requested == id && Authorize(cfg, s.store[id].Terms(), incoming).Ok? {
      assert s.store[id].Terms() == s0.store[id].Terms();
      assert Grants(cfg, s0.store[id]);
    }
  }

  /** Once apart, the copy does not follow the store. */
  lemma StaysBehind(s0: State, s: State, t: State, id: Id, n: nat)
    requires CopyKept(s0, s, id, n) && Apart(s.handler) && t.handler == s.handler && t.loaded == t.store
    requires Started(t, id) >= Started(s, id)
    ensures CopyKept(s0, t, id, n + Started(t, id) - Started(s, id)) && Held(t) == Held(s)
  {
    hide Started, SameTerms;
  }

  /** Until then it is what is saved. */
  lemma Follows(s0: State, s: State, t: State, id: Id, n: nat)
    requires CopyKept(s0, s, id, n) && !Apart(s.handler) && Counted(s0, s, id)
    requires t.handler == s.handler && t.loaded == t.store && Counted(s0, t, id) && s.store.Keys <= t.store.Keys
    ensures n == 0 && CopyKept(s0, t, id, 0) && Held(t) == t.store
  {
    hide Started, SameTerms, InFlight;
  }

  lemma BegunIsCounted(cfg: Config, s0: State, s: State, r: Request, trace: Trace, id: Id)
    requires Counted(s0, s, id) && s.loaded == s.store
    ensures var t := DoInvokeBegin(cfg, s, r, trace);
            && Counted(s0, t, id) && t.handler == s.handler && t.loaded == t.store && s.store.Keys <= t.store.Keys
            && t.waiting <= s.waiting
            && ((Started(t, id) == Started(s, id) && InFlight(t, id) == InFlight(s, id))
                || (Started(t, id) == Started(s, id) + 1 && r.id == id && r in s.waiting
                    && t.store[id].invocation.state.Invoking?))
  {
    hide Launch, Due;
    if r in s.waiting && Launch(cfg, s, r.id, r.parameters, trace).Some? {
      LaunchFrame(cfg, s, r.id, r.parameters, trace);
      var t := DoInvokeBegin(cfg, s, r, trace);
      LogGrows(s, t, [Event(InvocationAttempted, r.id)], InvocationAttempted, id);
    }
  }

  lemma BeginInWindow(cfg: Config, s0: State, s: State, r: Request, trace: Trace, id: Id, n: nat)
    requires InWindow(cfg, s0, s, id, n)
    ensures var t := DoInvokeBegin(cfg, s, r, trace);
            InWindow(cfg, s0, t, id, n + NewApart(s, t, id)) && Started(t, id) >= Started(s, id)
  {
    hide CopyKept, Counted, Started, InFlight, DoInvokeBegin, Grants;
    HeldIn(s0, s, id, n);
    BegunIsCounted(cfg, s0, s, r, trace, id);
    var t := DoInvokeBegin(cfg, s, r, trace);
    if Apart(s.handler) {
      StaysBehind(s0, s, t, id, n);
    } else {
      Follows(s0, s, t, id, n);
      CountedInFlight(s0, t, id);
    }
  }

  lemma CountedInFlight(s0: State, s: State, id: Id)
    requires Counted(s0, s, id)
    ensures id in s.store && InFlight(s, id) <= Bit(s.store[id].invocation.state.Invoking?)
  {
  }

  lemma EndIsNoAttempt(ended: Id, status: ToolStatus, id: Id)
    ensures multiset([EndEvent(ended, status)])[Event(InvocationAttempted, id)] == 0
  {
  }

  lemma EndIsCounted(s0: State, s: State, ended: Id, run: ToolRun, id: Id)
    requires Counted(s0, s, id) && s.loaded == s.store
    ensures var t := DoInvokeEnd(s, ended, run);
            && Counted(s0, t, id) && t.handler == s.handler && t.loaded == t.store && s.store.Keys <= t.store.Keys
            && t.waiting == s.waiting && Started(t, id) == Started(s, id) && InFlight(t, id) <= InFlight(s, id)
  {
    hide Due, EndEvent;
    if ended in s.direct && ended in s.loaded {
      EndIsNoAttempt(ended, run.status, id);
      LogGrows(s, DoInvokeEnd(s, ended, run), [EndEvent(ended, run.status)], InvocationAttempted, id);
    }
  }

  lemma EndInWindow(cfg: Config, s0: State, s: State, ended: Id, run: ToolRun, id: Id, n: nat)
    requires InWindow(cfg, s0, s, id, n)
    ensures var t := DoInvokeEnd(s, ended, run);
            InWindow(cfg, s0, t, id, n) && Started(t, id) == Started(s, id)
  {
    hide CopyKept, Counted, Started, InFlight, DoInvokeEnd, Grants;
    HeldIn(s0, s, id, n);
    EndIsCounted(s0, s, ended, run, id);
    var t := DoInvokeEnd(s, ended, run);
    if Apart(s.handler) {
      StaysBehind(s0, s, t, id, n);
    } else {
      Follows(s0, s, t, id, n);
      CountedInFlight(s0, t, id);
    }
  }

  lemma HeldIn(s0: State, s: State, id: Id, n: nat)
    requires CopyKept(s0, s, id, n)
    ensures HoldsCopy(s.handler) && s.loaded == s.store && id in s0.store && id in Held(s)
  {
  }

  lemma CreateInWindow(cfg: Config, s0: State, s: State, a: Action, id: Id, n: nat)
    requires InWindow(cfg, s0, s, id, n) && a.Create? && a.id != id && Apart(s.handler)
    ensures var t := DoCreate(cfg, s, a.id, a.command, a.parameters, a.maxInvocations);
            InWindow(cfg, s0, t, id, n) && Started(t, id) == Started(s, id)
  {
    hide Due, NewProposal, Grants;
    var t := DoCreate(cfg, s, a.id, a.command, a.parameters, a.maxInvocations);
    LogGrows(s, t, [Event(ProposalCreated, a.id)], InvocationAttempted, id);
  }

  lemma OutsideInWindow(cfg: Config, s0: State, s: State, workspace: Workspace, artifacts: map<Id, Artifact>, id: Id,
                        n: nat)
    requires InWindow(cfg, s0, s, id, n)
    ensures var t := s.(workspace := workspace, artifacts := artifacts);
            InWindow(cfg, s0, t, id, n) && Started(t, id) == Started(s, id)
  {
    hide Grants;
  }

  lemma StepInWindow(cfg: Config, s0: State, s: State, a: Action, id: Id, n: nat)
    requires InWindow(cfg, s0, s, id, n) && Elsewhere(a, id)
    ensures var t := Step(cfg, s, a);
            InWindow(cfg, s0, t, id, n + NewApart(s, t, id)) && Started(t, id) >= Started(s, id)
  {
    hide InWindow, Started, DoCreate, DoInvokeAuthorize, DoInvokeBegin, DoInvokeEnd, Load;
    LoadInWindow(cfg, s0, s, id, n);
    var l := Load(s);
    match a
    case InvokeAuthorize(requested, incoming) => AuthorizeInWindow(cfg, s0, l, requested, incoming, id, n);
    case InvokeBegin(request, trace) => BeginInWindow(cfg, s0, s, request, trace, id, n);
    case InvokeEnd(ended, run) => EndInWindow(cfg, s0, s, ended, run, id, n);
    case Create(_, _, _, _) => CreateInWindow(cfg, s0, l, a, id, n);
    case ForeignWrite(after) => OutsideInWindow(cfg, s0, s, after, s.artifacts, id, n);
    case DiskChange(artifacts) => OutsideInWindow(cfg, s0, s, s.workspace, artifacts, id, n);
    case _ =>
  }

  lemma {:induction false} RunInWindow(cfg: Config, s: State, window: seq<Action>, id: Id)
    requires InWindow(cfg, s, s, id, 0) && WindowRun(window, id)
    ensures InWindow(cfg, s, Run(cfg, s, window), id, StartedApart(cfg, s, window, id))
    decreases |window|
  {
    hide InWindow, Step, Started, Elsewhere, NewApart;
    if window != [] {
      var last := |window| - 1;
      RunInWindow(cfg, s, window[..last], id);
      StepInWindow(cfg, s, Run(cfg, s, window[..last]), window[last], id, StartedApart(cfg, s, window[..last], id));
    }
  }

  /** Saving the copy puts the attempts of then into the store; the server goes on with those
      of now until it loads again. */
  ghost predicate Overwritten(s0: State, s: State, t: State, id: Id)
    requires HoldsCopy(s.handler) && id in s0.store && id in s.store && id in Held(s)
  {
    && id in t.store && t.store[id].invocation == Held(s)[id].invocation
    && t.store[id].Terms() == s0.store[id].Terms() && t.store[id].maxInvocations == s0.store[id].maxInvocations
    && id in t.loaded && t.loaded[id].invocation in {s.store[id].invocation, t.store[id].invocation}
    && t.loaded[id].maxInvocations == s0.store[id].maxInvocations
    && Started(t, id) == Started(s, id) && t.direct == s.direct
    && (t.handler.Idle? || t.handler.ApplyReady?
        || (t.handler.CompensationCreated? && t.handler.compensator in t.store))
  }

  lemma CaptureSaves(cfg: Config, s0: State, s: State, cat: CatRun, written: bool, id: Id, n: nat)
    requires InWindow(cfg, s0, s, id, n) && s.handler.Preflight?
    ensures Overwritten(s0, s, DoApplyCapture(cfg, s, cat, written), id)
  {
    hide Due, Fits, Grants;
    LogGrows(s, DoApplyCapture(cfg, s, cat, written), [Event(ApplyAttempted, s.handler.id)], InvocationAttempted, id);
  }

  lemma WriteSaves(cfg: Config, s0: State, s: State, newId: Id, id: Id, n: nat)
    requires InWindow(cfg, s0, s, id, n) && s.handler.CompensationCreating? && newId !in s.store
    ensures Overwritten(s0, s, DoRollbackWrite(cfg, s, newId), id)
  {
    hide Due, Compensator, Grants;
    LogGrows(s, DoRollbackWrite(cfg, s, newId), [Event(ProposalCreated, newId)], InvocationAttempted, id);
  }

  lemma CopySaved(cfg: Config, s0: State, s: State, a: Action, id: Id, n: nat)
    requires InWindow(cfg, s0, s, id, n) && Resumes(s.handler, a) && (a.RollbackWrite? ==> a.newId !in s.store)
    ensures Overwritten(s0, s, Step(cfg, s, a), id)
  {
    hide Due, DoApplyCapture, DoRollbackWrite, Grants;
    if a.ApplyCapture? {
      hide Overwritten;
      CaptureSaves(cfg, s0, s, a.cat, a.written, id, n);
    } else if a.RollbackWrite? {
      hide Overwritten;
      WriteSaves(cfg, s0, s, a.newId, id, n);
    }
  }

  /** When a handler or its thread saves the copy it held, it forgets exactly the executions
      started while the copy was apart from what the server had loaded, whatever other requests
      did meanwhile: the attempts counted are the executions started if and only if there are
      none. An execution authorized before may begin on a dictionary that the handler still
      shares, and is not forgotten. */
  lemma ForgottenExactly(cfg: Config, s: State, window: seq<Action>, resume: Action, id: Id)
    requires Inv(cfg, s) && HoldsCopy(s.handler) && id in s.store && WindowRun(window, id)
    requires Resumes(s.handler, resume) && (resume.RollbackWrite? ==> resume.newId !in Run(cfg, s, window).store)
    ensures var u := Run(cfg, s, window); var t, forgotten := Step(cfg, u, resume), StartedApart(cfg, s, window, id);
            && id in t.store && Started(t, id) == Started(u, id)
            && t.store[id].invocation.attempts + forgotten == Started(t, id)
            && (t.store[id].invocation.attempts == Started(t, id) <==> forgotten == 0)
  {
    hide Inv, Step, Run, WindowRun, Started;
    var u, n := Run(cfg, s, window), StartedApart(cfg, s, window, id);
    WindowOpens(cfg, s, id);
    RunInWindow(cfg, s, window, id);
    HeldInWindow(cfg, s, u, resume, id, n);
    CopySaved(cfg, s, u, resume, id, n);
  }

  // ---------------------------------------------------------------- what runs make of it

  /** A suspended handler holds what the store holds. */
  predicate HoldsStore(s: State) {
    match s.handler
    case Deciding(_, copy) => s.loaded == s.store && (copy.Some? ==> copy.value == s.store)
    case Preflight(_, copy, _) => s.loaded == s.store && (copy.Some? ==> copy.value == s.store)
    case CompensationCreating(_, view, _) => view == s.store
    case _ => true
  }

  predicate Known(s: State, id: Id) {
    HoldsStore(s) && id in s.store && id in s.loaded
  }

  /** An entry goes back to another one: same limit and attempts, and the same state unless an
      execution ended. */
  predicate From(p: Proposal, q: Proposal, ended: bool) {
    && q.maxInvocations == p.maxInvocations && q.invocation.attempts == p.invocation.attempts
    && (!ended ==> q.invocation.state == p.invocation.state)
  }

  predicate FromEither(s: State, q: Proposal, id: Id, ended: bool)
    requires Known(s, id)
  {
    From(s.store[id], q, ended) || From(s.loaded[id], q, ended)
  }

  predicate Quiet(s: State, t: State, id: Id)
    requires Known(s, id) && Known(t, id)
  {
    && Started(t, id) == Started(s, id) && InFlight(t, id) <= InFlight(s, id)
    && var ended := InFlight(t, id) < InFlight(s, id);
       FromEither(s, t.store[id], id, ended) && FromEither(s, t.loaded[id], id, ended)
  }

  predicate LaunchedFrom(p: Proposal, t: State, id: Id)
    requires Known(t, id)
  {
    CanBegin(p) && From(Begun(p), t.store[id], false) && From(Begun(p), t.loaded[id], false)
  }

  predicate Launched(s: State, t: State, id: Id)
    requires Known(s, id) && Known(t, id)
  {
    && Started(t, id) == Started(s, id) + 1 && InFlight(t, id) <= InFlight(s, id) + 1
    && (LaunchedFrom(s.store[id], t, id) || LaunchedFrom(s.loaded[id], t, id))
  }

  /** A span starts the proposal, from what is stored or loaded, or leaves its account alone. */
  predicate Accounted(s: State, t: State, id: Id) {
    Known(s, id) ==> Known(t, id) && (Quiet(s, t, id) || Launched(s, t, id))
  }

  lemma NoneStarted(s: State, t: State, events: seq<Event>, id: Id)
    requires t.log == s.log + events && t.lost == s.lost && forall e | e in events :: !e.kind.InvocationAttempted?
    ensures Started(t, id) == Started(s, id)
  {
    LogGrows(s, t, events, InvocationAttempted, id);
  }

  lemma LoadAccounted(s: State, id: Id)
    ensures Accounted(s, Load(s), id)
  {
    hide Due;
  }

  lemma ThroughLoad(s: State, t: State, id: Id)
    requires Accounted(Load(s), t, id)
    ensures Accounted(s, t, id)
  {
    hide Due;
  }

  /** A launch, with what the direct invocation or the handler keeps of it. */
  lemma LaunchAccounted(cfg: Config, s: State, begun: Id, parameters: Params, trace: Trace, t: State, id: Id)
    requires Launch(cfg, s, begun, parameters, trace).Some? && LoadedIsCurrent(s)
    requires var l := Launch(cfg, s, begun, parameters, trace).value;
             t.store == l.store && t.loaded == l.loaded && t.log == l.log && t.lost == l.lost
    requires t.handler == s.handler || !HoldsCopy(t.handler)
    requires InFlight(t, id) == InFlight(s, id) + Bit(begun == id)
    ensures Accounted(s, t, id)
  {
    hide Due, Launch, InFlight;
    LaunchFrame(cfg, s, begun, parameters, trace);
    LogGrows(s, t, [Event(InvocationAttempted, begun)], InvocationAttempted, id);
  }

  lemma InvokeBeginAccounted(cfg: Config, s: State, r: Request, trace: Trace, id: Id)
    requires LoadedIsCurrent(s)
    ensures Accounted(s, DoInvokeBegin(cfg, s, r, trace), id)
  {
    hide Launch, Due;
    if r in s.waiting && Launch(cfg, s, r.id, r.parameters, trace).Some? {
      hide Accounted;
      LaunchFrame(cfg, s, r.id, r.parameters, trace);
      LaunchAccounted(cfg, s, r.id, r.parameters, trace, DoInvokeBegin(cfg, s, r, trace), id);
    }
  }

  lemma InvokeAuthorizeAccounted(cfg: Config, s: State, requested: Id, incoming: Params, id: Id)
    ensures Accounted(s, DoInvokeAuthorize(cfg, s, requested, incoming), id)
  {
    hide Authorize, Due;
  }

  lemma ApplyFailsAccounted(s: State, failed: Id, id: Id)
    requires failed in s.store
    ensures Accounted(s, ApplyFails(s, failed), id)
  {
    hide Due;
    NoneStarted(s, ApplyFails(s, failed), [Event(ApplyFailure, failed)], id);
  }

  lemma ApplyAuthorizeAccounted(cfg: Config, s: State, id: Id)
    ensures Accounted(s, DoApplyAuthorize(cfg, s), id)
  {
    hide Authorize, ApplyParameters, ApplyFails, Due;
    if s.handler.ApplyReady? && s.handler.id in s.store {
      ApplyFailsAccounted(s, s.handler.id, id);
    }
  }

  lemma ApplyBeginAccounted(cfg: Config, s: State, trace: Trace, id: Id)
    ensures Accounted(s, DoApplyBegin(cfg, s, trace), id)
  {
    hide Launch, ApplyFails;
    if s.handler.ApplyAuthorized? && s.handler.id in s.store {
      hide Accounted;
      var h, m := s.handler.id, s.handler.parameters;
      if Launch(cfg, s, h, m, trace).Some? {
        LaunchFrame(cfg, s, h, m, trace);
        LaunchAccounted(cfg, s, h, m, trace, DoApplyBegin(cfg, s, trace), id);
      } else {
        ApplyFailsAccounted(Load(s), h, id);
        ThroughLoad(s, ApplyFails(Load(s), h), id);
      }
    }
  }

  lemma RollbackFailsAccounted(s: State, failed: Id, id: Id)
    requires failed in s.store
    ensures Accounted(s, RollbackFails(s, failed), id)
  {
    hide Due;
    NoneStarted(s, RollbackFails(s, failed), [Event(RollbackFailure, failed)], id);
  }

  lemma RollbackAuthorizeAccounted(cfg: Config, s: State, id: Id)
    ensures Accounted(s, DoRollbackAuthorize(cfg, s), id)
  {
    hide Authorize, CompensationParameters, RollbackFails, Due;
    if s.handler.CompensationReady? && s.handler.id in s.store {
      RollbackFailsAccounted(s, s.handler.id, id);
    }
  }

  lemma RollbackBeginAccounted(cfg: Config, s: State, trace: Trace, id: Id)
    ensures Accounted(s, DoRollbackBegin(cfg, s, trace), id)
  {
    hide Launch, RollbackFails;
    if s.handler.CompensationAuthorized? && s.handler.id in s.store {
      hide Accounted;
      var c, m := s.handler.compensator, s.handler.parameters;
      if Launch(cfg, s, c, m, trace).Some? {
        LaunchFrame(cfg, s, c, m, trace);
        LaunchAccounted(cfg, s, c, m, trace, DoRollbackBegin(cfg, s, trace), id);
      } else {
        RollbackFailsAccounted(Load(s), s.handler.id, id);
        ThroughLoad(s, RollbackFails(Load(s), s.handler.id), id);
      }
    }
  }

  lemma CreateAccounted(cfg: Config, s: State, newId: Id, command: string, parameters: Params, max: int, id: Id)
    requires !HoldsCopy(s.handler) && newId != id
    ensures Accounted(s, DoCreate(cfg, s, newId, command, parameters, max), id)
  {
    hide Due, NewProposal;
    NoneStarted(s, DoCreate(cfg, s, newId, command, parameters, max), [Event(ProposalCreated, newId)], id);
  }

  lemma DecideAccounted(s: State, decided: Id, approve: bool, id: Id)
    ensures Accounted(s, DoDecideStart(s, decided, approve), id)
  {
    hide Due;
    var t := DoDecideStart(s, decided, approve);
    NoneStarted(s, t, if t == s then [] else [Event(ProposalDecided, decided)], id);
  }

  lemma DecidedAccounted(s: State, id: Id)
    ensures Accounted(s, DoDecideFinish(s), id)
  {
    hide Due;
  }

  lemma InvokeEndAccounted(s: State, ended: Id, run: ToolRun, id: Id)
    requires LoadedIsCurrent(s)
    ensures Accounted(s, DoInvokeEnd(s, ended, run), id)
  {
    hide Due;
    if ended in s.direct && ended in s.loaded {
      NoneStarted(s, DoInvokeEnd(s, ended, run), [EndEvent(ended, run.status)], id);
    }
  }

  lemma ApplyStartAccounted(cfg: Config, s: State, applied: Id, id: Id)
    ensures Accounted(s, DoApplyStart(cfg, s, applied), id)
  {
    hide Due, ReversibleTarget, ApplyParameters;
    var t := DoApplyStart(cfg, s, applied);
    NoneStarted(s, t, if t.handler.ApplyReady? && t != s then [Event(ApplyAttempted, applied)] else [], id);
  }

  lemma ApplyCaptureAccounted(cfg: Config, s: State, cat: CatRun, written: bool, id: Id)
    ensures Accounted(s, DoApplyCapture(cfg, s, cat, written), id)
  {
    hide Due, Fits;
    if s.handler.Preflight? && s.handler.id in Held(s) {
      NoneStarted(s, DoApplyCapture(cfg, s, cat, written), [Event(ApplyAttempted, s.handler.id)], id);
    }
  }

  lemma ReturnedAccounted(s: State, ended: Id, run: ToolRun, id: Id)
    requires ended in s.loaded && HandlerRuns(s.handler, ended)
    ensures Accounted(s, Returned(s, ended, run).(handler := Idle), id)
  {
    hide Due;
    NoneStarted(s, Returned(s, ended, run).(handler := Idle), [EndEvent(ended, run.status)], id);
  }

  /** After an execution ended, the rest of its span leaves the account alone. */
  lemma ClosedAccounted(s: State, t: State, u: State, closed: Id, id: Id)
    requires Accounted(s, t, id) && t.loaded == t.store && !HoldsCopy(u.handler)
    requires closed in t.store && closed in u.store
    requires u.store == t.store[closed := u.store[closed]] && u.loaded == u.store
    requires u.store[closed].maxInvocations == t.store[closed].maxInvocations
    requires u.store[closed].invocation == t.store[closed].invocation
    requires Started(u, id) == Started(t, id) && InFlight(u, id) == InFlight(t, id)
    ensures Accounted(s, u, id)
  {
    hide Started, InFlight;
  }

  lemma ApplyEndAccounted(s: State, run: ToolRun, id: Id)
    ensures Accounted(s, DoApplyEnd(s, run), id)
  {
    hide Due, EndEvent;
    if s.handler.ApplyRunning? && s.handler.id in s.loaded {
      hide Accounted, Ended;
      var ended := s.handler.id;
      var t := Returned(s, ended, run).(handler := Idle);
      ReturnedAccounted(s, ended, run, id);
      var last := Event(if run.status.Success? then ApplyCompleted else ApplyFailure, ended);
      NoneStarted(t, DoApplyEnd(s, run), [last], id);
      ClosedAccounted(s, t, DoApplyEnd(s, run), ended, id);
    }
  }

  lemma RollbackStartAccounted(s: State, started: Id, id: Id)
    ensures Accounted(s, DoRollbackStart(s, started), id)
  {
    hide Due, LoadSnapshot;
    NoneStarted(s, DoRollbackStart(s, started), [], id);
  }

  lemma RollbackLoadAccounted(s: State, id: Id)
    ensures Accounted(s, DoRollbackLoad(s), id)
  {
    hide Due;
  }

  lemma RollbackWriteAccounted(cfg: Config, s: State, newId: Id, id: Id)
    requires newId != id
    ensures Accounted(s, DoRollbackWrite(cfg, s, newId), id)
  {
    hide Due, Compensator;
    if s.handler.CompensationCreating? && s.handler.id in s.handler.view {
      NoneStarted(s, DoRollbackWrite(cfg, s, newId), [Event(ProposalCreated, newId)], id);
    }
  }

  lemma RollbackApproveAccounted(s: State, id: Id)
    ensures Accounted(s, DoRollbackApprove(s), id)
  {
    hide Due;
    if s.handler.CompensationCreated? && s.handler.compensator in s.store && s.handler.id in s.store {
      var CompensationCreated(h, c, _) := s.handler;
      NoneStarted(s, DoRollbackApprove(s), [Event(ProposalDecided, c), Event(RollbackAttempted, h)], id);
    }
  }

  lemma RollbackEndAccounted(s: State, run: ToolRun, id: Id)
    ensures Accounted(s, DoRollbackEnd(s, run), id)
  {
    hide Due, EndEvent;
    if s.handler.CompensationRunning? && s.handler.id in s.loaded && s.handler.compensator in s.loaded {
      hide Accounted, Ended;
      var CompensationRunning(h, c, a) := s.handler;
      var t := Returned(s, c, run).(handler := Idle);
      var last := Event(if Restores(a, run) then RollbackCompleted else RollbackFailure, h);
      ReturnedAccounted(s, c, run, id);
      NoneStarted(t, DoRollbackEnd(s, run), [last], id);
      ClosedAccounted(s, t, DoRollbackEnd(s, run), h, id);
    }
  }

  lemma CrashAccounted(s: State, id: Id)
    ensures Accounted(s, Crashed(s), id) && Accounted(s, s, id)
  {
    hide Due;
  }

  lemma OutsideAccounted(s: State, workspace: Workspace, artifacts: map<Id, Artifact>, id: Id)
    ensures Accounted(s, s.(workspace := workspace, artifacts := artifacts), id)
  {
    hide Due;
  }

  lemma PreparedAccounted(s: State, applied: Id, id: Id)
    requires applied in s.store && s.handler.Idle?
    ensures Accounted(s, Put(s, applied, Prepared(s.store[applied]), []), id)
  {
    hide Due;
    NoneStarted(s, Put(s, applied, Prepared(s.store[applied]), []), [], id);
  }

  lemma HalfwayAccounted(s: State, a: Action, id: Id)
    ensures Accounted(s, Halfway(s, a), id)
  {
    hide Put, Returned, Prepared, Due;
    match a
    case ApplyStart(applied) =>
      if s.handler.Idle? && applied in s.store { PreparedAccounted(s, applied, id); }
    case ApplyEnd(run) =>
      if s.handler.ApplyRunning? && s.handler.id in s.loaded { ReturnedAccounted(s, s.handler.id, run, id); }
    case RollbackEnd(run) =>
      if s.handler.CompensationRunning? && s.handler.compensator in s.loaded {
        ReturnedAccounted(s, s.handler.compensator, run, id);
      }
    case _ =>
  }

  lemma CutAccounted(s: State, t: State, kept: nat, id: Id)
    requires Accounted(s, t, id)
    ensures Accounted(s, Cut(s, t, kept), id)
  {
    hide Due;
    CutTallies(s, t, kept);
  }

  lemma SpanAccounted(cfg: Config, s: State, a: Action, id: Id)
    requires PermittedSpan(s, a) && id in s.store
    ensures Accounted(s, Span(cfg, s, a), id)
  {
    hide Accounted, DoCreate, DoDecideStart, DoDecideFinish, DoInvokeAuthorize, DoInvokeBegin, DoInvokeEnd;
    hide DoApplyStart, DoApplyCapture, DoApplyAuthorize, DoApplyBegin, DoApplyEnd;
    hide DoRollbackStart, DoRollbackLoad, DoRollbackWrite, DoRollbackApprove, DoRollbackAuthorize, DoRollbackBegin;
    hide DoRollbackEnd, Crashed;
    var l := Load(s);
    LoadedFirst(cfg, s, a, id);
    match a
    case Create(newId, command, parameters, max) => CreateAccounted(cfg, l, newId, command, parameters, max, id);
    case DecideStart(decided, approve) => DecideAccounted(l, decided, approve, id);
    case DecideFinish => DecidedAccounted(s, id);
    case InvokeAuthorize(requested, incoming) => InvokeAuthorizeAccounted(cfg, l, requested, incoming, id);
    case InvokeBegin(request, trace) => InvokeBeginAccounted(cfg, s, request, trace, id);
    case InvokeEnd(ended, run) => InvokeEndAccounted(s, ended, run, id);
    case ApplyStart(applied) => ApplyStartAccounted(cfg, l, applied, id);
    case ApplyCapture(cat, written) => ApplyCaptureAccounted(cfg, s, cat, written, id);
    case ApplyAuthorize => ApplyAuthorizeAccounted(cfg, l, id);
    case ApplyBegin(trace) => ApplyBeginAccounted(cfg, s, trace, id);
    case ApplyEnd(run) => ApplyEndAccounted(s, run, id);
    case RollbackStart(started) => RollbackStartAccounted(l, started, id);
    case RollbackLoad => RollbackLoadAccounted(s, id);
    case RollbackWrite(newId) => RollbackWriteAccounted(cfg, s, newId, id);
    case RollbackApprove => RollbackApproveAccounted(l, id);
    case RollbackAuthorize => RollbackAuthorizeAccounted(cfg, l, id);
    case RollbackBegin(trace) => RollbackBeginAccounted(cfg, s, trace, id);
    case RollbackEnd(run) => RollbackEndAccounted(s, run, id);
    case List => LoadAccounted(s, id);
    case Crash => CrashAccounted(s, id);
    case CrashIn(_, _, _) => CrashAccounted(s, id);
    case ForeignWrite(after) => OutsideAccounted(s, after, s.artifacts, id);
    case DiskChange(artifacts) => OutsideAccounted(s, s.workspace, artifacts, id);
  }

  /** Spans that load first are accounted for like those that found everything loaded. */
  lemma LoadedFirst(cfg: Config, s: State, a: Action, id: Id)
    ensures Accounted(Load(s), Span(cfg, s, a), id) ==> Accounted(s, Span(cfg, s, a), id)
  {
    hide Span;
    if Accounted(Load(s), Span(cfg, s, a), id) {
      ThroughLoad(s, Span(cfg, s, a), id);
    }
  }

  lemma StepAccounted(cfg: Config, s: State, a: Action, id: Id)
    requires Permitted(s, a) && id in s.store
    ensures Accounted(s, Step(cfg, s, a), id)
  {
    hide Accounted, Span, Halfway, Cut, PermittedSpan;
    if a.CrashIn? {
      SpanAccounted(cfg, s, a.span, id);
      HalfwayAccounted(s, a.span, id);
      CutAccounted(s, if a.halfway then Halfway(s, a.span) else Span(cfg, s, a.span), a.kept, id);
    } else {
      SpanAccounted(cfg, s, a, id);
    }
  }

  /** An entry of the proposal from which at most `bound` executions are ever started: its
      attempts fall short of the starts by no more than that allows, or it waits for an
      execution to end that is not in flight. */
  predicate EntryWithin(p: Proposal, max: int, started: int, inFlight: int, bound: int) {
    && p.maxInvocations == max && p.invocation.attempts <= max
    && started <= bound
    && (started + max - p.invocation.attempts <= bound || (p.invocation.state.Invoking? && inFlight == 0))
  }

  predicate Within(s: State, id: Id, max: int, bound: int) {
    && Known(s, id)
    && EntryWithin(s.store[id], max, Started(s, id), InFlight(s, id), bound)
    && EntryWithin(s.loaded[id], max, Started(s, id), InFlight(s, id), bound)
  }

  lemma AccountedWithin(s: State, t: State, id: Id, max: int, bound: int)
    requires Within(s, id, max, bound) && Accounted(s, t, id)
    ensures Within(t, id, max, bound)
  {
    hide Tally, InFlight, HoldsStore;
  }

  lemma {:induction false} RunWithin(cfg: Config, s: State, actions: seq<Action>, id: Id, max: int, bound: int)
    requires PermittedRun(cfg, s, actions) && Within(s, id, max, bound)
    ensures Within(Run(cfg, s, actions), id, max, bound)
    decreases |actions|
  {
    hide Step, Permitted, Within, Accounted;
    if actions != [] {
      var last := |actions| - 1;
      var u := Run(cfg, s, actions[..last]);
      RunWithin(cfg, s, actions[..last], id, max, bound);
      WithinKnown(u, id, max, bound);
      StepAccounted(cfg, u, actions[last], id);
      AccountedWithin(u, Step(cfg, u, actions[last]), id, max, bound);
    }
  }

  lemma WithinKnown(s: State, id: Id, max: int, bound: int)
    requires Within(s, id, max, bound)
    ensures id in s.store && Started(s, id) <= bound
  {
  }

  // ---------------------------------------------------------------- using up what is left

  /** The proposal can be started and nothing is suspended over the store. */
  predicate Open(s: State, id: Id) {
    && !HoldsCopy(s.handler) && (s.handler.CompensationCreated? ==> s.handler.compensator in s.store)
    && s.loaded == s.store && id in s.store && !s.store[id].invocation.state.Invoking?
  }

  const RETURNS := ToolRun(Success, false, None, map[])

  /** One more execution: authorized, begun and ended. */
  lemma OneMore(cfg: Config, s: State, id: Id, incoming: Params) returns (actions: seq<Action>)
    requires Open(s, id) && s.store[id].invocation.attempts < s.store[id].maxInvocations
    requires Authorize(cfg, s.store[id].Terms(), incoming).Ok?
    ensures PermittedRun(cfg, s, actions)
    ensures var t := Run(cfg, s, actions);
            && Open(t, id) && Started(t, id) == Started(s, id) + 1
            && t.store[id].Terms() == s.store[id].Terms() && t.store[id].maxInvocations == s.store[id].maxInvocations
            && t.store[id].invocation.attempts == s.store[id].invocation.attempts + 1
  {
    hide Run, PermittedRun, Launch, Authorize, Due;
    var r := Request(id, Authorize(cfg, s.store[id].Terms(), incoming).value);
    var ask, begin, end := InvokeAuthorize(id, incoming), InvokeBegin(r, LOOKUP), InvokeEnd(id, RETURNS);
    NoSteps(cfg, s);
    RunSnoc(cfg, s, [], ask);
    var u := Step(cfg, s, ask);
    BeginsOpen(cfg, u, r);
    RunSnoc(cfg, s, [] + [ask], begin);
    var v := Step(cfg, u, begin);
    EndsOpen(cfg, v, id);
    RunSnoc(cfg, s, [] + [ask] + [begin], end);
    actions := [] + [ask] + [begin] + [end];
  }

  lemma BeginsOpen(cfg: Config, s: State, r: Request)
    requires Open(s, r.id) && s.store[r.id].invocation.attempts < s.store[r.id].maxInvocations && r in s.waiting
    ensures var t, id := Step(cfg, s, InvokeBegin(r, LOOKUP)), r.id;
            && Permitted(s, InvokeBegin(r, LOOKUP))
            && t.loaded == t.store && t.handler == s.handler && id in t.direct && s.store.Keys <= t.store.Keys
            && id in t.store && t.store[id] == Begun(s.store[id])
            && Started(t, id) == Started(s, id) + 1 && InFlight(t, id) == InFlight(s, id) + 1
  {
    hide Launch, Due;
    LaunchNeeds(cfg, s, r.id, r.parameters, LOOKUP);
    LaunchFrame(cfg, s, r.id, r.parameters, LOOKUP);
    LogGrows(s, Step(cfg, s, InvokeBegin(r, LOOKUP)), [Event(InvocationAttempted, r.id)], InvocationAttempted, r.id);
  }

  lemma LaunchNeeds(cfg: Config, s: State, id: Id, parameters: Params, trace: Trace)
    ensures Launch(cfg, s, id, parameters, trace).Some? <==> id in s.loaded && trace.ready && CanBegin(s.loaded[id])
  {
    hide Finalized;
  }

  lemma EndsOpen(cfg: Config, s: State, id: Id)
    requires !HoldsCopy(s.handler) && (s.handler.CompensationCreated? ==> s.handler.compensator in s.store)
    requires s.loaded == s.store && id in s.store && id in s.direct
    ensures var end := InvokeEnd(id, RETURNS); var t := Step(cfg, s, end);
            && Permitted(s, end) && Open(t, id) && t.store[id] == Ended(s.store[id], Success)
            && Started(t, id) == Started(s, id)
  {
    hide Due;
    NoneStarted(s, Step(cfg, s, InvokeEnd(id, RETURNS)), [EndEvent(id, Success)], id);
  }

  /** Executions one after the other, `n` times. */
  lemma {:induction false} Spend(cfg: Config, s: State, id: Id, incoming: Params, n: nat) returns (actions: seq<Action>)
    requires Open(s, id) && s.store[id].invocation.attempts + n <= s.store[id].maxInvocations
    requires Authorize(cfg, s.store[id].Terms(), incoming).Ok?
    ensures PermittedRun(cfg, s, actions)
    ensures var t := Run(cfg, s, actions);
            && Open(t, id) && Started(t, id) == Started(s, id) + n
            && t.store[id].Terms() == s.store[id].Terms() && t.store[id].maxInvocations == s.store[id].maxInvocations
            && t.store[id].invocation.attempts == s.store[id].invocation.attempts + n
  {
    hide Step, Run, PermittedRun, Permitted, Started, Authorize;
    if n == 0 {
      NoSteps(cfg, s);
      actions := [];
    } else {
      actions := Spend(cfg, s, id, incoming, n - 1);
      var more := OneMore(cfg, Run(cfg, s, actions), id, incoming);
      RunAppend(cfg, s, actions, more);
      actions := actions + more;
    }
  }

  /** After its copy was saved: an execution that is still running may end, and then the
      proposal is open again. */
  lemma OpenAgain(cfg: Config, s0: State, s: State, t: State, id: Id, n: nat) returns (actions: seq<Action>)
    requires InWindow(cfg, s0, s, id, n) && Overwritten(s0, s, t, id)
    requires t.store[id].invocation.state.Invoking? ==> id in t.direct
    ensures PermittedRun(cfg, t, actions)
    ensures var v := Run(cfg, t, actions);
            && Open(v, id) && Started(v, id) == Started(t, id)
            && v.store[id].Terms() == t.store[id].Terms() && v.store[id].maxInvocations == t.store[id].maxInvocations
            && v.store[id].invocation.attempts == t.store[id].invocation.attempts
  {
    hide Run, PermittedRun, InWindow, Due;
    NoSteps(cfg, t);
    RunSnoc(cfg, t, [], List);
    actions := [] + [List];
    if t.store[id].invocation.state.Invoking? {
      EndsOpen(cfg, Load(t), id);
      RunSnoc(cfg, t, actions, InvokeEnd(id, RETURNS));
      actions := actions + [InvokeEnd(id, RETURNS)];
    }
  }

  /** The state after the copy was saved: `forgotten` executions are missing from the account. */
  lemma AfterWindow(cfg: Config, s: State, window: seq<Action>, resume: Action, id: Id)
    requires Inv(cfg, s) && HoldsCopy(s.handler) && id in s.store && WindowRun(window, id)
    requires Resumes(s.handler, resume) && (resume.RollbackWrite? ==> resume.newId !in Run(cfg, s, window).store)
    ensures var t := Step(cfg, Run(cfg, s, window), resume);
            var max, forgotten := s.store[id].maxInvocations, StartedApart(cfg, s, window, id);
            && id in t.store && Within(t, id, max, max + forgotten)
            && (t.store[id].invocation.state.Invoking? && id !in t.direct ==> Within(t, id, max, max))
  {
    hide Inv, Step, Run, WindowRun;
    var u, n := Run(cfg, s, window), StartedApart(cfg, s, window, id);
    WindowOpens(cfg, s, id);
    RunInWindow(cfg, s, window, id);
    HeldInWindow(cfg, s, u, resume, id, n);
    CopySaved(cfg, s, u, resume, id, n);
    OverwrittenWithin(cfg, s, u, Step(cfg, u, resume), id, n);
  }

  lemma OverwrittenWithin(cfg: Config, s0: State, s: State, t: State, id: Id, n: nat)
    requires InWindow(cfg, s0, s, id, n) && Overwritten(s0, s, t, id)
    ensures var max := s0.store[id].maxInvocations;
            && Within(t, id, max, max + n)
            && (t.store[id].invocation.state.Invoking? && id !in t.direct ==> Within(t, id, max, max))
  {
    hide Started, Grants;
  }

  /** The limit holds up to what was forgotten: whatever happens after the copy was saved, never
      more executions of a proposal are started than its limit and those forgotten. */
  lemma {:induction false} LimitAndForgotten(cfg: Config, s: State, window: seq<Action>, resume: Action, id: Id,
                                             after: seq<Action>)
    requires Inv(cfg, s) && HoldsCopy(s.handler) && id in s.store && WindowRun(window, id)
    requires Resumes(s.handler, resume) && (resume.RollbackWrite? ==> resume.newId !in Run(cfg, s, window).store)
    requires PermittedRun(cfg, Step(cfg, Run(cfg, s, window), resume), after)
    ensures Started(Run(cfg, Step(cfg, Run(cfg, s, window), resume), after), id)
         <= s.store[id].maxInvocations + StartedApart(cfg, s, window, id)
  {
    hide Inv, Step, Run, WindowRun, PermittedRun, Within;
    var t := Step(cfg, Run(cfg, s, window), resume);
    var bound := s.store[id].maxInvocations + StartedApart(cfg, s, window, id);
    AfterWindow(cfg, s, window, resume, id);
    RunWithin(cfg, t, after, id, s.store[id].maxInvocations, bound);
    WithinKnown(Run(cfg, t, after), id, s.store[id].maxInvocations, bound);
  }

  /** That many are reached, by requests like one that was made while the copy was held, unless
      the copy shows an execution as running that is not. */
  lemma {:induction false} ForgottenAreRepeated(cfg: Config, s: State, window: seq<Action>, resume: Action, id: Id)
      returns (after: seq<Action>)
    requires Inv(cfg, s) && HoldsCopy(s.handler) && id in s.store && WindowRun(window, id)
    requires Resumes(s.handler, resume) && (resume.RollbackWrite? ==> resume.newId !in Run(cfg, s, window).store)
    requires StartedApart(cfg, s, window, id) > 0
    requires var t := Step(cfg, Run(cfg, s, window), resume);
             id in t.store && (t.store[id].invocation.state.Invoking? ==> id in t.direct)
    ensures var t := Step(cfg, Run(cfg, s, window), resume);
            && PermittedRun(cfg, t, after)
            && Started(Run(cfg, t, after), id) == s.store[id].maxInvocations + StartedApart(cfg, s, window, id)
  {
    hide Inv, Step, Run, WindowRun, PermittedRun, Started, Authorize, Within;
    var u, n := Run(cfg, s, window), StartedApart(cfg, s, window, id);
    var t := Step(cfg, u, resume);
    WindowOpens(cfg, s, id);
    RunInWindow(cfg, s, window, id);
    HeldInWindow(cfg, s, u, resume, id, n);
    CopySaved(cfg, s, u, resume, id, n);
    var incoming :| Authorize(cfg, s.store[id].Terms(), incoming).Ok?;
    after := OpenAgain(cfg, s, u, t, id, n);
    var v := Run(cfg, t, after);
    var more := Spend(cfg, v, id, incoming, s.store[id].maxInvocations - v.store[id].invocation.attempts);
    RunAppend(cfg, t, after, more);
    after := after + more;
  }

  /** Exactly when the limit survives a window: no run after the copy was saved starts the
      proposal more often than its limit allows if and only if nothing of it was started while
      the copy was apart, or the copy shows an execution of it as running that is not. */
  lemma {:induction false} LimitHoldsExactly(cfg: Config, s: State, window: seq<Action>, resume: Action, id: Id)
    requires Inv(cfg, s) && HoldsCopy(s.handler) && id in s.store && WindowRun(window, id)
    requires Resumes(s.handler, resume) && (resume.RollbackWrite? ==> resume.newId !in Run(cfg, s, window).store)
    ensures var t, max := Step(cfg, Run(cfg, s, window), resume), s.store[id].maxInvocations;
            && id in t.store
            && ((forall after | PermittedRun(cfg, t, after) :: Started(Run(cfg, t, after), id) <= max)
                <==> (StartedApart(cfg, s, window, id) == 0
                      || (t.store[id].invocation.state.Invoking? && id !in t.direct)))
  {
    hide Inv, Step, Run, WindowRun, PermittedRun, Started, Within;
    var t, max := Step(cfg, Run(cfg, s, window), resume), s.store[id].maxInvocations;
    AfterWindow(cfg, s, window, resume, id);
    if StartedApart(cfg, s, window, id) == 0 || (t.store[id].invocation.state.Invoking? && id !in t.direct) {
      forall after | PermittedRun(cfg, t, after) ensures Started(Run(cfg, t, after), id) <= max {
        RunWithin(cfg, t, after, id, max, max);
        WithinKnown(Run(cfg, t, after), id, max, max);
      }
    } else {
      var after := ForgottenAreRepeated(cfg, s, window, resume, id);
      assert Started(Run(cfg, t, after), id) > max;
    }
  }

  // ---------------------------------------------------------------- two at once

  /** At most one execution is inside the tool, and file and dictionary show it. */
  predicate Single(s: State, id: Id) {
    && Known(s, id) && InFlight(s, id) <= 1
    && (InFlight(s, id) == 1 ==> s.store[id].invocation.state.Invoking? && s.loaded[id].invocation.state.Invoking?)
  }

  lemma AccountedSingle(s: State, t: State, id: Id)
    requires Single(s, id) && Accounted(s, t, id)
    ensures Single(t, id)
  {
    hide Started, InFlight, HoldsStore;
  }

  lemma {:induction false} RunSingle(cfg: Config, s: State, actions: seq<Action>, id: Id)
    requires PermittedRun(cfg, s, actions) && Single(s, id)
    ensures Single(Run(cfg, s, actions), id)
    decreases |actions|
  {
    hide Step, Permitted, HoldsStore, Accounted, InFlight;
    if actions != [] {
      var last := |actions| - 1;
      var u := Run(cfg, s, actions[..last]);
      RunSingle(cfg, s, actions[..last], id);
      StepAccounted(cfg, u, actions[last], id);
      AccountedSingle(u, Step(cfg, u, actions[last]), id);
    }
  }

  /** The state after the copy was saved, when an execution is still running. */
  lemma RunningAfter(cfg: Config, s0: State, s: State, t: State, id: Id, n: nat)
    requires InWindow(cfg, s0, s, id, n) && Overwritten(s0, s, t, id)
    ensures InFlight(t, id) <= 1 && !HoldsCopy(t.handler)
    ensures (id in t.direct ==> t.store[id].invocation.state.Invoking?) ==> Single(t, id)
    ensures id in t.direct && !t.store[id].invocation.state.Invoking? ==>
              Grants(cfg, s0.store[id]) && CanBegin(t.store[id]) && InFlight(t, id) == 1
  {
    hide Started, Due, Grants;
  }

  /** A second execution begins beside the first. */
  lemma SecondBegins(cfg: Config, t: State, id: Id, incoming: Params) returns (actions: seq<Action>)
    requires !HoldsCopy(t.handler) && id in t.store && CanBegin(t.store[id])
    requires t.handler.CompensationCreated? ==> t.handler.compensator in t.store
    requires Authorize(cfg, t.store[id].Terms(), incoming).Ok?
    ensures PermittedRun(cfg, t, actions) && InFlight(Run(cfg, t, actions), id) == InFlight(t, id) + 1
  {
    hide Run, PermittedRun, Launch, Authorize, Due;
    var r := Request(id, Authorize(cfg, t.store[id].Terms(), incoming).value);
    var ask, begin := InvokeAuthorize(id, incoming), InvokeBegin(r, LOOKUP);
    NoSteps(cfg, t);
    RunSnoc(cfg, t, [], ask);
    var u := Step(cfg, t, ask);
    BeginsOpen(cfg, u, r);
    RunSnoc(cfg, t, [] + [ask], begin);
    actions := [] + [ask] + [begin];
  }

  /** Exactly when one execution at a time survives a window: no run after the copy was saved
      has two executions of the proposal inside the tool if and only if the copy shows the one
      that is there, if one is. */
  lemma {:induction false} OneAtATimeExactly(cfg: Config, s: State, window: seq<Action>, resume: Action, id: Id)
    requires Inv(cfg, s) && HoldsCopy(s.handler) && id in s.store && WindowRun(window, id)
    requires Resumes(s.handler, resume) && (resume.RollbackWrite? ==> resume.newId !in Run(cfg, s, window).store)
    ensures var t := Step(cfg, Run(cfg, s, window), resume);
            && id in t.store
            && ((forall after | PermittedRun(cfg, t, after) :: InFlight(Run(cfg, t, after), id) <= 1)
                <==> (id in t.direct ==> t.store[id].invocation.state.Invoking?))
  {
    hide Inv, Step, Run, WindowRun, PermittedRun, Started, InFlight, Authorize, Single, Overwritten, InWindow;
    var u, n := Run(cfg, s, window), StartedApart(cfg, s, window, id);
    var t := Step(cfg, u, resume);
    WindowOpens(cfg, s, id);
    RunInWindow(cfg, s, window, id);
    HeldInWindow(cfg, s, u, resume, id, n);
    CopySaved(cfg, s, u, resume, id, n);
    TermsAfter(cfg, s, u, t, id, n);
    RunningAfter(cfg, s, u, t, id, n);
    if id in t.direct ==> t.store[id].invocation.state.Invoking? {
      forall after | PermittedRun(cfg, t, after) ensures InFlight(Run(cfg, t, after), id) <= 1 {
        RunSingle(cfg, t, after, id);
        SingleIsOne(Run(cfg, t, after), id);
      }
    } else {
      var incoming :| Authorize(cfg, s.store[id].Terms(), incoming).Ok?;
      var after := SecondBegins(cfg, t, id, incoming);
      assert InFlight(Run(cfg, t, after), id) == 2;
    }
  }

  lemma HeldInWindow(cfg: Config, s0: State, s: State, a: Action, id: Id, n: nat)
    requires InWindow(cfg, s0, s, id, n) && HoldsCopy(s0.handler) && Resumes(s0.handler, a)
    ensures HoldsCopy(s.handler) && id in s0.store && id in s.store && id in Held(s) && Resumes(s.handler, a)
    ensures Held(s)[id].invocation.attempts + n == Started(s, id) && (n > 0 ==> Grants(cfg, s0.store[id]))
  {
    hide Started, Grants;
  }

  lemma TermsAfter(cfg: Config, s0: State, s: State, t: State, id: Id, n: nat)
    requires InWindow(cfg, s0, s, id, n) && Overwritten(s0, s, t, id)
    ensures id in t.store && t.store[id].Terms() == s0.store[id].Terms()
    ensures t.handler.CompensationCreated? ==> t.handler.compensator in t.store
  {
  }

  lemma SingleIsOne(s: State, id: Id)
    requires Single(s, id)
    ensures InFlight(s, id) <= 1
  {
  }

  // ---------------------------------------------------------------- an instance

  const REPEATED := map[Command := Text("ls"), ProposalId := Text("q")]
  const APPROVED := NewProposal("ls", map[], 1, true).(decision := Approved)

  lemma RepeatedIsAuthorized(cfg: Config)
    ensures Authorize(cfg, APPROVED.Terms(), REPEATED).Ok?
  {
    assert Strip("ls") == "ls" by {
      StripTight(IsSpace, "ls");
    }
    hide Strip;
    RepeatsIsAuthorized(cfg, APPROVED.Terms(), REPEATED);
  }

  /** `q` is approved, may run once, never ran, and runs nowhere. */
  predicate MayRunOnce(s: State) {
    && "q" in s.store && s.store["q"] == APPROVED && s.waiting == multiset{} && s.direct == multiset{}
    && Logged(s, InvocationAttempted, "q") == 0
  }

  lemma FirstApproved(cfg: Config)
    requires cfg.allows("ls")
    ensures var s1 := Step(cfg, EMPTY, Create("q", "ls", map[], 1));
            var s := Step(cfg, Step(cfg, s1, DecideStart("q", true)), DecideFinish);
            MayRunOnce(s) && s.handler == Idle
  {
    var s1 := DoCreate(cfg, EMPTY, "q", "ls", map[], 1);
    assert Load(EMPTY) == EMPTY;
    var s2 := DoDecideStart(s1, "q", true);
    assert s2.log == [Event(ProposalCreated, "q"), Event(ProposalDecided, "q")];
  }

  lemma OtherCreated(cfg: Config, s: State)
    requires MayRunOnce(s) && s.handler == Idle
    ensures var t := Step(cfg, s, Create("p", "ls", map[], 1));
            MayRunOnce(t) && t.handler == Idle && "p" in t.store && t.store["p"].decision.Pending?
  {
    hide InvocationDigest;
    assert Step(cfg, s, Create("p", "ls", map[], 1)).log == s.log + [Event(ProposalCreated, "p")];
  }

  lemma OtherRejected(cfg: Config, s: State)
    requires MayRunOnce(s) && s.handler == Idle && "p" in s.store && s.store["p"].decision.Pending?
    ensures var t := Step(cfg, s, DecideStart("p", false));
            MayRunOnce(t) && t.handler == Deciding("p", None) && t.loaded == t.store
  {
    hide InvocationDigest, NewProposal;
    assert Step(cfg, s, DecideStart("p", false)).log == s.log + [Event(ProposalDecided, "p")];
  }

  /** The request authorized for `q`. */
  function Asked(cfg: Config): Request {
    var authorized := Authorize(cfg, APPROVED.Terms(), REPEATED);
    Request("q", if authorized.Ok? then authorized.value else map[])
  }

  lemma AsksToRun(cfg: Config, s: State)
    requires "q" in s.store && s.store["q"] == APPROVED
    ensures Step(cfg, s, InvokeAuthorize("q", REPEATED)) == Load(s).(waiting := s.waiting + multiset{Asked(cfg)})
  {
    hide Authorize, APPROVED;
    RepeatedIsAuthorized(cfg);
  }

  lemma BeginsToRun(cfg: Config, s: State, trace: Trace)
    requires Asked(cfg) in s.waiting && trace.ready && "q" in s.loaded && CanBegin(s.loaded["q"])
    ensures var t := Step(cfg, s, InvokeBegin(Asked(cfg), trace));
            && t.handler == s.handler && "q" in t.direct
            && t.store == t.loaded == s.loaded["q" := Begun(s.loaded["q"])]
            && Logged(t, InvocationAttempted, "q") == Logged(s, InvocationAttempted, "q") + 1
  {
    hide Launch, Authorize;
    LaunchNeeds(cfg, s, "q", Asked(cfg).parameters, trace);
    LaunchFrame(cfg, s, "q", Asked(cfg).parameters, trace);
  }

  lemma EndsRunning(cfg: Config, s: State, run: ToolRun)
    requires "q" in s.direct && "q" in s.loaded
    ensures var t := Step(cfg, s, InvokeEnd("q", run));
            t.handler == s.handler && Logged(t, InvocationAttempted, "q") == Logged(s, InvocationAttempted, "q")
  {
    hide Ended;
    assert Step(cfg, s, InvokeEnd("q", run)).log == s.log + [EndEvent("q", run.status)];
  }

  lemma FinishForgets(cfg: Config, s: State, copy: Store)
    requires s.handler == Deciding("p", Some(copy))
    ensures Step(cfg, s, DecideFinish).store == copy && Step(cfg, s, DecideFinish).log == s.log
  {
  }

  /** The execution begins and ends while the decision is suspended, which then forgets it. */
  lemma RunsUnnoticed(cfg: Config, s: State, trace: Trace, run: ToolRun)
    requires MayRunOnce(s) && s.handler == Deciding("p", None) && s.loaded == s.store && trace.ready
    ensures var u := Step(cfg, Step(cfg, s, InvokeAuthorize("q", REPEATED)), InvokeBegin(Asked(cfg), trace));
            var t := Step(cfg, Step(cfg, u, InvokeEnd("q", run)), DecideFinish);
            t.store == s.store && Logged(t, InvocationAttempted, "q") == 1
  {
    hide Asked, Step;
    AsksToRun(cfg, s);
    var a := Step(cfg, s, InvokeAuthorize("q", REPEATED));
    BeginsToRun(cfg, a, trace);
    var u := Step(cfg, a, InvokeBegin(Asked(cfg), trace));
    EndsRunning(cfg, u, run);
    FinishForgets(cfg, Step(cfg, u, InvokeEnd("q", run)), s.store);
  }

  lemma RunsAgain(cfg: Config, s: State, trace: Trace)
    requires "q" in s.store && s.store["q"] == APPROVED && Logged(s, InvocationAttempted, "q") == 1 && trace.ready
    ensures var t := Step(cfg, Step(cfg, s, InvokeAuthorize("q", REPEATED)), InvokeBegin(Asked(cfg), trace));
            && "q" in t.store && t.store["q"].maxInvocations == 1 && t.store["q"].invocation.attempts == 1
            && Logged(t, InvocationAttempted, "q") == 2
  {
    hide Asked, DoInvokeAuthorize, DoInvokeBegin;
    AsksToRun(cfg, s);
    BeginsToRun(cfg, Step(cfg, s, InvokeAuthorize("q", REPEATED)), trace);
  }

  /** While the decision on `p` is suspended, `q` runs; the decision resumes, and `q`, which may
      run once, runs again: two executions started, one counted. */
  lemma TwiceUnderALimitOfOne(cfg: Config, trace: Trace, run: ToolRun)
    requires cfg.allows("ls") && trace.ready
    ensures Authorize(cfg, APPROVED.Terms(), REPEATED).Ok?
    ensures var ask, begin := InvokeAuthorize("q", REPEATED), InvokeBegin(Asked(cfg), trace);
            var t := Run(cfg, EMPTY, [Create("q", "ls", map[], 1), DecideStart("q", true), DecideFinish,
                                      Create("p", "ls", map[], 1), DecideStart("p", false),
                                      ask, begin, InvokeEnd("q", run), DecideFinish, ask, begin]);
            && "q" in t.store && t.store["q"].maxInvocations == 1 && t.store["q"].invocation.attempts == 1
            && Logged(t, InvocationAttempted, "q") == 2
  {
    hide Step, Authorize, MayRunOnce, Logged, Asked;
    RepeatedIsAuthorized(cfg);
    var ask, begin, end := InvokeAuthorize("q", REPEATED), InvokeBegin(Asked(cfg), trace), InvokeEnd("q", run);
    var actions := [Create("q", "ls", map[], 1), DecideStart("q", true), DecideFinish, Create("p", "ls", map[], 1),
                    DecideStart("p", false), ask, begin, end, DecideFinish, ask, begin];
    var s3 := Step(cfg, Step(cfg, Step(cfg, EMPTY, actions[0]), actions[1]), actions[2]);
    FirstApproved(cfg);
    var s5 := Step(cfg, Step(cfg, s3, actions[3]), actions[4]);
    OtherCreated(cfg, s3);
    OtherRejected(cfg, Step(cfg, s3, actions[3]));
    var s9 := Step(cfg, Step(cfg, Step(cfg, Step(cfg, s5, ask), begin), end), DecideFinish);
    RunsUnnoticed(cfg, s5, trace, run);
    RunsAgain(cfg, s9, trace) by {
      MayRun(s5);
    }
    ElevenSteps(cfg, EMPTY, actions);
  }

  lemma MayRun(s: State)
    requires MayRunOnce(s)
    ensures "q" in s.store && s.store["q"] == APPROVED
  {
  }

  lemma StepsFrom(cfg: Config, s: State, a: seq<Action>, k: nat, u: State)
    requires k < |a| && Run(cfg, s, a[..k]) == u
    ensures Run(cfg, s, a[..k + 1]) == Step(cfg, u, a[k])
  {
    hide Step, Run;
    RunOneMore(cfg, s, a[..k], a[k]);
    assert a[..k] + [a[k]] == a[..k + 1];
  }

  lemma ElevenSteps(cfg: Config, s: State, a: seq<Action>)
    requires |a| == 11
    ensures var s3 := Step(cfg, Step(cfg, Step(cfg, s, a[0]), a[1]), a[2]);
            var s5 := Step(cfg, Step(cfg, s3, a[3]), a[4]);
            var s9 := Step(cfg, Step(cfg, Step(cfg, Step(cfg, s5, a[5]), a[6]), a[7]), a[8]);
            Run(cfg, s, a) == Step(cfg, Step(cfg, s9, a[9]), a[10])
  {
    hide Step, Run;
    NoSteps(cfg, s);
    assert a[..0] == [] && a[..11] == a;
    var u1 := Step(cfg, s, a[0]);
    StepsFrom(cfg, s, a, 0, s);
    var u2 := Step(cfg, u1, a[1]);
    StepsFrom(cfg, s, a, 1, u1);
    var u3 := Step(cfg, u2, a[2]);
    StepsFrom(cfg, s, a, 2, u2);
    var u4 := Step(cfg, u3, a[3]);
    StepsFrom(cfg, s, a, 3, u3);
    var u5 := Step(cfg, u4, a[4]);
    StepsFrom(cfg, s, a, 4, u4);
    var u6 := Step(cfg, u5, a[5]);
    StepsFrom(cfg, s, a, 5, u5);
    var u7 := Step(cfg, u6, a[6]);
    StepsFrom(cfg, s, a, 6, u6);
    var u8 := Step(cfg, u7, a[7]);
    StepsFrom(cfg, s, a, 7, u7);
    var u9 := Step(cfg, u8, a[8]);
    StepsFrom(cfg, s, a, 8, u8);
    var u10 := Step(cfg, u9, a[9]);
    StepsFrom(cfg, s, a, 9, u9);
    var u11 := Step(cfg, u10, a[10]);
    StepsFrom(cfg, s, a, 10, u10);
  }
}
