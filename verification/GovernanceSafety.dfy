/** What every run of the governance store keeps. */
module GovernanceSafety {
  import opened Basics
  import opened Authorization
  import opened WorkspacePaths
  import opened Governance

  // ---------------------------------------------------------------- invariant

  /** How many audit lines of this kind are due for this proposal: those in the log, and those
      that a crash cut off. */
  function Tally(s: State, kind: EventKind, id: Id): nat {
    Due(s.log, s.lost, Event(kind, id))
  }

  function Due(log: seq<Event>, lost: multiset<Event>, e: Event): nat {
    multiset(log)[e] + lost[e]
  }

  function Bit(b: bool): nat { if b then 1 else 0 }

  predicate HandlerRuns(h: Handler, id: Id) {
    (h.ApplyRunning? && h.id == id) || (h.CompensationRunning? && h.compensator == id)
  }

  /** Executions of a proposal that are inside the tool now. */
  function InFlight(s: State, id: Id): nat {
    s.direct[id] + Bit(HandlerRuns(s.handler, id))
  }

  /** All that a state records about one proposal: its entry, what the audit log counts, how
      many applies reached the tool, executions in flight, and the workspace its snapshot was
      taken from. */
  datatype Facts = Facts(
    p: Option<Proposal>,
    decided: nat, attempted: nat, completed: nat, failed: nat, applied: nat, compensated: nat, restored: nat,
    applyRuns: nat, inFlight: nat, before: Option<Workspace>)

  function FactsOf(s: State, id: Id): Facts {
    Facts(if id in s.store then Some(s.store[id]) else None,
          Tally(s, ProposalDecided, id), Tally(s, InvocationAttempted, id), Tally(s, InvocationCompleted, id),
          Tally(s, InvocationFailed, id), Tally(s, ApplyCompleted, id), Tally(s, RollbackAttempted, id),
          Tally(s, RollbackCompleted, id),
          s.applyRuns[id], InFlight(s, id), if id in s.before then Some(s.before[id]) else None)
  }

  predicate AppliedOrLater(tx: TxState) {
    tx.Applied? || tx.RollbackPreparing? || tx.RollingBack? || tx.RolledBack? || tx.RollbackFailed?
  }

  predicate CompensationBegan(tx: TxState) {
    tx.RollingBack? || tx.RolledBack? || tx.RollbackFailed?
  }

  predicate InvocationOk(p: Proposal) {
    var i := p.invocation;
    && 1 <= p.maxInvocations <= 10
    && 0 <= i.successes
    && i.successes + Bit(i.state.Invoking?) <= i.attempts <= p.maxInvocations
    && (i.state.NotInvoked? <==> i.attempts == 0)
  }

  /** The audit log and the store tell the same story. */
  predicate AuditOk(f: Facts, p: Proposal) {
    && f.decided == Bit(!p.decision.Pending?)
    && f.attempted == p.invocation.attempts
    && f.completed == p.invocation.successes
    && f.failed + f.completed + Bit(p.invocation.state.Invoking?) == f.attempted
    && f.applied == Bit(AppliedOrLater(p.tx))
    && f.compensated == Bit(CompensationBegan(p.tx))
    && f.restored == Bit(p.tx.RolledBack?)
  }

  predicate DecisionOk(p: Proposal) {
    && (p.decision.Approved? ==> p.policyAllowed)
    && (!p.decision.Approved? ==> p.invocation.attempts == 0 && p.tx.NoTx?)
  }

  predicate ApplyOk(f: Facts, p: Proposal) {
    && f.applyRuns <= 1
    && (p.invocation.attempts == 0 ==> f.applyRuns == 0)
    && (AppliedOrLater(p.tx) ==> p.invocation.successes >= 1 && f.applyRuns == 1)
  }

  /** The reference in the store is the digest of what the target held when the snapshot was
      taken. */
  predicate SnapshotOk(cfg: Config, id: Id, p: Proposal, before: Option<Workspace>) {
    && p.rollback.snapshot.Some?
    && var ref := p.rollback.snapshot.value;
       && ref.artifact == id
       && before.Some? && ref.target in before.value
       && ref.digest == Sha256(before.value[ref.target])
       && ReversibleTarget(cfg, ApplyParameters(p.command, p.parameters)) == Some(ref.target)
  }

  predicate RollbackOk(cfg: Config, id: Id, p: Proposal, before: Option<Workspace>) {
    && (p.tx.RollbackPreparing? || CompensationBegan(p.tx) ==> p.rollback.supported)
    && (p.rollback.supported ==> SnapshotOk(cfg, id, p, before))
  }

  ghost predicate ProposalOk(cfg: Config, id: Id, f: Facts) {
    match f.p
    case None => f.Facts? && f == Facts(None, 0, 0, 0, 0, 0, 0, 0, 0, 0, f.before)
    case Some(p) =>
      && GoodDigest(p.Terms())
      && InvocationOk(p)
      && AuditOk(f, p)
      && DecisionOk(p)
      && ApplyOk(f, p)
      && RollbackOk(cfg, id, p, f.before)
      && f.inFlight <= Bit(p.invocation.state.Invoking?)
  }

  predicate ArtifactOk(p: Proposal, a: Artifact) {
    p.rollback.snapshot.Some? && a.target == p.rollback.snapshot.value.target
    && Sha256(a.content) == p.rollback.snapshot.value.digest && a.digest == p.rollback.snapshot.value.digest
  }

  predicate HandlerOk(cfg: Config, s: State) {
    match s.handler
    case Idle => true
    case Deciding(id, copy) => copy.Some? ==> copy.value == s.store
    case Preflight(id, copy, target) =>
      (copy.Some? ==> copy.value == s.store)
      && id in s.store && s.store[id].decision.Approved? && s.store[id].tx.Preparing? && s.applyRuns[id] == 0
      && ReversibleTarget(cfg, ApplyParameters(s.store[id].command, s.store[id].parameters)) == Some(target)
    case ApplyReady(id) =>
      id in s.store && s.store[id].decision.Approved? && s.store[id].tx.Applying? && s.applyRuns[id] == 0
    case ApplyAuthorized(id, _) =>
      id in s.store && s.store[id].decision.Approved? && s.store[id].tx.Applying? && s.applyRuns[id] == 0
    case ApplyRunning(id) =>
      id in s.store && s.store[id].decision.Approved? && s.store[id].tx.Applying? && s.applyRuns[id] == 1
      && s.store[id].invocation.state.Invoking?
    case CompensationPlanned(id, a) =>
      id in s.store && s.store[id].decision.Approved? && s.store[id].tx.RollbackPreparing? && ArtifactOk(s.store[id], a)
    case CompensationCreating(id, view, a) =>
      view == s.store
      && id in s.store && s.store[id].decision.Approved? && s.store[id].tx.RollbackPreparing?
      && ArtifactOk(s.store[id], a)
    case CompensationCreated(id, c, a) =>
      && id in s.store && s.store[id].decision.Approved? && s.store[id].tx.RollbackPreparing?
      && ArtifactOk(s.store[id], a)
      && c in s.store && c != id && s.store[c] == Compensator(cfg, s.store[id], a)
    case CompensationReady(id, c, a) =>
      && id in s.store && s.store[id].decision.Approved? && s.store[id].tx.RollingBack? && ArtifactOk(s.store[id], a)
      && c in s.store && c != id && s.store[c].tx.NoTx? && s.store[c].decision.Approved?
      && s.store[c].command == "tee" && s.store[c].parameters == CompensationParameters(cfg, s.store[id].parameters, a)
    case CompensationAuthorized(id, c, a, _) =>
      && id in s.store && s.store[id].decision.Approved? && s.store[id].tx.RollingBack? && ArtifactOk(s.store[id], a)
      && c in s.store && c != id && s.store[c].tx.NoTx? && s.store[c].decision.Approved?
      && s.store[c].command == "tee" && s.store[c].parameters == CompensationParameters(cfg, s.store[id].parameters, a)
    case CompensationRunning(id, c, a) =>
      && id in s.store && s.store[id].decision.Approved? && s.store[id].tx.RollingBack? && ArtifactOk(s.store[id], a)
      && c in s.store && c != id && s.store[c].tx.NoTx? && s.store[c].invocation.state.Invoking?
  }

  /** Every execution so far carried out what its proposal approves. */
  ghost predicate ExecutionOk(cfg: Config, s: State, e: Execution) {
    e.id in s.store && s.store[e.id].decision.Approved?
    && Matches(cfg, s.store[e.id].Terms(), e.parameters, e.sessionRoot)
  }

  /** The server has loaded what the file holds, except perhaps the newest compensator. */
  predicate LoadedOk(s: State) {
    s.loaded == s.store || (s.handler.CompensationCreated? && s.loaded == s.store - {s.handler.compensator})
  }

  /** An execution was authorized and has not begun. */
  predicate Promised(s: State, r: Request) {
    || r in s.waiting
    || (s.handler.ApplyAuthorized? && r == Request(s.handler.id, s.handler.parameters))
    || (s.handler.CompensationAuthorized? && r == Request(s.handler.compensator, s.handler.parameters))
  }

  /** What was authorized would still be. */
  ghost predicate Granted(cfg: Config, s: State, r: Request) {
    r.id in s.store && exists incoming :: Authorize(cfg, s.store[r.id].Terms(), incoming) == Ok(r.parameters)
  }

  ghost predicate Inv(cfg: Config, s: State) {
    && (forall id :: ProposalOk(cfg, id, FactsOf(s, id)))
    && HandlerOk(cfg, s)
    && LoadedOk(s)
    && (forall e | e in s.executed :: ExecutionOk(cfg, s, e))
    && (forall r | Promised(s, r) :: Granted(cfg, s, r))
  }

  lemma EmptyInv(cfg: Config)
    ensures Inv(cfg, EMPTY)
  {
  }

  // ---------------------------------------------------------------- how proposals evolve

  /** The moves of the transaction state. */
  predicate TxEdge(a: TxState, b: TxState) {
    || a == b
    || ((a.NoTx? || a.ApplyFailed?) && (b.Preparing? || b.Applying?))
    || (a.Preparing? && b.Applying?)
    || (a.Applying? && (b.Applied? || b.ApplyFailed?))
    || (a.Applied? && b.RollbackPreparing?)
    || (a.RollbackPreparing? && b.RollingBack?)
    || (a.RollingBack? && (b.RolledBack? || b.RollbackFailed?))
  }

  /** What is fixed at creation stays; a decision is taken once; counters only grow; the
      transaction follows its edges: it starts, or leaves a failed apply, only while the
      proposal is approved and was never executed, and leaves `Applied` only with a captured
      snapshot. */
  predicate Evolves(p: Proposal, q: Proposal) {
    && p.command == q.command && p.parameters == q.parameters && p.digest == q.digest
    && p.maxInvocations == q.maxInvocations && p.policyAllowed == q.policyAllowed
    && (!p.decision.Pending? ==> q.decision == p.decision)
    && p.invocation.attempts <= q.invocation.attempts && p.invocation.successes <= q.invocation.successes
    && TxEdge(p.tx, q.tx)
    && ((p.tx.NoTx? || p.tx.ApplyFailed?) && q.tx != p.tx ==> p.decision.Approved? && p.invocation.attempts == 0)
    && (p.tx.Applied? && q.tx != p.tx ==> CanRollback(p))
  }

  ghost predicate StoreEvolves(s: State, t: State) {
    forall id | id in s.store :: id in t.store && Evolves(s.store[id], t.store[id])
  }

  // ---------------------------------------------------------------- frames

  lemma LogGrows(s: State, t: State, events: seq<Event>, kind: EventKind, id: Id)
    requires t.log == s.log + events && t.lost == s.lost
    ensures Tally(t, kind, id) == Tally(s, kind, id) + multiset(events)[Event(kind, id)]
  {
  }

  /** What a step leaves alone. */
  predicate Untouched(s: State, t: State, id: Id) {
    && (id in t.store <==> id in s.store) && (id in s.store ==> t.store[id] == s.store[id])
    && t.direct[id] == s.direct[id] && t.applyRuns[id] == s.applyRuns[id]
    && HandlerRuns(t.handler, id) == HandlerRuns(s.handler, id)
    && (id in t.before <==> id in s.before) && (id in s.before ==> t.before[id] == s.before[id])
  }

  lemma UntouchedFacts(s: State, t: State, events: seq<Event>, id: Id)
    requires t.log == s.log + events && t.lost == s.lost && Untouched(s, t, id)
    requires forall k | 0 <= k < |events| :: events[k].id != id
    ensures FactsOf(t, id) == FactsOf(s, id)
  {
    forall kind ensures Tally(t, kind, id) == Tally(s, kind, id) {
      LogGrows(s, t, events, kind, id);
      assert Event(kind, id) !in events;
    }
  }

  /** Audit lines that the invariant does not count. */
  predicate Uncounted(kind: EventKind) {
    kind.ProposalCreated? || kind.ApplyAttempted? || kind.ApplyFailure? || kind.RollbackFailure?
  }

  /** A step that leaves of a proposal all but its entry. */
  lemma EntryFacts(s: State, t: State, id: Id, events: seq<Event>)
    requires t.log == s.log + events && t.lost == s.lost && forall e | e in events :: Uncounted(e.kind)
    requires InFlight(t, id) == InFlight(s, id) && t.applyRuns[id] == s.applyRuns[id]
    requires (id in t.before <==> id in s.before) && (id in s.before ==> t.before[id] == s.before[id])
    ensures FactsOf(t, id) == FactsOf(s, id).(p := FactsOf(t, id).p)
  {
    hide Due, InFlight;
    forall kind | !Uncounted(kind) ensures Tally(t, kind, id) == Tally(s, kind, id) {
      LogGrows(s, t, events, kind, id);
      assert Event(kind, id) !in events;
    }
  }

  // ---------------------------------------------------------------- each step

  ghost predicate Keeps(cfg: Config, s: State, t: State) {
    Inv(cfg, t) && StoreEvolves(s, t)
  }

  /** A step that authorizes nothing. */
  predicate PromisesLess(s: State, t: State) {
    && t.waiting <= s.waiting
    && (t.handler == s.handler || (!t.handler.ApplyAuthorized? && !t.handler.CompensationAuthorized?))
  }

  lemma GrantedApproved(cfg: Config, s: State, r: Request)
    requires Granted(cfg, s, r)
    ensures s.store[r.id].decision.Approved?
  {
    hide Completed, InvocationDigest;
  }

  /** What an approval covers is fixed, so authorization stays. */
  lemma GrantedStays(cfg: Config, s: State, t: State, r: Request)
    requires Granted(cfg, s, r) && StoreEvolves(s, t)
    ensures Granted(cfg, t, r)
  {
    hide Authorize;
    GrantedApproved(cfg, s, r);
    assert t.store[r.id].Terms() == s.store[r.id].Terms();
  }

  lemma PromisesStay(cfg: Config, s: State, t: State)
    requires Inv(cfg, s) && StoreEvolves(s, t) && PromisesLess(s, t)
    ensures forall r | Promised(t, r) :: Granted(cfg, t, r)
  {
    hide ProposalOk, HandlerOk, FactsOf, ExecutionOk, StoreEvolves, Granted;
    forall r | Promised(t, r) ensures Granted(cfg, t, r) {
      assert Promised(s, r);
      GrantedStays(cfg, s, t, r);
    }
  }

  /** A step keeps the invariant if it keeps what it holds of every proposal and handler. */
  lemma Assemble(cfg: Config, s: State, t: State)
    requires Inv(cfg, s) && t.executed == s.executed && PromisesLess(s, t)
    requires forall id :: ProposalOk(cfg, id, FactsOf(t, id))
    requires HandlerOk(cfg, t) && LoadedOk(t) && StoreEvolves(s, t)
    ensures Keeps(cfg, s, t)
  {
    hide ProposalOk, HandlerOk, FactsOf, Matches, Promised, Granted, PromisesLess;
    PromisesStay(cfg, s, t);
    forall e | e in t.executed ensures ExecutionOk(cfg, t, e) {
      assert ExecutionOk(cfg, s, e);
    }
  }

  lemma CreateFacts(cfg: Config, s: State, id: Id, command: string, parameters: Params, maxInvocations: int)
    requires Inv(cfg, s) && Permitted(s, Create(id, command, parameters, maxInvocations))
    ensures var t := DoCreate(cfg, s, id, command, parameters, maxInvocations);
            (forall i :: ProposalOk(cfg, i, FactsOf(t, i)))
  {
    hide InvocationDigest, HandlerOk, Matches;
    var t := DoCreate(cfg, s, id, command, parameters, maxInvocations);
    var events := [Event(ProposalCreated, id)];
    forall i ensures ProposalOk(cfg, i, FactsOf(t, i)) {
      assert ProposalOk(cfg, i, FactsOf(s, i));
      if i != id {
        UntouchedFacts(s, t, events, i);
      } else {
        forall kind: EventKind | !kind.ProposalCreated? ensures Tally(t, kind, id) == Tally(s, kind, id) {
          LogGrows(s, t, events, kind, id);
        }
      }
    }
  }

  lemma CreateKeeps(cfg: Config, s: State, id: Id, command: string, parameters: Params, maxInvocations: int)
    requires Inv(cfg, s) && Permitted(s, Create(id, command, parameters, maxInvocations))
    ensures Keeps(cfg, s, DoCreate(cfg, s, id, command, parameters, maxInvocations))
  {
    hide ProposalOk, FactsOf, Matches, InvocationDigest, ReversibleTarget, CompensationParameters;
    CreateFacts(cfg, s, id, command, parameters, maxInvocations);
    Assemble(cfg, s, DoCreate(cfg, s, id, command, parameters, maxInvocations));
  }

  lemma DecideFacts(cfg: Config, s: State, id: Id, approve: bool)
    requires Inv(cfg, s) && DoDecideStart(s, id, approve) != s
    ensures forall i :: ProposalOk(cfg, i, FactsOf(DoDecideStart(s, id, approve), i))
  {
    hide GoodDigest, HandlerOk, Matches, SnapshotOk;
    var t := DoDecideStart(s, id, approve);
    var events := [Event(ProposalDecided, id)];
    forall i ensures ProposalOk(cfg, i, FactsOf(t, i)) {
      assert ProposalOk(cfg, i, FactsOf(s, i));
      if i != id {
        UntouchedFacts(s, t, events, i);
      } else {
        forall kind: EventKind ensures Tally(t, kind, id) == Tally(s, kind, id) + Bit(kind.ProposalDecided?) {
          LogGrows(s, t, events, kind, id);
        }
        SnapshotStays(cfg, id, s.store[id], t.store[id], FactsOf(s, id).before);
      }
    }
  }

  /** Only the approved action and the snapshot reference matter to the snapshot. */
  lemma SnapshotStays(cfg: Config, id: Id, p: Proposal, q: Proposal, before: Option<Workspace>)
    requires p.command == q.command && p.parameters == q.parameters && p.digest == q.digest
    requires p.rollback.snapshot == q.rollback.snapshot
    ensures SnapshotOk(cfg, id, p, before) <==> SnapshotOk(cfg, id, q, before)
    ensures GoodDigest(p.Terms()) <==> GoodDigest(q.Terms())
  {
    hide ReversibleTarget, InvocationDigest;
    assert ApplyParameters(p.command, p.parameters) == ApplyParameters(q.command, q.parameters);
  }

  lemma DecideKeeps(cfg: Config, s: State, id: Id, approve: bool)
    requires Inv(cfg, s)
    ensures Keeps(cfg, s, DoDecideStart(s, id, approve))
  {
    hide ProposalOk, FactsOf, Matches, ReversibleTarget, CompensationParameters;
    if DoDecideStart(s, id, approve) != s {
      DecideFacts(cfg, s, id, approve);
      Assemble(cfg, s, DoDecideStart(s, id, approve));
    }
  }

  /** Launching an execution concerns one proposal. */
  lemma LaunchEntries(cfg: Config, s: State, id: Id, parameters: Params, trace: Trace)
    requires s.loaded == s.store && Launch(cfg, s, id, parameters, trace).Some?
    ensures var t := Launch(cfg, s, id, parameters, trace).value;
            && (forall i | i != id :: FactsOf(t, i) == FactsOf(s, i))
            && FactsOf(t, id)
               == FactsOf(s, id).(p := Some(Begun(s.store[id])), attempted := FactsOf(s, id).attempted + 1)
  {
    hide Finalized;
    var t := Launch(cfg, s, id, parameters, trace).value;
    var events := [Event(InvocationAttempted, id)];
    forall i | i != id ensures FactsOf(t, i) == FactsOf(s, i) {
      UntouchedFacts(s, t, events, i);
    }
    forall kind: EventKind ensures Tally(t, kind, id) == Tally(s, kind, id) + Bit(kind.InvocationAttempted?) {
      LogGrows(s, t, events, kind, id);
    }
  }

  /** It was approved, and idle until then. */
  lemma LaunchFacts(cfg: Config, s: State, r: Request, trace: Trace)
    requires Inv(cfg, s) && s.loaded == s.store && Promised(s, r) && Launch(cfg, s, r.id, r.parameters, trace).Some?
    ensures s.store[r.id].decision.Approved? && InFlight(s, r.id) == 0
  {
    hide GoodDigest, HandlerOk, Matches, SnapshotOk, Launch, Granted, Promised;
    LaunchFrame(cfg, s, r.id, r.parameters, trace);
    assert ProposalOk(cfg, r.id, FactsOf(s, r.id));
    GrantedApproved(cfg, s, r);
  }

  /** The execution carries out what is approved, and what was authorized stays so. */
  lemma LaunchExecution(cfg: Config, s: State, r: Request, trace: Trace)
    requires Inv(cfg, s) && s.loaded == s.store && Promised(s, r) && Launch(cfg, s, r.id, r.parameters, trace).Some?
    ensures var t := Launch(cfg, s, r.id, r.parameters, trace).value;
            && StoreEvolves(s, t) && (forall e | e in t.executed :: ExecutionOk(cfg, t, e))
  {
    hide HandlerOk, Matches, FactsOf, Authorize, Finalized, GoodDigest, Promised;
    var t := Launch(cfg, s, r.id, r.parameters, trace).value;
    var p := s.store[r.id];
    GrantedApproved(cfg, s, r);
    var incoming :| Authorize(cfg, p.Terms(), incoming) == Ok(r.parameters);
    assert GoodDigest(p.Terms()) by {
      assert ProposalOk(cfg, r.id, FactsOf(s, r.id));
      EntryOfFacts(s, r.id);
    }
    ExecutionMatchesApproval(cfg, p.Terms(), incoming, trace.id, trace.sessionRoot);
    forall e | e in t.executed ensures ExecutionOk(cfg, t, e) {
      assert t.store[r.id].Terms() == p.Terms();
      if e in s.executed {
        assert ExecutionOk(cfg, s, e);
      }
    }
  }

  lemma EntryOfFacts(s: State, id: Id)
    ensures FactsOf(s, id).p == if id in s.store then Some(s.store[id]) else None
  {
  }

  /** A proposal that begins an execution, through a direct invocation or an apply. */
  lemma BegunOk(cfg: Config, id: Id, f: Facts, runs: nat)
    requires ProposalOk(cfg, id, f) && f.p.Some? && f.p.value.decision.Approved? && CanBegin(f.p.value)
    requires f.inFlight == 0
    requires runs == f.applyRuns || (runs == 1 && f.applyRuns == 0 && !AppliedOrLater(f.p.value.tx))
    ensures ProposalOk(cfg, id, f.(p := Some(Begun(f.p.value)), attempted := f.attempted + 1, inFlight := 1,
                                   applyRuns := runs))
  {
    hide GoodDigest, SnapshotOk;
    SnapshotStays(cfg, id, f.p.value, Begun(f.p.value), f.before);
  }

  lemma LaunchFrame(cfg: Config, s: State, id: Id, parameters: Params, trace: Trace)
    requires Launch(cfg, s, id, parameters, trace).Some?
    ensures var t := Launch(cfg, s, id, parameters, trace).value;
            && id in s.loaded && CanBegin(s.loaded[id]) && t.store == s.loaded[id := Begun(s.loaded[id])]
            && t.loaded == t.store && t.log == s.log + [Event(InvocationAttempted, id)] && t.lost == s.lost
            && t.handler == s.handler && t.waiting == s.waiting && t.direct == s.direct
            && t.applyRuns == s.applyRuns && t.before == s.before
            && t.workspace == s.workspace && t.artifacts == s.artifacts
  {
    hide Finalized;
  }

  /** A launch that ends inside the tool, through a direct invocation or a handler: `t` is what
      the launch leaves but for its bookkeeping. */
  lemma LaunchedFacts(cfg: Config, s: State, r: Request, trace: Trace, t: State)
    requires Inv(cfg, s) && s.loaded == s.store && Promised(s, r) && Launch(cfg, s, r.id, r.parameters, trace).Some?
    requires var l := Launch(cfg, s, r.id, r.parameters, trace).value;
             t.store == l.store && t.log == l.log && t.lost == l.lost && t.before == l.before
    requires t.applyRuns == s.applyRuns
          || (t.applyRuns == s.applyRuns + multiset{r.id} && s.applyRuns[r.id] == 0
              && !AppliedOrLater(s.store[r.id].tx))
    requires forall i :: InFlight(t, i) == InFlight(s, i) + Bit(i == r.id)
    ensures forall i :: ProposalOk(cfg, i, FactsOf(t, i))
  {
    hide ProposalOk, HandlerOk, Matches, Launch, Due, InFlight, Promised, Granted, ExecutionOk, LoadedOk;
    var id, l := r.id, Launch(cfg, s, r.id, r.parameters, trace).value;
    LaunchFacts(cfg, s, r, trace);
    LaunchEntries(cfg, s, id, r.parameters, trace);
    LaunchFrame(cfg, s, id, r.parameters, trace);
    forall i ensures ProposalOk(cfg, i, FactsOf(t, i)) {
      assert ProposalOk(cfg, i, FactsOf(s, i));
      RunsOfFacts(s, i);
      if i == id {
        BegunOk(cfg, id, FactsOf(s, id), t.applyRuns[id]);
        assert FactsOf(t, id) == FactsOf(l, id).(inFlight := 1, applyRuns := t.applyRuns[id]);
      } else {
        SameInFlight(s, l, i);
        assert FactsOf(t, i) == FactsOf(l, i);
      }
    }
  }

  /** What is left to show of a launch. */
  lemma LaunchedKeeps(cfg: Config, s: State, r: Request, trace: Trace, t: State)
    requires Inv(cfg, s) && s.loaded == s.store && Promised(s, r) && Launch(cfg, s, r.id, r.parameters, trace).Some?
    requires var l := Launch(cfg, s, r.id, r.parameters, trace).value;
             t.store == l.store && t.executed == l.executed
    requires forall id :: ProposalOk(cfg, id, FactsOf(t, id))
    requires HandlerOk(cfg, t) && LoadedOk(t) && PromisesLess(s, t)
    ensures Keeps(cfg, s, t)
  {
    hide ProposalOk, HandlerOk, FactsOf, Matches, Promised, Granted, PromisesLess, Launch, LoadedOk;
    var l := Launch(cfg, s, r.id, r.parameters, trace).value;
    LaunchExecution(cfg, s, r, trace);
    SameStoreEvolves(s, l, t);
    PromisesStay(cfg, s, t);
    forall e | e in t.executed ensures ExecutionOk(cfg, t, e) {
      assert ExecutionOk(cfg, l, e);
    }
  }

  lemma SameStoreEvolves(s: State, t: State, u: State)
    requires StoreEvolves(s, t) && u.store == t.store
    ensures StoreEvolves(s, u)
  {
  }

  lemma SameInFlight(s: State, t: State, id: Id)
    requires t.direct == s.direct && t.handler == s.handler
    ensures InFlight(t, id) == InFlight(s, id)
  {
  }

  lemma InvokeBeginFacts(cfg: Config, s: State, r: Request, trace: Trace)
    requires Inv(cfg, s) && s.loaded == s.store && r in s.waiting && Launch(cfg, s, r.id, r.parameters, trace).Some?
    ensures forall i :: ProposalOk(cfg, i, FactsOf(DoInvokeBegin(cfg, s, r, trace), i))
  {
    hide Inv, FactsOf, Launch;
    LaunchFrame(cfg, s, r.id, r.parameters, trace);
    LaunchedFacts(cfg, s, r, trace, DoInvokeBegin(cfg, s, r, trace));
  }

  /** A proposal in flight or pending is not launched, so no handler notices a launch. */
  lemma InvokeBeginHandler(cfg: Config, s: State, r: Request, trace: Trace)
    requires Inv(cfg, s) && s.loaded == s.store && LoadedIsCurrent(s) && r in s.waiting
    requires Launch(cfg, s, r.id, r.parameters, trace).Some?
    ensures HandlerOk(cfg, DoInvokeBegin(cfg, s, r, trace))
  {
    hide ProposalOk, Matches, FactsOf, ReversibleTarget, CompensationParameters, Launch, ArtifactOk, InvocationDigest;
    hide Granted, LoadedOk;
    LaunchFrame(cfg, s, r.id, r.parameters, trace);
    GrantedApproved(cfg, s, r);
    BegunArtifact(s.store[r.id]);
  }

  lemma BegunArtifact(p: Proposal)
    ensures forall a :: ArtifactOk(Begun(p), a) <==> ArtifactOk(p, a)
  {
  }

  lemma InvokeBeginKeeps(cfg: Config, s: State, r: Request, trace: Trace)
    requires Inv(cfg, s) && Permitted(s, InvokeBegin(r, trace))
    ensures Keeps(cfg, s, DoInvokeBegin(cfg, s, r, trace))
  {
    hide ProposalOk, Matches, FactsOf, HandlerOk, Launch;
    var t := DoInvokeBegin(cfg, s, r, trace);
    if r in s.waiting {
      LoadedIsStore(cfg, s);
      if Launch(cfg, s, r.id, r.parameters, trace).Some? {
        InvokeBeginFacts(cfg, s, r, trace);
        InvokeBeginHandler(cfg, s, r, trace);
        LaunchFrame(cfg, s, r.id, r.parameters, trace);
        LaunchedKeeps(cfg, s, r, trace, t);
      } else {
        DropKeeps(cfg, s, t.waiting);
      }
    }
  }

  /** A request is refused after all. */
  lemma DropKeeps(cfg: Config, s: State, waiting: multiset<Request>)
    requires Inv(cfg, s) && waiting <= s.waiting
    ensures Keeps(cfg, s, s.(waiting := waiting))
  {
    hide ProposalOk, Matches, FactsOf, StoreEvolves, ArtifactOk, CompensationParameters, ReversibleTarget;
    SameStoreKeeps(cfg, s, s.(waiting := waiting));
  }

  /** A request is authorized: nothing but what is promised changes. */
  lemma PromiseKeeps(cfg: Config, s: State, t: State, r: Request)
    requires Inv(cfg, s) && HandlerOk(cfg, t) && LoadedOk(t) && Granted(cfg, s, r)
    requires t.store == s.store && t.log == s.log && t.lost == s.lost && t.direct == s.direct
    requires t.executed == s.executed && t.applyRuns == s.applyRuns && t.before == s.before
    requires forall id :: HandlerRuns(t.handler, id) == HandlerRuns(s.handler, id)
    requires forall q | Promised(t, q) :: Promised(s, q) || q == r
    ensures Keeps(cfg, s, t)
  {
    hide ProposalOk, HandlerOk, LoadedOk, Matches, FactsOf, HandlerRuns, Promised;
    forall id ensures ProposalOk(cfg, id, FactsOf(t, id)) {
      assert ProposalOk(cfg, id, FactsOf(s, id));
      SameFacts(s, t, id);
    }
    forall e | e in t.executed ensures ExecutionOk(cfg, t, e) {
      assert ExecutionOk(cfg, s, e);
    }
  }

  lemma InvokeAuthorizeKeeps(cfg: Config, s: State, id: Id, incoming: Params)
    requires Inv(cfg, s)
    ensures Keeps(cfg, s, DoInvokeAuthorize(cfg, s, id, incoming))
  {
    hide ProposalOk, Matches, FactsOf, ArtifactOk, CompensationParameters, ReversibleTarget, Authorize;
    if id in s.store && Authorize(cfg, s.store[id].Terms(), incoming).Ok? {
      var r := Request(id, Authorize(cfg, s.store[id].Terms(), incoming).value);
      hide Inv, Keeps;
      assert Granted(cfg, s, r);
      AuthorizedHandler(cfg, s, s.waiting + multiset{r});
      PromiseKeeps(cfg, s, DoInvokeAuthorize(cfg, s, id, incoming), r);
    }
  }

  lemma AuthorizedHandler(cfg: Config, s: State, waiting: multiset<Request>)
    requires Inv(cfg, s)
    ensures HandlerOk(cfg, s.(waiting := waiting)) && LoadedOk(s.(waiting := waiting))
  {
    hide ProposalOk, Matches, FactsOf, ArtifactOk, CompensationParameters, ReversibleTarget;
  }

  /** A step that concerns one proposal. */
  lemma OneTouched(cfg: Config, s: State, t: State, id: Id, events: seq<Event>)
    requires Inv(cfg, s)
    requires t.log == s.log + events && t.lost == s.lost && forall k | 0 <= k < |events| :: events[k].id == id
    requires forall i | i != id :: Untouched(s, t, i)
    ensures forall i | i != id :: ProposalOk(cfg, i, FactsOf(t, i))
    ensures forall kind :: Tally(t, kind, id) == Tally(s, kind, id) + multiset(events)[Event(kind, id)]
    ensures ProposalOk(cfg, id, FactsOf(s, id))
  {
    hide ProposalOk, HandlerOk, Matches;
    forall i | i != id ensures ProposalOk(cfg, i, FactsOf(t, i)) {
      UntouchedFacts(s, t, events, i);
      assert ProposalOk(cfg, i, FactsOf(s, i));
    }
    forall kind ensures Tally(t, kind, id) == Tally(s, kind, id) + multiset(events)[Event(kind, id)] {
      LogGrows(s, t, events, kind, id);
    }
  }

  lemma OneEvolves(s: State, t: State, id: Id)
    requires id in s.store && id in t.store && t.store == s.store[id := t.store[id]]
    requires Evolves(s.store[id], t.store[id])
    ensures StoreEvolves(s, t)
  {
  }

  /** At most one execution of a proposal is in flight, and the store says so. */
  lemma InFlightIsInvoking(cfg: Config, s: State, id: Id)
    requires Inv(cfg, s) && InFlight(s, id) >= 1
    ensures id in s.store && s.store[id].invocation.state.Invoking? && InFlight(s, id) == 1
  {
    hide GoodDigest, HandlerOk, Matches, SnapshotOk;
    assert ProposalOk(cfg, id, FactsOf(s, id));
  }

  /** The facts after an execution ended. */
  function EndedFacts(f: Facts, status: ToolStatus): Facts
    requires f.p.Some?
  {
    f.(p := Some(Ended(f.p.value, status)), completed := f.completed + Bit(status.Success?),
       failed := f.failed + Bit(!status.Success?), inFlight := 0)
  }

  lemma EndedOk(cfg: Config, id: Id, f: Facts, status: ToolStatus)
    requires ProposalOk(cfg, id, f) && f.p.Some? && f.p.value.invocation.state.Invoking?
    ensures ProposalOk(cfg, id, EndedFacts(f, status))
  {
    hide GoodDigest, SnapshotOk;
    SnapshotStays(cfg, id, f.p.value, Ended(f.p.value, status), f.before);
  }

  /** What an execution returns to is current, unless a copy of the store is held elsewhere. */
  lemma LoadedIsStore(cfg: Config, s: State)
    requires Inv(cfg, s) && (LoadedIsCurrent(s) || s.handler.CompensationCreating?)
    ensures s.loaded == s.store
  {
    hide ProposalOk, HandlerOk, FactsOf, Matches;
  }

  /** The save after the tool returned, whatever becomes of the handler. */
  lemma ReturnedFacts(cfg: Config, s: State, id: Id, run: ToolRun, t: State)
    requires Inv(cfg, s) && s.loaded == s.store && InFlight(s, id) >= 1
    requires id in s.store && t.log == Returned(s, id, run).log && t.store == Returned(s, id, run).store
    requires t.lost == s.lost && t.applyRuns == s.applyRuns && t.before == s.before
    requires forall i :: InFlight(t, i) == if i == id then 0 else InFlight(s, i)
    ensures forall i :: ProposalOk(cfg, i, FactsOf(t, i))
    ensures t.store == s.store[id := Ended(s.store[id], run.status)] && Evolves(s.store[id], t.store[id])
    ensures s.store[id].invocation.state.Invoking?
  {
    hide ProposalOk, HandlerOk, Matches, Due, InFlight;
    InFlightIsInvoking(cfg, s, id);
    forall i ensures ProposalOk(cfg, i, FactsOf(t, i)) {
      assert ProposalOk(cfg, i, FactsOf(s, i));
      forall kind ensures Tally(t, kind, i) == Tally(s, kind, i) + Bit(EndEvent(id, run.status) == Event(kind, i)) {
        LogGrows(s, t, [EndEvent(id, run.status)], kind, i);
      }
      if i == id {
        EndedOk(cfg, id, FactsOf(s, id), run.status);
        assert FactsOf(t, id) == EndedFacts(FactsOf(s, id), run.status);
      } else {
        assert FactsOf(t, i) == FactsOf(s, i);
      }
    }
  }

  lemma InvokeEndFacts(cfg: Config, s: State, id: Id, run: ToolRun)
    requires Inv(cfg, s) && id in s.direct && LoadedIsCurrent(s)
    ensures id in s.store && s.store[id].invocation.state.Invoking? && !HandlerRuns(s.handler, id)
    ensures var t := DoInvokeEnd(s, id, run);
            && s.loaded == s.store && t.loaded == t.store && t.executed == s.executed && t.handler == s.handler
            && t.applyRuns == s.applyRuns && t.waiting == s.waiting
            && t.store == s.store[id := Ended(s.store[id], run.status)] && Evolves(s.store[id], t.store[id])
            && (forall i :: ProposalOk(cfg, i, FactsOf(t, i)))
  {
    hide ProposalOk, HandlerOk, Matches, FactsOf;
    LoadedIsStore(cfg, s);
    InFlightIsInvoking(cfg, s, id);
    ReturnedFacts(cfg, s, id, run, DoInvokeEnd(s, id, run));
  }

  lemma InvokeEndHandler(cfg: Config, s: State, id: Id, run: ToolRun)
    requires Inv(cfg, s) && LoadedIsCurrent(s) && id in s.direct
    ensures HandlerOk(cfg, DoInvokeEnd(s, id, run))
  {
    hide ProposalOk, Matches, FactsOf, ReversibleTarget, CompensationParameters, ArtifactOk, DoInvokeEnd;
    hide InvocationDigest;
    InvokeEndFacts(cfg, s, id, run);
    EndedArtifact(s.store[id], run.status);
  }

  lemma EndedArtifact(p: Proposal, status: ToolStatus)
    ensures forall a :: ArtifactOk(Ended(p, status), a) <==> ArtifactOk(p, a)
  {
  }

  lemma InvokeEndKeeps(cfg: Config, s: State, id: Id, run: ToolRun)
    requires Inv(cfg, s) && Permitted(s, InvokeEnd(id, run))
    ensures Keeps(cfg, s, DoInvokeEnd(s, id, run))
  {
    if id in s.direct {
      hide ProposalOk, Matches, FactsOf, HandlerOk, DoInvokeEnd, Evolves;
      InvokeEndFacts(cfg, s, id, run);
      InvokeEndHandler(cfg, s, id, run);
      OneEvolves(s, DoInvokeEnd(s, id, run), id);
      Assemble(cfg, s, DoInvokeEnd(s, id, run));
    }
  }

  lemma CanApplyFresh(cfg: Config, id: Id, f: Facts)
    requires ProposalOk(cfg, id, f) && f.p.Some? && CanApply(f.p.value)
    ensures f.applyRuns == 0 && f.inFlight == 0 && (f.p.value.tx.NoTx? || f.p.value.tx.ApplyFailed?)
  {
    hide GoodDigest, SnapshotOk;
  }

  /** Entering `Preparing`, or `Applying` at once. */
  lemma ApplyingOk(cfg: Config, id: Id, f: Facts, tx: TxState)
    requires ProposalOk(cfg, id, f) && f.p.Some? && f.p.value.decision.Approved?
    requires !AppliedOrLater(f.p.value.tx) && (tx.Preparing? || tx.Applying?)
    ensures ProposalOk(cfg, id, f.(p := Some(f.p.value.(tx := tx, rollback := NO_ROLLBACK))))
  {
    hide GoodDigest, SnapshotOk;
    GoodDigestStays(f.p.value, f.p.value.(tx := tx, rollback := NO_ROLLBACK));
  }

  lemma ApplyStartFacts(cfg: Config, s: State, id: Id)
    requires Inv(cfg, s) && s.handler.Idle? && id in s.store && CanApply(s.store[id])
    ensures forall i :: ProposalOk(cfg, i, FactsOf(DoApplyStart(cfg, s, id), i))
    ensures s.applyRuns[id] == 0 && (s.store[id].tx.NoTx? || s.store[id].tx.ApplyFailed?)
  {
    hide ProposalOk, HandlerOk, Matches, ReversibleTarget, FactsOf, ApplyParameters;
    var t := DoApplyStart(cfg, s, id);
    var events := if t.handler.Preflight? then [] else [Event(ApplyAttempted, id)];
    OneTouched(cfg, s, t, id, events);
    EntryOfFacts(s, id);
    EntryOfFacts(t, id);
    RunsOfFacts(s, id);
    CanApplyFresh(cfg, id, FactsOf(s, id));
    ApplyingOk(cfg, id, FactsOf(s, id), t.store[id].tx);
    EntryFacts(s, t, id, events);
  }

  lemma GoodDigestStays(p: Proposal, q: Proposal)
    requires p.command == q.command && p.parameters == q.parameters && p.digest == q.digest
    ensures GoodDigest(p.Terms()) <==> GoodDigest(q.Terms())
  {
    hide InvocationDigest;
  }

  lemma ApplyStartShape(cfg: Config, s: State, id: Id)
    requires s.handler.Idle? && id in s.store && CanApply(s.store[id])
    ensures var t, p := DoApplyStart(cfg, s, id), Prepared(s.store[id]);
            var target := ReversibleTarget(cfg, ApplyParameters(p.command, p.parameters));
            && t.executed == s.executed && t.loaded == t.store && t.waiting == s.waiting && t.applyRuns == s.applyRuns
            && t.handler == (if target.None? then ApplyReady(id) else Preflight(id, None, target.value))
            && t.store == s.store[id := if target.None? then p.(tx := Applying) else p]
  {
    hide ReversibleTarget, ApplyParameters;
  }

  lemma ApplyStartHandler(cfg: Config, s: State, id: Id)
    requires Inv(cfg, s) && s.handler.Idle? && id in s.store && CanApply(s.store[id])
    ensures var t := DoApplyStart(cfg, s, id);
            HandlerOk(cfg, t) && t.executed == s.executed && t.loaded == t.store && PromisesLess(s, t)
    ensures var t := DoApplyStart(cfg, s, id);
            id in t.store && t.store == s.store[id := t.store[id]] && Evolves(s.store[id], t.store[id])
  {
    hide Inv, ReversibleTarget, DoApplyStart;
    ApplyStartFacts(cfg, s, id);
    ApplyStartShape(cfg, s, id);
  }

  lemma ApplyStartKeeps(cfg: Config, s: State, id: Id)
    requires Inv(cfg, s)
    ensures Keeps(cfg, s, DoApplyStart(cfg, s, id))
  {
    hide Keeps, ReversibleTarget;
    if s.handler.Idle? && id in s.store && CanApply(s.store[id]) {
      ApplyStartedKeeps(cfg, s, id);
    } else {
      SameKeeps(cfg, s);
    }
  }

  lemma SameKeeps(cfg: Config, s: State)
    requires Inv(cfg, s)
    ensures Keeps(cfg, s, s)
  {
    hide Inv;
  }

  lemma ApplyStartedKeeps(cfg: Config, s: State, id: Id)
    requires Inv(cfg, s) && s.handler.Idle? && id in s.store && CanApply(s.store[id])
    ensures Keeps(cfg, s, DoApplyStart(cfg, s, id))
  {
    hide ProposalOk, Matches, FactsOf, HandlerOk, DoApplyStart, Evolves, Inv, PromisesLess;
    ApplyStartFacts(cfg, s, id);
    ApplyStartHandler(cfg, s, id);
    OneEvolves(s, DoApplyStart(cfg, s, id), id);
    Assemble(cfg, s, DoApplyStart(cfg, s, id));
  }

  /** The snapshot just captured refers to what the target holds now. */
  lemma CapturedOk(cfg: Config, id: Id, f: Facts, target: string, now: Workspace)
    requires ProposalOk(cfg, id, f) && f.p.Some? && f.p.value.decision.Approved? && f.p.value.tx.Preparing?
    requires target in now
    requires ReversibleTarget(cfg, ApplyParameters(f.p.value.command, f.p.value.parameters)) == Some(target)
    ensures var rollback := Rollback(true, Captured, Some(Snapshot(id, target, Sha256(now[target]))));
            ProposalOk(cfg, id, f.(p := Some(f.p.value.(tx := Applying, rollback := rollback)), before := Some(now)))
  {
    hide GoodDigest, ReversibleTarget, ApplyParameters;
    GoodDigestStays(f.p.value, f.p.value.(tx := Applying,
      rollback := Rollback(true, Captured, Some(Snapshot(id, target, Sha256(now[target]))))));
  }

  lemma ApplyCaptureShape(cfg: Config, s: State, cat: CatRun, written: bool)
    requires Inv(cfg, s) && Permitted(s, ApplyCapture(cat, written)) && s.handler.Preflight?
    ensures var id, target, t := s.handler.id, s.handler.target, DoApplyCapture(cfg, s, cat, written);
            && id in s.store && s.store[id].decision.Approved? && s.store[id].tx.Preparing? && s.applyRuns[id] == 0
            && t.log == s.log + [Event(ApplyAttempted, id)] && t.lost == s.lost && t.handler == ApplyReady(id)
            && t.loaded == t.store && t.waiting == s.waiting
            && t.direct == s.direct && t.applyRuns == s.applyRuns && t.executed == s.executed
            && if cat.CatText? && Fits(cfg, cat.output) && written then
                 && target in s.workspace
                 && ReversibleTarget(cfg, ApplyParameters(s.store[id].command, s.store[id].parameters)) == Some(target)
                 && t.before == s.before[id := s.workspace]
                 && t.store == s.store[id := s.store[id].(tx := Applying,
                      rollback := Rollback(true, Captured, Some(Snapshot(id, target, Sha256(s.workspace[target])))))]
               else
                 t.before == s.before && t.store == s.store[id := s.store[id].(tx := Applying, rollback := NO_ROLLBACK)]
  {
    hide ProposalOk, Matches, FactsOf, ReversibleTarget, ApplyParameters, Fits;
  }

  lemma ApplyCaptureFacts(cfg: Config, s: State, cat: CatRun, written: bool)
    requires Inv(cfg, s) && Permitted(s, ApplyCapture(cat, written)) && s.handler.Preflight?
    ensures forall i :: ProposalOk(cfg, i, FactsOf(DoApplyCapture(cfg, s, cat, written), i))
  {
    hide ProposalOk, HandlerOk, Matches, ReversibleTarget, ApplyParameters, Fits, DoApplyCapture, Permitted;
    ApplyCaptureShape(cfg, s, cat, written);
    var t := DoApplyCapture(cfg, s, cat, written);
    var id := s.handler.id;
    OneTouched(cfg, s, t, id, [Event(ApplyAttempted, id)]);
    if cat.CatText? && Fits(cfg, cat.output) && written {
      CapturedOk(cfg, id, FactsOf(s, id), s.handler.target, s.workspace);
      assert FactsOf(t, id) == FactsOf(s, id).(p := Some(t.store[id]), before := Some(s.workspace));
    } else {
      ApplyingOk(cfg, id, FactsOf(s, id), Applying);
      assert FactsOf(t, id) == FactsOf(s, id).(p := Some(t.store[id]));
    }
  }

  lemma ApplyCaptureKeeps(cfg: Config, s: State, cat: CatRun, written: bool)
    requires Inv(cfg, s) && Permitted(s, ApplyCapture(cat, written))
    ensures Keeps(cfg, s, DoApplyCapture(cfg, s, cat, written))
  {
    hide Keeps, Inv, Fits;
    if s.handler.Preflight? {
      CapturedKeeps(cfg, s, cat, written);
    } else {
      SameKeeps(cfg, s);
    }
  }

  lemma CapturedKeeps(cfg: Config, s: State, cat: CatRun, written: bool)
    requires Inv(cfg, s) && Permitted(s, ApplyCapture(cat, written)) && s.handler.Preflight?
    ensures Keeps(cfg, s, DoApplyCapture(cfg, s, cat, written))
  {
    hide ProposalOk, Matches, FactsOf, ReversibleTarget, CompensationParameters, Fits, DoApplyCapture, Inv, Permitted;
    ApplyCaptureFacts(cfg, s, cat, written);
    ApplyCaptureShape(cfg, s, cat, written);
    OneEvolves(s, DoApplyCapture(cfg, s, cat, written), s.handler.id);
    Assemble(cfg, s, DoApplyCapture(cfg, s, cat, written));
  }

  lemma ApplyFailsKeeps(cfg: Config, s: State)
    requires Inv(cfg, s) && (s.handler.ApplyReady? || s.handler.ApplyAuthorized?)
    ensures s.handler.id in s.store && Keeps(cfg, s, ApplyFails(s, s.handler.id))
  {
    hide ProposalOk, Matches, FactsOf, ReversibleTarget, CompensationParameters, Promised, Granted;
    var id := s.handler.id;
    var t, f := ApplyFails(s, id), FactsOf(s, id);
    OneTouched(cfg, s, t, id, [Event(ApplyFailure, id)]);
    EntryOfFacts(s, id);
    EntryOfFacts(t, id);
    SuccessesNatural(cfg, id, f);
    ApplyClosedOk(cfg, id, f, false);
    EntryFacts(s, t, id, [Event(ApplyFailure, id)]);
    OneEvolves(s, t, id);
    IdleOk(cfg, t);
    Assemble(cfg, s, t);
  }

  lemma ApplyAuthorizeKeeps(cfg: Config, s: State)
    requires Inv(cfg, s)
    ensures Keeps(cfg, s, DoApplyAuthorize(cfg, s))
  {
    if s.handler.ApplyReady? && s.handler.id in s.store {
      hide ProposalOk, Matches, FactsOf, Authorize, ApplyParameters, ApplyFails, Inv, Keeps;
      var id, t := s.handler.id, DoApplyAuthorize(cfg, s);
      if t.handler.ApplyAuthorized? {
        assert Granted(cfg, s, Request(id, t.handler.parameters));
        ApplyAuthorizedHandler(cfg, s, t.handler.parameters);
        PromiseKeeps(cfg, s, t, Request(id, t.handler.parameters));
      } else {
        ApplyFailsKeeps(cfg, s);
      }
    }
  }

  lemma ApplyAuthorizedHandler(cfg: Config, s: State, parameters: Params)
    requires Inv(cfg, s) && s.handler.ApplyReady?
    ensures var t := s.(handler := ApplyAuthorized(s.handler.id, parameters)); HandlerOk(cfg, t) && LoadedOk(t)
  {
    hide ProposalOk, Matches, FactsOf;
  }

  lemma ApplyLaunchKeeps(cfg: Config, s: State, trace: Trace)
    requires Inv(cfg, s) && s.handler.ApplyAuthorized?
    requires Launch(cfg, s, s.handler.id, s.handler.parameters, trace).Some?
    ensures Keeps(cfg, s, DoApplyBegin(cfg, s, trace))
  {
    hide ProposalOk, Matches, FactsOf, Launch, ReversibleTarget, CompensationParameters, Granted;
    var ApplyAuthorized(id, parameters) := s.handler;
    var r, t := Request(id, parameters), DoApplyBegin(cfg, s, trace);
    LaunchFrame(cfg, s, id, parameters, trace);
    LaunchedFacts(cfg, s, r, trace, t);
    LaunchedKeeps(cfg, s, r, trace, t);
  }

  lemma LoadAgain(cfg: Config, s: State)
    requires Inv(cfg, s) && !HoldsCopy(s.handler) && !s.handler.CompensationCreated?
    ensures Load(s) == s
  {
    hide ProposalOk, FactsOf, HandlerOk, Matches;
  }

  lemma ApplyBeginKeeps(cfg: Config, s: State, trace: Trace)
    requires Inv(cfg, s)
    ensures Keeps(cfg, s, DoApplyBegin(cfg, s, trace))
  {
    hide ProposalOk, Matches, FactsOf, Launch, ApplyFails, ReversibleTarget, CompensationParameters, ArtifactOk;
    if s.handler.ApplyAuthorized? {
      if Launch(cfg, s, s.handler.id, s.handler.parameters, trace).Some? {
        ApplyLaunchKeeps(cfg, s, trace);
      } else {
        LoadAgain(cfg, s);
        ApplyFailsKeeps(cfg, s);
      }
    }
  }

  /** Closing an apply, after its execution succeeded or not. */
  lemma ApplyClosedOk(cfg: Config, id: Id, f: Facts, ok: bool)
    requires ProposalOk(cfg, id, f) && f.p.Some? && f.p.value.decision.Approved? && f.p.value.tx.Applying?
    requires ok ==> f.applyRuns == 1 && f.p.value.invocation.successes >= 1
    ensures var p := f.p.value.(tx := if ok then Applied else ApplyFailed);
            ProposalOk(cfg, id, f.(p := Some(p), applied := Bit(ok)))
  {
    hide GoodDigest, SnapshotOk;
    SnapshotStays(cfg, id, f.p.value, f.p.value.(tx := if ok then Applied else ApplyFailed), f.before);
  }

  lemma SuccessesNatural(cfg: Config, id: Id, f: Facts)
    requires ProposalOk(cfg, id, f) && f.p.Some?
    ensures f.p.value.invocation.successes >= 0 && f.applied == Bit(AppliedOrLater(f.p.value.tx))
  {
    hide GoodDigest, SnapshotOk;
  }

  lemma ApplyEndShape(cfg: Config, s: State, run: ToolRun)
    requires Inv(cfg, s) && s.handler.ApplyRunning?
    ensures var id, t, ok := s.handler.id, DoApplyEnd(s, run), run.status.Success?;
            && id in s.store && s.store[id].decision.Approved? && s.store[id].tx.Applying? && s.applyRuns[id] == 1
            && t.log == s.log + [EndEvent(id, run.status), Event(if ok then ApplyCompleted else ApplyFailure, id)]
            && t.store == s.store[id := Ended(s.store[id], run.status).(tx := if ok then Applied else ApplyFailed)]
            && t.direct == s.direct && t.applyRuns == s.applyRuns && t.before == s.before && t.handler == Idle
            && t.executed == s.executed && t.lost == s.lost && t.loaded == t.store && t.waiting == s.waiting
  {
    hide ProposalOk, FactsOf, Matches, ReversibleTarget, CompensationParameters;
  }

  lemma ApplyEndOthers(cfg: Config, s: State, run: ToolRun)
    requires Inv(cfg, s) && s.handler.ApplyRunning?
    ensures forall i | i != s.handler.id :: ProposalOk(cfg, i, FactsOf(DoApplyEnd(s, run), i))
  {
    hide ProposalOk, HandlerOk, Matches, DoApplyEnd;
    ApplyEndShape(cfg, s, run);
    var last := Event(if run.status.Success? then ApplyCompleted else ApplyFailure, s.handler.id);
    OneTouched(cfg, s, DoApplyEnd(s, run), s.handler.id, [EndEvent(s.handler.id, run.status), last]);
  }

  /** The facts of a proposal whose apply just ended. */
  function ApplyClosed(f: Facts, ok: bool): Facts
    requires f.p.Some?
  {
    f.(p := Some(f.p.value.(tx := if ok then Applied else ApplyFailed)), applied := f.applied + Bit(ok))
  }

  lemma ApplyEndEntry(cfg: Config, s: State, run: ToolRun)
    requires Inv(cfg, s) && s.handler.ApplyRunning?
    ensures FactsOf(s, s.handler.id).p.Some?
    ensures FactsOf(DoApplyEnd(s, run), s.handler.id)
         == ApplyClosed(EndedFacts(FactsOf(s, s.handler.id), run.status), run.status.Success?)
  {
    hide ProposalOk, HandlerOk, Matches, DoApplyEnd, Tally;
    var id, t := s.handler.id, DoApplyEnd(s, run);
    ApplyEndShape(cfg, s, run);
    InFlightIsInvoking(cfg, s, id);
    var last := Event(if run.status.Success? then ApplyCompleted else ApplyFailure, id);
    forall kind ensures Tally(t, kind, id)
        == Tally(s, kind, id) + Bit(EndEvent(id, run.status) == Event(kind, id)) + Bit(last == Event(kind, id))
    {
      TwoEvents(s, t, EndEvent(id, run.status), last, kind, id);
    }
  }

  lemma ApplyEndFacts(cfg: Config, s: State, run: ToolRun)
    requires Inv(cfg, s) && s.handler.ApplyRunning?
    ensures forall i :: ProposalOk(cfg, i, FactsOf(DoApplyEnd(s, run), i))
  {
    hide ProposalOk, HandlerOk, Matches, DoApplyEnd, FactsOf;
    var id, ok, f := s.handler.id, run.status.Success?, FactsOf(s, s.handler.id);
    ApplyEndShape(cfg, s, run);
    ApplyEndOthers(cfg, s, run);
    ApplyEndEntry(cfg, s, run);
    InFlightIsInvoking(cfg, s, id);
    EntryOfFacts(s, id);
    assert ProposalOk(cfg, id, f);
    SuccessesNatural(cfg, id, f);
    EndedOk(cfg, id, f, run.status);
    RunsOfFacts(s, id);
    ApplyClosedOk(cfg, id, EndedFacts(f, run.status), ok);
  }

  lemma RunsOfFacts(s: State, id: Id)
    ensures FactsOf(s, id).applyRuns == s.applyRuns[id] && FactsOf(s, id).inFlight == InFlight(s, id)
  {
  }

  lemma ApplyEndKeeps(cfg: Config, s: State, run: ToolRun)
    requires Inv(cfg, s)
    ensures Keeps(cfg, s, DoApplyEnd(s, run))
  {
    hide Keeps, Inv, Ended;
    if s.handler.ApplyRunning? {
      ApplyEndedKeeps(cfg, s, run);
    } else {
      SameKeeps(cfg, s);
    }
  }

  lemma ApplyEndedKeeps(cfg: Config, s: State, run: ToolRun)
    requires Inv(cfg, s) && s.handler.ApplyRunning?
    ensures Keeps(cfg, s, DoApplyEnd(s, run))
  {
    hide ProposalOk, Matches, FactsOf, DoApplyEnd, Inv;
    ApplyEndFacts(cfg, s, run);
    ApplyEndShape(cfg, s, run);
    SuccessesGrow(cfg, s, s.handler.id);
    OneEvolves(s, DoApplyEnd(s, run), s.handler.id);
    IdleOk(cfg, DoApplyEnd(s, run));
    Assemble(cfg, s, DoApplyEnd(s, run));
  }

  lemma SuccessesGrow(cfg: Config, s: State, id: Id)
    requires Inv(cfg, s) && id in s.store
    ensures s.store[id].invocation.successes >= 0
  {
    hide GoodDigest, SnapshotOk, HandlerOk, Matches;
    assert ProposalOk(cfg, id, FactsOf(s, id));
  }

  lemma RollbackStartFacts(cfg: Config, s: State, id: Id)
    requires Inv(cfg, s) && DoRollbackStart(s, id) != s
    ensures forall i :: ProposalOk(cfg, i, FactsOf(DoRollbackStart(s, id), i))
  {
    hide GoodDigest, HandlerOk, Matches, SnapshotOk, LoadSnapshot;
    var t := DoRollbackStart(s, id);
    assert ProposalOk(cfg, id, FactsOf(s, id));
    OneTouched(cfg, s, t, id, []);
    SnapshotStays(cfg, id, s.store[id], t.store[id], FactsOf(s, id).before);
  }

  lemma RollbackStartKeeps(cfg: Config, s: State, id: Id)
    requires Inv(cfg, s)
    ensures Keeps(cfg, s, DoRollbackStart(s, id))
  {
    hide Matches, FactsOf, ReversibleTarget, CompensationParameters, GoodDigest, SnapshotOk;
    var t := DoRollbackStart(s, id);
    if t != s {
      assert ProposalOk(cfg, id, FactsOf(s, id));
      EntryOfFacts(s, id);
      RollbackStartFacts(cfg, s, id);
      Assemble(cfg, s, t);
    }
  }

  /** The compensator enters the store pending, and unexecuted. */
  lemma CompensatorOk(cfg: Config, id: Id, f: Facts, q: Proposal, a: Artifact)
    requires ProposalOk(cfg, id, f) && f.p.None?
    ensures ProposalOk(cfg, id, f.(p := Some(Compensator(cfg, q, a))))
  {
    hide InvocationDigest, CompensationParameters;
  }

  /** A pending compensator is approved. */
  lemma CompensatorApprovedOk(cfg: Config, id: Id, f: Facts)
    requires ProposalOk(cfg, id, f) && f.p.Some? && f.p.value.decision.Pending? && f.p.value.policyAllowed
    ensures ProposalOk(cfg, id, f.(p := Some(f.p.value.(decision := Approved)), decided := 1))
    ensures f.decided == 0
  {
    hide GoodDigest, SnapshotOk;
    SnapshotStays(cfg, id, f.p.value, f.p.value.(decision := Approved), f.before);
  }

  /** Moves of the transaction past `Applied`. */
  lemma CompensatingOk(cfg: Config, id: Id, f: Facts, tx: TxState, state: CompensationState)
    requires ProposalOk(cfg, id, f) && f.p.Some? && f.p.value.decision.Approved?
    requires (f.p.value.tx.RollbackPreparing? && tx.RollingBack?)
          || (f.p.value.tx.RollingBack? && (tx.RolledBack? || tx.RollbackFailed?))
    ensures var p := f.p.value.(tx := tx, rollback := f.p.value.rollback.(state := state));
            ProposalOk(cfg, id, f.(p := Some(p), compensated := 1, restored := Bit(tx.RolledBack?)))
  {
    hide GoodDigest, SnapshotOk;
    SnapshotStays(cfg, id, f.p.value, f.p.value.(tx := tx, rollback := f.p.value.rollback.(state := state)), f.before);
  }

  /** Reading the store changes only the handler. */
  lemma RollbackLoadKeeps(cfg: Config, s: State)
    requires Inv(cfg, s)
    ensures Keeps(cfg, s, DoRollbackLoad(s))
  {
    hide ProposalOk, Matches, CompensationParameters, ReversibleTarget, ArtifactOk;
    var t := DoRollbackLoad(s);
    forall id ensures ProposalOk(cfg, id, FactsOf(t, id)) {
      assert ProposalOk(cfg, id, FactsOf(s, id));
      assert FactsOf(t, id) == FactsOf(s, id);
    }
    Assemble(cfg, s, t);
  }

  lemma RollbackWriteShape(cfg: Config, s: State, newId: Id)
    requires Inv(cfg, s) && newId !in s.store && s.handler.CompensationCreating?
    ensures var id, a, t := s.handler.id, s.handler.artifact, DoRollbackWrite(cfg, s, newId);
            && id in s.store && t.log == s.log + [Event(ProposalCreated, newId)] && t.lost == s.lost
            && t.store == s.store[newId := Compensator(cfg, s.store[id], a)] && t.loaded == s.store
            && t.direct == s.direct && t.applyRuns == s.applyRuns && t.before == s.before && t.executed == s.executed
            && t.handler == CompensationCreated(id, newId, a) && t.waiting == s.waiting
  {
    hide ProposalOk, FactsOf, Matches, Compensator;
  }

  lemma RollbackWriteFacts(cfg: Config, s: State, newId: Id)
    requires Inv(cfg, s) && newId !in s.store && s.handler.CompensationCreating?
    ensures forall i :: ProposalOk(cfg, i, FactsOf(DoRollbackWrite(cfg, s, newId), i))
  {
    hide ProposalOk, HandlerOk, Matches, DoRollbackWrite, Compensator;
    RollbackWriteShape(cfg, s, newId);
    var t, f := DoRollbackWrite(cfg, s, newId), FactsOf(s, newId);
    OneTouched(cfg, s, t, newId, [Event(ProposalCreated, newId)]);
    CompensatorOk(cfg, newId, f, s.store[s.handler.id], s.handler.artifact);
    assert FactsOf(t, newId) == f.(p := Some(Compensator(cfg, s.store[s.handler.id], s.handler.artifact)));
  }

  lemma RollbackWriteHandler(cfg: Config, s: State, newId: Id)
    requires Inv(cfg, s) && newId !in s.store && s.handler.CompensationCreating?
    ensures var t := DoRollbackWrite(cfg, s, newId); HandlerOk(cfg, t) && StoreEvolves(s, t)
  {
    hide ProposalOk, Matches, FactsOf, DoRollbackWrite, CompensationParameters, InvocationDigest;
    RollbackWriteShape(cfg, s, newId);
  }

  lemma RollbackWriteKeeps(cfg: Config, s: State, newId: Id)
    requires Inv(cfg, s) && Permitted(s, RollbackWrite(newId))
    ensures Keeps(cfg, s, DoRollbackWrite(cfg, s, newId))
  {
    hide ProposalOk, Matches, FactsOf, Compensator, Granted, Promised, ExecutionOk;
    if s.handler.CompensationCreating? {
      hide HandlerOk, StoreEvolves, DoRollbackWrite;
      RollbackWriteHandler(cfg, s, newId);
      RollbackWriteFacts(cfg, s, newId);
      RollbackWriteShape(cfg, s, newId);
      WithoutNew(s.store, newId, Compensator(cfg, s.store[s.handler.id], s.handler.artifact));
      Assemble(cfg, s, DoRollbackWrite(cfg, s, newId));
    }
  }

  lemma WithoutNew(store: Store, newId: Id, p: Proposal)
    requires newId !in store
    ensures store[newId := p] - {newId} == store
  {
  }

  lemma RollbackApproveShape(cfg: Config, s: State)
    requires Inv(cfg, s) && s.handler.CompensationCreated?
    ensures var CompensationCreated(id, c, a) := s.handler; var t := DoRollbackApprove(s);
            && id in s.store && c in s.store && c != id
            && s.store[id].decision.Approved? && s.store[id].tx.RollbackPreparing?
            && s.store[c].decision.Pending? && s.store[c].policyAllowed
            && t.log == s.log + [Event(ProposalDecided, c), Event(RollbackAttempted, id)] && t.lost == s.lost
            && t.store == s.store[c := s.store[c].(decision := Approved)]
                 [id := s.store[id].(tx := RollingBack, rollback := s.store[id].rollback.(state := Started))]
            && t.loaded == t.store && t.waiting == s.waiting
            && t.direct == s.direct && t.applyRuns == s.applyRuns && t.before == s.before && t.executed == s.executed
            && t.workspace == s.workspace && t.artifacts == s.artifacts
            && t.handler == CompensationReady(id, c, a)
  {
    hide ProposalOk, FactsOf, Matches, CompensationParameters;
  }

  /** Two proposals changed together: what becomes of the facts of each. */
  lemma RollbackApproveEntries(cfg: Config, s: State, i: Id)
    requires Inv(cfg, s) && s.handler.CompensationCreated?
    ensures var CompensationCreated(id, c, a) := s.handler; var t, f := DoRollbackApprove(s), FactsOf(s, i);
            && (i == id || i == c ==> i in t.store && i in s.store)
            && FactsOf(t, i) ==
               if i == c then f.(p := Some(s.store[c].(decision := Approved)), decided := f.decided + 1)
               else if i == id then f.(p := Some(t.store[id]), compensated := f.compensated + 1)
               else f
  {
    hide ProposalOk, HandlerOk, Matches, DoRollbackApprove, Tally;
    RollbackApproveShape(cfg, s);
    var CompensationCreated(id, c, a) := s.handler;
    var t := DoRollbackApprove(s);
    forall kind ensures Tally(t, kind, i) == Tally(s, kind, i)
        + Bit(Event(ProposalDecided, c) == Event(kind, i)) + Bit(Event(RollbackAttempted, id) == Event(kind, i))
    {
      TwoEvents(s, t, Event(ProposalDecided, c), Event(RollbackAttempted, id), kind, i);
    }
  }

  lemma RollbackApproveFacts(cfg: Config, s: State)
    requires Inv(cfg, s) && s.handler.CompensationCreated?
    ensures forall i :: ProposalOk(cfg, i, FactsOf(DoRollbackApprove(s), i))
  {
    hide ProposalOk, HandlerOk, Matches, DoRollbackApprove, FactsOf;
    RollbackApproveShape(cfg, s);
    var CompensationCreated(id, c, a) := s.handler;
    var t := DoRollbackApprove(s);
    forall i ensures ProposalOk(cfg, i, FactsOf(t, i)) {
      var f := FactsOf(s, i);
      assert ProposalOk(cfg, i, f);
      EntryOfFacts(s, i);
      RollbackApproveEntries(cfg, s, i);
      if i == c {
        CompensatorApprovedOk(cfg, i, f);
      } else if i == id {
        AuditOfFacts(cfg, i, f);
        CompensatingOk(cfg, i, f, RollingBack, Started);
      }
    }
  }

  lemma AuditOfFacts(cfg: Config, id: Id, f: Facts)
    requires ProposalOk(cfg, id, f) && f.p.Some?
    ensures AuditOk(f, f.p.value)
  {
    hide GoodDigest, SnapshotOk;
  }

  lemma RollbackApproveHandler(cfg: Config, s: State)
    requires Inv(cfg, s) && s.handler.CompensationCreated?
    ensures HandlerOk(cfg, DoRollbackApprove(s)) && StoreEvolves(s, DoRollbackApprove(s))
  {
    hide ProposalOk, Matches, FactsOf, DoRollbackApprove, CompensationParameters, InvocationDigest;
    RollbackApproveShape(cfg, s);
  }

  lemma RollbackApproveKeeps(cfg: Config, s: State)
    requires Inv(cfg, s)
    ensures Keeps(cfg, s, DoRollbackApprove(s))
  {
    if s.handler.CompensationCreated? {
      hide ProposalOk, Matches, FactsOf, DoRollbackApprove, HandlerOk, StoreEvolves, Inv;
      RollbackApproveFacts(cfg, s);
      RollbackApproveShape(cfg, s);
      RollbackApproveHandler(cfg, s);
      Assemble(cfg, s, DoRollbackApprove(s));
    }
  }

  lemma RollbackFailsKeeps(cfg: Config, s: State)
    requires Inv(cfg, s) && (s.handler.CompensationReady? || s.handler.CompensationAuthorized?)
    ensures s.handler.id in s.store && Keeps(cfg, s, RollbackFails(s, s.handler.id))
  {
    hide ProposalOk, Matches, CompensationParameters, FactsOf, ArtifactOk, Promised, Granted;
    var id := s.handler.id;
    var t, f := RollbackFails(s, id), FactsOf(s, id);
    OneTouched(cfg, s, t, id, [Event(RollbackFailure, id)]);
    EntryOfFacts(s, id);
    EntryOfFacts(t, id);
    AuditOfFacts(cfg, id, f);
    CompensatingOk(cfg, id, f, RollbackFailed, NotRestored);
    EntryFacts(s, t, id, [Event(RollbackFailure, id)]);
    OneEvolves(s, t, id);
    IdleOk(cfg, t);
    Assemble(cfg, s, t);
  }

  lemma RollbackAuthorizeKeeps(cfg: Config, s: State)
    requires Inv(cfg, s)
    ensures Keeps(cfg, s, DoRollbackAuthorize(cfg, s))
  {
    hide ProposalOk, Matches, FactsOf, Authorize, CompensationParameters, RollbackFails;
    if s.handler.CompensationReady? && s.handler.id in s.store {
      hide Inv, Keeps, HandlerOk, Granted;
      var CompensationReady(id, c, a) := s.handler;
      var incoming := CompensationParameters(cfg, s.store[id].parameters, a)[ProposalId := Text(c)];
      if c in s.store && Authorize(cfg, s.store[c].Terms(), incoming).Ok? {
        var parameters := Authorize(cfg, s.store[c].Terms(), incoming).value;
        GrantedHere(cfg, s, c, incoming);
        RollbackAuthorizedHandler(cfg, s, parameters);
        PromiseKeeps(cfg, s, s.(handler := CompensationAuthorized(id, c, a, parameters)), Request(c, parameters));
      } else {
        RollbackFailsKeeps(cfg, s);
      }
    }
  }

  lemma GrantedHere(cfg: Config, s: State, id: Id, incoming: Params)
    requires id in s.store && Authorize(cfg, s.store[id].Terms(), incoming).Ok?
    ensures Granted(cfg, s, Request(id, Authorize(cfg, s.store[id].Terms(), incoming).value))
  {
    hide Authorize;
  }

  lemma RollbackAuthorizedHandler(cfg: Config, s: State, parameters: Params)
    requires Inv(cfg, s) && s.handler.CompensationReady?
    ensures var CompensationReady(id, c, a) := s.handler;
            var t := s.(handler := CompensationAuthorized(id, c, a, parameters));
            HandlerOk(cfg, t) && LoadedOk(t)
  {
    hide ProposalOk, Matches, FactsOf, CompensationParameters;
  }

  lemma RollbackLaunchKeeps(cfg: Config, s: State, trace: Trace)
    requires Inv(cfg, s) && s.handler.CompensationAuthorized?
    requires Launch(cfg, s, s.handler.compensator, s.handler.parameters, trace).Some?
    ensures Keeps(cfg, s, DoRollbackBegin(cfg, s, trace))
  {
    hide ProposalOk, Matches, FactsOf, Launch, ReversibleTarget, CompensationParameters, Granted;
    var CompensationAuthorized(id, c, a, parameters) := s.handler;
    var r, t := Request(c, parameters), DoRollbackBegin(cfg, s, trace);
    LaunchFrame(cfg, s, c, parameters, trace);
    LaunchedFacts(cfg, s, r, trace, t);
    LaunchedKeeps(cfg, s, r, trace, t);
  }

  lemma RollbackBeginKeeps(cfg: Config, s: State, trace: Trace)
    requires Inv(cfg, s)
    ensures Keeps(cfg, s, DoRollbackBegin(cfg, s, trace))
  {
    hide ProposalOk, Matches, FactsOf, Launch, RollbackFails, ReversibleTarget, CompensationParameters, ArtifactOk;
    if s.handler.CompensationAuthorized? {
      if Launch(cfg, s, s.handler.compensator, s.handler.parameters, trace).Some? {
        RollbackLaunchKeeps(cfg, s, trace);
      } else {
        LoadAgain(cfg, s);
        RollbackFailsKeeps(cfg, s);
      }
    }
  }

  /** Whether the compensating execution counts as having restored the target. */
  predicate Restores(a: Artifact, run: ToolRun) {
    run.status.Success? && run.verified && run.evidence == Some(a.digest)
  }

  lemma RollbackEndShape(cfg: Config, s: State, run: ToolRun)
    requires Inv(cfg, s) && s.handler.CompensationRunning?
    ensures var CompensationRunning(id, c, a) := s.handler;
            var t, ok := DoRollbackEnd(s, run), Restores(s.handler.artifact, run);
            && id in s.store && c in s.store && c != id && s.store[id].decision.Approved? && s.store[id].tx.RollingBack?
            && t.log == s.log + [EndEvent(c, run.status), Event(if ok then RollbackCompleted else RollbackFailure, id)]
            && t.store == s.store[c := Ended(s.store[c], run.status)]
                 [id := s.store[id].(tx := if ok then RolledBack else RollbackFailed,
                                     rollback := s.store[id].rollback.(state := if ok then Restored else NotRestored))]
            && t.direct == s.direct && t.applyRuns == s.applyRuns && t.before == s.before && t.handler == Idle
            && t.executed == s.executed && t.workspace == run.after && t.lost == s.lost && t.loaded == t.store
            && t.waiting == s.waiting
  {
    hide ProposalOk, FactsOf, Matches, CompensationParameters;
  }

  lemma TwoEvents(s: State, t: State, e1: Event, e2: Event, kind: EventKind, id: Id)
    requires t.log == s.log + [e1, e2] && t.lost == s.lost
    ensures Tally(t, kind, id) == Tally(s, kind, id) + Bit(e1 == Event(kind, id)) + Bit(e2 == Event(kind, id))
  {
    LogGrows(s, t, [e1, e2], kind, id);
  }

  lemma RollbackEndEntries(cfg: Config, s: State, run: ToolRun, i: Id)
    requires Inv(cfg, s) && s.handler.CompensationRunning?
    ensures var CompensationRunning(id, c, a) := s.handler; var t, f := DoRollbackEnd(s, run), FactsOf(s, i);
            && (i == id || i == c ==> i in t.store && f.p.Some?)
            && FactsOf(t, i) ==
               if i == c then EndedFacts(f, run.status)
               else if i == id then f.(p := Some(t.store[i]), restored := f.restored + Bit(Restores(a, run)))
               else f
  {
    hide ProposalOk, HandlerOk, Matches, DoRollbackEnd, Tally, Restores;
    RollbackEndShape(cfg, s, run);
    var CompensationRunning(id, c, a) := s.handler;
    var t := DoRollbackEnd(s, run);
    var last := Event(if Restores(a, run) then RollbackCompleted else RollbackFailure, id);
    InFlightIsInvoking(cfg, s, c);
    forall kind ensures Tally(t, kind, i)
        == Tally(s, kind, i) + Bit(EndEvent(c, run.status) == Event(kind, i)) + Bit(last == Event(kind, i))
    {
      TwoEvents(s, t, EndEvent(c, run.status), last, kind, i);
    }
  }

  lemma RollbackEndFacts(cfg: Config, s: State, run: ToolRun)
    requires Inv(cfg, s) && s.handler.CompensationRunning?
    ensures forall i :: ProposalOk(cfg, i, FactsOf(DoRollbackEnd(s, run), i))
  {
    hide ProposalOk, HandlerOk, Matches, DoRollbackEnd, FactsOf;
    RollbackEndShape(cfg, s, run);
    var CompensationRunning(id, c, a) := s.handler;
    var t := DoRollbackEnd(s, run);
    CompensatorRuns(cfg, s);
    forall i ensures ProposalOk(cfg, i, FactsOf(t, i)) {
      var f := FactsOf(s, i);
      assert ProposalOk(cfg, i, f);
      EntryOfFacts(s, i);
      RollbackEndEntries(cfg, s, run, i);
      if i == c {
        EndedOk(cfg, c, f, run.status);
      } else if i == id {
        AuditOfFacts(cfg, i, f);
        CompensatingOk(cfg, i, f, t.store[i].tx, t.store[i].rollback.state);
      }
    }
  }

  lemma CompensatorRuns(cfg: Config, s: State)
    requires Inv(cfg, s) && s.handler.CompensationRunning?
    ensures s.store[s.handler.compensator].invocation.state.Invoking?
  {
    hide ProposalOk, FactsOf, Matches;
  }

  lemma RollbackEndKeeps(cfg: Config, s: State, run: ToolRun)
    requires Inv(cfg, s)
    ensures Keeps(cfg, s, DoRollbackEnd(s, run))
  {
    hide Keeps, Inv, Ended, RollbackFails;
    if s.handler.CompensationRunning? {
      RollbackEndedKeeps(cfg, s, run);
    } else {
      SameKeeps(cfg, s);
    }
  }

  lemma RollbackEndedKeeps(cfg: Config, s: State, run: ToolRun)
    requires Inv(cfg, s) && s.handler.CompensationRunning?
    ensures Keeps(cfg, s, DoRollbackEnd(s, run))
  {
    hide ProposalOk, Matches, FactsOf, DoRollbackEnd, Inv, Restores;
    RollbackEndFacts(cfg, s, run);
    RollbackEndShape(cfg, s, run);
    IdleOk(cfg, DoRollbackEnd(s, run));
    Assemble(cfg, s, DoRollbackEnd(s, run));
  }

  /** Facts do not depend on the workspace, the disk, or what is loaded. */
  lemma SameFacts(s: State, t: State, id: Id)
    requires t.store == s.store && t.log == s.log && t.lost == s.lost && t.direct == s.direct
    requires t.applyRuns == s.applyRuns && t.before == s.before
    requires HandlerRuns(t.handler, id) == HandlerRuns(s.handler, id)
    ensures FactsOf(t, id) == FactsOf(s, id)
  {
    hide Due, HandlerRuns;
  }

  /** A step that changes no entry and no count. */
  lemma SameStoreKeeps(cfg: Config, s: State, t: State)
    requires Inv(cfg, s) && HandlerOk(cfg, t) && LoadedOk(t)
    requires t.store == s.store && t.log == s.log && t.lost == s.lost && t.direct == s.direct
    requires t.executed == s.executed && t.applyRuns == s.applyRuns && t.before == s.before && PromisesLess(s, t)
    requires forall id :: HandlerRuns(t.handler, id) == HandlerRuns(s.handler, id)
    ensures Keeps(cfg, s, t)
  {
    hide ProposalOk, HandlerOk, LoadedOk, Matches, FactsOf, HandlerRuns, PromisesLess;
    forall id ensures ProposalOk(cfg, id, FactsOf(t, id)) {
      assert ProposalOk(cfg, id, FactsOf(s, id));
      SameFacts(s, t, id);
    }
    Assemble(cfg, s, t);
  }

  /** A decision that found the store unchanged saves the same store. */
  lemma DecidedKeeps(cfg: Config, s: State)
    requires Inv(cfg, s)
    ensures Keeps(cfg, s, DoDecideFinish(s))
  {
    hide ProposalOk, Matches, FactsOf, StoreEvolves;
    assert DoDecideFinish(s).store == s.store;
    SameStoreKeeps(cfg, s, DoDecideFinish(s));
  }

  /** Other writers and the disk touch no proposal. */
  lemma OutsideKeeps(cfg: Config, s: State, workspace: Workspace, artifacts: map<Id, Artifact>)
    requires Inv(cfg, s)
    ensures Keeps(cfg, s, s.(workspace := workspace, artifacts := artifacts))
  {
    hide ProposalOk, Matches, FactsOf, StoreEvolves, ArtifactOk, CompensationParameters, ReversibleTarget;
    SameStoreKeeps(cfg, s, s.(workspace := workspace, artifacts := artifacts));
  }

  /** Loading changes nothing. */
  lemma LoadKeeps(cfg: Config, s: State)
    requires Inv(cfg, s)
    ensures Keeps(cfg, s, Load(s))
  {
    hide ProposalOk, Matches, FactsOf, StoreEvolves, ArtifactOk, CompensationParameters, ReversibleTarget;
    SameStoreKeeps(cfg, s, Load(s));
  }

  /** A crash drops what was in flight. */
  lemma CrashedKeeps(cfg: Config, s: State)
    requires Inv(cfg, s)
    ensures Keeps(cfg, s, Crashed(s))
  {
    hide ProposalOk, HandlerOk, Matches, Due;
    var t := Crashed(s);
    forall id ensures ProposalOk(cfg, id, FactsOf(t, id)) {
      var f := FactsOf(s, id);
      assert ProposalOk(cfg, id, f);
      FewerInFlight(cfg, id, f);
      assert FactsOf(t, id) == f.(inFlight := 0);
    }
    IdleOk(cfg, t);
    Assemble(cfg, s, t);
  }

  lemma FewerInFlight(cfg: Config, id: Id, f: Facts)
    requires ProposalOk(cfg, id, f)
    ensures ProposalOk(cfg, id, f.(inFlight := 0))
  {
    hide GoodDigest, SnapshotOk;
  }

  lemma SpanKeeps(cfg: Config, s: State, a: Action)
    requires Inv(cfg, s) && PermittedSpan(s, a)
    ensures Keeps(cfg, s, Span(cfg, s, a))
  {
    hide Inv;
    LoadKeeps(cfg, s);
    var l := Load(s);
    assert Inv(cfg, l) && l.store == s.store;
    match a
    case Create(id, command, parameters, maxInvocations) =>
      CreateKeeps(cfg, l, id, command, parameters, maxInvocations);
    case DecideStart(id, approve) => DecideKeeps(cfg, l, id, approve);
    case InvokeAuthorize(id, incoming) => InvokeAuthorizeKeeps(cfg, l, id, incoming);
    case InvokeBegin(request, trace) => InvokeBeginKeeps(cfg, s, request, trace);
    case InvokeEnd(id, run) => InvokeEndKeeps(cfg, s, id, run);
    case ApplyStart(id) => ApplyStartKeeps(cfg, l, id);
    case ApplyCapture(cat, written) => ApplyCaptureKeeps(cfg, s, cat, written);
    case ApplyAuthorize => ApplyAuthorizeKeeps(cfg, l);
    case ApplyBegin(trace) => ApplyBeginKeeps(cfg, s, trace);
    case ApplyEnd(run) => ApplyEndKeeps(cfg, s, run);
    case RollbackStart(id) => RollbackStartKeeps(cfg, l, id);
    case RollbackLoad => RollbackLoadKeeps(cfg, s);
    case RollbackWrite(newId) => RollbackWriteKeeps(cfg, s, newId);
    case RollbackApprove => RollbackApproveKeeps(cfg, l);
    case RollbackAuthorize => RollbackAuthorizeKeeps(cfg, l);
    case RollbackBegin(trace) => RollbackBeginKeeps(cfg, s, trace);
    case RollbackEnd(run) => RollbackEndKeeps(cfg, s, run);
    case List => LoadKeeps(cfg, s);
    case Crash => CrashedKeeps(cfg, s);
    case CrashIn(_, _, _) => assert StoreEvolves(s, s);
    case DecideFinish => DecidedKeeps(cfg, s);
    case ForeignWrite(after) => OutsideKeeps(cfg, s, after, s.artifacts);
    case DiskChange(artifacts) => OutsideKeeps(cfg, s, s.workspace, artifacts);
  }

  /** Cutting a span off loses the handler, what was in flight, and audit lines that are due. */
  lemma CutKeeps(cfg: Config, s: State, t: State, kept: nat)
    requires Keeps(cfg, s, t)
    ensures Keeps(cfg, s, Cut(s, t, kept))
  {
    hide ProposalOk, Matches, HandlerOk;
    var c := Cut(s, t, kept);
    CutTallies(s, t, kept);
    forall id ensures ProposalOk(cfg, id, FactsOf(c, id)) {
      var f := FactsOf(t, id);
      assert ProposalOk(cfg, id, f);
      FewerInFlight(cfg, id, f);
      assert FactsOf(c, id) == f.(inFlight := 0);
    }
    forall e | e in c.executed ensures ExecutionOk(cfg, c, e) {
      assert ExecutionOk(cfg, t, e);
    }
    IdleOk(cfg, c);
  }

  lemma CutTallies(s: State, t: State, kept: nat)
    ensures forall kind, id :: Tally(Cut(s, t, kept), kind, id) == Tally(t, kind, id)
  {
    var n := if |s.log| + kept < |t.log| then |s.log| + kept else |t.log|;
    assert t.log == t.log[..n] + t.log[n..];
  }

  lemma IdleOk(cfg: Config, s: State)
    requires s.handler.Idle?
    ensures HandlerOk(cfg, s)
  {
  }

  /** The first save of a span that saves twice. */
  lemma HalfwayKeeps(cfg: Config, s: State, a: Action)
    requires Inv(cfg, s)
    ensures Keeps(cfg, s, Crashed(Halfway(s, a)))
  {
    hide Inv, Put, Returned, Prepared, StoreEvolves;
    var t := Halfway(s, a);
    if a.ApplyEnd? && s.handler.ApplyRunning? && s.handler.id in s.loaded {
      ReturnedKeeps(cfg, s, s.handler.id, a.run);
    } else if a.RollbackEnd? && s.handler.CompensationRunning? && s.handler.compensator in s.loaded {
      ReturnedKeeps(cfg, s, s.handler.compensator, a.run);
    } else if a.ApplyStart? && t != s {
      PreparedKeeps(cfg, s, a.id);
    } else {
      assert t == s;
      CrashedKeeps(cfg, s);
    }
  }

  lemma ReturnedKeeps(cfg: Config, s: State, id: Id, run: ToolRun)
    requires Inv(cfg, s) && HandlerRuns(s.handler, id) && id in s.loaded
    ensures Keeps(cfg, s, Crashed(Returned(s, id, run).(handler := Idle)))
  {
    hide ProposalOk, HandlerOk, Matches, FactsOf, Evolves;
    LoadedIsStore(cfg, s);
    var u := Returned(s, id, run).(handler := Idle);
    InFlightIsInvoking(cfg, s, id);
    ReturnedFacts(cfg, s, id, run, u);
    OneEvolves(s, u, id);
    IdleOk(cfg, u);
    Assemble(cfg, s, u);
    CrashedKeeps(cfg, u);
  }

  lemma PreparedKeeps(cfg: Config, s: State, id: Id)
    requires Inv(cfg, s) && s.handler.Idle? && id in s.store && CanApply(s.store[id])
    ensures Keeps(cfg, s, Crashed(Put(s, id, Prepared(s.store[id]), [])))
  {
    hide ProposalOk, HandlerOk, Matches, ReversibleTarget, FactsOf;
    var u := Put(s, id, Prepared(s.store[id]), []);
    OneTouched(cfg, s, u, id, []);
    EntryOfFacts(s, id);
    CanApplyFresh(cfg, id, FactsOf(s, id));
    ApplyingOk(cfg, id, FactsOf(s, id), Preparing);
    assert FactsOf(u, id) == FactsOf(s, id).(p := Some(u.store[id])) by {
      PreparedFacts(s, id);
    }
    OneEvolves(s, u, id);
    IdleOk(cfg, u);
    Assemble(cfg, s, u);
    CrashedKeeps(cfg, u);
  }

  lemma PreparedFacts(s: State, id: Id)
    requires id in s.store
    ensures var u := Put(s, id, Prepared(s.store[id]), []);
            FactsOf(u, id) == FactsOf(s, id).(p := Some(u.store[id]))
  {
    assert s.log + [] == s.log;
  }

  /** A crash inside a span finds the store as after its save. */
  lemma CrashKeeps(cfg: Config, s: State, a: Action)
    requires Inv(cfg, s) && Permitted(s, a) && a.CrashIn?
    ensures Keeps(cfg, s, Step(cfg, s, a))
  {
    hide Inv, Span, Halfway, PermittedSpan;
    if a.halfway {
      HalfwayKeeps(cfg, s, a.span);
      CutKeeps(cfg, s, Crashed(Halfway(s, a.span)), a.kept);
    } else {
      SpanKeeps(cfg, s, a.span);
      CutKeeps(cfg, s, Span(cfg, s, a.span), a.kept);
    }
  }

  lemma StepKeeps(cfg: Config, s: State, a: Action)
    requires Inv(cfg, s) && Permitted(s, a)
    ensures Keeps(cfg, s, Step(cfg, s, a))
  {
    hide Inv, Span, PermittedSpan;
    if a.CrashIn? {
      CrashKeeps(cfg, s, a);
    } else {
      SpanKeeps(cfg, s, a);
    }
  }

  lemma {:induction false} RunKeeps(cfg: Config, s: State, actions: seq<Action>)
    requires Inv(cfg, s) && PermittedRun(cfg, s, actions)
    ensures Inv(cfg, Run(cfg, s, actions))
    decreases |actions|
  {
    hide Step, Permitted, Inv;
    if actions != [] {
      var last := |actions| - 1;
      RunKeeps(cfg, s, actions[..last]);
      StepKeeps(cfg, Run(cfg, s, actions[..last]), actions[last]);
      assert Keeps(cfg, Run(cfg, s, actions[..last]), Run(cfg, s, actions));
    }
  }
}
