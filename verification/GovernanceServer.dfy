/** The handlers of app.py as methods that update the store in place. Each method is one span
    between two awaits, or of the thread that creates a compensating proposal, and is proved to
    take the corresponding span of Governance, so every theorem about steps and runs is about
    these methods. */
module GovernanceServer {
  import opened Basics
  import opened PyText
  import opened Authorization
  import opened WorkspacePaths
  import opened Governance

  datatype Status = Accepted | NotFound | Conflict

  class Server {
    const cfg: Config
    var file: Store
    var proposals: Store
    var events: seq<Event>
    var artifacts: map<Id, Artifact>
    var handler: Handler
    ghost var workspace: Workspace
    ghost var waiting: multiset<Request>
    ghost var direct: multiset<Id>
    ghost var before: map<Id, Workspace>
    ghost var applyRuns: multiset<Id>
    ghost var executed: seq<Execution>
    ghost var lost: multiset<Event>

    ghost function State(): State
      reads this
    {
      Governance.State(file, proposals, events, artifacts, workspace, handler, waiting, direct, before, applyRuns,
                       executed, lost)
    }

    constructor (cfg: Config)
      ensures this.cfg == cfg && State() == EMPTY
    {
      this.cfg := cfg;
      file, proposals, events, artifacts, handler := map[], map[], [], map[], Idle;
      workspace, waiting, direct, before := map[], multiset{}, multiset{}, map[];
      applyRuns, executed, lost := multiset{}, [], multiset{};
    }

    /** A new dictionary is loaded; a handler suspended over the old one keeps that. */
    method Sync()
      modifies this`proposals, this`handler
      ensures State() == Load(old(State()))
    {
      match handler {
        case Deciding(id, None) => handler := Deciding(id, Some(proposals));
        case Preflight(id, None, target) => handler := Preflight(id, Some(proposals), target);
        case _ =>
      }
      proposals := file;
    }

    /** An entry changes, the dictionary is saved, and audit lines are appended. */
    method Record(id: Id, proposal: Proposal, lines: seq<Event>)
      modifies this`file, this`proposals, this`events
      ensures State() == Put(old(State()).(store := old(proposals)), id, proposal, lines)
    {
      proposals := proposals[id := proposal];
      file := proposals;
      events := events + lines;
    }

    method ListProposals() returns (items: Store)
      modifies this`proposals, this`handler
      ensures State() == Load(old(State())) && items == file
    {
      Sync();
      return proposals;
    }

    method CreateProposal(id: Id, command: string, parameters: Params, maxInvocations: int)
      modifies this
      ensures State() == DoCreate(cfg, Load(old(State())), id, command, parameters, maxInvocations)
    {
      Sync();
      var allowed := cfg.allows(command);
      var digest := InvocationDigest(command, parameters);
      var proposal := Proposal(command, parameters, digest, maxInvocations, allowed, Pending,
                               Invocation(NotInvoked, 0, 0), NoTx, NO_ROLLBACK);
      Record(id, proposal, [Event(ProposalCreated, id)]);
    }

    method Decide(id: Id, approve: bool) returns (status: Status)
      requires handler.Idle?
      modifies this
      ensures State() == DoDecideStart(Load(old(State())), id, approve)
      ensures !status.Accepted? ==> file == old(file) && events == old(events)
      ensures status.NotFound? <==> id !in old(file)
    {
      Sync();
      if id !in proposals { return NotFound; }
      var proposal := proposals[id];
      if !proposal.decision.Pending? { return Conflict; }
      if approve && !proposal.policyAllowed { return Conflict; }
      proposal := proposal.(decision := if approve then Approved else Rejected);
      Record(id, proposal, [Event(ProposalDecided, id)]);
      handler := Deciding(id, None);
      return Accepted;
    }

    method FinishDecision()
      requires handler.Deciding?
      modifies this
      ensures State() == DoDecideFinish(old(State()))
    {
      file := if handler.copy.Some? then handler.copy.value else proposals;
      handler := Idle;
    }

    /** Completes the request by the approved parameters, key by key, and compares digests. */
    method CheckInvocation(proposal: Proposal, incoming: Params) returns (r: Result<Params, Refusal>)
      ensures r == Authorize(cfg, proposal.Terms(), incoming)
    {
      var parameters := incoming - {Marker};
      ghost var given := parameters;
      if !proposal.decision.Approved? { return Err(NotApproved); }
      var approved := proposal.parameters;
      var todo := approved.Keys;
      while todo != {}
        invariant todo <= approved.Keys
        invariant forall key | key in approved && key !in todo :: !Clash(proposal.Terms(), given, key)
        invariant forall key | key in given :: key in parameters && parameters[key] == given[key]
        invariant forall key | key in parameters && key !in given ::
                    key in approved && key !in todo && !IsRuntime(key) && parameters[key] == approved[key]
        invariant forall key | key in approved && key !in todo && !IsRuntime(key) :: key in parameters
        decreases todo
      {
        var key :| key in todo;
        todo := todo - {key};
        if !IsRuntime(key) {
          if key in parameters {
            if parameters[key] != approved[key] {
              assert Clash(proposal.Terms(), given, key);
              return Err(ParameterMismatch);
            }
          } else {
            parameters := parameters[key := approved[key]];
          }
        }
      }
      assert parameters == Completed(proposal.Terms(), given);
      var command := Strip(TextOf(cfg, Get(parameters, Command)));
      if Strip(proposal.command) != command || proposal.digest != InvocationDigest(command, parameters) {
        return Err(ActionMismatch);
      }
      return Ok(parameters[Marker := Bool(true)]);
    }

    /** The first span of an invocation: it loads the store and checks the request. */
    method AuthorizeInvocation(id: Id, incoming: Params) returns (r: Option<Params>)
      modifies this`proposals, this`handler
      ensures State() == Load(old(State()))
      ensures r == if id in file && Authorize(cfg, file[id].Terms(), incoming).Ok?
                   then Some(Authorize(cfg, file[id].Terms(), incoming).value) else None
    {
      hide Authorize;
      Sync();
      if id !in proposals { return None; }
      var authorized := CheckInvocation(proposals[id], incoming);
      return if authorized.Ok? then Some(authorized.value) else None;
    }

    /** The span after the session lookup: under the lock, it counts the attempt on what was
        loaded last, and saves that. */
    method BeginInvocation(id: Id, authorized: Params, trace: Trace) returns (started: bool)
      modifies this`file, this`proposals, this`events, this`executed
      ensures started <==> Launch(cfg, old(State()), id, authorized, trace).Some?
      ensures State() == if started then Launch(cfg, old(State()), id, authorized, trace).value else old(State())
    {
      hide Finalized;
      if !trace.ready || id !in proposals { return false; }
      var parameters := Finalized(cfg, authorized, trace.id, trace.sessionRoot);
      var current := proposals[id];
      var invocation := current.invocation;
      if invocation.state.Invoking? { return false; }
      if invocation.attempts >= current.maxInvocations { return false; }
      invocation := Invocation(Invoking, invocation.attempts + 1, invocation.successes);
      current := current.(invocation := invocation);
      Record(id, current, [Event(InvocationAttempted, id)]);
      executed := executed + [Execution(id, parameters, trace.sessionRoot)];
      return true;
    }

    method RequestInvocation(id: Id, incoming: Params) returns (request: Option<Request>)
      modifies this`proposals, this`handler, this`waiting
      ensures State() == DoInvokeAuthorize(cfg, Load(old(State())), id, incoming)
      ensures request.Some? ==> request.value in waiting && request.value.id == id
      ensures request.None? ==> State() == Load(old(State()))
    {
      hide Authorize;
      var authorized := AuthorizeInvocation(id, incoming);
      if authorized.None? { return None; }
      waiting := waiting + multiset{Request(id, authorized.value)};
      return Some(Request(id, authorized.value));
    }

    method InvokeDirectly(request: Request, trace: Trace) returns (status: Status)
      requires request in waiting
      modifies this
      ensures State() == DoInvokeBegin(cfg, old(State()), request, trace)
      ensures !status.Accepted? ==> file == old(file) && events == old(events)
    {
      hide Launch;
      var started := BeginInvocation(request.id, request.parameters, trace);
      waiting := waiting - multiset{request};
      if !started { return Conflict; }
      direct := direct + multiset{request.id};
      return Accepted;
    }

    /** The span after the tool returned or raised saves what was loaded last. */
    method EndInvocation(id: Id, run: ToolRun)
      requires id in proposals
      modifies this`file, this`proposals, this`events, this`workspace
      ensures State() == Returned(old(State()), id, run)
    {
      var current := proposals[id];
      var invocation := current.invocation;
      if run.status.Success? {
        invocation := invocation.(state := Succeeded, successes := invocation.successes + 1);
      } else {
        invocation := invocation.(state := Failed);
      }
      var line := Event(if run.status.Success? then InvocationCompleted else InvocationFailed, id);
      Record(id, current.(invocation := invocation), [line]);
      workspace := run.after;
    }

    method FinishDirectInvocation(id: Id, run: ToolRun)
      requires id in proposals && id in direct
      modifies this
      ensures State() == DoInvokeEnd(old(State()), id, run)
    {
      EndInvocation(id, run);
      direct := direct - multiset{id};
    }

    method StartApply(id: Id) returns (status: Status)
      requires handler.Idle?
      modifies this
      ensures State() == DoApplyStart(cfg, Load(old(State())), id)
      ensures !status.Accepted? ==> file == old(file) && events == old(events)
      ensures status.NotFound? <==> id !in old(file)
    {
      Sync();
      if id !in proposals { return NotFound; }
      var proposal := proposals[id];
      if !proposal.decision.Approved? { return Conflict; }
      if proposal.tx in {Applying, Applied, RollingBack, RolledBack} { return Conflict; }
      if proposal.invocation.attempts > 0 { return Conflict; }
      Sync();
      proposal := proposals[id];
      if proposal.tx == Preparing || proposal.invocation.attempts != 0 { return Conflict; }
      proposal := proposal.(tx := Preparing, rollback := NO_ROLLBACK);
      Record(id, proposal, []);
      var target := ReversibleTarget(cfg, ApplyParameters(proposal.command, proposal.parameters));
      if target.None? {
        proposal := proposal.(tx := Applying);
        Record(id, proposal, [Event(ApplyAttempted, id)]);
        handler := ApplyReady(id);
        SavedTwice(Load(old(State())), id, Prepared(old(file)[id]), proposal, [Event(ApplyAttempted, id)]);
      } else {
        handler := Preflight(id, None, target.value);
      }
      return Accepted;
    }

    static lemma SavedTwice(s: Governance.State, id: Id, p: Proposal, q: Proposal, lines: seq<Event>)
      ensures Put(Put(s, id, p, []), id, q, lines) == Put(s, id, q, lines)
    {
      assert s.log + [] == s.log;
      assert s.store[id := p][id := q] == s.store[id := q];
    }

    /** After the preflight `cat`: keep a snapshot if the file was readable and small enough. The
        invocation that follows in this span loads what is saved here. */
    method FinishPreflight(cat: CatRun, written: bool)
      requires handler.Preflight? && handler.id in Held(State())
      modifies this
      ensures State() == DoApplyCapture(cfg, old(State()), cat, written)
    {
      var id, target := handler.id, handler.target;
      proposals := if handler.copy.Some? then handler.copy.value else proposals;
      var proposal := proposals[id].(tx := Applying, rollback := NO_ROLLBACK);
      if cat.CatText? && Fits(cfg, cat.output) && written {
        var digest := Sha256(cat.output);
        artifacts := artifacts[id := Artifact(1, target, cat.output, digest)];
        proposal := proposal.(rollback := Rollback(true, Captured, Some(Snapshot(id, target, digest))));
        before := before[id := workspace];
      }
      Record(id, proposal, [Event(ApplyAttempted, id)]);
      handler := ApplyReady(id);
    }

    method AuthorizeApply() returns (authorized: bool)
      requires handler.ApplyReady? && handler.id in file
      modifies this`file, this`proposals, this`events, this`handler
      ensures State() == DoApplyAuthorize(cfg, Load(old(State())))
      ensures authorized <==> handler.ApplyAuthorized?
    {
      hide Authorize, ApplyParameters, ApplyFails;
      var id := handler.id;
      var parameters := ApplyParameters(file[id].command, file[id].parameters)[ProposalId := Text(id)];
      var checked := AuthorizeInvocation(id, parameters);
      if checked.None? {
        FailApply(id);
        return false;
      }
      handler := ApplyAuthorized(id, checked.value);
      return true;
    }

    method InvokeApply(trace: Trace) returns (started: bool)
      requires handler.ApplyAuthorized? && handler.id in file
      modifies this
      ensures State() == DoApplyBegin(cfg, old(State()), trace)
      ensures started <==> handler.ApplyRunning?
    {
      hide Launch, ApplyFails;
      var ApplyAuthorized(id, parameters) := handler;
      started := BeginInvocation(id, parameters, trace);
      if started {
        handler := ApplyRunning(id);
        applyRuns := applyRuns + multiset{id};
      } else {
        FailApply(id);
      }
    }

    method FailApply(id: Id)
      requires id in file && !HoldsCopy(handler)
      modifies this`file, this`proposals, this`events, this`handler
      ensures State() == ApplyFails(Load(old(State())), id) && handler.Idle?
    {
      CloseApply(id, false);
      handler := Idle;
    }

    /** Records where the transaction of a proposal went. */
    method CloseApply(id: Id, applied: bool)
      requires id in file && !HoldsCopy(handler)
      modifies this`file, this`proposals, this`events, this`handler
      ensures State() == Put(Load(old(State())), id, old(file)[id].(tx := if applied then Applied else ApplyFailed),
                             [Event(if applied then ApplyCompleted else ApplyFailure, id)])
    {
      Sync();
      var proposal := proposals[id].(tx := if applied then Applied else ApplyFailed);
      Record(id, proposal, [Event(if applied then ApplyCompleted else ApplyFailure, id)]);
    }

    method FinishApply(run: ToolRun) returns (status: Status)
      requires handler.ApplyRunning? && handler.id in proposals
      modifies this
      ensures State() == DoApplyEnd(old(State()), run)
      ensures status.Accepted? <==> run.status.Success?
    {
      hide Ended, EndEvent;
      var id, applied := handler.id, run.status.Success?;
      EndInvocation(id, run);
      CloseApply(id, applied);
      handler := Idle;
      status := if applied then Accepted else Conflict;
    }

    method StartRollback(id: Id) returns (status: Status)
      requires handler.Idle?
      modifies this
      ensures State() == DoRollbackStart(Load(old(State())), id)
      ensures !status.Accepted? ==> file == old(file) && events == old(events)
      ensures status.NotFound? <==> id !in old(file)
    {
      Sync();
      if id !in proposals { return NotFound; }
      var proposal := proposals[id];
      if !proposal.tx.Applied? { return Conflict; }
      var rollback := proposal.rollback;
      if !rollback.supported || !rollback.state.Captured? || rollback.snapshot.None? { return Conflict; }
      var snapshot := LoadSnapshot(artifacts, id, rollback.snapshot.value);
      if snapshot.None? { return Conflict; }
      Sync();
      rollback := rollback.(state := Planned);
      Record(id, proposal.(tx := RollbackPreparing, rollback := rollback), []);
      handler := CompensationPlanned(id, snapshot.value);
      return Accepted;
    }

    /** The thread that creates the compensating proposal reads the file, */
    method ReadForCompensation()
      requires handler.CompensationPlanned?
      modifies this`handler
      ensures State() == DoRollbackLoad(old(State()))
    {
      handler := CompensationCreating(handler.id, file, handler.artifact);
    }

    /** and writes what it read back with the new proposal. */
    method CreateCompensation(newId: Id)
      requires handler.CompensationCreating? && handler.id in handler.view
      modifies this`file, this`events, this`handler
      ensures State() == DoRollbackWrite(cfg, old(State()), newId)
    {
      hide InvocationDigest, CompensationParameters;
      var CompensationCreating(id, view, snapshot) := handler;
      var compensator := NewProposal("tee", CompensationParameters(cfg, view[id].parameters, snapshot), 1, true);
      file := view[newId := compensator];
      events := events + [Event(ProposalCreated, newId)];
      handler := CompensationCreated(id, newId, snapshot);
    }

    /** Approves the compensating proposal and records that the rollback runs. */
    method ApproveCompensation() returns (status: Status)
      requires handler.CompensationCreated?
      modifies this
      ensures State() == DoRollbackApprove(Load(old(State())))
      ensures status.Accepted? <==> handler.CompensationReady?
    {
      hide InvocationDigest, CompensationParameters;
      var CompensationCreated(id, newId, snapshot) := handler;
      Sync();
      if newId !in proposals || id !in proposals {
        handler := Idle;
        return NotFound;
      }
      proposals := proposals[newId := proposals[newId].(decision := Approved)];
      var proposal := proposals[id];
      proposal := proposal.(tx := RollingBack, rollback := proposal.rollback.(state := Started));
      Record(id, proposal, [Event(ProposalDecided, newId), Event(RollbackAttempted, id)]);
      handler := CompensationReady(id, newId, snapshot);
      assert events == old(events) + [Event(ProposalDecided, newId)] + [Event(RollbackAttempted, id)];
      return Accepted;
    }

    method FailRollback(id: Id)
      requires id in file && !HoldsCopy(handler)
      modifies this`file, this`proposals, this`events, this`handler
      ensures State() == RollbackFails(old(State()), id)
    {
      Sync();
      var proposal := proposals[id];
      proposal := proposal.(tx := RollbackFailed, rollback := proposal.rollback.(state := NotRestored));
      Record(id, proposal, [Event(RollbackFailure, id)]);
      handler := Idle;
    }

    method AuthorizeCompensation() returns (authorized: bool)
      requires handler.CompensationReady? && handler.id in file
      modifies this`file, this`proposals, this`events, this`handler
      ensures State() == DoRollbackAuthorize(cfg, Load(old(State())))
      ensures authorized <==> handler.CompensationAuthorized?
    {
      hide Authorize, CompensationParameters;
      var CompensationReady(id, compensator, snapshot) := handler;
      var parameters := CompensationParameters(cfg, file[id].parameters, snapshot)[ProposalId := Text(compensator)];
      var checked := AuthorizeInvocation(compensator, parameters);
      if checked.None? {
        FailRollback(id);
        return false;
      }
      handler := CompensationAuthorized(id, compensator, snapshot, checked.value);
      return true;
    }

    method InvokeCompensation(trace: Trace) returns (started: bool)
      requires handler.CompensationAuthorized? && handler.id in file
      modifies this
      ensures State() == DoRollbackBegin(cfg, old(State()), trace)
      ensures started <==> handler.CompensationRunning?
    {
      hide Finalized;
      var CompensationAuthorized(id, compensator, snapshot, parameters) := handler;
      started := BeginInvocation(compensator, parameters, trace);
      if started {
        handler := CompensationRunning(id, compensator, snapshot);
      } else {
        FailRollback(id);
      }
    }

    /** The compensation counts only if the digest read back is the one of the snapshot. */
    method FinishCompensation(run: ToolRun) returns (status: Status)
      requires handler.CompensationRunning? && handler.id in proposals && handler.compensator in proposals
      modifies this
      ensures State() == DoRollbackEnd(old(State()), run)
      ensures status.Accepted?
         <==> run.status.Success? && run.verified && run.evidence == Some(old(handler).artifact.digest)
    {
      hide Ended, EndEvent;
      var CompensationRunning(id, compensator, snapshot) := handler;
      EndInvocation(compensator, run);
      if !run.status.Success? || !run.verified || run.evidence != Some(snapshot.digest) {
        FailRollback(id);
        return Conflict;
      }
      Sync();
      var proposal := proposals[id];
      proposal := proposal.(tx := RolledBack, rollback := proposal.rollback.(state := Restored));
      Record(id, proposal, [Event(RollbackCompleted, id)]);
      handler := Idle;
      return Accepted;
    }
  }
}
