/** Where what is in the store comes from: every proposal, its limit and its decision were asked
    for, and nothing but the compensation of a rollback gets round the command policy. */
module GovernanceOrigin {
  import opened Basics
  import opened Authorization
  import opened WorkspacePaths
  import opened Governance
  import opened GovernanceSafety
  import opened GovernanceTheorems

  ghost predicate Asked(actions: seq<Action>, a: Action) {
    exists k | 0 <= k < |actions| :: SpanOf(actions[k]) == a
  }

  /** An entry is in the other store too, with the same decision. */
  predicate Settled(store: Store, base: Store, id: Id) {
    id in store ==> id in base && store[id].decision == base[id].decision
  }

  lemma LaunchSettles(cfg: Config, s: State, id: Id, launched: Id, parameters: Params, trace: Trace)
    requires Settled(s.loaded, s.store, id)
    ensures Launch(cfg, s, launched, parameters, trace).Some? ==>
              Settled(Launch(cfg, s, launched, parameters, trace).value.store, s.store, id)
  {
    if Launch(cfg, s, launched, parameters, trace).Some? {
      LaunchFrame(cfg, s, launched, parameters, trace);
    }
  }

  lemma FailSettles(s: State, id: Id, failed: Id)
    requires failed in s.store
    ensures Settled(ApplyFails(s, failed).store, s.store, id) && Settled(RollbackFails(s, failed).store, s.store, id)
  {
  }

  lemma BeginSettles(cfg: Config, s: State, a: Action, id: Id)
    requires Settled(s.loaded, s.store, id)
    ensures a.InvokeBegin? ==> Settled(DoInvokeBegin(cfg, s, a.request, a.trace).store, s.store, id)
    ensures a.ApplyBegin? ==> Settled(DoApplyBegin(cfg, s, a.trace).store, s.store, id)
    ensures a.RollbackBegin? ==> Settled(DoRollbackBegin(cfg, s, a.trace).store, s.store, id)
  {
    hide Launch, ApplyFails, RollbackFails;
    match a {
      case InvokeBegin(r, trace) => LaunchSettles(cfg, s, id, r.id, r.parameters, trace);
      case ApplyBegin(trace) =>
        if s.handler.ApplyAuthorized? && s.handler.id in s.store {
          LaunchSettles(cfg, s, id, s.handler.id, s.handler.parameters, trace);
          FailSettles(Load(s), id, s.handler.id);
        }
      case RollbackBegin(trace) =>
        if s.handler.CompensationAuthorized? && s.handler.id in s.store {
          LaunchSettles(cfg, s, id, s.handler.compensator, s.handler.parameters, trace);
          FailSettles(Load(s), id, s.handler.id);
        }
      case _ =>
    }
  }

  lemma EndSettles(s: State, a: Action, id: Id)
    requires Settled(s.loaded, s.store, id)
    ensures a.InvokeEnd? ==> Settled(DoInvokeEnd(s, a.id, a.run).store, s.store, id)
    ensures a.ApplyEnd? ==> Settled(DoApplyEnd(s, a.run).store, s.store, id)
  {
    hide EndEvent;
  }

  lemma RollbackEndSettles(s: State, run: ToolRun, id: Id)
    requires Settled(s.loaded, s.store, id)
    ensures Settled(DoRollbackEnd(s, run).store, s.store, id)
  {
    hide EndEvent;
  }

  lemma InvokeAuthorizeSettles(cfg: Config, s: State, requested: Id, incoming: Params, id: Id)
    ensures Settled(DoInvokeAuthorize(cfg, s, requested, incoming).store, s.store, id)
  {
    hide Authorize;
  }

  lemma ApplyAuthorizeSettles(cfg: Config, s: State, id: Id)
    ensures Settled(DoApplyAuthorize(cfg, s).store, s.store, id)
  {
    hide Authorize, ApplyParameters, ApplyFails;
    if s.handler.ApplyReady? && s.handler.id in s.store {
      FailSettles(s, id, s.handler.id);
    }
  }

  lemma RollbackAuthorizeSettles(cfg: Config, s: State, id: Id)
    ensures Settled(DoRollbackAuthorize(cfg, s).store, s.store, id)
  {
    hide Authorize, CompensationParameters, RollbackFails;
    if s.handler.CompensationReady? && s.handler.id in s.store {
      FailSettles(s, id, s.handler.id);
    }
  }

  lemma ApplyStartSettles(cfg: Config, s: State, started: Id, id: Id)
    ensures Settled(DoApplyStart(cfg, s, started).store, s.store, id)
  {
    hide ReversibleTarget, ApplyParameters, CanApply;
  }

  lemma RollbackStartSettles(s: State, started: Id, id: Id)
    ensures Settled(DoRollbackStart(s, started).store, s.store, id)
  {
    hide LoadSnapshot, CanRollback;
  }

  lemma DecideSettles(s: State, decided: Id, approve: bool, id: Id)
    ensures var t := DoDecideStart(s, decided, approve);
            || Settled(t.store, s.store, id)
            || (decided == id && id in s.store && id in t.store && t.store[id].decision.Approved? == approve)
  {
  }

  lemma HeldSettles(cfg: Config, s: State, id: Id)
    requires HandlerOk(cfg, s) && Settled(s.loaded, s.store, id) && HoldsCopy(s.handler)
    ensures Settled(Held(s), s.store, id)
  {
    hide ReversibleTarget, ApplyParameters, ArtifactOk;
  }

  lemma ResumeSettles(cfg: Config, s: State, a: Action, id: Id)
    requires HoldsCopy(s.handler) ==> Settled(Held(s), s.store, id)
    ensures Settled(DoDecideFinish(s).store, s.store, id)
    ensures a.ApplyCapture? ==> Settled(DoApplyCapture(cfg, s, a.cat, a.written).store, s.store, id)
    ensures a.RollbackWrite? ==>
              var t := DoRollbackWrite(cfg, s, a.newId);
              || Settled(t.store, s.store, id)
              || (a.newId == id && id in t.store && t.store[id].command == "tee" && t.store[id].maxInvocations == 1)
  {
    hide Fits, CompensationParameters, InvocationDigest;
  }

  lemma ApproveSettles(s: State, id: Id)
    ensures Settled(DoRollbackApprove(s).store, s.store, id)
         || (s.handler.CompensationCreated? && s.handler.compensator == id)
  {
  }

  lemma CreateSettles(cfg: Config, s: State, a: Action, id: Id)
    requires a.Create?
    ensures var t := DoCreate(cfg, s, a.id, a.command, a.parameters, a.maxInvocations);
            if a.id != id then Settled(t.store, s.store, id) else
            && id in t.store
            && var p := t.store[id];
               && a == Create(id, p.command, p.parameters, p.maxInvocations)
               && p.policyAllowed == cfg.allows(p.command) && p.decision.Pending?
  {
    hide InvocationDigest;
  }

  lemma LoadedSettles(s: State, id: Id)
    requires LoadedOk(s)
    ensures Settled(s.loaded, s.store, id)
  {
  }

  /** The span that adds an entry or decides on it. */
  predicate Moves(cfg: Config, s: State, a: Action, id: Id, t: State) {
    || (a == RollbackWrite(id) && id in t.store && t.store[id].command == "tee" && t.store[id].maxInvocations == 1)
    || (a == RollbackApprove && s.handler.CompensationCreated? && s.handler.compensator == id)
    || (a.DecideStart? && a.id == id && id in s.store && id in t.store && t.store[id].decision.Approved? == a.approve)
    || (a.Create? && id in t.store
        && var p := t.store[id];
           && a == Create(id, p.command, p.parameters, p.maxInvocations)
           && p.policyAllowed == cfg.allows(p.command) && p.decision.Pending?)
  }

  lemma HandlerSettles(cfg: Config, s: State, a: Action, id: Id)
    requires HandlerOk(cfg, s) && LoadedOk(s)
    requires a.DecideFinish? || a.ApplyCapture? || a.RollbackWrite? || a.RollbackApprove? || a.RollbackAuthorize?
          || a.ApplyAuthorize? || a.RollbackEnd? || a.RollbackLoad?
    ensures Settled(Span(cfg, s, a).store, s.store, id) || Moves(cfg, s, a, id, Span(cfg, s, a))
  {
    hide HandlerOk, DoDecideFinish, DoApplyCapture, DoRollbackWrite, DoRollbackApprove, DoRollbackEnd;
    hide DoApplyAuthorize, DoRollbackAuthorize, Held;
    LoadedSettles(s, id);
    if HoldsCopy(s.handler) {
      HeldSettles(cfg, s, id);
    }
    ResumeSettles(cfg, s, a, id);
    ApproveSettles(Load(s), id);
    ApplyAuthorizeSettles(cfg, Load(s), id);
    RollbackAuthorizeSettles(cfg, Load(s), id);
    if a.RollbackEnd? {
      RollbackEndSettles(s, a.run, id);
    }
  }

  lemma ToolSettles(cfg: Config, s: State, a: Action, id: Id)
    requires LoadedOk(s)
    requires a.InvokeBegin? || a.ApplyBegin? || a.RollbackBegin? || a.InvokeEnd? || a.ApplyEnd?
    ensures Settled(Span(cfg, s, a).store, s.store, id)
  {
    hide DoInvokeBegin, DoApplyBegin, DoRollbackBegin, DoInvokeEnd, DoApplyEnd;
    LoadedSettles(s, id);
    BeginSettles(cfg, s, a, id);
    EndSettles(s, a, id);
  }

  lemma StartSettles(cfg: Config, s: State, a: Action, id: Id)
    requires a.InvokeAuthorize? || a.ApplyStart? || a.RollbackStart?
    ensures Settled(Span(cfg, s, a).store, s.store, id)
  {
    hide DoInvokeAuthorize, DoApplyStart, DoRollbackStart;
    match a {
      case InvokeAuthorize(requested, incoming) => InvokeAuthorizeSettles(cfg, Load(s), requested, incoming, id);
      case ApplyStart(started) => ApplyStartSettles(cfg, Load(s), started, id);
      case RollbackStart(started) => RollbackStartSettles(Load(s), started, id);
    }
  }

  lemma SpanSettles(cfg: Config, s: State, a: Action, id: Id)
    requires HandlerOk(cfg, s) && LoadedOk(s)
    ensures Settled(Span(cfg, s, a).store, s.store, id) || Moves(cfg, s, a, id, Span(cfg, s, a))
  {
    hide HandlerOk, Moves;
    if a.List? || a.Crash? || a.CrashIn? || a.ForeignWrite? || a.DiskChange? {
      assert Span(cfg, s, a).store == s.store;
    } else {
      hide Span;
      if a.InvokeBegin? || a.ApplyBegin? || a.RollbackBegin? || a.InvokeEnd? || a.ApplyEnd? {
        ToolSettles(cfg, s, a, id);
      } else if a.InvokeAuthorize? || a.ApplyStart? || a.RollbackStart? {
        StartSettles(cfg, s, a, id);
      } else if a.Create? {
        MovesCreate(cfg, s, a, id);
      } else if a.DecideStart? {
        MovesDecide(cfg, s, a.id, a.approve, id);
      } else {
        HandlerSettles(cfg, s, a, id);
      }
    }
  }

  lemma MovesCreate(cfg: Config, s: State, a: Action, id: Id)
    requires a.Create?
    ensures Settled(Span(cfg, s, a).store, s.store, id) || Moves(cfg, s, a, id, Span(cfg, s, a))
  {
    hide DoCreate;
    CreateSettles(cfg, Load(s), a, id);
  }

  lemma MovesDecide(cfg: Config, s: State, decided: Id, approve: bool, id: Id)
    ensures var a := DecideStart(decided, approve);
            Settled(Span(cfg, s, a).store, s.store, id) || Moves(cfg, s, a, id, Span(cfg, s, a))
  {
    hide DoDecideStart;
    DecideSettles(Load(s), decided, approve, id);
  }

  lemma HalfwaySettles(s: State, a: Action, id: Id)
    requires LoadedOk(s)
    ensures Settled(Halfway(s, a).store, s.store, id)
  {
    hide EndEvent, CanApply;
  }

  // ---------------------------------------------------------------- over a run

  lemma StepSettles(cfg: Config, s: State, a: Action, id: Id)
    requires Inv(cfg, s)
    ensures Settled(Step(cfg, s, a).store, s.store, id) || Moves(cfg, s, SpanOf(a), id, Step(cfg, s, a))
  {
    hide ProposalOk, FactsOf, HandlerOk, ExecutionOk, Granted, Promised, Span, Halfway;
    SpanSettles(cfg, s, SpanOf(a), id);
    if a.CrashIn? {
      HalfwaySettles(s, a.span, id);
    }
  }

  lemma AskedBefore(actions: seq<Action>, before: seq<Action>, a: Action, b: Action)
    requires actions == before + [a]
    ensures Asked(before, b) || SpanOf(a) == b ==> Asked(actions, b)
  {
    if Asked(before, b) {
      var k :| 0 <= k < |before| && SpanOf(before[k]) == b;
      assert SpanOf(actions[k]) == b;
    } else if SpanOf(a) == b {
      assert SpanOf(actions[|before|]) == b;
    }
  }

  /** A proposal was asked for as it is and allowed by the command policy; and it was decided as
      asked for. The others, for one `tee` each, were added by the thread of a rollback. */
  ghost predicate AsAsked(cfg: Config, actions: seq<Action>, id: Id, p: Proposal) {
    || (Asked(actions, RollbackWrite(id)) && p.command == "tee" && p.maxInvocations == 1)
    || (&& Asked(actions, Create(id, p.command, p.parameters, p.maxInvocations))
        && (p.policyAllowed <==> cfg.allows(p.command))
        && (!p.decision.Pending? ==> Asked(actions, DecideStart(id, p.decision.Approved?))))
  }

  /** The thread that added the compensator to be approved did so in this run. */
  ghost predicate ThreadWrote(actions: seq<Action>, s: State) {
    s.handler.CompensationCreated? ==> Asked(actions, RollbackWrite(s.handler.compensator))
  }

  /** A handler that waits for its compensator to be approved did so before. */
  predicate WaitsAsBefore(h: Handler, g: Handler) {
    h.CompensationCreated? ==> g.CompensationCreated? && h.compensator == g.compensator
  }

  lemma BeginWaits(cfg: Config, s: State, a: Action)
    requires a.InvokeBegin? || a.ApplyBegin? || a.RollbackBegin?
    ensures WaitsAsBefore(Span(cfg, s, a).handler, s.handler)
  {
    hide Finalized, Begun, CanBegin;
  }

  lemma EndWaits(cfg: Config, s: State, a: Action)
    requires a.InvokeEnd? || a.ApplyEnd? || a.RollbackEnd?
    ensures WaitsAsBefore(Span(cfg, s, a).handler, s.handler)
  {
    hide Ended, EndEvent;
  }

  lemma OtherWaits(cfg: Config, s: State, a: Action)
    requires !(a.InvokeBegin? || a.ApplyBegin? || a.RollbackBegin? || a.InvokeEnd? || a.ApplyEnd? || a.RollbackEnd?)
    ensures WaitsAsBefore(Span(cfg, s, a).handler, s.handler)
         || a == RollbackWrite(Span(cfg, s, a).handler.compensator)
  {
  }

  lemma StepWrote(cfg: Config, s: State, a: Action)
    ensures WaitsAsBefore(Step(cfg, s, a).handler, s.handler) || a == RollbackWrite(Step(cfg, s, a).handler.compensator)
  {
    hide Span, Halfway;
    if !a.CrashIn? {
      if a.InvokeBegin? || a.ApplyBegin? || a.RollbackBegin? {
        BeginWaits(cfg, s, a);
      } else if a.InvokeEnd? || a.ApplyEnd? || a.RollbackEnd? {
        EndWaits(cfg, s, a);
      } else {
        OtherWaits(cfg, s, a);
      }
    }
  }

  lemma StayAsAsked(cfg: Config, actions: seq<Action>, before: seq<Action>, a: Action, id: Id, p: Proposal, q: Proposal)
    requires actions == before + [a] && AsAsked(cfg, before, id, p) && Evolves(p, q)
    requires q.decision == p.decision || SpanOf(a) == DecideStart(id, q.decision.Approved?)
    ensures AsAsked(cfg, actions, id, q)
  {
    hide Asked;
    AskedBefore(actions, before, a, RollbackWrite(id));
    AskedBefore(actions, before, a, Create(id, p.command, p.parameters, p.maxInvocations));
    AskedBefore(actions, before, a, DecideStart(id, q.decision.Approved?));
  }

  lemma CreatedIsTee(cfg: Config, s: State)
    requires Inv(cfg, s) && s.handler.CompensationCreated?
    ensures var c := s.handler.compensator;
            c in s.store && s.store[c].command == "tee" && s.store[c].maxInvocations == 1
  {
    hide ProposalOk, FactsOf, CompensationParameters, InvocationDigest;
  }

  lemma MoveAsAsked(cfg: Config, actions: seq<Action>, before: seq<Action>, a: Action, id: Id, s: State, t: State)
    requires actions == before + [a] && Moves(cfg, s, SpanOf(a), id, t) && id in t.store
    requires id in s.store ==> AsAsked(cfg, before, id, s.store[id]) && Evolves(s.store[id], t.store[id])
    requires ThreadWrote(before, s)
    requires s.handler.CompensationCreated? && s.handler.compensator == id ==>
               id in s.store && s.store[id].command == "tee" && s.store[id].maxInvocations == 1
    ensures AsAsked(cfg, actions, id, t.store[id])
  {
    hide Asked;
    var b := SpanOf(a);
    AskedBefore(actions, before, a, RollbackWrite(id));
    AskedBefore(actions, before, a, b);
    if b.DecideStart? {
      StayAsAsked(cfg, actions, before, a, id, s.store[id], t.store[id]);
    }
  }

  /** Every proposal was asked for as it is, and every decision was asked for; those the policy
      allows are those whose command it allows; but for what the thread of a rollback adds. */
  lemma {:induction false} ProposalsWereAskedFor(cfg: Config, actions: seq<Action>, id: Id)
    requires PermittedRun(cfg, EMPTY, actions)
    ensures var s := Run(cfg, EMPTY, actions);
            ThreadWrote(actions, s) && (id in s.store ==> AsAsked(cfg, actions, id, s.store[id]))
    decreases |actions|
  {
    hide Inv, Step, Permitted, AsAsked, Settled, Moves, Asked, Evolves;
    if actions != [] {
      var last := |actions| - 1;
      var before, a := actions[..last], actions[last];
      var s, t := Run(cfg, EMPTY, before), Run(cfg, EMPTY, actions);
      assert actions == before + [a];
      ProposalsWereAskedFor(cfg, before, id);
      EmptyInv(cfg);
      RunKeeps(cfg, EMPTY, before);
      EveryStepEvolves(cfg, before, a);
      StepWrote(cfg, s, a);
      AskedInStep(cfg, actions, before, a, s, t, id);
      if t.handler.CompensationCreated? {
        AskedBefore(actions, before, a, RollbackWrite(t.handler.compensator));
        WriteIsSpan(t.handler.compensator);
      }
    }
  }

  lemma WriteIsSpan(id: Id)
    ensures SpanOf(RollbackWrite(id)) == RollbackWrite(id)
  {
  }

  lemma AskedInStep(cfg: Config, actions: seq<Action>, before: seq<Action>, a: Action, s: State, t: State, id: Id)
    requires Inv(cfg, s) && t == Step(cfg, s, a) && StoreEvolves(s, t) && actions == before + [a]
    requires ThreadWrote(before, s) && (id in s.store ==> AsAsked(cfg, before, id, s.store[id]))
    ensures id in t.store ==> AsAsked(cfg, actions, id, t.store[id])
  {
    hide Inv, Step, AsAsked, Asked, Moves, Evolves;
    StepSettles(cfg, s, a, id);
    if id in t.store {
      if Moves(cfg, s, SpanOf(a), id, t) {
        if s.handler.CompensationCreated? {
          CreatedIsTee(cfg, s);
        }
        MoveAsAsked(cfg, actions, before, a, id, s, t);
      } else {
        StayAsAsked(cfg, actions, before, a, id, s.store[id], t.store[id]);
      }
    }
  }

  /** Every execution that ever started carried out an action that was proposed, by whoever
      asked for a proposal of that command, those parameters and that limit, that the command
      policy allows, and that was approved by a request to approve; but for those that
      compensate, whose proposal the thread of a rollback wrote. */
  lemma {:induction false} ExecutionsWereAskedFor(cfg: Config, actions: seq<Action>, e: Execution)
    requires PermittedRun(cfg, EMPTY, actions) && e in Run(cfg, EMPTY, actions).executed
    ensures e.id in Run(cfg, EMPTY, actions).store
    ensures var p := Run(cfg, EMPTY, actions).store[e.id];
            && Matches(cfg, p.Terms(), e.parameters, e.sessionRoot)
            && ((Asked(actions, RollbackWrite(e.id)) && p.command == "tee" && p.maxInvocations == 1)
                || (&& Asked(actions, Create(e.id, p.command, p.parameters, p.maxInvocations))
                    && cfg.allows(p.command) && Asked(actions, DecideStart(e.id, true))))
  {
    hide PermittedRun, Run, Matches, Asked;
    ExecutionsAreApproved(cfg, actions, e);
    ProposalsWereAskedFor(cfg, actions, e.id);
  }
}
