/** What happens outside the hypotheses on runs besides GovernanceWindows: the compensating
    proposal is dropped, and an apply is undone by a decision that overlaps it. */
module GovernanceOverlap {
  import opened Basics
  import opened PyText
  import opened Authorization
  import opened WorkspacePaths
  import opened Governance
  import opened GovernanceSafety
  import opened GovernanceTheorems

  // ---------------------------------------------------------------- the dropped compensator

  /** An execution begins or ends, and what is loaded is saved. */
  predicate SavesLoaded(cfg: Config, s: State, a: Action) {
    match a
    case InvokeBegin(r, trace) => r in s.waiting && Launch(cfg, s, r.id, r.parameters, trace).Some?
    case InvokeEnd(id, _) => id in s.direct && id in s.loaded
    case _ => false
  }

  lemma SavedKeys(cfg: Config, s: State, a: Action)
    requires SavesLoaded(cfg, s, a)
    ensures Span(cfg, s, a).store.Keys == s.loaded.Keys && Span(cfg, s, a).handler == s.handler
  {
    hide Launch, Ended, EndEvent;
    if a.InvokeBegin? {
      LaunchFrame(cfg, s, a.request.id, a.request.parameters, a.trace);
    }
  }

  /** Between the write of the thread and the next load, an execution that begins or ends drops
      the compensating proposal exactly when it is not loaded; the rollback then fails where it
      stands. */
  lemma CompensatorDroppedExactly(cfg: Config, s: State, a: Action)
    requires Inv(cfg, s) && s.handler.CompensationCreated? && SavesLoaded(cfg, s, a)
    ensures var t := Span(cfg, s, a);
            && (s.handler.compensator !in t.store <==> !LoadedIsCurrent(s))
            && (s.handler.compensator !in t.store ==>
                  Step(cfg, t, RollbackApprove).handler.Idle? && Step(cfg, t, RollbackApprove).store == t.store)
  {
    hide ProposalOk, FactsOf, HandlerOk, Matches, SavesLoaded;
    SavedKeys(cfg, s, a);
    hide Inv;
  }

  // ---------------------------------------------------------------- the undone apply

  predicate NotUnderWay(tx: TxState) {
    tx.NoTx? || tx.ApplyFailed?
  }

  /** A transaction leaves its starting state only if the proposal was never executed. */
  lemma {:induction false} LeavesUnexecuted(cfg: Config, s: State, actions: seq<Action>, id: Id)
    requires Inv(cfg, s) && PermittedRun(cfg, s, actions) && id in s.store && NotUnderWay(s.store[id].tx)
    ensures var t := Run(cfg, s, actions);
            && Inv(cfg, t) && id in t.store && s.store[id].invocation.attempts <= t.store[id].invocation.attempts
            && (t.store[id].tx == s.store[id].tx || s.store[id].invocation.attempts <= 0)
    decreases |actions|
  {
    hide Inv, Step, Permitted;
    if actions != [] {
      var last := |actions| - 1;
      var u := Run(cfg, s, actions[..last]);
      LeavesUnexecuted(cfg, s, actions[..last], id);
      StepKeeps(cfg, u, actions[last]);
      assert Evolves(u.store[id], Step(cfg, u, actions[last]).store[id]);
    }
  }

  /** A proposal whose action an apply would carry out, but for its decision. */
  predicate Agrees(cfg: Config, p: Proposal) {
    Strip(TextOf(cfg, ApplyParameters(p.command, p.parameters)[Command])) == Strip(p.command)
  }

  /** What a decision that held a copy since `s` leaves when it saves it in `u`. It is under way
      beside the handlers of the run from `s` to `u`. */
  function Overwritten(s: State, u: State): State {
    u.(store := s.store)
  }

  /** An apply begins and reaches the tool. */
  lemma AppliesAnew(cfg: Config, s: State, id: Id) returns (actions: seq<Action>)
    requires s.handler.Idle? && id in s.store && CanApply(s.store[id]) && CanBegin(s.store[id])
    requires GoodDigest(s.store[id].Terms()) && Agrees(cfg, s.store[id])
    ensures PermittedRun(cfg, s, actions) && Run(cfg, s, actions).applyRuns == s.applyRuns + multiset{id}
  {
    hide Run, PermittedRun, Step, Permitted, Agrees, GoodDigest;
    NoSteps(cfg, s);
    var p := s.store[id];
    StartsAnew(cfg, s, id);
    RunSnoc(cfg, s, [], ApplyStart(id));
    actions := [] + [ApplyStart(id)];
    var t := Step(cfg, s, ApplyStart(id));
    if t.handler.Preflight? {
      CapturesNothing(cfg, t, id, p);
      RunSnoc(cfg, s, actions, ApplyCapture(CatFailed, false));
      actions := actions + [ApplyCapture(CatFailed, false)];
      t := Step(cfg, t, ApplyCapture(CatFailed, false));
    }
    BeginsAnew(cfg, t, id, p);
    RunSnoc(cfg, s, actions, ApplyAuthorize);
    actions := actions + [ApplyAuthorize];
    RunSnoc(cfg, s, actions, ApplyBegin(LOOKUP));
    actions := actions + [ApplyBegin(LOOKUP)];
  }

  /** Only the transaction may differ. */
  predicate SameBut(p: Proposal, q: Proposal) {
    q == p.(tx := q.tx, rollback := q.rollback)
  }

  predicate Readied(s: State, id: Id, p: Proposal) {
    s.handler == ApplyReady(id) && s.loaded == s.store && id in s.store && SameBut(p, s.store[id])
  }

  lemma StartsAnew(cfg: Config, s: State, id: Id)
    requires s.handler.Idle? && id in s.store && CanApply(s.store[id])
    ensures var t := Step(cfg, s, ApplyStart(id));
            && Permitted(s, ApplyStart(id)) && t.applyRuns == s.applyRuns
            && (Readied(t, id, s.store[id])
                || (t.handler.Preflight? && t.handler.id == id && t.handler.copy.None? && t.loaded == t.store
                    && id in t.store && SameBut(s.store[id], t.store[id])))
  {
    hide ReversibleTarget, ApplyParameters;
  }

  lemma CapturesNothing(cfg: Config, s: State, id: Id, p: Proposal)
    requires s.handler.Preflight? && s.handler.id == id && s.handler.copy.None? && id in s.loaded
    requires SameBut(p, s.loaded[id])
    ensures var a := ApplyCapture(CatFailed, false); var t := Step(cfg, s, a);
            Permitted(s, a) && t.applyRuns == s.applyRuns && Readied(t, id, p)
  {
    hide Fits;
  }

  lemma BeginsAnew(cfg: Config, s: State, id: Id, p: Proposal)
    requires Readied(s, id, p) && CanBegin(p) && p.decision.Approved? && GoodDigest(p.Terms()) && Agrees(cfg, p)
    ensures var t := Step(cfg, s, ApplyAuthorize); var u := Step(cfg, t, ApplyBegin(LOOKUP));
            && Permitted(s, ApplyAuthorize) && Permitted(t, ApplyBegin(LOOKUP))
            && u.applyRuns == s.applyRuns + multiset{id}
  {
    hide Authorize, Strip, Finalized, ApplyFails, TextOf, GoodDigest;
    var q := s.store[id];
    assert q.Terms() == p.Terms();
    var incoming := ApplyParameters(q.command, q.parameters)[ProposalId := Text(id)];
    ApplyRepeats(cfg, q.Terms(), incoming, id);
    RepeatsIsAuthorized(cfg, q.Terms(), incoming);
  }

  /** A pending proposal is approved once more. */
  lemma ApprovesAnew(cfg: Config, s: State, id: Id) returns (actions: seq<Action>)
    requires s.handler.Idle? && id in s.store && s.store[id].decision.Pending? && s.store[id].policyAllowed
    ensures PermittedRun(cfg, s, actions)
    ensures var t := Run(cfg, s, actions);
            && t.handler.Idle? && t.applyRuns == s.applyRuns
            && id in t.store && t.store[id] == s.store[id].(decision := Approved)
  {
    hide Run, PermittedRun;
    NoSteps(cfg, s);
    RunSnoc(cfg, s, [], DecideStart(id, true));
    RunSnoc(cfg, s, [] + [DecideStart(id, true)], DecideFinish);
    actions := [] + [DecideStart(id, true)] + [DecideFinish];
  }

  /** If an apply is completed while a decision holds a copy of the store from before, saving
      the copy undoes it: the proposal is as it was, and can be applied again exactly if it had
      been approved by then. */
  lemma OverlapUndoesApply(cfg: Config, s: State, actions: seq<Action>, id: Id)
    requires Inv(cfg, s) && PermittedRun(cfg, s, actions) && id in s.store && NotUnderWay(s.store[id].tx)
    requires id in Run(cfg, s, actions).store && Run(cfg, s, actions).store[id].tx.Applied?
    ensures var t := Overwritten(s, Run(cfg, s, actions));
            && id in t.store && t.store[id] == s.store[id]
            && (CanApply(t.store[id]) <==> s.store[id].decision.Approved?)
  {
    hide Run, PermittedRun;
    LeavesUnexecuted(cfg, s, actions, id);
    NeverNegative(cfg, s, id);
  }

  lemma NeverNegative(cfg: Config, s: State, id: Id)
    requires Inv(cfg, s) && id in s.store
    ensures s.store[id].invocation.attempts >= 0 && GoodDigest(s.store[id].Terms())
    ensures s.store[id].invocation.attempts == 0 ==> CanBegin(s.store[id])
  {
    hide SnapshotOk, HandlerOk, Matches;
    assert ProposalOk(cfg, id, FactsOf(s, id));
  }

  /** So "at most one apply reaches the tool" does not survive an apply that is completed under
      an overlapping decision: whatever else happened meanwhile, a second one can reach it. */
  lemma {:induction false} OverlappedApplyRunsAgain(cfg: Config, s: State, actions: seq<Action>, id: Id)
      returns (after: seq<Action>)
    requires Inv(cfg, s) && PermittedRun(cfg, s, actions) && id in s.store && NotUnderWay(s.store[id].tx)
    requires Agrees(cfg, s.store[id])
    requires var u := Run(cfg, s, actions); u.handler.Idle? && id in u.store && u.store[id].tx.Applied?
    ensures var u := Run(cfg, s, actions); var t := Overwritten(s, u);
            PermittedRun(cfg, t, after) && Run(cfg, t, after).applyRuns == u.applyRuns + multiset{id}
  {
    hide Run, PermittedRun, Inv, Agrees, GoodDigest;
    var u := Run(cfg, s, actions);
    var t := Overwritten(s, u);
    LeavesUnexecuted(cfg, s, actions, id);
    OverlapUndoesApply(cfg, s, actions, id);
    NeverNegative(cfg, s, id);
    WasApprovable(cfg, s, actions, id);
    if s.store[id].decision.Approved? {
      after := AppliesAnew(cfg, t, id);
    } else {
      after := ApprovesAnew(cfg, t, id);
      AgreesStill(cfg, s.store[id]);
      var more := AppliesAnew(cfg, Run(cfg, t, after), id);
      RunAppend(cfg, t, after, more);
      after := after + more;
    }
  }

  lemma AgreesStill(cfg: Config, p: Proposal)
    ensures Agrees(cfg, p.(decision := Approved)) <==> Agrees(cfg, p)
    ensures GoodDigest(p.(decision := Approved).Terms()) <==> GoodDigest(p.Terms())
  {
    hide Strip, TextOf, InvocationDigest;
  }

  /** What is applied was approved, and so was or could be. */
  lemma {:induction false} WasApprovable(cfg: Config, s: State, actions: seq<Action>, id: Id)
    requires Inv(cfg, s) && PermittedRun(cfg, s, actions) && id in s.store
    requires id in Run(cfg, s, actions).store && Run(cfg, s, actions).store[id].tx.Applied?
    ensures !s.store[id].decision.Approved? ==> s.store[id].decision.Pending? && s.store[id].policyAllowed
  {
    hide Run, PermittedRun;
    Decisions(cfg, s, actions, id);
    AppliedIsAllowed(cfg, Run(cfg, s, actions), id);
  }

  lemma AppliedIsAllowed(cfg: Config, s: State, id: Id)
    requires Inv(cfg, s) && id in s.store && s.store[id].tx.Applied?
    ensures s.store[id].decision.Approved? && s.store[id].policyAllowed
  {
    hide SnapshotOk, GoodDigest, HandlerOk, Matches;
    assert ProposalOk(cfg, id, FactsOf(s, id));
  }

  lemma {:induction false} Decisions(cfg: Config, s: State, actions: seq<Action>, id: Id)
    requires Inv(cfg, s) && PermittedRun(cfg, s, actions) && id in s.store
    ensures var t := Run(cfg, s, actions);
            && Inv(cfg, t) && id in t.store && t.store[id].policyAllowed == s.store[id].policyAllowed
            && (!s.store[id].decision.Pending? ==> t.store[id].decision == s.store[id].decision)
    decreases |actions|
  {
    hide Inv, Step, Permitted;
    if actions != [] {
      var last := |actions| - 1;
      var u := Run(cfg, s, actions[..last]);
      Decisions(cfg, s, actions[..last], id);
      StepKeeps(cfg, u, actions[last]);
      assert Evolves(u.store[id], Step(cfg, u, actions[last]).store[id]);
    }
  }
}
