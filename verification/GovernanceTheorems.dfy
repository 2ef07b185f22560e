/** The main results about governed actions, read off the invariant of GovernanceSafety. */
module GovernanceTheorems {
  import opened Basics
  import opened PyText
  import opened Authorization
  import opened WorkspacePaths
  import opened Governance
  import opened GovernanceSafety

  // ---------------------------------------------------------------- runs

  lemma NoSteps(cfg: Config, s: State)
    ensures Run(cfg, s, []) == s && PermittedRun(cfg, s, [])
  {
  }

  lemma {:induction false} RunAppend(cfg: Config, s: State, first: seq<Action>, second: seq<Action>)
    requires PermittedRun(cfg, s, first) && PermittedRun(cfg, Run(cfg, s, first), second)
    ensures PermittedRun(cfg, s, first + second)
    ensures Run(cfg, s, first + second) == Run(cfg, Run(cfg, s, first), second)
    decreases |second|
  {
    hide Step, Permitted;
    if second == [] {
      assert first + second == first;
    } else {
      var last := |second| - 1;
      RunAppend(cfg, s, first, second[..last]);
      RunSnoc(cfg, s, first + second[..last], second[last]);
      assert first + second == first + second[..last] + [second[last]];
    }
  }

  lemma RunOneMore(cfg: Config, s: State, actions: seq<Action>, a: Action)
    ensures Run(cfg, s, actions + [a]) == Step(cfg, Run(cfg, s, actions), a)
  {
    hide Step;
    assert (actions + [a])[..|actions|] == actions;
  }

  lemma RunSnoc(cfg: Config, s: State, actions: seq<Action>, a: Action)
    requires PermittedRun(cfg, s, actions) && Permitted(Run(cfg, s, actions), a)
    ensures PermittedRun(cfg, s, actions + [a])
    ensures Run(cfg, s, actions + [a]) == Step(cfg, Run(cfg, s, actions), a)
  {
    hide Step, Permitted;
    assert (actions + [a])[..|actions|] == actions;
  }

  /** A session lookup that finds nothing. */
  const LOOKUP := Trace(true, "", None)

  // ---------------------------------------------------------------- bounded execution

  /** Audit lines of this kind that the log holds for this proposal. */
  function Logged(s: State, kind: EventKind, id: Id): nat {
    multiset(s.log)[Event(kind, id)]
  }

  function CrashesInside(actions: seq<Action>): nat {
    if actions == [] then 0 else
    CrashesInside(actions[..|actions| - 1]) + if actions[|actions| - 1].CrashIn? then 1 else 0
  }

  /** A span appends to the log, no line twice. */
  ghost predicate Appends(s: State, t: State) {
    exists events | t.log == s.log + events :: t.lost == s.lost && forall e :: multiset(events)[e] <= 1
  }

  lemma AppendsThese(s: State, t: State, events: seq<Event>)
    requires t.log == s.log + events && t.lost == s.lost
    requires |events| <= 1 || (|events| == 2 && events[0] != events[1])
    ensures Appends(s, t)
  {
    forall e ensures multiset(events)[e] <= 1 {
      if |events| == 1 {
        assert events == [events[0]];
      } else if |events| == 2 {
        assert events == [events[0], events[1]];
      }
    }
  }

  /** What beginning and authorizing leave of the log. */
  predicate AtMostOne(s: State, t: State) {
    t.lost == s.lost && (t.log == s.log || (|t.log| == |s.log| + 1 && t.log == s.log + [t.log[|s.log|]]))
  }

  lemma OneAppends(s: State, t: State)
    requires AtMostOne(s, t)
    ensures Appends(s, t)
  {
    hide Appends;
    AppendsThese(s, t, if t.log == s.log then [] else [t.log[|s.log|]]);
  }

  lemma InvokeBeginAppends(cfg: Config, s: State, r: Request, trace: Trace)
    ensures Appends(s, DoInvokeBegin(cfg, s, r, trace))
  {
    hide Launch, Appends;
    if Launch(cfg, s, r.id, r.parameters, trace).Some? {
      LaunchFrame(cfg, s, r.id, r.parameters, trace);
    }
    OneAppends(s, DoInvokeBegin(cfg, s, r, trace));
  }

  lemma ApplyBeginAppends(cfg: Config, s: State, trace: Trace)
    ensures Appends(s, DoApplyBegin(cfg, s, trace))
  {
    hide Launch, Appends;
    if s.handler.ApplyAuthorized? && Launch(cfg, s, s.handler.id, s.handler.parameters, trace).Some? {
      LaunchFrame(cfg, s, s.handler.id, s.handler.parameters, trace);
    }
    OneAppends(s, DoApplyBegin(cfg, s, trace));
  }

  lemma RollbackBeginAppends(cfg: Config, s: State, trace: Trace)
    ensures Appends(s, DoRollbackBegin(cfg, s, trace))
  {
    hide Launch, Appends;
    if s.handler.CompensationAuthorized? && Launch(cfg, s, s.handler.compensator, s.handler.parameters, trace).Some? {
      LaunchFrame(cfg, s, s.handler.compensator, s.handler.parameters, trace);
    }
    OneAppends(s, DoRollbackBegin(cfg, s, trace));
  }

  lemma ApplyAuthorizeAppends(cfg: Config, s: State)
    ensures Appends(s, DoApplyAuthorize(cfg, s))
  {
    hide Authorize, ApplyParameters, Appends;
    OneAppends(s, DoApplyAuthorize(cfg, s));
  }

  lemma RollbackAuthorizeAppends(cfg: Config, s: State)
    ensures Appends(s, DoRollbackAuthorize(cfg, s))
  {
    hide Authorize, CompensationParameters, Appends;
    OneAppends(s, DoRollbackAuthorize(cfg, s));
  }

  lemma ApplyEndAppends(s: State, run: ToolRun)
    ensures Appends(s, DoApplyEnd(s, run))
  {
    hide Appends, Ended;
    var t := DoApplyEnd(s, run);
    if s.handler.ApplyRunning? && s.handler.id in s.loaded {
      var last := Event(if run.status.Success? then ApplyCompleted else ApplyFailure, s.handler.id);
      AppendsThese(s, t, [EndEvent(s.handler.id, run.status), last]);
    } else {
      AppendsThese(s, t, []);
    }
  }

  lemma RollbackEndAppends(s: State, run: ToolRun)
    ensures Appends(s, DoRollbackEnd(s, run))
  {
    hide Appends, Ended;
    var t := DoRollbackEnd(s, run);
    if s.handler.CompensationRunning? && s.handler.id in s.loaded && s.handler.compensator in s.loaded {
      var CompensationRunning(id, c, a) := s.handler;
      var last := Event(if Restores(a, run) then RollbackCompleted else RollbackFailure, id);
      AppendsThese(s, t, [EndEvent(c, run.status), last]);
    } else {
      AppendsThese(s, t, []);
    }
  }

  lemma ApproveAppends(cfg: Config, s: State)
    ensures Appends(s, Span(cfg, s, RollbackApprove))
  {
    hide Appends;
    var t := Span(cfg, s, RollbackApprove);
    var approved := s.handler.CompensationCreated? && s.handler.compensator in s.store && s.handler.id in s.store;
    AppendsThese(s, t, if approved then [t.log[|s.log|], t.log[|s.log| + 1]] else []);
  }

  lemma ApplyStartAppends(cfg: Config, s: State, id: Id)
    ensures Appends(s, DoApplyStart(cfg, s, id))
  {
    hide Appends, ReversibleTarget, ApplyParameters;
    var t := DoApplyStart(cfg, s, id);
    AppendsThese(s, t, if |t.log| == |s.log| then [] else [Event(ApplyAttempted, id)]);
  }

  lemma ApplyCaptureAppends(cfg: Config, s: State, cat: CatRun, written: bool)
    ensures Appends(s, DoApplyCapture(cfg, s, cat, written))
  {
    hide Appends, Fits;
    var t := DoApplyCapture(cfg, s, cat, written);
    AppendsThese(s, t, if t.log == s.log then [] else [Event(ApplyAttempted, s.handler.id)]);
  }

  lemma RollbackAppends(cfg: Config, s: State, a: Action)
    requires a.RollbackStart? || a.RollbackLoad? || a.RollbackWrite?
    ensures Appends(s, Span(cfg, s, a))
  {
    hide Appends, Compensator, LoadSnapshot;
    var t := Span(cfg, s, a);
    AppendsThese(s, t, if t.log == s.log then [] else [t.log[|s.log|]]);
  }

  lemma OtherAppends(cfg: Config, s: State, a: Action)
    requires a.Create? || a.DecideStart? || a.DecideFinish? || a.InvokeAuthorize? || a.InvokeEnd? || a.List?
          || a.Crash? || a.CrashIn? || a.ForeignWrite? || a.DiskChange?
    ensures Appends(s, Span(cfg, s, a))
  {
    hide Appends, InvocationDigest, Ended, Authorize;
    var t := Span(cfg, s, a);
    AppendsThese(s, t, if t.log == s.log then [] else [t.log[|s.log|]]);
  }

  lemma HalfwayAppends(s: State, a: Action)
    ensures Appends(s, Halfway(s, a))
  {
    hide Appends, Ended;
    var t := Halfway(s, a);
    AppendsThese(s, t, if |t.log| == |s.log| then [] else [t.log[|s.log|]]);
  }

  lemma SpanAppends(cfg: Config, s: State, a: Action)
    ensures Appends(s, Span(cfg, s, a))
  {
    hide DoApplyStart, DoApplyCapture, DoApplyEnd, DoRollbackEnd, DoInvokeBegin, DoApplyAuthorize, DoApplyBegin,
      DoRollbackAuthorize, DoRollbackBegin;
    match a
    case InvokeBegin(request, trace) => InvokeBeginAppends(cfg, s, request, trace);
    case ApplyAuthorize => ApplyAuthorizeAppends(cfg, Load(s));
    case ApplyBegin(trace) => ApplyBeginAppends(cfg, s, trace);
    case RollbackAuthorize => RollbackAuthorizeAppends(cfg, Load(s));
    case RollbackBegin(trace) => RollbackBeginAppends(cfg, s, trace);
    case ApplyEnd(run) => ApplyEndAppends(s, run);
    case RollbackEnd(run) => RollbackEndAppends(s, run);
    case RollbackApprove => ApproveAppends(cfg, s);
    case ApplyStart(id) => ApplyStartAppends(cfg, Load(s), id);
    case ApplyCapture(cat, written) => ApplyCaptureAppends(cfg, s, cat, written);
    case RollbackStart(_) => RollbackAppends(cfg, s, a);
    case RollbackLoad => RollbackAppends(cfg, s, a);
    case RollbackWrite(_) => RollbackAppends(cfg, s, a);
    case _ => OtherAppends(cfg, s, a);
  }

  lemma PartOfEach(events: seq<Event>, k: nat, e: Event)
    requires k <= |events|
    ensures multiset(events[k..])[e] <= multiset(events)[e]
  {
    assert events == events[..k] + events[k..];
  }

  /** A crash loses a line at most once. */
  lemma CutLoses(s: State, t: State, kept: nat, e: Event)
    requires Appends(s, t)
    ensures s.lost[e] <= Cut(s, t, kept).lost[e] <= s.lost[e] + 1
  {
    var events :| t.log == s.log + events && t.lost == s.lost && forall x :: multiset(events)[x] <= 1;
    var k := if kept < |events| then kept else |events|;
    assert multiset(events)[e] <= 1;
    PartOfEach(events, k, e);
    assert t.log[|s.log| + k..] == events[k..];
  }

  /** Each crash in a span keeps at most one audit line of a kind and proposal from the log. */
  lemma {:induction false} LostAreFew(cfg: Config, s: State, actions: seq<Action>, e: Event)
    ensures Run(cfg, s, actions).lost[e] <= s.lost[e] + CrashesInside(actions)
    decreases |actions|
  {
    hide Span, Halfway, Appends, Cut;
    if actions != [] {
      var last := |actions| - 1;
      LostAreFew(cfg, s, actions[..last], e);
      var u, a := Run(cfg, s, actions[..last]), actions[last];
      if a.CrashIn? {
        SpanAppends(cfg, u, a.span);
        HalfwayAppends(u, a.span);
        CutLoses(u, if a.halfway then Halfway(u, a.span) else Span(cfg, u, a.span), a.kept, e);
      } else {
        SpanAppends(cfg, u, a);
        assert Step(cfg, u, a).lost == u.lost by {
          SameLost(u, Step(cfg, u, a));
        }
      }
    }
  }

  lemma SameLost(s: State, t: State)
    requires Appends(s, t)
    ensures t.lost == s.lost
  {
  }

  /** However direct invocations interleave with each other and with decide, apply and
      rollback, and wherever the server crashes: the attempts counted never exceed what the
      approval allows, and are the executions the audit log shows as started, but for at most
      one line per crash between a save and its audit line; so it is with successes and
      completions; and every attempt but the one that is running succeeded or failed. */
  lemma {:induction false} ExecutionsAreBounded(cfg: Config, actions: seq<Action>, id: Id)
    requires PermittedRun(cfg, EMPTY, actions) && id in Run(cfg, EMPTY, actions).store
    ensures var s, crashes := Run(cfg, EMPTY, actions), CrashesInside(actions); var i := s.store[id].invocation;
            && Logged(s, InvocationAttempted, id) <= i.attempts <= Logged(s, InvocationAttempted, id) + crashes
            && i.attempts <= s.store[id].maxInvocations
            && s.store[id].maxInvocations <= 10
            && Logged(s, InvocationCompleted, id) <= i.successes <= Logged(s, InvocationCompleted, id) + crashes
            && i.successes + Tally(s, InvocationFailed, id) == i.attempts - (if i.state.Invoking? then 1 else 0)
            && Logged(s, InvocationFailed, id) <= Tally(s, InvocationFailed, id)
            && Tally(s, InvocationFailed, id) <= Logged(s, InvocationFailed, id) + crashes
  {
    hide GoodDigest, HandlerOk, Matches, SnapshotOk, PermittedRun, Run, CrashesInside;
    EmptyInv(cfg);
    RunKeeps(cfg, EMPTY, actions);
    LostAreFew(cfg, EMPTY, actions, Event(InvocationAttempted, id));
    LostAreFew(cfg, EMPTY, actions, Event(InvocationCompleted, id));
    LostAreFew(cfg, EMPTY, actions, Event(InvocationFailed, id));
    assert ProposalOk(cfg, id, FactsOf(Run(cfg, EMPTY, actions), id));
  }

  /** At most one execution of a proposal is inside the tool, through whichever request, and
      the store shows it as invoking. */
  lemma {:induction false} OneExecutionInFlight(cfg: Config, actions: seq<Action>, id: Id)
    requires PermittedRun(cfg, EMPTY, actions)
    ensures var s := Run(cfg, EMPTY, actions);
            InFlight(s, id) <= if id in s.store && s.store[id].invocation.state.Invoking? then 1 else 0
  {
    hide Inv, PermittedRun, Run, InFlight;
    EmptyInv(cfg);
    RunKeeps(cfg, EMPTY, actions);
    if InFlight(Run(cfg, EMPTY, actions), id) >= 1 {
      InFlightIsInvoking(cfg, Run(cfg, EMPTY, actions), id);
    }
  }

  /** Every execution that ever started carried out the action its proposal approves. */
  lemma {:induction false} ExecutionsAreApproved(cfg: Config, actions: seq<Action>, e: Execution)
    requires PermittedRun(cfg, EMPTY, actions) && e in Run(cfg, EMPTY, actions).executed
    ensures var s := Run(cfg, EMPTY, actions);
            && e.id in s.store && s.store[e.id].decision.Approved? && s.store[e.id].policyAllowed
            && Matches(cfg, s.store[e.id].Terms(), e.parameters, e.sessionRoot)
  {
    hide GoodDigest, HandlerOk, Matches, SnapshotOk, PermittedRun, Run;
    EmptyInv(cfg);
    RunKeeps(cfg, EMPTY, actions);
    var s := Run(cfg, EMPTY, actions);
    assert ExecutionOk(cfg, s, e);
    assert ProposalOk(cfg, e.id, FactsOf(s, e.id));
  }

  // ---------------------------------------------------------------- transactions

  /** `applied` and every later state imply an approval, a successful execution and exactly
      one apply that reached the tool; no apply reaches it twice; compensation starts at most
      once, from a captured snapshot, and the audit lines due agree with the state. */
  lemma {:induction false} TransactionsAreSound(cfg: Config, actions: seq<Action>, id: Id)
    requires PermittedRun(cfg, EMPTY, actions) && id in Run(cfg, EMPTY, actions).store
    ensures var s := Run(cfg, EMPTY, actions); var p := s.store[id];
            && s.applyRuns[id] <= 1
            && (AppliedOrLater(p.tx) ==> p.decision.Approved? && p.invocation.successes >= 1 && s.applyRuns[id] == 1)
            && (p.tx.RollbackPreparing? || CompensationBegan(p.tx) ==> p.rollback.supported)
            && Tally(s, ApplyCompleted, id) == (if AppliedOrLater(p.tx) then 1 else 0)
            && Tally(s, RollbackAttempted, id) == (if CompensationBegan(p.tx) then 1 else 0)
            && Tally(s, RollbackCompleted, id) == (if p.tx.RolledBack? then 1 else 0)
            && Tally(s, ProposalDecided, id) == (if p.decision.Pending? then 0 else 1)
  {
    hide GoodDigest, HandlerOk, Matches, SnapshotOk, PermittedRun, Run;
    EmptyInv(cfg);
    RunKeeps(cfg, EMPTY, actions);
    assert ProposalOk(cfg, id, FactsOf(Run(cfg, EMPTY, actions), id));
  }

  /** After any run, one more step moves every proposal along the edges of `Evolves`. */
  lemma {:induction false} EveryStepEvolves(cfg: Config, actions: seq<Action>, a: Action)
    requires PermittedRun(cfg, EMPTY, actions) && Permitted(Run(cfg, EMPTY, actions), a)
    ensures StoreEvolves(Run(cfg, EMPTY, actions), Step(cfg, Run(cfg, EMPTY, actions), a))
  {
    hide Inv, Step, StoreEvolves, Permitted, PermittedRun, Run;
    EmptyInv(cfg);
    RunKeeps(cfg, EMPTY, actions);
    StepKeeps(cfg, Run(cfg, EMPTY, actions), a);
    assert Keeps(cfg, Run(cfg, EMPTY, actions), Step(cfg, Run(cfg, EMPTY, actions), a));
  }

  // ---------------------------------------------------------------- compensation

  /** The compensating invocation always passes authorization: its request repeats what was
      approved for it. After that, only the session lookup or a competing invocation can stop
      it. */
  lemma CompensationIsAuthorized(cfg: Config, s: State)
    requires Inv(cfg, s) && s.handler.CompensationReady?
    ensures DoRollbackAuthorize(cfg, s).handler.CompensationAuthorized?
  {
    hide Authorize, CompensationParameters, Matches;
    var CompensationReady(id, c, a) := s.handler;
    var q := s.store[c];
    assert GoodDigest(q.Terms()) by {
      assert ProposalOk(cfg, c, FactsOf(s, c));
    }
    CompensationRepeats(cfg, q.Terms(), s.store[id].parameters, a, c);
    RepeatsIsAuthorized(cfg, q.Terms(), CompensationParameters(cfg, s.store[id].parameters, a)[ProposalId := Text(c)]);
  }

  lemma CompensationBeginsExactly(cfg: Config, s: State, trace: Trace)
    requires Inv(cfg, s) && s.handler.CompensationAuthorized?
    ensures DoRollbackBegin(cfg, s, trace).handler.CompensationRunning?
       <==> trace.ready && s.handler.compensator in s.store && CanBegin(s.store[s.handler.compensator])
  {
    hide ProposalOk, FactsOf, Matches, Finalized;
  }

  lemma CompensationRepeats(cfg: Config, terms: Approval, parameters: Params, a: Artifact, c: Id)
    requires terms.command == "tee" && terms.parameters == CompensationParameters(cfg, parameters, a)
    ensures Repeats(cfg, terms, terms.parameters[ProposalId := Text(c)])
  {
    assert Strip("tee") == "tee" by {
      StripTight(IsSpace, "tee");
    }
    hide Strip;
  }

  lemma ApplyAuthorizedExactly(cfg: Config, s: State)
    requires Inv(cfg, s) && s.handler.ApplyReady? && s.handler.id in s.store
    ensures var t, p := DoApplyAuthorize(cfg, s), s.store[s.handler.id];
            && (t.handler.ApplyAuthorized?
                <==> Strip(TextOf(cfg, ApplyParameters(p.command, p.parameters)[Command])) == Strip(p.command))
            && (t.handler.Idle?
                || (t.handler.ApplyAuthorized? && t.handler.id == s.handler.id && t == s.(handler := t.handler)))
  {
    hide Matches, Strip, Authorize, ApplyFails;
    var id := s.handler.id;
    var p := s.store[id];
    var incoming := ApplyParameters(p.command, p.parameters)[ProposalId := Text(id)];
    assert GoodDigest(p.Terms()) by {
      assert ProposalOk(cfg, id, FactsOf(s, id));
    }
    AuthorizedExactly(cfg, p.Terms(), incoming);
    ApplyRepeats(cfg, p.Terms(), incoming, id);
    FailedIsIdle(s, id);
  }

  lemma ApplyBeginsExactly(cfg: Config, s: State, trace: Trace)
    requires s.handler.ApplyAuthorized? && s.handler.id in s.store && s.loaded == s.store
    ensures DoApplyBegin(cfg, s, trace).handler.ApplyRunning? <==> trace.ready && CanBegin(s.store[s.handler.id])
  {
    hide Finalized;
  }

  /** An apply reaches the tool exactly when the command in its parameters is the command of the
      proposal, its session lookup succeeds, and its limit is not used up. */
  lemma ApplyReachesToolExactly(cfg: Config, s: State, trace: Trace)
    requires Inv(cfg, s) && s.handler.ApplyReady? && s.handler.id in s.store
    ensures DoApplyBegin(cfg, DoApplyAuthorize(cfg, s), trace).handler.ApplyRunning?
       <==> var p := s.store[s.handler.id];
            && Strip(TextOf(cfg, ApplyParameters(p.command, p.parameters)[Command])) == Strip(p.command)
            && trace.ready && CanBegin(p)
  {
    hide ProposalOk, FactsOf, HandlerOk, Matches, Strip, DoApplyAuthorize, Launch;
    ApplyAuthorizedExactly(cfg, s);
    if DoApplyAuthorize(cfg, s).handler.ApplyAuthorized? {
      ApplyBeginsExactly(cfg, DoApplyAuthorize(cfg, s), trace);
    }
  }

  lemma FailedIsIdle(s: State, id: Id)
    requires id in s.store
    ensures ApplyFails(s, id).handler == Idle && RollbackFails(s, id).handler == Idle
  {
  }

  lemma ApplyRepeats(cfg: Config, terms: Approval, incoming: Params, id: Id)
    requires incoming == ApplyParameters(terms.command, terms.parameters)[ProposalId := Text(id)]
    ensures Repeats(cfg, terms, incoming)
       <==> Strip(TextOf(cfg, ApplyParameters(terms.command, terms.parameters)[Command])) == Strip(terms.command)
  {
    hide Strip;
  }

  /** A rollback that ends in `rolled_back` leaves the target with the text it had when the
      snapshot was taken, whatever happened to the snapshot file or to the target since:
      loading checks the file against the digest in the store, and the digest read back after
      the compensating write is checked against the same one. */
  lemma RolledBackRestoresTarget(cfg: Config, s: State, run: ToolRun)
    requires Inv(cfg, s) && Permitted(s, RollbackEnd(run)) && s.handler.CompensationRunning?
    requires s.handler.id in s.store && DoRollbackEnd(s, run).store[s.handler.id].tx.RolledBack?
    ensures var id, t := s.handler.id, DoRollbackEnd(s, run);
            && s.store[id].rollback.snapshot.Some? && id in s.before
            && var target := s.store[id].rollback.snapshot.value.target;
               && ReversibleTarget(cfg, ApplyParameters(s.store[id].command, s.store[id].parameters)) == Some(target)
               && target in t.workspace && target in s.before[id] && t.workspace[target] == s.before[id][target]
    ensures s.handler.compensator in DoRollbackEnd(s, run).store
         && DoRollbackEnd(s, run).store[s.handler.compensator].invocation.state.Succeeded?
  {
    hide GoodDigest, Matches, ReversibleTarget, ApplyParameters, CompensationParameters, DoRollbackEnd;
    var id := s.handler.id;
    RollbackEndShape(cfg, s, run);
    assert ProposalOk(cfg, id, FactsOf(s, id));
    EntryOfFacts(s, id);
  }
}
