/** Session-local adaptation of the reasoning thresholds, with rollback when the outcome gets
    worse (orchestrator.py:1662-1848). Thresholds, confidences and risks are in micro-units,
    the six decimals the code rounds to. */
module Thresholds {
  import opened Basics

  datatype Profile = Profile(soft: int, hard: int, weakCount: int, canarySoftOnly: bool)

  datatype Verdict = Accept | Allow | Warn | Revise | Block | OtherVerdict
  datatype Outcome = Outcome(verdict: Verdict, confidence: int, risk: int)

  /** The recommendation in a runtime audit report; absent thresholds mean the current ones. */
  datatype Report = Report(recommended: bool, sampleCount: int, soft: Option<int>, hard: Option<int>)

  datatype AdaptiveState = AdaptiveState(active: bool, baseline: Profile, lastOutcome: Outcome)

  /** What is stored for one session. */
  datatype Session = Session(override: Option<Profile>, state: Option<AdaptiveState>)

  datatype Settings = Settings(enabled: bool, minSamples: int, maxDelta: int)

  datatype Action = Disabled | NoRecommendation | TooFewSamples | Applied | RolledBack

  const FRESH := Session(None, None)
  const DEFAULT_SOFT := 5_000_000
  const DEFAULT_HARD := 8_000_000
  const HARD_GAP := 250_000
  const CONFIDENCE_DROP := 120_000
  const RISK_RISE := 250_000

  // ---------------------------------------------------------------- specification

  /** `x or default` on a number. */
  function Or(x: int, default: int): int {
    if x != 0 then x else default
  }

  function OrGiven(x: Option<int>, default: int): int {
    if x.Some? then Or(x.value, default) else default
  }

  function Rank(v: Verdict): int {
    match v
    case Warn => 1
    case Revise => 2
    case Block => 3
    case _ => 0
  }

  function Resolve(s: Session, base: Profile): Profile {
    if s.override.Some? then s.override.value else base
  }

  predicate Worse(last: Outcome, now: Outcome) {
    || Rank(now.verdict) > Rank(last.verdict)
    || last.confidence - now.confidence >= CONFIDENCE_DROP
    || now.risk - last.risk >= RISK_RISE
  }

  function MaxDelta(cfg: Settings): int {
    Max(100_000, Or(cfg.maxDelta, 1_000_000))
  }

  function Clamped(cfg: Settings, current: int, target: int): int {
    current + Max(-MaxDelta(cfg), Min(MaxDelta(cfg), target - current))
  }

  /** Thresholds with the defaults put in for zeros. */
  function Filled(p: Profile, soft: int, hard: int): Profile {
    Profile(Or(p.soft, soft), Or(p.hard, hard), Or(p.weakCount, 2), p.canarySoftOnly)
  }

  function Next(cfg: Settings, current: Profile, report: Report): Profile {
    var soft := Clamped(cfg, current.soft, OrGiven(report.soft, current.soft));
    var hard := Clamped(cfg, current.hard, OrGiven(report.hard, current.hard));
    Profile(soft, if hard <= soft then soft + HARD_GAP else hard, current.weakCount, current.canarySoftOnly)
  }

  function Adapt(cfg: Settings, s: Session, profile: Profile, report: Report, outcome: Outcome): (Session, Action) {
    var baseline := if s.state.Some? then s.state.value.baseline else profile;
    if s.state.Some? && s.state.value.active && Worse(s.state.value.lastOutcome, outcome) then
      (Session(Some(Filled(baseline, DEFAULT_SOFT, DEFAULT_HARD)), Some(AdaptiveState(false, baseline, outcome))),
       RolledBack)
    else if !cfg.enabled then (s, Disabled)
    else if !report.recommended then (s, NoRecommendation)
    else if report.sampleCount < cfg.minSamples then (s, TooFewSamples)
    else
      var current := Filled(profile, DEFAULT_SOFT, DEFAULT_HARD);
      (Session(Some(Next(cfg, current, report)),
               Some(AdaptiveState(true, Filled(baseline, current.soft, current.hard), outcome))), Applied)
  }

  // ---------------------------------------------------------------- the object

  class ThresholdController {
    const cfg: Settings
    var thresholds: map<string, Profile>
    var states: map<string, AdaptiveState>

    constructor (cfg: Settings)
      ensures this.cfg == cfg && forall id :: SessionOf(id) == FRESH
    {
      this.cfg := cfg;
      thresholds, states := map[], map[];
    }

    function SessionOf(id: string): Session
      reads this
    {
      Session(if id in thresholds then Some(thresholds[id]) else None, if id in states then Some(states[id]) else None)
    }

    method ResolveReasoningThresholdProfile(id: string, base: Profile) returns (profile: Profile)
      ensures profile == if id == "" then base else Resolve(SessionOf(id), base)
    {
      profile := base;
      if id == "" || id !in thresholds { return; }
      var session := thresholds[id];
      profile := profile.(soft := session.soft, hard := session.hard, weakCount := session.weakCount,
                          canarySoftOnly := session.canarySoftOnly);
    }

    method MaybeApplyRuntimeThresholdAdaptation(id: string, profile: Profile, report: Report, outcome: Outcome)
      returns (action: Action)
      modifies this
      ensures (SessionOf(id), action) == Adapt(cfg, old(SessionOf(id)), profile, report, outcome)
      ensures forall other | other != id :: SessionOf(other) == old(SessionOf(other))
    {
      var baseline := if id in states then states[id].baseline else profile;
      if id in states && states[id].active {
        var last := states[id].lastOutcome;
        var confidenceDrop := last.confidence - outcome.confidence;
        var riskIncrease := outcome.risk - last.risk;
        var verdictWorse := Rank(outcome.verdict) > Rank(last.verdict);
        if verdictWorse || confidenceDrop >= CONFIDENCE_DROP || riskIncrease >= RISK_RISE {
          var rollback := Profile(Or(baseline.soft, DEFAULT_SOFT), Or(baseline.hard, DEFAULT_HARD),
                                  Or(baseline.weakCount, 2), baseline.canarySoftOnly);
          thresholds := thresholds[id := rollback];
          states := states[id := AdaptiveState(false, baseline, outcome)];
          return RolledBack;
        }
      }
      if !cfg.enabled { return Disabled; }
      if !report.recommended { return NoRecommendation; }
      if report.sampleCount < cfg.minSamples { return TooFewSamples; }
      var currentSoft, currentHard := Or(profile.soft, DEFAULT_SOFT), Or(profile.hard, DEFAULT_HARD);
      var targetSoft, targetHard := OrGiven(report.soft, currentSoft), OrGiven(report.hard, currentHard);
      var maxDelta := Max(100_000, Or(cfg.maxDelta, 1_000_000));
      var clampedSoft := currentSoft + Max(-maxDelta, Min(maxDelta, targetSoft - currentSoft));
      var clampedHard := currentHard + Max(-maxDelta, Min(maxDelta, targetHard - currentHard));
      if clampedHard <= clampedSoft {
        clampedHard := clampedSoft + HARD_GAP;
      }
      var adapted := Profile(clampedSoft, clampedHard, Or(profile.weakCount, 2), profile.canarySoftOnly);
      thresholds := thresholds[id := adapted];
      states := states[id := AdaptiveState(true,
        Profile(Or(baseline.soft, currentSoft), Or(baseline.hard, currentHard), Or(baseline.weakCount, 2),
                baseline.canarySoftOnly), outcome)];
      return Applied;
    }
  }

  // ---------------------------------------------------------------- runs

  /** One turn of a session: the profile the settings give then, the audit report, and how
      the turn turned out. The profile in force is resolved in the same turn. */
  datatype Turn = Turn(base: Profile, report: Report, outcome: Outcome)

  function TakeTurn(cfg: Settings, s: Session, t: Turn): (Session, Action) {
    Adapt(cfg, s, Resolve(s, t.base), t.report, t.outcome)
  }

  function Run(cfg: Settings, s: Session, turns: seq<Turn>): Session {
    if turns == [] then s
    else TakeTurn(cfg, Run(cfg, s, turns[..|turns| - 1]), turns[|turns| - 1]).0
  }

  predicate Nonzero(p: Profile) {
    p.soft != 0 && p.hard != 0 && p.weakCount != 0
  }

  /** A session is either untouched or has an override and a usable baseline. */
  predicate SessionOk(s: Session) {
    && (s.override.Some? <==> s.state.Some?)
    && (s.state.Some? ==> Nonzero(s.state.value.baseline))
  }

  lemma {:induction false} RunOk(cfg: Settings, s: Session, turns: seq<Turn>)
    requires SessionOk(s)
    ensures SessionOk(Run(cfg, s, turns))
  {
    if turns != [] {
      RunOk(cfg, s, turns[..|turns| - 1]);
    }
  }

  /** Once recorded, the baseline never changes again, whatever the turns that follow. */
  lemma {:induction false} BaselineNeverChanges(cfg: Settings, s: Session, turns: seq<Turn>)
    requires SessionOk(s) && s.state.Some?
    ensures Run(cfg, s, turns).state.Some? && Run(cfg, s, turns).state.value.baseline == s.state.value.baseline
  {
    if turns != [] {
      BaselineNeverChanges(cfg, s, turns[..|turns| - 1]);
      RunOk(cfg, s, turns[..|turns| - 1]);
    }
  }

  /** Every rollback restores the profile the session started from. `first` is the turn of the
      first adaptation; whatever applies and rollbacks lie between it and a turn that rolls
      back, the profile resolved afterwards, whatever the settings say by then, is the one
      `first` found, with defaults in place of zeros, and so exactly that one if and only if it
      has no zeros. */
  lemma RollbackRestoresFirstProfile(cfg: Settings, before: seq<Turn>, first: Turn, between: seq<Turn>, last: Turn,
                                     base: Profile)
    requires Run(cfg, FRESH, before).state.None?
    requires TakeTurn(cfg, Run(cfg, FRESH, before), first).1.Applied?
    requires var s := TakeTurn(cfg, Run(cfg, FRESH, before), first).0;
             TakeTurn(cfg, Run(cfg, s, between), last).1.RolledBack?
    ensures var s := TakeTurn(cfg, Run(cfg, FRESH, before), first).0;
            var restored := Resolve(TakeTurn(cfg, Run(cfg, s, between), last).0, base);
            && restored == Filled(first.base, DEFAULT_SOFT, DEFAULT_HARD)
            && (restored == first.base <==> Nonzero(first.base))
  {
    RunOk(cfg, FRESH, before);
    var s := TakeTurn(cfg, Run(cfg, FRESH, before), first).0;
    BaselineNeverChanges(cfg, s, between);
  }

  // ---------------------------------------------------------------- bounds

  predicate Sound(p: Profile) {
    p.hard > p.soft > 0
  }

  predicate Within(p: Profile, lo: int, hi: int) {
    lo <= p.soft <= hi
  }

  /** A turn whose settings are sound and whose soft thresholds lie in a range. */
  predicate TurnOk(t: Turn, lo: int, hi: int) {
    && Sound(t.base) && Within(t.base, lo, hi)
    && (t.report.soft.Some? ==> lo <= t.report.soft.value <= hi)
    && (t.report.hard.Some? ==> t.report.hard.value > 0)
  }

  predicate InRange(s: Session, lo: int, hi: int) {
    && SessionOk(s)
    && (s.override.Some? ==> Sound(s.override.value) && Within(s.override.value, lo, hi))
    && (s.state.Some? ==> Sound(s.state.value.baseline) && Within(s.state.value.baseline, lo, hi))
  }

  /** Soft moves by at most the configured step, hard by less than that plus 0.25. */
  lemma ApplyMovesLittle(cfg: Settings, s: Session, t: Turn)
    requires Sound(Resolve(s, t.base)) && TakeTurn(cfg, s, t).1.Applied?
    ensures var p, q := Resolve(s, t.base), Resolve(TakeTurn(cfg, s, t).0, t.base);
            && -MaxDelta(cfg) <= q.soft - p.soft <= MaxDelta(cfg)
            && -MaxDelta(cfg) <= q.hard - p.hard < MaxDelta(cfg) + HARD_GAP
  {
  }

  // ---------------------------------------------------------------- what a turn does

  predicate Mild(v: Verdict) {
    v.Accept? || v.Allow? || v.OtherVerdict?
  }

  /** From accepted over warned and revised to blocked. */
  predicate Severer(now: Verdict, last: Verdict) {
    || (now.Warn? && Mild(last))
    || (now.Revise? && (Mild(last) || last.Warn?))
    || (now.Block? && !last.Block?)
  }

  /** An adaptation is rolled back exactly when the outcome is worse than the one it was made
      at: a severer verdict, a confidence lower by 0.12, or a risk higher by 0.25. Otherwise one
      is applied exactly when that is enabled and a recommendation rests on enough samples.
      Either way the outcome is remembered; nothing else changes a session. */
  lemma TurnExactly(cfg: Settings, s: Session, t: Turn)
    ensures var (r, action) := TakeTurn(cfg, s, t);
            && (action.RolledBack?
                <==> && s.state.Some? && s.state.value.active
                     && var last := s.state.value.lastOutcome;
                        || Severer(t.outcome.verdict, last.verdict)
                        || last.confidence - 120_000 >= t.outcome.confidence
                        || t.outcome.risk >= last.risk + 250_000)
            && (action.Applied?
                <==> && !action.RolledBack?
                     && cfg.enabled && t.report.recommended && t.report.sampleCount >= cfg.minSamples)
            && (action.Disabled? <==> !action.RolledBack? && !cfg.enabled)
            && (action.NoRecommendation? <==> !action.RolledBack? && cfg.enabled && !t.report.recommended)
            && (if action.Applied? || action.RolledBack? then
                  && r.state.Some? && r.state.value.lastOutcome == t.outcome
                  && (r.state.value.active <==> action.Applied?)
                else r == s)
  {
  }

  /** The largest change of one apply: 1.0 where none is set, and never less than 0.1. */
  lemma StepSize(cfg: Settings)
    ensures cfg.maxDelta == 0 ==> MaxDelta(cfg) == 1_000_000
    ensures cfg.maxDelta >= 100_000 ==> MaxDelta(cfg) == cfg.maxDelta
    ensures cfg.maxDelta < 100_000 && cfg.maxDelta != 0 ==> MaxDelta(cfg) == 100_000
  {
  }

  function Distance(x: int, y: int): int {
    if x < y then y - x else x - y
  }

  /** `q` is as near to the target as one step from `p` gets: on the way, and there if the step
      covers the distance. */
  predicate Approaches(p: int, target: int, step: int, q: int) {
    && Distance(q, target) == Max(0, Distance(p, target) - step)
    && (p <= q <= target || target <= q <= p)
  }

  /** An apply moves soft and hard a step towards what is recommended, from the thresholds in
      force with defaults for zeros; what is not recommended stays. Hard is lifted to a quarter
      above soft where it would not be above it. The rest of the profile stays. */
  lemma ApplyMovesTowards(cfg: Settings, s: Session, t: Turn) returns (hard: int)
    requires TakeTurn(cfg, s, t).1.Applied?
    ensures var p, q := Resolve(s, t.base), Resolve(TakeTurn(cfg, s, t).0, t.base);
            var fromSoft := if p.soft == 0 then 5_000_000 else p.soft;
            var fromHard := if p.hard == 0 then 8_000_000 else p.hard;
            && (match t.report.soft
                case Some(target) =>
                  if target == 0 then q.soft == fromSoft else Approaches(fromSoft, target, MaxDelta(cfg), q.soft)
                case None => q.soft == fromSoft)
            && (match t.report.hard
                case Some(target) =>
                  if target == 0 then hard == fromHard else Approaches(fromHard, target, MaxDelta(cfg), hard)
                case None => hard == fromHard)
            && q.hard == (if hard > q.soft then hard else q.soft + 250_000)
            && q.weakCount == (if p.weakCount == 0 then 2 else p.weakCount) && q.canarySoftOnly == p.canarySoftOnly
  {
    var p := Filled(Resolve(s, t.base), DEFAULT_SOFT, DEFAULT_HARD);
    hard := Clamped(cfg, p.hard, OrGiven(t.report.hard, p.hard));
  }

  lemma StepsApproach(p: int, q: int, r: int, target: int, k: int, step: int)
    requires k >= 0 && step > 0
    requires Distance(q, target) == Max(0, Distance(p, target) - k * step) && Approaches(q, target, step, r)
    ensures Distance(r, target) == Max(0, Distance(p, target) - (k + 1) * step)
  {
    assert (k + 1) * step == k * step + step;
  }

  /** Turns that all apply the same soft recommendation bring soft nearer by a step each, and
      reach it exactly once their steps cover the distance. */
  lemma {:induction false} AppliesReachTarget(cfg: Settings, s: Session, turns: seq<Turn>, base: Profile, target: int)
    requires target > 0 && Resolve(s, base).soft > 0
    requires forall t | t in turns :: t.base == base && t.report.soft == Some(target)
    requires Applies(cfg, s, turns) == |turns|
    ensures var p, q := Resolve(s, base).soft, Resolve(Run(cfg, s, turns), base).soft;
            && q > 0 && Distance(q, target) == Max(0, Distance(p, target) - |turns| * MaxDelta(cfg))
            && (q == target <==> Distance(p, target) <= |turns| * MaxDelta(cfg))
  {
    StepSize(cfg);
    hide MaxDelta;
    if turns != [] {
      var n := |turns| - 1;
      AppliesAtMost(cfg, s, turns[..n]);
      AppliesReachTarget(cfg, s, turns[..n], base, target);
      var hard := ApplyMovesTowards(cfg, Run(cfg, s, turns[..n]), turns[n]);
      hide TakeTurn;
      StepsApproach(Resolve(s, base).soft, Resolve(Run(cfg, s, turns[..n]), base).soft,
                    Resolve(Run(cfg, s, turns), base).soft, target, n, MaxDelta(cfg));
    }
  }

  lemma {:induction false} AppliesAtMost(cfg: Settings, s: Session, turns: seq<Turn>)
    ensures Applies(cfg, s, turns) <= |turns|
  {
    if turns != [] {
      AppliesAtMost(cfg, s, turns[..|turns| - 1]);
    }
  }

  lemma TurnInRange(cfg: Settings, s: Session, t: Turn, lo: int, hi: int)
    requires 0 < lo <= hi && InRange(s, lo, hi) && TurnOk(t, lo, hi)
    ensures InRange(TakeTurn(cfg, s, t).0, lo, hi)
  {
  }

  /** With sound settings, every reachable profile keeps hard above soft above zero, and soft
      stays in the range of the settings and the recommendations seen. */
  lemma {:induction false} ProfilesStaySound(cfg: Settings, turns: seq<Turn>, lo: int, hi: int, base: Profile)
    requires 0 < lo <= hi && Sound(base) && Within(base, lo, hi)
    requires forall t | t in turns :: TurnOk(t, lo, hi)
    ensures InRange(Run(cfg, FRESH, turns), lo, hi)
    ensures var p := Resolve(Run(cfg, FRESH, turns), base); Sound(p) && Within(p, lo, hi)
  {
    if turns != [] {
      var n := |turns| - 1;
      ProfilesStaySound(cfg, turns[..n], lo, hi, base);
      TurnInRange(cfg, Run(cfg, FRESH, turns[..n]), turns[n], lo, hi);
    }
  }

  function Applies(cfg: Settings, s: Session, turns: seq<Turn>): nat {
    if turns == [] then 0
    else
      var n := |turns| - 1;
      Applies(cfg, s, turns[..n]) + if TakeTurn(cfg, Run(cfg, s, turns[..n]), turns[n]).1.Applied? then 1 else 0
  }

  lemma OneMoreStep(x: int, y: int, k: int, d: int)
    requires k >= 0 && d >= 0 && -(k * d) <= x <= k * d && -d <= y <= d
    ensures -((k + 1) * d) <= x + y <= (k + 1) * d
  {
    assert (k + 1) * d == k * d + d;
  }

  /** With fixed sound settings, k applies move soft at most k steps away from them, however
      they alternate with rollbacks. */
  lemma {:induction false} DriftIsBounded(cfg: Settings, base: Profile, turns: seq<Turn>, hi: int)
    requires Sound(base) && base.soft <= hi
    requires forall t | t in turns :: t.base == base && TurnOk(t, 1, hi)
    ensures var s, k := Run(cfg, FRESH, turns), Applies(cfg, FRESH, turns);
            && (s.state.Some? ==> s.state.value.baseline == Filled(base, DEFAULT_SOFT, DEFAULT_HARD))
            && -(k * MaxDelta(cfg)) <= Resolve(s, base).soft - base.soft <= k * MaxDelta(cfg)
  {
    if turns != [] {
      var n := |turns| - 1;
      var s, t, k := Run(cfg, FRESH, turns[..n]), turns[n], Applies(cfg, FRESH, turns[..n]);
      DriftIsBounded(cfg, base, turns[..n], hi);
      ProfilesStaySound(cfg, turns[..n], 1, hi, base);
      DriftStep(cfg, s, t, base, k);
    }
  }

  lemma DriftStep(cfg: Settings, s: Session, t: Turn, base: Profile, k: int)
    requires SessionOk(s) && Sound(Resolve(s, base)) && Sound(base) && t.base == base && k >= 0
    requires s.state.Some? ==> s.state.value.baseline == Filled(base, DEFAULT_SOFT, DEFAULT_HARD)
    requires -(k * MaxDelta(cfg)) <= Resolve(s, base).soft - base.soft <= k * MaxDelta(cfg)
    ensures var (r, action) := TakeTurn(cfg, s, t); var n := k + if action.Applied? then 1 else 0;
            && (r.state.Some? ==> r.state.value.baseline == Filled(base, DEFAULT_SOFT, DEFAULT_HARD))
            && -(n * MaxDelta(cfg)) <= Resolve(r, base).soft - base.soft <= n * MaxDelta(cfg)
  {
    var before, after := Resolve(s, base).soft, Resolve(TakeTurn(cfg, s, t).0, base).soft;
    TurnEffect(cfg, s, t, base);
    hide TakeTurn, MaxDelta;
    if TakeTurn(cfg, s, t).1.Applied? {
      ApplyMovesLittle(cfg, s, t);
      OneMoreStep(before - base.soft, after - before, k, MaxDelta(cfg));
    } else {
      NotNegative(k, MaxDelta(cfg));
    }
  }

  lemma NotNegative(k: int, d: int)
    requires k >= 0 && d >= 0
    ensures k * d >= 0
  {
  }

  /** What a turn that is not an apply does to the soft threshold, and the baseline after it. */
  lemma TurnEffect(cfg: Settings, s: Session, t: Turn, base: Profile)
    requires SessionOk(s) && Sound(base) && t.base == base
    requires s.state.Some? ==> s.state.value.baseline == Filled(base, DEFAULT_SOFT, DEFAULT_HARD)
    ensures MaxDelta(cfg) >= 0
    ensures var (r, action) := TakeTurn(cfg, s, t);
            && (r.state.Some? ==> r.state.value.baseline == Filled(base, DEFAULT_SOFT, DEFAULT_HARD))
            && (action.RolledBack? ==> Resolve(r, base).soft == base.soft)
            && (!action.RolledBack? && !action.Applied? ==> Resolve(r, base).soft == Resolve(s, base).soft)
  {
  }
}
