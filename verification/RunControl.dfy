/** The retry, safe-fallback and commit part of a run (orchestrator.py:844-1140), with the
    retry decision it asks for (services/orchestrator/defs/decision_control.py:29-95). */
module RunControl {
  import opened Basics

  datatype Decision = Accept | Warn | Revise | Block

  /** Validator issues the run reacts to; other issues change nothing here. */
  datatype Issue = FabricatedOrUngrounded | AssumesHealth | AbsoluteComparison | OtherIssue

  datatype Validation = Validation(decision: Decision, passed: bool, issues: set<Issue>)
  datatype Compression = Compression(noNewInformation: bool, notMeaningful: bool)
  datatype Draft = Draft(content: string, compression: Compression)
  datatype Gap = Gap(detected: bool, stop: bool)

  /** Generator, judge, gap detector and validator, as arbitrary functions of how often they
      were asked. `safe` are the fixed texts put in place of an unsupported answer. */
  datatype Services = Services(
    generate: nat -> Draft,
    judgeBlocks: (nat, string) -> bool,
    findGap: (nat, Validation) -> Gap,
    validate: (nat, string) -> Validation,
    safeTool: string, safeHealth: string, safeComparison: string)

  predicate Rejects(d: Decision) {
    d.Block? || d.Revise?
  }

  const NO_COMPRESSION := Compression(false, false)

  /** Whether another attempt is allowed. No information-gain signal is passed in this part of
      a run, so the gain counts as zero and the stability as full. */
  function RetryAllowed(d: Decision, judgeBlocks: bool, retryCount: int, retryLimit: int, c: Compression,
                        gap: Option<Gap>): bool
  {
    if judgeBlocks then false
    else if c.noNewInformation then false
    else if c.notMeaningful then false
    else if retryCount >= retryLimit && Rejects(d) then false
    else if gap.Some? && (!gap.value.detected || gap.value.stop) then false
    else if Rejects(d) && retryCount > 0 then false
    else Rejects(d) && retryCount < retryLimit
  }

  /** One validation of a run: what was shown to the validator, and its answer. */
  datatype Checked = Checked(content: string, validation: Validation)

  /** The validations of a run are the answers of the validator, in order. */
  ghost predicate Honest(s: Services, trace: seq<Checked>) {
    forall n | 0 <= n < |trace| :: trace[n].validation == s.validate(n, trace[n].content)
  }

  // ---------------------------------------------------------------- any retry decision

  /** A retry decision: validator decision, judge, attempts made, limit, compression, gap. */
  type Policy = (Decision, bool, int, int, Compression, Option<Gap>) -> bool

  /** No attempt is allowed at or beyond the limit. */
  ghost predicate DeniesAtLimit(allow: Policy) {
    forall d, judge, count, limit, c, gap | count >= limit :: !allow(d, judge, count, limit, c, gap)
  }

  /** The answer and its validation after `n` retries. */
  function Attempt(s: Services, n: nat): Checked {
    Checked(s.generate(n).content, s.validate(n, s.generate(n).content))
  }

  /** After `n` retries another one is made: the answer is rejected, and the decision allows it
      both before and after looking for a gap. */
  predicate GoesOn(s: Services, limit: int, allow: Policy, n: nat) {
    var v, judge := Attempt(s, n).validation, s.judgeBlocks(n, s.generate(n).content);
    && Rejects(v.decision)
    && allow(v.decision, judge, n, limit, s.generate(n).compression, None)
    && allow(v.decision, judge, n, limit, NO_COMPRESSION, Some(s.findGap(n, v)))
  }

  method RetryLoop(s: Services, retryLimit: int, allow: Policy)
    returns (content: string, validation: Validation, retries: nat, ghost trace: seq<Checked>)
    requires DeniesAtLimit(allow)
    ensures Honest(s, trace) && |trace| == retries + 1 && trace[retries] == Checked(content, validation)
    ensures retries <= Max(0, retryLimit)
    ensures Checked(content, validation) == Attempt(s, retries)
    ensures (forall n | 0 <= n < retries :: GoesOn(s, retryLimit, allow, n)) && !GoesOn(s, retryLimit, allow, retries)
  {
    var draft := s.generate(0);
    content := draft.content;
    var judgeBlocks := s.judgeBlocks(0, content);
    validation := s.validate(0, content);
    trace := [Checked(content, validation)];
    retries := 0;
    var retryCount := 0;
    while Rejects(validation.decision)
      invariant Honest(s, trace) && |trace| == retries + 1 && trace[retries] == Checked(content, validation)
      invariant retryCount == retries <= Max(0, retryLimit)
      invariant draft == s.generate(retries) && content == draft.content
      invariant judgeBlocks == s.judgeBlocks(retries, content)
      invariant forall n | 0 <= n < retries :: GoesOn(s, retryLimit, allow, n)
      decreases retryLimit - retryCount
    {
      if !allow(validation.decision, judgeBlocks, retryCount, retryLimit, draft.compression, None) {
        break;
      }
      retryCount := retryCount + 1;
      var gap := s.findGap(retries, validation);
      if !allow(validation.decision, judgeBlocks, retryCount - 1, retryLimit, NO_COMPRESSION, Some(gap)) {
        break;
      }
      retries := retries + 1;
      draft := s.generate(retries);
      content := draft.content;
      judgeBlocks := s.judgeBlocks(retries, content);
      validation := s.validate(retries, content);
      trace := trace + [Checked(content, validation)];
    }
  }

  /** What a run writes to memory, for any retry decision that denies at the limit: the content
      its last validation accepted and passed, and nothing otherwise. A fallback text is either
      validated again, and is then the content of the last validation, or it turns an
      acceptance into a warning and nothing is written. */
  method RunToCommit(s: Services, retryLimit: int, allow: Policy)
    returns (committed: Option<string>, answer: string, retries: nat, ghost trace: seq<Checked>)
    requires DeniesAtLimit(allow)
    ensures Honest(s, trace) && 1 <= |trace| <= retries + 2 && retries <= Max(0, retryLimit)
    ensures (forall n | 0 <= n < retries :: GoesOn(s, retryLimit, allow, n)) && !GoesOn(s, retryLimit, allow, retries)
    ensures committed.Some? ==>
              var last := trace[|trace| - 1];
              committed.value == last.content == answer && last.validation.decision.Accept? && last.validation.passed
    ensures var settled, last := Attempt(s, retries), trace[|trace| - 1];
            if FabricatedOrUngrounded in settled.validation.issues then
              && last.content == answer == s.safeTool
              && (committed.Some? <==> last.validation.decision.Accept? && last.validation.passed)
            else if AssumesHealth in settled.validation.issues || AbsoluteComparison in settled.validation.issues then
              && committed.None?
              && answer == if AssumesHealth in settled.validation.issues then s.safeHealth else s.safeComparison
            else
              && last == settled && answer == settled.content
              && (committed.Some? <==> settled.validation.decision.Accept? && settled.validation.passed)
  {
    var content, validation: Validation;
    content, validation, retries, trace := RetryLoop(s, retryLimit, allow);
    if FabricatedOrUngrounded in validation.issues {
      content := s.safeTool;
      validation := s.validate(retries + 1, content);
      trace := trace + [Checked(content, validation)];
    } else if AssumesHealth in validation.issues {
      content := s.safeHealth;
      if validation.decision.Accept? {
        validation := validation.(decision := Warn);
      }
    } else if AbsoluteComparison in validation.issues {
      content := s.safeComparison;
      if validation.decision.Accept? {
        validation := validation.(decision := Warn);
      }
    }
    answer := content;
    committed := if validation.decision.Accept? && validation.passed then Some(content) else None;
  }

  // ---------------------------------------------------------------- the decision made

  /** A retry happens exactly when the first answer is rejected, nothing stops it, and a gap to
      work on is found. */
  predicate Retries(s: Services, retryLimit: int) {
    var first := s.generate(0);
    var v := s.validate(0, first.content);
    && Rejects(v.decision) && retryLimit > 0
    && !s.judgeBlocks(0, first.content)
    && !first.compression.noNewInformation && !first.compression.notMeaningful
    && s.findGap(0, v).detected && !s.findGap(0, v).stop
  }

  /** Under the decision made, the loop and the commit above hold with at most one retry,
      whatever the limit: `retries` is the only number of retries they can end with. */
  lemma OneRetryAtMost(s: Services, retryLimit: int, retries: nat)
    ensures DeniesAtLimit(RetryAllowed)
    ensures (forall n | 0 <= n < retries :: GoesOn(s, retryLimit, RetryAllowed, n))
            && !GoesOn(s, retryLimit, RetryAllowed, retries)
       <==> retries == if Retries(s, retryLimit) then 1 else 0
  {
    assert !GoesOn(s, retryLimit, RetryAllowed, 1);
    assert GoesOn(s, retryLimit, RetryAllowed, 0) <==> Retries(s, retryLimit);
    if retries > 0 && forall n | 0 <= n < retries :: GoesOn(s, retryLimit, RetryAllowed, n) {
      assert GoesOn(s, retryLimit, RetryAllowed, 0);
      assert retries <= 1;
    }
  }

  /** Why: once an attempt was made, a rejected answer is never tried again, however high the
      limit; the limit only matters by being zero or not. */
  lemma LimitIsZeroOrNot(s: Services, a: int, b: int)
    requires a > 0 && b > 0
    ensures Retries(s, a) == Retries(s, b)
    ensures forall d, judge, c, gap, count | count > 0 :: !RetryAllowed(d, judge, count, a, c, gap)
    ensures forall d, judge, c, gap :: !RetryAllowed(d, judge, a, a, c, gap)
  {
  }
}
