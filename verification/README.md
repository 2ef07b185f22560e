# Verified models of L.I.A.R.A.'s control logic

Dafny models of the parts of L.I.A.R.A. that decide what may run, what is remembered and what a
client gets to see, with proofs of what they keep over every run:

- **Governed actions** (`Authorization`, `WorkspacePaths`, `Governance`, `GovernanceSafety`,
  `GovernanceTheorems`, `GovernanceOrigin`, `GovernanceRestore`, `GovernanceTool`,
  `GovernanceTransaction`, `GovernanceWindows`, `GovernanceOverlap`, `GovernanceServer`): proposals are decided once, invoked a bounded number of times, applied, and
  compensated from a digest-checked snapshot. `Governance` is a state machine over the store file
  and the dictionary that the server loads from it and saves to it; its actions are the spans of the
  handlers between two awaits, or parts of them, and the spans of the thread that creates a
  compensating proposal. An invocation is authorized in one span, and begins in another after its
  session lookup, on whatever was loaded last. `GovernanceServer.Server` holds the spans as methods
  that update file and dictionary in place, each proved to take its step. `GovernanceTool` has what
  the tool does with the parameters of a `tee`.
- **Chat event stream** (`ChatStream`, `SseClient`, `SseCodec`): a generator beside a running chat and a reader
  task, under every schedule, then chunking, server-sent-event framing and the client that reads it.
- **Astronomy** (`Calendar`, `Windows`): the Julian date formula against counting days, and the
  one-pass window scan against all visible runs.
- **Run control** (`Thresholds`, `RunControl`, `Rerank`, `Channels`): session-local threshold
  adaptation with rollback, the retry, fallback and commit part of a run, re-ranking, and merging of
  context channels.
- **Visitor passes** (`VisitorPass`): attenuation over delegation chains.
- **Env files** (`EnvFile`, `EnvFileTheorems`, `EnvText`): the patcher against the reader that gives its
  text a meaning, and a decimal reader for the numbers it writes.
- `PyText` and `Basics`: Python's trimming, line splitting and joining, and small datatypes.

Code that mutates objects or loops over data is modelled by classes, methods and loops, each proved
against a function; the main results are lemmas about those functions, over all inputs and all runs.

## What is assumed

- SHA-256 is injective: a digest is represented by what was digested. JSON encoding is a single-line
  text that begins and ends with a brace and can be decoded; `SseCodec.CodecExists` has such a codec.
- Governed actions: new ids are new, and at most one decide, apply or rollback is under way at a
  time. Everything else interleaves freely, but for what would be lost because a copy of the store is
  held across a suspension and saved afterwards. This happens in a decision (app.py:3128 to 3251), in
  an apply (app.py:3343 to 3384), and in the thread that creates the compensating proposal
  (services/tools/governance.py:195 to 234, under a lock that no handler takes). While one of them
  lasts, no proposal may be added. And an execution may begin or end only while what the server has
  loaded, which is what is saved then, is also what the suspended handler will save, and holds the
  compensating proposal once the thread has written it (`Governance.LoadedIsCurrent`). These are
  hypotheses of the theorems about permitted runs, and the code does not ensure them:
  `GovernanceWindows` proves, for all three windows, exactly which executions are forgotten without
  them and exactly when limits still hold, and `GovernanceOverlap` exactly when the compensating
  proposal is dropped. The thread reads and writes between spans of the event loop, not during one.
- Loading and saving the file are atomic (a save renames a temporary file). A crash may fall between
  spans, or inside a span after a save and before any of the audit lines that follow it.
- `cat` returns the text of the file, and the digest a verified compensating write reports is that of
  the file afterwards. The snapshot file on disk and other writers of the workspace are arbitrary. A
  tool's effect on the workspace happens when it returns. Only the theorems that speak of an honest
  tool (`GovernanceTool.Honest`) assume more: that a `tee` within the limits of the tool is carried
  out, and that its report is of what it reads back afterwards. For these the workspace root is an
  absolute path.
- The event queue is first in, first out, and cancelling a pending read loses nothing.
- Astronomy: exact rationals in place of floating point; altitudes are at least -90 degrees.

## Where the code differs from what it says

- An approval is for at most `max_invocations` executions, one at a time (app.py:2826-2832). Executions
  started while a held copy of the store is no longer the dictionary of the server are forgotten when
  the copy is saved, and may be repeated; those that begin on a dictionary still shared are not.
  `ForgottenExactly`, `LimitHoldsExactly` and `OneAtATimeExactly` have the exact conditions,
  `TwiceUnderALimitOfOne` is a run from the empty store.
- An apply is made once (app.py:3302-3312). If one is completed while a decision is suspended, the
  decision then saves its older copy and undoes it: `OverlapUndoesApply` says exactly when it can be
  applied again, and `OverlappedApplyRunsAgain` that a second apply then reaches the tool.
- A rollback records its outcome (app.py:3590-3629), but if an execution begins or ends between the
  write of the thread and the next load, the compensating proposal is dropped, and the rollback ends
  where it is: `CompensatorDroppedExactly`.
- A snapshot may be taken that no rollback can write back (app.py:429-447, 3360-3384): the limit on
  snapshots can be set above the 64 KB that the tool accepts
  (services/tools/builtin/wsl_executor.py:69, 645-651), and a target may have a line end in its name or
  white space at its end. `CompensationRestoresExactly` and `UndisturbedTransaction` have the exact
  condition.
- The audit log is written after the store is saved, so a crash in between loses a line:
  `ExecutionsAreBounded` has the bounds.
- A target "below the workspace root" is one whose parts extend those of the root; `..` is a part
  like any other. `TargetResolvesBelowExactly` says when it resolves to a file below the root, and
  `TargetStaysBelowExactly` when the path never leaves it; `TargetAbove` is one that does.
- "Capabilities may attenuate, never amplify" (ai_brain/auth.py:4) fails for a request with an
  explicitly empty list, which passes the subset check and is then replaced by the defaults.
  `DerivationAmplifiesExactly` gives the exact condition, `EmptyRequestAmplifies` an instance.
- A derived pass can outlive its parent by up to one second: `OutlivesExactly`, `DerivedOutlives`.
- The run allows up to four retries (orchestrator.py:378), but the retry decision refuses every
  attempt after the first for want of an information gain, which this part of the run never passes:
  there is at most one retry (`OneRetryAtMost`). The retry loop and the commit are proved for every
  retry decision that refuses at the limit.
- Reading a patched env file is the intended map update only if the last line for a key can be
  replaced, and if the patcher splits lines where the reader does; it also splits them at form feeds
  and similar characters that the reader keeps inside a value. `PatchIsMapUpdate` has the exact
  condition for every text, `FormFeedIsSplit` an instance where it fails.

## Model

| member | source | states |
|---|---|---|
| Authorization.AuthorizedExactly | app.py:2750-2783 | a governed invocation is authorized if and only if the proposal is approved and the request repeats the approved action; any extra or changed governed key is refused |
| Authorization.ExecutionMatchesApproval | app.py:2785-2818 | what reaches the tool equals the approved parameters except for trace keys, the marker, whitespace around the command, and a session workdir where the approved one is empty |
| Authorization.DirectoryIsFilledExactly | app.py:2803-2818 | the session's working directory is filled in if and only if the request leaves the directory open, uses no temporary session and names one that has a directory; nothing else changes then |
| Authorization.TraceIsFilled | app.py:2785-2793 | trace keys are kept where they say something and filled in where they are blank; nothing else changes |
| Authorization.EffectIsApproved | app.py:778-785 | what says what is written, where and how is never a trace key: at execution it is as approved |
| WorkspacePaths.ReversibleExactly | app.py:429-447 | there is a target to compensate if and only if the command is `tee` in any case of letters, the mode is not "append" in any case, the scope is that of the workspace, and the path is the root and at least one name |
| WorkspacePaths.TargetIsBelowRoot | app.py:429-447 | a target that can be compensated is in normal form, names the file the parameters name, and its parts extend those of the workspace root, with ".." a part like any other |
| WorkspacePaths.TargetStaysBelowExactly | app.py:437-447 | such a target stays below the workspace root, ".." resolved, if and only if nowhere along its remaining parts there were more ".."s than names |
| WorkspacePaths.TargetResolvesBelowExactly | app.py:437-447 | it resolves to a file strictly below the root if and only if the names its remaining parts go down begin with the levels of the root they went up, and go on |
| WorkspacePaths.ParseShown | app.py:437-447 | normalizing a path twice is normalizing it once |
| GovernanceServer.Server.CheckInvocation | app.py:2755-2783 | the key-by-key loop over approved parameters and the digest comparison compute the authorization function |
| GovernanceServer.Server.AuthorizeInvocation | app.py:2750-2783 | the first span loads the store and checks the request, and changes nothing else |
| GovernanceServer.Server.RequestInvocation | app.py:2734-2783 | a direct invocation is authorized and goes on to its session lookup, or is refused |
| GovernanceServer.Server.BeginInvocation | app.py:2820-2861 | the lock-protected span after the lookup counts one attempt on what was loaded last, saves that, logs it and hands the completed parameters on, or changes nothing |
| GovernanceServer.Server.InvokeDirectly | app.py:2820-2861 | an authorized direct invocation begins, or is refused with file and log unchanged |
| GovernanceServer.Server.EndInvocation | app.py:2872-2917 | the span after the tool counts a success or a failure and logs it |
| GovernanceServer.Server.CreateProposal | app.py:2921-2978 | a proposal enters the store pending, with the digest of its action |
| GovernanceServer.Server.Decide | app.py:3065-3086 | a pending proposal is decided once; a blocked one cannot be approved; a refusal changes nothing |
| GovernanceServer.Server.FinishDecision | app.py:3250-3251 | the resumed decision saves the dictionary it held |
| GovernanceServer.Server.StartApply | app.py:3284-3333 | an apply starts only for an approved, never executed proposal that is not already under way |
| GovernanceServer.Server.FinishPreflight | app.py:3343-3398 | the snapshot is kept when the file was readable and small enough, and the apply goes on either way |
| GovernanceServer.Server.AuthorizeApply | app.py:3400-3408 | the execution of an apply is authorized on the loaded store, or the apply fails |
| GovernanceServer.Server.InvokeApply | app.py:3403-3425 | it begins on what was loaded last, or the apply fails |
| GovernanceServer.Server.FinishApply | app.py:3409-3463 | the outcome of the execution decides between applied and apply_failed |
| GovernanceServer.Server.StartRollback | app.py:3465-3497 | compensation starts only from applied, with a captured snapshot that passes all its checks |
| GovernanceServer.Server.Sync | app.py:1387-1390 | loading replaces the dictionary of the server; a handler suspended over the old one keeps it |
| GovernanceServer.Server.ReadForCompensation | services/tools/governance.py:194-195 | the thread that creates the compensating proposal reads the whole store first |
| GovernanceServer.Server.CreateCompensation | services/tools/governance.py:203-250 | it writes back what it read, with the new proposal pending: a `tee` whose effect `CompensationWrites` states |
| GovernanceServer.Server.ApproveCompensation | app.py:3526-3575 | the handler loads, approves the compensating proposal and records the rollback, or fails when the proposal is not there |
| GovernanceServer.Server.AuthorizeCompensation | app.py:3577-3584 | the compensating execution is authorized on the loaded store, or the rollback fails |
| GovernanceServer.Server.InvokeCompensation | app.py:3577-3601 | it begins on what was loaded last, or the rollback fails |
| GovernanceServer.Server.FinishCompensation | app.py:3577-3629 | rolled_back only for a verified write whose digest is that of the snapshot |
| GovernanceSafety.GrantedStays | app.py:2750-2822 | what was authorized before the session lookup would still be authorized after it |
| GovernanceSafety.CrashKeeps | app.py:2844-2845 | a crash between a save and its audit lines, in any span, keeps the invariant, with the lines it cut off counted as lost |
| GovernanceSafety.StepKeeps | app.py:2820-3629 | every span, with authorization and begin apart, keeps the invariant and moves every proposal along the edges of the transaction state machine |
| GovernanceSafety.RunKeeps | app.py:2820-3629 | the invariant holds over every run, with crashes, disk changes and other writers |
| GovernanceTheorems.ExecutionsAreBounded | app.py:2820-2917 | in permitted runs, attempts never exceed the limit and are the executions logged as started, but for at most one line per crash inside a span; so it is with successes and failures, and every attempt but a running one succeeded or failed |
| GovernanceTheorems.OneExecutionInFlight | app.py:2820-2861 | in permitted runs, at most one execution of a proposal is inside the tool, and the store shows it |
| GovernanceTheorems.ExecutionsAreApproved | app.py:2750-2818 | every execution that ever started, in any run, carried out an approved action |
| GovernanceTheorems.TransactionsAreSound | app.py:3284-3447 | applied and later states imply approval, a success and exactly one apply that reached the tool; compensation starts at most once, from a snapshot; the audit lines due agree with the state |
| GovernanceTheorems.EveryStepEvolves | app.py:3284-3629 | what an approval fixes never changes, a decision is final, counters only grow, and each move of the transaction is one of its edges with its guard |
| GovernanceTheorems.ApplyReachesToolExactly | app.py:3400-3406 | an apply reaches the tool if and only if the command in its parameters is the command of the proposal, its session lookup succeeds and its limit is not used up |
| GovernanceTheorems.CompensationIsAuthorized | app.py:3577-3584 | the compensating invocation always passes authorization |
| GovernanceTheorems.CompensationBeginsExactly | app.py:2820-2832 | it then begins if and only if its session lookup succeeds and no other invocation used it up |
| GovernanceTheorems.RolledBackRestoresTarget | app.py:408-426 | a rollback that reports rolled_back leaves the target as it was at the snapshot, whatever happened to the snapshot file or the target since |
| GovernanceOrigin.ProposalsWereAskedFor | app.py:2921-3086 | in any run, every proposal in the store was asked for with that command, those parameters and that limit, is allowed if and only if the command policy allows its command, and was approved or rejected by a request to do just that; the only others, for one `tee` each, were added by the thread of a rollback |
| GovernanceOrigin.ExecutionsWereAskedFor | app.py:2750-3086 | in any run, every execution that started traces back to a request that proposed it, a policy that allows it and a request that approved it, or compensates |
| GovernanceTool.ApprovedTee | app.py:2785-2818 | the tool does with the parameters of an execution what it would do with those approved |
| GovernanceTool.CompensationWrites | app.py:3499-3511 | the execution recorded for a compensator has the tool write the text of the snapshot to its target, in place of what is there, and nothing else; the tool accepts it if and only if the name is on one line and the text within its limit |
| GovernanceTool.CompensationRestoresExactly | app.py:3499-3629 | with a tool that does what it is handed, and whatever other requests do meanwhile, a rollback that reached the tool ends in rolled_back if and only if the tool accepts the text and reads it back where it wrote it; the workspace then has the snapshot at the target |
| GovernanceTransaction.UndisturbedTransaction | app.py:2921-3629 | with a tool that does what it is handed and nothing in between, a proposal that overwrites an existing file is created, approved and applied, which leaves the new text; rolling it back leaves the workspace as it was, under rolled_back, if and only if the tool accepts the old text and the name and reads the file back where it wrote it |
| GovernanceTransaction.PlainTeeOverwrites | services/tools/builtin/wsl_executor.py:642-703 | a `tee` with a file below the root as argument and target is such a proposal, if and only if the name is on one line and the text within the limit |
| GovernanceTransaction.CompensationIsReversible | app.py:3499-3511 | a compensation is itself an action on the same target that could be compensated, in the directory of the proposal |
| GovernanceTransaction.ApplyStartsExactly | app.py:3284-3323 | in reachable states, an apply starts if and only if the proposal is approved, never executed, and was not applied before or failed then |
| GovernanceTransaction.RollbackStartsExactly | app.py:3465-3497 | a rollback starts if and only if the apply went through with a snapshot, none was started, and the disk has a snapshot with the text that the target had |
| GovernanceTransaction.CapturedExactly | app.py:3343-3384 | a snapshot is kept, and can be loaded again, if and only if the file was read, its size is within the limit and it could be written |
| GovernanceTransaction.DecidesExactly | app.py:3065-3086 | any pending proposal can be rejected, and approved if and only if the policy allows it |
| GovernanceTransaction.InvocationBeginsExactly | app.py:2820-2832 | an authorized invocation begins if and only if its session was looked up, the proposal is not executing and its limit is not used up |
| GovernanceTransaction.LoadsOnlyCaptured | app.py:408-426 | whatever happened to the disk, what is loaded through a reference is the snapshot it was made for |
| GovernanceTransaction.SizeIsShortest | app.py:380-384 | the size compared with the limit is that of the shortest encoding of each character |
| GovernanceRestore.ApplyThenRollbackIsIdentity | app.py:3325-3629 | from preflight to rolled_back, with all writes in between falling on the target, the workspace ends as it began, over every run |
| GovernanceWindows.ForgottenExactly | app.py:3250-3251 | whatever other requests do while a decision, an apply or the compensating thread holds its copy, saving it forgets exactly the executions started while the copy was apart from the loaded dictionary |
| GovernanceWindows.LimitHoldsExactly | app.py:3340-3384 | after the copy was saved, no permitted run exceeds the limit if and only if no execution was started while the copy was apart, or the copy shows one as running that is not |
| GovernanceWindows.LimitAndForgotten | services/tools/governance.py:194-234 | after the copy was saved, executions never exceed the limit and those forgotten, together |
| GovernanceWindows.ForgottenAreRepeated | services/tools/governance.py:194-234 | that many are reached, by requests authorized like one that began while the copy was apart |
| GovernanceWindows.OneAtATimeExactly | app.py:2824-2827 | after the copy was saved, two executions of a proposal are never in the tool at once if and only if the copy shows the one that is there, if one is |
| GovernanceWindows.TwiceUnderALimitOfOne | app.py:3250-3251 | a run from the empty store: an invocation begun and ended while a decision holds its copy runs a second time under a limit of one |
| GovernanceOverlap.CompensatorDroppedExactly | app.py:3511-3527 | an execution that begins or ends before the next load drops the compensating proposal if and only if it is not loaded; the handler then fails and leaves the rollback where it is |
| GovernanceOverlap.OverlapUndoesApply | app.py:3250-3251 | a decision that saves a copy from before an apply was completed leaves the proposal as it was, to be applied again if and only if it had been approved by then |
| GovernanceOverlap.OverlappedApplyRunsAgain | app.py:3250-3251 | after that, a second apply of the proposal can reach the tool |
| ChatStream.EventStream.Generate | app.py:2422-2513 | under every schedule, what was sent, held and queued is what was put; a stream that ends sent the progress put, in order and once, then the closing frames of its outcome; something is sent after every wait, and it ends within two waits of the end of the run |
| ChatStream.EventStream.Suspend | app.py:2433-2450 | other tasks running while the generator is suspended lose and reorder nothing, and the run has ended exactly if it was made to |
| ChatStream.ChunksPartition | app.py:2485-2495 | there is always a chunk, all but the last are full, and together they are the text |
| ChatStream.ClosingSays | app.py:2474-2513 | a failed run sends its message and the end; one that succeeded sends chunks that make up its text, its artifacts in order, its final text and the end |
| ChatStream.EmitClosing | app.py:2474-2513 | the frames sent after the run ended, in order |
| SseClient.FramingRoundTrip | scripts/benchmark_100q_multi_user_fresh.py:265-278 | the reader gets back every frame the server wrote, in order, under its name |
| SseClient.ReadSseEvents | scripts/benchmark_100q_multi_user_fresh.py:265-278 | the loop over the lines computes the specified events |
| SseClient.CallStream | scripts/benchmark_100q_multi_user_fresh.py:291-318 | the loop over the events computes the specified reply |
| SseClient.StreamRoundTrip | scripts/benchmark_100q_multi_user_fresh.py:291-318 | the client recovers exactly the stripped answer for every text, the stages in order, and whether the stream was complete |
| SseClient.ReceivesAny | scripts/benchmark_100q_multi_user_fresh.py:291-318 | for frames of any server: the text of the chunks, or where that is blank the last final answer, and completeness |
| SseClient.StreamAndReceive | app.py:2422-2513 | end to end, for every schedule: stages of everything put, and the answer |
| Calendar.FormulaCountsDays | scripts/astronomy_visibility.py:78-103 | the closed form with floors is the day number counted month by month and year by year, up to a constant |
| Calendar.NextDayAddsOne | scripts/astronomy_visibility.py:78-103 | the next calendar day is exactly one more, for every date from year 1 on |
| Calendar.DifferenceIsElapsedTime | scripts/astronomy_visibility.py:78-103 | differences of Julian dates are elapsed microseconds over those of a day |
| Calendar.StrictlyIncreasing | scripts/astronomy_visibility.py:78-103 | order and equality of Julian dates are those of the instants |
| Calendar.EpochIsStandard | scripts/astronomy_visibility.py:102 | noon of 1 January 2000 is 2451545.0 |
| Calendar.CountsFromEpoch | scripts/astronomy_visibility.py:78-103 | the Julian date of any instant is 2451545 and the days elapsed since then |
| Windows.SampleVisibility | scripts/astronomy_visibility.py:161-205 | one sample per step from start to end, both included; bad steps and durations are refused |
| Windows.SamplesShowSky | scripts/astronomy_visibility.py:181-205 | each sample shows the sky at its time: the rounded altitude there, and whether the altitude is at least the minimum |
| Windows.FindBestWindow | scripts/astronomy_visibility.py:208-234 | for any samples, the window of the earliest maximal run of the greatest duration, or none |
| Windows.AnalyzeVisibility | scripts/astronomy_visibility.py:251-283 | in terms of the sky alone: the number of steps at which the target is up; no window if and only if it is below the minimum at every step; otherwise the window runs from step i to step j, the target is up all along and not just before or after, no such run is longer, or as long and earlier, and the peak is the highest rounded altitude along it |
| Windows.BestWindowIsEarliestLongest | scripts/astronomy_visibility.py:181-248 | on evenly spaced samples, the earliest longest visible run, its duration in steps and its highest altitude; none exactly when nothing is visible |
| Thresholds.ThresholdController.MaybeApplyRuntimeThresholdAdaptation | orchestrator.py:1688-1823 | one adaptation step of one session, every other session unchanged |
| Thresholds.ThresholdController.ResolveReasoningThresholdProfile | orchestrator.py:1662-1686 | the session override where there is one, the settings otherwise |
| Thresholds.TurnExactly | orchestrator.py:1688-1823 | a turn rolls back if and only if an adaptation is active and the verdict, the confidence or the risk got worse by the margins, applies if and only if that is enabled and a recommendation rests on enough samples, and otherwise changes nothing |
| Thresholds.BaselineNeverChanges | orchestrator.py:1708-1709 | the baseline recorded at the first adaptation survives every later turn |
| Thresholds.RollbackRestoresFirstProfile | orchestrator.py:1727-1763 | every rollback, whatever applies and rollbacks preceded it, restores the profile the first adaptation found, with the defaults in place of zeros, and exactly that profile if and only if it has none |
| Thresholds.ProfilesStaySound | orchestrator.py:1783-1804 | every reachable profile keeps hard above soft above zero, and soft within the range of settings and recommendations |
| Thresholds.ApplyMovesTowards | orchestrator.py:1783-1804 | an apply moves soft and hard towards what is recommended by the step, or all the way if that covers the distance, and hard is a quarter above soft where it would not be above it |
| Thresholds.AppliesReachTarget | orchestrator.py:1783-1804 | n applies of one soft recommendation bring soft nearer by n steps, and onto it if and only if they cover the distance |
| Thresholds.ApplyMovesLittle | orchestrator.py:1788-1792 | one apply moves soft by at most the step and hard by less than the step plus 0.25 |
| Thresholds.DriftIsBounded | orchestrator.py:1783-1804 | k applies, alternating with rollbacks in any way, move soft at most k steps from the settings |
| RunControl.RetryLoop | orchestrator.py:844-1006 | for every retry decision that refuses at the limit: ends with the answer its last validation saw, after exactly the retries the decision allows |
| RunControl.OneRetryAtMost | services/orchestrator/defs/decision_control.py:29-82 | under the decision made, there is one retry at most, exactly when the first answer is rejected, nothing stops it and a gap is found |
| RunControl.RunToCommit | orchestrator.py:844-1140 | for every such decision, what is committed is the content the last validation accepted and passed; a fallback is validated again or prevents the commit |
| RunControl.LimitIsZeroOrNot | services/orchestrator/defs/decision_control.py:29-82 | no attempt is allowed after the first or at the limit, so two positive limits behave alike |
| Rerank.RetrievalRerank | orchestrator.py:3832-3895 | the loop scores every item and returns them in ranked order |
| Rerank.RankedIsStablePermutation | orchestrator.py:3894-3895 | a permutation of the input, descending by score, ties in input order |
| Rerank.ClearMatchWins | orchestrator.py:3847-3892 | a cosine lead of more than 0.46 always wins; a lead of exactly 0.46 wins for the earlier item |
| Rerank.FeatureDecidesExactly | orchestrator.py:3847-3892 | of two items that differ in one feature, the one that has it comes first if and only if the other is ahead in cosine by less than the feature is worth, or by just that and later in the input |
| Rerank.MarginIsSharp | orchestrator.py:3847-3892 | for every smaller lead there are two items where the one with the lower cosine comes first |
| Channels.MergeChannelStrings | orchestrator.py:3994-4011 | the loops over keys and lines compute the merge |
| Channels.MergeAssociative | orchestrator.py:3994-4011 | merging is associative, as text, for all channels |
| Channels.MergeIdempotent | orchestrator.py:3994-4011 | merging channels with themselves changes nothing if and only if they are normalized |
| Channels.MergedIsNormal | orchestrator.py:3994-4011 | merged channels are normalized |
| Channels.MergedLines | orchestrator.py:4002-4010 | a merged channel holds exactly the non-blank lines of both inputs, once each, in order of first occurrence |
| VisitorPass.PassManager.AttenuatePass | ai_brain/auth.py:52-112 | derives from the stored parent or refuses; the parent and all other tokens stay |
| VisitorPass.PassManager.IssuePass | ai_brain/auth.py:19-50 | stores one well-formed token, or refuses hops below one |
| VisitorPass.PassManager.VerifyPass | ai_brain/auth.py:114-119 | a token exactly when it is stored and not expired |
| VisitorPass.DerivationNarrowsExactly | ai_brain/auth.py:69-112 | a derived token has exactly the scopes and states asked for, the parent's where none are asked for, the defaults for an empty list; the hops asked for or the parent's; and the subject asked for |
| VisitorPass.DerivesExactly | ai_brain/auth.py:65-98 | a derivation succeeds if and only if the parent is not expired, holds what is asked for, and the hops asked for are between one and its own; each refusal if and only if its check is the first to fail |
| VisitorPass.IssuedExactly | ai_brain/auth.py:19-50 | a root token has exactly what is asked for, the defaults for empty lists, at most five hops and the life asked for; refused if and only if hops are below one |
| VisitorPass.DerivationAmplifiesExactly | ai_brain/auth.py:69-112 | hops, audience and visibility never grow; scopes and states do not exactly when no empty list was asked for or the defaults are within the parent's |
| VisitorPass.ChainNeverAmplifies | ai_brain/auth.py:52-112 | along chains of any length, each token grants a non-empty part of every ancestor's |
| VisitorPass.PassManager.DescentNeverAmplifies | ai_brain/auth.py:52-112 | the same for every line of descent held by a manager |
| VisitorPass.OutlivesExactly | ai_brain/auth.py:100-102 | with one clock reading, a derived token outlives its parent exactly when less than a second is left |
| VisitorPass.LifeIsInherited | ai_brain/auth.py:100-112 | with a second or more left, a derived token expires with its parent, but for the fraction of a second cut off |
| VisitorPass.DerivedOutlives | ai_brain/auth.py:100-102 | an instance: half a second before its parent expires, a token is derived that lives a whole second |
| VisitorPass.ChainExpiry | ai_brain/auth.py:100-119 | n derivations below a root, expiry is at most the root's plus n seconds plus the time the derivations took |
| VisitorPass.EmptyRequestAmplifies | ai_brain/auth.py:31-36 | an explicitly empty list of scopes yields scopes the parent does not have |
| EnvFile.ReadEnvFile | server_management_gui.py:139-150 | the loop over the lines computes the bindings, later ones overriding |
| EnvFile.PatchEnvContent | scripts/apply_reasoning_thresholds_from_audit.py:54-78 | the nested loops compute the patched text, whose lines and numbers the rows below state |
| EnvFileTheorems.DecodesFormatted | scripts/apply_reasoning_thresholds_from_audit.py:64-76 | a reader of decimal texts gets every number back from the text written for it |
| EnvFileTheorems.PatchIsMapUpdate | scripts/apply_reasoning_thresholds_from_audit.py:54-78 | for every text, reading the patched text gives the old bindings overridden by new ones for exactly the updated keys, which decode to the numbers given, and nothing else, if and only if every updated key is settled and every other key is read alike from the patcher's lines and the reader's |
| EnvFileTheorems.PatchSetsNumberExactly | scripts/apply_reasoning_thresholds_from_audit.py:54-78 | whatever other keys do, a key is read as its new number if and only if no line starts with `key=`, or the last line that reads as the key does or reads as the number already |
| EnvText.LinesKeepTheirPlace | scripts/apply_reasoning_thresholds_from_audit.py:54-78 | every line keeps its place: one that starts with `key=` for an updated key becomes `key=` and its number, any other one stays as it is |
| EnvText.KeysAreAdded | scripts/apply_reasoning_thresholds_from_audit.py:54-78 | a key that no line assigns gets a line of its own at the end, in the order of the keys, after a blank line |
| EnvText.ParsesExactly | server_management_gui.py:139-150 | a line binds a key to a value if and only if it is no comment and reads as a name, its first "=", and a rest that is the value in quotes or not |
| EnvText.QuotesAreDropped | server_management_gui.py:139-150 | a value is read the same with double quotes, with single quotes and without |
| EnvFileTheorems.PlainPatchIsMapUpdate | scripts/apply_reasoning_thresholds_from_audit.py:54-78 | where newlines are the only line ends, settled keys are all it takes |
| EnvFileTheorems.PatchIsIdempotent | scripts/apply_reasoning_thresholds_from_audit.py:54-78 | patching twice is patching once, for every text |
| EnvFileTheorems.FormFeedIsSplit | scripts/apply_reasoning_thresholds_from_audit.py:55 | patching with no updates can change what a text with a form feed means |

## Left out

- Decision handler: the resume of a workspace checkpoint (app.py:3151-3248) and proposals that carry one; the workspace agent is not part of this model.
- Proposals loaded from an earlier store: the fallback for a missing digest, and ids with characters that the snapshot file name replaces.
- Compensating proposal: the reuse of a pending proposal with the same handoff key (services/tools/governance.py:196-202); the new one is assumed to be new.
- Two decide, apply or rollback handlers under way at the same time, but for an apply completed under a suspended decision (`GovernanceOverlap`); elsewhere a second one is taken to wait, which the code does not make it do.
- Python equality of JSON numbers and booleans (1 == 1.0 == True): values are compared as JSON, so some refusals name a different reason with the same status.
- `str()` of values that are not strings, and the command policy's substring rules, are arbitrary functions; lower-casing is ASCII.
- Tool: commands other than `tee`, its lists of blocked and safe path prefixes, timeouts, and the recovery of a write after one. Where these refuse, a rollback fails although `CompensationRestoresExactly` assumes that the tool goes ahead.
- Paths are compared as text after `PurePosixPath` normalization; symbolic links and the sandbox are not modelled.
- Audit event contents, timestamps, trace values, HTTP routing, request validation and the judge log.
- Progress payloads other than their stage, heartbeat contents and the rest of the final payload.
- JSON encoding itself, UTF-8 decoding of the stream, and network failures.
- Trigonometry, sidereal time and floating-point rounding; altitude and rounding are arbitrary functions, and the recency factor is only known to lie in (0, 1].
- Query tokenization, stop words and language detection of the re-ranker: the significant terms are an input.
- Validator, generator, judge and gap detector: arbitrary functions of the call number. What the three commits do with the content is not modelled.
- Formatting of floats that are not whole micro-units, `nan` and `inf` in the env patcher, and file encodings.
- Version and source labels of threshold profiles.
- Storage backends, inference, tools, sandboxes, user interfaces and the remaining scripts.
