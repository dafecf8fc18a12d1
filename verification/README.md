# Verification of the evaluation protocol and its neighbours

A Dafny 4.11 project that models the stateful cores of the repository and proves what
their documentation and tests promise, over every run of each system.
`dafny verify dfyconfig.toml` checks it.

- **Evaluation runs** (`RunTable`, `RunService`, `RunnerService`, `RunProtocol`, `RunInvariants`,
  `RunTheorems`, `RunJudgments`, `RunSweeps`, `RunWrites`, `RunFences`, `RunLimits`).
  Request handlers, one executor per run with heartbeats,
  sweeps of any number of replicas and criteria administration share database rows and
  coordinate only by conditional writes. `RunProtocol` gives each of them a program counter;
  one action is one database call, one port call, one report or the return from a finding call.
  The services are also modelled as classes, one caller at a time.
- **Findings** (`FindingTable`, `FindingService`, `FindingProtocol`, `FindingTheorems`, `FindingClosings`,
  `FindingSolo`, `FindingOverlap`). The same for recording passes, suppressions and reopenings.
  `FindingClosings` says which findings a run closes in any interleaving, `FindingSolo` that a pass
  without a competitor does, finding by finding, what the sequential recording does, and
  `FindingOverlap` shows what goes wrong when passes of one evaluationKey overlap.
- **Both together** (`Evaluation`, `EvaluationTheorems`, `EvaluationLimits`). An executor enters its
  finding calls and returns from them; what is inside, database call by database call, are the steps
  of `FindingProtocol`. Each protocol runs in the composition as it does alone.
- **Criteria and results** (`Criteria`, `CriteriaService`, `ResultService`). Criteria transactions
  interleave under row locks.
- **Evaluation invariants** (`CanonicalJson`, `SourceTally`, `Coverage`, `CoverageComposer`,
  `CoverageTheorems`, `Judgment`). Canonical serialization, and a composer and validators that
  have to agree.
- **URL alerts** (`UrlCheck`, `UrlCheckTheorems`), **S3 mirror** (`S3Keys`, `S3Mirror`, `S3Paths`),
  **ClickHouse schema** (`ClickHouseSchema`, `ClickHouseSync`), **client cache** (`ClientCache`),
  **task transitions** (`TaskBoard`, `TaskService`), **Lark event filter** (`LarkDedupe`).
- `Common` and `LexOrder` hold shared vocabulary.

Assumed of the environment: the unique indexes of the schema (one active run per subject and
version, one result per run, one finding per subject, evaluationKey and fingerprint, one criteria version
per kind, evaluationKey and version, distinct S3 keys); every row write bumps `updatedAt`; one clock
that does not run backwards in the protocols; each opened run is executed once; a database step does not fail half-way and rows
are never hard-deleted; an observer is bound and emitting does not fail. Ids are numbers, and a
run's id, a finding's unique key or a row's position stands for the generated id.

Where the code and its documentation differ, the model follows the code:

- The documentation of `reapStaleRuns` (evaluation-run.service.ts:302-303) has terminal events fire exactly
  once. A sweep that closes a run under a living executor makes it two FAILED events with the same text;
  `RunTheorems.ClosedRunReports` is the exact count.
- The comment on the runner (evaluation-runner.service.ts:55-57) has a fencing check before every write stop an
  execution whose row was closed. The check stands before each call that writes, not before each write: the
  call whose check had passed still completes. A result can be archived for a row that is already FAILED
  (`RunLimits.ResultArchivedAfterFailure`), and one finding after the other be written for it
  (`EvaluationLimits.FindingsWrittenAfterFailure`). `RunFences.OneCallAfterClosing` bounds it to one call,
  `EvaluationTheorems.WritesBelongToTheCall` to the rows that call had left.
- The comment on `resolveAbsentFindings` (evaluation-finding.service.ts:88-93) takes anything last seen before the run's
  start for absent from its pass. A run of another version that started earlier and records the same finding
  afterwards sets `lastSeenAt` back, and the finding is closed although both runs observed it (`FindingOverlap`).
  It also has a re-observation after the listing protect a finding; one that leaves `lastSeenAt` as it was does not,
  for instance the same run's second candidate of that fingerprint, under another criterion
  (`FindingOverlap.ReobservationAfterListingIsClosed`). `FindingClosings.ClosedIff` is the exact condition for both.
- Canonicalization (evaluation-invariants.ts:27-42) keeps the content but for undefined values; an own key named
  `__proto__` is lost as well, since assigning it to the new object creates no own property, so values that
  differ in it alone hash alike (`CanonicalJson.ProtoIsLost`).
- The url-check schema comment closes an alert on the first success; the code needs three (`UrlCheckTheorems.OneSuccessRecoversNothing`).

## Model

| member | source | states |
|---|---|---|
| RunTheorems.ReportsMatchTheFinalRow | packages/modules/evaluation/evaluation-runner.service.ts:108-268 | in every interleaving, every terminal event and observer notification carries the status and error text the row has from then on, whoever closed it and whenever |
| RunTheorems.ClosedRunReports | packages/modules/evaluation/evaluation-runner.service.ts:108-129 | how often a closed run is reported on each channel: once for a run whose closing sweep is through with it, a run whose process died included, and once more exactly if its executor lived to report it too; once for a run its executor closed, as soon as it has reported it |
| RunTheorems.ReportsAreCounted | packages/modules/evaluation/evaluation-runner.service.ts:108-268 | at every moment of every interleaving there is one report per reporter, executor or closing sweep, that has come so far, and no other |
| RunLimits.FailurePublishedTwice | packages/modules/evaluation/evaluation-runner.service.ts:108-129 | a reachable state with two FAILED events for one run, under any validators and any timeout |
| RunLimits.FailedRunKeepsItsResult | packages/modules/evaluation/evaluation-runner.service.ts:196-245 | under the services' own validators and any timeout a FAILED run that owns an archived result is reachable |
| RunLimits.ResultArchivedAfterFailure | packages/modules/evaluation/evaluation-runner.service.ts:196-221 | under the services' own validators a state is reachable in which the next step archives a result for a run that has already FAILED |
| RunFences.ClosedRunHasResultIff | packages/modules/evaluation/evaluation-runner.service.ts:196-221 | a run closed at some moment owns a result later if and only if it owned one then, or its executor stood past the check that the run is active and has archived since |
| RunFences.OneCallAfterClosing | packages/modules/evaluation/evaluation-runner.service.ts:55-57 | after its row is closed an executor completes at most one more of `createResult`, `recordFindings` and `resolveAbsentFindings`, and only the one whose preceding check it had already passed |
| EvaluationTheorems.WritesBelongToTheCall | packages/modules/evaluation/evaluation-finding.service.ts:79-129 | how many finding rows are still written for a closed run: past the check before the recording at most the remaining candidates, and all of them if the recording comes to its end; past the check before the resolving at most the listed rows still to come; otherwise none |
| EvaluationTheorems.ListsOnce | packages/modules/evaluation/evaluation-finding.service.ts:95-105 | in every interleaving a run takes at most one listing of what it did not observe |
| EvaluationLimits.FindingsWrittenAfterFailure | packages/modules/evaluation/evaluation-finding.service.ts:79-82 | under the services' own validators and any timeout: a reachable state with a FAILED run and no findings, from which its executor inserts two |
| EvaluationTheorems.BothProject | packages/modules/evaluation/evaluation-runner.service.ts:196-221 | of any two moments of the whole system the run protocol alone goes through the two states of the runs, and the finding protocol alone through those of the findings, so that the theorems about either hold together |
| EvaluationTheorems.FindingsAnswerPublishedCriteria | packages/modules/evaluation/evaluation-finding.service.ts:61-84 | every finding was seen last by a run of its subject, at that run's start, and answers an ASSERTION criterion of the published version, of its evaluationKey, that the run judges by |
| EvaluationTheorems.SucceededRunsAreThrough | packages/modules/evaluation/evaluation-runner.service.ts:204-222 | a SUCCEEDED run has recorded every candidate and given every listed finding its turn |
| Evaluation.InvIsPreserved | packages/modules/evaluation/evaluation-runner.service.ts:139-268 | every step of the whole system keeps the invariants of both protocols and the agreement between an executor and its finding calls |
| Evaluation.CallIsEnabled | packages/modules/evaluation/evaluation-finding.service.ts:61-79 | what the executor's validation accepts is what the finding protocol demands of a pass: it begins with the run's own start time, scope and criteria, and once |
| RunFences.ResultsComeFromArchiving | packages/modules/evaluation/evaluation-result.service.ts:73-114 | a run owns a result exactly from the archiving step of its own executor on |
| RunTheorems.NoReportBeforeTheEnd | packages/modules/evaluation/evaluation-runner.service.ts:287-309 | no report while the row is active, never more than two on a channel, at most one for a SUCCEEDED run |
| RunTheorems.TerminalIsFinal | packages/modules/evaluation/evaluation-run.service.ts:164-183 | a terminal row is never written again |
| RunTheorems.ClosedAtMostOnce | packages/modules/evaluation/evaluation-run.service.ts:164-183 | over a whole run of the system at most one of success, failure and all replicas' reap writes closes a row |
| RunTheorems.StartedOnce | packages/modules/evaluation/evaluation-run.service.ts:156-161 | `startedAt` is written at most once |
| RunTheorems.OneActiveRun | packages/modules/evaluation/evaluation-run.service.ts:122-153 | no reachable state has two active runs for one subject and version |
| RunTheorems.ReapedByOneSweep | packages/modules/evaluation/evaluation-run.service.ts:305-322 | a row is closed if and only if it has a closer, and a reaped row is on the list of exactly one sweep |
| RunTheorems.TouchedInTimeNeverReaped | packages/modules/evaluation/evaluation-run.service.ts:198-203 | a run touched at gaps of at most the timeout is never reaped, however the select and the later writes of any sweep interleave with its heartbeats |
| RunSweeps.StaleRunIsClosed | packages/modules/evaluation/evaluation-run.service.ts:305-322 | a run that has given no sign of life for longer than the timeout when a sweep begins, and gives none until the sweep is through, is closed by then, whatever else interleaves |
| RunSweeps.CutoffIsTheTimeoutAgo | packages/modules/evaluation/evaluation-run.service.ts:305-310 | a sweep works with the moment one timeout before its beginning, from beginning to end |
| RunSweeps.StaleRunFreesThePair | packages/modules/evaluation/evaluation-run.service.ts:122-153 | and the subject and version held by such a run admit a new one by the time the sweep is through |
| RunWrites.BeatenInTimeNeverReaped | packages/modules/evaluation/evaluation-run.service.ts:198-203 | a run that has a heartbeat at least once per timeout is never reaped, told by the heartbeats themselves |
| RunWrites.FailureNamesItsCause | packages/modules/evaluation/evaluation-runner.service.ts:236-268 | a run whose execution threw never succeeds, and if its own executor closes it, then as FAILED with the text of that very error, cut to a thousand characters |
| RunWrites.FinishedAtIsTheEnd | packages/modules/evaluation/evaluation-run.service.ts:164-183 | the end time of a closed run is, for good, the moment of the step that closed it |
| RunWrites.ExecutorWrites | packages/modules/evaluation/evaluation-run.service.ts:164-183 | an executor writes its row only to succeed or to fail, and then outcome and time alone |
| RunWrites.SweepWrites | packages/modules/evaluation/evaluation-run.service.ts:311-321 | a sweep writes a row only while it is as it was selected, and then closes it as abandoned |
| RunWrites.InsertWrites | packages/modules/evaluation/evaluation-run.service.ts:135-152 | the insert adds one queued row for the pair of the request, or nothing if the pair is taken |
| RunWrites.StartWrites | packages/modules/evaluation/evaluation-run.service.ts:156-161 | starting writes the time into a queued row, and nothing into any other |
| RunWrites.HeartbeatWrites | packages/modules/evaluation/evaluation-run.service.ts:198-203 | a heartbeat writes the time of an active row and nothing else |
| RunTheorems.RunsArePublishedKind | packages/modules/evaluation/evaluation-run.service.ts:122-153 | every run references a published version, with criteria, of its subject's kind |
| RunTheorems.ThreeReadsAgree | packages/modules/evaluation/evaluation-runner.service.ts:183-215 | whatever criteria administration happens meanwhile, the reads of the result and the finding checks return the list the judgment saw |
| RunTheorems.NeverRestarted | packages/modules/evaluation/evaluation-run.service.ts:211-222 | the fence's restart refusal cannot occur: an execution always sees its own start time |
| RunTheorems.ResultsAreSound | packages/modules/evaluation/evaluation-result.service.ts:73-114 | a SUCCEEDED run has an archived result; any archived result has coverage valid for its manifest and verdicts on distinct SCORED criteria of the run's version citing manifest items only |
| RunJudgments.ResultIsTheJudgment | packages/modules/evaluation/evaluation-runner.service.ts:183-209 | whatever happens in between, the archived result holds the evidence and the verdicts of the judgment |
| RunJudgments.ResultsWereJudged | packages/modules/evaluation/evaluation-runner.service.ts:183-209 | and every archived result comes from a judgment of its run |
| RunJudgments.JudgedOnce | packages/modules/evaluation/evaluation-runner.service.ts:183-190 | a run is judged at most once |
| EvaluationTheorems.JudgmentReachesBothTables | packages/modules/evaluation/evaluation-runner.service.ts:184-215 | in the whole system a run's pass records exactly the judged findings, in their order, and its result holds exactly the judged verdicts |
| RunInvariants.InvIsPreserved | packages/modules/evaluation/evaluation-runner.service.ts:139-268 | every step of every actor keeps the invariant on rows, owners, program points, provenance, results and reports |
| RunInvariants.AdvanceReportsTruth | packages/modules/evaluation/evaluation-runner.service.ts:236-268 | what an executor is about to report is what its row says, also after a lost race for the terminal write |
| RunInvariants.TerminalRowsAreFrozen | packages/modules/evaluation/evaluation-run.service.ts:164-203 | no step of any actor changes a terminal row |
| RunService.EvaluationRunService.StartRun | packages/modules/evaluation/evaluation-run.service.ts:122-153 | opens a run exactly if the subject exists, the version given or chosen for it is published and of its kind, and the pair has no active run; the refusals are told apart and write nothing |
| RunService.EvaluationRunService.ResolveVersionId | packages/modules/evaluation/evaluation-run.service.ts:261-285 | finds a version exactly if one of the chosen name is published for the kind |
| RunService.EvaluationRunService.Insert | packages/modules/evaluation/evaluation-run.service.ts:135-152 | the insert is refused exactly when the pair already has an active run, and keeps at most one active run per pair |
| RunService.EvaluationRunService.MarkRunning | packages/modules/evaluation/evaluation-run.service.ts:156-161 | a queued row becomes running: the fence then admits exactly the execution that started now, and a sweep that selected the row before misses it; what was asked for, outcome and all other rows stay |
| RunService.EvaluationRunService.Touch | packages/modules/evaluation/evaluation-run.service.ts:198-203 | an active row leaves the reach of every sweep whose cutoff is not later than now, and of one that selected it before; status, fence, outcome and all other rows stay |
| RunService.EvaluationRunService.MarkSucceeded | packages/modules/evaluation/evaluation-run.service.ts:164-170 | succeeds exactly on an active row; otherwise names the status that is in the way, or that there is no row |
| RunService.EvaluationRunService.MarkFailed | packages/modules/evaluation/evaluation-run.service.ts:173-183 | fails exactly an active row, with the text cut to its maximal length |
| RunService.EvaluationRunService.AssertActive | packages/modules/evaluation/evaluation-run.service.ts:211-222 | passes exactly while the row is active under the same start time, and tells the three refusals apart |
| RunService.EvaluationRunService.ReapStaleRuns | packages/modules/evaluation/evaluation-run.service.ts:305-322 | an undisturbed sweep closes exactly the stale active rows, reports each once, and leaves only fresh active rows |
| RunTable.FormatRunError | packages/modules/evaluation/evaluation-run.service.ts:60-62 | the stored text is the text, or its first thousand characters |
| RunnerService.EvaluationRunnerService.ReapStaleRuns | packages/modules/evaluation/evaluation-runner.service.ts:108-129 | a sweep in flight makes the next a no-op; otherwise each row it closes is reported once per channel with the row's text |
| RunnerService.EvaluationRunnerService.PersistFailure | packages/modules/evaluation/evaluation-runner.service.ts:260-268 | the text to report is the text the row has, also when somebody else closed it |
| RunnerService.EvaluationRunnerService.Conclude | packages/modules/evaluation/evaluation-runner.service.ts:222-245 | success or failure is reported on both channels exactly as the row ends, also when a sweep closed it meanwhile |
| RunnerService.ReapedReportsAll | packages/modules/evaluation/evaluation-runner.service.ts:113-124 | the reports of a sweep are one per reaped row and channel and agree with the rows |
| Criteria.InvIsPreserved | packages/modules/evaluation/evaluation-criteria.service.ts:85-212 | every step of every interleaved transaction keeps locks, knowledge under the lock, and rows consistent |
| Criteria.PublishedIsFrozen | packages/modules/evaluation/evaluation-criteria.service.ts:203-212 | no step of any transaction changes a published version or its criteria |
| Criteria.PublishedForever | packages/modules/evaluation/evaluation-criteria.service.ts:85-174 | from its publication on, a version's row and criteria never change and the criteria are not empty |
| Criteria.PublishedAtMostOnce | packages/modules/evaluation/evaluation-criteria.service.ts:85-107 | a version is published at most once under any interleaving |
| Criteria.CommitWrites | packages/modules/evaluation/evaluation-criteria.service.ts:85-174 | a commit writes exactly the work of its transaction, on the row it names |
| Criteria.VersionStatementsWrite | packages/modules/evaluation/evaluation-criteria.service.ts:48-75 | a version begins as a draft under its name, and only its description changes until it is published |
| Criteria.NamesStayUnique | packages/modules/evaluation/evaluation-criteria.service.ts:48-58 | in every interleaving no two versions have one kind, evaluationKey and version |
| Criteria.CommitLeavesOthersRight | packages/modules/evaluation/evaluation-criteria.service.ts:85-107 | a commit cannot invalidate what another transaction learned under its own row lock |
| Criteria.ListingGivesKinds | packages/modules/evaluation/evaluation-criteria.service.ts:177-188 | in whatever order the criteria are listed, the validator builds the same lookup from them |
| CriteriaService.EvaluationCriteriaService.PublishVersion | packages/modules/evaluation/evaluation-criteria.service.ts:85-107 | publishes exactly a draft that has criteria; the refusals are told apart and write nothing |
| CriteriaService.EvaluationCriteriaService.AddCriterion | packages/modules/evaluation/evaluation-criteria.service.ts:135-149 | adds exactly to a draft without that key |
| CriteriaService.EvaluationCriteriaService.UpdateCriterion | packages/modules/evaluation/evaluation-criteria.service.ts:151-165 | changes exactly criteria of drafts |
| CriteriaService.EvaluationCriteriaService.RemoveCriterion | packages/modules/evaluation/evaluation-criteria.service.ts:167-174 | removes exactly criteria of drafts |
| ResultService.EvaluationResultService.CreateResult | packages/modules/evaluation/evaluation-result.service.ts:73-114 | archives exactly for an active run without a result, valid coverage and consistent verdicts; the refusals in the source's order, none of them writing |
| ResultService.EvaluationResultService.ReviewResult | packages/modules/evaluation/evaluation-result.service.ts:173-193 | overruling needs a note that is not blank; only the review columns move |
| ResultService.LatestReviewStands | packages/modules/evaluation/evaluation-result.service.ts:165-193 | after any sequence of reviews the snapshot is as archived and the review is the latest admissible one, note included |
| FindingSolo.NonOverlappingPassIsExact | packages/modules/evaluation/evaluation-finding.service.ts:61-131 | after a pass that starts last and overlaps no other pass of its subject and evaluationKey, whatever humans suppress or reopen meanwhile, a finding that nobody decided about is open exactly if the pass observed it and it was not suppressed |
| FindingSolo.OpenSetIsObservedSet | packages/modules/evaluation/evaluation-finding.service.ts:61-131 | with no decision in its scope, the open findings after such a pass are the observed non-suppressed ones, if and only if none escapes the listing's guard |
| FindingSolo.UndisturbedPass | packages/modules/evaluation/evaluation-finding.service.ts:61-131 | the same for a pass that overlaps no other but may not start last: what becomes of each finding nobody decided about, and it is open as it should be if and only if it was not an unobserved open finding last seen by a run that started no earlier |
| FindingSolo.PassOnFinding | packages/modules/evaluation/evaluation-finding.service.ts:61-131 | of any finding that only this pass writes, in any interleaving with all else: observed, it is created, refreshed, reopened or kept suppressed; unobserved, closed if it was open and last seen by an earlier run, untouched otherwise; first sighting kept |
| FindingSolo.CountIsTheResolutions | packages/modules/evaluation/evaluation-finding.service.ts:86-131 | the number such a pass returns is the number of findings that went from OPEN to RESOLVED |
| FindingSolo.ClosesSparedOnce | packages/modules/evaluation/evaluation-finding.service.ts:112-121 | the pass resolves a finding that only it writes once if that was open, unobserved and seen by an earlier run last, and otherwise never |
| FindingSolo.SparedProgresses | packages/modules/evaluation/evaluation-finding.service.ts:217-322 | at every program point, row by row, the step-by-step program stands where the sequential recording and resolving would |
| FindingClosings.CountIsTheResolvedMoves | packages/modules/evaluation/evaluation-finding.service.ts:86-131 | in every interleaving the number a run returns is the number of findings it moved to RESOLVED, finding by finding |
| FindingClosings.ListedIff | packages/modules/evaluation/evaluation-finding.service.ts:95-103 | whatever overlaps, a run lists exactly the open findings of its scope whose last observer started strictly earlier |
| FindingClosings.ListedHaveOneTurn | packages/modules/evaluation/evaluation-finding.service.ts:108-131 | every listed finding, and no other, has exactly one conditional write by the time the run is through |
| FindingClosings.ClosedIff | packages/modules/evaluation/evaluation-finding.service.ts:86-131 | in every interleaving exactly which findings a run closes, those it observed itself included: listed as above, and at their turn still open and last seen by a run of the same start |
| FindingOverlap.OverlapResolvesWhatBothObserved | packages/modules/evaluation/evaluation-finding.service.ts:86-131 | a reachable state in which two overlapping runs both observed a finding, nobody suppressed it, and it is RESOLVED: `lastSeenAt` moved backwards |
| FindingOverlap.ReobservationAfterListingIsClosed | packages/modules/evaluation/evaluation-finding.service.ts:112-118 | a reachable state in which a run is about to close, and closes, a finding that another run observed again since the listing, under a second criterion of the same fingerprint |
| FindingOverlap.MissLeavesObservedResolved | packages/modules/evaluation/evaluation-finding.service.ts:304-308 | a reachable state in which a run has just observed a finding and the finding stays RESOLVED after a missed compare-and-set |
| FindingOverlap.ObservationLeavesResolvedIff | packages/modules/evaluation/evaluation-finding.service.ts:292-308 | an observation leaves a finding resolved exactly when its conditional write missed a concurrent resolution |
| FindingTheorems.NoticesAreTheMoves | packages/modules/evaluation/evaluation-finding.service.ts:228-322 | per run and finding, the created, reopened and resolved notices are in order exactly the changes the run made to the row, but for at most one still to come |
| FindingTheorems.SightingIsWritten | packages/modules/evaluation/evaluation-finding.service.ts:228-305 | what a candidate writes in any interleaving: its content, its run and start time, under its fingerprint in the run's own scope; an absent detail or metadata leaves the column |
| FindingTheorems.DecisionsAreTold | packages/modules/evaluation/evaluation-finding.service.ts:133-185 | a suppression or reopening that takes effect is announced exactly once, when its call is answered |
| FindingTheorems.StepAnnounces | packages/modules/evaluation/evaluation-finding.service.ts:108-129 | a notice carries the severity the row was created with, has when it is reread, or was listed with |
| FindingTheorems.SuppressionTakes | packages/modules/evaluation/evaluation-finding.service.ts:138-150 | a suppression with a note and an actor takes effect at once in whatever state it finds the finding, and changes nothing else; without them, blank ones included, it changes nothing at all |
| FindingTheorems.ReopeningTakes | packages/modules/evaluation/evaluation-finding.service.ts:164-174 | a reopening takes effect in whatever state it finds the finding, and keeps who saw it and what was seen |
| FindingTheorems.ClosingTakes | packages/modules/evaluation/evaluation-finding.service.ts:112-118 | a run closes an open row only, at the time of the write, and keeps everything else of it |
| FindingTheorems.LifecycleIsConsistent | packages/modules/evaluation/evaluation-finding.service.ts:95-185 | RESOLVED exactly with a resolution time, SUPPRESSED exactly with note and actor; the criterion is an ASSERTION criterion of the run that saw the finding last |
| FindingTheorems.FirstSeenNeverChanges | packages/modules/evaluation/evaluation-finding.service.ts:228-290 | who saw a finding first and when is written once, over every run |
| FindingTheorems.OnlyReopenLeavesSuppressed | packages/modules/evaluation/evaluation-finding.service.ts:133-185 | until somebody reopens it a suppressed finding stays suppressed, with its note and actor, whatever runs observe or resolve |
| FindingTheorems.ClosesOnlyOlderSightings | packages/modules/evaluation/evaluation-finding.service.ts:112-118 | a run closes a finding only if another run that started strictly earlier saw it last |
| FindingTheorems.ListedIsClosedIff | packages/modules/evaluation/evaluation-finding.service.ts:112-121 | a listed finding is closed exactly if it is still open and its last observer started when the listed one did, so a re-observation by a run of another start time wins |
| FindingProtocol.InvIsPreserved | packages/modules/evaluation/evaluation-finding.service.ts:61-322 | every step of passes, suppressions and reopenings keeps rows and program points consistent |
| FindingTable.ObservedRow | packages/modules/evaluation/evaluation-finding.service.ts:217-322 | what recording any list of candidates, repeats under several criteria included, makes of each row: the last candidate decides the content, the last one that carries a detail or metadata decides those, and without one they stay |
| FindingTable.RowsReturned | packages/modules/evaluation/evaluation-finding.service.ts:79-84 | a recording returns one row per candidate, as that candidate left it |
| FindingTable.SeesMeans | packages/modules/evaluation/evaluation-finding.service.ts:217-226 | a pass sees a finding exactly if a candidate has its fingerprint, in the subject and evaluationKey of the run |
| FindingTable.OpenSetIsTheObservedSetIff | packages/modules/evaluation/evaluation-finding.service.ts:61-131 | recording then resolving leaves open exactly the observed non-suppressed findings if and only if no row escapes the listing's guard |
| FindingTable.PassOnRow | packages/modules/evaluation/evaluation-finding.service.ts:61-131 | what one pass does to a single row, whatever state it finds |
| FindingService.EvaluationFindingService.RecordFindings | packages/modules/evaluation/evaluation-finding.service.ts:61-84 | refused without a write exactly when the candidates contradict the criteria; otherwise rows, notices and returned rows are those of the recording |
| FindingService.EvaluationFindingService.Observe | packages/modules/evaluation/evaluation-finding.service.ts:217-322 | creates, refreshes or reopens one finding and announces it |
| FindingService.EvaluationFindingService.ResolveAbsentFindings | packages/modules/evaluation/evaluation-finding.service.ts:95-131 | closes exactly the listed rows, announces each once, and counts them |
| FindingService.EvaluationFindingService.SuppressFinding | packages/modules/evaluation/evaluation-finding.service.ts:138-161 | note and actor are mandatory, a missing finding is an error, and only the suppression columns move |
| FindingService.EvaluationFindingService.ReopenFinding | packages/modules/evaluation/evaluation-finding.service.ts:164-185 | back to open from any status, suppression cleared, first sighting kept |
| FindingService.EvaluationFindingService.RecordAndResolve | packages/modules/evaluation/evaluation-finding.service.ts:61-131 | one whole pass on a quiet table: the open set is the observed set if and only if no row escapes |
| CanonicalJson.EqualFormsIffSameContent | packages/modules/evaluation/evaluation-invariants.ts:27-42 | two values canonicalize alike exactly when they agree up to object key order and keys that are undefined-valued or named `__proto__`, at every depth, a Date counting as its text |
| CanonicalJson.CanonicalFieldsAre | packages/modules/evaluation/evaluation-invariants.ts:27-42 | the canonical object has exactly the keys with a value other than undefined, `__proto__` apart, null and empty values included, sorted, each with the canonical form of its value |
| LexOrder.LessIff | packages/modules/evaluation/evaluation-invariants.ts:37 | keys are ordered by the first code unit in which they differ, a proper prefix first |
| CanonicalJson.ProtoIsLost | packages/modules/evaluation/evaluation-invariants.ts:27-42 | two values that differ in an own key `__proto__` only and canonicalize alike |
| CanonicalJson.CanonicalizeIsIdempotent | packages/modules/evaluation/evaluation-invariants.ts:31-42 | canonicalizing twice is canonicalizing once |
| CanonicalJson.CanonicalFormKeepsContent | packages/modules/evaluation/evaluation-invariants.ts:31-42 | the canonical form has the content it was made from |
| CanonicalJson.EqualContentHashesAlike | packages/modules/evaluation/evaluation-invariants.ts:45-47 | manifests of equal content get equal content hashes, for any serializer and hash function |
| CoverageComposer.ComposeCoverageStats | packages/modules/evaluation/evaluation-invariants.ts:88-129 | the loops compute the four buckets and the problems of the specification |
| CoverageComposer.MergeBuckets | packages/modules/evaluation/evaluation-invariants.ts:139-160 | the merging loop computes totals, counts, items and notes of all buckets present |
| CoverageTheorems.ManifestIsAccountedFor | packages/modules/evaluation/evaluation-invariants.ts:88-129 | with distinct ids and no problems the manifest splits exactly into what was judged or cut off and what no rule needed, and the totals are the sizes |
| CoverageTheorems.EvaluatedIsListed | packages/modules/evaluation/evaluation-invariants.ts:88-122 | the evaluated bucket lists every judged ref once, in the order of first occurrence, and counts them |
| CoverageTheorems.UnconsumedIsListed | packages/modules/evaluation/evaluation-invariants.ts:103-118 | the unconsumed bucket lists, in manifest order, exactly the items that are neither judged nor in any cut-off |
| CoverageTheorems.GapIsKept | packages/modules/evaluation/evaluation-invariants.ts:131-137 | the declared gap is archived as declared, but for an empty note |
| CoverageTheorems.ProblemsAre | packages/modules/evaluation/evaluation-invariants.ts:89-99 | the problems are exactly the judged refs that name no collected item |
| CoverageTheorems.SourceIsOfTheLast | packages/modules/evaluation/evaluation-invariants.ts:91-100 | of items with one id the last one gives the source |
| CoverageTheorems.NothingCutOffDisappears | packages/modules/evaluation/evaluation-invariants.ts:139-160 | merging loses nothing of any cut-off: totals add up, ids are listed bucket after bucket with repetitions, every source counts the sum, every note occurs in the joined one |
| CoverageTheorems.JoinOfBoth | packages/modules/evaluation/evaluation-invariants.ts:158 | notes are joined in order with a semicolon and a space between any two |
| CoverageTheorems.SourcesAreAccountedFor | packages/modules/evaluation/evaluation-invariants.ts:88-129 | the same accounting holds source by source |
| CoverageTheorems.ComposedAcceptedIff | packages/modules/evaluation/evaluation-invariants.ts:88-213 | the validator accepts a composed snapshot exactly when it accepts the declared gap and the merged cut-offs |
| CoverageTheorems.ValidBucketsMergeIff | packages/modules/evaluation/evaluation-invariants.ts:139-213 | valid buckets merge into a valid one exactly when none of them is split by source or every non-empty one is |
| CoverageTheorems.ComposedFromValidBucketsAcceptedIff | packages/modules/evaluation/evaluation-invariants.ts:88-213 | composed from valid buckets, the snapshot is accepted exactly under that condition |
| CoverageTheorems.MixedCutOffsAreRefused | packages/modules/evaluation/evaluation-invariants.ts:139-213 | two valid cut-offs, one split by source and one not, whose composition the validator refuses |
| Coverage.ValidateCoverageStats | packages/modules/evaluation/evaluation-invariants.ts:167-185 | no problems exactly for a snapshot that is complete, bucket by bucket valid and cites the manifest only |
| Coverage.ValidateBucket | packages/modules/evaluation/evaluation-invariants.ts:187-213 | no problems exactly for a valid bucket |
| Coverage.StatsOkMeans | packages/modules/evaluation/evaluation-invariants.ts:167-213 | a valid snapshot, written out: four buckets with whole counts that add up by source, notes for gaps and cut-offs, one entry per count cut off, judged refs in the manifest |
| Judgment.ValidateJudgment | packages/modules/evaluation/evaluation-invariants.ts:230-304 | reports exactly the problems the elements cause, none exactly when every verdict and finding is consistent and no target repeats |
| Judgment.VerdictsAreOkIff | packages/modules/evaluation/evaluation-invariants.ts:236-270 | the caused problems and the declarative reading of verdicts agree |
| Judgment.FindingsAreOkIff | packages/modules/evaluation/evaluation-invariants.ts:271-304 | the caused problems and the declarative reading of findings agree |
| Judgment.VerdictsOkMeans | packages/modules/evaluation/evaluation-invariants.ts:236-270 | valid verdicts, written out: distinct SCORED criteria, a finite score, one of three confidences, whole counts, evidence of the manifest |
| Judgment.FindingsOkMeans | packages/modules/evaluation/evaluation-invariants.ts:271-304 | valid candidates, written out: ASSERTION criteria, a fingerprint, one of five severities, evidence of the manifest, no criterion and fingerprint twice |
| Judgment.IdentitiesClashIff | packages/modules/evaluation/evaluation-invariants.ts:271-304 | two criteria's candidates can be taken for one another exactly when one criterion key starts with the other and a slash |
| Judgment.DistinctIdentitiesArePairs | packages/modules/evaluation/evaluation-invariants.ts:271-304 | without such keys the repetition check compares criterion and fingerprint |
| UrlCheckTheorems.CountersMeanTrailingRuns | packages/modules/url-check/url-check-probe.service.ts:196-220 | over any history the alert is open exactly when the last block of three equal outcomes is three failures; the counters are the trailing runs |
| UrlCheckTheorems.IncidentsAreTheOutages | packages/modules/url-check/url-check-probe.service.ts:208-242 | the incident table is the list of outages of the history: times of the turning probes, duration, and the longest failure streak as peak |
| UrlCheckTheorems.EventsAreTheTurns | packages/modules/url-check/url-check-probe.service.ts:244-291 | the events are exactly the turns of the history in order, alternating from down, with their payloads |
| UrlCheckTheorems.IncidentsAreDisjoint | packages/modules/url-check/url-check-probe.service.ts:205-242 | an open alert has exactly one open incident with the same opening time, a closed alert none; on a monotone clock incidents do not overlap |
| UrlCheckTheorems.EventsAreRare | packages/modules/url-check/url-check-probe.service.ts:196-248 | n probes give at most n/3 events, at most (n+3)/6 of them down events, and as many down events as recoveries but for the open alert |
| UrlCheckTheorems.OpeningsAndClosings | packages/modules/url-check/url-check-probe.service.ts:196-204 | openings and closings alternate, one closing owed exactly while down |
| UrlCheckTheorems.IsDownAfterFailure | packages/modules/url-check/url-check-probe.service.ts:196-202 | a failure turns the reading down exactly when it completes a block and never turns it up |
| UrlCheckTheorems.IsDownAfterSuccess | packages/modules/url-check/url-check-probe.service.ts:196-203 | a success turns the reading up exactly when it completes a block and never turns it down |
| UrlCheckTheorems.OneSuccessRecoversNothing | packages/modules/url-check/url-check-probe.service.ts:196-204 | after three failures and one success the alert is still open |
| UrlCheck.UrlCheckTarget.AdvanceState | packages/modules/url-check/url-check-probe.service.ts:196-291 | one probe's updates of counters, flag, incidents and events are the step of the specification |
| UrlCheck.UrlCheckTarget.CheckTarget | packages/modules/url-check/url-check-probe.service.ts:114-127 | probe after probe the state stays a function of the whole history |
| S3Mirror.AwsS3FileService.SyncFilesFromS3ToDatabase | packages/modules/aws-s3/aws-s3-file.service.ts:38-92 | refuses a non-empty table; otherwise, for any page split of a sorted listing, the rows are those of one pass over the whole listing |
| S3Mirror.MirrorIsTheListing | packages/modules/aws-s3/aws-s3-file.service.ts:56-69 | one row per listed object, in order, with its key, size, name, type and parent |
| S3Mirror.AwsS3FileService.MirrorPage | packages/modules/aws-s3/aws-s3-file.service.ts:56-91 | creating and linking one page extends the mirror of the listing so far to the mirror with the page |
| S3Mirror.LaterKeysAreNoParents | packages/modules/aws-s3/aws-s3-file.service.ts:71-73 | in a sorted listing no later key is the parent of an earlier one |
| S3Mirror.MirrorOfPrefix | packages/modules/aws-s3/aws-s3-file.service.ts:71-91 | a row is settled as soon as its page is |
| S3Keys.KeyIsParentAndName | packages/modules/aws-s3/aws-s3-file.service.ts:60-66 | a key is its parent folder key, its name, and a slash if it is a folder |
| S3Keys.TypeFollowsTheLastDot | packages/modules/aws-s3/aws-s3-file.service.ts:60-66 | a file's type is what follows the last dot of its key, wherever that dot is |
| S3Keys.NamesByShape | packages/modules/aws-s3/aws-s3-file.service.ts:60-66 | names, types and parents read off the shape of a key |
| S3Keys.ParentIsLess | packages/modules/aws-s3/aws-s3-file.service.ts:528-534 | a parent folder key is a proper prefix of its child and sorts before it |
| S3Keys.JoinUndoesSplit | packages/modules/aws-s3/aws-s3-file.service.ts:528-534 | joining the segments gives the key back |
| S3Paths.MirrorIsLinked | packages/modules/aws-s3/aws-s3-file.service.ts:71-91 | a row has a parent exactly when its parent folder key is listed, and it is that row |
| S3Paths.MirrorIsAcyclic | packages/modules/aws-s3/aws-s3-file.service.ts:71-91 | the parent graph of any mirrored listing has no cycle |
| S3Paths.PathIsTheKeyIff | packages/modules/aws-s3/aws-s3-file.service.ts:551-569 | the path read back is the key without its trailing slash if and only if every folder above it is listed |
| S3Paths.FoldersAbove | packages/modules/aws-s3/aws-s3-file.service.ts:551-569 | the folders above a key are its parent and the folders above that |
| UrlCheck.Minutes | packages/modules/url-check/url-check-probe.service.ts:283 | downtime rounds to the nearest minute, halves up, and is never negative |
| UrlCheck.ErrorTextTells | packages/modules/url-check/url-check-probe.service.ts:257 | a down event carries the error of the probe, or its HTTP status in decimal, or nothing |
| ClickHouseSync.ClickHouseTable.AutoSync | packages/modules/clickhouse/clickhouse.service.ts:100-120 | synchronising fails only on a name that cannot be quoted, the table's own already when it is described, and then changes nothing; otherwise the table is the synchronised one |
| ClickHouseSync.ClickHouseTable.SyncTable | packages/modules/clickhouse/clickhouse.service.ts:158-173 | an invalid name stops everything before the first statement; otherwise statements run in order up to the first refused one |
| ClickHouseSync.StatementsApply | packages/modules/clickhouse/clickhouse.service.ts:158-173 | every DROP, ADD and MODIFY of a computed difference is applicable when it runs |
| ClickHouseSync.StatementsInOrder | packages/modules/clickhouse/clickhouse.service.ts:158-169 | drops come before additions and those before modifications, each in the order of the difference |
| ClickHouseSync.IdentifiersAre | packages/modules/clickhouse/clickhouse.service.ts:11-18 | which names can be quoted |
| ClickHouseSync.SyncedColumn | packages/modules/clickhouse/clickhouse.service.ts:135-173 | exactly the schema's columns remain; a column whose type agreed is untouched, every other gets the type the server reports for the schema's |
| ClickHouseSync.SecondDiffIsEmptyIff | packages/modules/clickhouse/clickhouse.service.ts:135-173 | a second comparison finds nothing if and only if the server reports every type it was given up to spacing and case |
| ClickHouseSync.AliasNeverSettles | packages/modules/clickhouse/clickhouse.service.ts:135-173 | a schema type that the server reports under another name: synchronising leaves the table as it was and the difference as well |
| ClickHouseSync.InSyncIff | packages/modules/clickhouse/clickhouse.service.ts:135-155 | a difference is empty exactly when both sides have the same columns with types equal up to spacing and case |
| ClickHouseSync.AddsAre | packages/modules/clickhouse/clickhouse.service.ts:143-152 | added are the schema's columns the table lacks |
| ClickHouseSync.ModifiesAre | packages/modules/clickhouse/clickhouse.service.ts:143-152 | modified are the schema's columns the table has with another type |
| ClickHouseSync.DeletesAre | packages/modules/clickhouse/clickhouse.service.ts:150-153 | dropped are the table's columns the schema lacks |
| ClickHouseSchema.DiffTableMeta | packages/modules/clickhouse/clickhouse.service.ts:135-155 | the loop that empties the table's column map computes the difference |
| ClickHouseSchema.SpacingIsIgnored | packages/modules/clickhouse/clickhouse.service.ts:194-196 | white space anywhere in a type makes no difference |
| ClickHouseSchema.CaseIsIgnored | packages/modules/clickhouse/clickhouse.service.ts:194-196 | the case of a letter anywhere in a type makes no difference |
| ClickHouseSchema.NormalFormIsItself | packages/modules/clickhouse/clickhouse.service.ts:194-196 | nothing else is changed: a type in small letters without white space is compared as it is |
| ClientCache.CachedAreTheLatest | packages/modules/aws-secrets-manager/aws-secrets-manager.service.ts:244-282 | the cache holds exactly the hundred most recent of the clients that no later client of the same key superseded |
| ClientCache.CacheConservesClients | packages/modules/aws-secrets-manager/aws-secrets-manager.service.ts:244-291 | at most a hundred entries, at most one per key, and cached plus destroyed clients are the created ones |
| ClientCache.ClientsExpireAfterFiveMinutes | packages/modules/aws-secrets-manager/aws-secrets-manager.service.ts:280 | every client was made by a call, for its key, and expires five minutes after it |
| ClientCache.MadeIff | packages/modules/aws-secrets-manager/aws-secrets-manager.service.ts:250-265 | a call makes a client exactly if none that has not expired is cached under its key |
| ClientCache.CachedOrDestroyedOnce | packages/modules/aws-secrets-manager/aws-secrets-manager.service.ts:252-291 | every client ever created is cached or was destroyed exactly once |
| ClientCache.InsertionOrderIsExpiryOrder | packages/modules/aws-secrets-manager/aws-secrets-manager.service.ts:266-280 | on a monotone clock insertion order is expiry order, so eviction takes an entry that expires first |
| ClientCache.LatestAre | packages/modules/aws-secrets-manager/aws-secrets-manager.service.ts:280 | the declarative reading of being superseded |
| ClientCache.RenewCommutes | packages/modules/aws-secrets-manager/aws-secrets-manager.service.ts:257-278 | dropping a stale entry and evicting the oldest come to keeping the most recent ones |
| ClientCache.SecretsManagerClients.GetProjectContext | packages/modules/aws-secrets-manager/aws-secrets-manager.service.ts:244-282 | a hit, or expire, evict and create; the returned client is cached under its key and unexpired |
| ClientCache.SecretsManagerClients.Context | packages/modules/aws-secrets-manager/aws-secrets-manager.service.ts:244-291 | over any calls the returned client was never destroyed, and the state stays a function of the calls |
| TaskBoard.StatusesFormAPath | packages/modules/task-management/task.service.ts:42-54 | in any interleaving of updates and deletions the committed statuses of a task are a path in the transition table |
| TaskBoard.FinalStatusStays | packages/modules/task-management/task.service.ts:42-54 | completed, cancelled and deleted tasks keep their status for good, and a deletion is never undone |
| TaskBoard.NoneSkipsTesting | packages/modules/task-management/task.service.ts:42-54 | in any interleaving a task that was not tested yet becomes deployed or completed only after it was testing |
| TaskBoard.TransitionsInto | packages/modules/task-management/task.service.ts:42-54 | the statuses from which each status is reached |
| TaskBoard.UpdateWrites | packages/modules/task-management/task.service.ts:177-201 | the write of an update sets title, status and operator as asked, and nothing if its guard misses |
| TaskBoard.CreateAndDeleteWrite | packages/modules/task-management/task.service.ts:216-225 | a deletion sets its time and operator only |
| TaskBoard.EventsNameTheirCall | packages/modules/task-management/task.service.ts:203-214 | an event reports the change and the operator of its call |
| TaskBoard.EventsAreTheMoves | packages/modules/task-management/task.service.ts:147-214 | the status-changed events of a call are exactly the changes it committed, but for at most one still to come |
| TaskBoard.LosersChangeNothing | packages/modules/task-management/task.service.ts:177-201 | a call that is refused or loses the race changed no status, and no call changes more than one |
| TaskBoard.OutcomesTell | packages/modules/task-management/task.service.ts:147-201 | what a call met when it ends with each of its outcomes |
| TaskBoard.RefusedIff | packages/modules/task-management/task.service.ts:147-176 | an update that asks for a status is refused exactly for a missing task, a deleted one, or a status the task cannot take |
| TaskService.TaskService.UpdateTask | packages/modules/task-management/task.service.ts:147-214 | accepted exactly for an existing task and a status it can take; a change is announced exactly when there is one |
| TaskService.TaskService.DeleteTask | packages/modules/task-management/task.service.ts:216-225 | deleting keeps the status and renews the time |
| LarkDedupe.DuplicateIffSeenWithin | packages/modules/lark/lark.service.ts:347-357 | on a monotone clock a call is a duplicate exactly when the same non-empty id last occurred within the window |
| LarkDedupe.MapHoldsTheWindow | packages/modules/lark/lark.service.ts:359-365 | the map holds exactly the ids last seen within the window of the latest call with an id |
| LarkDedupe.MapIsTheRememberedIds | packages/modules/lark/lark.service.ts:347-365 | whatever the clock does, an id is remembered with its last time exactly as long as no call since was more than the window later |
| LarkDedupe.LarkService.IsDuplicateEvent | packages/modules/lark/lark.service.ts:347-357 | prune, look up, record; an absent or empty id is ignored |
| LarkDedupe.LarkService.CleanupExpiredEventIds | packages/modules/lark/lark.service.ts:359-365 | the loop drops exactly the expired ids |

## Left out

- RunProtocol alone does not look inside the recording and the resolving of findings; their steps are FindingProtocol's, and Evaluation composes the two. The evidence and judgment ports, and a failure of them at any point, are arbitrary choices, and a heartbeat may come at any time.
- RunProtocol leaves out the fallback text when the row of a failed run cannot be read back, and a terminal event skipped because its identity cannot be resolved.
- RunnerService.EvaluationRunnerService.Conclude: covers `execute` from the terminal write on; the steps before it are program points of RunProtocol, since other actors run between any two of them.
- RunProtocol: a request starts from the published version it ends up with; resolving a feature's choice of a version by name is RunService.EvaluationRunService.ResolveVersionId.
- RunService leaves out the run's `config` and `requestedByRef` columns, which no step reads.
- FindingProtocol by itself takes a run's criteria and start time as constants of its pass, and the fence between recording and resolving as a choice; in Evaluation they are the run's own.
- FindingSolo.NonOverlappingPassIsExact: does not hold when passes of one evaluationKey overlap, as FindingOverlap shows; `FindingClosings.ClosedIff` says for any overlap exactly which findings a run closes.
- CanonicalJson: SHA-256 and `JSON.stringify` are arbitrary functions; JavaScript's order for integer-like object keys is not modelled.
- Coverage: sums are exact reals, so rounding is not modelled: fractional `bySource` counts can miss their total in floating point. NaN and the infinities are not modelled; object keys named like members of Object.prototype behave as ordinary keys in `bySource`.
- FindingProtocol also leaves out rereads whose result is only returned to the caller.
- ResultService: the metadata and content hash columns, which have no rule of their own here; CanonicalJson covers the hash.
- UrlCheck: the fetch, redirects and DNS checks give an arbitrary outcome; check cycles of a target do not overlap; 32-bit column widths are not modelled, and the event fields copied from the target (id, project, name, url) are dropped.
- S3Mirror: the listing is cut into pages of any size, whatever cursor produced them, and does not change while it is mirrored; keys are byte sequences.
- ClickHouseSync leaves out creating a missing table, and that the server refuses to drop the last column, which a schema without any column of the table would run into, and statement failures of its own; lower-casing covers ASCII.
- ClientCache: the awaited credential lookup before the cache is consulted, and the SDK clients themselves.
- LarkDedupe: the webhook handling around the filter.
- TaskBoard: task fields without a rule of their own beyond the title, and batch creation.
- Remediation plans, subjects, controllers, DTOs, event scheduling, pricing, tags and all calls to AWS, Lark, Slack, GitHub and similar services: no comparable invariant, or library-bound.
