# Construction periods: a verified model

This project models the construction-period domain of the API as one state machine over its
tables, and the rule-lifecycle tools of the repository as a second, independent one, and proves
what every run of them keeps. `dafny verify dfyconfig.toml` checks all of it.

## How it is built

- **State.** `Store.Db` is the value of all tables: BoQ versions with their items, baseline
  requests, zero reports, periods, facts, spike flags, work-pace rows, readiness snapshots,
  photos, discrepancies, SLA events, the jobs of the SLA queue, and the sync queue.
  `Store.Database` is the mutable database with the same fields.
- **Services.** `PeriodServices`, `WorkPaceServices`, `DisputeServices`, `SyncServices`,
  `BoqServices`, `ZeroReportServices` and `RuleTools` are classes whose methods change the
  database step by step, with the loops of the code. Each method is proved to leave exactly the
  state, and the error, that a function of the state before gives (`PeriodSpec`, `Derived`,
  `DisputeSpec`, `SyncSpec`, `BoqSpec`, `ZeroReportSpec`, `RuleSpec`).
- **Runs.** `Runs.Op` lists every service call, worker job and archiver pass; `Runs.Run` folds
  them. A theorem about `Run(EmptyDb(sites), steps)` holds in every reachable state.
- **Outcomes.** `PeriodOutcomes`, `PaceOutcomes`, `DisputeOutcomes`, `SyncOutcomes`, `BoqOutcomes`,
  `ZeroReportOutcomes` and `RuleOutcomes` say of each operation which requests it refuses, with which
  error first, and what it writes and leaves alone, in terms of the rows themselves.
- **Theorems.** `Pace` and `ForecastBounds` (forecast arithmetic), `CascadeTheorems`,
  `CascadeSteps`, `Freshness`, `LateClosing` and `Telescoping` (derived data), `ReadinessBounds`,
  `Volumes`, `GpWindow` and `Lifecycle` (periods and facts), `DisputeTimers` and
  `DisputeDeadlines`, `SyncBatch` and `SyncSafety`, `BoqChain`, `ZeroGate`, and `RuleTheorems`.
- **Witnesses.** `WitnessRuns`, `WitnessReplay`, `WitnessDisputes` and `WitnessLateClose` are
  concrete runs from the empty store, each proved to be allowed, that show where a promise fails.

## What the environment is taken to do

- Each service call, job or archiver pass is one atomic step. The clock does not go back
  (`Runs.Allowed`); organization settings do not change.
- A period is named by its unique key, object and number, and its submission token by the period.
  Facts and pace rows are keyed by period and item, snapshots by period, queue rows by device and
  client operation id, as the unique keys of the schema say.
- The SLA queue runs a job no earlier than its delay after it was added and keeps a job whose id is
  queued already; a loss of queued jobs is a step of its own. `findFirst` over open discrepancies may return any of them: a step names the
  one it returned.
- The store checks what its triggers and constraints say: a fact belongs to an item of its period's
  version (`packages/database/prisma/migrations/0001_initial/migration.sql:345-365`), volumes are
  not negative, plans are positive, weights are contract value divided by the total (198-223), and
  the correction function sets SC and accepted volume (866-889).
- The version of a fact is raised by a trigger only when its SC volume, discrepancy type or
  contractor note becomes distinct
  (`packages/database/prisma/migrations/20260620020000_fix_period_facts_bump_version_note_column/migration.sql:9-20`).
  It is not raised by every SC write; the theorems on the sync protocol depend on this.
- The flag `isSpike` is kept in a set of its own, which only grows, because no computation reads it.
  `calculatedAt` of a snapshot is the moment of its calculation.

## What the proofs show about the code

- The incremental cascade is a full recomputation (`CascadeEqualsRecompute`), also when other steps
  run between its transactions (`InterleavedCascade`), and closing in number order keeps all derived
  data right (`OrderedRunsStayFresh`). Opening only looks at periods in status open, so periods can
  be closed out of order. Then all rows stay right exactly when the late period moved no item of the
  next closed one (`LateCloseRowsIff`); snapshots do too when the late period enters no forecast
  window of a later closed one (`LateCloseFreshIff`), and otherwise can become stale
  (`LateCloseLeavesStaleSnapshot`). A timer can force a figure in a closed period without a cascade;
  everything stays right exactly when the effective volume does (`ForceKeepsFreshIff`), which no run
  without corrections violates (`TimersNeverMoveVolumes`).
- "Applied at most once" is not true as it stands: an operation that repeats the stored figure does
  not raise the version, and after its queue row was archived it is applied again and can take
  back a figure that a timer has forced (the run of `ReplayUndoesForcedFigure`). What does hold for
  ever is that an operation that changed the fact is never applied again (`AtMostOnceForEver`).
- The 14 days after a contractor's answer, and the five days of an unanswered dispute, are kept in
  a run exactly when no step is careless (`PromiseKeptIff`): none opens a dispute whose day-5 timer
  comes before a deadline on the fact, or, for the five days, while an earlier forcing timer is
  left; and none rejects an answer while a later deadline on the fact is still to come. With one
  open type-2 dispute per fact the 14 days are safe (`AnsweredDisputeHasFourteenDays`). Two
  runs show the failures: `CrossingDisputesForcedEarly` and `ReopenedDisputeForcedAtOnce`.
- A period still open after the contractor's deadline can never be closed, and its object can open
  no other (`LatePeriodIsStuck`).
- Of two baseline requests that wait for the same object the one approved second is marked as
  approved and changes nothing (`OnlyFirstOfTwoRequestsCounts`).
- Over real numbers the tolerance of the weight check is never used: accepted weights add up to one
  exactly (`AcceptedWeights`), so readiness never exceeds 100 (`StoredReadinessIsAPercentage`). The
  trigger divides NUMERIC values and rounds the quotients far behind the decimal point; that rounding
  is all the tolerance is for, and `ReadinessWithinBounds` gives 100.1 for any weights that pass.
- The rule audit does not see an id twice in one working set, and then a proposed delta can be
  refused (`DuplicatesEscapeTheAudit`); exactly when is `ProposalsValidIff`.

Where the code and the database scripts disagree, the model follows the services and the Prisma
schema: the partial index on active versions
(`packages/database/prisma/migrations/0001_initial/migration.sql:163-165`) would refuse the moment
in `approveRequest` at which two versions are active, the check on `spike_response` (335-337) knows
no `data_entry_error`, so that the pace without the latest period could not be reached, and the
revoked update right on facts (861) would refuse every SC entry. The columns for forecast dates
(445-446) hold dates without a time; the model keeps the moment that the services compute.

## Model

| member | source | states |
|---|---|---|
| PeriodServices.PeriodService.OpenPeriod | apps/api/src/modules/period/period.service.ts:40-130 | the whole new state and error of opening a period: refusals in the order of the code, the lock timeout included, number = last + 1, the active version, a deadline 14 days ahead |
| PeriodServices.PeriodService.SubmitGp | apps/api/src/modules/period/period.service.ts:290-363 | a valid token, status and form write every figure, a missing one as none, and mark the period submitted; anything else rolls the transaction back and leaves the store as it was |
| PeriodServices.PeriodService.UpsertPeriodFact | apps/api/src/modules/period/period.service.ts:367-499 | the SC entry with its version check, the confirmed/discrepancy outcome, the version trigger and the move to verification, or the exact error and no change |
| PeriodServices.PeriodService.RecordWorkPaceDeltas | apps/api/src/modules/period/period.service.ts:563-626 | the loop over the items stores exactly the rows of the difference to the previous closed period, and touches no other row |
| PeriodServices.PeriodService.CalcReadiness | apps/api/src/modules/period/period.service.ts:630-657 | the loop over the facts of the period, in any order, computes the rounded sum of the capped, weighted terms of the items |
| PeriodServices.PeriodService.ClosePeriod | apps/api/src/modules/period/period.service.ts:503-558 | closing marks the period, stores rows, spike flags and snapshot as one step, or fails with the exact error and changes nothing |
| PeriodServices.PeriodService.RecalcSnapshotCascade | apps/api/src/modules/period/period.service.ts:702-740 | the loop over the closed periods from a number on equals the recursive cascade, as one step at one moment (InterleavedCascade has them apart) |
| PeriodServices.PeriodService.AdminCorrectFact | apps/api/src/modules/period/period.service.ts:670-698 | the correction of a fact followed by the cascade from its period, as one step (InterleavedCascade has them apart); what it writes is CorrectionWrites |
| WorkPaceServices.WorkPaceService.WindowPace | apps/api/src/modules/analytics/work-pace.service.ts:57-132 | the pace over the window with its dampings, and exactly the spike flag of its latest period; which rows enter is PausesLeaveTheWindow |
| WorkPaceServices.WorkPaceService.CalcItemPace | apps/api/src/modules/analytics/work-pace.service.ts:57-170 | the loops over the window compute the decayed mean with its two dampings, the all-zero flag, the forecast end, and raise exactly the spike flag of the window; ItemPaceUses and EndIs say from which rows |
| WorkPaceServices.WorkPaceService.CalcObjectForecast | apps/api/src/modules/analytics/work-pace.service.ts:174-227 | the loop over the items computes weighted date, critical date and the gap flag of these two dates and raises exactly the spike flags of the items |
| DisputeServices.DisputeSlaService.ScheduleEvents | apps/api/src/modules/dispute-sla/dispute-sla.service.ts:20-58 | the timers of a scenario are added from the given start and every pending event of that scenario gets a job, never before its time |
| DisputeServices.DisputeSlaService.RecoverPending | apps/api/src/modules/dispute-sla/dispute-sla.service.ts:60-75 | every pending event gets a job unless it has one; the number of pending events is returned |
| DisputeServices.DisputeSlaService.CancelEvents | apps/api/src/modules/dispute-sla/dispute-sla.service.ts:77-82 | exactly the pending events of the fact are cancelled |
| DisputeServices.DisputeService.CreateDispute | apps/api/src/modules/dispute/dispute.service.ts:18-73 | the guards in order, then the fact becomes a type-2 discrepancy, a row is added and scenario A is scheduled |
| DisputeServices.DisputeService.SubmitGpResponse | apps/api/src/modules/dispute/dispute.service.ts:84-110 | an open dispute takes the response time and all pending timers of the fact are cancelled |
| DisputeServices.DisputeService.RejectGpResponse | apps/api/src/modules/dispute/dispute.service.ts:113-132 | scenario B is scheduled from the response time, on an open and answered dispute only |
| DisputeServices.DisputeSlaWorker.FindOpenDiscrepancy | apps/api/src/modules/dispute-sla/dispute-sla.worker.ts:119-130 | finds some open discrepancy of the fact, and none only when there is none |
| DisputeServices.DisputeSlaWorker.HandleForceClose | apps/api/src/modules/dispute-sla/dispute-sla.worker.ts:88-106 | one open discrepancy of the fact is forced and its SC figure accepted, or nothing changes when there is none |
| DisputeServices.DisputeSlaWorker.Process | apps/api/src/modules/dispute-sla/dispute-sla.worker.ts:23-42 | a pending event acts by its type and is marked executed; any other job only leaves the queue |
| SyncServices.SyncService.ApplyFactOperation | apps/api/src/modules/sync/sync.service.ts:179-251 | each outcome of an operation, its row status and its answer, and the crash on an error that is no HTTP error |
| SyncServices.SyncService.ProcessOne | apps/api/src/modules/sync/sync.service.ts:72-131 | one element of a batch: malformed, repeated, or queued and applied; ValidIff says which are malformed, NewOperation what becomes of the others |
| SyncServices.SyncService.ProcessOperations | apps/api/src/modules/sync/sync.service.ts:60-138 | the loop with its stopped flag produces the answers and the state of the recursive batch, and no further change after a crash |
| SyncServices.SyncService.ResolveConflict | apps/api/src/modules/sync/sync.service.ts:402-485 | resolution of a conflict row: applied, escalated with an error, or refused |
| SyncServices.SyncService.UploadPhoto | apps/api/src/modules/sync/sync.service.ts:487-554 | a photo and its applied row in the shared key space, idempotent on a repeated key, refused in closed periods |
| SyncServices.SyncService.EscalateClosedPeriod | apps/api/src/modules/sync/sync.service.ts:312-382 | a type-3 discrepancy on the fact, if it exists, and the row escalated |
| SyncServices.SyncArchivalWorker.Process | apps/api/src/modules/sync/sync-archival.worker.ts:35-49 | exactly the applied, rejected and escalated rows older than 30 days are deleted |
| BoqServices.BoqService.CreateInitial | apps/api/src/modules/boq/boq.service.ts:28-77 | the first version with its items and weights, or the exact error and no change |
| BoqServices.BaselineService.CreateRequest | apps/api/src/modules/baseline/baseline.service.ts:34-75 | a request is added for an item of the active version only |
| BoqServices.BaselineService.ApproveRequest | apps/api/src/modules/baseline/baseline.service.ts:77-171 | the clone of the active version with the new plan is added, the active flag moves, the request is approved, or nothing changes |
| BoqServices.SumWeights | apps/api/src/modules/baseline/baseline.service.ts:142-151 | the loop adds the weights of the active items |
| ZeroReportServices.ZeroReportService.Create | apps/api/src/modules/zero-report/zero-report.service.ts:57-96 | a draft for a version of the object while no report of it is other than rejected |
| ZeroReportServices.ZeroReportService.UpsertItem | apps/api/src/modules/zero-report/zero-report.service.ts:118-209 | an item of the report version is entered in a draft; cross-verified means all three documents |
| ZeroReportServices.ZeroReportService.Submit | apps/api/src/modules/zero-report/zero-report.service.ts:211-245 | a draft with items becomes pending |
| ZeroReportServices.ZeroReportService.Approve | apps/api/src/modules/zero-report/zero-report.service.ts:247-311 | the loop over the items finds the first reason against approval; without one the latest report is approved |
| RuleTools.ComputeProposals | tools/audit/token-rules-propose.js:58-95 | the two loops collect exactly the rules that meet the promotion and the deprecation criteria, in order |
| RuleTools.Validate | tools/audit/token-rules-apply.js:50-63 | the loops collect every error of a delta, in order |
| RuleTools.CheckEntries | tools/audit/audit-rules.js:82-91 | the count is that of bad ids, missing statuses and ids outside the baseline |
| RuleTools.CheckDisjoint | tools/audit/audit-rules.js:93-99 | the count is the number of ids in both sets |
| RuleTools.CheckComplete | tools/audit/audit-rules.js:101-105 | the count is the number of baseline ids in no working set |
| RuleTools.NoViolationsIffClean | tools/audit/audit-rules.js:50-108 | the audit counts nothing exactly when the files are locked, well formed, disjoint and complete |
| RuleTools.AuditRules | tools/audit/audit-rules.js:41-108 | the number of violations of readable files, and exit status 0 exactly for clean ones |
| RuleTools.RuleRepo.CommitFiles | tools/audit/_lib/rules-io.js:89-102 | all files are written when the audit of the result passes, and otherwise every file is as it was before |
| RuleTools.RuleRepo.Propose | tools/audit/token-rules-propose.js:97-125 | the delta file holds the proposals, or is removed when there are none |
| RuleTools.RuleRepo.Apply | tools/audit/token-rules-apply.js:31-104 | the verdict, the new sets, the changelog lines and the removal of the delta, or no change |
| RuleTools.RuleRepo.Count | tools/audit/token-rules-count.js:58-84 | the counted sets are stored when the audit passes, and nothing changes otherwise |
| Pace.RestartedWeightsSameMean | apps/api/src/modules/analytics/work-pace.service.ts:101-112 | weights restarting at the zeroth power give the same mean as weights shifted by any power |
| Pace.DampingOrder | apps/api/src/modules/analytics/work-pace.service.ts:87-132 | excluding ≤ halving ≤ plain mean holds exactly when the latest volume is at or above the mean |
| Pace.SpikeOrdering | apps/api/src/modules/analytics/work-pace.service.ts:87-132 | with a threshold of at least one a spike needs two volumes, and excluding ≤ halving ≤ plain mean < latest volume |
| Pace.AllZeroHasNoPace | apps/api/src/modules/analytics/work-pace.service.ts:134-157 | a window of zeros has pace zero |
| Pace.SlowerPaceLaterDate | apps/api/src/modules/analytics/work-pace.service.ts:155-170 | a slower pace never gives an earlier end, no end lies before now, and it is now exactly when the plan is reached |
| Pace.WeightedDateBetween | apps/api/src/modules/analytics/work-pace.service.ts:198-216 | with positive weights the weighted date exists and lies between the earliest and the latest forecast |
| Pace.CriticalDateIsMaximum | apps/api/src/modules/analytics/work-pace.service.ts:198-217 | the critical date is the greatest forecast at or above the threshold, and missing exactly when there is none |
| Pace.CriticalNotBeforeWeighted | apps/api/src/modules/analytics/work-pace.service.ts:198-224 | critical is not before weighted when every item reaches the threshold |
| ForecastBounds.PlanIsReachedAtEnd | apps/api/src/modules/analytics/work-pace.service.ts:164-167 | going on at the pace reaches the plan exactly at the forecast end |
| ForecastBounds.GapFlagIff | apps/api/src/modules/analytics/work-pace.service.ts:219-224 | the comparison in days and periods holds exactly when both dates exist and lie apart by the configured number of periods |
| ForecastBounds.ReachableForecast | apps/api/src/modules/analytics/work-pace.service.ts:174-227 | in every reachable state: existence and bounds of the weighted date, maximality of the critical date, their order, and the gap flag raised exactly when both of them exist and lie apart by the configured number of periods of 30 days |
| Derived.SnapshotFrame | apps/api/src/modules/period/period.service.ts:503-657 | readiness and forecast of a closed period depend only on the closed periods up to it, their facts and rows |
| Derived.ScratchFrame | apps/api/src/modules/period/period.service.ts:563-657 | the from-scratch snapshot of a period does not depend on later periods or on stored rows |
| Derived.StoredEqualsScratch | apps/api/src/modules/period/period.service.ts:702-740 | with fresh rows up to the period, the computation from stored rows equals the one from facts alone |
| Derived.RecalculatedFresh | apps/api/src/modules/period/period.service.ts:717-733 | recalculating one period whose predecessors are fresh makes it fresh and leaves them fresh |
| CascadeTheorems.CascadeEqualsRecompute | apps/api/src/modules/period/period.service.ts:702-734 | the cascade from n equals the full recomputation of every closed period from n on, changes nothing else, and a second one changes nothing at all |
| Freshness.CloseFresh | apps/api/src/modules/period/period.service.ts:503-558 | closing the highest closed period keeps every stored row and snapshot equal to the recomputation |
| Freshness.CorrectFresh | apps/api/src/modules/period/period.service.ts:670-698 | a correction with its cascade restores every stored row and snapshot of all objects |
| Freshness.OrderedRunsStayFresh | apps/api/src/modules/period/period.service.ts:503-626 | over every run that closes in number order and in which no timer moves an effective volume in a closed period, corrections included, everything stored equals the recomputation from scratch |
| Freshness.LateCloseIsRightIff | apps/api/src/modules/period/period.service.ts:590-609 | closing below a closed period leaves the rows of the next closed period right exactly when no item of it moved in the late period |
| LateClosing.LateCloseRowsIff | apps/api/src/modules/period/period.service.ts:590-609 | it leaves all rows of the object right exactly then |
| LateClosing.LateCloseFreshIff | apps/api/src/modules/period/period.service.ts:503-558 | it leaves all rows and snapshots right exactly then, as long as the late period enters no forecast window of a later closed one |
| WitnessLateClose.LateCloseLeavesStaleSnapshot | apps/api/src/modules/period/period.service.ts:66-101 | a run from the empty store that closes out of order, with nothing moved, right rows and a stale stored snapshot |
| CascadeSteps.InterleavedCascade | apps/api/src/modules/period/period.service.ts:694-734 | the cascade with one transaction per period and any runs between them that close and correct nothing also makes everything right again |
| Freshness.ForceKeepsFreshIff | apps/api/src/modules/dispute-sla/dispute-sla.worker.ts:88-106 | a figure forced in a closed period leaves everything stored right exactly when it leaves the effective volume alone |
| Volumes.PeriodMoves | apps/api/src/modules/period/period.service.ts:344-558 | an existing period changes in one step only by a valid submission, an entry on a submitted period, or its closing |
| Volumes.AcceptedIsScOrNone | apps/api/src/modules/period/period.service.ts:429-470 | without admin correction the accepted volume is unset or the SC volume, and confirmed means one figure in all three places |
| Volumes.ForceKeepsVolumesIff | apps/api/src/modules/dispute-sla/dispute-sla.worker.ts:88-106 | a forcing timer keeps every effective volume exactly when the fact accepts nothing yet or the SC figure already |
| Volumes.TimersNeverMoveVolumes | apps/api/src/modules/dispute-sla/dispute-sla.worker.ts:88-106 | without admin correction no job changes what readiness, rows and forecasts read, in closed periods either |
| Volumes.TimersKeepFresh | apps/api/src/modules/dispute-sla/dispute-sla.worker.ts:23-106 | with all timers running, closing in order is enough for stored data to stay fresh |
| Telescoping.PaceTelescopes | apps/api/src/modules/period/period.service.ts:578-625 | the rows of an item over the closed periods of its version add up to its volume in the last of them |
| Telescoping.OrderedRunsTelescope | apps/api/src/modules/period/period.service.ts:578-625 | the same in every state reached by closing in order with no timer moving an effective volume in a closed period; that no fact of the item lies outside its version is proved, not assumed |
| Telescoping.CascadeFromFirstTelescopes | apps/api/src/modules/period/period.service.ts:702-734 | the same after a cascade from the first period in every reachable state whatever |
| Derived.ReadinessOfFact | apps/api/src/modules/period/period.service.ts:634-655 | taking one fact out of the readiness sum takes out exactly the term of its item, so the order of the facts does not matter |
| ReadinessBounds.ReachableFactsFit | packages/database/prisma/migrations/0001_initial/migration.sql:344-365 | in every reachable state each fact belongs to one item of its period version, which is all the readiness loop asks for |
| ReadinessBounds.ReadinessWithinBounds | apps/api/src/modules/period/period.service.ts:643-656 | within 0..100.1 for weights that pass the check, within 0..100 for a sum up to one, at most 0.005 off the exact sum |
| ReadinessBounds.ReadinessMonotone | apps/api/src/modules/period/period.service.ts:643-656 | more volume in any fact never lowers readiness, through cap and rounding |
| ReadinessBounds.StoredReadinessIsAPercentage | apps/api/src/modules/period/period.service.ts:534-546 | every snapshot ever stored holds a readiness within 0..100 |
| Lifecycle.ReachableLifecycle | apps/api/src/modules/period/period.service.ts:66-101 | numbers are exactly 1..n, only the last period can be open, an open dispute in a closed period is of type 3 |
| Lifecycle.StatusNeverMovesBack | apps/api/src/modules/period/period.service.ts:503-531 | over any run no period is lost or moves back, and a closed one never changes |
| Lifecycle.ClosingFindsNoOpenDispute | apps/api/src/modules/period/period.service.ts:510-531 | a period becomes closed only through closePeriod, which met no open dispute in it |
| Lifecycle.DisputesStep | apps/api/src/modules/dispute/dispute.service.ts:28-63 | new disputes are of type 2 in unclosed or of type 3 in closed periods, and a resolved one is never reopened |
| Lifecycle.FactsStep | packages/database/prisma/migrations/20260620020000_fix_period_facts_bump_version_note_column/migration.sql:9-20 | no step loses a fact or lowers its version; at the same version SC volume, type and note are the same |
| PeriodSpec.UpsertVersion | packages/database/prisma/migrations/20260620020000_fix_period_facts_bump_version_note_column/migration.sql:9-20 | an entry raises the version exactly when the fact is new or its SC volume or type changes |
| GpWindow.GpStep | apps/api/src/modules/period/period.service.ts:322-342 | only a successful submission for the period writes a contractor figure |
| GpWindow.FiguresStayAfterSubmission | apps/api/src/modules/period/period.service.ts:305-351 | after the submission its time and every contractor figure of the period stay in all later states |
| GpWindow.LatePeriodIsStuck | apps/api/src/modules/period/period.service.ts:235-242 | a period still open after its deadline never changes again, and its object can open no other period |
| GpWindow.LateEntryEndsThePeriod | apps/api/src/modules/period/period.service.ts:389-396 | from the first entry without template on, the period is the same in all later states and blocks its object |
| GpWindow.SubmissionExcludesLateEntry | apps/api/src/modules/period/period.service.ts:389-396 | a run holds at most one successful submission for a period, and none together with an entry without template |
| DisputeSpec.JobEffect | apps/api/src/modules/dispute-sla/dispute-sla.worker.ts:23-106 | facts and discrepancies after a job: one forced discrepancy with its fact, or no change |
| DisputeTimers.RecoveryRestoresJobs | apps/api/src/modules/dispute-sla/dispute-sla.service.ts:60-75 | recovery queues every pending event, none too early, keeps the queued jobs, and adds nothing when nothing was lost |
| DisputeDeadlines.RecoveryInARun | apps/api/src/modules/dispute-sla/dispute-sla.service.ts:60-75 | the same in every reachable state, jobs lost on the way included |
| DisputeTimers.TimedStep | apps/api/src/modules/dispute/dispute.service.ts:84-132 | every step keeps the dating of pending timers, given one open type-2 dispute per fact |
| DisputeTimers.SecondDisputeBreaksIff | apps/api/src/modules/dispute/dispute.service.ts:51-70 | opening a second dispute breaks, in that step, the dating of the pending timers exactly when an open one was answered |
| DisputeTimers.AnsweredDisputeHasFourteenDays | apps/api/src/modules/dispute-sla/dispute-sla.worker.ts:23-42 | with one open dispute per fact, an answered one has only scenario-B timers dated from the answer, and is not forced before 14 days after it |
| DisputeDeadlines.CarefulStep | apps/api/src/modules/dispute/dispute.service.ts:18-132 | a step that is not careless lets no pending timer threaten a deadline of the fact |
| DisputeDeadlines.PromiseKeptIff | apps/api/src/modules/dispute-sla/dispute-sla.worker.ts:23-106 | the 14 days after an answer, and the five days of an unanswered dispute, are kept in every state of a run exactly when no step of it is careless |
| WitnessDisputes.CrossingDisputesForcedEarly | apps/api/src/modules/dispute-sla/dispute-sla.worker.ts:88-106 | a run in which the timer of one dispute forces another five days after its answer, though the second was opened before the first was answered |
| WitnessDisputes.ReopenedDisputeForcedAtOnce | apps/api/src/modules/dispute-sla/dispute-sla.worker.ts:88-106 | a run in which a timer left over from a twice rejected answer forces a new dispute in the moment it is opened |
| SyncBatch.SubmitRows | apps/api/src/modules/sync/sync.service.ts:72-131 | a valid new operation leaves exactly one row, which is what is answered; a malformed or repeated one leaves no trace |
| SyncBatch.BatchIsRun | apps/api/src/modules/sync/sync.service.ts:72-135 | a batch ends in the state of the run of its operations up to the first stop or crash |
| SyncBatch.AnswersInOrder | apps/api/src/modules/sync/sync.service.ts:69-137 | answers match the operations one for one and in order, fewer only after a crash |
| SyncBatch.SkippedIff | apps/api/src/modules/sync/sync.service.ts:76-80 | an operation is skipped exactly when a fresh conflict or escalation came before it |
| SyncBatch.NothingAfterStop | apps/api/src/modules/sync/sync.service.ts:132-134 | the batch ends in the state it would have without the operations after the first fresh conflict or escalation |
| SyncBatch.BatchDrains | apps/api/src/modules/sync/sync.service.ts:69-137 | fewer valid operations are without a row whenever the answer had a skipped one or crashed, otherwise none is |
| SyncBatch.RetryIsIdle | apps/api/src/modules/sync/sync.service.ts:90-107 | once none is waiting a retry changes no fact and no row, and skips nothing |
| SyncBatch.RetriesTerminate | apps/api/src/modules/sync/sync.service.ts:69-137 | as many retries as operations were waiting drain any batch |
| SyncSafety.AppliedIffChecked | apps/api/src/modules/sync/sync.service.ts:202-218 | a fresh applied answer is given exactly when the figure was entered on the version the device had seen |
| SyncSafety.CheckedEntryOverwrites | apps/api/src/modules/period/period.service.ts:414-470 | such an entry writes that fact alone, on that version, and leaves the contractor figure |
| SyncSafety.AppliedOverwritesWhatWasSeen | apps/api/src/modules/period/period.service.ts:414-427 | over any run from the empty store the figure an applied operation overwrites is the one the fact had when the device read that version |
| SyncSafety.ConflictReports | apps/api/src/modules/sync/sync.service.ts:253-308 | a fresh conflict means another version, changes no fact and reports the current version and figure |
| SyncSafety.QueueStep | apps/api/src/modules/sync/sync.service.ts:402-455 | a row stays, or a conflict is resolved as applied or escalated, or a settled old row is archived; new rows come from operations and photos only |
| SyncSafety.ConflictWaits | apps/api/src/modules/sync/sync-archival.worker.ts:36-45 | a conflict row is neither changed nor removed before its resolution |
| SyncSafety.OneWriteWhileKept | apps/api/src/modules/sync/sync.service.ts:90-131 | two steps of a run write a fact for one key only if its row was archived in between |
| SyncSafety.AtMostOnceForEver | apps/api/src/modules/period/period.service.ts:414-427 | over any run, retries, resolutions and archiving included, an operation that changed the fact never passes the check again; one that passes twice changed nothing and finds its figure stored |
| SyncSafety.ReplayPassesCheckIff | apps/api/src/modules/period/period.service.ts:414-427 | right after an entry the same operation passes the check again exactly when the entry changed nothing |
| WitnessReplay.ReplayUndoesForcedFigure | apps/api/src/modules/sync/sync-archival.worker.ts:34-45 | a run from the empty store in which one operation is applied, archived and applied again, taking back a figure that a timer had forced in between |
| BoqChain.AcceptedWeights | packages/database/prisma/migrations/0001_initial/migration.sql:198-223 | over real shares, items that pass the store checks and the weight check weigh exactly one, each its share of the contract value |
| BoqChain.ApproveSucceeds | apps/api/src/modules/baseline/baseline.service.ts:94-171 | an approval appends the item-by-item successor of the active version, with the new plan on the requested item alone |
| BoqChain.ChainStep | apps/api/src/modules/baseline/baseline.service.ts:94-171 | every step keeps the chain: consecutive ids, exact weights, each version the successor of the one before, the latest active |
| BoqChain.NumbersIncrease | apps/api/src/modules/baseline/baseline.service.ts:108-115 | version numbers of an object strictly increase and only the latest can be active |
| BoqChain.OneActiveVersion | apps/api/src/modules/boq/boq.service.ts:31-49 | in every reachable state exactly the version with the greatest number of an object is active |
| BoqChain.IdNamesOneItem | apps/api/src/modules/baseline/baseline.service.ts:124-140 | an item id names one item of one version |
| BoqChain.PredecessorsAreABijection | apps/api/src/modules/baseline/baseline.service.ts:124-140 | predecessor links run one to one between consecutive versions, keep lineage, code, contract value and status, and at most one plan differs |
| BoqChain.ApprovalChangesPlanIff | apps/api/src/modules/baseline/baseline.service.ts:131-134 | an approval changes a plan exactly when the active version holds the requested item with another plan |
| BoqChain.OnlyFirstOfTwoRequestsCounts | apps/api/src/modules/baseline/baseline.service.ts:131-134 | of two requests waiting for one object the second approved one changes no plan |
| ZeroGate.NoErrorIffCovers | apps/api/src/modules/zero-report/zero-report.service.ts:283-298 | the approval loop accepts exactly the reports with an entry for every item, cross-verified where the item is critical and where its weight reaches the threshold |
| ZeroGate.ReportsStep | apps/api/src/modules/zero-report/zero-report.service.ts:247-310 | every step keeps one report per object, approved ones covering their version and never changed again |
| ZeroGate.GateHoldsForEver | apps/api/src/modules/period/period.service.ts:60-64 | whenever an object has a period its one report is approved, covers its version at the threshold, and no later step of any run changes it |
| RuleTheorems.DeltaValidIff | tools/audit/token-rules-apply.js:50-63 | a delta is accepted exactly when no id repeats, promotions name quarantined rules without transcript, deprecations name active rules |
| RuleTheorems.PromotionsIff | tools/audit/token-rules-propose.js:66-79 | exactly the quarantined rules that meet the criteria are proposed, each once |
| RuleTheorems.DeprecationsIff | tools/audit/token-rules-propose.js:81-93 | exactly the active rules that were never hit or are imprecise are proposed, each once |
| RuleTheorems.ProposalsValidIff | tools/audit/token-rules-propose.js:58-95 | from partitioned sets a proposed delta passes the validation exactly when no id is proposed twice and the first quarantined rule of each proposed id needs no transcript |
| RuleTheorems.ProposalsAreValid | tools/audit/token-rules-propose.js:58-95 | from partitioned sets without duplicates every proposed delta passes the validation |
| RuleTheorems.ApplyKeepsPartition | tools/audit/token-rules-apply.js:65-77 | applying any valid delta keeps every baseline id in exactly one set, so the audit passes |
| RuleTheorems.ApplyLowersMeasure | tools/audit/token-rules-apply.js:65-77 | the measure drops by exactly the number of moves and no duplicate appears |
| RuleTheorems.ProposeAfterApplyIsEmpty | tools/audit/token-rules-propose.js:58-95 | after a round the same trend proposes nothing more, in particular no deprecation of a promoted rule |
| RuleTheorems.CountKeepsSets | tools/audit/token-rules-count.js:45-56 | counting moves no rule and passes the audit |
| RuleTheorems.CountKeepsDelta | tools/audit/token-rules-count.js:67-71 | a waiting delta stays valid when a session is counted |
| RuleTheorems.PrecisionIsARatio | tools/audit/_lib/rules-io.js:43-47 | the derived precision is within 0..1 and at most 0.00005 off the ratio, missing exactly without observations |
| RuleTheorems.AppliedGood | tools/audit/token-rules-apply.js:88-103 | from a clean repository applying is never refused or rolled back |
| RuleTheorems.MovesAreFinite | tools/audit/token-rules-apply.js:31-104 | over every interleaving of the three commands the measure plus the number of logged moves is constant |
| RuleTheorems.DuplicatesEscapeTheAudit | tools/audit/audit-rules.js:82-105 | a set with an id twice passes the partition checks, and its proposed delta is refused |
| PeriodOutcomes.OpenRefuses | apps/api/src/modules/period/period.service.ts:40-101 | the refusals of opening, by pause reason, lock, object, approved report, open period and active version, in this order and no others |
| PeriodOutcomes.OpenAdds | apps/api/src/modules/period/period.service.ts:78-101 | the new period follows the last one or is number 1, has the active version and 14 days; nothing else changes |
| PeriodOutcomes.SubmitRefuses | apps/api/src/modules/period/period.service.ts:290-334 | the refusals of a submission by token, status, protected columns, items and figures, in order |
| PeriodOutcomes.SubmitWrites | apps/api/src/modules/period/period.service.ts:322-351 | each item of the form holds figure and note of its last row, with all else of the fact kept; other facts stay; the period is marked |
| PeriodOutcomes.RowVersion | packages/database/prisma/migrations/20260620020000_fix_period_facts_bump_version_note_column/migration.sql:9-20 | a row of the form raises the version exactly when it changes the note |
| PeriodOutcomes.EntryRefuses | apps/api/src/modules/period/period.service.ts:367-427 | the refusals of an SC entry in order, the version conflict with the current figure and version |
| PeriodOutcomes.EntryWrites | apps/api/src/modules/period/period.service.ts:429-499 | the SC figure and the spike answer given are stored; equal figures confirm, others open a type-1 discrepancy without accepted volume; gp and note stay |
| PeriodOutcomes.CloseRefuses | apps/api/src/modules/period/period.service.ts:503-531 | the refusals of closing by status, open discrepancies of the period and an existing snapshot, in order |
| PeriodOutcomes.RowIs | apps/api/src/modules/period/period.service.ts:578-625 | a row holds the volume less that of the latest closed period before, and is excluded exactly in a planned pause |
| PeriodOutcomes.CloseWrites | apps/api/src/modules/period/period.service.ts:533-558 | closing stores a row for each item of the version and one snapshot, marks the period, and changes no fact, dispute or other row |
| PeriodOutcomes.CorrectionRefuses | packages/database/prisma/migrations/0001_initial/migration.sql:866-889 | a correction is refused for a missing fact and for negative figures, in this order |
| PeriodOutcomes.CorrectionWrites | packages/database/prisma/migrations/0001_initial/migration.sql:866-889 | the SC figure and the accepted figure are stored in their own fields, the accepted one is the volume from then on, and the rest of the fact and every other fact stay |
| PaceOutcomes.WindowIsLatest | apps/api/src/modules/analytics/work-pace.service.ts:74-82 | the window holds the latest periods with a row of the item, latest first, and leaves one out only for a later one |
| PaceOutcomes.PausesLeaveTheWindow | apps/api/src/modules/analytics/work-pace.service.ts:74-85 | a period of the window counts exactly when it is no planned pause and its row is not excluded |
| PaceOutcomes.IdleRowChangesNothing | apps/api/src/modules/analytics/work-pace.service.ts:84-132 | the volume in the row of a planned pause, or in an excluded row, changes no pace, no forecast end and no spike |
| PaceOutcomes.MeanDecays | apps/api/src/modules/analytics/work-pace.service.ts:87-94 | in the mean each period weighs the decay factor times the next one |
| PaceOutcomes.SpikeAnswers | apps/api/src/modules/analytics/work-pace.service.ts:97-132 | after a spike a data entry error takes the latest volume out of the mean, any other answer and none keep it with weight one half |
| PaceOutcomes.ItemPaceUses | apps/api/src/modules/analytics/work-pace.service.ts:74-132 | the pace of an item is that of its counting volumes, under the settings of the organization, with the answer on the latest counting period |
| PaceOutcomes.SpikeIs | apps/api/src/modules/analytics/work-pace.service.ts:97-107 | a fact is flagged exactly when it is the latest that counts and exceeds the mean by the threshold |
| PaceOutcomes.EndIs | apps/api/src/modules/analytics/work-pace.service.ts:155-170 | an item has a forecast exactly with a positive pace and a fact; it ends when the rest of the plan is done at 30 days a period |
| PaceOutcomes.EntriesAre | apps/api/src/modules/analytics/work-pace.service.ts:189-206 | the entries of a forecast are the active, weighted items that have an end |
| PaceOutcomes.WeightedDateBalances | apps/api/src/modules/analytics/work-pace.service.ts:198-217 | the weighted date is the one date at which the weighted distances of all entries cancel out |
| PaceOutcomes.TermMeans | apps/api/src/modules/period/period.service.ts:643-654 | an item adds its weight times the percentage done, and its whole weight once done |
| ForecastBounds.StoredFlagsAreRight | apps/api/src/modules/analytics/work-pace.service.ts:219-224 | in every state of a run every stored snapshot raises its flag exactly when its own two dates exist and lie apart by the configured periods of 30 days |
| ForecastBounds.ClosedForecast | apps/api/src/modules/period/period.service.ts:534-546 | closing in a reachable state stores the dates and the flag of a forecast of the items as they then stand, each in its own field |
| DisputeOutcomes.DisputeRefuses | apps/api/src/modules/dispute/dispute.service.ts:18-49 | the refusals of a dispute by reason, period, fact, difference and photo, in order |
| DisputeOutcomes.DisputeWrites | apps/api/src/modules/dispute/dispute.service.ts:51-73 | the fact keeps its figures, an open type-2 discrepancy is added, and timers of 3 and 5 days start |
| DisputeOutcomes.ResponseWrites | apps/api/src/modules/dispute/dispute.service.ts:84-110 | an answer is dated and cancels exactly what waits for the fact |
| DisputeOutcomes.RejectionWrites | apps/api/src/modules/dispute/dispute.service.ts:113-132 | a rejected answer starts timers of 3, 7 and 14 days at the time of the answer |
| DisputeOutcomes.RecoveryWrites | apps/api/src/modules/dispute-sla/dispute-sla.service.ts:60-75 | recovery adds a job for each waiting event without one, at its time or at once, and nothing else |
| DisputeOutcomes.ForceWrites | apps/api/src/modules/dispute-sla/dispute-sla.worker.ts:88-106 | an open discrepancy of the fact is closed with the SC figure, which becomes the accepted one; without one nothing changes |
| DisputeOutcomes.JobWrites | apps/api/src/modules/dispute-sla/dispute-sla.worker.ts:23-42 | a delivered job is gone; a waiting event is marked as executed, and only those of day 5 and day 14 force |
| SyncOutcomes.ValidationCodes | apps/api/src/modules/sync/sync.service.ts:140-177 | the code of a malformed operation is that of the first condition its fields fail |
| SyncOutcomes.ValidIff | apps/api/src/modules/sync/sync.service.ts:140-177 | an operation is valid exactly with an id of 1 to 64 characters, submit_fact, a BoQ version, a known version from 0 on, a time, and a period, item and figure |
| SyncOutcomes.NewOperation | apps/api/src/modules/sync/sync.service.ts:179-251 | what becomes of a valid new operation: rejected, applied, in conflict, escalated or left pending, by address, version label and the entry of its figure |
| SyncOutcomes.FirstFigureIsApplied | apps/api/src/modules/sync/sync.service.ts:202-218 | the first figure of an item, sent on version 0, is applied and stored |
| SyncOutcomes.RepeatedOperation | apps/api/src/modules/sync/sync.service.ts:90-107 | a repeated key is answered with the status of its row and changes nothing |
| SyncOutcomes.LabelsDiffer | apps/api/src/modules/sync/sync.service.ts:192-200 | two versions have the same text only when they have the same number |
| SyncOutcomes.Resolution | apps/api/src/modules/sync/sync.service.ts:402-485 | a conflict is resolved by entering the chosen figure without a version check, escalated in a closed period, refused otherwise |
| SyncOutcomes.PhotoIs | apps/api/src/modules/sync/sync.service.ts:487-554 | a photo is stored once per key, in a period of the organization that is not closed |
| SyncOutcomes.ArchiveKeepsIff | apps/api/src/modules/sync/sync-archival.worker.ts:34-49 | a row survives the archiver exactly when it waits, is in conflict, or is at most 30 days old |
| BoqOutcomes.InitialRefuses | apps/api/src/modules/boq/boq.service.ts:28-77 | the refusals of a first version: object, active version, number or items the store does not accept, and, among accepted items, no value at all |
| BoqOutcomes.InitialWrites | apps/api/src/modules/boq/boq.service.ts:36-62 | version 1.0 is active and holds the items as asked for, each with new id, own lineage and its share of the total value |
| BoqOutcomes.RequestOutcome | apps/api/src/modules/baseline/baseline.service.ts:34-63 | a request waits when the active version lists the item, and is refused otherwise |
| BoqOutcomes.ApprovalRefuses | apps/api/src/modules/baseline/baseline.service.ts:71-170 | in every reachable state an approval fails only by request, status, object, open period, or a plan not above zero on a listed item: number and weights never stand against it |
| BoqOutcomes.ApprovalWrites | apps/api/src/modules/baseline/baseline.service.ts:94-171 | an approval appends one version, takes the active mark from the one before, marks the request and changes nothing else |
| ZeroReportOutcomes.CreateRefuses | apps/api/src/modules/zero-report/zero-report.service.ts:57-96 | a report is refused for object, version, another object, and any report that is not rejected, in order |
| ZeroReportOutcomes.EditRefuses | apps/api/src/modules/zero-report/zero-report.service.ts:118-148 | an entry is refused for object, status, unknown item, item of another version and negative volume, in order |
| ZeroReportOutcomes.EditWrites | apps/api/src/modules/zero-report/zero-report.service.ts:158-195 | an entry holds its volume and is cross-verified exactly when all three documents are there |
| ZeroReportOutcomes.SubmitRefuses | apps/api/src/modules/zero-report/zero-report.service.ts:211-245 | a report is submitted exactly from a draft with at least one entry |
| ZeroReportOutcomes.ApprovedIff | apps/api/src/modules/zero-report/zero-report.service.ts:247-310 | the latest report is approved exactly when it waits for it, no other is approved, and it covers its version, critical and heavy items cross-verified |
| ZeroReportOutcomes.FirstItemDecides | apps/api/src/modules/zero-report/zero-report.service.ts:283-298 | the first item that fails decides between a missing entry and a missing cross verification |
| RuleOutcomes.PromotedAre | tools/audit/token-rules-propose.js:66-79 | promoted are, in order, the rules without transcript with three sessions and precision 0.7 while the trend is at most -5 and the mean answer unknown or at least 0.6 |
| RuleOutcomes.DeprecatedAre | tools/audit/token-rules-propose.js:81-93 | deprecated are, in order, the rules with no hit in twenty sessions, and others with a precision below 0.4, each with its reason |
| RuleOutcomes.CountedRules | tools/audit/token-rules-count.js:44-56 | a counted rule has one session more, the added hits and positives, and as precision their ratio to four decimals, in its old place |
| RuleOutcomes.PromotedEntry | tools/audit/token-rules-apply.js:69-73 | a promoted rule starts its sessions anew and keeps hits, positives and precision |
| RuleOutcomes.AppliedLog | tools/audit/token-rules-apply.js:94-101 | the log gets one line per move, promotions first, each with its reason |

## Left out

- Controllers, guards, tokens, tenant middleware, the web application, the Prisma runtime, file storage and the cache: plumbing. Of the access checks only the organization check of the sync service is kept.
- Notifications, audit-log rows, conflict payloads and free texts: append-only or descriptive; the cascade repeats zero-pace notifications, so no idempotence is claimed for them.
- Interleaving inside one service call: the separate statements of a sync operation and of `createDispute` and `submitGpResponse` are one step each.
- Floating point and dates: volumes, weights and forecast moments are real numbers; forecast dates are neither truncated to milliseconds nor cut to a date when stored.
- DTO validation beyond the types: figures are numbers where the code takes `unknown`; a request in the sync batch keeps its field-by-field validation.
- Failed jobs and retries of the queue, and SLA events without an item, which no code creates.
- The rejected status of a zero report and the force-closed status of a period: read by the code, set by no service.
- Refreshing of the materialized view, dashboards, participants, documents, token estimates and the other audit scripts: easy or bound to input and output.
- The text of the rule files: rule sets are records, what is read back after writing is modelled as `RuleSpec.Emitted`, and null list elements, the file header and exceptions while writing are not modelled.
- PeriodServices.PeriodService.AdminCorrectFact: the cascade that the code starts without waiting is part of the same step; `CascadeSteps.InterleavedCascade` proves the result for separate transactions with other steps in between, except that steps which close a period or correct another fact meanwhile are not allowed there.
- PeriodServices.PeriodService.RecalcSnapshotCascade: all transactions run at one moment; `CascadeSteps.InterleavedCascade` has a moment for each.
- BoqChain.AcceptedWeights: exact division, where the trigger rounds NUMERIC quotients, so that thirds do not add up to one exactly in the store.
- LateClosing.LateCloseFreshIff: does not say when the snapshots stay right although the late period enters a window, because a zero row there can leave a date as it was, for example when the plan is reached.
- DisputeTimers.AnsweredDisputeHasFourteenDays: stated for type-2 disputes with one open dispute per fact; `DisputeDeadlines.PromiseKeptIff` is exact for all runs.
- Freshness.OrderedRunsStayFresh: asks that no timer forces, in a closed period, a figure over a different accepted one; `TimersKeepFresh` proves this of every run without corrections, and `ForceKeepsFreshIff` shows that the condition is exact.
