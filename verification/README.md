# Revenant Mini: a verified model

Revenant Mini is a payment-recovery pipeline. Payment events enter through a transactional
outbox, a relay delivers them to a projector that keeps payment rows, their history and
incrementally updated rollups; a detector opens incidents on slices whose failure rate rose;
failed payments become recovery cases that an engine prices, an agent proposes on, a policy gate
judges, a human may sign for, an executor carries out against a gateway that can fail or time
out, and a verifier finally attributes. Beside that run a root-cause analysis, a what-if
simulator, ranking metrics and a replay clock.

This project models that logic in Dafny and proves the claims the system makes about itself. Code
that changes rows step by step is a class whose methods are proved against a function of the old
state; the laws are then lemmas about that function, or invariants of a step system whose runs
interleave freely and crash.

## The main results

- **At least once delivery, at most once effect.** Over every run of ingests with redelivery,
  overlapping drains, handlers that fail before or after they commit, crashed drains and sweeps:
  no event takes effect twice, sent implies projected, a row leaves the queue at its fifth
  failure, and every payment's history is a legal path (`Pipeline`). A drain attempts exactly the
  first waiting rows, and no row waits for ever: whatever its handlers do, it is sent or
  dead-lettered after at most five drains for every row waiting up to it (`Relay`).
- **Confluence of a drain.** However the lanes of a drain interleave, the tables and the outcome of
  every row are those of delivering the claimed rows one by one (`Relay`).
- **Zero drift.** The incrementally updated rollups always equal the recompute, although the two
  define buckets, bands and dimensions separately (`Rollups`, `Projection`).
- **Events say what they do.** An event that is not late moves a payment exactly when its kind takes
  the payment's state, always to the state the kind names, and what every projection writes and
  leaves alone is stated for all its outcomes (`PaymentState`, `Projection`).
- **Never act twice.** For every fault schedule the executor's loop ends in SUCCEEDED exactly when
  the gateway remembers having acted, which is whether it acted unless an ingest lost its reply;
  with any number of executors at once, crashing at any await, a key has one
  row, at most three calls and at most one effect (`Executor`, `ExecutorRuns`); and over every run
  of the recovery protocol a payment has at most one action (`RecoveryGuarantees`). How the loop
  ends is read off the outcomes of its calls alone: there is a next call, up to three, exactly
  when a call threw RETRYABLE or timed out with nothing remembered (`Executor`).
- **Every action traces back** to a stored input that hashes to what was decided and that the
  policy clears again; the hash binds because canonical JSON is injective up to key order, proved
  by a parser that inverts the printer (`CanonicalJson`, `Policy`).
- **Cases close once and credit is real money** (`RecoveryGuarantees`, `RecoveryDesk`). A gate run
  abandons exactly the cases the policy finds not eligible, and one that only lacked room can be
  judged again from one hour on (`GateOutcomes`). A case can be given up exactly when no later
  capture could be credited to its actions (`SweepOutcomes`).
- **Budget safety** of the simulated agent through ledgers that are reset lazily (`WhatIf`), and
  conservation in both arms (`WhatIfArms`).
- **Root cause is never lost**: for any window every candidate has a survivor of the pruning inside
  it, with threshold^k after k drops of the excess of the name that is kept for its payments - and
  so of its own, if that name's baseline rate is not the higher one - and a tuple that occurs and
  passes the filters becomes a candidate exactly when its label can be read back and is not taken
  (`RootCause`, `SliceLabels`, `SlicePruning`, `TwinSlices`).
- **The replay stores a prefix.** Over every run of ticks, failing chunks, pauses and speed
  changes, beside a pipeline that drains, crashes and ingests the gateway's events, the log holds a
  prefix of the dataset with one row per event; a tick that holds the clock leaves it behind the
  data, and one that does not leaves it behind exactly when the next event has not come
  (`StoredPrefix`, `ReplayRuns`, `Runner`).
- **Detection skips no bucket**: over any calls, whatever throws, every bucket the cursor has passed
  was swept after the one before it; when one is swept twice and when one is never judged is
  characterised exactly (`CatchUp`). **Incidents** are opened by all five gates on the data of their
  own sweep, one per slice, never within an hour of a resolution (`Detection`). In the counts of the
  buckets read, and without a square root: when a sweep opens an incident, and when it resolves
  one (`DetectionOutcomes`).
- **AUC** by sorting and binary search is the pairwise statistic (`Auc`).

## Where the code and its words differ

- `ingestBatch` says a redelivery inside a batch cannot smuggle a second message through. It
  filters by id after the insert, so a new id that occurs twice in one batch gets two outbox rows.
  `Ingest.BatchKeepsOneRowEach` gives the exact condition; the second delivery still has no effect.
- A row without a partition key is meant to go round robin; the counter it uses is still zero when
  lanes are assigned, so all such rows share lane 0 (`Relay.LaneFor`).
- A transient failure of one row lets a later row of the same payment be refused and marked for
  good (`Relay.TransientFailureStrands`), so the order claim is about drains without one.
- A label is split on " × ". A value need not contain the separator to break it: ending in " ×" is
  enough (`SliceLabels.LabelGivesValues`, `SliceLabels.EndingBreaksLabel`).
- The simulated timeout that does act goes through the same effect as a success, so it can throw a
  TERMINAL error instead of timing out (`Gateway.Call`).
- Two tuples of different dimensions can share a label, and the second one tried is then never
  counted (`SliceLabels.TwoTuplesOneLabel`, `RootCause.WhenTupleIsCandidate`).
- "Simulated time must never run ahead of the data": the clock runs on while a batch is ingested and
  is held only when the cap bit, so after other ticks it can be ahead
  (`ReplayRuns.ClockOutrunsData`); `ReplayRuns.TickHolds` says exactly when. The sweep that follows
  reads that clock.
- A jump to an incident emits without asking whether a tick is emitting; both move the cursor, and
  the events in between are never emitted (`ReplayRuns.OverlappingEmissionsSkip`).
- A sweep that throws makes its call start over, so buckets are swept again
  (`CatchUp.ThrownCallRepeats`); one that finds the lock taken lets the cursor pass its bucket
  unjudged (`CatchUp.LockTakenSkips`).
- When the executor throws its row is said to be left RESERVED or SENT. It announces the outcome
  after settling the row, so a failed announcement leaves a settled one that is counted as skipped
  (`RecoveryDesk.FailedAnnouncementIsSkipped`).
- The abandonment sweep is stricter than the domain rule by one instant
  (`Projection.SweepWaitsOneInstant`).
- Names of the same payments are said to tie on every score. They share their counts in the window,
  not in the baseline, so the name that is dropped can have the larger excess, and the survivor less
  than the threshold of it (`TwinSlices.TwinsNeedNotTie`, `RootCause.TwinsByBaseline`).
- A rejection does not stop an executor that already holds the decision: the abandoned case gains
  an action, and what it recovers is never verified
  (`RecoveryGuarantees.AbandonedCaseGainsAction`).
- The gateway's two events can be in the log while it was told that they are not. The action is
  then ESCALATED although the payment was acted on (`Executor.ExecutionVerdict`).
- Explaining a slice is not transitive, so a survivor may explain less than the threshold of the
  widest slice it stands for (`SlicePruning.ChainLosesShare`).
- `Date.parse(after.toString())` drops milliseconds: a catch-up starts from the whole second
  (`CatchUp.CursorOf`).

## Files

| file | what it models |
|---|---|
| PaymentState, Rollups, Projector | the state machine, the rollups, the projector and the abandonment sweep |
| Ingest, Relay, Pipeline | the outbox, one drain, and the pipeline as a step system |
| Execution, Gateway, Executor, ExecutorRuns | execution rules, the gateway, one execution, and any number of them |
| Json, JsonParser, CanonicalJson, Policy | canonical JSON and the policy engine |
| RecoveryProtocol, RecoveryGuarantees, RecoveryDesk | the protocol's steps, what they guarantee, and the functions that take them |
| GateOutcomes, SweepOutcomes | what a gate run, an execution and a verification sweep leave behind |
| StrategyEngine, WhatIf, WhatIfArms | expected value, the agent's walk, the two arms |
| TupleSearch, SliceLabels, Bits, SliceCovers, SlicePruning, RootCause, TwinSlices | root-cause analysis |
| Auc | the ranking metric |
| SimulatedClock, StoredPrefix, ReplayRuns, Runner | the replay clock, what is stored of the dataset, runs of the replay, the emitter |
| Detection, DetectionOutcomes, CatchUp | the detector, what its sweeps come to in counts, and its catching up |

## Model

| member | source | states |
|---|---|---|
| PaymentState.CapturedAtMostOnce | apps/api/src/domain/payment-state.ts:59-76 | along any path of the table CAPTURED is entered at most once, and is left only for REFUNDED |
| PaymentState.TransitionMoves | apps/api/src/domain/payment-state.ts:101-137 | read off the kind of event alone: an event that is not late moves a payment exactly out of the states its kind takes, to the one state the kind names; an older event is stale, any other is refused, and a terminal state is left by nothing but the refund of a capture |
| PaymentState.TableIsByKind | apps/api/src/domain/payment-state.ts:59-76 | the table, listed by state, has exactly the edges listed by kind of event |
| Rollups.AmountBandOf | apps/api/src/domain/money.ts:111-126 | the scan over descending bounds finds the one band whose range holds the amount |
| Rollups.BucketsAgree | apps/api/src/app/analytics.ts:40-44 | the increment's bucket and the recompute's bucket are the same five minutes |
| Rollups.PairsAgree | apps/api/src/app/analytics.ts:51-61 | the pairs the increment writes are those the recompute groups by, for every dimension, bands included |
| Rollups.KeysAgree | apps/api/src/app/analytics.ts:128-141 | a payment is counted under a rollup row by the increment exactly when the recompute groups it there |
| Rollups.DeltasCommute | apps/api/src/app/analytics.ts:80-119 | two deltas can be applied in either order |
| Rollups.MatchIsRecompute | apps/api/src/app/analytics.ts:152-194 | the stored rows match row by row exactly when they are the whole recompute |
| Rollups.InsertKeepsMatch | apps/api/src/app/projector.ts:251-268 | the delta of a new payment keeps stored rows equal to the recompute |
| Rollups.UpdateKeepsMatch | apps/api/src/app/projector.ts:192-207 | the delta of a changed payment keeps stored rows equal to the recompute |
| Rollups.CellCounts | apps/api/src/app/analytics.ts:152-188 | a recomputed cell counts its payments, those captured, failed and abandoned as they stand, and the money of all, of the captured and of the rest |
| Rollups.SumFailed | apps/api/src/app/analytics.ts:152-188 | in every group failed money is gross less captured |
| Rollups.DimensionsSumToAll | apps/api/src/app/analytics.ts:51-61 | the rows of each dimension of a merchant and bucket add up to its `all` row |
| Projection.Store.ApplyRollupDelta | apps/api/src/app/analytics.ts:80-119 | one upsert per dimension changes exactly the payment's seven rows by the delta, and a zero delta none |
| Projection.Store.CreatePayment | apps/api/src/app/projector.ts:227-279 | a payload that does not parse writes nothing, one that does adds the payment and its delta |
| Projection.Store.Advance | apps/api/src/app/projector.ts:172-207 | the row update and the rollup delta of a payment that moves |
| Projection.Store.ProjectEvent | apps/api/src/app/projector.ts:74-224 | the whole transaction: marker, row, transition and rollups, rolled back when the payment is missing; AppliedMeans and OutcomeMeans say what that comes to |
| Projection.AppliedMeans | apps/api/src/app/projector.ts:115-190 | an event moves a known payment exactly when it is new, not late and its kind takes the payment's state, to the state the kind names; the row then has that state and time, one more attempt only after a failure, a failure code only of a failure, the gateway of an attempt, and one live history row |
| Projection.OutcomeMeans | apps/api/src/app/projector.ts:74-170 | exactly when an event is a repeat, creates a payment, is refused, is recorded as stale or finds no payment, and what each of these leaves behind |
| Projection.Store.FlagIdleRows | apps/api/src/app/abandonment.ts:18-45 | every idle attempted payment is flagged once, and no other |
| Projection.Store.SweepAbandoned | apps/api/src/app/abandonment.ts:18-70 | flags and deltas together: the tables are those of flagging the listed payments one by one |
| Projection.SweepWaitsOneInstant | apps/api/src/domain/payment-state.ts:162-173 | the sweep's strict comparison and the domain rule differ at exactly the idle limit |
| Projection.ProjectKeepsConsistent | apps/api/src/app/projector.ts:74-224 | after any projection the rollups equal the recompute and every payment follows its history |
| Projection.SweepKeepsConsistent | apps/api/src/app/abandonment.ts:18-70 | after any sweep the rollups equal the recompute and every payment follows its history |
| Projection.ProjectKeepsHistories | apps/api/src/app/projector.ts:127-190 | live transition rows form a path in the table to the payment's state, in order of time, with one retry per attempt index, and only a failed payment shows a failure code |
| Projection.ProjectOnlyAdds | apps/api/src/app/projector.ts:74-224 | markers and rows are only added, last event time and attempt index never decrease, the subject of a payment never changes |
| Projection.ProjectionsCommute | apps/api/src/app/projector.ts:74-224 | events about different payments can be projected in either order, with the same outcomes |
| Relay.LaneOf | apps/api/src/app/relay.ts:69-76 | the 32-bit hash loop is FNV-1a over UTF-16 units, and the lane is in range |
| Relay.LanesAreSequential | apps/api/src/app/relay.ts:117-153 | any interleaving of the lanes leaves the tables and the outcome of every row as delivering the rows one by one in id order |
| Relay.DeliveriesCommute | apps/api/src/app/relay.ts:120-153 | rows of different lanes can be delivered in either order |
| Relay.OutboxRelay.RunLanes | apps/api/src/app/relay.ts:131-153 | an arbitrary scheduler over the lanes delivers every claimed row once |
| Relay.OutboxRelay.Partition | apps/api/src/app/relay.ts:120-129 | each claimed row goes to its lane, in order, and rows without a key to lane 0 |
| Relay.OutboxRelay.BookOutcomes | apps/api/src/app/relay.ts:155-180 | every outcome is booked on its row: sent, retried, or dead-lettered at the fifth failure |
| Relay.OutboxRelay.DrainOnce | apps/api/src/app/relay.ts:96-184 | the concurrent drain computes exactly the sequential one: outbox, tables and counters; it attempts exactly the first waiting rows up to the batch size, once each, and leaves every other row as it was |
| Relay.DrainTakes | apps/api/src/app/relay.ts:96-184 | a row is attempted exactly when it is neither sent nor dead and fewer such rows than the limit stand before it; it is then sent, dead from the fifth attempt on, or still waiting, and as many are claimed as wait, up to the limit |
| Relay.DrainSends | apps/api/src/app/relay.ts:131-162 | a row taken is sent only if its event is marked, and is if its payment exists |
| Relay.DrainCounts | apps/api/src/app/relay.ts:155-184 | the counters are the numbers of rows newly sent and newly dead |
| Relay.EveryRowSettles | apps/api/src/app/relay.ts:96-184 | whatever the handlers do, a waiting row is sent or dead-lettered after five drains for every row waiting up to it, and stays so |
| Relay.DrainAccountsForEveryRow | apps/api/src/app/relay.ts:155-184 | claimed is the sum of sent, failed and dead-lettered |
| Relay.TransientFailureStrands | apps/api/src/app/relay.ts:133-150 | a transient failure lets a later row of the payment be refused for good, so the order claim must exclude it |
| Ingest.EventLog.Ingest | apps/api/src/app/ingest.ts:26-53 | an event and its outbox row are written together, a known id writes neither |
| Ingest.EventLog.InsertBatch | apps/api/src/app/ingest.ts:67-90 | the multi-row insert keeps the first of each new id and returns exactly the ids it inserted |
| Ingest.EventLog.IngestMany | apps/api/src/app/ingest.ts:67-111 | the batch writes one outbox row for every event whose id was inserted |
| Ingest.BatchKeepsCovered | apps/api/src/app/ingest.ts:67-111 | after any batch every accepted event has an outbox row and every outbox row an event |
| Ingest.BatchKeepsOneRowEach | apps/api/src/app/ingest.ts:67-111 | one outbox row per event is kept exactly when no new id occurs twice in the batch |
| Ingest.RepeatInsideBatchGetsTwoRows | apps/api/src/app/ingest.ts:67-111 | the smallest batch that gives one event two outbox rows |
| Ingest.OutboxIsWellFormed | apps/api/src/app/ingest.ts:26-111 | with one row per event the outbox is what a drain requires |
| Pipeline.StepKeepsInv | apps/api/src/app/relay.ts:96-184 | each step of ingests, overlapping drains, failing handlers, crashes and sweeps keeps the pipeline's invariant |
| Pipeline.EveryRunKeepsInv | apps/api/src/app/relay.ts:96-184 | every state of every run keeps the invariant |
| Pipeline.OneRowPerEvent | apps/api/src/app/ingest.ts:67-111 | a run gives each accepted event one outbox row exactly as long as its batches repeat no new id |
| Pipeline.DeliveryGuarantees | apps/api/src/app/relay.ts:96-184 | effects at most once, sent implies projected, never more than five attempts, dead exactly at the fifth, zero rollup drift, legal histories |
| Execution.BackoffMs | apps/api/src/domain/execution.ts:27-32 | the wait is never below half the base nor above the cap |
| Execution.BackoffDoubles | apps/api/src/domain/execution.ts:27-32 | the first wait is 100 to 200 ms, each next one twice the last to within the rounding until the cap is reached, at the fifth |
| Execution.SettleDelayMinutes | apps/api/src/domain/execution.ts:124-128 | every settle delay is 1 to 25 minutes |
| Execution.AttributionMeans | apps/api/src/domain/attribution.ts:35-44 | direct, assisted and organic in exact milliseconds |
| Execution.OwnCaptureIsDirect | apps/api/src/domain/attribution.ts:35-44 | a capture under our reference at its settle time is always direct |
| Gateway.AdmitMeans | apps/api/src/sim/gateway.ts:134-173 | the memory is asked first, and no fault has acted |
| Gateway.EffectMeans | apps/api/src/sim/gateway.ts:180-247 | an effect that goes through is one memory entry, one count and two events; one that does not is none of them, but for the events of an ingest that committed and lost its reply |
| Gateway.CallActsAtMostOnce | apps/api/src/sim/gateway.ts:134-247 | a call acts at most once and only on its own key; memory, count and events move together unless the reply of the ingest was lost, and then it throws |
| Gateway.EffectEvents | apps/api/src/sim/gateway.ts:205-243 | the two events of an effect and their times; the verdict is a capture exactly when the payment's label for this kind of action says so, and the capture is ours, whether the gateway remembers it or not |
| Gateway.CallAnswers | apps/api/src/sim/gateway.ts:134-247 | fault by fault, injected before drawn, when a call under a new key answers, times out or throws and with which class, and exactly when it is remembered |
| Gateway.KeysAreToldApart | apps/api/src/sim/gateway.ts:212-243 | two requests share an event id or a reference key only if they share the idempotency key |
| Gateway.SimulatedGateway.InjectFaults | apps/api/src/sim/gateway.ts:116-120 | queued faults are appended in order |
| Gateway.SimulatedGateway.PerformEffect | apps/api/src/sim/gateway.ts:180-247 | the effect's branches and its changes of state |
| Gateway.SimulatedGateway.ExecuteAction | apps/api/src/sim/gateway.ts:134-173 | one draw per call, injected faults first, memory before both |
| Executor.ActionStore.ReserveAction | apps/api/src/db/queries.ts:1124-1143 | a fresh key inserts a row and moves an open case to ACTING, a known key changes nothing |
| Executor.RunLoop | apps/api/src/app/executor.ts:106-143 | the retry loop is the recursive one, the row ends with its verdict, and the verdict is read off the outcomes of the calls |
| Executor.Execute | apps/api/src/app/executor.ts:65-144 | a known key sends nothing; a fresh one runs to a verdict read off its calls, which its row then tells field by field, and an open case moves to ACTING |
| Executor.ExecutionEndsAs | apps/api/src/app/executor.ts:104-143 | FAILED exactly when the last call threw TERMINAL, ESCALATED as RETRYABLE exactly when all three calls threw RETRYABLE or timed out unremembered, ESCALATED to a person exactly on a throw without a class or NEEDS_HUMAN, SUCCEEDED on an answer or a remembered timeout; and there is a next call exactly while they are in vain |
| Executor.LoopVerdict | apps/api/src/app/executor.ts:106-143 | SUCCEEDED exactly when the gateway's memory holds the key, at most three calls, one effect and two events if it acted, a reference exactly on success; events that slipped past the gateway end the loop with a person |
| Executor.ExecutionVerdict | apps/api/src/app/executor.ts:65-144 | the same for a whole execution, no call at all for escalate, and SUCCEEDED says whether the payment was acted on exactly when no ingest lost its reply |
| ExecutorRuns.StepKeepsInv | apps/api/src/app/executor.ts:65-144 | with every await a step boundary, each step of any executors keeps the ownership invariant |
| ExecutorRuns.EveryRunKeepsInv | apps/api/src/app/executor.ts:65-144 | every state of every run of concurrent and crashing executors keeps it |
| ExecutorRuns.NeverTwice | apps/api/src/app/executor.ts:65-144 | one row, at most three calls and at most one pair of events per key; a completed row says SUCCEEDED exactly when the gateway remembers having acted, and is with a person if it acted and does not |
| JsonParser.StringRoundTrip | apps/api/src/domain/policy.ts:107-114 | escaped strings read back, lone surrogates included |
| JsonParser.ParseInvertsPrint | apps/api/src/domain/policy.ts:107-114 | a parser reads back every printable value whatever follows it |
| CanonicalJson.CanonicaliseIsPrint | apps/api/src/domain/policy.ts:107-114 | the canonical text is the print of the value with its keys in order |
| CanonicalJson.ParseInvertsCanonicalise | apps/api/src/domain/policy.ts:107-114 | the canonical text determines the normal form |
| CanonicalJson.SameNormal | apps/api/src/domain/policy.ts:107-114 | two values have one normal form exactly when they are equal up to key order |
| CanonicalJson.CanonicalIsInjective | apps/api/src/domain/policy.ts:107-114 | two values have one canonical text exactly when they are equal up to key order at every depth |
| Policy.VerdictMeans | apps/api/src/domain/policy.ts:120-255 | the three verdicts and deferrability in terms of eligibility, capacity and signature |
| Policy.HashDeterminesInput | apps/api/src/domain/policy.ts:116-118 | two inputs have one hash exactly when they are one input |
| Policy.ApprovalBindsInput | apps/api/src/domain/policy.ts:291-316 | a decision approves an input exactly when it was made on it, did not refuse it, and was signed if it had to be; the action is then the one proposed and says whether a human signed it |
| RecoveryProtocol.StepKeepsInv | apps/api/src/app/policy.ts:92-335 | each step of open, propose, gate, approve, reject, execute and verify keeps the protocol's invariant |
| RecoveryProtocol.GateMayFollow | apps/api/src/db/queries.ts:977-1001 | the gate judges a case only while nothing but deferrals is on record |
| RecoveryProtocol.ApproveMayFollow | apps/api/src/app/policy.ts:193-247 | a signature answers the one request there is, once |
| RecoveryProtocol.EveryRunKeepsInv | apps/api/src/app/policy.ts:92-335 | every state of every run keeps it |
| RecoveryGuarantees.NeverActTwiceOnOnePayment | apps/api/src/db/queries.ts:1118-1199 | two actions, or two effects, on one payment are the same one |
| RecoveryGuarantees.EveryActionTraces | apps/api/src/app/policy.ts:291-335 | every action has a stored input of its own case and payment that hashes to what was decided and is cleared again, with exactly one signature where one is needed |
| RecoveryGuarantees.StoredAllowReproduces | apps/api/src/app/policy.ts:295-316 | a stored ALLOW always reproduces: it can be executed exactly while it has no action |
| RecoveryGuarantees.AbandonedCaseGainsAction | apps/api/src/http/routes/cases.ts:88-92 | a rejected case can gain an action exactly while an ALLOW from before has none; it is the case's only one, the case stays abandoned, and what it recovers is never verified |
| RecoveryGuarantees.ApprovesIsApprove | apps/api/src/domain/policy.ts:291-300 | the protocol's approval is approve() on the input the decision was made on |
| RecoveryGuarantees.ExecutorFits | apps/api/src/app/executor.ts:65-144 | what the executor's loop does is an execution of the protocol |
| RecoveryGuarantees.StepAbsorbs | apps/api/src/db/queries.ts:1352-1371 | no step changes a closed case or its verdict |
| RecoveryGuarantees.ClosedForever | apps/api/src/app/verify.ts:39-94 | RECOVERED, LOST and ABANDONED_BY_POLICY absorb over every run |
| RecoveryGuarantees.CreditIsCaptured | apps/api/src/app/verify.ts:39-65 | total credit never exceeds the money of payments ever captured |
| RecoveryGuarantees.OwnCaptureIsCredited | apps/api/src/app/verify.ts:39-65 | a capture by our own action is verified direct and credited in full |
| RecoveryGuarantees.GatewayCaptureIsCredited | apps/api/src/sim/gateway.ts:205-243 | once the capture the gateway emitted for a successful action has moved the payment, the case is verified direct and credited in full |
| RecoveryDesk.Desk.PersistDecision | apps/api/src/app/policy.ts:92-130 | every decision is recorded, and a lasting refusal closes an open case |
| RecoveryDesk.Desk.GateOpenCases | apps/api/src/app/policy.ts:145-179 | the loop records one judgement per candidate and counts each verdict; GateOutcomes says which cases that abandons |
| RecoveryDesk.GateRunKeepsInv | apps/api/src/app/policy.ts:145-179 | each turn of the gate's loop is a gate step of the protocol |
| RecoveryDesk.GateCounts | apps/api/src/app/policy.ts:145-179 | evaluated is allow, deny and require-approval together, and deferrals are refusals |
| GateOutcomes.GateRunMeans | apps/api/src/app/policy.ts:92-179 | a run abandons exactly the cases it finds not eligible, leaves every other case as it was, and adds one record per case judged, saying what the policy says of it |
| GateOutcomes.JudgedAgain | apps/api/src/db/queries.ts:975-1001 | a case judged is abandoned exactly when it is not eligible, and can be judged again exactly when it only lacked room, from one hour on |
| GateOutcomes.TallyMeans | apps/api/src/app/policy.ts:145-179 | each counter is the number of cases refused for good, put off, sent for a signature and allowed |
| GateOutcomes.SignatureMeans | apps/api/src/app/policy.ts:189-249 | what a signature comes to: abandoned when not eligible, put off with the request still pending when there is no room, allowed otherwise |
| GateOutcomes.RejectMeans | apps/api/src/app/policy.ts:251-271 | a rejected case is abandoned and no judge, signature, rejection or verification can follow |
| SweepOutcomes.ExecuteLeaves | apps/api/src/app/executor.ts:65-144 | an execution leaves one row for its decision, with a reference exactly on success, moves an open case on and nothing else |
| SweepOutcomes.RepeatedRunReplays | apps/api/src/app/policy.ts:291-335 | handing the loop decisions that have their action already sends nothing and counts each as replayed |
| SweepOutcomes.CapturedMeans | apps/api/src/app/verify.ts:41-65 | a captured case is organic, assisted or direct by the milliseconds between action and capture and by the reference, and credited in full unless organic |
| SweepOutcomes.JudgedAgainstTheAction | apps/api/src/app/verify.ts:41-45 | the action a capture is judged against is the case's successful one, and none exactly when its action did not succeed |
| SweepOutcomes.GivingUpForgoesNothing | apps/api/src/app/verify.ts:67-92 | once its actions are settled a case under way can be judged lost exactly when no later capture could be credited to them |
| SweepOutcomes.UnactedCaseIsGivenUp | apps/api/src/app/verify.ts:67-74 | a case left open has no action to credit, and is given up exactly when the strategy was to do nothing and six hours have passed |
| SweepOutcomes.FirstVerdictStands | apps/api/src/db/queries.ts:1352-1371 | a verdict on record stands, and a case without one gets the first the sweep has for it and is closed by it if live |
| SweepOutcomes.CountsAreVerdicts | apps/api/src/app/verify.ts:30-92 | each counter is the number of cases that got such a verdict in the sweep |
| SweepOutcomes.OrganicIsMoney | apps/api/src/app/verify.ts:60-65 | the organic total is the money of the organic verdicts added |
| RecoveryDesk.Desk.ApproveOne | apps/api/src/app/policy.ts:189-249 | a signature takes effect exactly on a pending request of an open case with something to do; otherwise nothing but a refusal is recorded |
| RecoveryDesk.Desk.RejectOne | apps/api/src/app/policy.ts:251-271 | a live case is abandoned with its refusal on record, any other is left alone |
| RecoveryDesk.Desk.ExecuteStored | apps/api/src/app/policy.ts:295-331 | a stored decision is executed only if its own input hashes and approves as it did, and a decision with an action is replayed |
| RecoveryDesk.Desk.ExecuteApproved | apps/api/src/app/policy.ts:291-335 | the loop executes each pending decision in turn and counts what became of it; one that throws does not stop the rest |
| RecoveryDesk.ExecuteRunKeepsInv | apps/api/src/app/policy.ts:291-335 | over pending decisions every turn is an execute step of the protocol, also when the executor throws, before or after it settled its row |
| RecoveryDesk.ExecuteCounts | apps/api/src/app/policy.ts:273-335 | nothing is replayed, every decision is executed or skipped, and an outcome counter falls short of the rows gained with its status by exactly the executors that settled their row and then threw |
| RecoveryDesk.CountersAreRowsGained | apps/api/src/app/policy.ts:316-331 | the counters are the rows gained exactly when no executor threw after settling its row |
| RecoveryDesk.FailedAnnouncementIsSkipped | apps/api/src/app/executor.ts:83-100 | an action can be SUCCEEDED, with the gateway having acted, and its decision counted as skipped |
| RecoveryDesk.ExecuteReserves | apps/api/src/app/policy.ts:291-335 | a run adds an action exactly for the decisions whose row was reserved, and an effect exactly where the gateway acted |
| RecoveryDesk.Desk.RecordVerification | apps/api/src/db/queries.ts:1352-1371 | the first verdict on a case is written and closes it if live, a second changes nothing |
| RecoveryDesk.Desk.VerifyOutcomes | apps/api/src/app/verify.ts:30-92 | captured cases are attributed from capture and action and credited by that, lost ones credit nothing; each is recorded once and the totals count what was new |
| RecoveryDesk.SweepRecordsSteps | apps/api/src/app/verify.ts:41-81 | what the sweep records for the cases its queries list are the outcomes of the protocol's verify steps |
| RecoveryDesk.VerifyRunKeepsInv | apps/api/src/app/verify.ts:41-92 | a sweep, or any beginning of one, is a run of verify steps, each still enabled when its turn comes |
| RecoveryDesk.TotalsAreCredit | apps/api/src/app/verify.ts:39-65 | what a sweep reports as credited is what it added to the credit on record |
| StrategyEngine.Choose | apps/api/src/domain/strategy.ts:104-181 | the loop finds the first strict maximum over available acting options, do_nothing unless one clears zero |
| StrategyEngine.FirstBestIsUnique | apps/api/src/domain/strategy.ts:173-179 | there is one such option |
| StrategyEngine.PriceMeans | apps/api/src/domain/strategy.ts:51-154 | exactly when an option can happen, and then its value: the expected money to the nearest paisa, less the cost of the attempt and of asking the customer |
| StrategyEngine.ProbabilityMeans | apps/api/src/domain/strategy.ts:104-125 | the probability of an option is its own odds, or those in the case probability's proportion to the best of them, held between 1% and 95% |
| StrategyEngine.BestOddsAgree | apps/api/src/domain/strategy.ts:107-121 | after rescaling the best of the odds is the case's own probability, clamped |
| StrategyEngine.ReconcileNeverLoses | apps/api/src/domain/agent.ts:145-166 | whatever is proposed, do_nothing exactly when the engine does, else an available option that makes money |
| StrategyEngine.ReconcileFollows | apps/api/src/domain/agent.ts:145-166 | the model's choice is followed exactly when it acts where that is available and makes money, or declines where nothing does, and otherwise the engine's is |
| WhatIf.JudgeMeans | apps/api/src/domain/whatif.ts:150-206 | a row is denied for good exactly when the engine acts and its merchant is paused or its attempt index above 3, put off exactly when only room is missing, and an attempt is signed exactly when it is large or retries into an incident |
| WhatIf.OpenedFigures | apps/api/src/domain/whatif.ts:176-180 | the lazy resets leave exactly the attempts of the row's own day and hour |
| WhatIf.WalkRowKeeps | apps/api/src/domain/whatif.ts:176-213 | one row keeps the ledgers right and the budgets safe |
| WhatIf.BudgetSafety | apps/api/src/domain/whatif.ts:150-216 | on every day and in every hour of any chronological replay each merchant stays within its budgets and the blast radius |
| WhatIfArms.Arm.Record | apps/api/src/domain/whatif.ts:80-103 | one row counted in the arm, its segment and its strategy |
| WhatIfArms.RunBaseline | apps/api/src/domain/whatif.ts:129-133 | the blind arm over any rows |
| WhatIfArms.GateRow | apps/api/src/domain/whatif.ts:182-213 | a row against its merchant's ledger, charged only when attempted |
| WhatIfArms.DecideRow | apps/api/src/domain/whatif.ts:154-213 | one row of the agent arm |
| WhatIfArms.RunAgent | apps/api/src/domain/whatif.ts:150-216 | the agent arm is the tally of the walk's fates |
| WhatIfArms.BaselineConserves | apps/api/src/domain/whatif.ts:129-133 | every row is attempted once, and the segments and strategies add up |
| WhatIfArms.AgentConserves | apps/api/src/domain/whatif.ts:150-216 | failed is attempted, left alone, denied and deferred together, and the segments and strategies add up |
| WhatIfArms.AgentTotals | apps/api/src/domain/whatif.ts:150-216 | the arm's attempts, costs, recoveries, revenue, signatures and refusals are the sums of what each row's fate contributes, a recovery by the label of the strategy attempted |
| WhatIfArms.SegmentTotals | apps/api/src/domain/whatif.ts:80-103 | the figures of the international segment are the same sums over the rows from abroad |
| WhatIfArms.StrategyTotals | apps/api/src/domain/whatif.ts:80-103 | the tally of each strategy is the same sums over the attempts made by it |
| WhatIfArms.RetryingAllIsBaseline | apps/api/src/domain/whatif.ts:110-133 | an agent that retries every row at the blind price ends with the money, segments and tallies of the blind arm |
| WhatIfArms.Compare | apps/api/src/domain/whatif.ts:239-261 | the arms never diverge; avoided interventions are the declined ones |
| Auc.LowerBound | apps/api/src/ml/logistic.ts:157-166 | everything before is below, everything from there on is not |
| Auc.UpperBound | apps/api/src/ml/logistic.ts:168-177 | everything before is at most x, everything from there on is above |
| Auc.Compute | apps/api/src/ml/logistic.ts:140-155 | sorting and two searches give the pairwise Mann-Whitney statistic, and none when a class is empty |
| Auc.SearchCounts | apps/api/src/ml/logistic.ts:149-153 | strictly below counts one, ties half |
| Auc.AucIsProbability | apps/api/src/ml/logistic.ts:140-155 | it lies in [0, 1] |
| Auc.AucIgnoresScale | apps/api/src/ml/logistic.ts:136-139 | it is unchanged by any strictly increasing map of the scores |
| Auc.AucSwaps | apps/api/src/ml/logistic.ts:136-139 | swapping the labels gives its complement |
| TupleSearch.Enumerator.Walk | apps/api/src/domain/rca.ts:119-127 | the backtracking restores its list and appends exactly the extensions |
| TupleSearch.EveryTupleOnce | apps/api/src/domain/rca.ts:117-130 | every non-empty tuple of at most max dimensions, exactly once |
| SliceLabels.KeyOf | apps/api/src/domain/rca.ts:132-140 | the joined parts, or none when a value is missing |
| SliceLabels.SplitInvertsJoin | apps/api/src/domain/rca.ts:272 | splitting gives the parts back exactly when no separator can be read into them |
| SliceLabels.CleanBeforeMeans | apps/api/src/domain/rca.ts:272 | that is: no separator inside, and no ending in its first two characters |
| SliceLabels.LabelGivesValues | apps/api/src/domain/rca.ts:132-140 | a label gives its values back exactly when its parts are clean |
| SliceLabels.FirstValuesTell | apps/api/src/domain/rca.ts:272 | the first values read back, which are the ones counted, are the tuple's exactly when its parts are clean |
| SliceLabels.LabelSplits | apps/api/src/domain/rca.ts:272 | a label never splits into fewer parts than it was joined from |
| SliceLabels.EndingBreaksLabel | apps/api/src/domain/rca.ts:132-140 | a value that only ends in " ×" is read back wrongly |
| SliceLabels.TwoTuplesOneLabel | apps/api/src/domain/rca.ts:132-140 | a tuple of one dimension and one of two with the same label |
| Bits.SetBit | apps/api/src/domain/rca.ts:216 | setting a bit sets that bit alone |
| Bits.MissingBit | apps/api/src/domain/rca.ts:374 | what is in one word and not in the other, bit by bit |
| Bits.SomeBit | apps/api/src/domain/rca.ts:374 | a word that is not zero has a bit |
| SliceCovers.Covers | apps/api/src/domain/rca.ts:372-377 | the word-wise test is inclusion of the covers |
| SliceCovers.AttemptDimensions | apps/api/src/domain/rca.ts:186-193 | attempts are counted on the dimensions that successes have |
| SliceCovers.Count | apps/api/src/domain/rca.ts:181-234 | attempts, failures and cover are those of the sets of matching observations |
| SlicePruning.Collapse | apps/api/src/domain/rca.ts:342-353 | one candidate per set of payments, in the order the sets first occur |
| SlicePruning.BestNamedMeans | apps/api/src/domain/rca.ts:342-353 | it is the first of the fewest absence markers and then of the fewest dimensions |
| SlicePruning.Prune | apps/api/src/domain/rca.ts:379-387 | the slices no slice inside them explains, in order |
| SlicePruning.SurvivorInside | apps/api/src/domain/rca.ts:379-387 | every slice has a survivor inside it, after k drops with fewer attempts and at least threshold^k of its excess |
| SlicePruning.SomethingSurvives | apps/api/src/domain/rca.ts:379-387 | the survivors are not empty unless the candidates were |
| SlicePruning.ChainLosesShare | apps/api/src/domain/rca.ts:379-387 | explaining is not transitive |
| RootCause.LabelsDiffer | apps/api/src/domain/rca.ts:261-270 | in a window no separator can be read into, two tuples share a label only if they are one tuple |
| RootCause.PassesMeans | apps/api/src/domain/rca.ts:237-310 | the filters in counts: enough attempts, some failure, not the one slice there is, and more failures than the shrunk baseline would give, multiplied out |
| RootCause.Candidates | apps/api/src/domain/rca.ts:252-333 | for any window, the candidates are those of the labels that occur and, read back under the first dimensions they occur under, pass the filters: each once, with its counts, and no others |
| RootCause.WhenTupleIsCandidate | apps/api/src/domain/rca.ts:252-290 | a tuple that occurs and passes becomes a candidate exactly when its label gives its values back and occurs under no dimensions tried before |
| RootCause.EveryTupleIsCandidate | apps/api/src/domain/rca.ts:252-333 | in a window no separator can be read into, every tuple that occurs and passes becomes a candidate |
| RootCause.Analyse | apps/api/src/domain/rca.ts:252-387 | for any window, every candidate has a survivor inside it, after d drops with d fewer attempts at least and threshold^d of the excess of the name kept for the candidate's payments |
| RootCause.TwinsByBaseline | apps/api/src/domain/rca.ts:237-240 | of two names of the same payments the one has at least the other's excess exactly when its shrunk baseline rate is not above the other's |
| RootCause.BoundCarries | apps/api/src/domain/rca.ts:342-387 | and then the bound carries over from the name that is kept to the candidate |
| TwinSlices.BankFallsShort | apps/api/src/domain/rca.ts:237-240 | a window and a baseline where two names of the same payments pass the filters and one has under four fifths of the other's excess |
| TwinSlices.TwinsNeedNotTie | apps/api/src/domain/rca.ts:335-387 | on that input the smaller one is kept, nothing explains it, and it accounts for the other neither without a drop nor with one |
| SimulatedClock.InWindow | apps/api/src/sim/clock.ts:60-65 | simulated time stays in its window |
| SimulatedClock.Monotone | apps/api/src/sim/clock.ts:60-65 | and does not run backwards |
| SimulatedClock.ChangesKeepTheInstant | apps/api/src/sim/clock.ts:71-95 | starting, pausing and changing speed lose no simulated time and gain none, and a finished clock does not start |
| SimulatedClock.JumpIsClamped | apps/api/src/sim/clock.ts:98-105 | a jump lands inside the window and does not start or stop the clock |
| SimulatedClock.SimClock.Start | apps/api/src/sim/clock.ts:71-77 | the fields after a start |
| SimulatedClock.SimClock.Pause | apps/api/src/sim/clock.ts:79-83 | the fields after a pause |
| SimulatedClock.SimClock.SetSpeed | apps/api/src/sim/clock.ts:86-95 | re-anchored at the current reading; a speed that is not positive is refused |
| SimulatedClock.SimClock.JumpTo | apps/api/src/sim/clock.ts:98-105 | re-anchored at the instant, clamped |
| SimulatedClock.SimClock.Reset | apps/api/src/sim/clock.ts:107-112 | stopped, at the start of the window |
| StoredPrefix.ChunkExtends | apps/api/src/sim/runner.ts:327-331 | a chunk, ingested again or not, extends what is stored of the dataset to its end and repeats nothing, whatever the relay did to the rows and whatever else the log holds |
| StoredPrefix.ForeignKeeps | apps/api/src/sim/gateway.ts:233-236 | events that are not the dataset's, such as the gateway's, leave what is stored of it |
| StoredPrefix.BookingKeeps | apps/api/src/app/relay.ts:155-180 | so does booking deliveries on outbox rows |
| ReplayRuns.StepKeepsInv | apps/api/src/sim/runner.ts:269-340 | each step of ticks, failing chunks, clock changes and the pipeline beside them keeps the replay's invariant |
| ReplayRuns.EveryReplayKeepsInv | apps/api/src/sim/runner.ts:269-340 | every state of every replay keeps it, and with it the pipeline's own |
| ReplayRuns.ReplayStoresAPrefix | apps/api/src/sim/runner.ts:312-340 | in every state of every replay the log holds a prefix of the dataset, in order, one outbox row each, reaching at least to the cursor and, while no chunk has failed, ending with the batch under way |
| ReplayRuns.OverlappingEmissionsSkip | apps/api/src/sim/runner.ts:236-259 | two emissions at once leave the cursor within what is stored exactly when one of them had nothing to emit |
| ReplayRuns.TickHolds | apps/api/src/sim/runner.ts:269-278 | at the end of a tick in any such state: held exactly when the cap bit with more due, and then not ahead of the data; else everything up to the instant read is stored, and the clock is not ahead exactly when the next event has not come by now |
| ReplayRuns.ClockOutrunsData | apps/api/src/sim/runner.ts:272-276 | a tick that holds nothing and takes one real millisecond leaves the clock ahead of an event at speed 60 |
| ReplayRuns.ClockIsContinuous | apps/api/src/sim/clock.ts:60-105 | no step but a hold changes what the clock reads, a hold only sets it back, and it stays in its window |
| Runner.Replay.IngestChunks | apps/api/src/sim/runner.ts:327-331 | the chunks up to the one that throws are steps of the replay, and it fails exactly when a chunk of this batch throws |
| Runner.Replay.EmitBatch | apps/api/src/sim/runner.ts:312-340 | the cursor moves over the whole batch unless one of its chunks throws, and the clock is to be held, at the last event, exactly when the cap bit with more due |
| Runner.Replay.Tick | apps/api/src/sim/runner.ts:269-278 | a tick that nothing interrupts is a run of the replay's steps; when it holds the clock every strictly earlier event is stored, when it does not every event up to the instant it read is, and the clock is not ahead exactly when the next event has not come |
| Detection.Sum | apps/api/src/domain/detector.ts:96-104 | the accumulators are the totals |
| Detection.GapAndPastAreIgnored | apps/api/src/domain/detector.ts:151-180 | nothing in the gap or before the baseline moves a verdict |
| Detection.Detector.ResolveOpen | apps/api/src/app/detection.ts:64-92 | open incidents whose series is back are resolved, and what stays open is known; SweepResolves says when |
| Detection.Detector.JudgeSlice | apps/api/src/app/detection.ts:96-119 | a slice opens exactly when nothing is open or recently resolved on it and its verdict is anomalous, and the index on open incidents is never violated |
| Detection.Detector.Sweep | apps/api/src/app/detection.ts:45-130 | a sweep resolves first, then opens; without the lock it does nothing |
| Detection.SweepKeeps | apps/api/src/app/detection.ts:45-145 | one sweep keeps what IncidentsWellKept says |
| Detection.IncidentsWellKept | apps/api/src/app/detection.ts:45-198 | over any sweeps, and so over any catch-ups: at most one open incident per slice, all five gates at every opening, and more than an hour between resolution and reopening |
| Detection.VerdictsAreJudged | apps/api/src/app/detection.ts:94-119 | every incident's verdict is what a sweep that had the lock judged of that slice, on the series it read when the incident opened |
| Detection.SweepJudges | apps/api/src/app/detection.ts:94-119 | a sweep adds an incident on a slice exactly when it has the lock, the slice is active and not shut, and the verdict on the series it reads is anomalous |
| CatchUp.Run | apps/api/src/app/detection.ts:226-263 | one sweep per bucket from the cursor, as many as are ready and allowed or until a sweep throws |
| CatchUp.DetectionLoop.RunDetection | apps/api/src/sim/runner.ts:362-399 | once a bucket has passed the sweeps go on from the last cursor, which a call that throws leaves where it was |
| CatchUp.EveryBucketInOrder | apps/api/src/app/detection.ts:226-263 | over any calls, whatever throws, every five-minute bucket from the start to the cursor was swept, and none before the one it follows |
| CatchUp.RepeatsAfterThrow | apps/api/src/sim/runner.ts:368-399 | no bucket is swept twice exactly when no call sweeps after one that threw with sweeps committed |
| CatchUp.ThrownCallRepeats | apps/api/src/sim/runner.ts:368-399 | the smallest run that sweeps a bucket twice |
| CatchUp.NeverPastReady | apps/api/src/app/detection.ts:233-263 | no call sweeps past what was ready for it, and none that returns stops short of it but at its limit |
| CatchUp.OnlyLockedSweepsJudge | apps/api/src/app/detection.ts:55-63 | the incidents of a run are those of the sweeps that got the lock |
| CatchUp.JudgedWhenLocked | apps/api/src/app/detection.ts:55-119 | an incident is opened in a bucket exactly when one of its sweeps has the lock and finds an active slice that is not shut and passes all five gates |
| CatchUp.LockTakenSkips | apps/api/src/app/detection.ts:55-63 | sweeps that find the lock taken move the cursor past their buckets and nobody judges them |
| DetectionOutcomes.ResolvedMeans | apps/api/src/domain/detector.ts:258-276 | a series is back exactly when its last buckets are there, some carries traffic, and each that does has fewer failures than the baseline rate and the tolerated lift come to |
| DetectionOutcomes.SweepResolves | apps/api/src/app/detection.ts:45-92 | a sweep with the lock resolves an open incident exactly when its slice is back, as of the time swept, and changes no other incident |
| DetectionOutcomes.AnomalousMeans | apps/api/src/domain/detector.ts:151-256 | the five gates pass exactly when the window stands out in counts, the deviation as a matter of squares |
| DetectionOutcomes.SweepOpensMeans | apps/api/src/app/detection.ts:94-145 | a sweep adds an incident on a slice exactly when it has the lock, the slice is active and stands out, and its earlier incidents have been over for more than an hour |
| DetectionOutcomes.AddedMeans | apps/api/src/app/detection.ts:147-198 | an incident added is open as of the time swept, with the failing share of the baseline its sweep read |

## Left out

What the model assumes:

- A transaction is one atomic step, and each function of the recovery protocol is one as well; `approveCase` in fact reads the earlier decisions and persists later without a lock, so overlapping approvals of one case are outside.
- Row ids drawn from sequences are positions; decision ids, which carry wall-clock order, are positions in the table.
- SHA-256 is an injective symbol, and so are the twelve digits of it in a gateway reference and the pair of 32-bit hashes that signs a set of matching observations.
- The JSON text of a finite number is taken as its decimal token; distinct numbers have distinct tokens, and negative zero prints as zero. `undefined` is not a value of the model.
- Probabilities, rates, speeds and z-scores are exact reals, money and milliseconds whole numbers; floating-point rounding is not modelled, and the square root is a parameter.
- The gateway is an external system that outlives a crashed executor; the simulated one loses its memory with its process.
- Claims about the order of a payment's events are about one drainer without transient handler failures.

What a member states more weakly than the code does or narrows:

- Projection.Store.CreatePayment: does not model the columns `currency` and `threeds_required`, nor foreign keys and the range of `created_at`, whose violation is a failing handler in the pipeline.
- Projection.Store.Advance: failure codes are taken as they come, without the upper-casing that reads them.
- RecoveryProtocol.OpenCase: the abandoned flag of an attempted payment and the simulated time of the sweep are left to the caller.
- RecoveryProtocol.Execute: what the executor and gateway did is any status that agrees with what the gateway remembers; ExecutorFits and ExecutorRuns say why that is enough.
- RecoveryDesk.Desk.GateOpenCases: the candidates and the inputs built from other tables are parameters, and the limit of the query is not modelled.
- RecoveryDesk.Desk.VerifyOutcomes: the rows its two queries list are parameters, without their limits; SweepRecordsSteps says what is asked of them.
- RecoveryDesk.Desk.ExecuteApproved: the pending decisions, in the order of the query, and the executor's answers are parameters; nothing else runs between its turns.
- CatchUp.EveryBucketInOrder: not for a start within the first second of 1970, whose text reads back as zero.
- WhatIf.BudgetSafety: for timestamps with at least a date and an hour; the ledgers of the live gate are not claimed, since a gate run judges its whole batch before any of it executes.
- Auc.Compute: scores are reals, so NaN is not a score.
- ReplayRuns.ReplayStoresAPrefix: what the pipeline ingests beside the replay carries ids outside the dataset; `reset` and `jumpToIncident` are not steps of a replay, and OverlappingEmissionsSkip says what a jump can do.

What the repository does that is not here:

- HTTP routes, server-sent events, notifications, the web application, configuration, logging and shutdown.
- The LLM call, its prompts and every narrative; a proposal is an arbitrary strategy or none.
- Training, calibration, feature encoding and the generator; a score is a parameter.
- Reporting queries, the drift query, audit pages and detection scoring.
- The ranking of surviving hypotheses by confidence and the cut to the first `maxHypotheses`, which drops survivors; the counters of `openCases`.
- Smoothed rates of a verdict, which are reported and decide nothing.
