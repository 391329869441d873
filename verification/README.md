# A verified model of the Koiné lease broker

Koiné is an event-sourced job broker. Every job is a stream of versioned events; a worker claims a job
under a lease, renews the lease with heartbeats, and acknowledges it; a sweeper retires leases that ran
out. Each change is an append under an expected version, and a dispatch index kept beside the log says
what can be claimed. This project models that broker in Dafny and proves what it keeps over every
interleaving of its operations. It also models the Postgres side: the dispatch table that can be
rebuilt from the log, and the outbox relay that delivers every event to a sink.

`dafny verify dfyconfig.toml` checks the whole project.

## How the model is laid out

| file | content |
|---|---|
| Types.dfy, Words.dfy | ids, time, events, envelopes, errors; 64-bit words as bounded naturals with xor, shift and wrapping product |
| Retry.dfy, Job.dfy, Lineage.dfy | retry policy and jitter, the job aggregate and its commands, envelope construction |
| Reading.dfy | which streams are accepted and what job they describe, read off the events without folding |
| Store.dfy, Dispatcher.dfy | the in-memory store and dispatcher: pure step functions, and classes whose methods are proved equal to them |
| Consistency.dfy | index against log, and what each append, claim and retirement does to both |
| UseCases.dfy | enqueue, start, acknowledge, cancel: load, decide, append |
| Broker.dfy, Deadlines.dfy | the state machine: all operations as steps, commands split into load and append; what the index holds beyond the log |
| Serializability.dfy, Fences.dfy, Regularity.dfy, Fencing.dfy, Drain.dfy | theorems over whole runs |
| Meaning.dfy | index, claims, retries and parking over whole runs, told in recorded events |
| Sweep.dfy, Recovery.dfy | the sweep loop, and recovery from crashed workers |
| Rebuild.dfy, Outbox.dfy | the Postgres dispatch table and outbox |

A run is a sequence of actions. An action carries everything the code obtains from outside: the clock
reading, fresh ids, the jitter seed, and which entry a scan of an unordered map returned. `Legal` says
the sequence can happen, `After` is the state it reaches. A worker command is two actions, `Begin`
(load the stream) and `Complete` (decide on what was loaded and append at its version), so that any
other action can come in between. `RawAppend` lets an arbitrary caller of the store append any batch;
theorems that need the batches to come from the use cases say `AllUseCases`.

Four promises of the outside world are stated as hypotheses where a theorem needs them: a claim gets a
lease id that was never granted (`FreshLeases`), the event ids a step mints are new and distinct
(`AllFreshIds`), the clock does not run backwards and requested ttls are clamped (`Clocked`), and a single
relay runs (one claim at a time in `Outbox.Enabled`).

The fold, the index and the claim order are each stated a second time in terms of recorded events alone.
`Reading.FoldMeaning` says which streams fold, and that the job is what the last events that settled its
state, its grant, its attempt and its payload say. `Meaning.IndexReadsLog` and `Meaning.ClaimHandsOut` carry
that to the index and to what a worker is handed.

## Where the code does something else than its documentation says

- A heartbeat lives only in the index. Every append re-projects the job from its events, so a start or a
  late-ack record sets the deadline back to the one recorded at the claim, and a sweep can then retire a
  lease whose heartbeat was accepted beyond that moment. `HeartbeatFence` holds while no such append
  intervenes, `HeartbeatFate` gives the deadline over any run, and `ForgottenHeartbeat` is a run in which
  a lease is lost that way. In docs/formal/lease_protocol.tla both `Start` and `LateAck` leave the deadline
  unchanged; the code is followed.
- An accepted heartbeat sets the deadline to now plus ttl even when that is sooner (`HeartbeatAccepted`,
  `ShortenedHeartbeat`).
- Acknowledgements and starts are not checked against the deadline, only against state, lease and worker.
- A failure report from the worker that does hold the lease is recorded as a late-ack conflict when the
  retry time cannot be represented. `AckConflictsIffStale` gives the exact condition,
  `CurrentFailureConflicts` a case.
- The backoff ceiling is base times two to the power attempt minus one, capped, except that the exponent
  stops at 31. `CeilingExact` says for which policies and attempts that shows, `CeilingShortfall` is a case.

## Model

| member | source | states |
|---|---|---|
| `Retry.DelayBound` | crates/koine-domain/src/retry.rs:46-62 | parks exactly at exhaustion; otherwise the delay exceeds neither base times 2^(n-1) nor the cap, whatever saturates |
| `Retry.CeilingMonotone` | crates/koine-domain/src/retry.rs:46-57 | the jitter interval never shrinks from one attempt to a later one |
| `Retry.CeilingExact` | crates/koine-domain/src/retry.rs:46-57 | for accepted policies the interval ends at the documented bound if and only if attempt, base and cap avoid the exponent clamp |
| `Retry.CeilingExactForUsualBases` | crates/koine-domain/src/retry.rs:46-57 | base delays of zero or at least two milliseconds are never affected by the clamp |
| `Retry.CeilingShortfall` | crates/koine-domain/src/retry.rs:46-57 | an accepted policy and attempt for which the documented bound is not reached |
| `Retry.SaneDelay` | crates/koine-application/src/use_cases/enqueue.rs:29-47 | accepted policies never draw a delay over thirty days, and every such delay is a representable time delta |
| `Words.XorBit` | crates/koine-domain/src/retry.rs:58-71 | each bit of the modelled exclusive or is set exactly where one operand's is |
| `Retry.ShrDivides` | crates/koine-domain/src/retry.rs:66-71 | the modelled right shift divides by the power of two |
| `Retry.SplitMixBijective` | crates/koine-domain/src/retry.rs:66-71 | the seed mixer is a bijection on 64-bit words, with a two-sided inverse |
| `Retry.JitterCollision` | crates/koine-domain/src/retry.rs:58-61 | two seed and attempt pairs give the same mixed word exactly when their xors agree |
| `Retry.JitterUniform` | crates/koine-domain/src/retry.rs:58-61 | how many of the 2^64 seeds draw a given delay, for every delay of the interval |
| `Retry.JitterFair` | crates/koine-domain/src/retry.rs:58-61 | any two delays of the interval are drawn by equally many seeds, up to one |
| `Retry.JitterReaches` | crates/koine-domain/src/retry.rs:58-61 | every delay of the interval, both ends included, is drawn by some seed |
| `Jobs.Aggregate.Transition` | crates/koine-domain/src/job.rs:184-279 | the transition table run on fields: accepts the same pairs of state and event as the table function, updates attempt and payload when it accepts and nothing when it refuses |
| `Jobs.Aggregate.ApplyEvent` | crates/koine-domain/src/job.rs:180-283 | applying in place is the pure step; a rejected event leaves every field as it was |
| `Jobs.FromEvents` | crates/koine-domain/src/job.rs:126-170 | the folding loop computes the recursive fold, errors included |
| `Jobs.FoldFacts` | crates/koine-domain/src/job.rs:126-170 | a stream that folds numbers its envelopes 1, 2, 3 and so on; the job's version is its length and its id the first envelope's |
| `Jobs.FoldRejectsEarly` | crates/koine-domain/src/job.rs:149-168 | the first rejected prefix decides the error of every longer stream |
| `Jobs.PrefixFolds` | crates/koine-domain/src/job.rs:126-170 | every non-empty prefix of a stream that folds also folds |
| `Jobs.FoldExtend` | crates/koine-domain/src/job.rs:126-170 | folding a continuation is applying its events to the folded prefix |
| `Jobs.RetryNeverErrsIffFits` | crates/koine-domain/src/job.rs:437-460 | the retry decision is free of errors for every seed if and only if the longest delay it can draw fits the clock |
| `Jobs.SanePoliciesFit` | crates/koine-domain/src/job.rs:437-460 | accepted policies fit at every clock reading up to thirty days before the last representable instant |
| `Jobs.RetryIsDue` | crates/koine-domain/src/job.rs:437-460 | the retry decision parks exactly at exhaustion and otherwise retries at now plus the drawn delay; it errs only where that instant or delay cannot be represented |
| `Jobs.DueInBackoff` | crates/koine-domain/src/job.rs:437-460 | a scheduled retry carries its attempt number and lies between now and now plus the smaller of base times 2^(n-1) and the cap |
| `Jobs.RetryReaches` | crates/koine-domain/src/job.rs:437-460 | every millisecond of the interval, both ends included, is the retry time of some seed |
| `Jobs.RetryFair` | crates/koine-domain/src/job.rs:437-460 | any two retry times of the interval are drawn by equally many seeds, up to one |
| `Reading.FoldMeaning` | crates/koine-domain/src/job.rs:126-283 | a stream folds if and only if it opens with an enqueued event and each later event has the next version and may follow the last one that settled the state; the job is then read off: queue, priority, policy from the opening, state, lease, attempt and payload from the last events that settled them |
| `Reading.FoldError` | crates/koine-domain/src/job.rs:126-170 | the first event that does not fit decides the error: the version gap with both numbers, else the illegal transition |
| `Reading.FoldOpeningError` | crates/koine-domain/src/job.rs:126-147 | the error of a stream that does not open: no enqueued event first, else a version other than one |
| `Reading.FinalIffRecorded` | crates/koine-domain/src/job.rs:180-283 | a job has succeeded if and only if its stream holds a success, and is cancelled if and only if it holds a cancellation |
| `Lineages.Wrap` | crates/koine-application/src/lineage.rs:24-57 | wrapped events continue the stream's numbering and carry exactly the given events, ids, lineage, recording time and schema version |
| `Lineages.WrapEvents` | crates/koine-application/src/lineage.rs:24-57 | the loop produces that batch |
| `Stores.InMemoryEventStore.AppendLocked` | crates/koine-store-memory/src/store.rs:64-100 | version check, batch check and fold in this order; success appends and re-projects, each error leaves the store unchanged |
| `Stores.InMemoryEventStore.ProjectLocked` | crates/koine-store-memory/src/store.rs:104-158 | upserts or removes the job's entry, keeping the sequence number of an entry that exists |
| `Stores.InMemoryEventStore.LoadStream` | crates/koine-store-memory/src/store.rs:173-185 | the stream, or not found |
| `Dispatchers.InMemoryDispatcher.PickEligible` | crates/koine-store-memory/src/dispatcher.rs:32-43 | the scan returns a claimable entry that no claimable entry precedes, or none when there is none |
| `Dispatchers.InMemoryDispatcher.FirstExpired` | crates/koine-store-memory/src/dispatcher.rs:102-113 | the expired job with the lowest id, or none when no lease is expired |
| `Dispatchers.InMemoryDispatcher.ClaimNext` | crates/koine-store-memory/src/dispatcher.rs:45-97 | claims the pick: new store state and result, error branches included |
| `Dispatchers.InMemoryDispatcher.ExtendLease` | crates/koine-store-memory/src/dispatcher.rs:161-190 | moves the deadline of the entry carrying the lease if it is not expired, otherwise changes nothing |
| `Dispatchers.InMemoryDispatcher.RetireOne` | crates/koine-store-memory/src/dispatcher.rs:99-147 | retires the first expired lease: new store state and result, error branches included |
| `Consistency.AppendEffect` | crates/koine-store-memory/src/store.rs:64-158 | an accepted append extends one stream, re-derives one entry, and leaves every other job's stream and entry alone |
| `Consistency.AppendKeepsConsistent` | crates/koine-store-memory/src/store.rs:64-158 | such an append keeps the index in agreement with the log and sequence numbers distinct |
| `Consistency.AppendAccepts` | crates/koine-store-memory/src/store.rs:64-100 | a well-numbered batch whose events apply is accepted |
| `Consistency.ClaimSucceeds` | crates/koine-store-memory/src/dispatcher.rs:45-97 | on a consistent store a claim with a representable ttl never fails: it appends one grant to the pick and reports that job's payload, attempt, correlation and trace |
| `Consistency.ClaimRefusesTtl` | crates/koine-store-memory/src/dispatcher.rs:45-97 | the only remaining error is the unrepresentable ttl, and it changes nothing |
| `Consistency.RetireSucceeds` | crates/koine-store-memory/src/dispatcher.rs:99-147 | a retirement appends the expiry of the lease held and the retry decision that is due, and the resulting job counts the attempt |
| `Consistency.RetireRefuses` | crates/koine-store-memory/src/dispatcher.rs:99-147 | it fails only for an unrepresentable retry time, changing nothing |
| `UseCases.LegalBatchFolds` | crates/koine-domain/src/job.rs:180-283 | every batch the commands can emit is accepted by the fold, with the resulting job written out for each |
| `UseCases.DecisionIsLegal` | crates/koine-application/src/use_cases/worker_ack.rs:50-103 | every decision is such a batch; conflict outcomes are exactly the late-ack records and change only the version; a recorded ack was from the running lease |
| `UseCases.StaleAckDecision` | crates/koine-application/src/use_cases/worker_ack.rs:131-141 | an ack for a lease the job does not hold is decided as one late-ack record |
| `UseCases.OnlyClaimsGrant` | crates/koine-domain/src/job.rs:291-435 | no command but a claim changes lease or recorded deadline of a job that stays held |
| `UseCases.ExpiryIsLegal` | crates/koine-domain/src/job.rs:391-409 | expiry emits a legal batch |
| `UseCases.GuardsAgreeWithTable` | crates/koine-domain/src/job.rs:291-435 | each command of the aggregate is decided exactly where the transition table accepts its event and worker, lease, eligibility, ttl or retry time allow it |
| `UseCases.LeaseDecision` | crates/koine-domain/src/job.rs:291-312 | a lease is granted, until now plus ttl, exactly on a pending job whose time has come; else the error |
| `UseCases.ExpiryDecision` | crates/koine-domain/src/job.rs:391-409 | expiry is decided exactly on leased and running jobs: the lease they are under expires and the retry that is due follows |
| `UseCases.StartDecision` | crates/koine-application/src/use_cases/worker_ack.rs:50-55 | a start is recorded exactly for the worker holding the lease of a leased job, and which error it gets otherwise |
| `UseCases.SuccessDecision` | crates/koine-application/src/use_cases/worker_ack.rs:63-79 | a current success is recorded with its result, and the job it leads to differs in state and version only |
| `UseCases.FailureDecision` | crates/koine-application/src/use_cases/worker_ack.rs:87-103 | a recorded failure carries its error and attempt; the job is parked as non-retryable if and only if the error is, and otherwise gets the retry that is due; the job that results |
| `UseCases.CancelDecision` | crates/koine-application/src/use_cases/cancel.rs:26-43 | a cancel is recorded with its reason on every job that has not succeeded and is not cancelled, and refused on those |
| `UseCases.ConflictDecision` | crates/koine-application/src/use_cases/worker_ack.rs:63-103 | a conflict leaves one record of worker, lease and reported outcome |
| `UseCases.AckConflictsIffStale` | crates/koine-application/src/use_cases/worker_ack.rs:63-103 | a stale ack always conflicts; a current one never does, for any seed, if and only if it needs no retry time or the policy's longest delay fits the clock |
| `UseCases.CurrentFailureConflicts` | crates/koine-application/src/use_cases/worker_ack.rs:87-103 | a current failure report that is recorded as a conflict |
| `UseCases.Commands.EnqueueJob` | crates/koine-application/src/use_cases/enqueue.rs:82-108 | policy check, then one opening envelope appended at version zero |
| `UseCases.PolicyAccepted` | crates/koine-application/src/use_cases/enqueue.rs:29-47 | which policies are accepted, in numbers, and which error each other one gets |
| `UseCases.EnqueueOpens` | crates/koine-application/src/use_cases/enqueue.rs:82-108 | enqueue succeeds if and only if the policy is accepted and the id is new; it answers that id, leaves one event with the caller's lineage that folds to the job asked for, earliest time included, and touches no other job; a refusal changes nothing |
| `UseCases.Commands.LoadJob` | crates/koine-application/src/use_cases/worker_ack.rs:105-109 | the stream if it is known and folds, else the store's or the domain's error |
| `UseCases.Commands.FinishCommand` | crates/koine-application/src/use_cases/worker_ack.rs:50-141 | start, acks and cancel decide on the loaded snapshot and append at its version |
| `Broker.StepEffect` | crates/koine-store-memory/src/store.rs:64-158 | every step of every operation does nothing, moves one deadline, or extends one stream and re-derives its entry |
| `Broker.RunKeepsSound` | crates/koine-store-memory/src/store.rs:35-39 | over any interleaving, raw appends included: index and log agree, sessions hold prefixes of live streams, streams only grow |
| `Broker.IndexAgreesWithLog` | crates/koine-store-memory/src/store.rs:104-158 | in every reachable state a job is in the index exactly when its stream folds to a dispatchable state, with matching fields and a number of its own, and every prefix of its stream folds |
| `Serializability.DecidedOnCurrent` | crates/koine-application/src/use_cases/worker_ack.rs:105-129 | the result of a command as a function of snapshot and stream: decided on the current stream, or refused with a version conflict |
| `Serializability.StaleIsRefused` | crates/koine-application/src/use_cases/worker_ack.rs:111-129 | a command whose stream has moved on is refused and changes nothing |
| `Serializability.OnlyOneWriterWins` | crates/koine-application/src/use_cases/worker_ack.rs:111-129 | of two commands holding the same snapshot at most one appends, whatever runs in between |
| `Serializability.RefusalChangesNothing` | crates/koine-application/src/use_cases/worker_ack.rs:111-129 | a refused command, for whatever reason, leaves the store as it was |
| `Serializability.RunsSerialize` | crates/koine-application/src/use_cases/worker_ack.rs:50-141 | every interleaved run does what its serial form does, which drops the refused commands and loads each accepted one just before it appends: no command of it is refused, and steps, their order, the answers, the store after each step and the end are the run's own |
| `Deadlines.EntriesAreExact` | crates/koine-store-memory/src/store.rs:104-158 | in every reachable state, raw appends included, an index entry is exactly the projection of its stream, but for the deadline of the last heartbeat since the job's last append |
| `Meaning.IndexReadsLog` | crates/koine-store-memory/src/store.rs:104-158 | in every reachable state, raw appends included, the index holds exactly the jobs whose last state event leaves them waiting or with a worker; queue and priority are the enqueued ones, earliest time, lease, worker and deadline those of the last such event, grant or heartbeat |
| `Fences.TerminalSuffix` | crates/koine-domain/src/job.rs:180-283 | after a terminal prefix a stream that folds holds only late-ack records, and the job changes only its version |
| `Fences.TerminalAbsorbs` | crates/koine-domain/src/job.rs:180-283 | in every continuation of every run a succeeded or cancelled job keeps its state and never returns to the index |
| `Fences.HeartbeatAccepted` | crates/koine-store-memory/src/dispatcher.rs:161-190 | a heartbeat is accepted exactly when the lease is in the index, its deadline is not passed and the ttl is representable; the new deadline is now plus ttl, sooner than the old one exactly when less than the remaining time was asked for; the conditions of the two other answers; then nothing changes |
| `Fences.HeartbeatFence` | crates/koine-store-memory/src/dispatcher.rs:99-190 | over any run without an append to the job or another renewal of its lease, in which retirements read the clock before the deadline, the job's stream and entry stay exactly as the heartbeat left them |
| `Fences.HeartbeatFate` | crates/koine-store-memory/src/store.rs:104-158 | over any use-case run during which the job stays held, its deadline is that of the last heartbeat since the last command that wrote to the job, and the one recorded at the claim if none came since |
| `Fences.CommandForgetsHeartbeats` | crates/koine-store-memory/src/store.rs:104-158 | in particular, after one command on a held job that stays held the entry expires exactly at the deadline recorded at the claim |
| `Fences.ForgottenHeartbeat` | crates/koine-store-memory/src/store.rs:104-158 | a run in which a heartbeat is accepted until second 50 and the job is retired at second 35: expiry and retry decision are appended, and nobody holds the lease any more |
| `Fences.ShortenedHeartbeat` | crates/koine-store-memory/src/dispatcher.rs:161-190 | a run in which a heartbeat brings a deadline forward |
| `Regularity.UseCaseWrites` | crates/koine-application/src/use_cases/worker_ack.rs:50-141 | what a use case appends: one opening event with an accepted policy, or a legal batch caused by the stream's last envelope; only a claim grants, its own lease with its own deadline, on a job that is due; a retry time is the one drawn from the step's clock and seed; the envelopes carry the step's ids |
| `Regularity.RunsAreRegular` | crates/koine-domain/src/job.rs:180-283 | every stream of every use-case run keeps its ledger, lineage and event vocabulary, ends every attempt with a decision of matching cause, and the index keeps its order |
| `Regularity.DeliveryIsBounded` | crates/koine-domain/src/job.rs:356-409 | the attempt counter is the number of ended attempts, below the maximum while dispatchable and equal to it when exhausted; the maximum is at most ten thousand, grants never exceed it, and all events but late-ack records are at most four times that plus two |
| `Regularity.ClaimOrderIsEnqueueOrder` | crates/koine-store-memory/src/dispatcher.rs:32-43 | among indexed jobs of one priority the one enqueued first is claimed first, after any use-case run |
| `Regularity.RetriesKeepTheirPlace` | crates/koine-store-memory/src/store.rs:104-158 | a job keeps its sequence number through any number of leases, failures and retries |
| `Meaning.BackoffIsKept` | crates/koine-domain/src/job.rs:437-460 | after any use-case run: a retry scheduled by a failure or expiry counts the ended attempts of the stream and lies within the enqueued policy's backoff, and whatever runs in between, the job's next claim reads the clock no earlier |
| `Meaning.ParkedForCause` | crates/koine-domain/src/job.rs:356-409 | in every use-case run a parked job was parked right after a failed or expired attempt; for a non-retryable error if and only if that attempt failed with one, for exhaustion otherwise |
| `Regularity.LineageOverRuns` | crates/koine-application/src/lineage.rs:24-72 | one correlation and trace per stream; each later envelope is caused by the last one before its batch, which is the one before it or, for a retry decision, the one before the ended attempt; no stream ends inside such a batch |
| `Regularity.CausationReachesOrigin` | crates/koine-application/src/lineage.rs:64-72 | following causation from any envelope, batch by batch, leads strictly backwards to the first |
| `Meaning.CausationIsUnique` | crates/koine-application/src/lineage.rs:24-72 | with fresh ids, no two envelopes of any streams share an id, and the causation of an envelope names exactly one envelope: the last before its batch |
| `Fencing.LeasesAreFenced` | crates/koine-domain/src/job.rs:291-435 | in every use-case run with fresh lease ids a lease is granted by one event of one stream, held by one job at most, and ended once, by an ending event |
| `Fencing.LosingEnds` | crates/koine-domain/src/job.rs:291-435 | a step that takes a lease from its holder ends it everywhere |
| `Fencing.RetirementEnds` | crates/koine-store-memory/src/dispatcher.rs:99-147 | a retirement ends the lease it retires |
| `Fencing.LateAcksAreOnlyRecords` | crates/koine-application/src/use_cases/worker_ack.rs:63-141 | however the run goes on after a lease ended, an accepted ack presenting it leaves one late-ack record and changes nothing of the job but its version |
| `Fencing.EndedLeasesStayQuiet` | crates/koine-store-memory/src/dispatcher.rs:161-190 | no heartbeat for an ended lease is ever accepted again |
| `Drain.PickIsUnique` | crates/koine-store-memory/src/dispatcher.rs:32-43 | the pick does not depend on the map's iteration order |
| `Drain.ClaimsDrainInOrder` | crates/koine-store-memory/src/dispatcher.rs:32-97 | successive claims at one clock reading take each eligible job once, by priority then enqueue order, and then report none |
| `Meaning.ClaimHandsOut` | crates/koine-store-memory/src/dispatcher.rs:32-97 | after any use-case run a claim takes a job that is waiting on the queue and due by its recorded events, ahead of every other such job by enqueued priority and then enqueue order, and hands out the enqueued payload, the number of ended attempts and the recorded lineage; it finds none only if none is due |
| `Meaning.ClaimsDrainByEnqueue` | crates/koine-store-memory/src/dispatcher.rs:32-97 | successive claims at one clock reading take each due job once, in the order of enqueued priorities and then of enqueueing |
| `Sweeping.RetireOneEffect` | crates/koine-store-memory/src/dispatcher.rs:99-147 | one retirement removes one job from the expired set, in two events, and touches no other job |
| `Sweeping.SweepPass` | crates/koine-application/src/use_cases/sweep.rs:28-34 | one pass advances the sweep by one job, ends it with every initially expired lease retired, or fails unchanged on an unrepresentable retry time |
| `Sweeping.Sweep` | crates/koine-application/src/use_cases/sweep.rs:28-34 | at a fixed clock the loop ends, has retired exactly the leases expired at its start, left none expired and counted them; on an error those retired so far are the expired jobs of lowest id, and nothing else changed; no error when every retry time fits |
| `Recovery.ClampTtl` | crates/koine-grpc/src/service.rs:89-96 | a ttl of zero is refused; any other comes out as the smaller of what was asked for and what the server allows |
| `Recovery.DeadlinesAreNear` | crates/koine-grpc/src/service.rs:89-96 | with ttls that come through the clamp and a clock that does not run back, no deadline in index or log is later than the last reading plus the clamp |
| `Recovery.SweepRecovers` | crates/koine-application/src/use_cases/sweep.rs:28-34 | when nobody claims or renews a job any more, whatever else happens, a finished sweep at least the clamp later leaves it unleased in index and log |
| `Recovery.SweepCannotFail` | crates/koine-application/src/use_cases/sweep.rs:28-34 | after any use-case run no seed makes a sweep fail, until thirty days before the last representable instant |
| `Rebuild.DispatchQueue.RebuildDispatch` | crates/koine-store-postgres/src/store.rs:221-247 | the loop replays every stream into the table and counts dispatchable jobs; a stream that does not fold rolls everything back |
| `Rebuild.RebuildMirrorsIndex` | crates/koine-store-postgres/src/store.rs:221-247 | rebuilding an emptied table after any use-case run gives the index's rows in the same claim order, each the exact projection of its stream, recorded deadline included |
| `Rebuild.RebuildKeepsNumbers` | crates/koine-store-postgres/src/store.rs:140-247 | rebuilding over a table that agrees with the log keeps every row and number and makes each the exact projection of its stream |
| `Rebuild.RebuildRefinesIncremental` | crates/koine-store-postgres/src/store.rs:140-247 | against the table kept up to date over the whole run: a rebuild gives every row back as it is, except that a deadline set by a heartbeat since the job's last append returns to the recorded one; from an emptied table only numbers differ further, in the same order |
| `Outbox.OutboxTable.AppendInTx` | crates/koine-store-postgres/src/store.rs:52-136 | log, outbox and dispatch row change by the same batch or not at all; other streams' outbox rows are untouched; errors in the source's order; success is the schedule that begins, inserts and commits |
| `Outbox.OutboxTable.CheckBatch` | crates/koine-store-postgres/src/store.rs:72-80 | accepts exactly the batches that continue the stream |
| `Outbox.OutboxTable.CommitBatch` | crates/koine-store-postgres/src/store.rs:131-136 | what a transaction that drew its numbers earlier makes visible |
| `Outbox.OutboxTable.InsertRows` | crates/koine-store-postgres/src/store.rs:81-130 | the insert loop numbers the batch in order from the sequence, and the sequence stays moved |
| `Outbox.BatchAdded` | crates/koine-store-postgres/src/store.rs:81-130 | rows inserted that way follow the stream's earlier rows in order and leave every other stream's alone |
| `Outbox.AppendRuns` | crates/koine-store-postgres/src/store.rs:52-136 | the steps of one undisturbed append, and the state they reach |
| `Outbox.OutboxTable.ClaimRows` | crates/koine-store-postgres/src/relay.rs:29-49 | the first rows in sequence order, at most as many as asked for |
| `Outbox.OutboxTable.RelayOnce` | crates/koine-store-postgres/src/relay.rs:26-58 | on success exactly the claimed rows are gone and counted; on any failure every row is still there; the pass is the schedule that claims, hands over, and deletes or abandons |
| `Outbox.Reported` | crates/koine-store-postgres/src/relay.rs:57 | the reported count is exact up to the largest 32-bit number and that number beyond |
| `Outbox.RelayRuns` | crates/koine-store-postgres/src/relay.rs:26-58 | the steps of one pass for each way it can end, and the state they reach |
| `Outbox.FirstIsPrefix` | crates/koine-store-postgres/src/relay.rs:29-36 | a claim leaves no earlier visible row behind |
| `Outbox.FirstTakesLimit` | crates/koine-store-postgres/src/relay.rs:29-36 | it takes as many rows as the limit allows, all of them when there are fewer |
| `Outbox.StepKeepsGood` | crates/koine-store-postgres/src/store.rs:52-136 | every step of concurrent appends and one relay keeps the outbox invariant |
| `Outbox.OutboxConserves` | crates/koine-store-postgres/src/relay.rs:26-58 | after any schedule each stream's acknowledged envelopes followed by its visible rows are its committed events, in version order |
| `Outbox.DeliveryNeverSkips` | crates/koine-store-postgres/src/relay.rs:26-58 | whatever the sink was handed, failed passes included, is the committed event of that version, and every earlier version came before it |
| `Outbox.AcknowledgedWasDelivered` | crates/koine-store-postgres/src/relay.rs:50-56 | only delivered envelopes are ever deleted |

## Left out

- Retry.SplitMixBijective: would hold for any additive constant; that this one, the multipliers and the shifts are SplitMix64's own is by inspection, and no known output of the mixer is proved.
- Dispatchers.InMemoryDispatcher.ClaimNext: `now + ttl` past the last representable instant aborts the source, so the contract requires it to be representable when the ttl itself is.
- Dispatchers.InMemoryDispatcher.ExtendLease: the same requirement on `now + ttl`.
- Jobs.Aggregate.Transition: the attempt counter wraps at 2^32 as in an optimised build; a debug build aborts there. `DeliveryIsBounded` puts both out of reach of the use cases.
- Sweeping.Sweep: the 32-bit overflow of the sweep counter is not modelled.
- Stores.InMemoryEventStore.AppendLocked: versions and sequence numbers are unbounded naturals; their 64-bit overflow is not modelled.
- Outbox.OutboxTable.AppendInTx: is an append that meets no concurrent writer; waiting on the unique constraint, conflicts and rollback between concurrent writers are steps of the schedule model in the same file.
- Outbox.OutboxTable.ClaimRows: the batch size is a natural number; the source passes a signed one to the database.
- Recovery.SweepRecovers: safety only; that a sweep is eventually run is the server's loop and is not modelled.
- Error texts, and the state and event names carried inside errors, are reduced to the kind of error.
- Mutex poisoning in the in-memory adapters.
- The Postgres dispatcher: row locks of concurrent claims, and its retirement order by deadline.
- Postgres itself: transactions are modelled as steps that take effect together; isolation anomalies outside those steps are not.
- JSON encoding of envelopes and payloads, identifiers as UUIDs, and their generation.
- The gRPC service apart from the ttl clamp, queue signals and long polling, worker presence, authentication, server start-up and configuration.
- Signals, approvals, checkpoints, suspension and repair have no use case in the source; they are in the transition table only.
