/** Application use cases: enqueue, and the load-decide-append commands of workers and operators. */
module UseCases {
  import opened Types
  import opened Words
  import opened Retry
  import opened Jobs
  import opened Lineages
  import opened Stores
  import opened Consistency

  // --- Enqueue.

  datatype EnqueueCommand = EnqueueCommand(
    queue: QueueName, payload: Value, priority: Priority, policy: RetryPolicy, notBefore: Option<Time>,
    correlation: Option<CorrelationId>, causation: Option<EventId>, traceparent: Option<string>)

  datatype EnqueueError = InvalidPolicy(policy: PolicyError) | EnqueueStore(store: StoreError)

  function OpeningBatch(
    cmd: EnqueueCommand, j: JobId, minted: CorrelationId, at: Time, ids: seq<EventId>
  ): seq<Envelope>
    requires |ids| >= 2
  {
    var correlation := if cmd.correlation.Some? then cmd.correlation.value else minted;
    Wrap(ids, at, j, 0, Lineage(correlation, cmd.causation, cmd.traceparent),
         [Enqueued(cmd.queue, cmd.payload, cmd.priority, cmd.policy, cmd.notBefore)])
  }

  function Enqueue(
    s: Inner, cmd: EnqueueCommand, j: JobId, minted: CorrelationId, at: Time, ids: seq<EventId>
  ): (Inner, Result<JobId, EnqueueError>)
    requires |ids| >= 2
  {
    match ValidatePolicy(cmd.policy)
    case Some(e) => (s, Err(InvalidPolicy(e)))
    case None =>
      match Append(s, j, 0, OpeningBatch(cmd, j, minted, at, ids))
      case Err(e) => (s, Err(EnqueueStore(e)))
      case Ok(t) => (t, Ok(j))
  }

  /** Exactly the policies with one to ten thousand attempts and a base below a cap of at most thirty days. */
  lemma PolicyAccepted(p: RetryPolicy)
    ensures Sane(p) <==> 1 <= p.maxAttempts <= 10_000 && p.baseDelay <= p.maxDelay <= 30 * 86_400 * NANOS_PER_SEC
    ensures ValidatePolicy(p) == Some(NoAttempts) <==> p.maxAttempts == 0
    ensures ValidatePolicy(p) == Some(TooManyAttempts) <==> p.maxAttempts > 10_000
    ensures ValidatePolicy(p) == Some(BaseExceedsMax) <==> 1 <= p.maxAttempts <= 10_000 && p.baseDelay > p.maxDelay
  {
  }

  /**
   * Enqueue succeeds exactly for an accepted policy and a fresh id, answers that id, and leaves a stream
   * of one event that folds to the job that was asked for; a refusal changes nothing.
   */
  lemma {:induction false} EnqueueOpens(
    s: Inner, cmd: EnqueueCommand, j: JobId, minted: CorrelationId, at: Time, ids: seq<EventId>)
    requires LogOk(s) && |ids| >= 2
    ensures var (t, r) := Enqueue(s, cmd, j, minted, at, ids);
            && (r.Ok? <==> Sane(cmd.policy) && j !in s.streams)
            && (r.Err? ==> t == s)
            && (r.Ok? ==>
                  && r == Ok(j) && j in t.streams && |t.streams[j]| == 1
                  && t.streams[j][0].eventId == ids[0] && t.streams[j][0].recordedAt == at
                  && t.streams[j][0].lineage
                     == Lineage(if cmd.correlation.None? then minted else cmd.correlation.value,
                                cmd.causation, cmd.traceparent)
                  && (forall k :: k != j ==> SameAt(s, t, k))
                  && Fold(t.streams[j])
                     == Ok(Job(j, cmd.queue, cmd.priority, cmd.payload, cmd.policy, 0, Pending(cmd.notBefore), 1)))
            && (!Sane(cmd.policy) ==> r == Err(InvalidPolicy(ValidatePolicy(cmd.policy).value)))
            && (r.Err? && Sane(cmd.policy) ==> r == Err(EnqueueStore(VersionConflict(j, 0))))
  {
    var batch := OpeningBatch(cmd, j, minted, at, ids);
    assert [] + batch == batch;
    if j in s.streams { FoldFacts(s.streams[j]); }
    if Append(s, j, 0, batch).Ok? { AppendEffect(s, j, 0, batch); }
  }

  // --- Commands on a loaded stream.

  datatype Command =
    | StartJob(worker: WorkerId)
    | AckSuccess(worker: WorkerId, lease: LeaseId, result: Option<Value>)
    | AckFailure(worker: WorkerId, lease: LeaseId, error: JobError)
    | CancelJob(reason: Option<string>)
  {
    predicate Ack() { AckSuccess? || AckFailure? }
  }

  datatype AckOutcome = Recorded | Conflict

  datatype Decision = Decision(events: seq<JobEvent>, outcome: AckOutcome)

  datatype AckError = AckStore(store: StoreError) | AckDomain(domain: DomainError)

  function One(r: Result<JobEvent, DomainError>): Result<Decision, DomainError> {
    match r
    case Err(e) => Err(e)
    case Ok(ev) => Ok(Decision([ev], Recorded))
  }

  /** An ack the domain rejects, for whatever reason, becomes a conflict record. */
  function DecideCommand(job: Job, cmd: Command, now: Time, seed: U64): Result<Decision, DomainError> {
    match cmd
    case StartJob(worker) => One(Start(job, worker))
    case AckSuccess(worker, lease, result) =>
      (match Succeed(job, lease, result)
       case Ok(ev) => Ok(Decision([ev], Recorded))
       case Err(_) => Ok(Decision([LateAck(worker, lease, ReportedSuccess)], Conflict)))
    case AckFailure(worker, lease, error) =>
      (match Fail(job, lease, error, now, seed)
       case Ok(events) => Ok(Decision(events, Recorded))
       case Err(_) => Ok(Decision([LateAck(worker, lease, ReportedFailure)], Conflict)))
    case CancelJob(reason) => One(Cancel(job, reason))
  }

  function Finish(
    s: Inner, snapshot: Stream, cmd: Command, now: Time, seed: U64, at: Time, ids: seq<EventId>
  ): (Inner, Result<AckOutcome, AckError>)
    requires |ids| >= 2
  {
    match Fold(snapshot)
    case Err(e) => (s, Err(AckDomain(e)))
    case Ok(job) =>
      match DecideCommand(job, cmd, now, seed)
      case Err(e) => (s, Err(AckDomain(e)))
      case Ok(d) =>
        match Append(s, job.id, job.version, Wrap(ids, at, job.id, job.version, LineageOf(snapshot), d.events))
        case Err(e) => (s, Err(AckStore(e)))
        case Ok(t) => (t, Ok(d.outcome))
  }

  // --- What the batches of the use cases and the dispatcher look like.

  /** The retry decision that may follow an ended attempt. */
  predicate RetryFor(job: Job, next: JobEvent) {
    var n := AddOne(job.attempt);
    || (next.RetryScheduled? && next.completed == n && n < job.policy.maxAttempts)
    || (next == JobEvent.Parked(RetriesExhausted) && n >= job.policy.maxAttempts)
  }

  predicate LegalBatch(job: Job, events: seq<JobEvent>) {
    if |events| == 1 then
      match events[0]
      case Leased(_, _, _) => job.state.Pending?
      case Started(w) => job.state.Leased? && job.state.worker == w
      case Succeeded(_) => job.state.Running?
      case Cancelled(_) => !job.state.Terminal()
      case LateAckConflict(_, _, _) => true
      case _ => false
    else
      && |events| == 2
      && match events[0]
         case Failed(error, n) =>
           && job.state.Running? && n == AddOne(job.attempt)
           && (if error.retryable then RetryFor(job, events[1]) else events[1] == JobEvent.Parked(NonRetryableError))
         case LeaseExpired(l) => job.state.Holds(l) && RetryFor(job, events[1])
         case _ => false
  }

  /** The job after a legal batch. */
  function AfterBatch(job: Job, events: seq<JobEvent>): Job
    requires LegalBatch(job, events)
  {
    if |events| == 2 then AfterAttempt(job, events[1])
    else
      var state := match events[0]
        case Leased(worker, lease, expiresAt) => JobState.Leased(worker, lease, expiresAt)
        case Started(_) => Running(job.state.worker, job.state.lease, job.state.expiresAt)
        case Succeeded(_) => JobState.Succeeded
        case Cancelled(_) => JobState.Cancelled
        case _ => job.state;
      job.(version := job.version + 1, state := state)
  }

  /** Every legal batch is applicable: the stream it extends still folds. */
  lemma {:induction false} LegalBatchFolds(job: Job, events: seq<JobEvent>)
    requires LegalBatch(job, events)
    ensures ApplyAll(job, events) == Ok(AfterBatch(job, events))
  {
    if |events| == 1 {
      assert events == [events[0]];
      ApplyOne(job, events[0]);
    } else {
      assert events == [events[0], events[1]];
      ApplyTwo(job, events[0], events[1]);
    }
  }

  /** Every command decision is a legal batch, a conflict exactly when it is a late-ack record. */
  lemma DecisionIsLegal(job: Job, cmd: Command, now: Time, seed: U64)
    requires DecideCommand(job, cmd, now, seed).Ok?
    ensures var d := DecideCommand(job, cmd, now, seed).value;
            && LegalBatch(job, d.events) && !d.events[0].Leased?
            && (d.outcome == Conflict <==> d.events[0].LateAckConflict?)
            && (d.outcome == Conflict ==>
                  |d.events| == 1 && AfterBatch(job, d.events) == job.(version := job.version + 1))
            && (d.outcome == Recorded && cmd.Ack() ==> job.state.Running? && job.state.lease == cmd.lease)
  {
    RetryIsDue(job, AddOne(job.attempt), now, seed);
  }

  // --- The decisions one by one.

  /** A lease is granted exactly on a pending job whose time has come, for a representable ttl. */
  lemma LeaseDecision(job: Job, worker: WorkerId, lease: LeaseId, now: Time, ttl: Duration)
    ensures Lease(job, worker, lease, now, ttl)
            == if !job.state.Pending? then Err(IllegalTransition)
               else if job.state.notBefore.Some? && now < job.state.notBefore.value then Err(IllegalTransition)
               else if !IsDelta(ttl) then Err(InvalidTtl)
               else Ok(JobEvent.Leased(worker, lease, now + ttl))
  {
  }

  /** Expiry is decided exactly on a leased or running job: the lease expires, and the retry that is due follows. */
  lemma ExpiryDecision(job: Job, now: Time, seed: U64)
    ensures match ExpireLease(job, now, seed)
            case Ok(events) =>
              && job.state.Held() && |events| == 2 && events[0] == LeaseExpired(job.state.lease)
              && Due(job.policy, AddOne(job.attempt), now, seed, events[1])
            case Err(e) =>
              if job.state.Held() then e == InvalidTtl && RetryEvent(job, AddOne(job.attempt), now, seed).Err?
              else e == IllegalTransition
  {
    RetryIsDue(job, AddOne(job.attempt), now, seed);
  }

  /** A start is recorded exactly for the worker that holds the lease of a leased job. */
  lemma StartDecision(job: Job, worker: WorkerId, now: Time, seed: U64)
    ensures DecideCommand(job, StartJob(worker), now, seed)
            == if !job.state.Leased? then Err(IllegalTransition)
               else if job.state.worker != worker then Err(LeaseMismatch)
               else Ok(Decision([Started(worker)], Recorded))
  {
  }

  /** A cancel is recorded, with its reason, exactly on jobs that neither succeeded nor were cancelled. */
  lemma CancelDecision(job: Job, reason: Option<string>, now: Time, seed: U64)
    ensures DecideCommand(job, CancelJob(reason), now, seed)
            == if job.state.Succeeded? || job.state.Cancelled? then Err(IllegalTransition)
               else Ok(Decision([JobEvent.Cancelled(reason)], Recorded))
  {
  }

  /**
   * The aggregate's guards against its transition table: a command is decided only where the table accepts
   * its event, and refused there only for the wrong worker or lease, for being early, or for a ttl or retry time
   * that cannot be represented.
   */
  lemma GuardsAgreeWithTable(
    job: Job, worker: WorkerId, lease: LeaseId, ttl: Duration, result: Option<Value>, error: JobError,
    reason: Option<string>, now: Time, seed: U64)
    ensures Lease(job, worker, lease, now, ttl).Ok?
            <==> NextState(job.state, JobEvent.Leased(worker, lease, now + ttl)).Some?
                 && Eligible(job.state.notBefore, now) && IsDelta(ttl)
    ensures Start(job, worker).Ok?
            <==> NextState(job.state, Started(worker)).Some? && job.state.worker == worker
    ensures Succeed(job, lease, result).Ok?
            <==> NextState(job.state, JobEvent.Succeeded(result)).Some? && job.state.lease == lease
    ensures var n := AddOne(job.attempt);
            Fail(job, lease, error, now, seed).Ok?
            <==> NextState(job.state, Failed(error, n)).Some? && job.state.lease == lease
                 && (error.retryable ==> RetryEvent(job, n, now, seed).Ok?)
    ensures ExpireLease(job, now, seed).Ok?
            <==> NextState(job.state, LeaseExpired(lease)).Some?
                 && RetryEvent(job, AddOne(job.attempt), now, seed).Ok?
    ensures Cancel(job, reason).Ok? <==> NextState(job.state, JobEvent.Cancelled(reason)).Some?
  {
  }

  /** The success of the running lease is recorded with its result and ends the job. */
  lemma {:induction false} SuccessDecision(
    job: Job, worker: WorkerId, lease: LeaseId, result: Option<Value>, now: Time, seed: U64)
    requires job.state.Running? && job.state.lease == lease
    ensures DecideCommand(job, AckSuccess(worker, lease, result), now, seed)
            == Ok(Decision([JobEvent.Succeeded(result)], Recorded))
    ensures ApplyAll(job, [JobEvent.Succeeded(result)])
            == Ok(job.(state := JobState.Succeeded, version := job.version + 1))
  {
    ApplyOne(job, JobEvent.Succeeded(result));
  }

  /**
   * The failure of the running lease is recorded with its error and counts the attempt. A retryable one
   * is followed by the retry that is due, any other parks the job for good.
   */
  lemma {:induction false} FailureDecision(job: Job, cmd: Command, now: Time, seed: U64)
    requires cmd.AckFailure? && job.state.Running? && job.state.lease == cmd.lease
    requires DecideCommand(job, cmd, now, seed).Ok? && DecideCommand(job, cmd, now, seed).value.outcome == Recorded
    ensures var events, n := DecideCommand(job, cmd, now, seed).value.events, AddOne(job.attempt);
            && |events| == 2 && events[0] == Failed(cmd.error, n)
            && (events[1] == JobEvent.Parked(NonRetryableError) <==> !cmd.error.retryable)
            && (cmd.error.retryable ==> Due(job.policy, n, now, seed, events[1]))
            && ApplyAll(job, events) == Ok(AfterAttempt(job, events[1]))
  {
    var events := DecideCommand(job, cmd, now, seed).value.events;
    RetryIsDue(job, AddOne(job.attempt), now, seed);
    ApplyTwo(job, events[0], events[1]);
    assert events == [events[0], events[1]];
  }

  /** The record an ack leaves when its lease is not held. */
  function RecordOf(cmd: Command): JobEvent
    requires cmd.Ack()
  {
    LateAckConflict(cmd.worker, cmd.lease, if cmd.AckSuccess? then ReportedSuccess else ReportedFailure)
  }

  /** Every conflict is recorded as such: who acknowledged, under which lease, and what was reported. */
  lemma ConflictDecision(job: Job, cmd: Command, now: Time, seed: U64)
    requires DecideCommand(job, cmd, now, seed).Ok? && DecideCommand(job, cmd, now, seed).value.outcome == Conflict
    ensures cmd.Ack() && DecideCommand(job, cmd, now, seed).value.events == [RecordOf(cmd)]
  {
  }

  lemma StaleAckDecision(job: Job, cmd: Command, now: Time, seed: U64)
    requires cmd.Ack() && !job.state.Holds(cmd.lease)
    ensures DecideCommand(job, cmd, now, seed) == Ok(Decision([RecordOf(cmd)], Conflict))
    ensures LegalBatch(job, [RecordOf(cmd)]) && AfterBatch(job, [RecordOf(cmd)]) == job.(version := job.version + 1)
  {
  }

  /** Only a claim grants a lease: any other batch that leaves the job held keeps grant and recorded deadline. */
  lemma OnlyClaimsGrant(job: Job, events: seq<JobEvent>)
    requires LegalBatch(job, events) && !events[0].Leased? && AfterBatch(job, events).state.Held()
    ensures var next := AfterBatch(job, events).state;
            job.state.Held() && next.lease == job.state.lease && next.expiresAt == job.state.expiresAt
  {
  }

  lemma ExpiryIsLegal(job: Job, now: Time, seed: U64)
    requires ExpireLease(job, now, seed).Ok?
    ensures LegalBatch(job, ExpireLease(job, now, seed).value)
  {
    RetryIsDue(job, AddOne(job.attempt), now, seed);
  }

  /** The job runs under the lease this ack presents. */
  predicate Current(job: Job, cmd: Command)
    requires cmd.Ack()
  {
    job.state.Running? && job.state.lease == cmd.lease
  }

  /** Recording this report needs a retry time. */
  predicate NeedsRetry(cmd: Command) { cmd.AckFailure? && cmd.error.retryable }

  predicate ReportedConflict(job: Job, cmd: Command, now: Time, seed: U64) {
    DecideCommand(job, cmd, now, seed).Ok? && DecideCommand(job, cmd, now, seed).value.outcome == Conflict
  }

  /**
   * A stale ack always conflicts. A current one never does, whatever the seed, exactly when it needs
   * no retry time or every retry time the policy can draw is representable.
   */
  lemma AckConflictsIffStale(job: Job, cmd: Command, now: Time)
    requires cmd.Ack() && InRange(now)
    ensures !Current(job, cmd) ==> forall seed: U64 :: ReportedConflict(job, cmd, now, seed)
    ensures Current(job, cmd) ==>
              ((forall seed: U64 :: !ReportedConflict(job, cmd, now, seed))
               <==> (NeedsRetry(cmd) ==> RetryFits(job.policy, AddOne(job.attempt), now)))
  {
    RetryNeverErrsIffFits(job, AddOne(job.attempt), now);
    forall seed: U64
      ensures ReportedConflict(job, cmd, now, seed)
              <==> !Current(job, cmd) || (NeedsRetry(cmd) && RetryEvent(job, AddOne(job.attempt), now, seed).Err?)
    {
    }
  }

  /** The failure of a job that runs under the presented lease, reported as a conflict. */
  lemma CurrentFailureConflicts() returns (seed: U64)
    ensures var policy := RetryPolicy(20, NANOS_PER_SEC, MAX_SANE_DELAY);
            var job := Job(1, "default", 0, "{}", policy, 0, Running("w1", 7, MAX_TIME), 3);
            var cmd := AckFailure("w1", 7, JobError("panic", "", None, true));
            Sane(policy) && Current(job, cmd) && ReportedConflict(job, cmd, MAX_TIME, seed)
  {
    var policy := RetryPolicy(20, NANOS_PER_SEC, MAX_SANE_DELAY);
    assert Pow2(0) == 1;
    assert Ceiling(policy, 1) == 1000;
    seed := JitterReaches(policy, 1, 1000);
  }

  // --- The use cases as the source runs them: two steps, with room for others in between.

  class Commands {
    const store: InMemoryEventStore

    constructor (store: InMemoryEventStore)
      ensures this.store == store
    {
      this.store := store;
    }

    method EnqueueJob(cmd: EnqueueCommand, j: JobId, minted: CorrelationId, at: Time, ids: seq<EventId>)
      returns (r: Result<JobId, EnqueueError>)
      requires |ids| >= 2
      modifies store
      ensures (store.View(), r) == Enqueue(old(store.View()), cmd, j, minted, at, ids)
    {
      var invalid := ValidatePolicy(cmd.policy);
      if invalid.Some? { return Err(InvalidPolicy(invalid.value)); }
      var correlation := if cmd.correlation.Some? then cmd.correlation.value else minted;
      var batch := WrapEvents(ids, at, j, 0, Lineage(correlation, cmd.causation, cmd.traceparent),
                              [Enqueued(cmd.queue, cmd.payload, cmd.priority, cmd.policy, cmd.notBefore)]);
      var err := store.AppendLocked(j, 0, batch);
      if err.Some? { return Err(EnqueueStore(err.value)); }
      return Ok(j);
    }

    method LoadJob(j: JobId) returns (r: Result<Stream, AckError>)
      ensures match Load(store.View(), j)
              case Ok(es) => r == (if Fold(es).Ok? then Ok(es) else Err(AckDomain(Fold(es).error)))
              case Err(e) => r == Err(AckStore(e))
    {
      var loaded := store.LoadStream(j);
      if loaded.Err? { return Err(AckStore(loaded.error)); }
      var folded := FromEvents(loaded.value);
      if folded.Err? { return Err(AckDomain(folded.error)); }
      return Ok(loaded.value);
    }

    /** Decides on the snapshot loaded earlier and appends at the snapshot's version. */
    method FinishCommand(snapshot: Stream, cmd: Command, now: Time, seed: U64, at: Time, ids: seq<EventId>)
      returns (r: Result<AckOutcome, AckError>)
      requires |ids| >= 2
      modifies store
      ensures (store.View(), r) == Finish(old(store.View()), snapshot, cmd, now, seed, at, ids)
    {
      var folded := FromEvents(snapshot);
      if folded.Err? { return Err(AckDomain(folded.error)); }
      var job := folded.value;
      var events := [];
      var outcome := Recorded;
      match cmd {
        case StartJob(worker) =>
          var ev := Start(job, worker);
          if ev.Err? { return Err(AckDomain(ev.error)); }
          events := [ev.value];
        case AckSuccess(worker, lease, result) =>
          var ev := Succeed(job, lease, result);
          if ev.Ok? {
            events := [ev.value];
          } else {
            events, outcome := [LateAck(worker, lease, ReportedSuccess)], Conflict;
          }
        case AckFailure(worker, lease, error) =>
          var failed := Fail(job, lease, error, now, seed);
          if failed.Ok? {
            events := failed.value;
          } else {
            events, outcome := [LateAck(worker, lease, ReportedFailure)], Conflict;
          }
        case CancelJob(reason) =>
          var ev := Cancel(job, reason);
          if ev.Err? { return Err(AckDomain(ev.error)); }
          events := [ev.value];
      }
      var batch := WrapEvents(ids, at, job.id, job.version, LineageOf(snapshot), events);
      var err := store.AppendLocked(job.id, job.version, batch);
      if err.Some? { return Err(AckStore(err.value)); }
      return Ok(outcome);
    }
  }
}
