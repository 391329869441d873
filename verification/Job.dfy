/** The Job aggregate: state is a fold over recorded events; commands decide which events to record. */
module Jobs {
  import opened Types
  import opened Retry
  import opened Words

  datatype JobState =
    | Pending(notBefore: Option<Time>)
    | Leased(worker: WorkerId, lease: LeaseId, expiresAt: Time)
    | Running(worker: WorkerId, lease: LeaseId, expiresAt: Time)
    | Succeeded
    | Parked(reason: ParkReason)
    | Cancelled
    | Suspended
    | AwaitingApproval(key: string)
  {
    predicate Held() { Leased? || Running? }

    predicate Holds(l: LeaseId) { Held() && lease == l }

    predicate Dispatchable() { Pending? || Held() }

    predicate Terminal() { Succeeded? || Cancelled? }
  }

  datatype Job = Job(
    id: JobId, queue: QueueName, priority: Priority, payload: Value, policy: RetryPolicy,
    attempt: U32, state: JobState, version: nat)

  // --- The transition table.

  function NextState(state: JobState, ev: JobEvent): Option<JobState> {
    match ev
    case Enqueued(_, _, _, _, _) => None
    case Leased(w, l, x) => if state.Pending? then Some(JobState.Leased(w, l, x)) else None
    case Started(_) =>
      if state.Leased? then Some(Running(state.worker, state.lease, state.expiresAt)) else None
    case Succeeded(_) => if state.Running? then Some(JobState.Succeeded) else None
    case Failed(_, _) => if state.Running? then Some(Pending(None)) else None
    case LeaseExpired(_) => if state.Held() then Some(Pending(None)) else None
    case RetryScheduled(_, t) => if state.Pending? then Some(Pending(Some(t))) else None
    case Parked(r) => if state.Pending? then Some(JobState.Parked(r)) else None
    case Cancelled(_) => if state.Terminal() then None else Some(JobState.Cancelled)
    case LateAckConflict(_, _, _) => Some(state)
    case Stalled => if state.Held() then Some(state) else None
    case CheckpointRecorded(_, _) => if state.Running? then Some(state) else None
    case SignalReceived(_, _) =>
      if state.Dispatchable() || state.Suspended? || state.AwaitingApproval? then Some(state) else None
    case ApprovalRequested(k) => if state.Running? then Some(AwaitingApproval(k)) else None
    case ApprovalGranted(_, _) => if state.AwaitingApproval? then Some(Pending(None)) else None
    case ApprovalDeniedBy(_, _) =>
      if state.AwaitingApproval? then Some(JobState.Parked(ApprovalDenied)) else None
    case Suspended => if state.Pending? || state.Running? then Some(JobState.Suspended) else None
    case Resumed => if state.Suspended? then Some(Pending(None)) else None
    case Repaired(_, _) => if state.Parked? then Some(Pending(None)) else None
  }

  function NextAttempt(attempt: U32, ev: JobEvent): U32 {
    match ev
    case Failed(_, n) => n
    case RetryScheduled(n, _) => n
    case LeaseExpired(_) => AddOne(attempt)
    case Repaired(_, _) => 0
    case _ => attempt
  }

  function NextPayload(payload: Value, ev: JobEvent): Value {
    if ev.Repaired? && ev.newPayload.Some? then ev.newPayload.value else payload
  }

  function Apply(job: Job, ev: JobEvent): Result<Job, DomainError> {
    match NextState(job.state, ev)
    case None => Err(IllegalTransition)
    case Some(state) =>
      Ok(job.(state := state, attempt := NextAttempt(job.attempt, ev),
              payload := NextPayload(job.payload, ev), version := job.version + 1))
  }

  // --- The fold.

  function Open(first: Envelope): Result<Job, DomainError> {
    match first.event
    case Enqueued(queue, payload, priority, policy, notBefore) =>
      if first.version != 1 then Err(NonSequentialVersion(1, first.version))
      else Ok(Job(first.streamId, queue, priority, payload, policy, 0, Pending(notBefore), 1))
    case _ => Err(StreamMustStartWithEnqueued)
  }

  function Advance(job: Job, e: Envelope): Result<Job, DomainError> {
    if e.version != job.version + 1 then Err(NonSequentialVersion(job.version + 1, e.version))
    else Apply(job, e.event)
  }

  function Fold(es: Stream): Result<Job, DomainError> {
    if |es| == 0 then Err(StreamMustStartWithEnqueued)
    else if |es| == 1 then Open(es[0])
    else
      match Fold(es[..|es| - 1])
      case Err(e) => Err(e)
      case Ok(job) => Advance(job, es[|es| - 1])
  }

  lemma {:induction false} FoldSnoc(es: Stream, e: Envelope)
    requires |es| > 0
    ensures Fold(es + [e]) == match Fold(es) case Err(x) => Err(x) case Ok(job) => Advance(job, e)
  {
    assert (es + [e])[..|es|] == es;
  }

  /** A stream that folds has version equal to its length and the identity of its first envelope. */
  lemma {:induction false} FoldFacts(es: Stream)
    requires Fold(es).Ok?
    ensures |es| > 0
    ensures Fold(es).value.version == |es| && Fold(es).value.id == es[0].streamId
    ensures forall k :: 0 <= k < |es| ==> es[k].version == k + 1
  {
    if |es| > 1 {
      var init := es[..|es| - 1];
      FoldFacts(init);
      forall k | 0 <= k < |es| ensures es[k].version == k + 1 {
        if k < |es| - 1 { assert es[k] == init[k]; }
      }
    }
  }

  /** The earliest rejection decides: a stream whose prefix fails to fold fails the same way. */
  lemma {:induction false} FoldRejectsEarly(es: Stream, n: nat)
    requires 1 <= n <= |es| && Fold(es[..n]).Err?
    ensures Fold(es) == Fold(es[..n])
    decreases |es|
  {
    if n == |es| {
      assert es[..n] == es;
    } else {
      var init := es[..|es| - 1];
      assert init[..n] == es[..n];
      FoldRejectsEarly(init, n);
    }
  }

  /** Every non-empty prefix of a stream that folds also folds. */
  lemma {:induction false} PrefixFolds(es: Stream, n: nat)
    requires Fold(es).Ok? && 1 <= n <= |es|
    ensures Fold(es[..n]).Ok?
  {
    if Fold(es[..n]).Err? { FoldRejectsEarly(es, n); }
  }

  // --- Batches.

  function ApplyAll(job: Job, events: seq<JobEvent>): Result<Job, DomainError>
    decreases |events|
  {
    if |events| == 0 then Ok(job)
    else
      match Apply(job, events[0])
      case Err(e) => Err(e)
      case Ok(next) => ApplyAll(next, events[1..])
  }

  function EventsOf(batch: seq<Envelope>): seq<JobEvent> {
    seq(|batch|, k requires 0 <= k < |batch| => batch[k].event)
  }

  /** The envelope check of an append: versions continue the stream and every id is the stream's. */
  predicate Continues(stream: JobId, base: nat, batch: seq<Envelope>) {
    forall k :: 0 <= k < |batch| ==> batch[k].version == base + k + 1 && batch[k].streamId == stream
  }

  /** Folding a stream extended by a well-numbered batch is folding the stream, then the events. */
  lemma {:induction false} FoldExtend(es: Stream, job: Job, stream: JobId, batch: seq<Envelope>)
    requires Fold(es) == Ok(job) && Continues(stream, |es|, batch)
    ensures Fold(es + batch) == ApplyAll(job, EventsOf(batch))
    decreases |batch|
  {
    FoldFacts(es);
    if |batch| == 0 {
      assert es + batch == es;
    } else {
      FoldSnoc(es, batch[0]);
      var es1, rest := es + [batch[0]], batch[1..];
      assert es + batch == es1 + rest;
      assert EventsOf(batch)[1..] == EventsOf(rest);
      match Apply(job, batch[0].event)
      case Err(e) =>
        assert (es + batch)[..|es1|] == es1;
        FoldRejectsEarly(es + batch, |es1|);
      case Ok(next) =>
        assert Continues(stream, |es1|, rest) by {
          forall k | 0 <= k < |rest| ensures rest[k].version == |es1| + k + 1 && rest[k].streamId == stream {
            assert rest[k] == batch[k + 1];
          }
        }
        FoldExtend(es1, next, stream, rest);
    }
  }

  lemma {:induction false} ApplyOne(job: Job, ev: JobEvent)
    ensures ApplyAll(job, [ev]) == Apply(job, ev)
  {
    assert [ev][1..] == [];
  }

  lemma {:induction false} ApplyTwo(job: Job, a: JobEvent, b: JobEvent)
    ensures ApplyAll(job, [a, b]) == match Apply(job, a) case Err(e) => Err(e) case Ok(next) => Apply(next, b)
  {
    assert [a, b][1..] == [b];
    if Apply(job, a).Ok? { ApplyOne(Apply(job, a).value, b); }
  }

  // --- Commands.

  predicate Eligible(notBefore: Option<Time>, now: Time) { notBefore.None? || notBefore.value <= now }

  function Lease(job: Job, worker: WorkerId, lease: LeaseId, now: Time, ttl: Duration): Result<JobEvent, DomainError> {
    if job.state.Pending? && Eligible(job.state.notBefore, now) then
      if IsDelta(ttl) then Ok(JobEvent.Leased(worker, lease, now + ttl)) else Err(InvalidTtl)
    else Err(IllegalTransition)
  }

  function Start(job: Job, worker: WorkerId): Result<JobEvent, DomainError> {
    if job.state.Leased? then
      if job.state.worker == worker then Ok(Started(worker)) else Err(LeaseMismatch)
    else Err(IllegalTransition)
  }

  function Succeed(job: Job, lease: LeaseId, result: Option<Value>): Result<JobEvent, DomainError> {
    if job.state.Running? then
      if job.state.lease == lease then Ok(JobEvent.Succeeded(result)) else Err(LeaseMismatch)
    else Err(IllegalTransition)
  }

  function RetryEvent(job: Job, attempt: U32, now: Time, seed: U64): Result<JobEvent, DomainError> {
    match Decide(job.policy, attempt, seed)
    case RetryAfter(delay) =>
      if IsDelta(delay) && InRange(now + delay) then Ok(RetryScheduled(attempt, now + delay)) else Err(InvalidTtl)
    case Park => Ok(JobEvent.Parked(RetriesExhausted))
  }

  function Fail(job: Job, lease: LeaseId, error: JobError, now: Time, seed: U64): Result<seq<JobEvent>, DomainError> {
    if job.state.Running? then
      if job.state.lease == lease then
        var attempt := AddOne(job.attempt);
        if error.retryable then
          match RetryEvent(job, attempt, now, seed)
          case Err(e) => Err(e)
          case Ok(next) => Ok([Failed(error, attempt), next])
        else Ok([Failed(error, attempt), JobEvent.Parked(NonRetryableError)])
      else Err(LeaseMismatch)
    else Err(IllegalTransition)
  }

  function ExpireLease(job: Job, now: Time, seed: U64): Result<seq<JobEvent>, DomainError> {
    if job.state.Held() then
      match RetryEvent(job, AddOne(job.attempt), now, seed)
      case Err(e) => Err(e)
      case Ok(next) => Ok([LeaseExpired(job.state.lease), next])
    else Err(IllegalTransition)
  }

  function Cancel(job: Job, reason: Option<string>): Result<JobEvent, DomainError> {
    if job.state.Terminal() then Err(IllegalTransition) else Ok(JobEvent.Cancelled(reason))
  }

  function LateAck(worker: WorkerId, lease: LeaseId, reported: ReportedOutcome): JobEvent {
    LateAckConflict(worker, lease, reported)
  }

  // --- What follows an ended attempt.

  /** The instant of a retry drawn with this seed, after the n-th ended attempt. */
  function RetryTime(p: RetryPolicy, n: U32, now: Time, seed: U64): Time { now + Jitter(p, n, seed) * NANOS_PER_MILLI }

  /** Exhausted jobs are parked, all others retried at the drawn instant. */
  predicate Due(p: RetryPolicy, n: U32, now: Time, seed: U64, next: JobEvent) {
    if n >= p.maxAttempts then next == JobEvent.Parked(RetriesExhausted)
    else next == RetryScheduled(n, RetryTime(p, n, now, seed))
  }

  /** No earlier than now, and no later than exponential backoff and the cap allow. */
  predicate InBackoff(p: RetryPolicy, n: U32, now: Time, t: Time) {
    now <= t && (1 <= n ==> t <= now + Min(p.baseDelay * Pow2(n - 1), p.maxDelay))
  }

  lemma DueInBackoff(p: RetryPolicy, n: U32, now: Time, seed: U64, next: JobEvent)
    requires Due(p, n, now, seed, next) && next.RetryScheduled?
    ensures next.completed == n && n < p.maxAttempts && InBackoff(p, n, now, next.retryAt)
  {
    if 1 <= n { DelayBound(p, n, seed); }
  }

  /** The decision is the one that is due, and it fails only where a retry time is not representable. */
  lemma RetryIsDue(job: Job, n: U32, now: Time, seed: U64)
    ensures match RetryEvent(job, n, now, seed)
            case Ok(next) => Due(job.policy, n, now, seed, next)
            case Err(e) =>
              && e == InvalidTtl && n < job.policy.maxAttempts
              && (|| !IsDelta(Jitter(job.policy, n, seed) * NANOS_PER_MILLI)
                  || !InRange(RetryTime(job.policy, n, now, seed)))
  {
  }

  /** Every millisecond of the interval is some seed's retry time. */
  lemma RetryReaches(job: Job, n: U32, now: Time, d: nat) returns (seed: U64)
    requires InRange(now) && n < job.policy.maxAttempts && RetryFits(job.policy, n, now) && d <= Ceiling(job.policy, n)
    ensures RetryEvent(job, n, now, seed) == Ok(RetryScheduled(n, now + d * NANOS_PER_MILLI))
  {
    seed := JitterReaches(job.policy, n, d);
    RetryNeverErrsIffFits(job, n, now);
  }

  /** The seeds that retry at exactly this instant. */
  ghost function RetrySeeds(job: Job, n: U32, now: Time, t: Time): set<U64> {
    set s: U64 | s < WORD && RetryEvent(job, n, now, s) == Ok(RetryScheduled(n, t))
  }

  /** Any two retry times of the interval are drawn by equally many seeds, up to one. */
  lemma RetryFair(job: Job, n: U32, now: Time, d: nat, e: nat)
    requires InRange(now) && n < job.policy.maxAttempts && RetryFits(job.policy, n, now)
    requires d <= Ceiling(job.policy, n) && e <= Ceiling(job.policy, n)
    ensures -1 <= |RetrySeeds(job, n, now, now + d * NANOS_PER_MILLI)|
                  - |RetrySeeds(job, n, now, now + e * NANOS_PER_MILLI)| <= 1
  {
    RetrySeedsAre(job, n, now, d);
    RetrySeedsAre(job, n, now, e);
    JitterFair(job.policy, n, d, e);
  }

  lemma RetrySeedsAre(job: Job, n: U32, now: Time, d: nat)
    requires InRange(now) && n < job.policy.maxAttempts && RetryFits(job.policy, n, now)
    ensures RetrySeeds(job, n, now, now + d * NANOS_PER_MILLI) == SeedsFor(job.policy, n, d)
  {
    RetryNeverErrsIffFits(job, n, now);
  }

  /** The longest delay the policy can draw after this attempt can be added to the clock. */
  predicate RetryFits(p: RetryPolicy, attempt: U32, now: Time) {
    var longest := Ceiling(p, attempt) * NANOS_PER_MILLI;
    attempt >= p.maxAttempts || (IsDelta(longest) && InRange(now + longest))
  }

  /** Exactly when no seed makes the retry decision err. */
  lemma RetryNeverErrsIffFits(job: Job, attempt: U32, now: Time)
    requires InRange(now)
    ensures (forall seed: U64 :: RetryEvent(job, attempt, now, seed).Ok?) <==> RetryFits(job.policy, attempt, now)
  {
    var seed := JitterReaches(job.policy, attempt, Ceiling(job.policy, attempt));
    if !RetryFits(job.policy, attempt, now) {
      assert RetryEvent(job, attempt, now, seed).Err?;
    } else {
      forall s: U64 ensures RetryEvent(job, attempt, now, s).Ok? {
        assert Jitter(job.policy, attempt, s) * NANOS_PER_MILLI <= Ceiling(job.policy, attempt) * NANOS_PER_MILLI;
      }
    }
  }

  /** Accepted policies fit until a month before the end of time. */
  lemma SanePoliciesFit(p: RetryPolicy, attempt: U32, now: Time)
    requires Sane(p) && InRange(now) && InRange(now + MAX_SANE_DELAY)
    ensures RetryFits(p, attempt, now)
  {
  }

  // --- The aggregate as the source runs it: fields updated in place, folded by a loop.

  class Aggregate {
    var id: JobId
    var queue: QueueName
    var priority: Priority
    var payload: Value
    var policy: RetryPolicy
    var attempt: U32
    var state: JobState
    var version: nat

    function View(): Job
      reads this
    {
      Job(id, queue, priority, payload, policy, attempt, state, version)
    }

    constructor (job: Job)
      ensures View() == job
    {
      id, queue, priority, payload := job.id, job.queue, job.priority, job.payload;
      policy, attempt, state, version := job.policy, job.attempt, job.state, job.version;
    }

    /** The transition table: the target state, with attempt and payload already updated. */
    method Transition(ev: JobEvent) returns (next: Option<JobState>)
      modifies this`attempt, this`payload
      ensures next == NextState(state, ev)
      ensures next.Some? ==> attempt == NextAttempt(old(attempt), ev) && payload == NextPayload(old(payload), ev)
      ensures next.None? ==> attempt == old(attempt) && payload == old(payload)
    {
      match ev {
        case Leased(w, l, x) =>
          if !state.Pending? { return None; }
          next := Some(JobState.Leased(w, l, x));
        case Started(_) =>
          if !state.Leased? { return None; }
          next := Some(Running(state.worker, state.lease, state.expiresAt));
        case Succeeded(_) =>
          if !state.Running? { return None; }
          next := Some(JobState.Succeeded);
        case Failed(_, n) =>
          if !state.Running? { return None; }
          attempt := n;
          next := Some(Pending(None));
        case RetryScheduled(n, t) =>
          if !state.Pending? { return None; }
          attempt := n;
          next := Some(Pending(Some(t)));
        case LeaseExpired(_) =>
          if !state.Held() { return None; }
          attempt := AddOne(attempt);
          next := Some(Pending(None));
        case Repaired(newPayload, _) =>
          if !state.Parked? { return None; }
          if newPayload.Some? { payload := newPayload.value; }
          attempt := 0;
          next := Some(Pending(None));
        case Parked(reason) =>
          if !state.Pending? { return None; }
          next := Some(JobState.Parked(reason));
        case Cancelled(_) =>
          if state.Terminal() { return None; }
          next := Some(JobState.Cancelled);
        case LateAckConflict(_, _, _) =>
          next := Some(state);
        case CheckpointRecorded(_, _) =>
          if !state.Running? { return None; }
          next := Some(state);
        case SignalReceived(_, _) =>
          if state.Terminal() || state.Parked? { return None; }
          next := Some(state);
        case Stalled =>
          if !state.Held() { return None; }
          next := Some(state);
        case ApprovalRequested(key) =>
          if !state.Running? { return None; }
          next := Some(AwaitingApproval(key));
        case ApprovalGranted(_, _) =>
          if !state.AwaitingApproval? { return None; }
          next := Some(Pending(None));
        case ApprovalDeniedBy(_, _) =>
          if !state.AwaitingApproval? { return None; }
          next := Some(JobState.Parked(ApprovalDenied));
        case Suspended =>
          if !state.Pending? && !state.Running? { return None; }
          next := Some(JobState.Suspended);
        case Resumed =>
          if !state.Suspended? { return None; }
          next := Some(Pending(None));
        case Enqueued(_, _, _, _, _) =>
          return None;
      }
    }

    /** A rejected event leaves the aggregate untouched, version included. */
    method ApplyEvent(ev: JobEvent) returns (err: Option<DomainError>)
      modifies this
      ensures match Apply(old(View()), ev)
              case Ok(job) => err == None && View() == job
              case Err(e) => err == Some(e) && View() == old(View())
    {
      var next := Transition(ev);
      if next.None? { return Some(IllegalTransition); }
      state := next.value;
      version := version + 1;
      err := None;
    }
  }

  method FromEvents(es: Stream) returns (r: Result<Job, DomainError>)
    ensures r == Fold(es)
  {
    if |es| == 0 { return Err(StreamMustStartWithEnqueued); }
    var first := Open(es[0]);
    assert es[..1] == [es[0]];
    if first.Err? {
      FoldRejectsEarly(es, 1);
      return first;
    }
    var job := new Aggregate(first.value);
    var i := 1;
    while i < |es|
      invariant 1 <= i <= |es|
      invariant Fold(es[..i]) == Ok(job.View())
    {
      assert es[..i + 1] == es[..i] + [es[i]];
      FoldSnoc(es[..i], es[i]);
      if es[i].version != job.version + 1 {
        FoldRejectsEarly(es, i + 1);
        return Err(NonSequentialVersion(job.version + 1, es[i].version));
      }
      var err := job.ApplyEvent(es[i].event);
      if err.Some? {
        FoldRejectsEarly(es, i + 1);
        return Err(err.value);
      }
      i := i + 1;
    }
    assert es[..i] == es;
    return Ok(job.View());
  }
}
