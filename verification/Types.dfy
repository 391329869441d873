/** Values shared by every layer of the broker: identifiers, time, events and envelopes. */
module Types {

  datatype Option<+T> = None | Some(value: T)

  datatype Result<+T, +E> = Ok(value: T) | Err(error: E)

  // Identifiers are UUIDs behind the id port; only equality and, for jobs, the order matter.
  type JobId = nat
  type EventId = nat
  type LeaseId = nat
  type CorrelationId = nat
  type WorkerId = string
  type QueueName = string
  // A JSON document, never inspected by the broker.
  type Value = string

  const NIL_CORRELATION: CorrelationId := 0
  const SCHEMA_VERSION: nat := 1

  type Priority = p: int | -0x8000 <= p <= 0x7fff

  const U32_LIMIT: nat := 0x1_0000_0000
  type U32 = n: nat | n < U32_LIMIT

  /** u32 increment with the wrap-around of an unchecked build. */
  function AddOne(n: U32): U32 { if n + 1 == U32_LIMIT then 0 else n + 1 }

  // --- Time: nanoseconds since the Unix epoch; durations: nanoseconds.

  type Time = int
  const NANOS_PER_MILLI: nat := 1_000_000
  const NANOS_PER_SEC: nat := 1_000_000_000

  // First and last instants of a UTC timestamp: years -262143 to +262142.
  const MIN_TIME: Time := -8_334_601_228_800 * NANOS_PER_SEC
  const MAX_TIME: Time := 8_210_266_876_799 * NANOS_PER_SEC + 999_999_999

  predicate InRange(t: Time) { MIN_TIME <= t <= MAX_TIME }

  const DURATION_MAX: nat := 18_446_744_073_709_551_615 * NANOS_PER_SEC + 999_999_999
  type Duration = d: nat | d <= DURATION_MAX

  // A duration converts to a signed time delta up to i64::MAX milliseconds.
  const DELTA_MAX: nat := 9_223_372_036_854_775_807 * NANOS_PER_MILLI

  predicate IsDelta(d: Duration) { d <= DELTA_MAX }

  // --- Events.

  datatype RetryPolicy = RetryPolicy(maxAttempts: U32, baseDelay: Duration, maxDelay: Duration)

  datatype JobError = JobError(kind: string, message: string, stacktrace: Option<string>, retryable: bool)

  datatype ParkReason = RetriesExhausted | NonRetryableError | ApprovalDenied

  datatype ReportedOutcome = ReportedSuccess | ReportedFailure

  datatype JobEvent =
    | Enqueued(queue: QueueName, payload: Value, priority: Priority, policy: RetryPolicy, notBefore: Option<Time>)
    | Leased(worker: WorkerId, lease: LeaseId, expiresAt: Time)
    | Started(starter: WorkerId)
    | Succeeded(result: Option<Value>)
    | Failed(error: JobError, failedAttempt: U32)
    | LeaseExpired(expired: LeaseId)
    | RetryScheduled(completed: U32, retryAt: Time)
    | Parked(parkReason: ParkReason)
    | Cancelled(reason: Option<string>)
    | LateAckConflict(lateWorker: WorkerId, lateLease: LeaseId, reported: ReportedOutcome)
    | Stalled
    | CheckpointRecorded(step: string, data: Value)
    | SignalReceived(name: string, signal: Value)
    | ApprovalRequested(key: string)
    | ApprovalGranted(grantKey: string, granter: string)
    | ApprovalDeniedBy(denyKey: string, denier: string)
    | Suspended
    | Resumed
    | Repaired(newPayload: Option<Value>, note: string)

  /** Causal context shared by all envelopes of one batch. */
  datatype Lineage = Lineage(correlation: CorrelationId, causation: Option<EventId>, traceparent: Option<string>)

  datatype Envelope = Envelope(
    eventId: EventId, streamId: JobId, version: nat, recordedAt: Time,
    lineage: Lineage, schemaVersion: nat, event: JobEvent)

  type Stream = seq<Envelope>

  datatype DomainError =
    | IllegalTransition
    | StreamMustStartWithEnqueued
    | NonSequentialVersion(expected: nat, got: nat)
    | LeaseMismatch
    | InvalidTtl

  datatype StoreError =
    | VersionConflict(stream: JobId, expectedVersion: nat)
    | StreamNotFound(missing: JobId)
    | MalformedBatch(malformed: JobId)
    | DoesNotFold(cause: DomainError)
    | Drift(drift: DomainError)

  datatype DispatchError =
    | Store(store: StoreError)
    | Domain(domain: DomainError)
    | TtlOutOfRange
}
