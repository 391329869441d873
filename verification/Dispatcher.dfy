/** Claim, heartbeat and lease retirement: composites over the store, each one hold of its mutex. */
module Dispatchers {
  import opened Types
  import opened Words
  import opened Jobs
  import opened Lineages
  import opened Stores

  type Index = map<JobId, DispatchEntry>

  datatype LeasedJob = LeasedJob(
    job: JobId, queue: QueueName, payload: Value, attempt: U32, lease: LeaseId, expiresAt: Time,
    correlation: CorrelationId, traceparent: Option<string>)

  // --- Selection. Each relation fixes what a scan of the map in any order may return.

  predicate Claimable(e: DispatchEntry, queue: QueueName, now: Time) {
    e.queue == queue && e.lease.None? && Eligible(e.notBefore, now)
  }

  /** Higher priority first, then the smaller sequence number. */
  predicate Before(a: DispatchEntry, b: DispatchEntry) {
    a.priority > b.priority || (a.priority == b.priority && a.seqNo < b.seqNo)
  }

  ghost predicate IsPick(index: Index, queue: QueueName, now: Time, picked: Option<JobId>) {
    match picked
    case None => forall k :: k in index ==> !Claimable(index[k], queue, now)
    case Some(j) =>
      && j in index && Claimable(index[j], queue, now)
      && forall k :: k in index && Claimable(index[k], queue, now) ==> !Before(index[k], index[j])
  }

  predicate Expired(e: DispatchEntry, now: Time) { e.lease.Some? && e.lease.value.expiresAt <= now }

  ghost predicate IsFirstExpired(index: Index, now: Time, picked: Option<JobId>) {
    match picked
    case None => forall k :: k in index ==> !Expired(index[k], now)
    case Some(j) => j in index && Expired(index[j], now) && forall k :: k in index && Expired(index[k], now) ==> j <= k
  }

  predicate Carries(e: DispatchEntry, lease: LeaseId) { e.lease.Some? && e.lease.value.lease == lease }

  ghost predicate IsHit(index: Index, lease: LeaseId, hit: Option<JobId>) {
    match hit
    case None => forall k :: k in index ==> !Carries(index[k], lease)
    case Some(j) => j in index && Carries(index[j], lease)
  }

  // --- The composites as functions of the state and of what the scan returned.

  function ClaimPicked(
    s: Inner, j: JobId, worker: WorkerId, lease: LeaseId, ttl: Duration, now: Time, at: Time, ids: seq<EventId>
  ): (Inner, Result<Option<LeasedJob>, DispatchError>)
    requires |ids| >= 2
  {
    match Load(s, j)
    case Err(e) => (s, Err(Store(e)))
    case Ok(stream) =>
      match Fold(stream)
      case Err(e) => (s, Err(Store(DoesNotFold(e))))
      case Ok(job) =>
        match Lease(job, worker, lease, now, ttl)
        case Err(e) => (s, Err(Store(Drift(e))))
        case Ok(ev) =>
          var lineage := LineageOf(stream);
          match Append(s, j, job.version, Wrap(ids, at, j, job.version, lineage, [ev]))
          case Err(e) => (s, Err(Store(e)))
          case Ok(inner) =>
            (inner, Ok(Some(LeasedJob(j, job.queue, job.payload, job.attempt, lease, now + ttl,
                                      lineage.correlation, lineage.traceparent))))
  }

  function Claim(
    s: Inner, picked: Option<JobId>, worker: WorkerId, lease: LeaseId, ttl: Duration, now: Time, at: Time,
    ids: seq<EventId>
  ): (Inner, Result<Option<LeasedJob>, DispatchError>)
    requires |ids| >= 2
  {
    match picked
    case None => (s, Ok(None))
    case Some(j) => ClaimPicked(s, j, worker, lease, ttl, now, at, ids)
  }

  function SetDeadline(e: DispatchEntry, t: Time): DispatchEntry
    requires e.lease.Some?
  {
    e.(lease := Some(e.lease.value.(expiresAt := t)))
  }

  function Extend(s: Inner, hit: Option<JobId>, ttl: Duration, now: Time): (Inner, Result<bool, DispatchError>)
    requires hit.Some? ==> hit.value in s.index && s.index[hit.value].lease.Some?
  {
    if !IsDelta(ttl) then (s, Err(TtlOutOfRange))
    else if hit.None? || Expired(s.index[hit.value], now) then (s, Ok(false))
    else (s.(index := s.index[hit.value := SetDeadline(s.index[hit.value], now + ttl)]), Ok(true))
  }

  function RetirePicked(
    s: Inner, j: JobId, now: Time, seed: U64, at: Time, ids: seq<EventId>
  ): (Inner, Result<Option<JobId>, DispatchError>)
    requires |ids| >= 2
  {
    match Load(s, j)
    case Err(e) => (s, Err(Store(e)))
    case Ok(stream) =>
      match Fold(stream)
      case Err(e) => (s, Err(Domain(e)))
      case Ok(job) =>
        match ExpireLease(job, now, seed)
        case Err(e) => (s, Err(Domain(e)))
        case Ok(events) =>
          match Append(s, j, job.version, Wrap(ids, at, j, job.version, LineageOf(stream), events))
          case Err(e) => (s, Err(Store(e)))
          case Ok(inner) => (inner, Ok(Some(j)))
  }

  function Retire(
    s: Inner, picked: Option<JobId>, now: Time, seed: U64, at: Time, ids: seq<EventId>
  ): (Inner, Result<Option<JobId>, DispatchError>)
    requires |ids| >= 2
  {
    match picked
    case None => (s, Ok(None))
    case Some(j) => RetirePicked(s, j, now, seed, at, ids)
  }

  // --- The dispatcher as the source runs it.

  class InMemoryDispatcher {
    const store: InMemoryEventStore

    constructor (store: InMemoryEventStore)
      ensures this.store == store
    {
      this.store := store;
    }

    method PickEligible(queue: QueueName, now: Time) returns (picked: Option<JobId>)
      ensures IsPick(store.index, queue, now, picked)
    {
      picked := None;
      var todo := store.index.Keys;
      while todo != {}
        invariant todo <= store.index.Keys
        invariant picked.None? ==>
                    forall k :: k in store.index && k !in todo ==> !Claimable(store.index[k], queue, now)
        invariant picked.Some? ==>
                    && picked.value in store.index && Claimable(store.index[picked.value], queue, now)
                    && forall k :: k in store.index && k !in todo && Claimable(store.index[k], queue, now) ==>
                                     !Before(store.index[k], store.index[picked.value])
      {
        var j :| j in todo;
        if Claimable(store.index[j], queue, now)
           && (picked.None? || !Before(store.index[picked.value], store.index[j])) {
          picked := Some(j);
        }
        todo := todo - {j};
      }
    }

    method FirstExpired(now: Time) returns (picked: Option<JobId>)
      ensures IsFirstExpired(store.index, now, picked)
    {
      picked := None;
      var todo := store.index.Keys;
      while todo != {}
        invariant todo <= store.index.Keys
        invariant picked.None? ==> forall k :: k in store.index && k !in todo ==> !Expired(store.index[k], now)
        invariant picked.Some? ==>
                    && picked.value in store.index && Expired(store.index[picked.value], now)
                    && forall k :: k in store.index && k !in todo && Expired(store.index[k], now) ==> picked.value <= k
      {
        var j :| j in todo;
        if Expired(store.index[j], now) && (picked.None? || j < picked.value) {
          picked := Some(j);
        }
        todo := todo - {j};
      }
    }

    method ClaimNext(
      queue: QueueName, worker: WorkerId, lease: LeaseId, ttl: Duration, now: Time, at: Time, ids: seq<EventId>)
      returns (ghost picked: Option<JobId>, r: Result<Option<LeasedJob>, DispatchError>)
      requires |ids| >= 2 && (IsDelta(ttl) ==> InRange(now + ttl))
      modifies store
      ensures IsPick(old(store.index), queue, now, picked)
      ensures (store.View(), r) == Claim(old(store.View()), picked, worker, lease, ttl, now, at, ids)
    {
      var choice := PickEligible(queue, now);
      picked := choice;
      if choice.None? { return picked, Ok(None); }
      var j := choice.value;
      var loaded := store.LoadStream(j);
      if loaded.Err? { return picked, Err(Store(loaded.error)); }
      var stream := loaded.value;
      var folded := FromEvents(stream);
      if folded.Err? { return picked, Err(Store(DoesNotFold(folded.error))); }
      var job := folded.value;
      var ev := Lease(job, worker, lease, now, ttl);
      if ev.Err? { return picked, Err(Store(Drift(ev.error))); }
      var lineage := LineageOf(stream);
      var batch := WrapEvents(ids, at, j, job.version, lineage, [ev.value]);
      var err := store.AppendLocked(j, job.version, batch);
      if err.Some? { return picked, Err(Store(err.value)); }
      return picked, Ok(Some(LeasedJob(j, job.queue, job.payload, job.attempt, lease, now + ttl,
                                       lineage.correlation, lineage.traceparent)));
    }

    method ExtendLease(lease: LeaseId, ttl: Duration, now: Time)
      returns (ghost hit: Option<JobId>, r: Result<bool, DispatchError>)
      requires IsDelta(ttl) ==> InRange(now + ttl)
      modifies store
      ensures IsHit(old(store.index), lease, hit)
      ensures (store.View(), r) == Extend(old(store.View()), hit, ttl, now)
    {
      var todo := store.index.Keys;
      ghost var known := store.index;
      hit := None;
      if !IsDelta(ttl) {
        hit := if j :| j in known && Carries(known[j], lease) then Some(j) else None;
        return hit, Err(TtlOutOfRange);
      }
      var deadline := now + ttl;
      while todo != {}
        invariant store.View() == old(store.View()) && todo <= store.index.Keys
        invariant forall k :: k in store.index && k !in todo ==> !Carries(store.index[k], lease)
      {
        var j :| j in todo;
        var entry := store.index[j];
        if entry.lease.Some? && entry.lease.value.lease == lease {
          hit := Some(j);
          if entry.lease.value.expiresAt <= now { return hit, Ok(false); }
          store.index := store.index[j := entry.(lease := Some(entry.lease.value.(expiresAt := deadline)))];
          return hit, Ok(true);
        }
        todo := todo - {j};
      }
      return None, Ok(false);
    }

    method RetireOne(now: Time, seed: U64, at: Time, ids: seq<EventId>)
      returns (ghost picked: Option<JobId>, r: Result<Option<JobId>, DispatchError>)
      requires |ids| >= 2
      modifies store
      ensures IsFirstExpired(old(store.index), now, picked)
      ensures (store.View(), r) == Retire(old(store.View()), picked, now, seed, at, ids)
    {
      var choice := FirstExpired(now);
      picked := choice;
      if choice.None? { return picked, Ok(None); }
      var j := choice.value;
      var loaded := store.LoadStream(j);
      if loaded.Err? { return picked, Err(Store(loaded.error)); }
      var stream := loaded.value;
      var folded := FromEvents(stream);
      if folded.Err? { return picked, Err(Domain(folded.error)); }
      var job := folded.value;
      var events := ExpireLease(job, now, seed);
      if events.Err? { return picked, Err(Domain(events.error)); }
      var batch := WrapEvents(ids, at, j, job.version, LineageOf(stream), events.value);
      var err := store.AppendLocked(j, job.version, batch);
      if err.Some? { return picked, Err(Store(err.value)); }
      return picked, Ok(Some(j));
    }
  }
}
