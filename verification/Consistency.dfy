/** The dispatch index is a cache of the log: what every operation keeps, and what it rules out. */
module Consistency {
  import opened Types
  import opened Words
  import opened Jobs
  import opened Lineages
  import opened Stores
  import opened Dispatchers

  /** A stored stream folds, to a job of the same identity. */
  ghost predicate Stored(j: JobId, es: Stream) { Fold(es).Ok? && Fold(es).value.id == j }

  ghost predicate LogOk(s: Inner) { forall j :: j in s.streams ==> Stored(j, s.streams[j]) }

  ghost function JobAt(s: Inner, j: JobId): Job
    requires LogOk(s) && j in s.streams
  {
    Fold(s.streams[j]).value
  }

  predicate SameButDeadline(a: DispatchEntry, b: DispatchEntry) {
    && a.queue == b.queue && a.priority == b.priority && a.seqNo == b.seqNo && a.notBefore == b.notBefore
    && (a.lease.Some? <==> b.lease.Some?)
    && (a.lease.Some? ==> a.lease.value.lease == b.lease.value.lease && a.lease.value.worker == b.lease.value.worker)
  }

  /** The entry is the job's projection, the lease deadline excepted. */
  predicate Agrees(e: DispatchEntry, job: Job) {
    EntryOf(job, e.seqNo).Some? && SameButDeadline(e, EntryOf(job, e.seqNo).value)
  }

  ghost predicate IndexedRight(s: Inner, j: JobId)
    requires LogOk(s)
  {
    && (j in s.index <==> j in s.streams && JobAt(s, j).state.Dispatchable())
    && (j in s.index ==> Agrees(s.index[j], JobAt(s, j)) && s.index[j].seqNo <= s.counter)
  }

  predicate Apart(index: Index, j: JobId, k: JobId) {
    j in index && k in index && j != k ==> index[j].seqNo != index[k].seqNo
  }

  ghost predicate Consistent(s: Inner) {
    && LogOk(s)
    && (forall j :: IndexedRight(s, j))
    && (forall j, k :: Apart(s.index, j, k))
  }

  // --- Appends.

  /** Job k has the same stream and the same index entry in both states. */
  predicate SameAt(s: Inner, t: Inner, k: JobId) {
    && (k in s.streams <==> k in t.streams) && (k in s.streams ==> s.streams[k] == t.streams[k])
    && (k in s.index <==> k in t.index) && (k in s.index ==> s.index[k] == t.index[k])
  }

  /** The sequence number an append to j projects with. */
  function SeqFor(s: Inner, j: JobId): nat { if j in s.index then s.index[j].seqNo else s.counter + 1 }

  /** What one successful append changes, and what it does not. */
  ghost predicate Appended(s: Inner, t: Inner, j: JobId, batch: seq<Envelope>) {
    var es := StreamOf(s, j) + batch;
    && j in t.streams && t.streams[j] == es && Stored(j, es)
    && (j in t.index <==> Fold(es).value.state.Dispatchable())
    && (j in t.index ==> EntryOf(Fold(es).value, SeqFor(s, j)) == Some(t.index[j]))
    && s.counter <= t.counter && (j in t.index ==> t.index[j].seqNo <= t.counter || j in s.index)
    && forall k :: k != j ==> SameAt(s, t, k)
  }

  lemma {:induction false} ExtendedIdentity(s: Inner, j: JobId, batch: seq<Envelope>)
    requires LogOk(s) && Continues(j, |StreamOf(s, j)|, batch) && Fold(StreamOf(s, j) + batch).Ok?
    ensures Stored(j, StreamOf(s, j) + batch)
  {
    var cur := StreamOf(s, j);
    var es := cur + batch;
    FoldFacts(es);
    if j in s.streams {
      FoldFacts(cur);
      assert es[0] == cur[0];
    } else {
      assert es[0] == batch[0];
    }
  }

  /** Re-projection touches one entry and no stream. */
  lemma ProjectEffect(s: Inner, job: Job)
    ensures var t, j := Project(s, job), job.id;
            && t.streams == s.streams
            && (j in t.index <==> job.state.Dispatchable())
            && (j in t.index ==> EntryOf(job, SeqFor(s, j)) == Some(t.index[j]))
            && s.counter <= t.counter && (j in t.index ==> t.index[j].seqNo <= t.counter || j in s.index)
            && forall k :: k != j ==> (k in s.index <==> k in t.index) && (k in s.index ==> s.index[k] == t.index[k])
  {
  }

  lemma AppendEffect(s: Inner, j: JobId, expected: nat, batch: seq<Envelope>)
    requires LogOk(s) && Append(s, j, expected, batch).Ok?
    ensures expected == |StreamOf(s, j)|
    ensures Appended(s, Append(s, j, expected, batch).value, j, batch)
  {
    var es := StreamOf(s, j) + batch;
    ExtendedIdentity(s, j, batch);
    ProjectEffect(s.(streams := s.streams[j := es]), Fold(es).value);
  }

  lemma AppendKeepsConsistent(s: Inner, t: Inner, j: JobId, batch: seq<Envelope>)
    requires Consistent(s) && Appended(s, t, j, batch)
    ensures Consistent(t)
  {
    forall k | k in t.streams ensures Stored(k, t.streams[k]) {
      assert k == j || SameAt(s, t, k);
    }
    forall k ensures IndexedRight(t, k) {
      assert IndexedRight(s, k);
      assert k == j || SameAt(s, t, k);
    }
    forall k, l ensures Apart(t.index, k, l) {
      assert Apart(s.index, k, l) && IndexedRight(s, k) && IndexedRight(s, l);
      assert k == j || SameAt(s, t, k);
      assert l == j || SameAt(s, t, l);
    }
  }

  /** The batch continues stream j into a stream that folds to `next`. */
  ghost predicate Grows(s: Inner, j: JobId, batch: seq<Envelope>, next: Job) {
    && LogOk(s) && j in s.streams && Continues(j, |s.streams[j]|, batch)
    && ApplyAll(JobAt(s, j), EventsOf(batch)) == Ok(next)
  }

  /** Such a batch is always accepted. */
  lemma {:induction false} AppendAccepts(s: Inner, j: JobId, batch: seq<Envelope>, next: Job)
    requires Grows(s, j, batch, next)
    ensures JobAt(s, j).version == |s.streams[j]|
    ensures Append(s, j, |s.streams[j]|, batch).Ok?
    ensures Fold(s.streams[j] + batch) == Ok(next)
    ensures Appended(s, Append(s, j, |s.streams[j]|, batch).value, j, batch)
  {
    FoldFacts(s.streams[j]);
    FoldExtend(s.streams[j], JobAt(s, j), j, batch);
    AppendEffect(s, j, |s.streams[j]|, batch);
  }

  /** Events decided for a stream, wrapped to continue it. */
  function BatchFor(es: Stream, j: JobId, events: seq<JobEvent>, at: Time, ids: seq<EventId>): seq<Envelope>
    requires |ids| >= |events|
  {
    Wrap(ids, at, j, |es|, LineageOf(es), events)
  }

  // --- Claim.

  /** The job after a claim. */
  function AfterClaim(job: Job, worker: WorkerId, lease: LeaseId, expiresAt: Time): Job {
    job.(state := JobState.Leased(worker, lease, expiresAt), version := job.version + 1)
  }

  /** A pick is a stored pending job of that queue whose time has come. */
  lemma PickIsPending(s: Inner, queue: QueueName, now: Time, j: JobId)
    requires Consistent(s) && IsPick(s.index, queue, now, Some(j))
    ensures j in s.streams && JobAt(s, j).queue == queue
    ensures JobAt(s, j).state.Pending? && Eligible(JobAt(s, j).state.notBefore, now)
  {
    assert IndexedRight(s, j);
  }

  /**
   * From a consistent state a claim cannot miss its stream, fail to fold or lose its append: with
   * a representable ttl it leases the picked job and reports what the log says about it.
   */
  lemma ClaimSucceeds(
    s: Inner, queue: QueueName, j: JobId, worker: WorkerId, lease: LeaseId, ttl: Duration, now: Time, at: Time,
    ids: seq<EventId>)
    requires Consistent(s) && IsPick(s.index, queue, now, Some(j)) && IsDelta(ttl) && |ids| >= 2
    ensures j in s.streams && |s.streams[j]| > 0
    ensures var job := JobAt(s, j);
            var batch := BatchFor(s.streams[j], j, [JobEvent.Leased(worker, lease, now + ttl)], at, ids);
            var (t, r) := Claim(s, Some(j), worker, lease, ttl, now, at, ids);
            && Appended(s, t, j, batch)
            && Fold(s.streams[j] + batch) == Ok(AfterClaim(job, worker, lease, now + ttl))
            && r == Ok(Some(LeasedJob(j, queue, job.payload, job.attempt, lease, now + ttl,
                                      s.streams[j][0].lineage.correlation, s.streams[j][0].lineage.traceparent)))
  {
    PickIsPending(s, queue, now, j);
    var job := JobAt(s, j);
    FoldFacts(s.streams[j]);
    var ev := JobEvent.Leased(worker, lease, now + ttl);
    ApplyOne(job, ev);
    AppendAccepts(s, j, BatchFor(s.streams[j], j, [ev], at, ids), AfterClaim(job, worker, lease, now + ttl));
  }

  /** The only error left is an unrepresentable ttl; it changes nothing. */
  lemma ClaimRefusesTtl(
    s: Inner, queue: QueueName, j: JobId, worker: WorkerId, lease: LeaseId, ttl: Duration, now: Time, at: Time,
    ids: seq<EventId>)
    requires Consistent(s) && IsPick(s.index, queue, now, Some(j)) && !IsDelta(ttl) && |ids| >= 2
    ensures Claim(s, Some(j), worker, lease, ttl, now, at, ids) == (s, Err(Store(Drift(InvalidTtl))))
  {
    PickIsPending(s, queue, now, j);
  }

  // --- Retirement.

  /** The job after an attempt ended by failure or expiry and its retry was decided. */
  function AfterAttempt(job: Job, next: JobEvent): Job
    requires next.RetryScheduled? || next.Parked?
  {
    job.(attempt := AddOne(job.attempt), version := job.version + 2,
         state := if next.RetryScheduled? then Pending(Some(next.retryAt)) else JobState.Parked(next.parkReason))
  }

  lemma {:induction false} ExpiryFolds(job: Job, lease: LeaseId, next: JobEvent)
    requires job.state.Held()
    requires next.Parked? || (next.RetryScheduled? && next.completed == AddOne(job.attempt))
    ensures ApplyAll(job, [LeaseExpired(lease), next]) == Ok(AfterAttempt(job, next))
  {
    ApplyTwo(job, LeaseExpired(lease), next);
  }

  lemma FirstExpiredIsHeld(s: Inner, now: Time, j: JobId)
    requires Consistent(s) && IsFirstExpired(s.index, now, Some(j))
    ensures j in s.streams && JobAt(s, j).state.Held()
    ensures s.index[j].lease.value.lease == JobAt(s, j).state.lease
  {
    assert IndexedRight(s, j);
  }

  /** A retirement whose retry time is representable expires the lease with exactly two events. */
  lemma RetireSucceeds(s: Inner, j: JobId, now: Time, seed: U64, at: Time, ids: seq<EventId>, next: JobEvent)
    requires Consistent(s) && IsFirstExpired(s.index, now, Some(j)) && |ids| >= 2
    requires j in s.streams
    requires RetryEvent(JobAt(s, j), AddOne(JobAt(s, j).attempt), now, seed) == Ok(next)
    ensures Due(JobAt(s, j).policy, AddOne(JobAt(s, j).attempt), now, seed, next)
    ensures JobAt(s, j).state.Held()
    ensures var job := JobAt(s, j);
            var batch := BatchFor(s.streams[j], j, [LeaseExpired(job.state.lease), next], at, ids);
            var (t, r) := Retire(s, Some(j), now, seed, at, ids);
            && Appended(s, t, j, batch)
            && Fold(s.streams[j] + batch) == Ok(AfterAttempt(job, next))
            && r == Ok(Some(j))
  {
    FirstExpiredIsHeld(s, now, j);
    var job := JobAt(s, j);
    RetryIsDue(job, AddOne(job.attempt), now, seed);
    FoldFacts(s.streams[j]);
    ExpiryFolds(job, job.state.lease, next);
    var batch := BatchFor(s.streams[j], j, [LeaseExpired(job.state.lease), next], at, ids);
    AppendAccepts(s, j, batch, AfterAttempt(job, next));
  }

  /** Otherwise it errs and changes nothing. */
  lemma RetireRefuses(s: Inner, j: JobId, now: Time, seed: U64, at: Time, ids: seq<EventId>)
    requires Consistent(s) && IsFirstExpired(s.index, now, Some(j)) && |ids| >= 2
    requires j in s.streams
    requires RetryEvent(JobAt(s, j), AddOne(JobAt(s, j).attempt), now, seed).Err?
    ensures Retire(s, Some(j), now, seed, at, ids) == (s, Err(Domain(InvalidTtl)))
  {
    FirstExpiredIsHeld(s, now, j);
    RetryIsDue(JobAt(s, j), AddOne(JobAt(s, j).attempt), now, seed);
  }
}
