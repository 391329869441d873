/** Index, claims, retries and parking, told in recorded events. */
module Meaning {
  import opened Types
  import opened Words
  import opened Jobs
  import opened Reading
  import opened Stores
  import opened Dispatchers
  import opened Consistency
  import opened UseCases
  import opened Broker
  import opened Deadlines
  import opened Regularity
  import opened Drain

  // --- The index.

  /** Waiting for a worker, or with one. */
  predicate Live(es: Stream) {
    |es| > 0 && var last := Settled(es, State); Waiting(last) || last.Leased? || last.Started?
  }

  /** What an entry shows of a stream: the opening event's queue and priority, and the last state or grant. */
  predicate Shows(entry: DispatchEntry, es: Stream, renewed: Option<Time>) {
    && Opened(es) && entry.queue == es[0].event.queue && entry.priority == es[0].event.priority
    && var last, grant := Settled(es, State), Settled(es, Holder);
       if Waiting(last) then entry.notBefore == ReadyAt(last) && entry.lease == None
       else
         && grant.Leased? && entry.notBefore == None
         && entry.lease == Some(LeaseState(grant.lease, grant.worker,
                                           if renewed.Some? then renewed.value else grant.expiresAt))
  }

  lemma {:induction false} LiveIffDispatchable(es: Stream)
    requires Fold(es).Ok?
    ensures Fold(es).value.state.Dispatchable() <==> Live(es)
  {
    FoldDescribes(es);
  }

  lemma {:induction false} EntryShows(es: Stream, seqNo: nat, renewed: Option<Time>)
    requires Fold(es).Ok? && EntryOf(Fold(es).value, seqNo).Some?
    ensures Live(es) && Shows(Stamped(EntryOf(Fold(es).value, seqNo).value, renewed), es, renewed)
  {
    FoldDescribes(es);
  }

  /** In every reachable state the index holds exactly the live jobs, each as its recorded events say. */
  lemma {:induction false} IndexReadsLog(run: seq<Action>, j: JobId)
    requires Legal(START, run)
    ensures Sound(START)
    ensures var s := After(START, run).inner;
            && (j in s.index <==> j in s.streams && Live(s.streams[j]))
            && (j in s.index ==> Shows(s.index[j], s.streams[j], RenewedAfter(START, run, j, None)))
  {
    EntriesAreExact(run, j);
    RunKeepsSound(START, run);
    IndexReads(After(START, run).inner, j, RenewedAfter(START, run, j, None));
  }

  lemma IndexReads(s: Inner, j: JobId, renewed: Option<Time>)
    requires Consistent(s) && ExactAt(s, j, renewed)
    ensures j in s.index <==> j in s.streams && Live(s.streams[j])
    ensures j in s.index ==> Shows(s.index[j], s.streams[j], renewed)
  {
    assert IndexedRight(s, j);
    if j in s.streams { LiveIffDispatchable(s.streams[j]); }
    if j in s.index { EntryShows(s.streams[j], s.index[j].seqNo, renewed); }
  }

  // --- Claims.

  /** The stream's job waits on this queue and its time has come. */
  predicate Ready(es: Stream, queue: QueueName, now: Time) {
    && Opened(es) && es[0].event.queue == queue
    && var last := Settled(es, State);
       Waiting(last) && (ReadyAt(last).None? || ReadyAt(last).value <= now)
  }

  lemma {:induction false} ClaimableIffReady(es: Stream, entry: DispatchEntry, queue: QueueName, now: Time)
    requires Fold(es).Ok? && Agrees(entry, Fold(es).value)
    ensures Claimable(entry, queue, now) <==> Ready(es, queue, now)
  {
    FoldDescribes(es);
  }

  lemma EligibleIffReady(s: Inner, queue: QueueName, now: Time, j: JobId)
    requires Consistent(s)
    ensures j in EligibleJobs(s.index, queue, now) <==> j in s.streams && Ready(s.streams[j], queue, now)
  {
    assert IndexedRight(s, j);
    if j in s.streams { LiveIffDispatchable(s.streams[j]); }
    if j in s.index { ClaimableIffReady(s.streams[j], s.index[j], queue, now); }
  }

  /** Higher priority at enqueue first, then the job enqueued earlier. */
  ghost predicate GoesBefore(s: Inner, order: seq<JobId>, p: JobId, q: JobId) {
    && p in s.streams && q in s.streams && Opened(s.streams[p]) && Opened(s.streams[q])
    && var a, b := s.streams[p][0].event.priority, s.streams[q][0].event.priority;
       a > b || (a == b && exists i, k :: 0 <= i < k < |order| && order[i] == p && order[k] == q)
  }

  lemma EntryPriority(s: Inner, j: JobId)
    requires Consistent(s) && j in s.index
    ensures j in s.streams && Opened(s.streams[j]) && s.index[j].priority == s.streams[j][0].event.priority
  {
    assert IndexedRight(s, j);
    FoldDescribes(s.streams[j]);
  }

  lemma NumberMeansEarlier(s: Inner, order: seq<JobId>, p: JobId, q: JobId)
    requires Queued(s, order) && p in order && q in order && p in s.index && q in s.index
    requires s.index[p].seqNo < s.index[q].seqNo
    ensures exists i, k :: 0 <= i < k < |order| && order[i] == p && order[k] == q
  {
    var i :| 0 <= i < |order| && order[i] == p;
    var k :| 0 <= k < |order| && order[k] == q;
  }

  lemma BeforeMeansEarlier(w: World, p: JobId, q: JobId)
    requires RegularWorld(w) && p in w.inner.index && q in w.inner.index && Before(w.inner.index[p], w.inner.index[q])
    ensures GoesBefore(w.inner, w.order, p, q)
  {
    EntryPriority(w.inner, p);
    EntryPriority(w.inner, q);
    if w.inner.index[p].priority == w.inner.index[q].priority { NumberMeansEarlier(w.inner, w.order, p, q); }
  }

  /**
   * A claim takes a job that is ready, ahead of every other ready one, and hands out what was enqueued
   * and recorded; it comes back empty only if no job is ready.
   */
  lemma {:induction false} ClaimHandsOut(w: World, a: Action)
    requires RegularWorld(w) && Guard(w, a) && a.ClaimNext? && IsDelta(a.ttl)
    ensures var s, (t, r) := w.inner, Claim(w.inner, a.picked, a.worker, a.lease, a.ttl, a.now, a.at, a.ids);
            match a.picked
            case None => r == Ok(None) && t == s && forall k :: k in s.streams ==> !Ready(s.streams[k], a.queue, a.now)
            case Some(j) =>
              && j in s.streams && Ready(s.streams[j], a.queue, a.now)
              && (forall k :: k in s.streams && k != j && Ready(s.streams[k], a.queue, a.now) ==>
                    GoesBefore(s, w.order, j, k))
              && HandsOutJob(s.streams[j], j, a, r)
              && j in t.streams && GrantAdded(s.streams[j], t.streams[j], a)
  {
    var s := w.inner;
    if a.picked.None? {
      forall k | k in s.streams ensures !Ready(s.streams[k], a.queue, a.now) {
        EligibleIffReady(s, a.queue, a.now, k);
      }
    } else {
      ClaimTakes(s, a, a.picked.value);
      forall k | k in s.streams && k != a.picked.value && Ready(s.streams[k], a.queue, a.now)
        ensures GoesBefore(s, w.order, a.picked.value, k)
      {
        EligibleIffReady(s, a.queue, a.now, k);
        PickGoesFirst(s, a.queue, a.now, a.picked.value, k);
        BeforeMeansEarlier(w, a.picked.value, k);
      }
    }
  }

  /** The answer of a claim, in the stream's events. */
  ghost predicate HandsOutJob(es: Stream, j: JobId, a: Action, r: Result<Option<LeasedJob>, DispatchError>)
    requires a.ClaimNext?
  {
    && Opened(es) && r.Ok? && r.value.Some?
    && var leased := r.value.value;
       && leased.job == j && leased.queue == a.queue && leased.payload == es[0].event.payload
       && leased.attempt == Count(EventsOf(es), AttemptEnd)
       && leased.lease == a.lease && leased.expiresAt == a.now + a.ttl
       && leased.correlation == es[0].lineage.correlation && leased.traceparent == es[0].lineage.traceparent
  }

  /** The stream after a claim: one more event, the grant. */
  predicate GrantAdded(before: Stream, now: Stream, a: Action)
    requires a.ClaimNext?
  {
    && |now| == |before| + 1 && before <= now
    && now[|before|].event == JobEvent.Leased(a.worker, a.lease, a.now + a.ttl)
  }

  lemma {:induction false} ClaimTakes(s: Inner, a: Action, j: JobId)
    requires Consistent(s) && a.ClaimNext? && |a.ids| >= 2 && IsPick(s.index, a.queue, a.now, Some(j)) && IsDelta(a.ttl)
    requires j in s.streams ==> Regular(s.streams[j])
    ensures j in s.streams && Ready(s.streams[j], a.queue, a.now)
    ensures var (t, r) := Claim(s, Some(j), a.worker, a.lease, a.ttl, a.now, a.at, a.ids);
            && HandsOutJob(s.streams[j], j, a, r) && j in t.streams && GrantAdded(s.streams[j], t.streams[j], a)
  {
    ClaimSucceeds(s, a.queue, j, a.worker, a.lease, a.ttl, a.now, a.at, a.ids);
    EligibleIffReady(s, a.queue, a.now, j);
    RegularPayload(s.streams[j]);
  }

  lemma {:induction false} RegularPayload(es: Stream)
    requires Regular(es)
    ensures Opened(es) && Fold(es).value.payload == es[0].event.payload
    ensures Fold(es).value.attempt == Count(EventsOf(es), AttemptEnd)
  {
    FoldDescribes(es);
    forall k | 0 <= k < |es| ensures !es[k].event.Repaired? { assert Produced(es[k].event); }
    PayloadUnrepaired(es);
  }

  /** Successive claims drain the ready jobs in the order of their enqueued priorities, then of their enqueueing. */
  lemma {:induction false} ClaimsDrainByEnqueue(w: World, run: seq<Action>, queue: QueueName, ttl: Duration, now: Time)
    requires RegularWorld(w) && Legal(w, run) && ClaimsOn(run, queue, ttl, now)
    ensures Drained(w.inner.index, queue, now, run)
    ensures forall j :: j in EligibleJobs(w.inner.index, queue, now)
                        <==> j in w.inner.streams && Ready(w.inner.streams[j], queue, now)
    ensures forall i, k :: 0 <= i < k < |run| && run[k].picked.Some? ==>
              run[i].picked.Some? && GoesBefore(w.inner, w.order, run[i].picked.value, run[k].picked.value)
  {
    ClaimsDrainInOrder(w, run, queue, ttl, now);
    forall j { EligibleIffReady(w.inner, queue, now, j); }
    forall i, k | 0 <= i < k < |run| && run[k].picked.Some?
      ensures run[i].picked.Some? && GoesBefore(w.inner, w.order, run[i].picked.value, run[k].picked.value)
    {
      BeforeMeansEarlier(w, run[i].picked.value, run[k].picked.value);
    }
  }

  // --- Retries.

  /** The job waits for this instant, or was cancelled. */
  ghost predicate Shelved(s: Inner, j: JobId, t: Time) {
    && j in s.streams && Fold(s.streams[j]).Ok?
    && var state := Fold(s.streams[j]).value.state; state == Pending(Some(t)) || state == JobState.Cancelled
  }

  predicate ClaimsJob(a: Action, j: JobId) { a.ClaimNext? && a.picked == Some(j) }

  lemma MoveKeepsShelved(s: Inner, a: Action, e: Effect, t: Inner, j: JobId, at: Time)
    requires Moves(s, a, e, t) && Shelved(s, j, at) && !ClaimsJob(a, j)
    ensures Shelved(t, j, at)
  {
    if e.Wrote? {
      if e.job != j {
        assert SameAt(s, t, j);
      } else {
        var job, events := Fold(s.streams[j]).value, EventsOf(e.batch);
        assert events[0] == e.batch[0].event;
        LegalBatchFolds(job, events);
        FoldExtend(s.streams[j], job, j, e.batch);
      }
    }
  }

  lemma {:induction false} RunKeepsShelved(w: World, run: seq<Action>, j: JobId, at: Time)
    requires Sound(w) && Legal(w, run) && AllUseCases(run) && Shelved(w.inner, j, at)
    requires forall i :: 0 <= i < |run| ==> !ClaimsJob(run[i], j)
    ensures Shelved(After(w, run).inner, j, at)
    decreases |run|
  {
    if |run| > 0 {
      assert UseCase(run[0]) && !ClaimsJob(run[0], j);
      StepMoves(w, run[0]);
      StepKeepsSound(w, run[0]);
      MoveKeepsShelved(w.inner, run[0], EffectOf(w, run[0]), Exec(w, run[0]).inner, j, at);
      RunKeepsShelved(Exec(w, run[0]), run[1..], j, at);
    }
  }

  /** The effect schedules a retry of job j, as its last event. */
  predicate Schedules(e: Effect, j: JobId) {
    e.Wrote? && e.job == j && |e.batch| > 0 && e.batch[|e.batch| - 1].event.RetryScheduled?
  }

  lemma BatchSchedules(job: Job, events: seq<JobEvent>)
    requires LegalBatch(job, events) && events[|events| - 1].RetryScheduled?
    ensures var next := events[|events| - 1];
            && next.completed == AddOne(job.attempt) && next.completed < job.policy.maxAttempts
            && AfterBatch(job, events).state == Pending(Some(next.retryAt))
  {
  }

  lemma {:induction false} ScheduleShelves(s: Inner, a: Action, e: Effect, t: Inner, j: JobId)
    requires Consistent(s) && Moves(s, a, e, t) && Schedules(e, j)
    ensures j in s.streams && (a.RetireNext? || a.Complete?)
    ensures var job, next := JobAt(s, j), e.batch[|e.batch| - 1].event;
            && Due(job.policy, AddOne(job.attempt), a.now, a.seed, next)
            && Shelved(t, j, next.retryAt)
  {
    var job, events := JobAt(s, j), EventsOf(e.batch);
    assert |events| == |e.batch| && events[|events| - 1] == e.batch[|e.batch| - 1].event;
    BatchSchedules(job, events);
    LegalBatchFolds(job, events);
    FoldExtend(s.streams[j], job, j, e.batch);
  }

  /** The retry counts the attempts the stream has ended, this one included, and keeps to their backoff. */
  predicate BackedOff(es: Stream, next: JobEvent, now: Time) {
    && Opened(es) && next.RetryScheduled?
    && next.completed == Count(EventsOf(es), AttemptEnd) + 1 && next.completed < es[0].event.policy.maxAttempts
    && InBackoff(es[0].event.policy, next.completed, now, next.retryAt)
  }

  /**
   * A retirement or failure report at clock `now` that schedules a retry schedules it within the backoff of
   * the ended attempts, and the next claim of the job, whatever runs in between, reads the clock no earlier.
   */
  lemma {:induction false} BackoffIsKept(w: World, a: Action, between: seq<Action>, claim: Action, j: JobId)
    requires RegularWorld(w) && Guard(w, a) && UseCase(a) && Schedules(EffectOf(w, a), j)
    requires Legal(Exec(w, a), between) && AllUseCases(between)
    requires forall i :: 0 <= i < |between| ==> !ClaimsJob(between[i], j)
    requires Guard(After(Exec(w, a), between), claim) && ClaimsJob(claim, j)
    ensures j in w.inner.streams && (a.RetireNext? || a.Complete?)
    ensures var next := EffectOf(w, a).batch[|EffectOf(w, a).batch| - 1].event;
            BackedOff(w.inner.streams[j], next, a.now) && next.retryAt <= claim.now
  {
    var e := EffectOf(w, a);
    StepMoves(w, a);
    StepKeepsSound(w, a);
    ScheduleShelves(w.inner, a, e, Exec(w, a).inner, j);
    RunKeepsShelved(Exec(w, a), between, j, e.batch[|e.batch| - 1].event.retryAt);
    RunKeepsSound(Exec(w, a), between);
    PickIsPending(After(Exec(w, a), between).inner, claim.queue, claim.now, j);
    RetryCounts(w.inner.streams[j], a.now, a.seed, e.batch[|e.batch| - 1].event);
  }

  lemma {:induction false} RetryCounts(es: Stream, now: Time, seed: U64, next: JobEvent)
    requires Regular(es) && next.RetryScheduled?
    requires Due(Fold(es).value.policy, AddOne(Fold(es).value.attempt), now, seed, next)
    ensures BackedOff(es, next, now)
  {
    var job := Fold(es).value;
    FoldDescribes(es);
    LedgerAttempt(es);
    DueInBackoff(job.policy, AddOne(job.attempt), now, seed, next);
  }

  lemma {:induction false} LedgerAttempt(es: Stream)
    requires Accounted(es)
    ensures Fold(es).value.attempt == Count(EventsOf(es), AttemptEnd)
    ensures AddOne(Fold(es).value.attempt) == Fold(es).value.attempt + 1
  {
  }

  // --- Parking.

  /** The event that parked the stream's job follows the attempt that caused it, and says why. */
  predicate ParkedFor(es: Stream, reason: ParkReason) {
    var m := Last(es, State);
    && m >= 1 && es[m].event == JobEvent.Parked(reason)
    && var ended := es[m - 1].event;
       && (ended.Failed? || ended.LeaseExpired?)
       && (reason == NonRetryableError <==> ended.Failed? && !ended.error.retryable)
       && (reason == RetriesExhausted <==> ended.LeaseExpired? || ended.error.retryable)
  }

  lemma {:induction false} ParkedForCause(run: seq<Action>, j: JobId)
    requires Legal(START, run) && AllUseCases(run) && j in After(START, run).inner.streams
    ensures var es := After(START, run).inner.streams[j];
            Fold(es).Ok? && (Fold(es).value.state.Parked? ==> ParkedFor(es, Fold(es).value.state.reason))
  {
    RunsAreRegular(run);
    var es := After(START, run).inner.streams[j];
    assert Regular(es);
    if Fold(es).value.state.Parked? { ParkedStream(es); }
  }

  lemma {:induction false} ParkedStream(es: Stream)
    requires Regular(es) && Fold(es).value.state.Parked?
    ensures ParkedFor(es, Fold(es).value.state.reason)
  {
    FoldDescribes(es);
    LastIsLast(es, State, 0);
    var m := Last(es, State);
    assert Produced(es[m].event);
    if m >= 1 { assert ResolvedAt(es, m); }
  }

  // --- Event ids.

  predicate IdAt(s: Inner, j: JobId, i: nat, id: EventId) {
    j in s.streams && i < |s.streams[j]| && s.streams[j][i].eventId == id
  }

  ghost predicate UniqueIds(s: Inner) {
    forall id, j, i, k, m :: IdAt(s, j, i, id) && IdAt(s, k, m, id) ==> j == k && i == m
  }

  /** The id port's promise: the ids a step mints are new and differ from each other. */
  ghost predicate FreshIds(s: Inner, a: Action) {
    Mints(a) ==>
      && a.ids[0] != a.ids[1]
      && forall j, i :: !IdAt(s, j, i, a.ids[0]) && !IdAt(s, j, i, a.ids[1])
  }

  ghost predicate AllFreshIds(w: World, run: seq<Action>)
    requires Legal(w, run)
    decreases |run|
  {
    |run| > 0 ==> FreshIds(w.inner, run[0]) && AllFreshIds(Exec(w, run[0]), run[1..])
  }

  /** The step wrote event i of stream j and gave it this id. */
  predicate NewId(s: Inner, a: Action, e: Effect, j: JobId, i: nat, id: EventId) {
    && e.Wrote? && e.job == j && |StreamOf(s, j)| <= i < |StreamOf(s, j)| + 2
    && Mints(a) && id == a.ids[i - |StreamOf(s, j)|]
  }

  /** What was written carries the minted ids, in order. */
  lemma WrittenIds(cur: Stream, batch: seq<Envelope>, ids: seq<EventId>, i: nat)
    requires |batch| <= |ids| && forall k :: 0 <= k < |batch| ==> batch[k].eventId == ids[k]
    requires |cur| <= i < |cur + batch|
    ensures i < |cur| + |batch| && (cur + batch)[i].eventId == ids[i - |cur|]
  {
    assert (cur + batch)[i] == batch[i - |cur|];
  }

  lemma IdsAfterMove(s: Inner, a: Action, e: Effect, t: Inner, j: JobId, i: nat, id: EventId)
    requires Moves(s, a, e, t) && IdAt(t, j, i, id)
    ensures IdAt(s, j, i, id) || NewId(s, a, e, j, i, id)
  {
    if e.Wrote? && j != e.job {
      assert SameAt(s, t, j);
    } else if e.Wrote? && i >= |StreamOf(s, j)| {
      WrittenIds(StreamOf(s, j), e.batch, a.ids, i);
    }
  }

  lemma OldOrNew(s: Inner, a: Action, e: Effect, j: JobId, i: nat, k: JobId, m: nat, id: EventId)
    requires FreshIds(s, a) && UniqueIds(s)
    requires (IdAt(s, j, i, id) || NewId(s, a, e, j, i, id)) && (IdAt(s, k, m, id) || NewId(s, a, e, k, m, id))
    ensures j == k && i == m
  {
  }

  lemma MoveKeepsUniqueIds(s: Inner, a: Action, e: Effect, t: Inner)
    requires Moves(s, a, e, t) && FreshIds(s, a) && UniqueIds(s)
    ensures UniqueIds(t)
  {
    forall id, j, i, k, m | IdAt(t, j, i, id) && IdAt(t, k, m, id) ensures j == k && i == m {
      IdsAfterMove(s, a, e, t, j, i, id);
      IdsAfterMove(s, a, e, t, k, m, id);
      OldOrNew(s, a, e, j, i, k, m, id);
    }
  }

  lemma {:induction false} RunKeepsUniqueIds(w: World, run: seq<Action>)
    requires Sound(w) && Legal(w, run) && AllUseCases(run) && AllFreshIds(w, run) && UniqueIds(w.inner)
    ensures UniqueIds(After(w, run).inner)
    decreases |run|
  {
    if |run| > 0 {
      assert UseCase(run[0]);
      StepMoves(w, run[0]);
      StepKeepsSound(w, run[0]);
      MoveKeepsUniqueIds(w.inner, run[0], EffectOf(w, run[0]), Exec(w, run[0]).inner);
      RunKeepsUniqueIds(Exec(w, run[0]), run[1..]);
    }
  }

  /** With fresh ids, the causation of an envelope names one envelope of all streams: the last before its batch. */
  lemma {:induction false} CausationIsUnique(run: seq<Action>, j: JobId, i: nat, k: JobId, m: nat)
    requires Legal(START, run) && AllUseCases(run) && AllFreshIds(START, run)
    requires j in After(START, run).inner.streams && 1 <= i < |After(START, run).inner.streams[j]|
    ensures var s := After(START, run).inner;
            && UniqueIds(s) && s.streams[j][i].lineage.causation.Some?
            && (IdAt(s, k, m, s.streams[j][i].lineage.causation.value) <==> k == j && m == CauseOf(s.streams[j], i))
  {
    StartIsSound();
    RunKeepsUniqueIds(START, run);
    LineageOverRuns(run, j, i);
    var s := After(START, run).inner;
    assert IdAt(s, j, CauseOf(s.streams[j], i), s.streams[j][i].lineage.causation.value);
  }
}
