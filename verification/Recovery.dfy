/** Crash recovery: how late a lease can still be live, and what a sweep after that leaves. */
module Recovery {
  import opened Types
  import opened Words
  import opened Retry
  import opened Jobs
  import opened Stores
  import opened Consistency
  import opened UseCases
  import opened Broker
  import opened Regularity
  import opened Sweeping

  /** Job j is leased neither in the index nor by the recorded events past the bound. */
  ghost predicate Within(s: Inner, j: JobId, bound: Time) {
    && (j in s.index && s.index[j].lease.Some? ==> s.index[j].lease.value.expiresAt <= bound)
    && (j in s.streams && Fold(s.streams[j]).Ok? && Fold(s.streams[j]).value.state.Held() ==>
          Fold(s.streams[j]).value.state.expiresAt <= bound)
  }

  /** If the step claims job j or renews its lease, the new deadline respects the bound. */
  predicate RenewsWithin(a: Action, j: JobId, bound: Time) {
    && (a.ClaimNext? && a.picked == Some(j) ==> a.now + a.ttl <= bound)
    && (a.Heartbeat? && a.hit == Some(j) ==> a.now + a.ttl <= bound)
  }

  lemma WithinAppend(s: Inner, t: Inner, j: JobId, batch: seq<Envelope>, bound: Time)
    requires Consistent(s) && Appended(s, t, j, batch) && Within(s, j, bound) && j in s.streams
    requires CommandBatch(s.streams[j], batch) && Continues(j, |s.streams[j]|, batch)
    requires |batch| > 0 && (batch[0].event.Leased? ==> batch[0].event.expiresAt <= bound)
    ensures Within(t, j, bound)
  {
    var job, events := JobAt(s, j), EventsOf(batch);
    LegalBatchFolds(job, events);
    FoldExtend(s.streams[j], job, j, batch);
    assert events[0] == batch[0].event;
    if AfterBatch(job, events).state.Held() && !events[0].Leased? { OnlyClaimsGrant(job, events); }
  }

  lemma OpeningWithin(s: Inner, t: Inner, j: JobId, batch: seq<Envelope>, bound: Time)
    requires Appended(s, t, j, batch) && j !in s.streams && IsOpening(batch)
    ensures Within(t, j, bound)
  {
    assert [] + batch == batch;
  }

  lemma WithinMove(s: Inner, a: Action, e: Effect, t: Inner, j: JobId, bound: Time)
    requires Consistent(s) && Moves(s, a, e, t) && Within(s, j, bound) && RenewsWithin(a, j, bound)
    ensures Within(t, j, bound)
  {
    if e.Wrote? {
      if e.job != j {
        assert SameAt(s, t, j);
      } else if j in s.streams {
        WithinAppend(s, t, j, e.batch, bound);
      } else {
        OpeningWithin(s, t, j, e.batch, bound);
      }
    }
  }

  lemma WithinStep(w: World, a: Action, j: JobId, bound: Time)
    requires Sound(w) && Guard(w, a) && UseCase(a) && Within(w.inner, j, bound) && RenewsWithin(a, j, bound)
    ensures Within(Exec(w, a).inner, j, bound)
  {
    StepMoves(w, a);
    WithinMove(w.inner, a, EffectOf(w, a), Exec(w, a).inner, j, bound);
  }

  lemma {:induction false} WithinRun(w: World, run: seq<Action>, j: JobId, bound: Time)
    requires Sound(w) && Legal(w, run) && AllUseCases(run) && Within(w.inner, j, bound)
    requires forall i :: 0 <= i < |run| ==> RenewsWithin(run[i], j, bound)
    ensures Within(After(w, run).inner, j, bound)
    decreases |run|
  {
    if |run| > 0 {
      assert UseCase(run[0]) && RenewsWithin(run[0], j, bound);
      StepKeepsSound(w, run[0]);
      WithinStep(w, run[0], j, bound);
      WithinRun(Exec(w, run[0]), run[1..], j, bound);
    }
  }

  // --- Clocked runs: readings never decrease and requested ttls are clamped.

  datatype TtlError = ZeroTtl

  /** A requested ttl in milliseconds, limited to what the server allows. */
  function ClampTtl(requested: U64, max: Duration): (r: Result<Duration, TtlError>)
    ensures r.Ok? <==> requested > 0
    ensures r.Ok? ==> r.value <= max && r.value <= requested * NANOS_PER_MILLI
    ensures r.Ok? ==> r.value == max || r.value == requested * NANOS_PER_MILLI
  {
    if requested == 0 then Err(ZeroTtl) else Ok(Min(requested * NANOS_PER_MILLI, max))
  }

  ghost predicate Clamped(ttl: Duration, max: Duration) { exists requested: U64 :: ClampTtl(requested, max) == Ok(ttl) }

  /** Claims and heartbeats come through the clamp, and step i runs no later than clock[i]. */
  ghost predicate Clocked(run: seq<Action>, clock: seq<Time>, max: Duration) {
    && |clock| == |run|
    && (forall i, k :: 0 <= i <= k < |clock| ==> clock[i] <= clock[k])
    && (forall i :: 0 <= i < |run| && (run[i].ClaimNext? || run[i].Heartbeat?) ==>
          run[i].now <= clock[i] && Clamped(run[i].ttl, max))
  }

  /** Every live deadline is at most the last clock reading plus the clamp, also after re-projection. */
  lemma {:induction false} DeadlinesAreNear(run: seq<Action>, clock: seq<Time>, max: Duration, j: JobId)
    requires Legal(START, run) && AllUseCases(run) && Clocked(run, clock, max) && |run| > 0
    ensures Within(After(START, run).inner, j, clock[|clock| - 1] + max)
  {
    StartIsSound();
    WithinRun(START, run, j, clock[|clock| - 1] + max);
  }

  // --- Recovery.

  /** Nobody claims the job or renews its lease. */
  predicate Abandoned(run: seq<Action>, j: JobId) {
    forall i :: 0 <= i < |run| ==>
      !(run[i].ClaimNext? && run[i].picked == Some(j)) && !(run[i].Heartbeat? && run[i].hit == Some(j))
  }

  ghost predicate Unleased(s: Inner, j: JobId) {
    && (j in s.index ==> s.index[j].lease.None?)
    && (j in s.streams ==> Fold(s.streams[j]).Ok? && !Fold(s.streams[j]).value.state.Held())
  }

  /** A lease within the bound is expired by then, so a sweep that finishes retires it. */
  lemma SweptIsUnleased(s: Inner, t: Inner, j: JobId, now: Time)
    requires Consistent(s) && Consistent(t) && Within(s, j, now) && SweptClean(s, t, now)
    ensures Unleased(t, j)
  {
    assert IndexedRight(s, j) && IndexedRight(t, j);
    if j !in ExpiredJobs(s.index, now) { assert SameAt(s, t, j); }
  }

  /**
   * If after some run nobody claims the job or renews its lease, whatever else happens, then a sweep at
   * least the clamp later than the last reading of that run leaves the job unleased, in index and log.
   */
  lemma {:induction false} SweepRecovers(
    run: seq<Action>, clock: seq<Time>, max: Duration, j: JobId, rest: seq<Action>, now: Time, t: Inner)
    requires Legal(START, run) && AllUseCases(run) && Clocked(run, clock, max) && |run| > 0
    requires Legal(After(START, run), rest) && AllUseCases(rest) && Abandoned(rest, j)
    requires clock[|clock| - 1] + max <= now
    requires Consistent(t) && SweptClean(After(After(START, run), rest).inner, t, now)
    ensures Unleased(t, j)
  {
    AbandonedWithin(run, clock, max, j, rest, now);
    SweptIsUnleased(After(After(START, run), rest).inner, t, j, now);
  }

  lemma {:induction false} AbandonedWithin(
    run: seq<Action>, clock: seq<Time>, max: Duration, j: JobId, rest: seq<Action>, now: Time)
    requires Legal(START, run) && AllUseCases(run) && Clocked(run, clock, max) && |run| > 0
    requires Legal(After(START, run), rest) && AllUseCases(rest) && Abandoned(rest, j)
    requires clock[|clock| - 1] + max <= now
    ensures Consistent(After(After(START, run), rest).inner) && Within(After(After(START, run), rest).inner, j, now)
  {
    StartIsSound();
    RunKeepsSound(START, run);
    RunKeepsSound(After(START, run), rest);
    DeadlinesAreNear(run, clock, max, j);
    WithinRun(After(START, run), rest, j, now);
  }

  /** That sweep cannot fail, whatever its seeds, until a month before the end of time. */
  lemma {:induction false} SweepCannotFail(run: seq<Action>, now: Time)
    requires Legal(START, run) && AllUseCases(run) && InRange(now) && InRange(now + MAX_SANE_DELAY)
    ensures Consistent(After(START, run).inner) && RetriesRepresentable(After(START, run).inner, now)
  {
    RunsAreRegular(run);
    RegularRetriesFit(After(START, run).inner, After(START, run).order, now);
  }

  lemma RegularRetriesFit(s: Inner, order: seq<JobId>, now: Time)
    requires Consistent(s) && RegularStore(s, order) && InRange(now) && InRange(now + MAX_SANE_DELAY)
    ensures RetriesRepresentable(s, now)
  {
    forall j | j in ExpiredJobs(s.index, now) && j in s.streams
      ensures RetryFits(JobAt(s, j).policy, AddOne(JobAt(s, j).attempt), now)
    {
      assert Regular(s.streams[j]);
      SanePoliciesFit(JobAt(s, j).policy, AddOne(JobAt(s, j).attempt), now);
    }
  }
}
