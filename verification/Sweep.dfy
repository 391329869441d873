/** The sweep: retire expired leases one at a time until none is left. */
module Sweeping {
  import opened Types
  import opened Words
  import opened Jobs
  import opened Stores
  import opened Dispatchers
  import opened Consistency

  ghost function ExpiredJobs(index: Index, now: Time): set<JobId> {
    set j | j in index && Expired(index[j], now)
  }

  /** Job j was retired between s and t: its lease expired and its retry decided, in two events. */
  ghost predicate Retired(s: Inner, t: Inner, j: JobId, now: Time) {
    && j in s.streams && j in t.streams && Fold(s.streams[j]).Ok?
    && var job := Fold(s.streams[j]).value;
       && job.state.Held() && s.streams[j] <= t.streams[j] && |t.streams[j]| == |s.streams[j]| + 2
       && t.streams[j][|s.streams[j]|].event == LeaseExpired(job.state.lease)
       && var next := t.streams[j][|s.streams[j]| + 1].event;
          && Decided(job.policy, AddOne(job.attempt), now, next)
          && Fold(t.streams[j]) == Ok(AfterAttempt(job, next))
  }

  /** Parked if the attempts are used up, else a retry within the backoff. */
  predicate Decided(p: RetryPolicy, n: U32, now: Time, next: JobEvent) {
    if n >= p.maxAttempts then next == JobEvent.Parked(RetriesExhausted)
    else next.RetryScheduled? && next.completed == n && InBackoff(p, n, now, next.retryAt)
  }

  /** Every expired lease of s is retired in t, none is left, and nothing else changed. */
  ghost predicate SweptClean(s: Inner, t: Inner, now: Time) {
    && ExpiredJobs(t.index, now) == {}
    && forall j :: if j in ExpiredJobs(s.index, now) then Retired(s, t, j, now) else SameAt(s, t, j)
  }

  /** Whatever the seeds, no retirement of an expired job needs a retry time past the end of time. */
  ghost predicate RetriesRepresentable(s: Inner, now: Time)
    requires LogOk(s)
  {
    && InRange(now)
    && forall j :: j in ExpiredJobs(s.index, now) && j in s.streams ==>
                     RetryFits(JobAt(s, j).policy, AddOne(JobAt(s, j).attempt), now)
  }

  lemma RetireOneEffect(s: Inner, j: JobId, now: Time, seed: U64, at: Time, ids: seq<EventId>)
    requires Consistent(s) && IsFirstExpired(s.index, now, Some(j)) && |ids| >= 2
    ensures var (t, r) := Retire(s, Some(j), now, seed, at, ids);
            if r.Err? then t == s && r == Err(Domain(InvalidTtl))
            else
              && r == Ok(Some(j)) && Consistent(t) && Retired(s, t, j, now)
              && ExpiredJobs(t.index, now) == ExpiredJobs(s.index, now) - {j}
              && forall k :: k != j ==> SameAt(s, t, k)
    ensures RetriesRepresentable(s, now) ==> Retire(s, Some(j), now, seed, at, ids).1.Ok?
  {
    FirstExpiredIsHeld(s, now, j);
    var job := JobAt(s, j);
    var retry := RetryEvent(job, AddOne(job.attempt), now, seed);
    if RetriesRepresentable(s, now) { RetryNeverErrsIffFits(job, AddOne(job.attempt), now); }
    if retry.Err? {
      RetireRefuses(s, j, now, seed, at, ids);
    } else {
      RetireSucceeds(s, j, now, seed, at, ids, retry.value);
      if retry.value.RetryScheduled? { DueInBackoff(job.policy, AddOne(job.attempt), now, seed, retry.value); }
      var t := Retire(s, Some(j), now, seed, at, ids).0;
      var batch := BatchFor(s.streams[j], j, [LeaseExpired(job.state.lease), retry.value], at, ids);
      AppendKeepsConsistent(s, t, j, batch);
      RetiredFacts(s, t, j, now, batch, retry.value);
    }
  }

  lemma {:induction false} RetiredFacts(s: Inner, t: Inner, j: JobId, now: Time, batch: seq<Envelope>, next: JobEvent)
    requires Consistent(s) && j in s.streams && JobAt(s, j).state.Held() && Appended(s, t, j, batch)
    requires |batch| == 2 && batch[0].event == LeaseExpired(JobAt(s, j).state.lease) && batch[1].event == next
    requires Decided(JobAt(s, j).policy, AddOne(JobAt(s, j).attempt), now, next)
    requires Fold(s.streams[j] + batch) == Ok(AfterAttempt(JobAt(s, j), next))
    ensures Retired(s, t, j, now)
    ensures ExpiredJobs(t.index, now) == ExpiredJobs(s.index, now) - {j}
  {
    forall k ensures k in ExpiredJobs(t.index, now) <==> k in ExpiredJobs(s.index, now) - {j} {
      assert k == j || SameAt(s, t, k);
    }
  }

  /**
   * A sweep that began in s has retired exactly the leases of `done`, the expired jobs of lowest id, and
   * changed nothing else.
   */
  ghost predicate SweepSoFar(s: Inner, t: Inner, now: Time, done: set<JobId>) {
    && done <= ExpiredJobs(s.index, now) && ExpiredJobs(t.index, now) == ExpiredJobs(s.index, now) - done
    && (forall j, k :: j in done && k in ExpiredJobs(t.index, now) ==> j < k)
    && forall j :: if j in done then Retired(s, t, j, now) else SameAt(s, t, j)
  }

  /** Job k was retired, or left alone, in one of two stages. */
  lemma RetiredOnce(s: Inner, t: Inner, u: Inner, now: Time, k: JobId, first: bool, second: bool)
    requires !(first && second)
    requires if first then Retired(s, t, k, now) else SameAt(s, t, k)
    requires if second then Retired(t, u, k, now) else SameAt(t, u, k)
    ensures if first || second then Retired(s, u, k, now) else SameAt(s, u, k)
  {
  }

  lemma LowestFirst(all: set<JobId>, done: set<JobId>, j: JobId)
    requires done <= all && j in all - done && forall i, k :: i in done && k in all - done ==> i < k
    requires forall k :: k in all - done ==> j <= k
    ensures all - (done + {j}) == (all - done) - {j}
    ensures forall i, k :: i in done + {j} && k in all - (done + {j}) ==> i < k
  {
  }

  lemma SweepAdvances(s: Inner, t: Inner, u: Inner, now: Time, done: set<JobId>, j: JobId)
    requires SweepSoFar(s, t, now, done)
    requires j in ExpiredJobs(t.index, now) && forall k :: k in ExpiredJobs(t.index, now) ==> j <= k
    requires Retired(t, u, j, now) && forall k :: k != j ==> SameAt(t, u, k)
    requires ExpiredJobs(u.index, now) == ExpiredJobs(t.index, now) - {j}
    ensures SweepSoFar(s, u, now, done + {j})
  {
    LowestFirst(ExpiredJobs(s.index, now), done, j);
    forall k ensures if k in done + {j} then Retired(s, u, k, now) else SameAt(s, u, k) {
      RetiredOnce(s, t, u, now, k, k in done, k == j);
    }
  }

  lemma StaysRepresentable(s: Inner, t: Inner, now: Time, done: set<JobId>)
    requires LogOk(s) && LogOk(t) && SweepSoFar(s, t, now, done) && RetriesRepresentable(s, now)
    ensures RetriesRepresentable(t, now)
  {
    forall j | j in ExpiredJobs(t.index, now) && j in t.streams
      ensures RetryFits(JobAt(t, j).policy, AddOne(JobAt(t, j).attempt), now)
    {
      assert j !in done && SameAt(s, t, j);
    }
  }

  /** One pass of the loop. */
  lemma SweepPass(
    s: Inner, t: Inner, now: Time, done: set<JobId>, picked: Option<JobId>, seed: U64, at: Time, ids: seq<EventId>)
    requires Consistent(s) && Consistent(t) && SweepSoFar(s, t, now, done)
    requires IsFirstExpired(t.index, now, picked) && |ids| >= 2
    ensures var (u, r) := Retire(t, picked, now, seed, at, ids);
            && Consistent(u)
            && (r.Err? ==> u == t && r.error == Domain(InvalidTtl) && !RetriesRepresentable(s, now))
            && (r == Ok(None) ==> u == t && SweptClean(s, t, now) && done == ExpiredJobs(s.index, now))
            && (r.Ok? && r.value.Some? ==>
                  var j := r.value.value;
                  && j in ExpiredJobs(t.index, now) && j !in done && SweepSoFar(s, u, now, done + {j})
                  && ExpiredJobs(u.index, now) == ExpiredJobs(t.index, now) - {j})
  {
    match picked
    case None =>
      assert ExpiredJobs(t.index, now) == {};
    case Some(j) =>
      RetireOneEffect(t, j, now, seed, at, ids);
      if RetriesRepresentable(s, now) { StaysRepresentable(s, t, now, done); }
      var (u, r) := Retire(t, picked, now, seed, at, ids);
      if r.Ok? { SweepAdvances(s, t, u, now, done, j); }
  }

  /**
   * At a fixed clock the loop ends, having retired exactly the leases that were expired when it
   * began, lowest ids first; it can fail only where a retry time is not representable, and then the
   * leases in `done` are retired and nothing else changed. The k-th pass draws the k-th seed and event ids.
   */
  method Sweep(d: InMemoryDispatcher, now: Time, at: Time, seeds: nat -> U64, ids: nat -> seq<EventId>)
    returns (r: Result<nat, DispatchError>, ghost done: set<JobId>)
    requires Consistent(d.store.View()) && forall k :: |ids(k)| >= 2
    modifies d.store
    ensures Consistent(d.store.View())
    ensures SweepSoFar(old(d.store.View()), d.store.View(), now, done)
    ensures r.Ok? ==> r.value == |done| && done == ExpiredJobs(old(d.store.index), now)
    ensures r.Ok? ==> SweptClean(old(d.store.View()), d.store.View(), now)
    ensures r.Err? ==> r.error == Domain(InvalidTtl)
    ensures old(RetriesRepresentable(d.store.View(), now)) ==> r.Ok?
  {
    ghost var s := d.store.View();
    done := {};
    var swept := 0;
    while true
      invariant Consistent(d.store.View())
      invariant SweepSoFar(s, d.store.View(), now, done)
      invariant swept == |done|
      decreases ExpiredJobs(d.store.index, now)
    {
      ghost var t := d.store.View();
      var picked, retired := d.RetireOne(now, seeds(swept), at, ids(swept));
      SweepPass(s, t, now, done, picked, seeds(swept), at, ids(swept));
      if retired.Err? { return Err(retired.error), done; }
      if retired.value.None? { return Ok(swept), done; }
      done := done + {retired.value.value};
      swept := swept + 1;
    }
  }
}
