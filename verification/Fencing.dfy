/** Lease fencing over whole runs: each grant is given once, held in one place and ended once. */
module Fencing {
  import opened Types
  import opened Words
  import opened Jobs
  import opened Stores
  import opened Dispatchers
  import opened Consistency
  import opened UseCases
  import opened Broker
  import opened Serializability
  import opened Regularity

  // --- One stream.

  predicate GrantAt(es: Stream, i: nat, lease: LeaseId) {
    i < |es| && es[i].event.Leased? && es[i].event.lease == lease
  }

  /** The job holds the lease after its first n events. */
  predicate HeldAfter(es: Stream, n: nat, lease: LeaseId) {
    1 <= n <= |es| && Fold(es[..n]).Ok? && Fold(es[..n]).value.state.Holds(lease)
  }

  /** A lease appears in the state only by being granted. */
  lemma HeldBefore(es: Stream, n: nat, lease: LeaseId)
    requires HeldAfter(es, n, lease) && !GrantAt(es, n - 1, lease)
    ensures HeldAfter(es, n - 1, lease)
  {
    assert es[..n][..n - 1] == es[..n - 1];
  }

  /** A held lease was granted, and has been held ever since. */
  lemma {:induction false} HeldSinceGrant(es: Stream, n: nat, lease: LeaseId) returns (i: nat)
    requires HeldAfter(es, n, lease)
    ensures i < n && GrantAt(es, i, lease)
    ensures forall m :: i < m <= n ==> HeldAfter(es, m, lease)
    decreases n
  {
    if GrantAt(es, n - 1, lease) {
      i := n - 1;
    } else {
      HeldBefore(es, n, lease);
      i := HeldSinceGrant(es, n - 1, lease);
    }
  }

  /** With a single grant, the times a lease is held form an interval. */
  lemma HeldInterval(es: Stream, lease: LeaseId, a: nat, m: nat, b: nat)
    requires forall i, k :: GrantAt(es, i, lease) && GrantAt(es, k, lease) ==> i == k
    requires HeldAfter(es, a, lease) && HeldAfter(es, b, lease) && a <= m <= b
    ensures HeldAfter(es, m, lease)
  {
    var i := HeldSinceGrant(es, a, lease);
    var k := HeldSinceGrant(es, b, lease);
  }

  /** Event n ended the lease: held before it, not after it. */
  predicate EndsAt(es: Stream, n: nat, lease: LeaseId) {
    n < |es| && HeldAfter(es, n, lease) && !HeldAfter(es, n + 1, lease)
  }

  lemma EndsOnce(es: Stream, lease: LeaseId, a: nat, b: nat)
    requires forall i, k :: GrantAt(es, i, lease) && GrantAt(es, k, lease) ==> i == k
    requires EndsAt(es, a, lease) && EndsAt(es, b, lease)
    ensures a == b
  {
    if a < b {
      HeldInterval(es, lease, a, a + 1, b);
    } else if b < a {
      HeldInterval(es, lease, b, b + 1, a);
    }
  }

  predicate Ending(ev: JobEvent) { ev.Succeeded? || ev.Failed? || ev.LeaseExpired? || ev.Cancelled? }

  lemma {:induction false} EndedByEnding(es: Stream, n: nat, lease: LeaseId)
    requires Fold(es).Ok? && EndsAt(es, n, lease) && Produced(es[n].event)
    ensures Ending(es[n].event)
  {
    PrefixFolds(es, n + 1);
    assert es[..n + 1][..n] == es[..n];
  }

  // --- All streams, with lease ids that are never reissued.

  predicate GrantedIn(s: Inner, j: JobId, i: nat, lease: LeaseId) { j in s.streams && GrantAt(s.streams[j], i, lease) }

  ghost predicate Granted(s: Inner, lease: LeaseId) { exists j, i :: GrantedIn(s, j, i, lease) }

  ghost predicate UniqueGrants(s: Inner) {
    forall lease, j, i, k, m :: GrantedIn(s, j, i, lease) && GrantedIn(s, k, m, lease) ==> j == k && i == m
  }

  /** The id port's promise: a claim presents a lease id that was never granted before. */
  ghost predicate FreshLease(s: Inner, a: Action) { a.ClaimNext? ==> !Granted(s, a.lease) }

  ghost predicate FreshLeases(w: World, run: seq<Action>)
    requires Legal(w, run)
    decreases |run|
  {
    |run| > 0 ==> FreshLease(w.inner, run[0]) && FreshLeases(Exec(w, run[0]), run[1..])
  }

  lemma LegalGrant(job: Job, events: seq<JobEvent>, k: nat)
    requires LegalBatch(job, events) && k < |events| && events[k].Leased?
    ensures k == 0 && |events| == 1
  {
  }

  /** Only a claim writes a grant, of its own lease, as its only event. */
  lemma OnlyClaimsWriteGrants(s: Inner, a: Action, j: JobId, batch: seq<Envelope>, k: nat)
    requires Writes(s, a, j, batch) && k < |batch| && batch[k].event.Leased?
    ensures a.ClaimNext? && batch[k].event.lease == a.lease && k == 0 && |batch| == 1
  {
    if j in s.streams {
      assert EventsOf(batch)[k] == batch[k].event && |EventsOf(batch)| == |batch|;
      LegalGrant(Fold(s.streams[j]).value, EventsOf(batch), k);
    }
  }

  /** The step granted the lease in event i of stream j. */
  predicate GrantsNow(s: Inner, a: Action, e: Effect, j: JobId, i: nat, lease: LeaseId) {
    a.ClaimNext? && lease == a.lease && e.Wrote? && e.job == j && i == |StreamOf(s, j)|
  }

  lemma GrantsAfterMove(s: Inner, a: Action, e: Effect, t: Inner, j: JobId, i: nat, lease: LeaseId)
    requires Moves(s, a, e, t)
    ensures GrantedIn(s, j, i, lease) ==> GrantedIn(t, j, i, lease)
    ensures GrantedIn(t, j, i, lease) ==> GrantedIn(s, j, i, lease) || GrantsNow(s, a, e, j, i, lease)
  {
    if e.Wrote? {
      if j != e.job {
        assert SameAt(s, t, j);
      } else if GrantAt(t.streams[j], i, lease) && i >= |StreamOf(s, j)| {
        OnlyClaimsWriteGrants(s, a, j, e.batch, i - |StreamOf(s, j)|);
      }
    }
  }

  lemma MoveKeepsUniqueGrants(s: Inner, a: Action, e: Effect, t: Inner)
    requires Moves(s, a, e, t) && FreshLease(s, a) && UniqueGrants(s)
    ensures UniqueGrants(t)
  {
    forall lease, j, i, k, m | GrantedIn(t, j, i, lease) && GrantedIn(t, k, m, lease) ensures j == k && i == m {
      GrantsAfterMove(s, a, e, t, j, i, lease);
      GrantsAfterMove(s, a, e, t, k, m, lease);
    }
  }

  // --- Ended leases.

  ghost predicate HeldIn(s: Inner, j: JobId, lease: LeaseId) {
    j in s.streams && Fold(s.streams[j]).Ok? && Fold(s.streams[j]).value.state.Holds(lease)
  }

  /** The lease was granted and no job holds it any more. */
  ghost predicate Ended(s: Inner, lease: LeaseId) { Granted(s, lease) && forall j :: !HeldIn(s, j, lease) }

  /** With unique grants a lease is held in at most one stream. */
  lemma HeldInOneStream(s: Inner, j: JobId, k: JobId, lease: LeaseId)
    requires UniqueGrants(s) && HeldIn(s, j, lease) && HeldIn(s, k, lease)
    ensures j == k
  {
    FoldFacts(s.streams[j]);
    FoldFacts(s.streams[k]);
    assert s.streams[j][..|s.streams[j]|] == s.streams[j] && s.streams[k][..|s.streams[k]|] == s.streams[k];
    var i := HeldSinceGrant(s.streams[j], |s.streams[j]|, lease);
    var m := HeldSinceGrant(s.streams[k], |s.streams[k]|, lease);
    assert GrantedIn(s, j, i, lease) && GrantedIn(s, k, m, lease);
  }

  lemma {:induction false} HeldAfterBatch(es: Stream, j: JobId, batch: seq<Envelope>, lease: LeaseId)
    requires CommandBatch(es, batch) && Continues(j, |es|, batch)
    requires Fold(es + batch).Ok? && Fold(es + batch).value.state.Holds(lease)
    ensures |batch| > 0
    ensures Fold(es).value.state.Holds(lease) || (batch[0].event.Leased? && batch[0].event.lease == lease)
  {
    var job, events := Fold(es).value, EventsOf(batch);
    LegalBatchFolds(job, events);
    FoldExtend(es, job, j, batch);
    assert events[0] == batch[0].event;
    if !events[0].Leased? { OnlyClaimsGrant(job, events); }
  }

  /** Whoever holds a lease after a use case held it before, or just claimed it. */
  lemma HeldAfterMove(s: Inner, a: Action, e: Effect, t: Inner, j: JobId, lease: LeaseId)
    requires Moves(s, a, e, t) && HeldIn(t, j, lease)
    ensures HeldIn(s, j, lease) || (a.ClaimNext? && lease == a.lease)
  {
    if e.Wrote? {
      if j != e.job {
        assert SameAt(s, t, j);
      } else if j in s.streams {
        HeldAfterBatch(s.streams[j], j, e.batch, lease);
      }
    }
  }

  lemma MoveKeepsEnded(s: Inner, a: Action, e: Effect, t: Inner, lease: LeaseId)
    requires Moves(s, a, e, t) && FreshLease(s, a) && Ended(s, lease)
    ensures Ended(t, lease)
  {
    var j, i :| GrantedIn(s, j, i, lease);
    GrantsAfterMove(s, a, e, t, j, i, lease);
    assert GrantedIn(t, j, i, lease);
    forall k ensures !HeldIn(t, k, lease) {
      if HeldIn(t, k, lease) { HeldAfterMove(s, a, e, t, k, lease); }
    }
  }

  /** A step that takes the lease from its holder ends it everywhere. */
  lemma MoveEnds(s: Inner, a: Action, e: Effect, t: Inner, j: JobId, lease: LeaseId)
    requires Moves(s, a, e, t) && FreshLease(s, a) && UniqueGrants(s)
    requires HeldIn(s, j, lease) && !HeldIn(t, j, lease)
    ensures Ended(t, lease)
  {
    var es := s.streams[j];
    FoldFacts(es);
    assert es[..|es|] == es;
    var i := HeldSinceGrant(es, |es|, lease);
    assert GrantedIn(s, j, i, lease);
    GrantsAfterMove(s, a, e, t, j, i, lease);
    assert GrantedIn(t, j, i, lease);
    forall k ensures !HeldIn(t, k, lease) {
      if HeldIn(t, k, lease) {
        HeldAfterMove(s, a, e, t, k, lease);
        HeldInOneStream(s, j, k, lease);
      }
    }
  }

  lemma LosingEnds(w: World, a: Action, j: JobId, lease: LeaseId)
    requires Sound(w) && Guard(w, a) && UseCase(a) && FreshLease(w.inner, a) && UniqueGrants(w.inner)
    requires HeldIn(w.inner, j, lease) && !HeldIn(Exec(w, a).inner, j, lease)
    ensures Ended(Exec(w, a).inner, lease)
  {
    StepMoves(w, a);
    MoveEnds(w.inner, a, EffectOf(w, a), Exec(w, a).inner, j, lease);
  }

  // --- Whole runs.

  ghost predicate Fenced(w: World) { RegularWorld(w) && UniqueGrants(w.inner) }

  /** Leases that ended in s are ended in t. */
  ghost predicate StayEnded(s: Inner, t: Inner) { forall lease :: Ended(s, lease) ==> Ended(t, lease) }

  lemma MoveKeepsAllEnded(s: Inner, a: Action, e: Effect, t: Inner)
    requires Moves(s, a, e, t) && FreshLease(s, a)
    ensures StayEnded(s, t)
  {
    forall lease | Ended(s, lease) ensures Ended(t, lease) { MoveKeepsEnded(s, a, e, t, lease); }
  }

  lemma StepKeepsFenced(w: World, a: Action)
    requires Fenced(w) && Guard(w, a) && UseCase(a) && FreshLease(w.inner, a)
    ensures Fenced(Exec(w, a)) && StayEnded(w.inner, Exec(w, a).inner)
  {
    StepMoves(w, a);
    StepKeepsRegular(w, a);
    MoveKeepsUniqueGrants(w.inner, a, EffectOf(w, a), Exec(w, a).inner);
    MoveKeepsAllEnded(w.inner, a, EffectOf(w, a), Exec(w, a).inner);
  }

  lemma StayEndedTransitive(s: Inner, t: Inner, u: Inner)
    requires StayEnded(s, t) && StayEnded(t, u)
    ensures StayEnded(s, u)
  {
  }

  lemma {:induction false} RunKeepsFenced(w: World, run: seq<Action>)
    requires Fenced(w) && Legal(w, run) && AllUseCases(run) && FreshLeases(w, run)
    ensures Fenced(After(w, run)) && StayEnded(w.inner, After(w, run).inner)
    decreases |run|
  {
    if |run| > 0 {
      assert UseCase(run[0]);
      StepKeepsFenced(w, run[0]);
      RunKeepsFenced(Exec(w, run[0]), run[1..]);
      StayEndedTransitive(w.inner, Exec(w, run[0]).inner, After(w, run).inner);
    }
  }

  /** Granted in one event of one stream, held in one stream, ended by one ending event. */
  ghost predicate FencedLease(s: Inner, j: JobId, lease: LeaseId) {
    && (forall i, k, m :: GrantedIn(s, j, i, lease) && GrantedIn(s, k, m, lease) ==> j == k && i == m)
    && (forall k :: HeldIn(s, j, lease) && HeldIn(s, k, lease) ==> j == k)
    && (j in s.streams ==>
          var es := s.streams[j];
          && (forall a, b :: EndsAt(es, a, lease) && EndsAt(es, b, lease) ==> a == b)
          && (forall a: nat :: EndsAt(es, a, lease) ==> Ending(es[a].event)))
  }

  lemma FencedWorldsFence(w: World, j: JobId, lease: LeaseId)
    requires Fenced(w)
    ensures FencedLease(w.inner, j, lease)
  {
    var s := w.inner;
    forall k | HeldIn(s, j, lease) && HeldIn(s, k, lease) ensures j == k { HeldInOneStream(s, j, k, lease); }
    if j in s.streams {
      var es := s.streams[j];
      forall i, k | GrantAt(es, i, lease) && GrantAt(es, k, lease) ensures i == k {
        assert GrantedIn(s, j, i, lease) && GrantedIn(s, j, k, lease);
      }
      forall a, b | EndsAt(es, a, lease) && EndsAt(es, b, lease) ensures a == b { EndsOnce(es, lease, a, b); }
      forall a: nat | EndsAt(es, a, lease) ensures Ending(es[a].event) {
        assert Regular(es);
        EndedByEnding(es, a, lease);
      }
    }
  }

  /** In every run of the use cases with fresh lease ids every lease is fenced. */
  lemma {:induction false} LeasesAreFenced(run: seq<Action>, j: JobId, lease: LeaseId)
    requires Legal(START, run) && AllUseCases(run) && FreshLeases(START, run)
    ensures FencedLease(After(START, run).inner, j, lease)
  {
    StartIsSound();
    RunKeepsFenced(START, run);
    FencedWorldsFence(After(START, run), j, lease);
  }

  /** From s to t, stream j gained one late-ack record of the lease and its job only a version. */
  ghost predicate OnlyRecords(s: Inner, t: Inner, j: JobId, lease: LeaseId) {
    && j in s.streams && j in t.streams && Fold(s.streams[j]).Ok?
    && |t.streams[j]| == |s.streams[j]| + 1 && s.streams[j] <= t.streams[j]
    && (var record := t.streams[j][|s.streams[j]|].event; record.LateAckConflict? && record.lateLease == lease)
    && Fold(t.streams[j]) == Ok(Fold(s.streams[j]).value.(version := |t.streams[j]|))
  }

  /** An ack for a lease the job does not hold, decided on the job's current stream. */
  lemma LateAckWrites(
    s: Inner, session: Session, ack: Command, now: Time, seed: U64, at: Time, ids: seq<EventId>, lease: LeaseId)
    requires Consistent(s) && SessionOk(s, session) && |ids| >= 2 && session.snapshot == s.streams[session.job]
    requires ack.Ack() && ack.lease == lease && !HeldIn(s, session.job, lease)
    ensures DecideCommand(JobAt(s, session.job), ack, now, seed) == Ok(Decision([RecordOf(ack)], Conflict))
    ensures OnlyRecords(s, Finish(s, session.snapshot, ack, now, seed, at, ids).0, session.job, lease)
  {
    StaleAckDecision(JobAt(s, session.job), ack, now, seed);
    CommandDoes(s, session, ack, now, seed, at, ids);
    RecordAppended(s, Finish(s, session.snapshot, ack, now, seed, at, ids).0, session.job, RecordOf(ack), at, ids);
  }

  lemma LateAckIsRecord(w: World, ack: Action, lease: LeaseId)
    requires Sound(w) && Ended(w.inner, lease)
    requires Guard(w, ack) && ack.Complete? && ack.command.Ack() && ack.command.lease == lease && ResultOf(w, ack).Ok?
    ensures ResultOf(w, ack) == Ok(Conflict)
    ensures OnlyRecords(w.inner, Exec(w, ack).inner, w.sessions[ack.session].job, lease)
  {
    DecidedOnCurrent(w, ack);
    LateAckWrites(w.inner, w.sessions[ack.session], ack.command, ack.now, ack.seed, ack.at, ack.ids, lease);
  }

  lemma RecordAppended(s: Inner, t: Inner, j: JobId, record: JobEvent, at: Time, ids: seq<EventId>)
    requires Consistent(s) && j in s.streams && record.LateAckConflict? && |ids| >= 2
    requires Appended(s, t, j, BatchFor(s.streams[j], j, [record], at, ids))
    ensures OnlyRecords(s, t, j, record.lateLease)
  {
    var job, batch := JobAt(s, j), BatchFor(s.streams[j], j, [record], at, ids);
    FoldFacts(s.streams[j]);
    ApplyOne(job, record);
    FoldExtend(s.streams[j], job, j, batch);
  }

  /**
   * However the run goes on after a lease ended, an ack presenting it that is accepted is recorded
   * as a conflict, and the record changes nothing of the job but its version.
   */
  lemma {:induction false} LateAcksAreOnlyRecords(w: World, run: seq<Action>, lease: LeaseId, ack: Action)
    requires Fenced(w) && Legal(w, run) && AllUseCases(run) && FreshLeases(w, run) && Ended(w.inner, lease)
    requires Guard(After(w, run), ack) && ack.Complete? && ack.command.Ack() && ack.command.lease == lease
    requires ResultOf(After(w, run), ack).Ok?
    ensures ResultOf(After(w, run), ack) == Ok(Conflict)
    ensures var late := After(w, run);
            OnlyRecords(late.inner, Exec(late, ack).inner, late.sessions[ack.session].job, lease)
  {
    RunKeepsFenced(w, run);
    LateAckIsRecord(After(w, run), ack, lease);
  }

  lemma QuietBeat(s: Inner, lease: LeaseId, hit: Option<JobId>)
    requires Consistent(s) && Ended(s, lease) && IsHit(s.index, lease, hit)
    ensures hit == None
  {
    if hit.Some? { CarriesIsHeld(s, hit.value, lease); }
  }

  lemma CarriesIsHeld(s: Inner, j: JobId, lease: LeaseId)
    requires Consistent(s) && j in s.index && Carries(s.index[j], lease)
    ensures HeldIn(s, j, lease)
  {
    assert IndexedRight(s, j);
  }

  /** Once a lease ended, no heartbeat with it is ever accepted again. */
  lemma {:induction false} EndedLeasesStayQuiet(w: World, run: seq<Action>, beat: Action)
    requires Fenced(w) && Legal(w, run) && AllUseCases(run) && FreshLeases(w, run)
    requires beat.Heartbeat? && Ended(w.inner, beat.beat) && Guard(After(w, run), beat)
    ensures Extend(After(w, run).inner, beat.hit, beat.ttl, beat.now).1 != Ok(true)
    ensures Exec(After(w, run), beat).inner == After(w, run).inner
  {
    RunKeepsFenced(w, run);
    var s := After(w, run).inner;
    QuietBeat(s, beat.beat, beat.hit);
  }

  lemma RetirementReleases(s: Inner, j: JobId, now: Time, seed: U64, at: Time, ids: seq<EventId>)
    requires Consistent(s) && IsFirstExpired(s.index, now, Some(j)) && |ids| >= 2
    requires RetireWrites(s, Some(j), now, seed, at, ids).Wrote?
    ensures j in s.streams && JobAt(s, j).state.Held()
    ensures !HeldIn(Retire(s, Some(j), now, seed, at, ids).0, j, JobAt(s, j).state.lease)
  {
    FirstExpiredIsHeld(s, now, j);
    var job := JobAt(s, j);
    RetireSucceeds(s, j, now, seed, at, ids, RetryEvent(job, AddOne(job.attempt), now, seed).value);
  }

  /** A retirement ends the lease it retires. */
  lemma RetirementEnds(w: World, a: Action)
    requires Fenced(w) && Guard(w, a) && a.RetireNext? && EffectOf(w, a).Wrote?
    ensures a.picked.Some?
    ensures var j := a.picked.value;
            && j in w.inner.streams && JobAt(w.inner, j).state.Held()
            && Ended(Exec(w, a).inner, JobAt(w.inner, j).state.lease)
  {
    RetirementReleases(w.inner, a.picked.value, a.now, a.seed, a.at, a.ids);
    LosingEnds(w, a, a.picked.value, JobAt(w.inner, a.picked.value).state.lease);
  }
}
