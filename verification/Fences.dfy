/** Safety over every interleaving: terminal jobs stay put, and heartbeats fence retirement. */
module Fences {
  import opened Types
  import opened Words
  import opened Jobs
  import opened Stores
  import opened Dispatchers
  import opened Consistency
  import opened UseCases
  import opened Broker
  import opened Regularity
  import opened Deadlines
  import opened Sweeping

  // --- Terminal absorption.

  lemma TerminalTakes(job: Job, e: Envelope)
    requires job.state.Terminal() && Advance(job, e).Ok?
    ensures e.event.LateAckConflict? && Advance(job, e).value == job.(version := job.version + 1)
  {
  }

  /** After a terminal prefix only late-ack records follow, and they change nothing but the version. */
  lemma {:induction false} TerminalSuffix(es: Stream, n: nat)
    requires Fold(es).Ok? && 1 <= n <= |es|
    requires Fold(es[..n]).Ok? && Fold(es[..n]).value.state.Terminal()
    ensures forall k :: n <= k < |es| ==> es[k].event.LateAckConflict?
    ensures Fold(es).value == Fold(es[..n]).value.(version := |es|)
    decreases |es|
  {
    FoldFacts(es[..n]);
    if n == |es| {
      assert es[..n] == es;
    } else {
      var init := es[..|es| - 1];
      assert init[..n] == es[..n];
      TerminalSuffix(init, n);
      TerminalTakes(Fold(init).value, es[|es| - 1]);
      assert forall k :: n <= k < |init| ==> es[k] == init[k];
    }
  }

  /** From s on the job has kept its terminal state, gained only late-ack records, and stayed out of the index. */
  ghost predicate Absorbed(s: Inner, t: Inner, j: JobId) {
    && j in s.streams && Fold(s.streams[j]).Ok? && j in t.streams && Stored(j, t.streams[j])
    && s.streams[j] <= t.streams[j]
    && Fold(t.streams[j]).value == Fold(s.streams[j]).value.(version := |t.streams[j]|)
    && (forall k :: |s.streams[j]| <= k < |t.streams[j]| ==> t.streams[j][k].event.LateAckConflict?)
    && j !in t.index
  }

  lemma TerminalAbsorbed(s: Inner, t: Inner, j: JobId)
    requires Consistent(s) && Consistent(t) && j in s.streams && JobAt(s, j).state.Terminal()
    requires j in t.streams && s.streams[j] <= t.streams[j]
    ensures Absorbed(s, t, j)
  {
    assert t.streams[j][..|s.streams[j]|] == s.streams[j];
    FoldFacts(s.streams[j]);
    TerminalSuffix(t.streams[j], |s.streams[j]|);
    assert IndexedRight(t, j);
  }

  /** In every continuation a succeeded or cancelled job keeps its state and is never dispatched again. */
  lemma {:induction false} TerminalAbsorbs(w: World, run: seq<Action>, j: JobId)
    requires Sound(w) && Legal(w, run)
    requires j in w.inner.streams && JobAt(w.inner, j).state.Terminal()
    ensures Absorbed(w.inner, After(w, run).inner, j)
  {
    RunKeepsSound(w, run);
    TerminalAbsorbed(w.inner, After(w, run).inner, j);
  }

  // --- The heartbeat fence.

  /** Job j is leased under `lease` until `deadline`, as far as the index is concerned. */
  ghost predicate LiveUntil(s: Inner, j: JobId, lease: LeaseId, deadline: Time) {
    && j in s.index && Carries(s.index[j], lease) && s.index[j].lease.value.expiresAt == deadline
  }

  /** An accepted heartbeat sets the deadline to now + ttl, even when that is sooner than before. */
  lemma HeartbeatAccepted(s: Inner, lease: LeaseId, hit: Option<JobId>, ttl: Duration, now: Time)
    requires IsHit(s.index, lease, hit)
    ensures Extend(s, hit, ttl, now).1 == Ok(true)
            <==> IsDelta(ttl) && hit.Some? && s.index[hit.value].lease.value.expiresAt > now
    ensures Extend(s, hit, ttl, now).1 == Ok(true) ==>
              var t, before := Extend(s, hit, ttl, now).0, s.index[hit.value].lease.value.expiresAt;
              && LiveUntil(t, hit.value, lease, now + ttl) && t.streams == s.streams
              && (t.index[hit.value].lease.value.expiresAt < before <==> ttl < before - now)
    ensures Extend(s, hit, ttl, now).1 == Err(TtlOutOfRange) <==> !IsDelta(ttl)
    ensures Extend(s, hit, ttl, now).1 == Ok(false)
            <==> IsDelta(ttl) && (hit.None? || s.index[hit.value].lease.value.expiresAt <= now)
    ensures Extend(s, hit, ttl, now).1 != Ok(true) ==> Extend(s, hit, ttl, now).0 == s
  {
  }

  /** An append to stream j by anyone but the dispatcher, or another heartbeat on its lease. */
  ghost predicate Intervenes(w: World, a: Action, j: JobId, lease: LeaseId)
    requires Sound(w) && Guard(w, a)
  {
    || ((a.RawAppend? || a.EnqueueNew? || a.Complete?) && EffectOf(w, a).Wrote? && EffectOf(w, a).job == j)
    || (a.Heartbeat? && a.beat == lease)
  }

  ghost predicate Undisturbed(w: World, run: seq<Action>, j: JobId, lease: LeaseId, deadline: Time)
    requires Sound(w) && Legal(w, run)
    decreases |run|
  {
    |run| > 0 ==>
      && !Intervenes(w, run[0], j, lease)
      && (run[0].RetireNext? ==> run[0].now < deadline)
      && (StepKeepsSound(w, run[0]); Undisturbed(Exec(w, run[0]), run[1..], j, lease, deadline))
  }

  lemma FenceStep(w: World, a: Action, j: JobId, lease: LeaseId, deadline: Time)
    requires Sound(w) && Guard(w, a) && LiveUntil(w.inner, j, lease, deadline)
    requires !Intervenes(w, a, j, lease) && (a.RetireNext? ==> a.now < deadline)
    ensures SameAt(w.inner, Exec(w, a).inner, j)
  {
    StepEffect(w, a);
    var e := EffectOf(w, a);
    if e.Wrote? { assert e.job != j; }
    if e.Moved? { assert Carries(w.inner.index[e.job], a.beat); }
  }

  /**
   * While nothing intervenes, no retirement at a clock before the deadline takes the job: its
   * stream and its index entry are exactly as the heartbeat left them.
   */
  lemma {:induction false} HeartbeatFence(w: World, run: seq<Action>, j: JobId, lease: LeaseId, deadline: Time)
    requires Sound(w) && Legal(w, run) && LiveUntil(w.inner, j, lease, deadline)
    requires Undisturbed(w, run, j, lease, deadline)
    ensures SameAt(w.inner, After(w, run).inner, j)
    decreases |run|
  {
    if |run| > 0 {
      FenceStep(w, run[0], j, lease, deadline);
      StepKeepsSound(w, run[0]);
      HeartbeatFence(Exec(w, run[0]), run[1..], j, lease, deadline);
    }
  }

  // --- The exception: appends forget heartbeats.

  /** Job j is leased under `lease`, with the deadline recorded at the claim. */
  ghost predicate HoldsSince(s: Inner, j: JobId, lease: LeaseId, recorded: Time) {
    && j in s.streams && Fold(s.streams[j]).Ok?
    && var state := Fold(s.streams[j]).value.state; state.Holds(lease) && state.expiresAt == recorded
  }

  ghost predicate IsHeld(s: Inner, j: JobId) {
    j in s.streams && Fold(s.streams[j]).Ok? && Fold(s.streams[j]).value.state.Held()
  }

  ghost predicate HeldThroughout(w: World, run: seq<Action>, j: JobId)
    requires Legal(w, run)
    decreases |run|
  {
    IsHeld(w.inner, j) && (|run| > 0 ==> HeldThroughout(Exec(w, run[0]), run[1..], j))
  }

  /** A job that stays held by a use case stays held under the same grant. */
  lemma MoveKeepsGrant(s: Inner, a: Action, e: Effect, t: Inner, j: JobId, lease: LeaseId, recorded: Time)
    requires Moves(s, a, e, t) && HoldsSince(s, j, lease, recorded) && IsHeld(t, j)
    ensures HoldsSince(t, j, lease, recorded)
  {
    if e.Wrote? {
      if e.job == j {
        var job, events := Fold(s.streams[j]).value, EventsOf(e.batch);
        LegalBatchFolds(job, events);
        FoldExtend(s.streams[j], job, j, e.batch);
        OnlyClaimsGrant(job, events);
      } else {
        assert SameAt(s, t, j);
      }
    }
  }

  lemma StepKeepsGrant(w: World, a: Action, j: JobId, lease: LeaseId, recorded: Time)
    requires Sound(w) && Guard(w, a) && UseCase(a)
    requires HoldsSince(w.inner, j, lease, recorded) && IsHeld(Exec(w, a).inner, j)
    ensures HoldsSince(Exec(w, a).inner, j, lease, recorded)
  {
    StepMoves(w, a);
    MoveKeepsGrant(w.inner, a, EffectOf(w, a), Exec(w, a).inner, j, lease, recorded);
  }

  lemma {:induction false} RunKeepsGrant(w: World, run: seq<Action>, j: JobId, lease: LeaseId, recorded: Time)
    requires Sound(w) && Legal(w, run) && AllUseCases(run)
    requires HoldsSince(w.inner, j, lease, recorded) && HeldThroughout(w, run, j)
    ensures HoldsSince(After(w, run).inner, j, lease, recorded)
    decreases |run|
  {
    if |run| > 0 {
      assert UseCase(run[0]);
      StepKeepsSound(w, run[0]);
      StepKeepsGrant(w, run[0], j, lease, recorded);
      RunKeepsGrant(Exec(w, run[0]), run[1..], j, lease, recorded);
    }
  }

  /**
   * The fate of a heartbeat over any run of the use cases during which the job stays held: the lease's
   * deadline is that of the last heartbeat since the last command that wrote to the job, this one
   * included, and the deadline recorded at the claim if a command wrote since.
   */
  lemma {:induction false} HeartbeatFate(
    w: World, run: seq<Action>, j: JobId, lease: LeaseId, deadline: Time, recorded: Time)
    requires Sound(w) && Legal(w, run) && AllUseCases(run) && LiveUntil(w.inner, j, lease, deadline)
    requires HoldsSince(w.inner, j, lease, recorded) && HeldThroughout(w, run, j)
    ensures var renewed := RenewedAfter(w, run, j, Some(deadline));
            LiveUntil(After(w, run).inner, j, lease, if renewed.Some? then renewed.value else recorded)
  {
    assert IndexedRight(w.inner, j);
    RunKeepsExact(w, run, j, Some(deadline));
    RunKeepsGrant(w, run, j, lease, recorded);
    RunKeepsSound(w, run);
    assert IndexedRight(After(w, run).inner, j);
  }

  lemma CommandForgets(
    s: Inner, session: Session, command: Command, now: Time, seed: U64, at: Time, ids: seq<EventId>, t: Inner,
    late: Time)
    requires Consistent(s) && SessionOk(s, session) && |ids| >= 2
    requires CommandWrites(s, session, command, now, seed, at, ids).Wrote?
    requires HasEffect(s, t, CommandWrites(s, session, command, now, seed, at, ids))
    ensures Forgotten(s, t, session.job, late)
  {
    CommandFolds(s, session, command, now, seed, at, ids);
    var job := JobAt(s, session.job);
    var events := DecideCommand(job, command, now, seed).value.events;
    if AfterBatch(job, events).state.Held() { OnlyClaimsGrant(job, events); }
  }

  /** If job j is held in t, it was in s, and its lease counts as expired from the deadline recorded in s on. */
  ghost predicate Forgotten(s: Inner, t: Inner, j: JobId, now: Time) {
    && j in s.streams && Stored(j, s.streams[j]) && j in t.streams && Stored(j, t.streams[j])
    && var job, next := Fold(s.streams[j]).value, Fold(t.streams[j]).value;
       next.state.Held() ==>
         && job.state.Held() && next.state.expiresAt == job.state.expiresAt
         && j in t.index && (Expired(t.index[j], now) <==> job.state.expiresAt <= now)
  }

  /** In particular, one command on a held job that stays held sets the deadline back to the recorded one. */
  lemma CommandForgetsHeartbeats(w: World, a: Action, now: Time)
    requires Sound(w) && Guard(w, a) && a.Complete? && EffectOf(w, a).Wrote?
    ensures Forgotten(w.inner, Exec(w, a).inner, EffectOf(w, a).job, now)
  {
    StepEffect(w, a);
    CommandForgets(
      w.inner, w.sessions[a.session], a.command, a.now, a.seed, a.at, a.ids, Exec(w, a).inner, now);
  }

  // A run in which that happens: heartbeat accepted at 20 s until 50 s, start, retired at 35 s.

  const SEC: Time := NANOS_PER_SEC
  const JOB: JobId := 1
  const GRANT: LeaseId := 7
  const ORDER: EnqueueCommand :=
    EnqueueCommand("default", "{}", 0, RetryPolicy(20, 2 * NANOS_PER_SEC, 900 * NANOS_PER_SEC), None, None, None, None)

  const ENQUEUE := EnqueueNew(ORDER, JOB, 1, 0, [1, 2])
  const CLAIM := ClaimNext("default", "w1", GRANT, 30 * NANOS_PER_SEC, 0, 0, [3, 4], Some(JOB))
  const BEAT := Heartbeat(GRANT, 30 * NANOS_PER_SEC, 20 * SEC, Some(JOB))
  const SHORT := Heartbeat(GRANT, 5 * NANOS_PER_SEC, 1 * SEC, Some(JOB))
  const LOAD := Begin(0, JOB)
  const START_IT := Complete(0, StartJob("w1"), 21 * SEC, 0, 21 * SEC, [5, 6])
  const RETIRE := RetireNext(35 * SEC, 0, 35 * SEC, [7, 8], Some(JOB))

  const UNTIL_BEAT := [ENQUEUE, CLAIM, BEAT]
  const UNTIL_START := [LOAD, START_IT]

  ghost predicate OnlyJob(s: Inner) { JOB in s.streams && JOB in s.index && forall k :: k in s.index ==> k == JOB }

  lemma OnlyJobStays(s: Inner, t: Inner, batch: seq<Envelope>)
    requires Appended(s, t, JOB, batch) && JOB in t.index && (forall k :: k in s.index ==> k == JOB)
    ensures OnlyJob(t)
  {
    forall k | k != JOB ensures k !in t.index {
      assert SameAt(s, t, k);
    }
  }

  lemma WitnessEnqueue() returns (w: World)
    ensures Guard(START, ENQUEUE) && w == Exec(START, ENQUEUE) && Sound(w) && OnlyJob(w.inner)
    ensures var job := JobAt(w.inner, JOB);
            job.state == Pending(None) && job.queue == "default" && job.policy == ORDER.policy && job.attempt == 0
  {
    StartIsSound();
    w := Exec(START, ENQUEUE);
    StepKeepsSound(START, ENQUEUE);
    StepEffect(START, ENQUEUE);
    var batch := OpeningBatch(ORDER, JOB, 1, 0, [1, 2]);
    assert [] + batch == batch;
    assert EffectOf(START, ENQUEUE) == Wrote(JOB, batch);
    OnlyJobStays(START.inner, w.inner, batch);
  }

  /** The only job, in the given state and on its first attempt. */
  ghost predicate OnlyJobIs(s: Inner, state: JobState) {
    && Consistent(s) && OnlyJob(s)
    && var job := JobAt(s, JOB);
       job.state == state && job.queue == "default" && job.policy == ORDER.policy && job.attempt == 0
  }

  lemma ClaimOnlyJob(s: Inner)
    requires OnlyJobIs(s, Pending(None))
    ensures IsPick(s.index, "default", 0, Some(JOB))
    ensures var t := Claim(s, Some(JOB), "w1", GRANT, 30 * NANOS_PER_SEC, 0, 0, [3, 4]).0;
            OnlyJobIs(t, JobState.Leased("w1", GRANT, 30 * SEC)) && LiveUntil(t, JOB, GRANT, 30 * SEC)
  {
    assert IndexedRight(s, JOB);
    assert IsPick(s.index, "default", 0, Some(JOB));
    ClaimSucceeds(s, "default", JOB, "w1", GRANT, 30 * NANOS_PER_SEC, 0, 0, [3, 4]);
    var batch := BatchFor(s.streams[JOB], JOB, [JobEvent.Leased("w1", GRANT, 30 * SEC)], 0, [3, 4]);
    var t := Claim(s, Some(JOB), "w1", GRANT, 30 * NANOS_PER_SEC, 0, 0, [3, 4]).0;
    OnlyJobStays(s, t, batch);
    AppendKeepsConsistent(s, t, JOB, batch);
  }

  lemma WitnessClaim(w: World) returns (w': World)
    requires Sound(w) && OnlyJobIs(w.inner, Pending(None))
    ensures Guard(w, CLAIM) && w' == Exec(w, CLAIM) && Sound(w')
    ensures OnlyJobIs(w'.inner, JobState.Leased("w1", GRANT, 30 * SEC)) && LiveUntil(w'.inner, JOB, GRANT, 30 * SEC)
  {
    ClaimOnlyJob(w.inner);
    w' := Exec(w, CLAIM);
    StepKeepsSound(w, CLAIM);
  }

  lemma BeatOnlyJob(s: Inner, state: JobState, deadline: Time, ttl: Duration, now: Time)
    requires OnlyJobIs(s, state) && LiveUntil(s, JOB, GRANT, deadline) && now < deadline && IsDelta(ttl)
    ensures IsHit(s.index, GRANT, Some(JOB))
    ensures var t := Extend(s, Some(JOB), ttl, now).0;
            OnlyJobIs(t, state) && LiveUntil(t, JOB, GRANT, now + ttl) && t.streams == s.streams
  {
    EffectKeepsConsistent(s, Extend(s, Some(JOB), ttl, now).0, Moved(JOB, now + ttl));
  }

  lemma WitnessBeat(w: World, beat: Action, state: JobState) returns (w': World)
    requires Sound(w) && OnlyJobIs(w.inner, state) && LiveUntil(w.inner, JOB, GRANT, 30 * SEC)
    requires beat == BEAT || beat == SHORT
    ensures Guard(w, beat) && w' == Exec(w, beat) && Sound(w') && OnlyJobIs(w'.inner, state)
    ensures LiveUntil(w'.inner, JOB, GRANT, beat.now + beat.ttl)
  {
    BeatOnlyJob(w.inner, state, 30 * SEC, beat.ttl, beat.now);
    w' := Exec(w, beat);
    StepKeepsSound(w, beat);
  }

  lemma StartOnlyJob(s: Inner)
    requires OnlyJobIs(s, JobState.Leased("w1", GRANT, 30 * SEC))
    ensures var t := Finish(s, s.streams[JOB], StartJob("w1"), 21 * SEC, 0, 21 * SEC, [5, 6]).0;
            OnlyJobIs(t, Running("w1", GRANT, 30 * SEC)) && LiveUntil(t, JOB, GRANT, 30 * SEC)
  {
    var job := JobAt(s, JOB);
    FoldFacts(s.streams[JOB]);
    var batch := BatchFor(s.streams[JOB], JOB, [Started("w1")], 21 * SEC, [5, 6]);
    LegalBatchFolds(job, [Started("w1")]);
    AppendAccepts(s, JOB, batch, AfterBatch(job, [Started("w1")]));
    var t := Append(s, JOB, job.version, batch).value;
    OnlyJobStays(s, t, batch);
    AppendKeepsConsistent(s, t, JOB, batch);
  }

  lemma WitnessStart(w: World) returns (w': World)
    requires Sound(w) && OnlyJobIs(w.inner, JobState.Leased("w1", GRANT, 30 * SEC))
    requires 0 in w.sessions && w.sessions[0] == Session(JOB, w.inner.streams[JOB])
    ensures Guard(w, START_IT) && w' == Exec(w, START_IT) && Sound(w')
    ensures OnlyJobIs(w'.inner, Running("w1", GRANT, 30 * SEC)) && LiveUntil(w'.inner, JOB, GRANT, 30 * SEC)
  {
    StartOnlyJob(w.inner);
    w' := Exec(w, START_IT);
    StepKeepsSound(w, START_IT);
  }

  ghost predicate NobodyHolds(s: Inner, lease: LeaseId) {
    forall k :: k in s.streams && Fold(s.streams[k]).Ok? ==> !Fold(s.streams[k]).value.state.Holds(lease)
  }

  lemma RetiredFrees(s: Inner, t: Inner, now: Time)
    requires Consistent(s) && OnlyJob(s) && Retired(s, t, JOB, now) && forall k :: k != JOB ==> SameAt(s, t, k)
    ensures NobodyHolds(t, GRANT)
  {
    forall k | k in t.streams && Fold(t.streams[k]).Ok? ensures !Fold(t.streams[k]).value.state.Holds(GRANT) {
      if k != JOB { assert SameAt(s, t, k) && IndexedRight(s, k); }
    }
  }

  lemma RetireOnlyJob(s: Inner)
    requires OnlyJobIs(s, Running("w1", GRANT, 30 * SEC)) && LiveUntil(s, JOB, GRANT, 30 * SEC)
    ensures IsFirstExpired(s.index, 35 * SEC, Some(JOB))
    ensures var t := Retire(s, Some(JOB), 35 * SEC, 0, 35 * SEC, [7, 8]).0;
            Retired(s, t, JOB, 35 * SEC) && NobodyHolds(t, GRANT)
  {
    SanePoliciesFit(ORDER.policy, 1, 35 * SEC);
    RetireOneEffect(s, JOB, 35 * SEC, 0, 35 * SEC, [7, 8]);
    RetiredFrees(s, Retire(s, Some(JOB), 35 * SEC, 0, 35 * SEC, [7, 8]).0, 35 * SEC);
  }

  /** A heartbeat accepted until second 50 does not stop a retirement at second 35. */
  lemma ForgottenHeartbeat()
    ensures Legal(START, UNTIL_BEAT) && Legal(After(START, UNTIL_BEAT), UNTIL_START)
    ensures LiveUntil(After(START, UNTIL_BEAT).inner, JOB, GRANT, 50 * SEC)
    ensures var running := After(After(START, UNTIL_BEAT), UNTIL_START);
            && Guard(running, RETIRE) && Consistent(running.inner)
            && Retired(running.inner, Exec(running, RETIRE).inner, JOB, 35 * SEC)
            && JobAt(running.inner, JOB).state.lease == GRANT && NobodyHolds(Exec(running, RETIRE).inner, GRANT)
  {
    var w1 := WitnessEnqueue();
    var w2 := WitnessClaim(w1);
    var w3 := WitnessBeat(w2, BEAT, JobState.Leased("w1", GRANT, 30 * SEC));
    RunThree(START, ENQUEUE, CLAIM, BEAT);
    var w4 := Exec(w3, LOAD);
    StepKeepsSound(w3, LOAD);
    var w5 := WitnessStart(w4);
    RunTwo(w3, LOAD, START_IT);
    RetireOnlyJob(w5.inner);
  }

  /** A lease granted until second 30 is given up at second 6 by a heartbeat that asks for five seconds. */
  lemma ShortenedHeartbeat()
    ensures Legal(START, [ENQUEUE, CLAIM]) && Legal(START, [ENQUEUE, CLAIM, SHORT])
    ensures LiveUntil(After(START, [ENQUEUE, CLAIM]).inner, JOB, GRANT, 30 * SEC)
    ensures LiveUntil(After(START, [ENQUEUE, CLAIM, SHORT]).inner, JOB, GRANT, 6 * SEC)
  {
    var w1 := WitnessEnqueue();
    var w2 := WitnessClaim(w1);
    var w3 := WitnessBeat(w2, SHORT, JobState.Leased("w1", GRANT, 30 * SEC));
    RunTwo(START, ENQUEUE, CLAIM);
    RunThree(START, ENQUEUE, CLAIM, SHORT);
  }
}
