/** Runs of the use cases and the dispatcher: attempt accounting, bounded delivery, lineage, queue order. */
module Regularity {
  import opened Types
  import opened Words
  import opened Retry
  import opened Jobs
  import opened Lineages
  import opened Stores
  import opened Dispatchers
  import opened Consistency
  import opened UseCases
  import opened Broker

  predicate UseCase(a: Action) { !a.RawAppend? }

  predicate AllUseCases(run: seq<Action>) { forall i :: 0 <= i < |run| ==> UseCase(run[i]) }

  // --- What they write.

  /** A legal batch for the stream, caused by its last envelope. */
  ghost predicate CommandBatch(es: Stream, batch: seq<Envelope>) {
    && Fold(es).Ok? && LegalBatch(Fold(es).value, EventsOf(batch))
    && forall k :: 0 <= k < |batch| ==> batch[k].lineage == LineageOf(es)
  }

  ghost predicate IsOpening(batch: seq<Envelope>) {
    |batch| == 1 && batch[0].event.Enqueued? && batch[0].version == 1 && Sane(batch[0].event.policy)
  }

  /** The steps that mint event ids. */
  predicate Mints(a: Action) { (a.EnqueueNew? || a.ClaimNext? || a.RetireNext? || a.Complete?) && |a.ids| >= 2 }

  /** A claim grants its own lease, to a job whose time has come. */
  predicate GrantsByClaim(job: Job, a: Action, j: JobId, ev: JobEvent) {
    ev.Leased? ==>
      && a.ClaimNext? && a.picked == Some(j) && ev.lease == a.lease && ev.expiresAt == a.now + a.ttl
      && job.state.Pending? && Eligible(job.state.notBefore, a.now)
  }

  /** A retry is scheduled by a retirement or a failure report, at the instant it drew. */
  predicate RetriesByDraw(job: Job, a: Action, ev: JobEvent) {
    ev.RetryScheduled? ==>
      && (a.RetireNext? || a.Complete?)
      && ev.retryAt == RetryTime(job.policy, AddOne(job.attempt), a.now, a.seed)
  }

  /** A batch opens a new stream with an accepted policy, or continues a known one. */
  ghost predicate Writes(s: Inner, a: Action, j: JobId, batch: seq<Envelope>) {
    && 0 < |batch| <= 2 && Mints(a) && (forall k :: 0 <= k < |batch| ==> batch[k].eventId == a.ids[k])
    && if j !in s.streams then IsOpening(batch)
       else
         && CommandBatch(s.streams[j], batch) && Continues(j, |s.streams[j]|, batch)
         && GrantsByClaim(Fold(s.streams[j]).value, a, j, batch[0].event)
         && RetriesByDraw(Fold(s.streams[j]).value, a, batch[|batch| - 1].event)
  }

  lemma EnqueueFits(s: Inner, a: Action)
    requires Consistent(s) && a.EnqueueNew? && |a.ids| >= 2
    requires Enqueue(s, a.cmd, a.job, a.minted, a.at, a.ids).1.Ok?
    ensures Writes(s, a, a.job, OpeningBatch(a.cmd, a.job, a.minted, a.at, a.ids))
  {
    EnqueueOpens(s, a.cmd, a.job, a.minted, a.at, a.ids);
  }

  lemma ClaimFits(s: Inner, a: Action)
    requires Consistent(s) && a.ClaimNext? && |a.ids| >= 2 && IsPick(s.index, a.queue, a.now, a.picked)
    requires a.picked.Some? && IsDelta(a.ttl)
    ensures var e := ClaimWrites(s, a.picked, a.worker, a.lease, a.ttl, a.now, a.at, a.ids);
            e.Wrote? && Writes(s, a, e.job, e.batch)
  {
    PickIsPending(s, a.queue, a.now, a.picked.value);
  }

  lemma RetireFits(s: Inner, a: Action)
    requires Consistent(s) && a.RetireNext? && |a.ids| >= 2 && IsFirstExpired(s.index, a.now, a.picked)
    requires RetireWrites(s, a.picked, a.now, a.seed, a.at, a.ids).Wrote?
    ensures var e := RetireWrites(s, a.picked, a.now, a.seed, a.at, a.ids); Writes(s, a, e.job, e.batch)
  {
    var j := a.picked.value;
    FirstExpiredIsHeld(s, a.now, j);
    var job := JobAt(s, j);
    ExpiryIsLegal(job, a.now, a.seed);
    RetryIsDue(job, AddOne(job.attempt), a.now, a.seed);
    var e := RetireWrites(s, a.picked, a.now, a.seed, a.at, a.ids);
    assert EventsOf(e.batch)[0] == e.batch[0].event && EventsOf(e.batch)[1] == e.batch[1].event;
  }

  /** The last event of a decision, if it schedules a retry, is the one that is due. */
  lemma DecisionDraws(job: Job, cmd: Command, now: Time, seed: U64)
    requires DecideCommand(job, cmd, now, seed).Ok?
    ensures var events := DecideCommand(job, cmd, now, seed).value.events;
            && 0 < |events| <= 2
            && (events[|events| - 1].RetryScheduled? ==>
                  events[|events| - 1].retryAt == RetryTime(job.policy, AddOne(job.attempt), now, seed))
  {
    RetryIsDue(job, AddOne(job.attempt), now, seed);
  }

  lemma CommandFits(s: Inner, a: Action, session: Session)
    requires Consistent(s) && SessionOk(s, session) && a.Complete? && |a.ids| >= 2
    requires CommandWrites(s, session, a.command, a.now, a.seed, a.at, a.ids).Wrote?
    ensures var e := CommandWrites(s, session, a.command, a.now, a.seed, a.at, a.ids); Writes(s, a, e.job, e.batch)
  {
    var e, job := CommandWrites(s, session, a.command, a.now, a.seed, a.at, a.ids), JobAt(s, session.job);
    CommandFolds(s, session, a.command, a.now, a.seed, a.at, a.ids);
    DecisionDraws(job, a.command, a.now, a.seed);
    assert |EventsOf(e.batch)| == |e.batch|;
    assert forall k :: 0 <= k < |e.batch| ==> EventsOf(e.batch)[k] == e.batch[k].event;
  }

  lemma UseCaseWrites(w: World, a: Action)
    requires Sound(w) && Guard(w, a) && UseCase(a) && EffectOf(w, a).Wrote?
    ensures Writes(w.inner, a, EffectOf(w, a).job, EffectOf(w, a).batch)
  {
    match a
    case EnqueueNew(_, _, _, _, _) => EnqueueFits(w.inner, a);
    case ClaimNext(_, _, _, _, _, _, _, _) => ClaimFits(w.inner, a);
    case RetireNext(_, _, _, _, _) => RetireFits(w.inner, a);
    case Complete(session, _, _, _, _, _) => CommandFits(w.inner, a, w.sessions[session]);
    case _ =>
  }

  /** Everything later theorems need to know about one step, without the machine. */
  ghost predicate Moves(s: Inner, a: Action, e: Effect, t: Inner) {
    && HasEffect(s, t, e)
    && (e.Wrote? ==> Writes(s, a, e.job, e.batch))
    && (e.Moved? ==> a.Heartbeat? && a.hit == Some(e.job) && e.deadline == a.now + a.ttl)
  }

  lemma StepMoves(w: World, a: Action)
    requires Sound(w) && Guard(w, a) && UseCase(a)
    ensures Moves(w.inner, a, EffectOf(w, a), Exec(w, a).inner)
  {
    StepEffect(w, a);
    if EffectOf(w, a).Wrote? { UseCaseWrites(w, a); }
  }

  // --- Accounting.

  datatype Kind = AttemptEnd | Grant | Substance

  predicate Is(ev: JobEvent, kind: Kind) {
    match kind
    case AttemptEnd => ev.Failed? || ev.LeaseExpired?
    case Grant => ev.Leased?
    case Substance => !ev.LateAckConflict?
  }

  function Tally(b: bool): nat { if b then 1 else 0 }

  /** How many events of a kind: ended attempts, granted leases, or all but late-ack records. */
  function Count(events: seq<JobEvent>, kind: Kind): nat {
    if |events| == 0 then 0
    else Count(events[..|events| - 1], kind) + Tally(Is(events[|events| - 1], kind))
  }

  lemma {:induction false} CountConcat(a: seq<JobEvent>, b: seq<JobEvent>, kind: Kind)
    ensures Count(a + b, kind) == Count(a, kind) + Count(b, kind)
    decreases |b|
  {
    if |b| == 0 {
      assert a + b == a;
    } else {
      CountConcat(a, b[..|b| - 1], kind);
      assert (a + b)[..|a + b| - 1] == a + b[..|b| - 1];
    }
  }

  lemma {:induction false} CountOne(a: JobEvent, kind: Kind)
    ensures Count([a], kind) == Tally(Is(a, kind))
  {
    assert [a][..0] == [];
  }

  lemma {:induction false} CountTwo(a: JobEvent, b: JobEvent, kind: Kind)
    ensures Count([a, b], kind) == Tally(Is(a, kind)) + Tally(Is(b, kind))
  {
    CountOne(a, kind);
    assert [a, b][..1] == [a];
  }

  function Progress(state: JobState): nat {
    match state
    case Leased(_, _, _) => 1
    case Running(_, _, _) => 2
    case Succeeded => 3
    case _ => 0
  }

  /** How a job's attempt counter, state and policy bound what its stream can hold. */
  predicate Ledger(job: Job, attempts: nat, grants: nat, substance: nat) {
    var max := job.policy.maxAttempts;
    && Sane(job.policy)
    && job.attempt == attempts && attempts <= max
    && (match job.state
        case Pending(_) => attempts < max && grants == attempts
        case Leased(_, _, _) => attempts < max && grants == attempts + 1
        case Running(_, _, _) => attempts < max && grants == attempts + 1
        case Succeeded => attempts < max && grants == attempts + 1
        case Parked(reason) =>
          grants == attempts && reason != ApprovalDenied && (reason == RetriesExhausted ==> attempts == max)
        case Cancelled => grants <= max
        case _ => false)
    && (if job.state.Cancelled? then substance <= 4 * max + 2
        else substance <= 1 + 4 * attempts + Progress(job.state))
  }

  lemma LedgerStepOne(job: Job, n: nat, g: nat, u: nat, ev: JobEvent)
    requires Ledger(job, n, g, u) && LegalBatch(job, [ev])
    ensures Ledger(AfterBatch(job, [ev]),
                   n + Tally(Is(ev, AttemptEnd)), g + Tally(Is(ev, Grant)), u + Tally(Is(ev, Substance)))
  {
  }

  lemma LedgerStepTwo(job: Job, n: nat, g: nat, u: nat, a: JobEvent, b: JobEvent)
    requires Ledger(job, n, g, u) && LegalBatch(job, [a, b])
    ensures Ledger(AfterBatch(job, [a, b]), n + 1, g, u + 2)
    ensures Is(a, AttemptEnd) && !Is(b, AttemptEnd) && !Is(a, Grant) && !Is(b, Grant)
    ensures Is(a, Substance) && Is(b, Substance)
  {
  }

  lemma {:induction false} LedgerStep(job: Job, n: nat, g: nat, u: nat, events: seq<JobEvent>)
    requires Ledger(job, n, g, u) && LegalBatch(job, events)
    ensures Ledger(AfterBatch(job, events),
                   n + Count(events, AttemptEnd), g + Count(events, Grant), u + Count(events, Substance))
  {
    if |events| == 1 {
      assert events == [events[0]];
      forall kind ensures Count(events, kind) == Tally(Is(events[0], kind)) { CountOne(events[0], kind); }
      LedgerStepOne(job, n, g, u, events[0]);
    } else {
      assert events == [events[0], events[1]];
      forall kind ensures Count(events, kind) == Tally(Is(events[0], kind)) + Tally(Is(events[1], kind)) {
        CountTwo(events[0], events[1], kind);
      }
      LedgerStepTwo(job, n, g, u, events[0], events[1]);
    }
  }

  // --- Lineage.

  /**
   * The last envelope before the batch of envelope i. Only an ended attempt is followed by another
   * event of its own batch, the retry decision.
   */
  function CauseOf(es: Stream, i: nat): int
    requires 1 <= i < |es|
  {
    if Is(es[i - 1].event, AttemptEnd) then i - 2 else i - 1
  }

  predicate CausedRight(es: Stream, i: nat)
    requires 1 <= i < |es|
  {
    0 <= CauseOf(es, i) && es[i].lineage.causation == Some(es[CauseOf(es, i)].eventId)
  }

  ghost predicate Traced(es: Stream) {
    && |es| > 0 && !Is(es[|es| - 1].event, AttemptEnd)
    && (forall i :: 0 <= i < |es| ==>
          && es[i].lineage.correlation == es[0].lineage.correlation
          && es[i].lineage.traceparent == es[0].lineage.traceparent)
    && (forall i :: 1 <= i < |es| ==> CausedRight(es, i))
  }

  lemma TracedStep(es: Stream, batch: seq<Envelope>)
    requires Traced(es) && CommandBatch(es, batch)
    ensures Traced(es + batch)
  {
    var all, events := es + batch, EventsOf(batch);
    assert |events| == |batch| && forall k :: 0 <= k < |batch| ==> all[|es| + k].event == events[k];
    forall i | 1 <= i < |all| ensures CausedRight(all, i) {
      if i < |es| { assert CausedRight(es, i); }
    }
  }

  /** Following causation from any envelope, batch by batch, leads strictly backwards to the first. */
  lemma {:induction false} CausationReachesOrigin(es: Stream, i: nat) returns (path: seq<nat>)
    requires Traced(es) && i < |es|
    ensures |path| > 0 && path[0] == i && path[|path| - 1] == 0
    ensures forall m :: 0 <= m < |path| - 1 ==>
              && 1 <= path[m] < |es| && path[m + 1] < path[m] && path[m + 1] == CauseOf(es, path[m])
              && es[path[m]].lineage.causation == Some(es[path[m + 1]].eventId)
    decreases i
  {
    if i == 0 {
      path := [0];
    } else {
      assert CausedRight(es, i);
      var rest := CausationReachesOrigin(es, CauseOf(es, i));
      path := [i] + rest;
    }
  }

  // --- Streams of such runs.

  predicate Produced(ev: JobEvent) {
    || ev.Enqueued? || ev.Leased? || ev.Started? || ev.Succeeded? || ev.Failed? || ev.LeaseExpired?
    || ev.RetryScheduled? || ev.Parked? || ev.Cancelled? || ev.LateAckConflict?
  }

  /** The ledger of a stream: its fold against its events. */
  ghost predicate Accounted(es: Stream) {
    && Fold(es).Ok?
    && var events := EventsOf(es);
       Ledger(Fold(es).value, Count(events, AttemptEnd), Count(events, Grant), Count(events, Substance))
  }

  /** Every ended attempt, and nothing else, is followed by its decision; errors that cannot be retried park the job. */
  predicate ResolvedAt(es: Stream, k: nat)
    requires 1 <= k < |es|
  {
    var ended, next := es[k - 1].event, es[k].event;
    && (Is(ended, AttemptEnd) <==> next.RetryScheduled? || next.Parked?)
    && (ended.Failed? ==> (next == JobEvent.Parked(NonRetryableError) <==> !ended.error.retryable))
    && (ended.LeaseExpired? ==> next.RetryScheduled? || next == JobEvent.Parked(RetriesExhausted))
  }

  ghost predicate Resolved(es: Stream) { forall k :: 1 <= k < |es| ==> ResolvedAt(es, k) }

  lemma ResolvedStep(es: Stream, batch: seq<Envelope>)
    requires Traced(es) && Resolved(es) && CommandBatch(es, batch)
    ensures Resolved(es + batch)
  {
    var all, events := es + batch, EventsOf(batch);
    assert |events| == |batch| && forall k :: 0 <= k < |batch| ==> all[|es| + k].event == events[k];
    forall k | 1 <= k < |all| ensures ResolvedAt(all, k) {
      if k < |es| { assert ResolvedAt(es, k); }
    }
  }

  ghost predicate AllProduced(es: Stream) { forall k :: 0 <= k < |es| ==> Produced(es[k].event) }

  ghost predicate Regular(es: Stream) { Accounted(es) && Traced(es) && Resolved(es) && AllProduced(es) }

  lemma OpeningIsRegular(batch: seq<Envelope>)
    requires IsOpening(batch)
    ensures Regular(batch)
  {
    assert EventsOf(batch) == [batch[0].event];
    forall kind ensures Count(EventsOf(batch), kind) == Tally(Is(batch[0].event, kind)) {
      CountOne(batch[0].event, kind);
    }
  }

  lemma AccountedStep(es: Stream, j: JobId, batch: seq<Envelope>)
    requires Accounted(es) && CommandBatch(es, batch) && Continues(j, |es|, batch)
    ensures Accounted(es + batch)
  {
    var job, before, added := Fold(es).value, EventsOf(es), EventsOf(batch);
    LegalBatchFolds(job, added);
    FoldExtend(es, job, j, batch);
    LedgerStep(job, Count(before, AttemptEnd), Count(before, Grant), Count(before, Substance), added);
    assert EventsOf(es + batch) == before + added;
    CountConcat(before, added, AttemptEnd);
    CountConcat(before, added, Grant);
    CountConcat(before, added, Substance);
  }

  lemma ProducedStep(es: Stream, batch: seq<Envelope>)
    requires AllProduced(es) && CommandBatch(es, batch)
    ensures AllProduced(es + batch)
  {
    forall k | 0 <= k < |es + batch| ensures Produced((es + batch)[k].event) {
      if k >= |es| { assert (es + batch)[k].event == EventsOf(batch)[k - |es|]; }
    }
  }

  lemma RegularStep(es: Stream, j: JobId, batch: seq<Envelope>)
    requires Regular(es) && CommandBatch(es, batch) && Continues(j, |es|, batch)
    ensures Regular(es + batch)
  {
    AccountedStep(es, j, batch);
    TracedStep(es, batch);
    ResolvedStep(es, batch);
    ProducedStep(es, batch);
  }

  // --- Queue order.

  /** Among the jobs in the index, sequence numbers follow the order in which streams were opened. */
  ghost predicate Queued(s: Inner, order: seq<JobId>) {
    forall a, b :: 0 <= a < b < |order| && order[a] in s.index && order[b] in s.index ==>
                     s.index[order[a]].seqNo < s.index[order[b]].seqNo
  }

  /** A job that left the index does not come back by a use case. */
  lemma StaysOut(job: Job, events: seq<JobEvent>)
    requires LegalBatch(job, events) && !job.state.Dispatchable()
    ensures !AfterBatch(job, events).state.Dispatchable()
  {
  }

  /** A write to a known stream keeps the entry's place, or removes the entry. */
  lemma KeepsPlace(s: Inner, t: Inner, j: JobId, batch: seq<Envelope>)
    requires Consistent(s) && Appended(s, t, j, batch) && j in s.streams
    requires CommandBatch(s.streams[j], batch) && Continues(j, |s.streams[j]|, batch)
    ensures j in t.index ==> j in s.index && t.index[j].seqNo == s.index[j].seqNo
  {
    var job, events := JobAt(s, j), EventsOf(batch);
    LegalBatchFolds(job, events);
    FoldExtend(s.streams[j], job, j, batch);
    assert IndexedRight(s, j);
    if !job.state.Dispatchable() { StaysOut(job, events); }
  }

  /** A new stream enters behind every entry. */
  lemma EntersLast(s: Inner, t: Inner, j: JobId, batch: seq<Envelope>, k: JobId)
    requires Consistent(s) && Appended(s, t, j, batch) && j !in s.streams && k != j
    ensures j in t.index && k in t.index ==> t.index[k].seqNo < t.index[j].seqNo
  {
    assert IndexedRight(s, j) && IndexedRight(s, k) && SameAt(s, t, k);
  }

  lemma QueuedStep(s: Inner, t: Inner, e: Effect, order: seq<JobId>, order': seq<JobId>)
    requires Consistent(s) && HasEffect(s, t, e) && OrderOk(s, order) && Queued(s, order)
    requires order' == OrderAfter(s, e, order)
    requires e.Wrote? && e.job in s.streams ==>
               CommandBatch(s.streams[e.job], e.batch) && Continues(e.job, |s.streams[e.job]|, e.batch)
    ensures Queued(t, order')
  {
    if e.Wrote? {
      if e.job in s.streams { KeepsPlace(s, t, e.job, e.batch); }
      forall a, b | 0 <= a < b < |order'| && order'[a] in t.index && order'[b] in t.index
        ensures t.index[order'[a]].seqNo < t.index[order'[b]].seqNo
      {
        assert order'[a] == e.job || SameAt(s, t, order'[a]);
        assert order'[b] == e.job || SameAt(s, t, order'[b]);
        if e.job !in s.streams && order'[b] == e.job {
          assert order[a] in order;
          EntersLast(s, t, e.job, e.batch, order'[a]);
        }
      }
    }
  }

  // --- Whole runs.

  /** Every stream keeps its books, and the index its order. */
  ghost predicate RegularStore(s: Inner, order: seq<JobId>) {
    && Queued(s, order)
    && forall j :: j in s.streams ==> Regular(s.streams[j])
  }

  ghost predicate RegularWorld(w: World) { Sound(w) && RegularStore(w.inner, w.order) }

  lemma MoveKeepsStreamsRegular(s: Inner, a: Action, e: Effect, t: Inner, j: JobId)
    requires Moves(s, a, e, t) && (j in s.streams ==> Regular(s.streams[j])) && j in t.streams
    ensures Regular(t.streams[j])
  {
    if e.Wrote? {
      if e.job != j {
        assert SameAt(s, t, j);
      } else if j in s.streams {
        RegularStep(s.streams[j], j, e.batch);
      } else {
        OpeningIsRegular(e.batch);
        assert [] + e.batch == e.batch;
      }
    }
  }

  lemma MoveKeepsRegular(s: Inner, a: Action, e: Effect, t: Inner, order: seq<JobId>)
    requires Moves(s, a, e, t) && Consistent(s) && OrderOk(s, order) && RegularStore(s, order)
    ensures RegularStore(t, OrderAfter(s, e, order))
  {
    QueuedStep(s, t, e, order, OrderAfter(s, e, order));
    forall j | j in t.streams ensures Regular(t.streams[j]) { MoveKeepsStreamsRegular(s, a, e, t, j); }
  }

  lemma StepKeepsRegular(w: World, a: Action)
    requires RegularWorld(w) && Guard(w, a) && UseCase(a)
    ensures RegularWorld(Exec(w, a))
  {
    StepMoves(w, a);
    StepKeepsSound(w, a);
    OrderGrows(w, a);
    MoveKeepsRegular(w.inner, a, EffectOf(w, a), Exec(w, a).inner, w.order);
  }

  lemma {:induction false} RunKeepsRegular(w: World, run: seq<Action>)
    requires RegularWorld(w) && Legal(w, run) && AllUseCases(run)
    ensures RegularWorld(After(w, run))
    decreases |run|
  {
    if |run| > 0 {
      assert UseCase(run[0]);
      StepKeepsRegular(w, run[0]);
      RunKeepsRegular(Exec(w, run[0]), run[1..]);
    }
  }

  lemma MoveKeepsPlace(s: Inner, a: Action, e: Effect, t: Inner, j: JobId)
    requires Consistent(s) && Moves(s, a, e, t) && j in s.streams
    ensures j in t.streams
    ensures j in t.index ==> j in s.index && t.index[j].seqNo == s.index[j].seqNo
  {
    if e.Wrote? {
      if e.job == j {
        KeepsPlace(s, t, j, e.batch);
      } else {
        assert SameAt(s, t, j);
      }
    }
  }

  /** Through claims, failures and retries a job keeps its place in the queue until it leaves for good. */
  lemma {:induction false} RetriesKeepTheirPlace(w: World, run: seq<Action>, j: JobId)
    requires Sound(w) && Legal(w, run) && AllUseCases(run) && j in w.inner.streams
    requires j in After(w, run).inner.index
    ensures j in w.inner.index && After(w, run).inner.index[j].seqNo == w.inner.index[j].seqNo
    decreases |run|
  {
    if |run| > 0 {
      assert UseCase(run[0]);
      StepKeepsSound(w, run[0]);
      StepMoves(w, run[0]);
      MoveKeepsPlace(w.inner, run[0], EffectOf(w, run[0]), Exec(w, run[0]).inner, j);
      RetriesKeepTheirPlace(Exec(w, run[0]), run[1..], j);
    }
  }

  lemma {:induction false} RunsAreRegular(run: seq<Action>)
    requires Legal(START, run) && AllUseCases(run)
    ensures RegularWorld(After(START, run))
  {
    StartIsSound();
    RunKeepsRegular(START, run);
  }

  /**
   * Bounded delivery: the attempt counter is the number of ended attempts, a job is leased at most
   * max_attempts times, and its stream holds at most 4 * max_attempts + 2 events besides late acks.
   */
  lemma {:induction false} DeliveryIsBounded(run: seq<Action>, j: JobId)
    requires Legal(START, run) && AllUseCases(run) && j in After(START, run).inner.streams
    ensures var es := After(START, run).inner.streams[j];
            && Fold(es).Ok?
            && var job, events := Fold(es).value, EventsOf(es);
               && Sane(job.policy) && job.policy.maxAttempts <= 10_000 && job.attempt == Count(events, AttemptEnd)
               && (job.state.Dispatchable() ==> job.attempt < job.policy.maxAttempts)
               && (job.state == JobState.Parked(RetriesExhausted) ==> job.attempt == job.policy.maxAttempts)
               && Count(events, Grant) <= job.policy.maxAttempts
               && Count(events, Substance) <= 4 * job.policy.maxAttempts + 2
  {
    RunsAreRegular(run);
    assert Regular(After(START, run).inner.streams[j]);
  }

  /** In every run, jobs of one priority are claimed in the order they were first enqueued. */
  lemma {:induction false} ClaimOrderIsEnqueueOrder(run: seq<Action>, a: nat, b: nat)
    requires Legal(START, run) && AllUseCases(run)
    requires var w := After(START, run);
             && a < b < |w.order| && w.order[a] in w.inner.index && w.order[b] in w.inner.index
             && w.inner.index[w.order[a]].priority == w.inner.index[w.order[b]].priority
    ensures var w := After(START, run); Before(w.inner.index[w.order[a]], w.inner.index[w.order[b]])
  {
    RunsAreRegular(run);
  }

  /** One correlation and trace per stream, and each envelope caused by the last one before its batch. */
  lemma {:induction false} LineageOverRuns(run: seq<Action>, j: JobId, i: nat)
    requires Legal(START, run) && AllUseCases(run) && j in After(START, run).inner.streams
    requires 1 <= i < |After(START, run).inner.streams[j]|
    ensures var es := After(START, run).inner.streams[j];
            && es[i].lineage.correlation == es[0].lineage.correlation
            && es[i].lineage.traceparent == es[0].lineage.traceparent
            && 0 <= CauseOf(es, i) && es[i].lineage.causation == Some(es[CauseOf(es, i)].eventId)
            && !Is(es[|es| - 1].event, AttemptEnd)
  {
    RunsAreRegular(run);
    var es := After(START, run).inner.streams[j];
    assert Regular(es) && CausedRight(es, i);
  }
}
