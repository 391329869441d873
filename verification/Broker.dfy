/** The broker as one state machine over many jobs, with load and append as separate steps. */
module Broker {
  import opened Types
  import opened Words
  import opened Jobs
  import opened Stores
  import opened Dispatchers
  import opened Consistency
  import opened UseCases

  /** A command in flight: what it loaded, and of which job. */
  datatype Session = Session(job: JobId, snapshot: Stream)

  /** `order` is history: the streams in the order they were opened. */
  datatype World = World(inner: Inner, sessions: map<nat, Session>, order: seq<JobId>)

  const START := World(EMPTY, map[], [])

  /** One step. Clock readings, fresh ids, seeds and what a map scan returned are part of it. */
  datatype Action =
    | RawAppend(stream: JobId, expected: nat, batch: seq<Envelope>)
    | EnqueueNew(cmd: EnqueueCommand, job: JobId, minted: CorrelationId, at: Time, ids: seq<EventId>)
    | ClaimNext(
        queue: QueueName, worker: WorkerId, lease: LeaseId, ttl: Duration, now: Time, at: Time, ids: seq<EventId>,
        picked: Option<JobId>)
    | Heartbeat(beat: LeaseId, ttl: Duration, now: Time, hit: Option<JobId>)
    | RetireNext(now: Time, seed: U64, at: Time, ids: seq<EventId>, picked: Option<JobId>)
    | Begin(session: nat, job: JobId)
    | Complete(session: nat, command: Command, now: Time, seed: U64, at: Time, ids: seq<EventId>)

  ghost predicate Guard(w: World, a: Action) {
    match a
    case RawAppend(_, _, _) => true
    case EnqueueNew(_, _, _, _, ids) => |ids| >= 2
    case ClaimNext(queue, _, _, ttl, now, _, ids, picked) =>
      |ids| >= 2 && IsPick(w.inner.index, queue, now, picked) && (IsDelta(ttl) ==> InRange(now + ttl))
    case Heartbeat(lease, ttl, now, hit) => IsHit(w.inner.index, lease, hit) && (IsDelta(ttl) ==> InRange(now + ttl))
    case RetireNext(now, _, _, ids, picked) => |ids| >= 2 && IsFirstExpired(w.inner.index, now, picked)
    case Begin(_, _) => true
    case Complete(session, _, _, _, _, ids) => |ids| >= 2 && session in w.sessions
  }

  ghost function InnerAfter(w: World, a: Action): Inner
    requires Guard(w, a)
  {
    match a
    case RawAppend(stream, expected, batch) =>
      (match Append(w.inner, stream, expected, batch) case Ok(t) => t case Err(_) => w.inner)
    case EnqueueNew(cmd, job, minted, at, ids) => Enqueue(w.inner, cmd, job, minted, at, ids).0
    case ClaimNext(_, worker, lease, ttl, now, at, ids, picked) =>
      Claim(w.inner, picked, worker, lease, ttl, now, at, ids).0
    case Heartbeat(lease, ttl, now, hit) => Extend(w.inner, hit, ttl, now).0
    case RetireNext(now, seed, at, ids, picked) => Retire(w.inner, picked, now, seed, at, ids).0
    case Begin(_, _) => w.inner
    case Complete(session, command, now, seed, at, ids) =>
      Finish(w.inner, w.sessions[session].snapshot, command, now, seed, at, ids).0
  }

  function SessionsAfter(w: World, a: Action): map<nat, Session> {
    match a
    case Begin(session, job) =>
      if job in w.inner.streams then w.sessions[session := Session(job, w.inner.streams[job])] else w.sessions
    case Complete(session, _, _, _, _, _) => w.sessions - {session}
    case _ => w.sessions
  }

  /** The stream an action may open. */
  function Opens(a: Action): Option<JobId> {
    match a
    case RawAppend(stream, _, _) => Some(stream)
    case EnqueueNew(_, job, _, _, _) => Some(job)
    case _ => None
  }

  ghost function Exec(w: World, a: Action): World
    requires Guard(w, a)
  {
    var inner := InnerAfter(w, a);
    var opens := Opens(a).Some? && Opens(a).value in inner.streams && Opens(a).value !in w.inner.streams;
    World(inner, SessionsAfter(w, a), if opens then w.order + [Opens(a).value] else w.order)
  }

  ghost predicate Legal(w: World, run: seq<Action>)
    decreases |run|
  {
    |run| > 0 ==> Guard(w, run[0]) && Legal(Exec(w, run[0]), run[1..])
  }

  ghost function After(w: World, run: seq<Action>): World
    requires Legal(w, run)
    decreases |run|
  {
    if |run| == 0 then w else After(Exec(w, run[0]), run[1..])
  }

  // --- What a step does to the store.

  datatype Effect =
    | Nothing
    | Moved(job: JobId, deadline: Time)
    | Wrote(job: JobId, batch: seq<Envelope>)

  function ClaimWrites(
    s: Inner, picked: Option<JobId>, worker: WorkerId, lease: LeaseId, ttl: Duration, now: Time, at: Time,
    ids: seq<EventId>
  ): Effect
    requires |ids| >= 2
  {
    if picked.Some? && IsDelta(ttl) then
      var granted := [JobEvent.Leased(worker, lease, now + ttl)];
      Wrote(picked.value, BatchFor(StreamOf(s, picked.value), picked.value, granted, at, ids))
    else Nothing
  }

  ghost function RetireWrites(
    s: Inner, picked: Option<JobId>, now: Time, seed: U64, at: Time, ids: seq<EventId>
  ): Effect
    requires Consistent(s) && IsFirstExpired(s.index, now, picked) && |ids| >= 2
  {
    if picked.None? then Nothing
    else
      assert IndexedRight(s, picked.value);
      match ExpireLease(JobAt(s, picked.value), now, seed)
      case Ok(events) => Wrote(picked.value, BatchFor(s.streams[picked.value], picked.value, events, at, ids))
      case Err(_) => Nothing
  }

  ghost function CommandWrites(
    s: Inner, session: Session, command: Command, now: Time, seed: U64, at: Time, ids: seq<EventId>
  ): Effect
    requires Consistent(s) && SessionOk(s, session) && |ids| >= 2
  {
    if session.snapshot != s.streams[session.job] then Nothing
    else
      match DecideCommand(JobAt(s, session.job), command, now, seed)
      case Ok(d) => Wrote(session.job, BatchFor(session.snapshot, session.job, d.events, at, ids))
      case Err(_) => Nothing
  }

  ghost function EffectOf(w: World, a: Action): Effect
    requires Guard(w, a) && Sound(w)
  {
    var s := w.inner;
    match a
    case RawAppend(stream, expected, batch) =>
      if Append(s, stream, expected, batch).Ok? then Wrote(stream, batch) else Nothing
    case EnqueueNew(cmd, job, minted, at, ids) =>
      if Enqueue(s, cmd, job, minted, at, ids).1.Err? then Nothing
      else Wrote(job, OpeningBatch(cmd, job, minted, at, ids))
    case ClaimNext(_, worker, lease, ttl, now, at, ids, picked) =>
      ClaimWrites(s, picked, worker, lease, ttl, now, at, ids)
    case Heartbeat(_, ttl, now, hit) =>
      if IsDelta(ttl) && hit.Some? && !Expired(s.index[hit.value], now) then Moved(hit.value, now + ttl) else Nothing
    case RetireNext(now, seed, at, ids, picked) => RetireWrites(s, picked, now, seed, at, ids)
    case Begin(_, _) => Nothing
    case Complete(session, command, now, seed, at, ids) =>
      CommandWrites(s, w.sessions[session], command, now, seed, at, ids)
  }

  ghost predicate HasEffect(s: Inner, t: Inner, e: Effect) {
    match e
    case Nothing => t == s
    case Moved(j, deadline) =>
      && j in s.index && s.index[j].lease.Some?
      && t == s.(index := s.index[j := SetDeadline(s.index[j], deadline)])
    case Wrote(j, batch) => Appended(s, t, j, batch)
  }

  // --- What every reachable world satisfies.

  /** A session holds a non-empty prefix of its job's stream. */
  ghost predicate SessionOk(s: Inner, session: Session) {
    session.job in s.streams && 0 < |session.snapshot| && session.snapshot <= s.streams[session.job]
  }

  ghost predicate OrderOk(s: Inner, order: seq<JobId>) {
    && (forall j :: j in order <==> j in s.streams)
    && (forall a, b :: 0 <= a < b < |order| ==> order[a] != order[b])
  }

  ghost predicate Sound(w: World) {
    && Consistent(w.inner)
    && (forall id :: id in w.sessions ==> SessionOk(w.inner, w.sessions[id]))
    && OrderOk(w.inner, w.order)
  }

  lemma StartIsSound()
    ensures Sound(START)
  {
    forall j ensures IndexedRight(START.inner, j) {}
  }

  lemma EnqueueEffect(w: World, a: Action)
    requires Sound(w) && Guard(w, a) && a.EnqueueNew?
    ensures HasEffect(w.inner, InnerAfter(w, a), EffectOf(w, a))
  {
    var batch := OpeningBatch(a.cmd, a.job, a.minted, a.at, a.ids);
    if Append(w.inner, a.job, 0, batch).Ok? { AppendEffect(w.inner, a.job, 0, batch); }
  }

  lemma ClaimDoes(
    s: Inner, queue: QueueName, picked: Option<JobId>, worker: WorkerId, lease: LeaseId, ttl: Duration, now: Time,
    at: Time, ids: seq<EventId>)
    requires Consistent(s) && IsPick(s.index, queue, now, picked) && |ids| >= 2
    ensures HasEffect(s, Claim(s, picked, worker, lease, ttl, now, at, ids).0,
                      ClaimWrites(s, picked, worker, lease, ttl, now, at, ids))
  {
    if picked.Some? {
      if IsDelta(ttl) {
        ClaimSucceeds(s, queue, picked.value, worker, lease, ttl, now, at, ids);
      } else {
        ClaimRefusesTtl(s, queue, picked.value, worker, lease, ttl, now, at, ids);
      }
    }
  }

  lemma RetireDoes(s: Inner, picked: Option<JobId>, now: Time, seed: U64, at: Time, ids: seq<EventId>)
    requires Consistent(s) && IsFirstExpired(s.index, now, picked) && |ids| >= 2
    ensures HasEffect(s, Retire(s, picked, now, seed, at, ids).0, RetireWrites(s, picked, now, seed, at, ids))
  {
    if picked.Some? {
      FirstExpiredIsHeld(s, now, picked.value);
      var job := JobAt(s, picked.value);
      var retry := RetryEvent(job, AddOne(job.attempt), now, seed);
      if retry.Ok? {
        RetireSucceeds(s, picked.value, now, seed, at, ids, retry.value);
      } else {
        RetireRefuses(s, picked.value, now, seed, at, ids);
      }
    }
  }

  /** A snapshot folds to its job, at the version where the command will append. */
  lemma SnapshotFolds(s: Inner, session: Session)
    requires Consistent(s) && SessionOk(s, session)
    ensures Fold(session.snapshot).Ok?
    ensures Fold(session.snapshot).value.id == session.job
    ensures Fold(session.snapshot).value.version == |session.snapshot|
  {
    var es := s.streams[session.job];
    assert session.snapshot == es[..|session.snapshot|];
    PrefixFolds(es, |session.snapshot|);
    FoldFacts(es);
    FoldFacts(session.snapshot);
    assert session.snapshot[0] == es[0];
  }

  lemma CommandDoes(s: Inner, session: Session, command: Command, now: Time, seed: U64, at: Time, ids: seq<EventId>)
    requires Consistent(s) && SessionOk(s, session) && |ids| >= 2
    ensures HasEffect(s, Finish(s, session.snapshot, command, now, seed, at, ids).0,
                      CommandWrites(s, session, command, now, seed, at, ids))
  {
    SnapshotFolds(s, session);
    var job := Fold(session.snapshot).value;
    var es := s.streams[session.job];
    if session.snapshot != es {
      assert |session.snapshot| < |es|;
    } else if DecideCommand(job, command, now, seed).Ok? {
      var d := DecideCommand(job, command, now, seed).value;
      DecisionIsLegal(job, command, now, seed);
      LegalBatchFolds(job, d.events);
      AppendAccepts(s, session.job, BatchFor(es, session.job, d.events, at, ids), AfterBatch(job, d.events));
    }
  }

  /** What a command that writes makes of its job. */
  lemma CommandFolds(s: Inner, session: Session, command: Command, now: Time, seed: U64, at: Time, ids: seq<EventId>)
    requires Consistent(s) && SessionOk(s, session) && |ids| >= 2
    requires CommandWrites(s, session, command, now, seed, at, ids).Wrote?
    ensures session.snapshot == s.streams[session.job]
    ensures var job, batch := JobAt(s, session.job), CommandWrites(s, session, command, now, seed, at, ids).batch;
            var d := DecideCommand(job, command, now, seed);
            && d.Ok? && EventsOf(batch) == d.value.events
            && LegalBatch(job, d.value.events) && !d.value.events[0].Leased?
            && Fold(s.streams[session.job] + batch) == Ok(AfterBatch(job, d.value.events))
  {
    var j := session.job;
    var job := JobAt(s, j);
    var d := DecideCommand(job, command, now, seed).value;
    DecisionIsLegal(job, command, now, seed);
    LegalBatchFolds(job, d.events);
    FoldFacts(s.streams[j]);
    FoldExtend(s.streams[j], job, j, BatchFor(s.streams[j], j, d.events, at, ids));
  }

  /** Every step does nothing, moves one live deadline, or appends one batch to one stream. */
  lemma StepEffect(w: World, a: Action)
    requires Sound(w) && Guard(w, a)
    ensures HasEffect(w.inner, Exec(w, a).inner, EffectOf(w, a))
  {
    match a
    case RawAppend(stream, expected, batch) =>
      if Append(w.inner, stream, expected, batch).Ok? { AppendEffect(w.inner, stream, expected, batch); }
    case EnqueueNew(_, _, _, _, _) => EnqueueEffect(w, a);
    case ClaimNext(queue, worker, lease, ttl, now, at, ids, picked) =>
      ClaimDoes(w.inner, queue, picked, worker, lease, ttl, now, at, ids);
    case Heartbeat(_, _, _, _) =>
    case RetireNext(now, seed, at, ids, picked) => RetireDoes(w.inner, picked, now, seed, at, ids);
    case Begin(_, _) =>
    case Complete(session, command, now, seed, at, ids) =>
      CommandDoes(w.inner, w.sessions[session], command, now, seed, at, ids);
  }

  /** Streams are append-only: every earlier value is a prefix of the later one. */
  ghost predicate Extends(s: Inner, t: Inner) {
    forall j :: j in s.streams ==> j in t.streams && s.streams[j] <= t.streams[j]
  }

  lemma EffectExtends(s: Inner, t: Inner, e: Effect)
    requires HasEffect(s, t, e)
    ensures Extends(s, t)
  {
    if e.Wrote? {
      forall j | j in s.streams ensures j in t.streams && s.streams[j] <= t.streams[j] {
        assert j == e.job || SameAt(s, t, j);
      }
    }
  }

  lemma EffectKeepsConsistent(s: Inner, t: Inner, e: Effect)
    requires Consistent(s) && HasEffect(s, t, e)
    ensures Consistent(t)
  {
    match e
    case Nothing =>
    case Moved(j, deadline) =>
      assert LogOk(t);
      forall k ensures IndexedRight(t, k) { assert IndexedRight(s, k); }
      forall k, l ensures Apart(t.index, k, l) { assert Apart(s.index, k, l); }
    case Wrote(j, batch) => AppendKeepsConsistent(s, t, j, batch);
  }

  /** Only appends from outside and enqueue can open a stream. */
  lemma WritesKnownOrOpens(w: World, a: Action)
    requires Sound(w) && Guard(w, a) && EffectOf(w, a).Wrote?
    ensures EffectOf(w, a).job in w.inner.streams || Opens(a) == Some(EffectOf(w, a).job)
  {
    match a
    case ClaimNext(_, _, _, _, _, _, _, picked) => assert IndexedRight(w.inner, picked.value);
    case RetireNext(_, _, _, _, picked) => assert IndexedRight(w.inner, picked.value);
    case _ =>
  }

  /** The opening order after an effect. */
  function OrderAfter(s: Inner, e: Effect, order: seq<JobId>): seq<JobId> {
    if e.Wrote? && e.job !in s.streams then order + [e.job] else order
  }

  lemma OrderGrows(w: World, a: Action)
    requires Sound(w) && Guard(w, a)
    ensures Exec(w, a).order == OrderAfter(w.inner, EffectOf(w, a), w.order)
  {
    StepEffect(w, a);
    if EffectOf(w, a).Wrote? { WritesKnownOrOpens(w, a); }
  }

  lemma EffectKeepsOrder(s: Inner, t: Inner, e: Effect, order: seq<JobId>)
    requires HasEffect(s, t, e) && OrderOk(s, order)
    ensures OrderOk(t, OrderAfter(s, e, order))
  {
    EffectExtends(s, t, e);
    forall j ensures j in OrderAfter(s, e, order) <==> j in t.streams {
      if e.Wrote? { assert j == e.job || SameAt(s, t, j); }
    }
  }

  lemma StepKeepsSound(w: World, a: Action)
    requires Sound(w) && Guard(w, a)
    ensures Sound(Exec(w, a))
  {
    StepEffect(w, a);
    OrderGrows(w, a);
    var s, t, e := w.inner, Exec(w, a).inner, EffectOf(w, a);
    EffectKeepsOrder(s, t, e, w.order);
    EffectKeepsConsistent(s, t, e);
    EffectExtends(s, t, e);
    forall id | id in Exec(w, a).sessions ensures SessionOk(t, Exec(w, a).sessions[id]) {
      if a.Begin? && id == a.session && a.job in s.streams {
        FoldFacts(s.streams[a.job]);
      } else {
        assert SessionOk(s, w.sessions[id]);
      }
    }
  }

  /**
   * In every state reachable by any interleaving the index agrees with folding the log, up to
   * lease deadlines, and streams have only grown.
   */
  lemma {:induction false} RunKeepsSound(w: World, run: seq<Action>)
    requires Sound(w) && Legal(w, run)
    ensures Sound(After(w, run))
    ensures Extends(w.inner, After(w, run).inner)
    decreases |run|
  {
    if |run| > 0 {
      StepKeepsSound(w, run[0]);
      StepEffect(w, run[0]);
      EffectExtends(w.inner, Exec(w, run[0]).inner, EffectOf(w, run[0]));
      RunKeepsSound(Exec(w, run[0]), run[1..]);
    }
  }

  /** The same for the broker's runs from the empty store, spelled out. */
  lemma {:induction false} IndexAgreesWithLog(run: seq<Action>, j: JobId)
    requires Legal(START, run)
    ensures var s := After(START, run).inner;
            && (j in s.streams ==> Stored(j, s.streams[j]))
            && (j in s.index <==> j in s.streams && Fold(s.streams[j]).value.state.Dispatchable())
            && (j in s.index ==> Agrees(s.index[j], Fold(s.streams[j]).value))
            && (forall k :: k in s.index && j in s.index && k != j ==> s.index[j].seqNo != s.index[k].seqNo)
            && (forall n :: j in s.streams && 1 <= n <= |s.streams[j]| ==> Fold(s.streams[j][..n]).Ok?)
  {
    StartIsSound();
    RunKeepsSound(START, run);
    var s := After(START, run).inner;
    assert IndexedRight(s, j);
    forall k | k in s.index && j in s.index && k != j ensures s.index[j].seqNo != s.index[k].seqNo {
      assert Apart(s.index, j, k);
    }
    forall n | j in s.streams && 1 <= n <= |s.streams[j]| ensures Fold(s.streams[j][..n]).Ok? {
      PrefixFolds(s.streams[j], n);
    }
  }

  lemma {:induction false} RunOne(w: World, a: Action)
    requires Guard(w, a)
    ensures Legal(w, [a]) && After(w, [a]) == Exec(w, a)
  {
    assert [a][1..] == [];
  }

  lemma {:induction false} RunTwo(w: World, a: Action, b: Action)
    requires Guard(w, a) && Guard(Exec(w, a), b)
    ensures Legal(w, [a, b]) && After(w, [a, b]) == Exec(Exec(w, a), b)
  {
    RunOne(Exec(w, a), b);
    assert [a, b][1..] == [b];
  }

  lemma {:induction false} RunThree(w: World, a: Action, b: Action, c: Action)
    requires Guard(w, a) && Guard(Exec(w, a), b) && Guard(Exec(Exec(w, a), b), c)
    ensures Legal(w, [a, b, c]) && After(w, [a, b, c]) == Exec(Exec(Exec(w, a), b), c)
  {
    RunTwo(Exec(w, a), b, c);
    assert [a, b, c][1..] == [b, c];
  }

  lemma {:induction false} RunCons(w: World, a: Action, w1: World, rest: seq<Action>)
    requires Guard(w, a) && w1 == Exec(w, a) && Legal(w1, rest)
    ensures Legal(w, [a] + rest) && After(w, [a] + rest) == After(w1, rest)
  {
    assert ([a] + rest)[1..] == rest;
  }
}
