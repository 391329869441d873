/**
 * What a stream means, read off its events without folding: which streams are accepted, and what job
 * they describe. The fold is proved to agree with this reading on every stream.
 */
module Reading {
  import opened Types
  import opened Jobs

  // --- Events by what they settle.

  datatype Matter = State | Holder | Attempt | Payload

  /** The event settles this matter for good, until the next one that does. */
  predicate Settles(ev: JobEvent, matter: Matter) {
    match matter
    case State => !ev.LateAckConflict? && !ev.CheckpointRecorded? && !ev.SignalReceived? && !ev.Stalled?
    case Holder => ev.Leased?
    case Attempt => ev.Enqueued? || ev.Failed? || ev.RetryScheduled? || ev.Repaired?
    case Payload => ev.Enqueued? || (ev.Repaired? && ev.newPayload.Some?)
  }

  /** The last event of the stream that settles the matter, or -1. */
  function Last(es: Stream, matter: Matter): (i: int)
    ensures -1 <= i < |es| && (i >= 0 ==> Settles(es[i].event, matter))
  {
    if |es| == 0 then -1
    else if Settles(es[|es| - 1].event, matter) then |es| - 1
    else Last(es[..|es| - 1], matter)
  }

  lemma {:induction false} LastIsLast(es: Stream, matter: Matter, k: nat)
    requires k < |es| && Settles(es[k].event, matter)
    ensures k <= Last(es, matter)
    decreases |es|
  {
    if k < |es| - 1 { LastIsLast(es[..|es| - 1], matter, k); }
  }

  /** Expiries of leases from event i on. */
  function Expiries(es: Stream, i: nat): nat {
    if |es| <= i then 0
    else Expiries(es[..|es| - 1], i) + if es[|es| - 1].event.LeaseExpired? then 1 else 0
  }

  // --- The grammar of accepted streams.

  /** After this event the job waits for a worker. */
  predicate Waiting(ev: JobEvent) {
    || ev.Enqueued? || ev.RetryScheduled? || ev.Failed? || ev.LeaseExpired? || ev.ApprovalGranted? || ev.Resumed?
    || ev.Repaired?
  }

  /** The instant from which a waiting job may be claimed, if it has to wait for one. */
  function ReadyAt(ev: JobEvent): Option<Time> {
    if ev.Enqueued? then ev.notBefore else if ev.RetryScheduled? then Some(ev.retryAt) else None
  }

  /** Which events may follow, given the last one that settled the state. */
  predicate MayFollow(last: JobEvent, ev: JobEvent) {
    match ev
    case Enqueued(_, _, _, _, _) => false
    case Leased(_, _, _) => Waiting(last)
    case Started(_) => last.Leased?
    case Succeeded(_) => last.Started?
    case Failed(_, _) => last.Started?
    case LeaseExpired(_) => last.Leased? || last.Started?
    case RetryScheduled(_, _) => Waiting(last)
    case Parked(_) => Waiting(last)
    case Cancelled(_) => !last.Succeeded? && !last.Cancelled?
    case LateAckConflict(_, _, _) => true
    case Stalled => last.Leased? || last.Started?
    case CheckpointRecorded(_, _) => last.Started?
    case SignalReceived(_, _) => !last.Succeeded? && !last.Cancelled? && !last.Parked? && !last.ApprovalDeniedBy?
    case ApprovalRequested(_) => last.Started?
    case ApprovalGranted(_, _) => last.ApprovalRequested?
    case ApprovalDeniedBy(_, _) => last.ApprovalRequested?
    case Suspended => Waiting(last) || last.Started?
    case Resumed => last.Suspended?
    case Repaired(_, _) => last.Parked? || last.ApprovalDeniedBy?
  }

  predicate Opened(es: Stream) { |es| > 0 && es[0].event.Enqueued? && es[0].version == 1 }

  predicate Fits(es: Stream, k: nat)
    requires 1 <= k < |es|
  {
    && es[k].version == k + 1
    && Last(es[..k], State) >= 0 && MayFollow(es[Last(es[..k], State)].event, es[k].event)
  }

  /** The stream opens with an enqueued event and every later event fits what comes before it. */
  predicate Sentence(es: Stream) { Opened(es) && forall k :: 1 <= k < |es| ==> Fits(es, k) }

  // --- The job a stream describes.

  /** The last event that settled the matter, the opening one if none did. */
  function Settled(es: Stream, matter: Matter): JobEvent
    requires |es| > 0
  {
    if Last(es, matter) >= 0 then es[Last(es, matter)].event else es[0].event
  }

  function StateFrom(last: JobEvent, grant: JobEvent): JobState {
    match last
    case Leased(worker, lease, expiresAt) => JobState.Leased(worker, lease, expiresAt)
    case Started(_) => if grant.Leased? then Running(grant.worker, grant.lease, grant.expiresAt) else Pending(None)
    case Succeeded(_) => JobState.Succeeded
    case Parked(reason) => JobState.Parked(reason)
    case ApprovalDeniedBy(_, _) => JobState.Parked(ApprovalDenied)
    case Cancelled(_) => JobState.Cancelled
    case Suspended => JobState.Suspended
    case ApprovalRequested(key) => AwaitingApproval(key)
    case _ => Pending(ReadyAt(last))
  }

  /** The attempt number an event writes down. */
  function Written(ev: JobEvent): U32 {
    match ev
    case Failed(_, n) => n
    case RetryScheduled(n, _) => n
    case _ => 0
  }

  /** The attempt number last written down, plus one for every lease that expired since, in 32 bits. */
  function AttemptOf(es: Stream): nat
    requires |es| > 0
  {
    (Written(Settled(es, Attempt)) + Expiries(es, Last(es, Attempt) + 1)) % U32_LIMIT
  }

  predicate HandsOut(ev: JobEvent, payload: Value) {
    (ev.Enqueued? && ev.payload == payload) || (ev.Repaired? && ev.newPayload == Some(payload))
  }

  /** The stream describes exactly this job. */
  predicate Describes(es: Stream, job: Job) {
    && Opened(es)
    && var opening := es[0].event;
       && job.id == es[0].streamId && job.version == |es|
       && job.queue == opening.queue && job.priority == opening.priority && job.policy == opening.policy
       && job.state == StateFrom(Settled(es, State), Settled(es, Holder))
       && job.attempt == AttemptOf(es) && HandsOut(Settled(es, Payload), job.payload)
  }

  // --- The fold agrees.

  /** A job is still under the grant that its last lease or start refers to. */
  predicate GrantFits(last: JobEvent, grant: JobEvent) {
    && Settles(last, State)
    && (last.Leased? ==> grant == last) && (last.Started? ==> grant.Leased?)
  }

  lemma AcceptedIffFollows(last: JobEvent, grant: JobEvent, ev: JobEvent)
    requires GrantFits(last, grant)
    ensures NextState(StateFrom(last, grant), ev).Some? <==> MayFollow(last, ev)
  {
  }

  lemma NextReads(last: JobEvent, grant: JobEvent, ev: JobEvent)
    requires GrantFits(last, grant) && MayFollow(last, ev)
    ensures var last', grant' := if Settles(ev, State) then ev else last, if ev.Leased? then ev else grant;
            NextState(StateFrom(last, grant), ev) == Some(StateFrom(last', grant')) && GrantFits(last', grant')
  {
  }

  lemma {:induction false} SettledSnoc(es: Stream, e: Envelope, matter: Matter)
    requires |es| > 0
    ensures Settled(es + [e], matter) == if Settles(e.event, matter) then e.event else Settled(es, matter)
    ensures Last(es + [e], matter) == if Settles(e.event, matter) then |es| else Last(es, matter)
  {
    assert (es + [e])[..|es|] == es;
  }

  lemma OneMore(n: nat)
    ensures (n + 1) % U32_LIMIT == AddOne(n % U32_LIMIT)
  {
  }

  lemma {:induction false} AttemptSnoc(es: Stream, e: Envelope)
    requires Opened(es) && !e.event.Enqueued?
    ensures AttemptOf(es) < U32_LIMIT
    ensures AttemptOf(es + [e]) == NextAttempt(AttemptOf(es), e.event)
  {
    LastIsLast(es, Attempt, 0);
    SettledSnoc(es, e, Attempt);
    assert (es + [e])[..|es|] == es;
    OneMore(Written(Settled(es, Attempt)) + Expiries(es, Last(es, Attempt) + 1));
  }

  /** The fold of a stream extended by one envelope, read off. */
  lemma {:induction false} DescribesSnoc(es: Stream, job: Job, e: Envelope)
    requires Describes(es, job) && GrantFits(Settled(es, State), Settled(es, Holder))
    ensures Advance(job, e).Ok? <==> e.version == |es| + 1 && MayFollow(Settled(es, State), e.event)
    ensures Advance(job, e).Ok? ==>
              var all := es + [e];
              Describes(all, Advance(job, e).value) && GrantFits(Settled(all, State), Settled(all, Holder))
  {
    AcceptedIffFollows(Settled(es, State), Settled(es, Holder), e.event);
    if Advance(job, e).Ok? {
      NextReads(Settled(es, State), Settled(es, Holder), e.event);
      SettledSnoc(es, e, State);
      SettledSnoc(es, e, Holder);
      SettledSnoc(es, e, Payload);
      AttemptSnoc(es, e);
    }
  }

  lemma {:induction false} OpeningDescribes(es: Stream)
    requires |es| == 1 && Opened(es)
    ensures Fold(es).Ok? && Describes(es, Fold(es).value) && GrantFits(Settled(es, State), Settled(es, Holder))
  {
    assert Last(es[..0], Holder) == -1;
  }

  /** Every stream that folds is a sentence of the grammar and describes the job it folds to. */
  lemma {:induction false} FoldDescribes(es: Stream)
    requires Fold(es).Ok?
    ensures Sentence(es) && Describes(es, Fold(es).value) && GrantFits(Settled(es, State), Settled(es, Holder))
    decreases |es|
  {
    if |es| == 1 {
      OpeningDescribes(es);
    } else {
      var init, e := es[..|es| - 1], es[|es| - 1];
      assert es == init + [e];
      FoldDescribes(init);
      DescribesSnoc(init, Fold(init).value, e);
      SentenceSnoc(init, e);
    }
  }

  lemma {:induction false} SentenceSnoc(es: Stream, e: Envelope)
    requires Opened(es)
    ensures Sentence(es + [e])
            <==> Sentence(es) && e.version == |es| + 1 && MayFollow(Settled(es, State), e.event)
  {
    var all := es + [e];
    LastIsLast(es, State, 0);
    assert all[..|es|] == es;
    forall k | 1 <= k < |es| ensures Fits(all, k) <==> Fits(es, k) { assert all[..k] == es[..k]; }
    if Sentence(all) { assert Fits(all, |es|); }
  }

  lemma {:induction false} SentenceFolds(es: Stream)
    requires Sentence(es)
    ensures Fold(es).Ok?
    decreases |es|
  {
    if |es| == 1 {
      OpeningDescribes(es);
    } else {
      var init, e := es[..|es| - 1], es[|es| - 1];
      assert es == init + [e];
      SentenceSnoc(init, e);
      SentenceFolds(init);
      FoldDescribes(init);
      DescribesSnoc(init, Fold(init).value, e);
    }
  }

  /** A stream folds exactly when it is a sentence of the grammar, and then to the job it describes. */
  lemma {:induction false} FoldMeaning(es: Stream)
    ensures Fold(es).Ok? <==> Sentence(es)
    ensures Fold(es).Ok? ==> Describes(es, Fold(es).value)
  {
    if Fold(es).Ok? { FoldDescribes(es); }
    if Sentence(es) { SentenceFolds(es); }
  }

  /** The first event that does not fit decides the error. */
  lemma {:induction false} FoldError(es: Stream, k: nat)
    requires 1 <= k < |es| && Sentence(es[..k]) && !Fits(es, k)
    ensures Fold(es) == Err(if es[k].version != k + 1 then NonSequentialVersion(k + 1, es[k].version)
                            else IllegalTransition)
  {
    var prefix := es[..k];
    SentenceFolds(prefix);
    FoldDescribes(prefix);
    LastIsLast(prefix, State, 0);
    assert es[..k + 1] == prefix + [es[k]];
    DescribesSnoc(prefix, Fold(prefix).value, es[k]);
    FoldSnoc(prefix, es[k]);
    FoldRejectsEarly(es, k + 1);
  }

  lemma {:induction false} FoldOpeningError(es: Stream)
    requires !Opened(es)
    ensures Fold(es) == Err(if |es| == 0 || !es[0].event.Enqueued? then StreamMustStartWithEnqueued
                            else NonSequentialVersion(1, es[0].version))
  {
    if |es| > 0 {
      assert es[..1] == [es[0]];
      FoldRejectsEarly(es, 1);
    }
  }

  // --- Ends.

  predicate IsFinal(ev: JobEvent) { ev.Succeeded? || ev.Cancelled? }

  /** Nothing settles the state after a final event. */
  lemma {:induction false} FinalStays(es: Stream, k: nat)
    requires Sentence(es) && k < |es| && IsFinal(es[k].event)
    ensures Settled(es, State) == es[k].event
    decreases |es|
  {
    if k < |es| - 1 {
      var init, e := es[..|es| - 1], es[|es| - 1];
      assert es == init + [e];
      SentenceSnoc(init, e);
      FinalStays(init, k);
      SettledSnoc(init, e, State);
    }
  }

  /** A job has succeeded, or was cancelled, exactly if its stream says so. */
  lemma {:induction false} FinalIffRecorded(es: Stream)
    requires Fold(es).Ok?
    ensures Fold(es).value.state == JobState.Succeeded <==> exists k :: 0 <= k < |es| && es[k].event.Succeeded?
    ensures Fold(es).value.state == JobState.Cancelled <==> exists k :: 0 <= k < |es| && es[k].event.Cancelled?
  {
    FoldDescribes(es);
    LastIsLast(es, State, 0);
    assert Settled(es, State) == es[Last(es, State)].event;
    forall k | 0 <= k < |es| && IsFinal(es[k].event) ensures Settled(es, State) == es[k].event { FinalStays(es, k); }
  }

  lemma OpenedOnce(es: Stream, k: nat)
    requires Sentence(es) && 1 <= k < |es|
    ensures !es[k].event.Enqueued?
  {
    assert Fits(es, k);
  }

  /** Where nothing is ever repaired, the payload is the opening one. */
  lemma {:induction false} PayloadUnrepaired(es: Stream)
    requires Sentence(es) && forall k :: 0 <= k < |es| ==> !es[k].event.Repaired?
    ensures Settled(es, Payload) == es[0].event
  {
    LastIsLast(es, Payload, 0);
    forall k | 1 <= k < |es| ensures !Settles(es[k].event, Payload) { OpenedOnce(es, k); }
  }
}
