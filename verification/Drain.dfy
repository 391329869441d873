/** Claiming a queue dry: every eligible job once, by priority and then by place in the queue. */
module Drain {
  import opened Types
  import opened Stores
  import opened Dispatchers
  import opened Consistency
  import opened Broker

  ghost function EligibleJobs(index: Index, queue: QueueName, now: Time): set<JobId> {
    set j | j in index && Claimable(index[j], queue, now)
  }

  /** With distinct sequence numbers the scan order of the map cannot matter. */
  lemma PickIsUnique(s: Inner, queue: QueueName, now: Time, p: Option<JobId>, q: Option<JobId>)
    requires Consistent(s) && IsPick(s.index, queue, now, p) && IsPick(s.index, queue, now, q)
    ensures p == q
  {
    if p.Some? && q.Some? { assert Apart(s.index, p.value, q.value); }
  }

  /** The pick goes before every other eligible job. */
  lemma PickGoesFirst(s: Inner, queue: QueueName, now: Time, j: JobId, k: JobId)
    requires Consistent(s) && IsPick(s.index, queue, now, Some(j))
    requires k in EligibleJobs(s.index, queue, now) && k != j
    ensures Before(s.index[j], s.index[k])
  {
    assert Apart(s.index, j, k);
  }

  /** All steps claim on one queue, with one representable ttl, at one reading of the clock. */
  predicate ClaimsOn(run: seq<Action>, queue: QueueName, ttl: Duration, now: Time) {
    IsDelta(ttl) && forall i :: 0 <= i < |run| ==>
      run[i].ClaimNext? && run[i].queue == queue && run[i].ttl == ttl && run[i].now == now
  }

  /** A claim takes its pick out of the eligible jobs and leaves the others as they were. */
  lemma ClaimRemovesPick(w: World, a: Action)
    requires Sound(w) && Guard(w, a) && a.ClaimNext? && IsDelta(a.ttl) && a.picked.Some?
    ensures var j, s, t := a.picked.value, w.inner, Exec(w, a).inner;
            && j in s.index
            && EligibleJobs(t.index, a.queue, a.now) == EligibleJobs(s.index, a.queue, a.now) - {j}
            && forall k :: k != j ==> SameAt(s, t, k)
  {
    var j, s, t := a.picked.value, w.inner, Exec(w, a).inner;
    ClaimSucceeds(s, a.queue, j, a.worker, a.lease, a.ttl, a.now, a.at, a.ids);
    forall k ensures k in EligibleJobs(t.index, a.queue, a.now) <==> k in EligibleJobs(s.index, a.queue, a.now) - {j} {
      assert k == j || SameAt(s, t, k);
    }
  }

  /** Step i of the run takes the i-th eligible job in claim order; past the last one it takes nothing. */
  ghost predicate Drained(index: Index, queue: QueueName, now: Time, run: seq<Action>)
    requires forall i :: 0 <= i < |run| ==> run[i].ClaimNext?
  {
    var jobs := EligibleJobs(index, queue, now);
    && (forall i :: 0 <= i < |run| ==> (run[i].picked.Some? <==> i < |jobs|))
    && (forall i :: 0 <= i < |run| && run[i].picked.Some? ==> run[i].picked.value in jobs)
    && (forall i, k :: 0 <= i < k < |run| && run[k].picked.Some? ==>
          run[i].picked.Some? && Before(index[run[i].picked.value], index[run[k].picked.value]))
    && (forall j :: j in jobs && |jobs| <= |run| ==> exists i :: 0 <= i < |run| && run[i].picked == Some(j))
  }

  lemma DrainedNone(index: Index, queue: QueueName, now: Time, run: seq<Action>)
    requires forall i :: 0 <= i < |run| ==> run[i].ClaimNext?
    requires |run| > 0 && EligibleJobs(index, queue, now) == {} && Drained(index, queue, now, run[1..])
    requires run[0].picked.None?
    ensures Drained(index, queue, now, run)
  {
    forall i | 0 <= i < |run| ensures run[i].picked.None? {
      if i > 0 { assert run[i] == run[1..][i - 1]; }
    }
  }

  lemma DrainedSome(s: Inner, index': Index, queue: QueueName, now: Time, run: seq<Action>)
    requires forall i :: 0 <= i < |run| ==> run[i].ClaimNext?
    requires |run| > 0 && run[0].picked.Some? && Consistent(s) && IsPick(s.index, queue, now, run[0].picked)
    requires EligibleJobs(index', queue, now) == EligibleJobs(s.index, queue, now) - {run[0].picked.value}
    requires forall k :: k in index' && k != run[0].picked.value ==> k in s.index && index'[k] == s.index[k]
    requires Drained(index', queue, now, run[1..])
    ensures Drained(s.index, queue, now, run)
  {
    var j, rest := run[0].picked.value, run[1..];
    var jobs, left := EligibleJobs(s.index, queue, now), EligibleJobs(index', queue, now);
    assert |jobs| == |left| + 1;
    forall i | 0 <= i < |run|
      ensures run[i].picked.Some? <==> i < |jobs|
      ensures run[i].picked.Some? ==> run[i].picked.value in jobs
    {
      if i > 0 { assert run[i] == rest[i - 1]; }
    }
    forall i, k | 0 <= i < k < |run| && run[k].picked.Some?
      ensures run[i].picked.Some? && Before(s.index[run[i].picked.value], s.index[run[k].picked.value])
    {
      assert run[k] == rest[k - 1];
      if i > 0 {
        assert run[i] == rest[i - 1];
      } else {
        PickGoesFirst(s, queue, now, j, run[k].picked.value);
      }
    }
    forall m | m in jobs && |jobs| <= |run| ensures exists i :: 0 <= i < |run| && run[i].picked == Some(m) {
      if m != j {
        var i :| 0 <= i < |rest| && rest[i].picked == Some(m);
        assert run[i + 1].picked == Some(m);
      }
    }
  }

  /** Repeated claims at a fixed clock return every eligible job exactly once, in order, and then nothing. */
  lemma {:induction false} ClaimsDrainInOrder(w: World, run: seq<Action>, queue: QueueName, ttl: Duration, now: Time)
    requires Sound(w) && Legal(w, run) && ClaimsOn(run, queue, ttl, now)
    ensures Drained(w.inner.index, queue, now, run)
    decreases |run|
  {
    if |run| > 0 {
      var a, w' := run[0], Exec(w, run[0]);
      StepKeepsSound(w, a);
      ClaimsDrainInOrder(w', run[1..], queue, ttl, now);
      if a.picked.Some? {
        ClaimRemovesPick(w, a);
        forall k | k in w'.inner.index && k != a.picked.value
          ensures k in w.inner.index && w'.inner.index[k] == w.inner.index[k]
        {
          assert SameAt(w.inner, w'.inner, k);
        }
        DrainedSome(w.inner, w'.inner.index, queue, now, run);
      } else {
        assert EligibleJobs(w.inner.index, queue, now) == {};
        DrainedNone(w.inner.index, queue, now, run);
      }
    }
  }
}
