/** What the index holds beyond the log: the deadline of a heartbeat, until the next append forgets it. */
module Deadlines {
  import opened Types
  import opened Jobs
  import opened Stores
  import opened Dispatchers
  import opened Consistency
  import opened Broker

  /** The deadline set by the last heartbeat on job j since the last append to it, if there was one. */
  function Renewed(before: Option<Time>, e: Effect, j: JobId): Option<Time> {
    match e
    case Nothing => before
    case Moved(k, deadline) => if k == j then Some(deadline) else before
    case Wrote(k, _) => if k == j then None else before
  }

  ghost function RenewedAfter(w: World, run: seq<Action>, j: JobId, before: Option<Time>): Option<Time>
    requires Sound(w) && Legal(w, run)
    decreases |run|
  {
    if |run| == 0 then before
    else
      StepKeepsSound(w, run[0]);
      RenewedAfter(Exec(w, run[0]), run[1..], j, Renewed(before, EffectOf(w, run[0]), j))
  }

  function Stamped(e: DispatchEntry, renewed: Option<Time>): DispatchEntry {
    if renewed.Some? && e.lease.Some? then SetDeadline(e, renewed.value) else e
  }

  /** The entry of job j is its projection from the log, but for the renewed deadline. */
  ghost predicate ExactAt(s: Inner, j: JobId, renewed: Option<Time>) {
    j in s.index ==>
      && j in s.streams && Fold(s.streams[j]).Ok?
      && var projected := EntryOf(Fold(s.streams[j]).value, s.index[j].seqNo);
         projected.Some? && s.index[j] == Stamped(projected.value, renewed)
  }

  lemma EffectKeepsExact(s: Inner, t: Inner, e: Effect, j: JobId, renewed: Option<Time>)
    requires HasEffect(s, t, e) && ExactAt(s, j, renewed)
    ensures ExactAt(t, j, Renewed(renewed, e, j))
  {
    if e.Wrote? && e.job != j { assert SameAt(s, t, j); }
  }

  lemma {:induction false} RunKeepsExact(w: World, run: seq<Action>, j: JobId, renewed: Option<Time>)
    requires Sound(w) && Legal(w, run) && ExactAt(w.inner, j, renewed)
    ensures ExactAt(After(w, run).inner, j, RenewedAfter(w, run, j, renewed))
    decreases |run|
  {
    if |run| > 0 {
      StepEffect(w, run[0]);
      StepKeepsSound(w, run[0]);
      var e := EffectOf(w, run[0]);
      EffectKeepsExact(w.inner, Exec(w, run[0]).inner, e, j, renewed);
      RunKeepsExact(Exec(w, run[0]), run[1..], j, Renewed(renewed, e, j));
    }
  }

  /**
   * In every reachable state an entry is exactly what the log projects to, with one exception: the
   * deadline of the last heartbeat since the job's last append.
   */
  lemma {:induction false} EntriesAreExact(run: seq<Action>, j: JobId)
    requires Legal(START, run)
    ensures Sound(START) && ExactAt(After(START, run).inner, j, RenewedAfter(START, run, j, None))
  {
    StartIsSound();
    RunKeepsExact(START, run, j, None);
  }
}
