/** The in-memory event store: one log per job plus the dispatch index, changed together. */
module Stores {
  import opened Types
  import opened Jobs

  datatype LeaseState = LeaseState(lease: LeaseId, worker: WorkerId, expiresAt: Time)

  datatype DispatchEntry = DispatchEntry(
    queue: QueueName, priority: Priority, seqNo: nat, notBefore: Option<Time>, lease: Option<LeaseState>)

  datatype Inner = Inner(streams: map<JobId, Stream>, index: map<JobId, DispatchEntry>, counter: nat)

  const EMPTY := Inner(map[], map[], 0)

  function StreamOf(s: Inner, j: JobId): Stream { if j in s.streams then s.streams[j] else [] }

  /** The index entry of a job with the given sequence number, if the job can be dispatched. */
  function EntryOf(job: Job, seqNo: nat): Option<DispatchEntry> {
    match job.state
    case Pending(notBefore) => Some(DispatchEntry(job.queue, job.priority, seqNo, notBefore, None))
    case Leased(w, l, x) => Some(DispatchEntry(job.queue, job.priority, seqNo, None, Some(LeaseState(l, w, x))))
    case Running(w, l, x) => Some(DispatchEntry(job.queue, job.priority, seqNo, None, Some(LeaseState(l, w, x))))
    case _ => None
  }

  function Project(s: Inner, job: Job): Inner {
    var counter := if job.id in s.index then s.counter else s.counter + 1;
    var seqNo := if job.id in s.index then s.index[job.id].seqNo else counter;
    match EntryOf(job, seqNo)
    case Some(entry) => Inner(s.streams, s.index[job.id := entry], counter)
    case None => Inner(s.streams, s.index - {job.id}, counter)
  }

  /** The Postgres dispatch table; `sequence` is the last value drawn from the dispatch sequence. */
  datatype Table = Table(rows: map<JobId, DispatchEntry>, sequence: nat)

  /** Upsert or delete; an upsert draws from the sequence even where the row keeps its number. */
  function ProjectRow(t: Table, job: Job): Table {
    var seqNo := if job.id in t.rows then t.rows[job.id].seqNo else t.sequence + 1;
    match EntryOf(job, seqNo)
    case Some(row) => Table(t.rows[job.id := row], t.sequence + 1)
    case None => Table(t.rows - {job.id}, t.sequence)
  }

  function Append(s: Inner, stream: JobId, expected: nat, batch: seq<Envelope>): Result<Inner, StoreError> {
    var current := StreamOf(s, stream);
    if |current| != expected then Err(VersionConflict(stream, expected))
    else if !Continues(stream, |current|, batch) then Err(MalformedBatch(stream))
    else
      match Fold(current + batch)
      case Err(e) => Err(DoesNotFold(e))
      case Ok(job) => Ok(Project(s.(streams := s.streams[stream := current + batch]), job))
  }

  function Load(s: Inner, stream: JobId): Result<Stream, StoreError> {
    if stream in s.streams then Ok(s.streams[stream]) else Err(StreamNotFound(stream))
  }

  /** The store as the source runs it: every method is one hold of the mutex. */
  class InMemoryEventStore {
    var streams: map<JobId, Stream>
    var index: map<JobId, DispatchEntry>
    var counter: nat

    function View(): Inner
      reads this
    {
      Inner(streams, index, counter)
    }

    constructor ()
      ensures View() == EMPTY
    {
      streams, index, counter := map[], map[], 0;
    }

    /** Validates and folds before touching anything, so a rejected batch leaves no trace. */
    method AppendLocked(stream: JobId, expected: nat, batch: seq<Envelope>) returns (err: Option<StoreError>)
      modifies this
      ensures match Append(old(View()), stream, expected, batch)
              case Ok(inner) => err == None && View() == inner
              case Err(e) => err == Some(e) && View() == old(View())
    {
      var current := if stream in streams then streams[stream] else [];
      if |current| != expected { return Some(VersionConflict(stream, expected)); }
      var next := |current|;
      for k := 0 to |batch|
        invariant next == |current| + k
        invariant Continues(stream, |current|, batch[..k])
      {
        next := next + 1;
        if batch[k].version != next || batch[k].streamId != stream { return Some(MalformedBatch(stream)); }
        assert forall i :: 0 <= i < k + 1 ==> batch[..k + 1][i] == batch[i];
        assert forall i :: 0 <= i < k ==> batch[..k][i] == batch[i];
      }
      assert batch[..|batch|] == batch;
      var combined := current + batch;
      var folded := FromEvents(combined);
      if folded.Err? { return Some(DoesNotFold(folded.error)); }
      streams := streams[stream := combined];
      ProjectLocked(folded.value);
      err := None;
    }

    method ProjectLocked(job: Job)
      modifies this
      ensures View() == Project(old(View()), job)
    {
      var seqNo;
      if job.id in index {
        seqNo := index[job.id].seqNo;
      } else {
        counter := counter + 1;
        seqNo := counter;
      }
      match job.state {
        case Pending(notBefore) =>
          index := index[job.id := DispatchEntry(job.queue, job.priority, seqNo, notBefore, None)];
        case Leased(w, l, x) =>
          index := index[job.id := DispatchEntry(job.queue, job.priority, seqNo, None, Some(LeaseState(l, w, x)))];
        case Running(w, l, x) =>
          index := index[job.id := DispatchEntry(job.queue, job.priority, seqNo, None, Some(LeaseState(l, w, x)))];
        case _ =>
          index := index - {job.id};
      }
    }

    method LoadStream(stream: JobId) returns (r: Result<Stream, StoreError>)
      ensures r == Load(View(), stream)
    {
      r := if stream in streams then Ok(streams[stream]) else Err(StreamNotFound(stream));
    }
  }
}
