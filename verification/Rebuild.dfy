/** The Postgres dispatch table: projected incrementally, or rebuilt from the log. */
module Rebuild {
  import opened Types
  import opened Jobs
  import opened Stores
  import opened Dispatchers
  import opened Consistency
  import opened Broker
  import opened Deadlines
  import opened Regularity

  ghost predicate Replayable(streams: map<JobId, Stream>, order: seq<JobId>) {
    forall i :: 0 <= i < |order| ==> order[i] in streams && Stored(order[i], streams[order[i]])
  }

  /** Every stream of the log in first-appearance order, folded and projected. */
  ghost function Replay(t: Table, streams: map<JobId, Stream>, order: seq<JobId>): Table
    requires Replayable(streams, order)
    decreases |order|
  {
    if |order| == 0 then t
    else
      var last := order[|order| - 1];
      ProjectRow(Replay(t, streams, order[..|order| - 1]), Fold(streams[last]).value)
  }

  ghost predicate CanDispatch(streams: map<JobId, Stream>, j: JobId) {
    j in streams && Fold(streams[j]).Ok? && Fold(streams[j]).value.state.Dispatchable()
  }

  ghost function Dispatchables(streams: map<JobId, Stream>, order: seq<JobId>): nat {
    if |order| == 0 then 0
    else Dispatchables(streams, order[..|order| - 1]) + if CanDispatch(streams, order[|order| - 1]) then 1 else 0
  }

  lemma {:induction false} ReplayPrefix(t: Table, streams: map<JobId, Stream>, order: seq<JobId>, i: nat)
    requires i < |order| && Replayable(streams, order[..i])
    requires order[i] in streams && Stored(order[i], streams[order[i]])
    ensures Replayable(streams, order[..i + 1])
    ensures Replay(t, streams, order[..i + 1])
            == ProjectRow(Replay(t, streams, order[..i]), Fold(streams[order[i]]).value)
    ensures Dispatchables(streams, order[..i + 1])
            == Dispatchables(streams, order[..i]) + if Fold(streams[order[i]]).value.state.Dispatchable() then 1 else 0
  {
    var longer := order[..i + 1];
    assert longer[..i] == order[..i] && longer[i] == order[i];
    forall k | 0 <= k < |longer| ensures longer[k] in streams && Stored(longer[k], streams[longer[k]]) {
      if k < i { assert longer[k] == order[..i][k]; }
    }
  }

  class DispatchQueue {
    var rows: Index
    var sequence: nat

    function View(): Table
      reads this
    {
      Table(rows, sequence)
    }

    constructor ()
      ensures View() == Table(map[], 0)
    {
      rows, sequence := map[], 0;
    }

    /** One transaction: a stream that no longer folds rolls everything back. */
    method RebuildDispatch(streams: map<JobId, Stream>, order: seq<JobId>) returns (r: Result<nat, StoreError>)
      requires forall i :: 0 <= i < |order| ==> order[i] in streams
      requires forall j :: j in streams && Fold(streams[j]).Ok? ==> Fold(streams[j]).value.id == j
      modifies this
      ensures r.Ok? <==> Replayable(streams, order)
      ensures r.Ok? ==> View() == Replay(old(View()), streams, order) && r.value == Dispatchables(streams, order)
      ensures r.Err? ==> View() == old(View())
    {
      var table := Table(rows, sequence);
      var projected := 0;
      for i := 0 to |order|
        invariant View() == old(View())
        invariant Replayable(streams, order[..i])
        invariant table == Replay(old(View()), streams, order[..i])
        invariant projected == Dispatchables(streams, order[..i])
      {
        var folded := FromEvents(streams[order[i]]);
        if folded.Err? { return Err(DoesNotFold(folded.error)); }
        var job := folded.value;
        ReplayPrefix(old(View()), streams, order, i);
        table := ProjectRow(table, job);
        if job.state.Dispatchable() { projected := projected + 1; }
      }
      assert order[..|order|] == order;
      rows, sequence := table.rows, table.sequence;
      return Ok(projected);
    }
  }

  // --- What a rebuild produces.

  ghost predicate RowSame(t: Table, u: Table, j: JobId) {
    (j in t.rows <==> j in u.rows) && (j in t.rows ==> t.rows[j] == u.rows[j])
  }

  /** The row of a replayed job: its projection, keeping a number it had and drawing a later one if not. */
  ghost predicate RowRebuilt(t: Table, u: Table, j: JobId, job: Job) {
    && (j in u.rows <==> job.state.Dispatchable())
    && (j in u.rows ==>
          && EntryOf(job, u.rows[j].seqNo) == Some(u.rows[j])
          && if j in t.rows then u.rows[j].seqNo == t.rows[j].seqNo else t.sequence < u.rows[j].seqNo <= u.sequence)
  }

  predicate New(t: Table, u: Table, j: JobId) { j in u.rows && j !in t.rows }

  ghost predicate Rebuilt(t: Table, u: Table, streams: map<JobId, Stream>, done: seq<JobId>)
    requires Replayable(streams, done)
  {
    && t.sequence <= u.sequence
    && (forall j :: j !in done ==> RowSame(t, u, j))
    && (forall i :: 0 <= i < |done| ==> RowRebuilt(t, u, done[i], Fold(streams[done[i]]).value))
    && (forall a, b :: 0 <= a < b < |done| && New(t, u, done[a]) && New(t, u, done[b]) ==>
          u.rows[done[a]].seqNo < u.rows[done[b]].seqNo)
  }

  lemma RebuiltStep(t: Table, u: Table, streams: map<JobId, Stream>, done: seq<JobId>, j: JobId)
    requires Replayable(streams, done + [j]) && Replayable(streams, done) && j !in done && Rebuilt(t, u, streams, done)
    requires j in streams && Stored(j, streams[j])
    ensures Rebuilt(t, ProjectRow(u, Fold(streams[j]).value), streams, done + [j])
  {
    var all := done + [j];
    assert all[|done|] == j;
    var v := ProjectRow(u, Fold(streams[j]).value);
    assert RowSame(t, u, j);
    forall k ensures k !in all ==> RowSame(t, v, k) { assert k !in done ==> RowSame(t, u, k); }
    forall i | 0 <= i < |all| ensures RowRebuilt(t, v, all[i], Fold(streams[all[i]]).value) {
      if i < |done| { assert RowRebuilt(t, u, done[i], Fold(streams[done[i]]).value) && done[i] in done; }
    }
    forall a, b | 0 <= a < b < |all| && New(t, v, all[a]) && New(t, v, all[b])
      ensures v.rows[all[a]].seqNo < v.rows[all[b]].seqNo
    {
      assert RowRebuilt(t, u, done[a], Fold(streams[done[a]]).value) && done[a] in done;
      if b < |done| { assert done[b] in done; }
    }
  }

  lemma {:induction false} ReplayRebuilds(t: Table, streams: map<JobId, Stream>, order: seq<JobId>)
    requires Replayable(streams, order) && forall a, b :: 0 <= a < b < |order| ==> order[a] != order[b]
    ensures Rebuilt(t, Replay(t, streams, order), streams, order)
    decreases |order|
  {
    if |order| > 0 {
      var init := order[..|order| - 1];
      ReplayRebuilds(t, streams, init);
      assert init + [order[|order| - 1]] == order;
      RebuiltStep(t, Replay(t, streams, init), streams, init, order[|order| - 1]);
    }
  }

  // --- Rebuild against the incrementally kept index.

  predicate SameRow(a: DispatchEntry, b: DispatchEntry) {
    && a.queue == b.queue && a.priority == b.priority && a.notBefore == b.notBefore
    && (a.lease.Some? <==> b.lease.Some?)
    && (a.lease.Some? ==> a.lease.value.lease == b.lease.value.lease && a.lease.value.worker == b.lease.value.worker)
  }

  /** The same rows up to sequence numbers and deadlines, in the same claim order. */
  ghost predicate Mirrors(x: Index, y: Index) {
    && x.Keys == y.Keys
    && (forall j :: j in x ==> SameRow(x[j], y[j]))
    && (forall j, k :: j in x && k in x ==> (Before(x[j], x[k]) <==> Before(y[j], y[k])))
  }

  /** Every row is the projection of its job's log, deadline included. */
  ghost predicate Recorded(rows: Index, streams: map<JobId, Stream>) {
    forall j :: j in rows ==> RecordedRow(rows[j], streams, j)
  }

  ghost predicate RecordedRow(row: DispatchEntry, streams: map<JobId, Stream>, j: JobId) {
    j in streams && Fold(streams[j]).Ok? && EntryOf(Fold(streams[j]).value, row.seqNo) == Some(row)
  }

  lemma RegularReplayable(w: World)
    requires RegularWorld(w)
    ensures Replayable(w.inner.streams, w.order)
  {
    forall i | 0 <= i < |w.order|
      ensures w.order[i] in w.inner.streams && Stored(w.order[i], w.inner.streams[w.order[i]])
    {
      assert w.order[i] in w.order;
    }
  }

  /** Any table that agrees with the log and numbers rows in opening order mirrors the index. */
  lemma InOrderMirrors(w: World, rows: Index)
    requires RegularWorld(w)
    requires forall j :: j in rows <==> j in w.inner.index
    requires forall j :: j in rows && j in w.inner.streams ==> Agrees(rows[j], Fold(w.inner.streams[j]).value)
    requires Queued(w.inner.(index := rows), w.order)
    ensures Mirrors(w.inner.index, rows)
  {
    var s := w.inner;
    forall j | j in s.index ensures SameRow(s.index[j], rows[j]) { assert IndexedRight(s, j); }
    forall j, k | j in s.index && k in s.index ensures Before(s.index[j], s.index[k]) <==> Before(rows[j], rows[k]) {
      assert SameRow(s.index[j], rows[j]) && SameRow(s.index[k], rows[k]);
      assert IndexedRight(s, j) && IndexedRight(s, k);
      NumbersAgree(s.index, rows, w.order, j, k);
    }
  }

  lemma NumbersAgree(x: Index, y: Index, order: seq<JobId>, j: JobId, k: JobId)
    requires j in order && k in order && j in x && k in x && j in y && k in y
    requires forall a, b :: 0 <= a < b < |order| && order[a] in x && order[b] in x ==>
               x[order[a]].seqNo < x[order[b]].seqNo
    requires forall a, b :: 0 <= a < b < |order| && order[a] in y && order[b] in y ==>
               y[order[a]].seqNo < y[order[b]].seqNo
    ensures x[j].seqNo < x[k].seqNo <==> y[j].seqNo < y[k].seqNo
  {
    var a :| 0 <= a < |order| && order[a] == j;
    var b :| 0 <= b < |order| && order[b] == k;
  }

  lemma RecordedMirrors(w: World, rows: Index)
    requires RegularWorld(w) && (forall j :: j in rows <==> j in w.inner.index) && Recorded(rows, w.inner.streams)
    requires Queued(w.inner.(index := rows), w.order)
    ensures Mirrors(w.inner.index, rows)
  {
    forall j | j in rows && j in w.inner.streams ensures Agrees(rows[j], Fold(w.inner.streams[j]).value) {
      assert RecordedRow(rows[j], w.inner.streams, j);
    }
    InOrderMirrors(w, rows);
  }

  /** A row after replaying the whole log over rows of logged jobs. */
  lemma {:induction false} ReplayedRow(w: World, t: Table, j: JobId)
    requires RegularWorld(w) && forall k :: k in t.rows ==> k in w.order
    ensures Replayable(w.inner.streams, w.order)
    ensures var u := Replay(t, w.inner.streams, w.order);
            && (j in u.rows <==> j in w.inner.index)
            && (j in u.rows ==> RecordedRow(u.rows[j], w.inner.streams, j))
            && (j in u.rows && j in t.rows ==> u.rows[j].seqNo == t.rows[j].seqNo)
  {
    var s := w.inner;
    RegularReplayable(w);
    ReplayRebuilds(t, s.streams, w.order);
    var u := Replay(t, s.streams, w.order);
    assert IndexedRight(s, j);
    if j in w.order {
      var i :| 0 <= i < |w.order| && w.order[i] == j;
      assert RowRebuilt(t, u, w.order[i], Fold(s.streams[w.order[i]]).value);
    } else {
      assert RowSame(t, u, j);
    }
  }

  lemma EmptiedQueued(w: World, sequence: nat)
    requires RegularWorld(w)
    ensures Replayable(w.inner.streams, w.order)
    ensures Queued(w.inner.(index := Replay(Table(map[], sequence), w.inner.streams, w.order).rows), w.order)
  {
    RegularReplayable(w);
    ReplayRebuilds(Table(map[], sequence), w.inner.streams, w.order);
  }

  /**
   * After any run of the use cases, rebuilding an emptied table gives the index's rows with the
   * recorded deadlines, in the same claim order, and counts the dispatchable jobs.
   */
  lemma RebuildMirrorsIndex(w: World, sequence: nat)
    requires RegularWorld(w)
    ensures Replayable(w.inner.streams, w.order)
    ensures var rebuilt := Replay(Table(map[], sequence), w.inner.streams, w.order).rows;
            Mirrors(w.inner.index, rebuilt) && Recorded(rebuilt, w.inner.streams)
    ensures Dispatchables(w.inner.streams, w.order) == |w.inner.index|
  {
    var t := Table(map[], sequence);
    EmptiedQueued(w, sequence);
    var u := Replay(t, w.inner.streams, w.order);
    forall j ensures j in u.rows <==> j in w.inner.index
             ensures j in u.rows ==> RecordedRow(u.rows[j], w.inner.streams, j)
    {
      ReplayedRow(w, t, j);
    }
    RecordedMirrors(w, u.rows);
    CountsIndex(w);
  }

  /** Over a table that agrees with the log, a rebuild keeps rows and numbers and returns to recorded deadlines. */
  lemma {:induction false} RebuildKeepsNumbers(w: World, t: Table, j: JobId)
    requires RegularWorld(w)
    requires forall k :: k in t.rows <==> k in w.inner.index
    requires forall k :: k in t.rows && k in w.inner.streams ==> Agrees(t.rows[k], Fold(w.inner.streams[k]).value)
    ensures Replayable(w.inner.streams, w.order)
    ensures var u := Replay(t, w.inner.streams, w.order);
            && (j in u.rows <==> j in t.rows) && Recorded(u.rows, w.inner.streams)
            && (j in t.rows ==> SameButDeadline(u.rows[j], t.rows[j]))
  {
    forall k | k in t.rows ensures k in w.order { assert IndexedRight(w.inner, k); }
    forall k { ReplayedRow(w, t, k); }
  }

  // --- The incrementally projected table.

  /** The table after one step of the broker: an append re-projects its job, a heartbeat moves a deadline. */
  ghost function TableStep(t: Table, next: Inner, e: Effect): Table
    requires e.Wrote? ==> e.job in next.streams && Fold(next.streams[e.job]).Ok?
  {
    match e
    case Nothing => t
    case Moved(j, deadline) =>
      if j in t.rows && t.rows[j].lease.Some? then t.(rows := t.rows[j := SetDeadline(t.rows[j], deadline)]) else t
    case Wrote(j, _) => ProjectRow(t, Fold(next.streams[j]).value)
  }

  /** The log together with the table, seen as the store's state. */
  function AsInner(s: Inner, t: Table): Inner { Inner(s.streams, t.rows, t.sequence) }

  lemma TableStepEffect(s: Inner, next: Inner, e: Effect, t: Table)
    requires Consistent(s) && HasEffect(s, next, e) && Consistent(AsInner(s, t))
    ensures HasEffect(AsInner(s, t), AsInner(next, TableStep(t, next, e)), e)
  {
    match e
    case Nothing =>
    case Moved(j, _) => assert IndexedRight(s, j) && IndexedRight(AsInner(s, t), j);
    case Wrote(j, batch) =>
      forall k | k != j ensures SameAt(AsInner(s, t), AsInner(next, TableStep(t, next, e)), k) {
        assert SameAt(s, next, k);
      }
  }

  ghost function TableAfter(w: World, run: seq<Action>, t: Table): Table
    requires Sound(w) && Legal(w, run)
    decreases |run|
  {
    if |run| == 0 then t
    else
      StepEffect(w, run[0]);
      StepKeepsSound(w, run[0]);
      TableAfter(Exec(w, run[0]), run[1..], TableStep(t, Exec(w, run[0]).inner, EffectOf(w, run[0])))
  }

  /** The table agrees with the log, exactly so for job j, and numbers its rows in opening order. */
  ghost predicate TableOk(w: World, t: Table, j: JobId, renewed: Option<Time>) {
    var s := AsInner(w.inner, t);
    Consistent(s) && Queued(s, w.order) && ExactAt(s, j, renewed)
  }

  lemma TableMoveOk(s: Inner, a: Action, e: Effect, next: Inner, t: Table, order: seq<JobId>)
    requires Consistent(s) && Moves(s, a, e, next) && OrderOk(s, order)
    requires Consistent(AsInner(s, t)) && Queued(AsInner(s, t), order)
    ensures var y := AsInner(next, TableStep(t, next, e));
            HasEffect(AsInner(s, t), y, e) && Consistent(y) && Queued(y, OrderAfter(s, e, order))
  {
    var x, y := AsInner(s, t), AsInner(next, TableStep(t, next, e));
    TableStepEffect(s, next, e, t);
    EffectKeepsConsistent(x, y, e);
    QueuedStep(x, y, e, order, OrderAfter(s, e, order));
  }

  lemma TableStepOk(w: World, a: Action, t: Table, j: JobId, renewed: Option<Time>)
    requires RegularWorld(w) && TableOk(w, t, j, renewed) && Guard(w, a) && UseCase(a)
    ensures HasEffect(w.inner, Exec(w, a).inner, EffectOf(w, a)) && RegularWorld(Exec(w, a))
    ensures var e := EffectOf(w, a); TableOk(Exec(w, a), TableStep(t, Exec(w, a).inner, e), j, Renewed(renewed, e, j))
  {
    var s, next, e := w.inner, Exec(w, a).inner, EffectOf(w, a);
    StepMoves(w, a);
    OrderGrows(w, a);
    StepKeepsRegular(w, a);
    TableMoveOk(s, a, e, next, t, w.order);
    EffectKeepsExact(AsInner(s, t), AsInner(next, TableStep(t, next, e)), e, j, renewed);
  }

  lemma {:induction false} TableStaysOk(w: World, run: seq<Action>, t: Table, j: JobId, renewed: Option<Time>)
    requires RegularWorld(w) && Legal(w, run) && AllUseCases(run) && TableOk(w, t, j, renewed)
    ensures RegularWorld(After(w, run))
    ensures TableOk(After(w, run), TableAfter(w, run, t), j, RenewedAfter(w, run, j, renewed))
    decreases |run|
  {
    if |run| > 0 {
      assert UseCase(run[0]);
      var next, e := Exec(w, run[0]), EffectOf(w, run[0]);
      TableStepOk(w, run[0], t, j, renewed);
      TableStaysOk(next, run[1..], TableStep(t, next.inner, e), j, Renewed(renewed, e, j));
    }
  }

  /** A row of the kept table against the same row rebuilt over it and rebuilt from nothing. */
  predicate RebuiltRow(kept: DispatchEntry, over: DispatchEntry, emptied: DispatchEntry, renewed: Option<Time>) {
    kept == Stamped(over, renewed) && over == emptied.(seqNo := over.seqNo)
  }

  /**
   * After any run of the use cases, a rebuild of the emptied table mirrors the incrementally kept one,
   * and a rebuild over it gives every row back as it is, except that a deadline set by a heartbeat since
   * the job's last append returns to the recorded one.
   */
  lemma {:induction false} RebuildRefinesIncremental(run: seq<Action>, sequence: nat, j: JobId)
    requires Legal(START, run) && AllUseCases(run)
    ensures Sound(START)
    ensures var w := After(START, run);
            && Replayable(w.inner.streams, w.order)
            && RebuildOf(w, TableAfter(START, run, Table(map[], 0)), sequence, j, RenewedAfter(START, run, j, None))
  {
    StartIsSound();
    TableStaysOk(START, run, Table(map[], 0), j, None);
    var kept := TableAfter(START, run, Table(map[], 0));
    RebuildOfTable(After(START, run), kept, sequence, j, RenewedAfter(START, run, j, None));
  }

  ghost predicate RebuildOf(w: World, kept: Table, sequence: nat, j: JobId, renewed: Option<Time>)
    requires Replayable(w.inner.streams, w.order)
  {
    var streams := w.inner.streams;
    var emptied, over := Replay(Table(map[], sequence), streams, w.order), Replay(kept, streams, w.order);
    && Mirrors(kept.rows, emptied.rows) && Recorded(emptied.rows, streams)
    && Recorded(over.rows, streams) && (j in over.rows <==> j in kept.rows)
    && (j in kept.rows ==> RebuiltRow(kept.rows[j], over.rows[j], emptied.rows[j], renewed))
    && Dispatchables(streams, w.order) == |kept.rows|
  }

  lemma KeptRows(w: World, kept: Table, k: JobId)
    requires RegularWorld(w) && Consistent(AsInner(w.inner, kept))
    ensures k in kept.rows <==> k in w.inner.index
    ensures k in kept.rows ==>
              k in w.inner.streams && k in w.order && Agrees(kept.rows[k], Fold(w.inner.streams[k]).value)
  {
    assert IndexedRight(w.inner, k) && IndexedRight(AsInner(w.inner, kept), k);
  }

  lemma RowsRelate(job: Job, kept: DispatchEntry, over: DispatchEntry, emptied: DispatchEntry, renewed: Option<Time>)
    requires EntryOf(job, kept.seqNo).Some? && kept == Stamped(EntryOf(job, kept.seqNo).value, renewed)
    requires EntryOf(job, over.seqNo) == Some(over) && over.seqNo == kept.seqNo
    requires EntryOf(job, emptied.seqNo) == Some(emptied)
    ensures RebuiltRow(kept, over, emptied, renewed)
  {
  }

  lemma {:induction false} KeptRowRebuilt(w: World, kept: Table, sequence: nat, j: JobId, renewed: Option<Time>)
    requires RegularWorld(w) && TableOk(w, kept, j, renewed) && j in kept.rows
    ensures Replayable(w.inner.streams, w.order)
    ensures var streams := w.inner.streams;
            var emptied, over := Replay(Table(map[], sequence), streams, w.order), Replay(kept, streams, w.order);
            && j in emptied.rows && j in over.rows
            && RebuiltRow(kept.rows[j], over.rows[j], emptied.rows[j], renewed)
  {
    var streams := w.inner.streams;
    var emptied, over := Table(map[], sequence), kept;
    forall k | k in kept.rows ensures k in w.order { KeptRows(w, kept, k); }
    KeptRows(w, kept, j);
    ReplayedRow(w, over, j);
    ReplayedRow(w, emptied, j);
    RowsRelate(Fold(streams[j]).value, kept.rows[j], Replay(over, streams, w.order).rows[j],
               Replay(emptied, streams, w.order).rows[j], renewed);
  }

  lemma RebuildOfTable(w: World, kept: Table, sequence: nat, j: JobId, renewed: Option<Time>)
    requires RegularWorld(w) && TableOk(w, kept, j, renewed)
    ensures Replayable(w.inner.streams, w.order) && RebuildOf(w, kept, sequence, j, renewed)
  {
    forall k { KeptRows(w, kept, k); }
    InOrderMirrors(w, kept.rows);
    RebuildMirrorsIndex(w, sequence);
    RebuildKeepsNumbers(w, kept, j);
    MirrorsCompose(w.inner.index, kept.rows, Replay(Table(map[], sequence), w.inner.streams, w.order).rows);
    if j in kept.rows { KeptRowRebuilt(w, kept, sequence, j, renewed); }
  }

  lemma MirrorsCompose(x: Index, y: Index, z: Index)
    requires Mirrors(x, y) && Mirrors(x, z)
    ensures Mirrors(y, z) && |x| == |y|
  {
    assert |x| == |x.Keys| && |y| == |y.Keys|;
    forall j | j in y ensures SameRow(y[j], z[j]) { assert SameRow(x[j], y[j]) && SameRow(x[j], z[j]); }
    forall j, k | j in y && k in y ensures Before(y[j], y[k]) <==> Before(z[j], z[k]) {
      assert Before(x[j], x[k]) <==> Before(y[j], y[k]);
    }
  }

  // --- Counting.

  lemma {:induction false} CountsDistinct(streams: map<JobId, Stream>, order: seq<JobId>, jobs: set<JobId>)
    requires forall a, b :: 0 <= a < b < |order| ==> order[a] != order[b]
    requires forall j :: j in jobs <==> j in order && CanDispatch(streams, j)
    ensures Dispatchables(streams, order) == |jobs|
    decreases |order|
  {
    if |order| == 0 {
      assert jobs == {};
    } else {
      var init, last := order[..|order| - 1], order[|order| - 1];
      assert order == init + [last];
      assert last !in init by { assert forall a :: 0 <= a < |init| ==> init[a] == order[a]; }
      forall j ensures j in jobs - {last} <==> j in init && CanDispatch(streams, j) {
        assert j in order <==> j in init || j == last;
      }
      CountsDistinct(streams, init, jobs - {last});
      assert last in jobs <==> CanDispatch(streams, last);
    }
  }

  lemma CountsIndex(w: World)
    requires RegularWorld(w)
    ensures Dispatchables(w.inner.streams, w.order) == |w.inner.index|
  {
    forall j ensures j in w.inner.index.Keys <==> j in w.order && CanDispatch(w.inner.streams, j) {
      assert IndexedRight(w.inner, j);
    }
    CountsDistinct(w.inner.streams, w.order, w.inner.index.Keys);
  }
}
