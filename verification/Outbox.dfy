/** The transactional outbox: appends write log and outbox together; one relay claims, delivers and deletes. */
module Outbox {
  import opened Types
  import opened Jobs
  import opened Stores

  /** Outbox rows by outbox_seq. */
  type Rows = map<nat, Envelope>

  /** The envelopes of the rows numbered below n, in number order. */
  function Ordered(rows: Rows, n: nat): seq<Envelope> {
    if n == 0 then [] else Ordered(rows, n - 1) + if n - 1 in rows then [rows[n - 1]] else []
  }

  /** The same for one stream. */
  function RowsOf(rows: Rows, j: JobId, n: nat): Stream {
    if n == 0 then []
    else RowsOf(rows, j, n - 1) + if n - 1 in rows && rows[n - 1].streamId == j then [rows[n - 1]] else []
  }

  predicate InStream(rows: Rows, q: nat, j: JobId) { q in rows && rows[q].streamId == j }

  lemma {:induction false} RowsOfFrame(a: Rows, b: Rows, j: JobId, n: nat)
    requires forall q: nat :: q < n ==>
               (InStream(a, q, j) <==> InStream(b, q, j)) && (InStream(a, q, j) ==> a[q] == b[q])
    ensures RowsOf(a, j, n) == RowsOf(b, j, n)
    decreases n
  {
    if n > 0 {
      RowsOfFrame(a, b, j, n - 1);
      assert InStream(a, n - 1, j) <==> InStream(b, n - 1, j);
    }
  }

  lemma {:induction false} RowsOfNone(a: Rows, j: JobId, n: nat)
    requires forall q: nat :: q < n ==> !InStream(a, q, j)
    ensures RowsOf(a, j, n) == []
    decreases n
  {
    if n > 0 {
      RowsOfNone(a, j, n - 1);
      assert !InStream(a, n - 1, j);
    }
  }

  /** The rows numbered n and above do not exist, so the bound may be raised. */
  lemma {:induction false} RowsOfBeyond(a: Rows, j: JobId, n: nat, m: nat)
    requires n <= m && forall q :: q in a ==> q < n
    ensures RowsOf(a, j, m) == RowsOf(a, j, n)
    decreases m
  {
    if n < m { RowsOfBeyond(a, j, n, m - 1); }
  }

  /** In stream j, all of `first` comes before all of `second`. */
  ghost predicate Precedes(first: Rows, second: Rows, j: JobId) {
    forall p, q :: InStream(first, p, j) && InStream(second, q, j) ==> p < q
  }

  /** The stream's rows in a union of two such parts are its rows in the parts, one after the other. */
  lemma {:induction false} RowsOfUnion(first: Rows, second: Rows, j: JobId, n: nat)
    requires first.Keys !! second.Keys && Precedes(first, second, j)
    ensures RowsOf(first + second, j, n) == RowsOf(first, j, n) + RowsOf(second, j, n)
    decreases n
  {
    if n > 0 {
      RowsOfUnion(first, second, j, n - 1);
      if InStream(first, n - 1, j) {
        forall q: nat | q < n - 1 ensures !InStream(second, q, j) { assert InStream(first, n - 1, j); }
        RowsOfNone(second, j, n - 1);
      }
    }
  }

  function Of(es: seq<Envelope>, j: JobId): Stream {
    if |es| == 0 then [] else Of(es[..|es| - 1], j) + if es[|es| - 1].streamId == j then [es[|es| - 1]] else []
  }

  lemma {:induction false} OfConcat(a: seq<Envelope>, b: seq<Envelope>, j: JobId)
    ensures Of(a + b, j) == Of(a, j) + Of(b, j)
    decreases |b|
  {
    if |b| == 0 {
      assert a + b == a;
    } else {
      OfConcat(a, b[..|b| - 1], j);
      assert (a + b)[..|a + b| - 1] == a + b[..|b| - 1];
    }
  }

  lemma {:induction false} OfOrdered(rows: Rows, j: JobId, n: nat)
    ensures Of(Ordered(rows, n), j) == RowsOf(rows, j, n)
    decreases n
  {
    if n > 0 {
      OfOrdered(rows, j, n - 1);
      var last := if n - 1 in rows then [rows[n - 1]] else [];
      OfConcat(Ordered(rows, n - 1), last, j);
      assert |last| == 1 ==> last[..0] == [];
    }
  }

  // --- One relay pass.

  /** How many rows are numbered below n. */
  function Rank(rows: Rows, n: nat): nat {
    if n == 0 then 0 else Rank(rows, n - 1) + if n - 1 in rows then 1 else 0
  }

  lemma {:induction false} RankGrows(rows: Rows, p: nat, q: nat)
    requires p < q
    ensures Rank(rows, p) <= Rank(rows, q) && (p in rows ==> Rank(rows, p) < Rank(rows, q))
    decreases q
  {
    if p < q - 1 { RankGrows(rows, p, q - 1); }
  }

  /** The first `limit` rows in outbox_seq order. */
  function First(rows: Rows, n: nat, limit: nat): Rows {
    map q | q in rows && q < n && Rank(rows, q) < limit :: rows[q]
  }

  /** A claim leaves no earlier row behind. */
  lemma FirstIsPrefix(rows: Rows, n: nat, limit: nat, p: nat, q: nat)
    requires p in rows && q in First(rows, n, limit) && p < q
    ensures p in First(rows, n, limit)
  {
    RankGrows(rows, p, q);
  }

  datatype RelayError = SinkFailed | Backend

  /** How a pass ends: reading or decoding fails, the sink refuses, the delete or commit fails, or all succeed. */
  datatype Outcome = ReadFails | SinkRefuses | CommitFails | Commits

  const MAX_U32 := 0xFFFF_FFFF

  /** The count a pass reports: the exact one, as far as 32 bits can say. */
  function Reported(n: nat): (r: nat)
    ensures r <= 0xFFFF_FFFF && r <= n && (n <= 0xFFFF_FFFF ==> r == n) && (n > 0xFFFF_FFFF ==> r == 0xFFFF_FFFF)
  {
    if n <= MAX_U32 then n else MAX_U32
  }

  /** The rows with a batch added, numbered from n on. */
  function AddRows(rows: Rows, n: nat, batch: seq<Envelope>): Rows
    decreases |batch|
  {
    if |batch| == 0 then rows else AddRows(rows[n := batch[0]], n + 1, batch[1..])
  }

  lemma {:induction false} AddRowsMerges(rows: Rows, m: Rows, n: nat, batch: seq<Envelope>)
    ensures rows + AddRows(m, n, batch) == AddRows(rows + m, n, batch)
    decreases |batch|
  {
    if |batch| > 0 {
      AddRowsMerges(rows, m[n := batch[0]], n + 1, batch[1..]);
      assert rows + m[n := batch[0]] == (rows + m)[n := batch[0]];
    }
  }

  /** One more row is its stream's last, and no other stream's. */
  lemma RowAdded(rows: Rows, n: nat, e: Envelope, j: JobId)
    requires forall q :: q in rows ==> q < n
    ensures RowsOf(rows[n := e], j, n + 1) == RowsOf(rows, j, n) + if e.streamId == j then [e] else []
  {
    RowsOfFrame(rows[n := e], rows, j, n);
  }

  /** The rows of every stream after a batch of one stream: its own last, no other stream's changed. */
  lemma {:induction false} AddedRows(rows: Rows, n: nat, batch: seq<Envelope>, stream: JobId, j: JobId)
    requires (forall q :: q in rows ==> q < n) && forall k :: 0 <= k < |batch| ==> batch[k].streamId == stream
    ensures forall q :: q in AddRows(rows, n, batch) ==> q < n + |batch|
    ensures RowsOf(AddRows(rows, n, batch), j, n + |batch|) == RowsOf(rows, j, n) + if j == stream then batch else []
    decreases |batch|
  {
    if |batch| > 0 {
      RowAdded(rows, n, batch[0], j);
      AddedRows(rows[n := batch[0]], n + 1, batch[1..], stream, j);
      assert batch == [batch[0]] + batch[1..];
    }
  }

  lemma {:induction false} BatchAdded(rows: Rows, n: nat, batch: seq<Envelope>, stream: JobId)
    requires (forall q :: q in rows ==> q < n) && forall k :: 0 <= k < |batch| ==> batch[k].streamId == stream
    ensures var all := rows + AddRows(map[], n, batch);
            && (forall q :: q in all ==> q < n + |batch|)
            && forall j :: RowsOf(all, j, n + |batch|) == RowsOf(rows, j, n) + if j == stream then batch else []
  {
    AddRowsMerges(rows, map[], n, batch);
    assert rows + map[] == rows;
    forall j { AddedRows(rows, n, batch, stream, j); }
    AddedRows(rows, n, batch, stream, stream);
  }

  class OutboxTable {
    var log: map<JobId, Stream>
    var rows: Rows
    /** The next outbox_seq; drawing one is never rolled back. */
    var next: nat
    /** The dispatch rows, projected in the transaction of the append. */
    var table: Table
    /** Everything handed to the sink, in order, redeliveries included. */
    var handed: seq<Envelope>

    constructor ()
      ensures View() == FRESH && table == Table(map[], 0) && Valid()
    {
      log, rows, next, table, handed := map[], map[], 0, Table(map[], 0), [];
    }

    ghost predicate Valid()
      reads this
    {
      forall q :: q in rows ==> q < next
    }

    /** The database between transactions; what was acknowledged is not stored. */
    function View(): Db
      reads this
    {
      Db(log, rows, next, map[], None, map[], handed)
    }

    /**
     * An append with no concurrent writer: events, outbox rows and dispatch row become visible together
     * or not at all. Its steps are those of a transaction that begins, inserts and commits.
     */
    method AppendInTx(stream: JobId, expected: nat, batch: seq<Envelope>) returns (r: Result<Job, StoreError>)
      requires Valid()
      modifies this`log, this`rows, this`next, this`table
      ensures Valid()
      ensures var current := At(old(log), stream);
              r == if |current| != expected then Err(VersionConflict(stream, expected))
                   else if !Continues(stream, |current|, batch) then Err(MalformedBatch(stream))
                   else match Fold(current + batch)
                        case Err(e) => Err(DoesNotFold(e))
                        case Ok(job) => Ok(job)
      ensures r.Err? ==> log == old(log) && rows == old(rows) && table == old(table)
      ensures r.Ok? ==> log == old(log)[stream := At(old(log), stream) + batch]
      ensures r.Ok? ==>
                forall j :: RowsOf(rows, j, next) == RowsOf(old(rows), j, old(next)) + if j == stream then batch else []
      ensures r.Ok? ==> RunsTo(old(View()), AppendSteps(0, stream, batch), View())
      ensures r.Ok? ==> table == ProjectRow(old(table), r.value)
    {
      var current := At(log, stream);
      if |current| != expected { return Err(VersionConflict(stream, expected)); }
      var wellFormed := CheckBatch(stream, |current|, batch);
      if !wellFormed { return Err(MalformedBatch(stream)); }
      var inserted := InsertRows(batch);
      var folded := FromEvents(current + batch);
      if folded.Err? {
        return Err(DoesNotFold(folded.error));
      }
      CommitBatch(stream, batch, old(next), inserted, folded.value);
      return Ok(folded.value);
    }

    /** Makes a transaction visible that drew its numbers from `first` on. */
    method CommitBatch(stream: JobId, batch: seq<Envelope>, ghost first: nat, inserted: Rows, job: Job)
      requires (forall q :: q in rows ==> q < first) && next == first + |batch|
      requires Continues(stream, |At(log, stream)|, batch) && inserted == AddRows(map[], first, batch)
      modifies this`log, this`rows, this`table
      ensures Valid() && log == old(log)[stream := At(old(log), stream) + batch] && table == ProjectRow(old(table), job)
      ensures forall j :: RowsOf(rows, j, next) == RowsOf(old(rows), j, first) + if j == stream then batch else []
      ensures RunsTo(old(View()).(next := first), AppendSteps(0, stream, batch), View())
    {
      AppendRuns(View().(next := first), 0, stream, batch, AppendSteps(0, stream, batch));
      BatchAdded(rows, first, batch, stream);
      log, rows, table := log[stream := At(log, stream) + batch], rows + inserted, ProjectRow(table, job);
    }

    method CheckBatch(stream: JobId, current: nat, batch: seq<Envelope>) returns (ok: bool)
      ensures ok <==> Continues(stream, current, batch)
    {
      var version := current;
      for k := 0 to |batch|
        invariant version == current + k && Continues(stream, current, batch[..k])
      {
        version := version + 1;
        if batch[k].version != version || batch[k].streamId != stream { return false; }
        assert batch[..k + 1] == batch[..k] + [batch[k]];
      }
      assert batch[..|batch|] == batch;
      return true;
    }

    /** The rows a transaction inserts; only the sequence moves for others. */
    method InsertRows(batch: seq<Envelope>) returns (inserted: Rows)
      requires Valid()
      modifies this`next
      ensures next == old(next) + |batch| && inserted == AddRows(map[], old(next), batch)
    {
      inserted := map[];
      for k := 0 to |batch|
        invariant next == old(next) + k
        invariant AddRows(inserted, next, batch[k..]) == AddRows(map[], old(next), batch)
      {
        inserted := inserted[next := batch[k]];
        next := next + 1;
      }
    }

    method ClaimRows(limit: nat) returns (seqs: set<nat>, envelopes: seq<Envelope>)
      ensures seqs == First(rows, next, limit).Keys && envelopes == Ordered(First(rows, next, limit), next)
    {
      seqs, envelopes := {}, [];
      var q := 0;
      while q < next && |envelopes| < limit
        invariant 0 <= q <= next
        invariant seqs == Below(rows, q)
        invariant envelopes == Ordered(rows, q) && |envelopes| == Rank(rows, q) <= limit
      {
        if q in rows {
          seqs := seqs + {q};
          envelopes := envelopes + [rows[q]];
        }
        q := q + 1;
      }
      FirstStops(rows, q, next, limit);
    }

    /** Claim, deliver, delete. A sink or commit failure leaves every row in place. */
    method RelayOnce(limit: nat, outcome: Outcome) returns (r: Result<nat, RelayError>)
      modifies this`rows, this`handed
      ensures outcome.ReadFails? ==> handed == old(handed)
      ensures !outcome.ReadFails? ==> handed == old(handed) + Ordered(First(old(rows), next, limit), next)
      ensures r.Ok? <==> outcome.Commits? || (First(old(rows), next, limit) == map[] && !outcome.ReadFails?)
      ensures r.Ok? ==> rows == old(rows) - First(old(rows), next, limit).Keys
      ensures r.Ok? ==> r.value == Reported(|Ordered(First(old(rows), next, limit), next)|)
      ensures r.Err? ==> rows == old(rows) && (r.error.SinkFailed? <==> outcome.SinkRefuses?)
      ensures RunsTo(old(View()), RelaySteps(limit, outcome), View())
    {
      RelayRuns(View(), limit, outcome);
      if outcome.ReadFails? { return Err(Backend); }
      var seqs, envelopes := ClaimRows(limit);
      if seqs == {} {
        OrderedEmpty(First(rows, next, limit), next);
        assert rows - First(rows, next, limit).Keys == rows;
        return Ok(0);
      }
      handed := handed + envelopes;
      if outcome.SinkRefuses? { return Err(SinkFailed); }
      if outcome.CommitFails? { return Err(Backend); }
      rows := rows - seqs;
      return Ok(Reported(|envelopes|));
    }
  }

  lemma {:induction false} OrderedEmpty(a: Rows, n: nat)
    requires a.Keys == {}
    ensures a == map[] && Ordered(a, n) == []
    decreases n
  {
    if n > 0 { OrderedEmpty(a, n - 1); }
  }

  lemma {:induction false} OrderedFrame(a: Rows, b: Rows, n: nat)
    requires forall q :: q < n ==> (q in a <==> q in b) && (q in a ==> a[q] == b[q])
    ensures Ordered(a, n) == Ordered(b, n)
    decreases n
  {
    if n > 0 { OrderedFrame(a, b, n - 1); }
  }

  lemma {:induction false} OrderedBeyond(a: Rows, q: nat, n: nat)
    requires q <= n && forall p :: p in a ==> p < q
    ensures Ordered(a, n) == Ordered(a, q)
    decreases n
  {
    if q < n { OrderedBeyond(a, q, n - 1); }
  }

  function Below(rows: Rows, q: nat): set<nat> { set p | p in rows && p < q }

  /** Once `limit` rows are passed, or all of them, what was passed is the claim. */
  lemma {:induction false} FirstStops(rows: Rows, q: nat, n: nat, limit: nat)
    requires q <= n && Rank(rows, q) <= limit && (q == n || Rank(rows, q) == limit)
    ensures First(rows, n, limit).Keys == Below(rows, q)
    ensures Ordered(First(rows, n, limit), n) == Ordered(rows, q)
  {
    var m := First(rows, n, limit);
    forall p: nat | p in rows && p < n ensures p in m <==> p < q {
      if p < q { RankGrows(rows, p, q); }
      if q < p { RankGrows(rows, q, p); }
    }
    OrderedFrame(m, rows, q);
    OrderedBeyond(m, q, n);
  }

  lemma {:induction false} RankIsLength(rows: Rows, n: nat)
    ensures |Ordered(rows, n)| == Rank(rows, n)
    decreases n
  {
    if n > 0 { RankIsLength(rows, n - 1); }
  }

  lemma {:induction false} CutAt(rows: Rows, n: nat, limit: nat) returns (q: nat)
    requires limit <= Rank(rows, n)
    ensures q <= n && Rank(rows, q) == limit
    decreases n
  {
    if limit == Rank(rows, n) { q := n; } else { q := CutAt(rows, n - 1, limit); }
  }

  /** A claim takes as many rows as the limit allows. */
  lemma {:induction false} FirstTakesLimit(rows: Rows, n: nat, limit: nat)
    ensures |Ordered(First(rows, n, limit), n)| == if Rank(rows, n) < limit then Rank(rows, n) else limit
  {
    var q := n;
    if limit <= Rank(rows, n) { q := CutAt(rows, n, limit); }
    FirstStops(rows, q, n, limit);
    RankIsLength(rows, q);
  }

  // --- The database: open append transactions, the committed log and outbox, and the relay's claim.

  /** An append that has inserted events and their outbox rows, not yet visible to others. */
  datatype Txn = Txn(stream: JobId, base: nat, events: Stream, rows: Rows)

  /** The relay's open transaction: the rows it locked, and whether the sink has been called. */
  datatype RelayClaim = RelayClaim(rows: Rows, delivered: bool)

  /** `acked` is history: what was deleted after delivery, per stream. */
  datatype Db = Db(
    log: map<JobId, Stream>, rows: Rows, next: nat, writers: map<nat, Txn>,
    claim: Option<RelayClaim>, acked: map<JobId, Stream>, handed: seq<Envelope>)

  const FRESH := Db(map[], map[], 0, map[], None, map[], [])

  function At(m: map<JobId, Stream>, j: JobId): Stream { if j in m then m[j] else [] }

  datatype Step =
    | BeginAppend(tx: nat, stream: JobId)
    | Insert(tx: nat, envelope: Envelope)
    | Commit(tx: nat)
    | Rollback(tx: nat)
    | ClaimBatch(limit: nat)
    | HandOver
    | DeleteClaimed
    | AbandonClaim

  /** A transaction after inserting one more event and its row. */
  function Inserted(t: Txn, e: Envelope, q: nat): Txn { t.(events := t.events + [e], rows := t.rows[q := e]) }

  /** Another open transaction already holds this version of the stream. */
  predicate Blocks(o: Txn, j: JobId, version: nat) { o.stream == j && o.base < version <= o.base + |o.events| }

  /**
   * An insert carries the next version of its transaction, finds no committed event with that version
   * (the unique constraint), and waits while another open transaction holds it.
   */
  ghost predicate Enabled(d: Db, s: Step) {
    match s
    case BeginAppend(tx, _) => tx !in d.writers
    case Insert(tx, e) =>
      && tx in d.writers
      && (var t := d.writers[tx];
          && e.streamId == t.stream && e.version == t.base + |t.events| + 1
          && e.version > |At(d.log, t.stream)|
          && forall o :: o in d.writers && o != tx ==> !Blocks(d.writers[o], t.stream, e.version))
    case Commit(tx) => tx in d.writers
    case Rollback(tx) => tx in d.writers
    case ClaimBatch(_) => d.claim.None?
    case HandOver => d.claim.Some? && !d.claim.value.delivered
    case DeleteClaimed => d.claim.Some? && d.claim.value.delivered
    case AbandonClaim => d.claim.Some?
  }

  /** Acknowledged envelopes after deleting the claimed rows. */
  function Acknowledge(acked: map<JobId, Stream>, rows: Rows, n: nat): map<JobId, Stream> {
    var streams := set q | q in rows :: rows[q].streamId;
    map j | j in acked.Keys + streams :: At(acked, j) + RowsOf(rows, j, n)
  }

  ghost function Do(d: Db, s: Step): Db
    requires Enabled(d, s)
  {
    match s
    case BeginAppend(tx, j) => d.(writers := d.writers[tx := Txn(j, |At(d.log, j)|, [], map[])])
    case Insert(tx, e) =>
      d.(writers := d.writers[tx := Inserted(d.writers[tx], e, d.next)], next := d.next + 1)
    case Commit(tx) =>
      var t := d.writers[tx];
      d.(log := d.log[t.stream := At(d.log, t.stream) + t.events], rows := d.rows + t.rows, writers := d.writers - {tx})
    case Rollback(tx) => d.(writers := d.writers - {tx})
    case ClaimBatch(limit) => d.(claim := Some(RelayClaim(First(d.rows, d.next, limit), false)))
    case HandOver =>
      d.(handed := d.handed + Ordered(d.claim.value.rows, d.next), claim := Some(d.claim.value.(delivered := true)))
    case DeleteClaimed =>
      var c := d.claim.value.rows;
      d.(rows := d.rows - c.Keys, claim := None, acked := Acknowledge(d.acked, c, d.next))
    case AbandonClaim => d.(claim := None)
  }

  // --- Schedules, and those of one append and one relay pass.

  ghost predicate Schedule(d: Db, run: seq<Step>)
    decreases |run|
  {
    |run| > 0 ==> Enabled(d, run[0]) && Schedule(Do(d, run[0]), run[1..])
  }

  ghost function Final(d: Db, run: seq<Step>): Db
    requires Schedule(d, run)
    decreases |run|
  {
    if |run| == 0 then d else Final(Do(d, run[0]), run[1..])
  }

  /** The steps lead from d to e, but for the history of acknowledgements. */
  ghost predicate RunsTo(d: Db, run: seq<Step>, e: Db) { Schedule(d, run) && Final(d, run).(acked := d.acked) == e }

  lemma {:induction false} ScheduleCons(d: Db, s: Step, rest: seq<Step>)
    requires Enabled(d, s) && Schedule(Do(d, s), rest)
    ensures Schedule(d, [s] + rest) && Final(d, [s] + rest) == Final(Do(d, s), rest)
  {
    assert ([s] + rest)[1..] == rest;
  }

  function InsertsAndCommit(tx: nat, batch: seq<Envelope>): seq<Step> {
    if |batch| == 0 then [Commit(tx)] else [Insert(tx, batch[0])] + InsertsAndCommit(tx, batch[1..])
  }

  function AppendSteps(tx: nat, stream: JobId, batch: seq<Envelope>): seq<Step> {
    [BeginAppend(tx, stream)] + InsertsAndCommit(tx, batch)
  }

  /** The database after transaction tx, alone, committed these events and rows. */
  function Committed(d: Db, stream: JobId, events: Stream, rows: Rows, next: nat): Db {
    d.(log := d.log[stream := At(d.log, stream) + events], rows := d.rows + rows, next := next, writers := map[])
  }

  lemma {:induction false} InsertsRun(d: Db, tx: nat, t: Txn, batch: seq<Envelope>)
    requires d.writers == map[tx := t] && t.base == |At(d.log, t.stream)|
    requires Continues(t.stream, t.base + |t.events|, batch)
    ensures Schedule(d, InsertsAndCommit(tx, batch))
    ensures Final(d, InsertsAndCommit(tx, batch))
            == Committed(d, t.stream, t.events + batch, AddRows(t.rows, d.next, batch), d.next + |batch|)
    decreases |batch|
  {
    if |batch| == 0 {
      CommitRuns(d, tx, t);
      assert t.events + batch == t.events;
    } else {
      InsertRuns(d, tx, t, batch[0]);
      var u := Inserted(t, batch[0], d.next);
      InsertsRun(Do(d, Insert(tx, batch[0])), tx, u, batch[1..]);
      ScheduleCons(d, Insert(tx, batch[0]), InsertsAndCommit(tx, batch[1..]));
      assert u.events + batch[1..] == t.events + batch;
    }
  }

  lemma InsertRuns(d: Db, tx: nat, t: Txn, e: Envelope)
    requires d.writers == map[tx := t] && t.base == |At(d.log, t.stream)|
    requires e.streamId == t.stream && e.version == t.base + |t.events| + 1
    ensures Enabled(d, Insert(tx, e))
    ensures Do(d, Insert(tx, e)) == d.(writers := map[tx := Inserted(t, e, d.next)], next := d.next + 1)
  {
  }

  lemma {:induction false} CommitRuns(d: Db, tx: nat, t: Txn)
    requires d.writers == map[tx := t]
    ensures Schedule(d, [Commit(tx)])
    ensures Final(d, [Commit(tx)])
            == Committed(d, t.stream, t.events, t.rows, d.next)
  {
    assert d.writers - {tx} == map[];
    ScheduleCons(d, Commit(tx), []);
    assert [Commit(tx)] + [] == [Commit(tx)];
  }

  lemma BeginRuns(d: Db, tx: nat, stream: JobId) returns (s: Step, begun: Db)
    requires d.writers == map[]
    ensures s == BeginAppend(tx, stream) && Enabled(d, s) && begun == Do(d, s)
    ensures begun == d.(writers := map[tx := Txn(stream, |At(d.log, stream)|, [], map[])])
  {
    s := BeginAppend(tx, stream);
    begun := Do(d, s);
  }

  lemma {:induction false} AppendRuns(d: Db, tx: nat, stream: JobId, batch: seq<Envelope>, steps: seq<Step>)
    requires d.writers == map[] && Continues(stream, |At(d.log, stream)|, batch)
    requires steps == AppendSteps(tx, stream, batch)
    ensures RunsTo(d, steps, Committed(d, stream, batch, AddRows(map[], d.next, batch), d.next + |batch|))
  {
    var s, begun := BeginRuns(d, tx, stream);
    InsertsRun(begun, tx, begun.writers[tx], batch);
    ScheduleCons(d, s, InsertsAndCommit(tx, batch));
    assert [] + batch == batch;
  }

  function RelaySteps(limit: nat, outcome: Outcome): seq<Step> {
    match outcome
    case ReadFails => []
    case Commits => [ClaimBatch(limit), HandOver, DeleteClaimed]
    case _ => [ClaimBatch(limit), HandOver, AbandonClaim]
  }

  lemma RelayRuns(d: Db, limit: nat, outcome: Outcome)
    requires d.claim.None?
    ensures var c := First(d.rows, d.next, limit);
            RunsTo(d, RelaySteps(limit, outcome),
                   d.(rows := if outcome.Commits? then d.rows - c.Keys else d.rows,
                      handed := if outcome.ReadFails? then d.handed else d.handed + Ordered(c, d.next)))
  {
    if !outcome.ReadFails? {
      var last := if outcome.Commits? then DeleteClaimed else AbandonClaim;
      var d1 := Do(d, ClaimBatch(limit));
      var d2 := Do(d1, HandOver);
      ScheduleCons(d2, last, []);
      ScheduleCons(d1, HandOver, [last] + []);
      ScheduleCons(d, ClaimBatch(limit), [HandOver] + ([last] + []));
      assert RelaySteps(limit, outcome) == [ClaimBatch(limit)] + ([HandOver] + ([last] + []));
    }
  }

  // --- What the sink sees of one stream.

  /** Highest version handed over so far. */
  function High(hs: Stream): nat {
    if |hs| == 0 then 0
    else
      var before, v := High(hs[..|hs| - 1]), hs[|hs| - 1].version;
      if before < v then v else before
  }

  /** Every envelope is the log's at its version, and no version comes before its predecessor has come. */
  predicate NoSkip(hs: Stream, es: Stream) {
    |hs| > 0 ==>
      var init, last := hs[..|hs| - 1], hs[|hs| - 1];
      NoSkip(init, es) && 1 <= last.version <= |es| && last == es[last.version - 1] && last.version <= High(init) + 1
  }

  lemma {:induction false} NoSkipGrows(hs: Stream, es: Stream, more: Stream)
    requires NoSkip(hs, es)
    ensures NoSkip(hs, es + more)
    decreases |hs|
  {
    if |hs| > 0 { NoSkipGrows(hs[..|hs| - 1], es, more); }
  }

  lemma {:induction false} NoSkipSnoc(hs: Stream, es: Stream, v: nat)
    requires NoSkip(hs, es) && v < |es| && es[v].version == v + 1 && v <= High(hs)
    ensures NoSkip(hs + [es[v]], es) && High(hs + [es[v]]) >= v + 1 && High(hs + [es[v]]) >= High(hs)
  {
    assert (hs + [es[v]])[..|hs|] == hs;
  }

  /** Handing over the next stretch of the log, or one already begun, skips nothing. */
  lemma {:induction false} NoSkipSegment(hs: Stream, es: Stream, a: nat, seg: Stream, all: Stream)
    requires NoSkip(hs, es) && a <= High(hs) && all == hs + seg && a + |seg| <= |es|
    requires forall k :: 0 <= k < |seg| ==> seg[k] == es[a + k] && seg[k].version == a + k + 1
    ensures NoSkip(all, es) && High(all) >= a + |seg|
    decreases |seg|
  {
    if |seg| == 0 {
      assert all == hs;
    } else {
      assert seg[0] == es[a];
      NoSkipSnoc(hs, es, a);
      assert all == hs + [es[a]] + seg[1..];
      NoSkipSegment(hs + [es[a]], es, a + 1, seg[1..], all);
    }
  }

  // --- The invariant.

  ghost predicate WriterOk(log: Stream, rows: Rows, next: nat, t: Txn) {
    && t.base <= |log|
    && (t.events == [] ==> t.rows == map[])
    && (t.events != [] ==> t.base == |log|)
    && (forall k :: 0 <= k < |t.events| ==> t.events[k].version == t.base + k + 1 && t.events[k].streamId == t.stream)
    && (forall q :: q in t.rows ==> q < next && q !in rows && t.rows[q].streamId == t.stream)
    && RowsOf(t.rows, t.stream, next) == t.events
    && Precedes(rows, t.rows, t.stream)
  }

  /** Two open writers share no row, and at most one of a stream has inserted anything. */
  predicate WritersApart(t: Txn, u: Txn) {
    t.rows.Keys !! u.rows.Keys && (t.stream == u.stream ==> t.events == [] || u.events == [])
  }

  ghost predicate AllApart(writers: map<nat, Txn>) {
    forall tx, o :: tx in writers && o in writers && tx != o ==> WritersApart(writers[tx], writers[o])
  }

  ghost predicate Writers(log: map<JobId, Stream>, rows: Rows, next: nat, writers: map<nat, Txn>) {
    && (forall tx :: tx in writers ==> WriterOk(At(log, writers[tx].stream), rows, next, writers[tx]))
    && AllApart(writers)
  }

  /** Acknowledged then visible is committed, in version order. */
  ghost predicate Conserved(log: Stream, rows: Rows, next: nat, acked: Stream, j: JobId) {
    acked + RowsOf(rows, j, next) == log && Continues(j, 0, log)
  }

  /** A claim holds visible rows, and leaves none of a stream behind that precedes one it holds. */
  ghost predicate ClaimOk(rows: Rows, c: Rows, j: JobId) {
    c.Keys <= rows.Keys && (forall q :: q in c ==> c[q] == rows[q]) && Precedes(c, rows - c.Keys, j)
  }

  /** The sink has seen the stream without a skip, at least up to what was acknowledged. */
  ghost predicate SeenOk(log: Stream, hs: Stream, least: nat) { NoSkip(hs, log) && High(hs) >= least }

  /** What the sink must have seen: the acknowledged, and a delivered claim. */
  function HandedUpTo(acked: Stream, claim: Option<RelayClaim>, next: nat, j: JobId): nat {
    |acked| + if claim.Some? && claim.value.delivered then |RowsOf(claim.value.rows, j, next)| else 0
  }

  ghost predicate StreamOk(d: Db, j: JobId) {
    && Conserved(At(d.log, j), d.rows, d.next, At(d.acked, j), j)
    && (d.claim.Some? ==> ClaimOk(d.rows, d.claim.value.rows, j))
    && SeenOk(At(d.log, j), Of(d.handed, j), HandedUpTo(At(d.acked, j), d.claim, d.next, j))
  }

  ghost predicate Good(d: Db) {
    && (forall q :: q in d.rows ==> q < d.next)
    && Writers(d.log, d.rows, d.next, d.writers)
    && forall j :: StreamOk(d, j)
  }

  // --- Each step keeps it.

  lemma FreshIsGood()
    ensures Good(FRESH)
  {
    forall j ensures StreamOk(FRESH, j) {}
  }

  lemma BeginKeeps(d: Db, s: Step)
    requires Good(d) && Enabled(d, s) && s.BeginAppend?
    ensures Good(Do(d, s))
  {
    var t := Txn(s.stream, |At(d.log, s.stream)|, [], map[]);
    RowsOfNone(map[], s.stream, d.next);
    AllApartUpdate(d.writers, s.tx, t);
    assert WriterOk(At(d.log, s.stream), d.rows, d.next, t);
    forall j ensures StreamOk(Do(d, s), j) { assert StreamOk(d, j); }
  }

  lemma RollbackKeeps(d: Db, s: Step)
    requires Good(d) && Enabled(d, s) && s.Rollback?
    ensures Good(Do(d, s))
  {
    forall j ensures StreamOk(Do(d, s), j) { assert StreamOk(d, j); }
  }

  lemma AbandonKeeps(d: Db, s: Step)
    requires Good(d) && Enabled(d, s) && s.AbandonClaim?
    ensures Good(Do(d, s))
  {
    forall j ensures StreamOk(Do(d, s), j) { assert StreamOk(d, j); }
  }

  lemma ClaimKeeps(d: Db, s: Step)
    requires Good(d) && Enabled(d, s) && s.ClaimBatch?
    ensures Good(Do(d, s))
  {
    var c := First(d.rows, d.next, s.limit);
    forall p, q | p in d.rows && q in c && p < q ensures p in c { FirstIsPrefix(d.rows, d.next, s.limit, p, q); }
    forall j ensures StreamOk(Do(d, s), j) { assert StreamOk(d, j); }
  }

  /** The claimed rows of a stream are the next stretch of its log. */
  lemma {:induction false} ClaimIsNext(log: Stream, rows: Rows, next: nat, acked: Stream, c: Rows, j: JobId)
    requires Conserved(log, rows, next, acked, j) && ClaimOk(rows, c, j)
    ensures acked + RowsOf(c, j, next) + RowsOf(rows - c.Keys, j, next) == log
  {
    assert rows == c + (rows - c.Keys);
    RowsOfUnion(c, rows - c.Keys, j, next);
  }

  lemma {:induction false} ClaimIsSeen(log: Stream, rows: Rows, next: nat, acked: Stream, c: Rows, hs: Stream, j: JobId)
    requires Conserved(log, rows, next, acked, j) && ClaimOk(rows, c, j) && SeenOk(log, hs, |acked|)
    ensures SeenOk(log, hs + RowsOf(c, j, next), |acked| + |RowsOf(c, j, next)|)
  {
    ClaimIsNext(log, rows, next, acked, c, j);
    var seg := RowsOf(c, j, next);
    assert forall k :: 0 <= k < |seg| ==> seg[k] == log[|acked| + k];
    NoSkipSegment(hs, log, |acked|, seg, hs + seg);
  }

  lemma HandOverKeepsStream(d: Db, j: JobId)
    requires StreamOk(d, j) && Enabled(d, HandOver)
    ensures StreamOk(Do(d, HandOver), j)
  {
    var c := d.claim.value.rows;
    ClaimIsSeen(At(d.log, j), d.rows, d.next, At(d.acked, j), c, Of(d.handed, j), j);
    OfConcat(d.handed, Ordered(c, d.next), j);
    OfOrdered(c, j, d.next);
  }

  lemma HandOverKeeps(d: Db, s: Step)
    requires Good(d) && Enabled(d, s) && s.HandOver?
    ensures Good(Do(d, s))
  {
    forall j ensures StreamOk(Do(d, s), j) { HandOverKeepsStream(d, j); }
  }

  lemma {:induction false} AcknowledgeAt(acked: map<JobId, Stream>, rows: Rows, n: nat, j: JobId)
    ensures At(Acknowledge(acked, rows, n), j) == At(acked, j) + RowsOf(rows, j, n)
  {
    var streams := set q | q in rows :: rows[q].streamId;
    if j !in streams {
      forall q: nat | q < n ensures !InStream(rows, q, j) {}
      RowsOfNone(rows, j, n);
    }
  }

  lemma DeleteKeepsStream(d: Db, j: JobId)
    requires StreamOk(d, j) && Enabled(d, DeleteClaimed)
    ensures StreamOk(Do(d, DeleteClaimed), j)
  {
    ClaimIsNext(At(d.log, j), d.rows, d.next, At(d.acked, j), d.claim.value.rows, j);
    AcknowledgeAt(d.acked, d.claim.value.rows, d.next, j);
  }

  lemma FewerRows(log: Stream, rows: Rows, next: nat, t: Txn, gone: set<nat>)
    requires WriterOk(log, rows, next, t)
    ensures WriterOk(log, rows - gone, next, t)
  {
    forall p, q | InStream(rows - gone, p, t.stream) && InStream(t.rows, q, t.stream) ensures p < q {
      assert InStream(rows, p, t.stream);
    }
  }

  lemma DeleteKeeps(d: Db, s: Step)
    requires Good(d) && Enabled(d, s) && s.DeleteClaimed?
    ensures Good(Do(d, s))
  {
    var e := Do(d, s);
    forall tx | tx in e.writers ensures WriterOk(At(e.log, e.writers[tx].stream), e.rows, e.next, e.writers[tx]) {
      FewerRows(At(d.log, d.writers[tx].stream), d.rows, d.next, d.writers[tx], d.claim.value.rows.Keys);
    }
    forall j ensures StreamOk(e, j) { DeleteKeepsStream(d, j); }
  }

  // --- An insert draws the next number.

  lemma WriterRaised(log: Stream, rows: Rows, next: nat, t: Txn)
    requires WriterOk(log, rows, next, t)
    ensures WriterOk(log, rows, next + 1, t)
  {
    RowsOfBeyond(t.rows, t.stream, next, next + 1);
  }

  lemma WriterExtends(log: Stream, rows: Rows, next: nat, t: Txn, e: Envelope)
    requires WriterOk(log, rows, next, t) && (forall q :: q in rows ==> q < next)
    requires e.streamId == t.stream && e.version == t.base + |t.events| + 1 && e.version > |log|
    ensures WriterOk(log, rows, next + 1, Inserted(t, e, next))
  {
    RowsOfFrame(t.rows[next := e], t.rows, t.stream, next);
  }

  lemma InsertKeepsStream(d: Db, s: Step, j: JobId)
    requires StreamOk(d, j) && (forall q :: q in d.rows ==> q < d.next) && Enabled(d, s) && s.Insert?
    ensures StreamOk(Do(d, s), j)
  {
    RowsOfBeyond(d.rows, j, d.next, d.next + 1);
    if d.claim.Some? { RowsOfBeyond(d.claim.value.rows, j, d.next, d.next + 1); }
  }

  /** A writer of the stream that may insert is alone in having inserted. */
  lemma InsertApart(log: Stream, rows: Rows, next: nat, t: Txn, o: Txn, e: Envelope)
    requires WriterOk(log, rows, next, t) && WritersApart(t, o)
    requires o.stream == t.stream ==> WriterOk(log, rows, next, o)
    requires forall q :: q in o.rows ==> q < next
    requires e.version == t.base + |t.events| + 1 && e.version > |log| && !Blocks(o, t.stream, e.version)
    ensures WritersApart(Inserted(t, e, next), o)
  {
    if o.stream == t.stream && t.events == [] { assert t.base == |log|; }
  }

  lemma ApartSymmetric(t: Txn, o: Txn)
    requires WritersApart(t, o)
    ensures WritersApart(o, t)
  {
  }

  lemma InsertKeepsApart(d: Db, tx: nat, e: Envelope)
    requires Writers(d.log, d.rows, d.next, d.writers) && Enabled(d, Insert(tx, e))
    ensures AllApart(d.writers[tx := Inserted(d.writers[tx], e, d.next)])
  {
    var t := d.writers[tx];
    forall o | o in d.writers && o != tx ensures WritersApart(Inserted(t, e, d.next), d.writers[o]) {
      InsertApart(At(d.log, t.stream), d.rows, d.next, t, d.writers[o], e);
    }
    AllApartUpdate(d.writers, tx, Inserted(t, e, d.next));
  }

  lemma InsertKeepsWriter(d: Db, tx: nat, e: Envelope, o: nat)
    requires Writers(d.log, d.rows, d.next, d.writers) && (forall q :: q in d.rows ==> q < d.next)
    requires Enabled(d, Insert(tx, e)) && o in d.writers
    ensures var u := if o == tx then Inserted(d.writers[o], e, d.next) else d.writers[o];
            WriterOk(At(d.log, u.stream), d.rows, d.next + 1, u)
  {
    var u := d.writers[o];
    if o == tx {
      WriterExtends(At(d.log, u.stream), d.rows, d.next, u, e);
    } else {
      WriterRaised(At(d.log, u.stream), d.rows, d.next, u);
    }
  }

  lemma AllApartUpdate(writers: map<nat, Txn>, tx: nat, t: Txn)
    requires AllApart(writers) && forall o :: o in writers && o != tx ==> WritersApart(t, writers[o])
    ensures AllApart(writers[tx := t])
  {
    forall o | o in writers && o != tx ensures WritersApart(writers[o], t) { ApartSymmetric(t, writers[o]); }
  }

  lemma InsertKeepsWriters(d: Db, tx: nat, e: Envelope)
    requires Writers(d.log, d.rows, d.next, d.writers) && (forall q :: q in d.rows ==> q < d.next)
    requires Enabled(d, Insert(tx, e))
    ensures Writers(d.log, d.rows, d.next + 1, d.writers[tx := Inserted(d.writers[tx], e, d.next)])
  {
    InsertKeepsApart(d, tx, e);
    forall o | o in d.writers { InsertKeepsWriter(d, tx, e, o); }
  }

  lemma InsertKeepsStreams(d: Db, d': Db, s: Step)
    requires (forall q :: q in d.rows ==> q < d.next) && (forall j :: StreamOk(d, j))
    requires Enabled(d, s) && s.Insert? && d' == Do(d, s)
    ensures forall j :: StreamOk(d', j)
  {
    forall j ensures StreamOk(d', j) { InsertKeepsStream(d, s, j); }
  }

  lemma InsertKeeps(d: Db, tx: nat, e: Envelope)
    requires Good(d) && Enabled(d, Insert(tx, e))
    ensures Good(Do(d, Insert(tx, e)))
  {
    var writers := d.writers[tx := Inserted(d.writers[tx], e, d.next)];
    InsertKeepsWriters(d, tx, e);
    InsertKeepsStreams(d, d.(writers := writers, next := d.next + 1), Insert(tx, e));
  }

  // --- A commit makes a writer's rows visible together.

  lemma CommitConserves(log: Stream, rows: Rows, next: nat, acked: Stream, t: Txn)
    requires Conserved(log, rows, next, acked, t.stream) && WriterOk(log, rows, next, t)
    ensures Conserved(log + t.events, rows + t.rows, next, acked, t.stream)
  {
    RowsOfUnion(rows, t.rows, t.stream, next);
  }

  lemma CommitKeepsClaim(log: Stream, rows: Rows, next: nat, t: Txn, c: Rows, j: JobId)
    requires WriterOk(log, rows, next, t) && ClaimOk(rows, c, j)
    ensures ClaimOk(rows + t.rows, c, j)
  {
    var both := rows + t.rows;
    forall p, q | InStream(c, p, j) && InStream(both - c.Keys, q, j) ensures p < q {
      if q in t.rows {
        assert InStream(rows, p, t.stream) && InStream(t.rows, q, t.stream);
      } else {
        assert InStream(rows - c.Keys, q, j);
      }
    }
  }

  lemma CommitKeepsStream(d: Db, s: Step, j: JobId)
    requires StreamOk(d, j) && Enabled(d, s) && s.Commit?
    requires var t := d.writers[s.tx]; WriterOk(At(d.log, t.stream), d.rows, d.next, t)
    ensures StreamOk(Do(d, s), j)
  {
    var t := d.writers[s.tx];
    var log := At(d.log, t.stream);
    if d.claim.Some? { CommitKeepsClaim(log, d.rows, d.next, t, d.claim.value.rows, j); }
    if j == t.stream {
      CommitConserves(log, d.rows, d.next, At(d.acked, j), t);
      NoSkipGrows(Of(d.handed, j), log, t.events);
    } else {
      RowsOfFrame(d.rows + t.rows, d.rows, j, d.next);
    }
  }

  lemma CommitKeepsWriter(log: map<JobId, Stream>, rows: Rows, next: nat, t: Txn, o: Txn)
    requires WriterOk(At(log, t.stream), rows, next, t) && WriterOk(At(log, o.stream), rows, next, o)
    requires WritersApart(t, o)
    ensures WriterOk(At(log[t.stream := At(log, t.stream) + t.events], o.stream), rows + t.rows, next, o)
  {
    forall p, q | InStream(rows + t.rows, p, o.stream) && InStream(o.rows, q, o.stream) ensures p < q {
      if p !in t.rows { assert InStream(rows, p, o.stream); }
    }
  }

  lemma CommitKeeps(d: Db, s: Step)
    requires Good(d) && Enabled(d, s) && s.Commit?
    ensures Good(Do(d, s))
  {
    var e, t := Do(d, s), d.writers[s.tx];
    forall tx | tx in e.writers ensures WriterOk(At(e.log, e.writers[tx].stream), e.rows, e.next, e.writers[tx]) {
      CommitKeepsWriter(d.log, d.rows, d.next, t, d.writers[tx]);
    }
    forall j ensures StreamOk(e, j) { CommitKeepsStream(d, s, j); }
  }

  lemma StepKeepsGood(d: Db, s: Step)
    requires Good(d) && Enabled(d, s)
    ensures Good(Do(d, s))
  {
    match s
    case BeginAppend(_, _) => BeginKeeps(d, s);
    case Insert(tx, e) => InsertKeeps(d, tx, e);
    case Commit(_) => CommitKeeps(d, s);
    case Rollback(_) => RollbackKeeps(d, s);
    case ClaimBatch(_) => ClaimKeeps(d, s);
    case HandOver => HandOverKeeps(d, s);
    case DeleteClaimed => DeleteKeeps(d, s);
    case AbandonClaim => AbandonKeeps(d, s);
  }

  // --- Whole runs.

  lemma {:induction false} RunKeepsGood(d: Db, run: seq<Step>)
    requires Good(d) && Schedule(d, run)
    ensures Good(Final(d, run))
    decreases |run|
  {
    if |run| > 0 {
      StepKeepsGood(d, run[0]);
      RunKeepsGood(Do(d, run[0]), run[1..]);
    }
  }

  /** After any schedule, acknowledged followed by visible is committed, and committed is in version order. */
  lemma {:induction false} OutboxConserves(run: seq<Step>, j: JobId)
    requires Schedule(FRESH, run)
    ensures var d := Final(FRESH, run);
            && At(d.acked, j) + RowsOf(d.rows, j, d.next) == At(d.log, j)
            && forall k :: 0 <= k < |At(d.log, j)| ==> At(d.log, j)[k].version == k + 1 && At(d.log, j)[k].streamId == j
  {
    FreshIsGood();
    RunKeepsGood(FRESH, run);
    assert StreamOk(Final(FRESH, run), j);
  }

  /** A sink that has seen no skip has seen every version up to the highest. */
  lemma {:induction false} SeenUpToHigh(hs: Stream, es: Stream, v: nat)
    requires NoSkip(hs, es) && 1 <= v <= High(hs)
    ensures High(hs) <= |es| && es[v - 1] in hs
    decreases |hs|
  {
    var init, last := hs[..|hs| - 1], hs[|hs| - 1];
    if v <= High(init) {
      SeenUpToHigh(init, es, v);
    } else if High(init) > 0 {
      SeenUpToHigh(init, es, High(init));
    }
    assert forall e :: e in init ==> e in hs;
  }

  lemma {:induction false} HighBounded(hs: Stream, es: Stream, i: nat)
    requires NoSkip(hs, es) && i < |hs|
    ensures 1 <= hs[i].version <= |es| && hs[i] == es[hs[i].version - 1] && hs[i].version <= High(hs[..i]) + 1
    decreases |hs|
  {
    var init := hs[..|hs| - 1];
    if i < |init| {
      HighBounded(init, es, i);
      assert init[..i] == hs[..i];
    }
  }

  lemma {:induction false} NoSkipPrefix(hs: Stream, es: Stream, i: nat)
    requires NoSkip(hs, es) && i <= |hs|
    ensures NoSkip(hs[..i], es)
    decreases |hs|
  {
    if i == |hs| {
      assert hs[..i] == hs;
    } else {
      NoSkipPrefix(hs[..|hs| - 1], es, i);
      assert hs[..|hs| - 1][..i] == hs[..i];
    }
  }

  lemma {:induction false} SeenInOrder(hs: Stream, es: Stream, i: nat)
    requires NoSkip(hs, es) && i < |hs|
    ensures 1 <= hs[i].version <= |es| && hs[i] == es[hs[i].version - 1]
    ensures forall k :: 0 <= k < hs[i].version - 1 ==> es[k] in hs[..i]
  {
    HighBounded(hs, es, i);
    NoSkipPrefix(hs, es, i);
    forall k | 0 <= k < hs[i].version - 1 ensures es[k] in hs[..i] { SeenUpToHigh(hs[..i], es, k + 1); }
  }

  /**
   * Whatever the sink was handed for a stream, failed passes included, is the committed event of that version,
   * and every earlier version was handed over before it.
   */
  lemma {:induction false} DeliveryNeverSkips(run: seq<Step>, j: JobId, i: nat)
    requires Schedule(FRESH, run) && i < |Of(Final(FRESH, run).handed, j)|
    ensures var d := Final(FRESH, run);
            var hs, log := Of(d.handed, j), At(d.log, j);
            && 1 <= hs[i].version <= |log| && hs[i] == log[hs[i].version - 1]
            && forall k :: 0 <= k < hs[i].version - 1 ==> log[k] in hs[..i]
  {
    FreshIsGood();
    RunKeepsGood(FRESH, run);
    var d := Final(FRESH, run);
    assert StreamOk(d, j);
    SeenInOrder(Of(d.handed, j), At(d.log, j), i);
  }

  /** Only delivered envelopes are ever deleted. */
  lemma {:induction false} AcknowledgedWasDelivered(run: seq<Step>, j: JobId, k: nat)
    requires Schedule(FRESH, run) && k < |At(Final(FRESH, run).acked, j)|
    ensures var d := Final(FRESH, run); At(d.acked, j)[k] in Of(d.handed, j)
  {
    FreshIsGood();
    RunKeepsGood(FRESH, run);
    var d := Final(FRESH, run);
    assert StreamOk(d, j);
    SeenUpToHigh(Of(d.handed, j), At(d.log, j), k + 1);
  }
}
