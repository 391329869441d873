/** Load-decide-append under optimistic concurrency is equivalent to deciding and appending at once. */
module Serializability {
  import opened Types
  import opened Jobs
  import opened Stores
  import opened Consistency
  import opened UseCases
  import opened Broker

  ghost function ResultOf(w: World, a: Action): Result<AckOutcome, AckError>
    requires Guard(w, a) && a.Complete?
  {
    Finish(w.inner, w.sessions[a.session].snapshot, a.command, a.now, a.seed, a.at, a.ids).1
  }

  /**
   * Whatever ran since the load, a command that succeeds was decided on exactly the stream it
   * appends to; one that decided on an older stream is refused by the version check.
   */
  lemma DecidedOnCurrent(w: World, a: Action)
    requires Sound(w) && Guard(w, a) && a.Complete?
    ensures w.sessions[a.session].job in w.inner.streams && Fold(w.sessions[a.session].snapshot).Ok?
    ensures var session := w.sessions[a.session];
            var d := DecideCommand(Fold(session.snapshot).value, a.command, a.now, a.seed);
            match d
            case Err(e) => ResultOf(w, a) == Err(AckDomain(e))
            case Ok(d) =>
              if session.snapshot == w.inner.streams[session.job] then ResultOf(w, a) == Ok(d.outcome)
              else ResultOf(w, a) == Err(AckStore(VersionConflict(session.job, |session.snapshot|)))
  {
    var s, session := w.inner, w.sessions[a.session];
    SnapshotFolds(s, session);
    var job := Fold(session.snapshot).value;
    var es := s.streams[session.job];
    if session.snapshot != es {
      assert |session.snapshot| < |es|;
    } else if DecideCommand(job, a.command, a.now, a.seed).Ok? {
      var d := DecideCommand(job, a.command, a.now, a.seed).value;
      DecisionIsLegal(job, a.command, a.now, a.seed);
      LegalBatchFolds(job, d.events);
      AppendAccepts(s, session.job, BatchFor(es, session.job, d.events, a.at, a.ids), AfterBatch(job, d.events));
    }
  }

  /** A command that succeeds lengthens its job's stream. */
  lemma SuccessGrows(w: World, a: Action)
    requires Sound(w) && Guard(w, a) && a.Complete? && ResultOf(w, a).Ok?
    ensures var j := w.sessions[a.session].job;
            && w.sessions[a.session].snapshot == StreamOf(w.inner, j)
            && j in Exec(w, a).inner.streams
            && |Exec(w, a).inner.streams[j]| > |w.sessions[a.session].snapshot|
  {
    DecidedOnCurrent(w, a);
    StepEffect(w, a);
    SnapshotFolds(w.inner, w.sessions[a.session]);
    DecisionIsLegal(Fold(w.sessions[a.session].snapshot).value, a.command, a.now, a.seed);
  }

  /** A command whose stream has moved on since its load is refused, and refusal changes nothing. */
  lemma StaleIsRefused(w: World, a: Action)
    requires Sound(w) && Guard(w, a) && a.Complete?
    requires w.sessions[a.session].snapshot != StreamOf(w.inner, w.sessions[a.session].job)
    ensures ResultOf(w, a).Err? && Exec(w, a).inner == w.inner
  {
    DecidedOnCurrent(w, a);
  }

  /** Of two commands holding the same snapshot at most one appends, however long the other waits. */
  lemma {:induction false} OnlyOneWriterWins(w: World, winner: Action, between: seq<Action>, loser: Action)
    requires Sound(w) && Guard(w, winner) && winner.Complete? && ResultOf(w, winner).Ok?
    requires Legal(Exec(w, winner), between)
    requires Guard(After(Exec(w, winner), between), loser) && loser.Complete?
    requires After(Exec(w, winner), between).sessions[loser.session] == w.sessions[winner.session]
    ensures ResultOf(After(Exec(w, winner), between), loser).Err?
    ensures Exec(After(Exec(w, winner), between), loser).inner == After(Exec(w, winner), between).inner
  {
    var w1 := Exec(w, winner);
    SuccessGrows(w, winner);
    StepKeepsSound(w, winner);
    RunKeepsSound(w1, between);
    StaleIsRefused(After(w1, between), loser);
  }

  /** A command that is refused, for whatever reason, changes nothing. */
  lemma RefusalChangesNothing(w: World, a: Action)
    requires Sound(w) && Guard(w, a) && a.Complete? && ResultOf(w, a).Err?
    ensures Exec(w, a).inner == w.inner
  {
  }

  // --- What a run did, as its callers see it.

  /** Everything but loads and refused commands. */
  ghost predicate Acts(w: World, a: Action)
    requires Guard(w, a)
  {
    !a.Begin? && (a.Complete? ==> ResultOf(w, a).Ok?)
  }

  /** A step that acted, what a command was told, and the store it left. */
  datatype Record = Record(action: Action, told: Option<AckOutcome>, store: Inner)

  ghost function RecordsOf(w: World, a: Action): seq<Record>
    requires Guard(w, a)
  {
    if Acts(w, a) then [Record(a, if a.Complete? then Some(ResultOf(w, a).value) else None, Exec(w, a).inner)] else []
  }

  ghost function History(w: World, run: seq<Action>): seq<Record>
    requires Legal(w, run)
    decreases |run|
  {
    if |run| == 0 then [] else RecordsOf(w, run[0]) + History(Exec(w, run[0]), run[1..])
  }

  // --- The serial form of a run.

  /** Every command directly follows its load, and none is refused. */
  ghost predicate Serial(w: World, run: seq<Action>)
    requires Legal(w, run)
    decreases |run|
  {
    |run| > 0 ==>
      && (run[0].Complete? ==> ResultOf(w, run[0]).Ok?)
      && (|run| > 1 && run[1].Complete? ==> run[0].Begin? && run[0].session == run[1].session)
      && Serial(Exec(w, run[0]), run[1..])
  }

  /** One step made serial: loads wait for their command, refused commands are dropped. */
  ghost function SerialStep(w: World, a: Action): seq<Action>
    requires Guard(w, a)
  {
    if !Acts(w, a) then []
    else if a.Complete? then [Begin(a.session, w.sessions[a.session].job), a]
    else [a]
  }

  ghost function Serialized(w: World, run: seq<Action>): seq<Action>
    requires Legal(w, run)
    decreases |run|
  {
    if |run| == 0 then [] else SerialStep(w, run[0]) + Serialized(Exec(w, run[0]), run[1..])
  }

  /** The same store and opening order with no command in flight. */
  function Quiet(w: World): World { w.(sessions := map[]) }

  /** `run` is a serial run from w to w1 with the given history. */
  ghost predicate SerialRun(w: World, run: seq<Action>, w1: World, history: seq<Record>) {
    && Legal(w, run) && Serial(w, run) && After(w, run) == w1 && History(w, run) == history
    && (|run| > 0 ==> !run[0].Complete?)
  }

  /** A step other than a command in front of a serial run. */
  lemma SerialCons(w: World, a: Action, rest: seq<Action>, w1: World, history: seq<Record>)
    requires Guard(w, a) && !a.Complete? && SerialRun(Exec(w, a), rest, w1, history)
    ensures SerialRun(w, [a] + rest, w1, RecordsOf(w, a) + history)
  {
    RunCons(w, a, Exec(w, a), rest);
    assert ([a] + rest)[1..] == rest;
  }

  /** A load and its accepted command in front of a serial run. */
  lemma SerialPair(w: World, b: Action, a: Action, rest: seq<Action>, w1: World, history: seq<Record>)
    requires Guard(w, b) && b.Begin? && Guard(Exec(w, b), a) && a.Complete? && a.session == b.session
    requires ResultOf(Exec(w, b), a).Ok? && SerialRun(Exec(Exec(w, b), a), rest, w1, history)
    ensures SerialRun(w, [b, a] + rest, w1, RecordsOf(Exec(w, b), a) + history)
  {
    var mid := Exec(w, b);
    CommandCons(mid, a, rest, w1, history);
    LoadCons(w, b, [a] + rest, w1, RecordsOf(mid, a) + history);
    assert [b, a] + rest == [b] + ([a] + rest);
  }

  lemma {:induction false} CommandCons(w: World, a: Action, rest: seq<Action>, w1: World, history: seq<Record>)
    requires Guard(w, a) && a.Complete? && ResultOf(w, a).Ok? && SerialRun(Exec(w, a), rest, w1, history)
    ensures var run := [a] + rest;
            && Legal(w, run) && Serial(w, run) && After(w, run) == w1 && History(w, run) == RecordsOf(w, a) + history
  {
    RunCons(w, a, Exec(w, a), rest);
    assert ([a] + rest)[1..] == rest;
  }

  lemma {:induction false} LoadCons(w: World, b: Action, rest: seq<Action>, w1: World, history: seq<Record>)
    requires Guard(w, b) && b.Begin? && |rest| > 0 && rest[0].Complete? && rest[0].session == b.session
    requires Legal(Exec(w, b), rest) && Serial(Exec(w, b), rest)
    requires After(Exec(w, b), rest) == w1 && History(Exec(w, b), rest) == history
    ensures SerialRun(w, [b] + rest, w1, history)
  {
    RunCons(w, b, Exec(w, b), rest);
    assert ([b] + rest)[1..] == rest;
  }

  /** With only its own session open, and that session current, a command does what it did before. */
  lemma AloneDoesTheSame(w: World, a: Action)
    requires Guard(w, a) && a.Complete?
    ensures var alone := World(w.inner, map[a.session := w.sessions[a.session]], w.order);
            && Guard(alone, a) && Exec(alone, a) == Quiet(Exec(w, a)) && ResultOf(alone, a) == ResultOf(w, a)
            && RecordsOf(alone, a) == RecordsOf(w, a)
  {
    var alone := World(w.inner, map[a.session := w.sessions[a.session]], w.order);
    assert alone.sessions - {a.session} == map[];
  }

  lemma ReloadIsAlone(w: World, a: Action)
    requires Sound(w) && Guard(w, a) && a.Complete? && ResultOf(w, a).Ok?
    ensures var begin := Begin(a.session, w.sessions[a.session].job);
            Exec(Quiet(w), begin) == World(w.inner, map[a.session := w.sessions[a.session]], w.order)
  {
    DecidedOnCurrent(w, a);
  }

  lemma SerialCommand(w: World, a: Action, rest: seq<Action>, w1: World, history: seq<Record>)
    requires Sound(w) && Guard(w, a) && a.Complete? && ResultOf(w, a).Ok?
    requires SerialRun(Quiet(Exec(w, a)), rest, w1, history)
    ensures SerialRun(Quiet(w), SerialStep(w, a) + rest, w1, RecordsOf(w, a) + history)
  {
    AloneDoesTheSame(w, a);
    ReloadIsAlone(w, a);
    SerialPair(Quiet(w), Begin(a.session, w.sessions[a.session].job), a, rest, w1, history);
  }

  lemma QuietDoesTheSame(w: World, a: Action)
    requires Guard(w, a) && !a.Begin? && !a.Complete?
    ensures Guard(Quiet(w), a) && Exec(Quiet(w), a) == Quiet(Exec(w, a)) && RecordsOf(Quiet(w), a) == RecordsOf(w, a)
  {
  }

  lemma SerialStepSimulates(w: World, a: Action, rest: seq<Action>, w1: World, history: seq<Record>)
    requires Sound(w) && Guard(w, a) && SerialRun(Quiet(Exec(w, a)), rest, w1, history)
    ensures SerialRun(Quiet(w), SerialStep(w, a) + rest, w1, RecordsOf(w, a) + history)
  {
    if !Acts(w, a) {
      assert [] + rest == rest && [] + history == history;
      assert Quiet(Exec(w, a)) == Quiet(w);
    } else if a.Complete? {
      SerialCommand(w, a, rest, w1, history);
    } else {
      QuietDoesTheSame(w, a);
      SerialCons(Quiet(w), a, rest, w1, history);
    }
  }

  /**
   * Every interleaved run does what its serial form does: dropping the refused commands and loading each
   * accepted one just before it appends gives a run in which every command is accepted, with the same
   * steps in the same order, the same answers, the same store after each of them, and the same end.
   */
  lemma {:induction false} RunsSerialize(w: World, run: seq<Action>)
    requires Sound(w) && Legal(w, run)
    ensures SerialRun(Quiet(w), Serialized(w, run), Quiet(After(w, run)), History(w, run))
    decreases |run|
  {
    if |run| > 0 {
      var next := Exec(w, run[0]);
      StepKeepsSound(w, run[0]);
      RunsSerialize(next, run[1..]);
      SerialStepSimulates(w, run[0], Serialized(next, run[1..]), Quiet(After(w, run)), History(next, run[1..]));
    }
  }
}
