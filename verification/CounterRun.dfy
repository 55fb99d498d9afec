/** A run that an unguarded retry leads into corruption: the compaction through event 1 fails, the one
    through event 2 completes, and then the failed one is retried and completes too. */
module CounterRun {
  import opened Records
  import opened Turns
  import opened Transcript
  import opened Store
  import opened Ledger
  import opened Integrity
  import opened Replays
  import opened Protocol
  import opened Safety
  import opened Retries

  const SESSION: Id := 1
  const FIRST: Id := 4
  const SECOND: Id := 6

  function Said(id: Id, sequence: int): Event {
    Event(id, sequence, id, 0, 1, UserMessage, [], None, [])
  }

  const LOG := [Said(2, 1), Said(3, 2)]

  ghost function Log(events: seq<Event>, jobs: map<Id, Job>, used: set<Id>, workers: map<Id, Worker>): World {
    World(Db(map[SESSION := Session(0, None, events)], jobs, used), map[], workers, map[])
  }

  ghost function Queued(through: int): Job
    requires 0 < through <= 2
  {
    NewJob(SESSION, through, SourceOf(SESSION, LOG, through), 0)
  }

  ghost function GaveUp(): Job {
    FailureTransition(StartJob(Queued(1), 5, 0), [65], Permanent, 0)
  }

  ghost function WorkerOf(job: Id, token: Id, through: int): Worker
    requires 0 < through <= 2
  {
    Worker(job, token, through, SourceOf(SESSION, LOG, through))
  }

  /** One action possible in a world, and the world after it. */
  ghost predicate Leads(w: World, a: Action, w': World) {
    Enabled(w, a) && Step(w, a) == w'
  }

  lemma Logged()
    ensures var input := EventInput(UserMessage, [], None);
            var (w1, w2) := (Log([], map[], {1}, map[]), Log([Said(2, 1)], map[], {1, 2}, map[]));
            && Leads(EMPTY, Start(0, 1), w1)
            && Leads(w1, AppendOne(1, input, 0, 2, []), w2)
            && Leads(w2, AppendOne(1, input, 0, 3, []), Log(LOG, map[], {1, 2, 3}, map[]))
  {
    assert [] + [Said(2, 1)] == [Said(2, 1)] && [Said(2, 1)] + [Said(3, 2)] == LOG;
    assert LastSequence([]) == 0;
    LastSequenceIsLength([Said(2, 1)]);
    var a := AppendOne(1, EventInput(UserMessage, [], None), 0, 2, []);
    assert Step(Log([], map[], {1}, map[]), a).db.sessions == map[1 := Session(0, None, [Said(2, 1)])];
    var b := AppendOne(1, EventInput(UserMessage, [], None), 0, 3, []);
    assert Step(Log([Said(2, 1)], map[], {1, 2}, map[]), b).db.sessions == map[1 := Session(0, None, LOG)];
  }

  /** A claim when nothing has expired starts the only pending job. */
  lemma ClaimsOnly(db: Db, now: Time, uuid: Id, id: Id)
    requires forall a :: !IsExpired(db.jobs, now, a)
    requires IsEligible(db, now, id) && forall a | IsEligible(db, now, a) :: a == id
    ensures ClaimCompaction(db, now, uuid) ==
            (SetJob(db, id, StartJob(db.jobs[id], uuid, now)).(used := db.used + {uuid}),
             Some(Worker(id, uuid, db.jobs[id].through, db.jobs[id].source)))
  {
    assert RecoverUpTo(db.jobs, now, MAX_STALE_JOB_RECOVERIES) == db.jobs;
    assert db.(jobs := db.jobs) == db;
    assert IsOldestEligible(db, now, id);
  }

  lemma LogOk()
    ensures EventsOk(LOG, {1, 2, 3}) && Boundary(LOG, 1) && Boundary(LOG, 2)
  {
    SingleIsWhole(LOG[0]);
    SingleIsWhole(LOG[1]);
    WholeAppend([LOG[0]], [LOG[1]]);
    assert LOG == [LOG[0]] + [LOG[1]] && LOG[..1] == [LOG[0]] && LOG[..2] == LOG;
  }

  /** The boundary is queued when no other one is active and no summary exists. */
  lemma Queues(w: World, through: int, uuid: Id)
    requires 0 < through <= 2 && uuid !in w.db.used && w.db.sessions == map[SESSION := Session(0, None, LOG)]
    requires forall a | a in w.db.jobs :: w.db.jobs[a].state == Failed && w.db.jobs[a].through != through
    ensures Leads(w, Queue(SESSION, through, 0, uuid),
                  w.(db := w.db.(jobs := w.db.jobs[uuid := Queued(through)], used := w.db.used + {uuid})))
  {
    QueuesRow(w.db, through, uuid);
  }

  lemma Boundaries(through: int)
    requires 0 < through <= 2
    ensures AtSequence(LOG, through) == Some(LOG[through - 1])
    ensures TranscriptProvenance(SESSION, LOG, through) == Ok(SourceOf(SESSION, LOG, through))
  {
    LogOk();
    ProvenanceOk(SESSION, LOG, {1, 2, 3}, through);
    AtSequenceIsIndex(LOG, through);
  }

  lemma QueuesRow(db: Db, through: int, uuid: Id)
    requires 0 < through <= 2 && db.sessions == map[SESSION := Session(0, None, LOG)]
    requires forall a | a in db.jobs :: db.jobs[a].state == Failed && db.jobs[a].through != through
    ensures QueueCompaction(db, SESSION, through, 0, uuid).0 ==
            db.(jobs := db.jobs[uuid := Queued(through)], used := db.used + {uuid})
  {
    Boundaries(through);
    assert !BlockedByActive(db.jobs, SESSION, through);
    assert !SummaryAfter(LOG, db.jobs, SESSION, through);
    assert forall id :: !QueuedAt(db.jobs, SESSION, through, id);
  }

  ghost function Waiting(): World { Log(LOG, map[FIRST := Queued(1)], {1, 2, 3, 4}, map[]) }

  ghost function Working(): World {
    Log(LOG, map[FIRST := StartJob(Queued(1), 5, 0)], {1, 2, 3, 4, 5}, map[5 := WorkerOf(FIRST, 5, 1)])
  }

  ghost function Abandoned(): World {
    Log(LOG, map[FIRST := GaveUp()], {1, 2, 3, 4, 5}, map[5 := WorkerOf(FIRST, 5, 1)])
  }

  ghost function Requeued(): World {
    Log(LOG, map[FIRST := GaveUp(), SECOND := Queued(2)], {1, 2, 3, 4, 5, 6}, map[5 := WorkerOf(FIRST, 5, 1)])
  }

  lemma FirstQueued()
    ensures Leads(Log(LOG, map[], {1, 2, 3}, map[]), Queue(SESSION, 1, 0, FIRST), Waiting())
  {
    Queues(Log(LOG, map[], {1, 2, 3}, map[]), 1, FIRST);
    assert {1, 2, 3} + {FIRST} == {1, 2, 3, 4} && map[][FIRST := Queued(1)] == map[FIRST := Queued(1)];
  }

  lemma FirstClaimed()
    ensures Leads(Waiting(), ClaimJob(0, 5), Working())
  {
    ClaimsOnly(Waiting().db, 0, 5, FIRST);
  }

  lemma FirstFails()
    ensures Leads(Working(), FailJob(5, [65], Permanent, 0), Abandoned())
  {
    assert HoldsJob(Working().db, WorkerOf(FIRST, 5, 1));
    var error: Bytes := [65];
    assert error[0] in error && !Blank(error);
  }

  lemma SecondQueued()
    ensures Leads(Abandoned(), Queue(SESSION, 2, 0, SECOND), Requeued())
  {
    Queues(Abandoned(), 2, SECOND);
    assert map[FIRST := GaveUp()][SECOND := Queued(2)] == map[FIRST := GaveUp(), SECOND := Queued(2)];
  }

  ghost function Claimed(): World {
    Log(LOG, map[FIRST := GaveUp(), SECOND := StartJob(Queued(2), 7, 0)], {1, 2, 3, 4, 5, 6, 7},
        map[5 := WorkerOf(FIRST, 5, 1), 7 := WorkerOf(SECOND, 7, 2)])
  }

  lemma SecondClaimed()
    ensures Leads(Requeued(), ClaimJob(0, 7), Claimed())
  {
    ClaimsOnly(Requeued().db, 0, 7, SECOND);
    assert Step(Requeued(), ClaimJob(0, 7)).db.jobs == Claimed().db.jobs;
  }

  // ----- the run

  ghost predicate Arrives(run: seq<Action>, w: World) {
    Runs(EMPTY, run) && Final(EMPTY, run) == w
  }

  lemma {:induction false} RunSnoc(w: World, run: seq<Action>, a: Action)
    requires Runs(w, run) && Enabled(Final(w, run), a)
    ensures Runs(w, run + [a]) && Final(w, run + [a]) == Step(Final(w, run), a)
    decreases |run|
  {
    var longer := run + [a];
    if run == [] {
      assert longer == [a] && longer[1..] == [];
    } else {
      RunSnoc(Step(w, run[0]), run[1..], a);
      assert longer[1..] == run[1..] + [a] && longer[0] == run[0];
    }
  }

  lemma Then(run: seq<Action>, w: World, a: Action, w': World)
    requires Arrives(run, w) && Leads(w, a, w')
    ensures Arrives(run + [a], w')
  {
    RunSnoc(EMPTY, run, a);
  }

  lemma ArrivesOk(run: seq<Action>, w: World)
    requires Arrives(run, w)
    ensures WorldOk(w)
  {
    InitOk();
    RunKeeps(EMPTY, run);
  }

  const SAY := EventInput(UserMessage, [], None)

  /** Two messages, and a compaction through the first one that is queued, claimed and given up. */
  const GIVE_UP: seq<Action> :=
    [] + [Start(0, 1)] + [AppendOne(1, SAY, 0, 2, [])] + [AppendOne(1, SAY, 0, 3, [])]
    + [Queue(SESSION, 1, 0, FIRST)] + [ClaimJob(0, 5)] + [FailJob(5, [65], Permanent, 0)]

  /** A compaction through the second message that completes. */
  const SUCCEED: seq<Action> :=
    GIVE_UP + [Queue(SESSION, 2, 0, SECOND)] + [ClaimJob(0, 7)] + [CompleteJob(7, [], 0, 8, [])]

  /** The first compaction again. */
  const RETRY_FIRST: seq<Action> :=
    SUCCEED + [RetryJob(FIRST)] + [ClaimJob(0, 9)] + [CompleteJob(9, [], 0, 10, [])]

  lemma ArriveLogged() returns (run: seq<Action>)
    ensures run == [] + [Start(0, 1)] + [AppendOne(1, SAY, 0, 2, [])] + [AppendOne(1, SAY, 0, 3, [])]
    ensures Arrives(run, Log(LOG, map[], {1, 2, 3}, map[]))
  {
    Logged();
    var w1, w2 := Log([], map[], {1}, map[]), Log([Said(2, 1)], map[], {1, 2}, map[]);
    Then([], EMPTY, Start(0, 1), w1);
    run := [] + [Start(0, 1)];
    Then(run, w1, AppendOne(1, SAY, 0, 2, []), w2);
    run := run + [AppendOne(1, SAY, 0, 2, [])];
    Then(run, w2, AppendOne(1, SAY, 0, 3, []), Log(LOG, map[], {1, 2, 3}, map[]));
    run := run + [AppendOne(1, SAY, 0, 3, [])];
  }

  lemma ArriveAbandoned()
    ensures Arrives(GIVE_UP, Abandoned())
  {
    var run := ArriveLogged();
    FirstQueued();
    Then(run, Log(LOG, map[], {1, 2, 3}, map[]), Queue(SESSION, 1, 0, FIRST), Waiting());
    run := run + [Queue(SESSION, 1, 0, FIRST)];
    FirstClaimed();
    Then(run, Waiting(), ClaimJob(0, 5), Working());
    run := run + [ClaimJob(0, 5)];
    FirstFails();
    Then(run, Working(), FailJob(5, [65], Permanent, 0), Abandoned());
  }

  lemma ArriveClaimed() returns (run: seq<Action>)
    ensures run == GIVE_UP + [Queue(SESSION, 2, 0, SECOND)] + [ClaimJob(0, 7)]
    ensures Arrives(run, Claimed())
  {
    ArriveAbandoned();
    SecondQueued();
    Then(GIVE_UP, Abandoned(), Queue(SESSION, 2, 0, SECOND), Requeued());
    run := GIVE_UP + [Queue(SESSION, 2, 0, SECOND)];
    SecondClaimed();
    Then(run, Requeued(), ClaimJob(0, 7), Claimed());
    run := run + [ClaimJob(0, 7)];
  }

  /** The second compaction has completed; the first is still failed. */
  ghost predicate SecondDone(w: World) {
    && w.db.jobs.Keys == {FIRST, SECOND} && w.db.used == {1, 2, 3, 4, 5, 6, 7, 8}
    && w.db.jobs[FIRST] == GaveUp() && IsCompleted(w.db.jobs, SESSION, SECOND)
    && SESSION in w.db.sessions && w.db.sessions[SESSION].claim.None?
    && |w.db.sessions[SESSION].events| == 3 && End(w.db.sessions[SESSION].events, w.db.jobs[SECOND]) == 3
    && forall e | e in w.db.sessions[SESSION].events :: e.text == []
  }

  /** A completion with an empty summary, on the rows. */
  lemma FinishesBlank(db: Db, wk: Worker, uuid: Id)
    requires DbOk(db) && HoldsJob(db, wk) && WorkerLive(db.jobs[wk.job], 0) && Idle(db, 0, wk.job, 1)
    requires wk.through == db.jobs[wk.job].through >= 0 && wk.source == db.jobs[wk.job].source
    requires forall e | e in db.sessions[db.jobs[wk.job].session].events :: e.text == []
    ensures var db' := CompleteCompaction(db, wk, [], 0, uuid, []).0;
            && Finishes(db, db', wk.job) && db'.used == db.used + {uuid}
            && forall e | e in db'.sessions[db.jobs[wk.job].session].events :: e.text == []
  {
    CompletionFinishes(db, wk, 0, uuid);
    CompleteWrites(db, wk, [], 0, uuid, []);
  }

  lemma CompletesIn(w: World, token: Id, uuid: Id)
    requires token in w.workers && uuid !in w.db.used && 0 <= w.workers[token].through
    ensures Leads(w, CompleteJob(token, [], 0, uuid, []),
                  w.(db := CompleteCompaction(w.db, w.workers[token], [], 0, uuid, []).0))
  {
  }

  lemma CompleteSecond(w: World) returns (w': World)
    requires w == Claimed() && DbOk(w.db)
    ensures Leads(w, CompleteJob(7, [], 0, 8, []), w') && SecondDone(w')
  {
    CompletesIn(w, 7, 8);
    SecondReady(w.db);
    FinishesBlank(w.db, WorkerOf(SECOND, 7, 2), 8);
    w' := w.(db := CompleteCompaction(w.db, w.workers[7], [], 0, 8, []).0);
    assert {1, 2, 3, 4, 5, 6, 7} + {8} == {1, 2, 3, 4, 5, 6, 7, 8};
  }

  lemma SecondReady(db: Db)
    requires db == Claimed().db
    ensures HoldsJob(db, WorkerOf(SECOND, 7, 2)) && WorkerLive(db.jobs[SECOND], 0) && Idle(db, 0, SECOND, 1)
    ensures db.sessions[SESSION].events == LOG && |LOG| == 2 && forall e | e in LOG :: e.text == []
  {
  }

  lemma ArriveSecondDone() returns (w: World)
    ensures Arrives(SUCCEED, w) && SecondDone(w)
  {
    var run := ArriveClaimed();
    ArrivesOk(run, Claimed());
    w := CompleteSecond(Claimed());
    Then(run, Claimed(), CompleteJob(7, [], 0, 8, []), w);
  }

  /** Both compactions have their worker or their summary, with the retried one running. */
  ghost predicate FirstAgain(w: World) {
    && w.db.jobs.Keys == {FIRST, SECOND} && 9 in w.workers && w.workers[9] == WorkerOf(FIRST, 9, 1) && 10 !in w.db.used
    && w.db.jobs[FIRST] == StartJob(Queued(1), 9, 0) && IsCompleted(w.db.jobs, SESSION, SECOND)
    && SESSION in w.db.sessions && w.db.sessions[SESSION].claim.None?
    && |w.db.sessions[SESSION].events| == 3 && End(w.db.sessions[SESSION].events, w.db.jobs[SECOND]) == 3
    && forall e | e in w.db.sessions[SESSION].events :: e.text == []
  }

  lemma RetriesIn(w: World)
    requires SecondDone(w)
    ensures Leads(w, RetryJob(FIRST), w.(db := RetryFailedJob(w.db, FIRST).0))
  {
  }

  lemma ClaimsIn(w: World, id: Id, uuid: Id)
    requires uuid !in w.db.used && (forall a :: !IsExpired(w.db.jobs, 0, a))
    requires IsEligible(w.db, 0, id) && forall a | IsEligible(w.db, 0, a) :: a == id
    ensures Leads(w, ClaimJob(0, uuid),
                  w.(db := SetJob(w.db, id, StartJob(w.db.jobs[id], uuid, 0)).(used := w.db.used + {uuid}),
                     workers := w.workers[uuid := Worker(id, uuid, w.db.jobs[id].through, w.db.jobs[id].source)]))
  {
    ClaimsOnly(w.db, 0, uuid, id);
  }

  lemma RetryFirst(w: World) returns (retried: World, w': World)
    requires SecondDone(w)
    ensures Leads(w, RetryJob(FIRST), retried) && Leads(retried, ClaimJob(0, 9), w') && FirstAgain(w')
  {
    RetriesIn(w);
    retried := w.(db := RetryFailedJob(w.db, FIRST).0);
    var j := retried.db.jobs[FIRST];
    ClaimsIn(retried, FIRST, 9);
    w' := retried.(db := SetJob(retried.db, FIRST, StartJob(j, 9, 0)).(used := retried.db.used + {9}),
                   workers := retried.workers[9 := Worker(FIRST, 9, j.through, j.source)]);
  }

  lemma CompleteFirst(w: World) returns (w': World)
    requires FirstAgain(w) && WorldOk(w)
    ensures Leads(w, CompleteJob(9, [], 0, 10, []), w') && SecondSummaryInTail(w'.db, SESSION)
    ensures |w'.db.sessions[SESSION].events| == 4 && forall e | e in w'.db.sessions[SESSION].events :: e.text == []
  {
    CompletesIn(w, 9, 10);
    FinishesBlank(w.db, WorkerOf(FIRST, 9, 1), 10);
    w' := w.(db := CompleteCompaction(w.db, w.workers[9], [], 0, 10, []).0);
    DbComplete(w.db, w.workers[9], [], 0, 10, []);
    FinishLate(w.db, w'.db, FIRST, SECOND);
  }

  /** The whole run is possible and ends in a session that replay rejects as corrupt. */
  lemma UnguardedRetryCorrupts()
    ensures Runs(EMPTY, RETRY_FIRST)
    ensures var db := Final(EMPTY, RETRY_FIRST).db;
            SESSION in db.sessions && LoadReplay(db, SESSION) == Err(Corrupt(SecondSummary))
  {
    var done := ArriveSecondDone();
    var retried, again := RetryFirst(done);
    Then(SUCCEED, done, RetryJob(FIRST), retried);
    Then(SUCCEED + [RetryJob(FIRST)], retried, ClaimJob(0, 9), again);
    ArrivesOk(SUCCEED + [RetryJob(FIRST)] + [ClaimJob(0, 9)], again);
    var end := CompleteFirst(again);
    Then(SUCCEED + [RetryJob(FIRST)] + [ClaimJob(0, 9)], again, CompleteJob(9, [], 0, 10, []), end);
    ArrivesOk(RETRY_FIRST, end);
    SecondSummaryIsCorrupt(end.db, SESSION);
  }
}
