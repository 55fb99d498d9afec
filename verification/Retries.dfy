/** Retrying a failed compaction: the step repeats neither of the tests that queueing makes, and the
    log can be led into a state that replay rejects exactly when one of those tests would fail. */
module Retries {
  import opened Records
  import opened Turns
  import opened Transcript
  import opened Store
  import opened Ledger
  import opened Integrity
  import opened Replays
  import opened Protocol
  import opened Safety

  // ----- the state that replay rejects

  /** After the boundary of the latest completed compaction lies a summary other than its own. */
  ghost predicate SecondSummaryInTail(db: Db, session: Id) {
    && session in db.sessions
    && var events := db.sessions[session].events;
       exists top, i ::
         && IsTop(db.jobs, session, top)
         && 0 <= db.jobs[top].through <= i < |events| && events[i].kind == Summary
         && i != SummarySlot(events, db.jobs[top])
  }

  /** The replay loop stops at the first summary it meets after the leading one, if it gets there. */
  lemma {:induction false} CollectMeetsSummary(rows: seq<Event>, taken: seq<Event>, bytes: nat)
    requires forall e | e in rows :: DecodesEvent(e)
    requires exists e :: e in rows && e.kind == Summary
    ensures Collect(rows, taken, bytes, true) in {Err(Corrupt(SecondSummary)), Err(TooLarge)}
    ensures |taken| + |rows| <= MAX_REPLAY_EVENTS && bytes + TextBytesOf(rows) <= MAX_REPLAY_BYTES ==>
              Collect(rows, taken, bytes, true) == Err(Corrupt(SecondSummary))
    decreases |rows|
  {
    assert rows[0] in rows;
    if rows[0].kind != Summary {
      var e :| e in rows && e.kind == Summary;
      assert e in rows[1..];
      CollectMeetsSummary(rows[1..], taken + [rows[0]], bytes + |rows[0].text|);
    }
  }

  /** Every check on a completed compaction passes, and then the loop meets the other summary. */
  lemma ReplayMeetsSummary(session: Id, events: seq<Event>, id: Id, j: Job, summary: Event, tail: seq<Event>)
    requires ChecksStart(session, events, id, j, summary, tail) && DecodesEvent(summary)
    requires forall e | e in tail :: DecodesEvent(e)
    requires exists e :: e in tail && e.kind == Summary
    ensures ReplayWith(session, events, id, j) in {Err(Corrupt(SecondSummary)), Err(TooLarge)}
    ensures ReplayFits([summary] + tail) ==> ReplayWith(session, events, id, j) == Err(Corrupt(SecondSummary))
  {
    CollectTakesAll([summary], [], 0, false);
    TotalCons(summary, []);
    TotalCons(summary, tail);
    assert [] + [summary] == [summary];
    if Collect([summary], [], 0, false).Ok? { CollectMeetsSummary(tail, [summary], |summary.text|); }
  }

  /** Rows that decode, with another summary among them; they fit if the log is small. */
  ghost predicate TailHolds(events: seq<Event>, i: nat, summary: Event, tail: seq<Event>)
    requires i < |events|
  {
    && DecodesEvent(summary) && (forall e | e in tail :: DecodesEvent(e)) && events[i] in tail
    && ((forall e | e in events :: e.text == []) && |events| <= MAX_REPLAY_EVENTS ==> ReplayFits([summary] + tail))
  }

  /** The rows a replay reads: everything after a boundary, with the event at `k` in front. */
  lemma TailParts(events: seq<Event>, t: nat, k: nat, i: nat, summary: Event, tail: seq<Event>)
    requires t <= k < |events| && t <= i < |events| && i != k
    requires summary == events[k] && tail == events[t..k] + events[k + 1..]
    requires forall e | e in events :: DecodesEvent(e)
    ensures TailHolds(events, i, summary, tail)
  {
    if (forall e | e in events :: e.text == []) && |events| <= MAX_REPLAY_EVENTS { EmptyFits(summary, tail, events); }
    if i < k { assert tail[i - t] == events[i]; } else { assert tail[i - t - 1] == events[i]; }
  }

  lemma EmptyFits(first: Event, tail: seq<Event>, events: seq<Event>)
    requires first in events && (forall e | e in tail :: e in events) && (forall e | e in events :: e.text == [])
    requires |tail| < |events| <= MAX_REPLAY_EVENTS
    ensures ReplayFits([first] + tail)
  {
    EmptyTexts([first] + tail);
  }

  lemma SecondSummaryStopsReplay(session: Id, events: seq<Event>, used: set<Id>, id: Id, j: Job, i: nat)
    requires EventsOk(events, used) && JobOk(session, events, id, j) && j.state == Completed
    requires j.through <= i < |events| && i != SummarySlot(events, j) && events[i].kind == Summary
    ensures ReplayWith(session, events, id, j) in {Err(Corrupt(SecondSummary)), Err(TooLarge)}
    ensures (forall e | e in events :: e.text == []) && |events| <= MAX_REPLAY_EVENTS ==>
              ReplayWith(session, events, id, j) == Err(Corrupt(SecondSummary))
  {
    ProvenanceOk(session, events, used, j.through);
    var summary, tail := RowsReplayed(session, events, id, j, i);
    ReplayMeetsSummary(session, events, id, j, summary, tail);
  }

  /** The rows that a replay of a completed compaction reads, among them the other summary. */
  lemma RowsReplayed(session: Id, events: seq<Event>, id: Id, j: Job, i: nat) returns (summary: Event, tail: seq<Event>)
    requires Contiguous(events) && Distinct(events) && DecodesJob(j) && SummaryOk(events, id, j)
    requires TranscriptProvenance(session, events, j.through) == Ok(j.source)
    requires forall e | e in events :: DecodesEvent(e)
    requires j.through <= i < |events| && i != SummarySlot(events, j) && events[i].kind == Summary
    ensures ChecksStart(session, events, id, j, summary, tail) && TailHolds(events, i, summary, tail)
  {
    summary, tail := CompletedStart(session, events, id, j);
    TailParts(events, j.through, SummarySlot(events, j), i, summary, tail);
  }

  /** Replay of such a state answers the second summary, unless a size limit stops it first. */
  lemma SecondSummaryIsCorrupt(db: Db, session: Id)
    requires DbOk(db) && SecondSummaryInTail(db, session)
    ensures LoadReplay(db, session) in {Err(Corrupt(SecondSummary)), Err(TooLarge)}
    ensures (forall e | e in db.sessions[session].events :: e.text == [])
            && |db.sessions[session].events| <= MAX_REPLAY_EVENTS ==>
              LoadReplay(db, session) == Err(Corrupt(SecondSummary))
  {
    assert SessionOk(db, session);
    var events := db.sessions[session].events;
    var top, i :| IsTop(db.jobs, session, top) && 0 <= db.jobs[top].through <= i < |events|
                  && events[i].kind == Summary && i != SummarySlot(events, db.jobs[top]);
    LoadsTop(db, session, top);
    JobFacts(db, top);
    SecondSummaryStopsReplay(session, events, db.used, top, db.jobs[top], i);
  }

  lemma {:induction false} EmptyTexts(rows: seq<Event>)
    requires forall e | e in rows :: e.text == []
    ensures TextBytesOf(rows) == 0
  {
    if rows != [] {
      assert rows[0] in rows;
      EmptyTexts(rows[1..]);
    }
  }

  /** Replay of any well-formed session: with a second summary in its tail it is refused, and without one
      it answers the effective transcript or its size limit. */
  lemma ReplayExactly(db: Db, session: Id)
    requires DbOk(db) && session in db.sessions
    ensures ReplaysAs(db, session)
  {
    assert SessionOk(db, session);
    var events := db.sessions[session].events;
    if SecondSummaryInTail(db, session) {
      SecondSummaryIsCorrupt(db, session);
    } else if id :| IsTop(db.jobs, session, id) {
      LoadsTop(db, session, id);
      JobFacts(db, id);
      var j := db.jobs[id];
      forall i | j.through <= i < |events| ensures events[i].kind == Summary <==> i == SummarySlot(events, j) {
        assert events[i].kind == Summary || i != SummarySlot(events, j);
      }
      WithJob(session, events, db.used, id, j);
    } else {
      forall a ensures !IsCompleted(db.jobs, session, a) {
        if IsCompleted(db.jobs, session, a) { TopExists(db.jobs, session, a); }
      }
      WithoutJob(session, events, db.used, db.jobs);
    }
  }

  /** The only corruption that replay reports is a second summary in the tail. */
  ghost predicate ReplaysAs(db: Db, session: Id)
    requires session in db.sessions
  {
    if SecondSummaryInTail(db, session) then LoadReplay(db, session) in {Err(Corrupt(SecondSummary)), Err(TooLarge)}
    else
      var (events, top) := (db.sessions[session].events, TopJob(db.jobs, session));
      && (top.Some? ==> 0 < top.value.through <= SummarySlot(events, top.value))
      && WholeTurns(Effective(events, top))
      && LoadReplay(db, session) ==
         if ReplayFits(Effective(events, top))
         then Ok(Replay(Effective(events, top), |events|, if top.Some? then Some(top.value.through) else None))
         else Err(TooLarge)
  }

  /** In every run of the code as it is, retries unguarded, replay of a session is refused for a second
      summary in its tail and for no other corruption. */
  lemma EveryRunReplays(actions: seq<Action>, session: Id)
    requires Runs(EMPTY, actions) && session in Final(EMPTY, actions).db.sessions
    ensures ReplaysAs(Final(EMPTY, actions).db, session)
  {
    InitOk();
    RunKeeps(EMPTY, actions);
    ReplayExactly(Final(EMPTY, actions).db, session);
  }

  /** Two summaries at or after every completed boundary put one of them in the tail of the other. */
  lemma TwoLateSummaries(db: Db, session: Id, a: Id, b: Id)
    requires DbOk(db) && session in db.sessions && a != b
    requires IsCompleted(db.jobs, session, a) && IsCompleted(db.jobs, session, b)
    requires forall c | IsTop(db.jobs, session, c) ::
               var events := db.sessions[session].events;
               && db.jobs[c].through <= SummarySlot(events, db.jobs[a])
               && db.jobs[c].through <= SummarySlot(events, db.jobs[b])
    ensures SecondSummaryInTail(db, session)
  {
    var events := db.sessions[session].events;
    TopExists(db.jobs, session, a);
    var top :| IsTop(db.jobs, session, top);
    JobFacts(db, top);
    JobFacts(db, a);
    JobFacts(db, b);
    var x, y := SummarySlot(events, db.jobs[a]), SummarySlot(events, db.jobs[b]);
    assert x != y;
    var i := if x == SummarySlot(events, db.jobs[top]) then y else x;
    assert IsTop(db.jobs, session, top) && events[i].kind == Summary;
  }

  /** The chain leaves no room for such a state. */
  lemma ChainsExcludeSecondSummary(db: Db, session: Id)
    requires DbOk(db) && ChainsOk(db)
    ensures !SecondSummaryInTail(db, session)
  {
    if SecondSummaryInTail(db, session) {
      assert SessionOk(db, session) && ChainAt(db, session);
      var events := db.sessions[session].events;
      var top, i :| IsTop(db.jobs, session, top) && 0 <= db.jobs[top].through <= i < |events|
                    && events[i].kind == Summary && i != SummarySlot(events, db.jobs[top]);
      TailHasOneSummary(session, events, db.jobs, top);
    }
  }

  // ----- reachability

  /** Some run in which every retry is guarded leads from one world to another. */
  ghost predicate Reaches(w: World, w': World) {
    exists run :: Runs(w, run) && GuardedRun(w, run) && Final(w, run) == w'
  }

  lemma ReachesItself(w: World)
    ensures Reaches(w, w)
  {
    assert Runs(w, []) && GuardedRun(w, []) && Final(w, []) == w;
  }

  lemma ReachesBefore(w: World, a: Action, w': World)
    requires Enabled(w, a) && Guarded(w, a) && Reaches(Step(w, a), w')
    ensures Reaches(w, w')
  {
    var rest :| Runs(Step(w, a), rest) && GuardedRun(Step(w, a), rest) && Final(Step(w, a), rest) == w';
    var run := [a] + rest;
    assert run[1..] == rest;
    assert Runs(w, run) && GuardedRun(w, run) && Final(w, run) == w';
  }

  lemma {:induction false} ReachesTrans(w: World, run: seq<Action>, w': World)
    requires Runs(w, run) && GuardedRun(w, run) && Reaches(Final(w, run), w')
    ensures Reaches(w, w')
    decreases |run|
  {
    if run != [] {
      ReachesTrans(Step(w, run[0]), run[1..], w');
      ReachesBefore(w, run[0], w');
    }
  }

  lemma ReachesOn(w: World, w': World, w'': World)
    requires Reaches(w, w') && Reaches(w', w'')
    ensures Reaches(w, w'')
  {
    var run :| Runs(w, run) && GuardedRun(w, run) && Final(w, run) == w';
    ReachesTrans(w, run, w'');
  }

  lemma ReachesKeeps(w: World, w': World)
    requires WorldOk(w) && Reaches(w, w')
    ensures WorldOk(w') && (ChainsOk(w.db) ==> ChainsOk(w'.db))
  {
    var run :| Runs(w, run) && GuardedRun(w, run) && Final(w, run) == w';
    RunKeeps(w, run);
  }

  // ----- leading a ready job to a running worker

  ghost predicate Held(db: Db, now: Time, id: Id) {
    id in db.jobs && WorkerLive(db.jobs[id], now)
  }

  ghost predicate Ready(db: Db, now: Time, id: Id) {
    IsEligible(db, now, id) || Held(db, now, id)
  }

  ghost function EligibleSet(db: Db, now: Time): set<Id> {
    set id | id in db.jobs && IsEligible(db, now, id)
  }

  /** Only attempts started or expired: events, claims, boundaries and completed rows are the same, and
      what was ready or held stays so. */
  ghost predicate Steady(db: Db, db': Db, now: Time) {
    && db'.sessions == db.sessions && db'.jobs.Keys == db.jobs.Keys
    && forall id | id in db.jobs ::
         && SameWork(db.jobs[id], db'.jobs[id])
         && (db.jobs[id].state == Completed ==> db'.jobs[id] == db.jobs[id])
         && (db'.jobs[id].state == Completed ==> db.jobs[id].state == Completed)
         && (Held(db, now, id) ==> Held(db', now, id))
         && (IsEligible(db, now, id) ==> Ready(db', now, id))
  }

  lemma {:induction false} ShiftPositive(exponent: nat)
    ensures Shift(exponent) >= 1
  {
    if exponent > 0 { ShiftPositive(exponent - 1); }
  }

  lemma DelayPositive(failures: int)
    ensures 0 < RetryDelay(failures) <= JOB_RETRY_MAX
  {
    ShiftPositive(if failures <= 1 then 0 else if failures - 1 > 31 then 31 else failures - 1);
  }

  /** A failed attempt of a valid running job: the third failure or a permanent one ends it, any other
      one puts it back with a deadline at most a minute away, and the row stays valid. */
  lemma FailureOutcome(j: Job, error: Bytes, disposition: Disposition, now: Time)
    requires CheckOk(j) && j.state == Running
    ensures var j' := FailureTransition(j, error, disposition, now);
            && CheckOk(j') && SameWork(j, j') && j'.failures == j.failures + 1
            && j'.state == (if disposition == Permanent || j.failures == 2 then Failed else Pending)
            && (j'.state == Pending ==> j'.retryAfter.Some? && now < j'.retryAfter.value <= now + 60)
  {
    DelayPositive(j.failures + 1);
    assert Shift(1) == 2 * Shift(0);
  }

  lemma {:induction false} SomeOldest(db: Db, now: Time, ids: set<Id>) returns (id: Id)
    requires ids != {} && forall a | a in ids :: a in db.jobs
    ensures id in ids && forall a | a in ids :: OlderJob(db.jobs, id, a)
    decreases |ids|
  {
    id :| id in ids;
    if ids != {id} {
      var other := SomeOldest(db, now, ids - {id});
      forall a | a in ids && a != id ensures OlderJob(db.jobs, other, a) { assert a in ids - {id}; }
      if !OlderJob(db.jobs, id, other) { id := other; }
    }
  }

  lemma {:induction false} FreshId(used: set<Id>) returns (id: Id)
    ensures forall a | a in used :: a < id
    decreases |used|
  {
    if used == {} {
      id := 0;
    } else {
      var a :| a in used;
      var rest := FreshId(used - {a});
      forall b | b in used && b != a ensures b < rest { assert b in used - {a}; }
      id := if a < rest then rest else a + 1;
    }
  }

  /** Recovery makes no job eligible and takes none away. */
  lemma RecoverSteady(db: Db, now: Time, limit: nat)
    ensures var db' := db.(jobs := RecoverUpTo(db.jobs, now, limit));
            && Steady(db, db', now)
            && forall id :: IsEligible(db', now, id) <==> IsEligible(db, now, id)
  {
    RecoverRows(db.jobs, now, limit);
    forall id | id in db.jobs ensures 0 < RetryDelay(db.jobs[id].failures + 1) {
      DelayPositive(db.jobs[id].failures + 1);
    }
  }

  /** A claim starts one eligible job and leaves the others eligible. */
  lemma ClaimProgress(db: Db, now: Time, uuid: Id, id: Id)
    requires IsEligible(db, now, id)
    ensures var (db', r) := ClaimCompaction(db, now, uuid);
            Steady(db, db', now) && r.Some? && EligibleSet(db', now) < EligibleSet(db, now)
  {
    RecoverSteady(db, now, MAX_STALE_JOB_RECOVERIES);
    var mid := db.(jobs := RecoverUpTo(db.jobs, now, MAX_STALE_JOB_RECOVERIES));
    var (db', r) := ClaimCompaction(db, now, uuid);
    assert id in EligibleSet(mid, now);
    var oldest := SomeOldest(mid, now, EligibleSet(mid, now));
    assert IsOldestEligible(mid, now, oldest) by {
      forall other | other in mid.jobs && IsEligible(mid, now, other) ensures OlderJob(mid.jobs, oldest, other) {
        assert other in EligibleSet(mid, now);
      }
    }
    var started := r.value.job;
    StartSteady(db, mid, started, uuid, now, db');
  }

  lemma StartSteady(db: Db, mid: Db, started: Id, uuid: Id, now: Time, db': Db)
    requires Steady(db, mid, now) && forall id :: IsEligible(mid, now, id) <==> IsEligible(db, now, id)
    requires IsEligible(mid, now, started)
    requires db' == SetJob(mid, started, StartJob(mid.jobs[started], uuid, now)).(used := db'.used)
    ensures Steady(db, db', now) && EligibleSet(db', now) < EligibleSet(db, now)
  {
    forall id | id in EligibleSet(db', now) ensures id in EligibleSet(db, now) && id != started {
      assert IsEligible(mid, now, id);
    }
    assert started in EligibleSet(db, now);
  }

  lemma SteadyTrans(a: Db, b: Db, c: Db, now: Time)
    requires Steady(a, b, now) && Steady(b, c, now)
    ensures Steady(a, c, now)
  {
  }

  lemma {:induction false} SubsetSmaller<T>(small: set<T>, large: set<T>)
    requires small < large
    ensures |small| < |large|
  {
    var rest := large - small;
    assert large == small + rest && rest != {};
  }

  /** Claiming again and again reaches any ready job. */
  lemma {:induction false} LeadToHeld(w: World, now: Time, id: Id) returns (w': World)
    requires WorldOk(w) && Ready(w.db, now, id)
    ensures Reaches(w, w') && WorldOk(w') && Steady(w.db, w'.db, now) && Held(w'.db, now, id)
    decreases |EligibleSet(w.db, now)|
  {
    if Held(w.db, now, id) {
      ReachesItself(w);
      w' := w;
    } else {
      var uuid := FreshId(w.db.used);
      var a := ClaimJob(now, uuid);
      var next := Step(w, a);
      ClaimProgress(w.db, now, uuid, id);
      StepKeeps(w, a);
      SubsetSmaller(EligibleSet(next.db, now), EligibleSet(w.db, now));
      w' := LeadToHeld(next, now, id);
      ReachesBefore(w, a, w');
      SteadyTrans(w.db, next.db, w'.db, now);
    }
  }

  /** One job of a session finished with a summary at the end of the session's log. */
  ghost predicate Finishes(db: Db, db': Db, id: Id) {
    && id in db.jobs && id in db'.jobs && db.jobs[id].Active()
    && var s := db.jobs[id].session;
       && s in db.sessions && s in db'.sessions
       && db'.jobs == db.jobs[id := db'.jobs[id]]
       && IsCompleted(db'.jobs, s, id) && db'.jobs[id].through == db.jobs[id].through
       && db'.sessions[s].claim == db.sessions[s].claim
       && db.sessions[s].events <= db'.sessions[s].events
       && |db'.sessions[s].events| == |db.sessions[s].events| + 1
       && SummarySlot(db'.sessions[s].events, db'.jobs[id]) == |db.sessions[s].events|
  }

  /** The session of a job can take a summary. */
  ghost predicate Idle(db: Db, now: Time, id: Id, room: nat) {
    && id in db.jobs && db.jobs[id].session in db.sessions
    && var session := db.sessions[db.jobs[id].session];
       !Live(session.claim, now) && |session.events| + room <= I64_MAX
  }

  lemma CompletionFinishes(db: Db, wk: Worker, now: Time, uuid: Id)
    requires DbOk(db) && HoldsJob(db, wk) && WorkerLive(db.jobs[wk.job], now) && Idle(db, now, wk.job, 1)
    requires wk.through == db.jobs[wk.job].through >= 0 && wk.source == db.jobs[wk.job].source
    ensures Finishes(db, CompleteCompaction(db, wk, [], now, uuid, []).0, wk.job)
  {
    JobFacts(db, wk.job);
    var j := db.jobs[wk.job];
    assert SessionOk(db, j.session);
    ProvenanceOk(j.session, db.sessions[j.session].events, db.used, j.through);
    LastSequenceIsLength(db.sessions[j.session].events);
    assert CompleteCompaction(db, wk, [], now, uuid, []).1.Ok?;
    CompleteWrites(db, wk, [], now, uuid, []);
  }

  /** The worker that runs a job. */
  lemma RunningWorker(w: World, id: Id) returns (wk: Worker)
    requires WorldOk(w) && id in w.db.jobs && w.db.jobs[id].state == Running
    ensures wk.token in w.workers && w.workers[wk.token] == wk && wk.job == id && HoldsJob(w.db, wk)
    ensures wk.through == w.db.jobs[id].through >= 0 && wk.source == w.db.jobs[id].source
  {
    JobFacts(w.db, id);
    wk := w.workers[w.db.jobs[id].claimToken.value];
  }

  /** A held job of a session that is not live completes. */
  lemma CompletionSucceeds(w: World, now: Time, id: Id) returns (w': World)
    requires WorldOk(w) && Held(w.db, now, id) && Idle(w.db, now, id, 1)
    ensures Reaches(w, w') && WorldOk(w') && Finishes(w.db, w'.db, id)
  {
    var uuid := FreshId(w.db.used);
    var wk := RunningWorker(w, id);
    var a := CompleteJob(wk.token, [], now, uuid, []);
    CompletionFinishes(w.db, wk, now, uuid);
    w' := Step(w, a);
    StepKeeps(w, a);
    ReachesItself(w');
    ReachesBefore(w, a, w');
  }

  // ----- when a retry leads there

  lemma SameSlot(events: seq<Event>, events': seq<Event>, j: Job, used: set<Id>)
    requires EventsOk(events', used) && events <= events' && SummarySlot(events, j) >= 0
    ensures SummarySlot(events', j) == SummarySlot(events, j)
  {
    SlotIs(events', SummarySlot(events, j));
  }

  /** A completed compaction is untouched when another one of its session finishes. */
  lemma FinishKeeps(db: Db, db': Db, id: Id, c: Id)
    requires DbOk(db) && DbOk(db') && Finishes(db, db', id) && IsCompleted(db.jobs, db.jobs[id].session, c)
    ensures var s := db.jobs[id].session;
            && IsCompleted(db'.jobs, s, c) && db'.jobs[c] == db.jobs[c]
            && SummarySlot(db'.sessions[s].events, db'.jobs[c]) == SummarySlot(db.sessions[s].events, db.jobs[c])
            && 0 <= db.jobs[c].through <= SummarySlot(db.sessions[s].events, db.jobs[c])
  {
    JobFacts(db, c);
    var s := db.jobs[id].session;
    assert SessionOk(db', s);
    SameSlot(db.sessions[s].events, db'.sessions[s].events, db.jobs[c], db'.used);
  }

  /** Every boundary of a session lies within its log. */
  lemma BoundaryWithin(db: Db, id: Id)
    requires DbOk(db) && id in db.jobs
    ensures var j := db.jobs[id]; j.session in db.sessions && 0 < j.through <= |db.sessions[j.session].events|
  {
    JobFacts(db, id);
  }

  lemma FinishLate(db: Db, db': Db, id: Id, c: Id)
    requires DbOk(db) && DbOk(db') && Finishes(db, db', id)
    requires var s := db.jobs[id].session;
             IsCompleted(db.jobs, s, c) && End(db.sessions[s].events, db.jobs[c]) > db.jobs[id].through
    ensures SecondSummaryInTail(db', db.jobs[id].session)
  {
    var s := db.jobs[id].session;
    TopExists(db'.jobs, s, id);
    var top :| IsTop(db'.jobs, s, top);
    assert SessionOk(db', s);
    UniqueTop(s, db'.jobs, top);
    FinishKeeps(db, db', id, c);
    if top == id {
      BoundaryWithin(db, id);
      TwoLateSummaries(db', s, id, c);
    } else {
      FinishKeeps(db, db', id, top);
      BoundaryWithin(db, top);
      TwoLateSummaries(db', s, id, top);
    }
  }

  /** A retried job that completes leaves a second summary in the tail if an earlier summary lies after
      its boundary. */
  lemma LateSummaryBreaks(w: World, now: Time, id: Id, c: Id) returns (w': World)
    requires WorldOk(w) && Ready(w.db, now, id) && Idle(w.db, now, id, 1)
    requires var s := w.db.jobs[id].session;
             IsCompleted(w.db.jobs, s, c) && End(w.db.sessions[s].events, w.db.jobs[c]) > w.db.jobs[id].through
    ensures Reaches(w, w') && SecondSummaryInTail(w'.db, w.db.jobs[id].session)
  {
    var held := LeadToHeld(w, now, id);
    w' := CompletionSucceeds(held, now, id);
    ReachesOn(w, held, w');
    FinishLate(held.db, w'.db, id, c);
  }

  lemma FinishBoth(db: Db, mid: Db, db': Db, id: Id, k: Id)
    requires DbOk(db) && DbOk(mid) && DbOk(db') && id != k
    requires Finishes(db, mid, id) && Finishes(mid, db', k) && mid.jobs[k].session == db.jobs[id].session
    ensures SecondSummaryInTail(db', db.jobs[id].session)
  {
    var s := db.jobs[id].session;
    FinishKeeps(mid, db', k, id);
    forall c | IsTop(db'.jobs, s, c) ensures db'.jobs[c].through <= |db.sessions[s].events| {
      BoundaryWithin(db, c);
    }
    TwoLateSummaries(db', s, id, k);
  }

  /** Two active jobs of one session that both complete leave a second summary in the tail. */
  lemma TwoActiveBreak(w: World, now: Time, id: Id, k: Id) returns (w': World)
    requires WorldOk(w) && Ready(w.db, now, id) && Ready(w.db, now, k) && id != k
    requires Idle(w.db, now, id, 2) && w.db.jobs[k].session == w.db.jobs[id].session
    ensures Reaches(w, w') && SecondSummaryInTail(w'.db, w.db.jobs[id].session)
  {
    var one := LeadToHeld(w, now, id);
    var both := LeadToHeld(one, now, k);
    ReachesOn(w, one, both);
    SteadyTrans(w.db, one.db, both.db, now);
    w' := BothComplete(both, now, id, k);
    ReachesOn(w, both, w');
  }

  lemma BothComplete(w: World, now: Time, id: Id, k: Id) returns (w': World)
    requires WorldOk(w) && Held(w.db, now, id) && Held(w.db, now, k) && id != k
    requires Idle(w.db, now, id, 2) && w.db.jobs[k].session == w.db.jobs[id].session
    ensures Reaches(w, w') && SecondSummaryInTail(w'.db, w.db.jobs[id].session)
  {
    var first := CompletionSucceeds(w, now, id);
    w' := CompletionSucceeds(first, now, k);
    ReachesOn(w, first, w');
    FinishBoth(w.db, first.db, w'.db, id, k);
  }

  /** Renewing a running worker's claim keeps it running past `now`. */
  lemma HoldRunning(w: World, now: Time, k: Id) returns (w': World)
    requires WorldOk(w) && k in w.db.jobs && w.db.jobs[k].state == Running
    ensures Reaches(w, w') && WorldOk(w')
    ensures w'.db == SetJob(w.db, k, w.db.jobs[k].(leaseUntil := Some(now + COMPACTION_LEASE)))
  {
    var wk := RunningWorker(w, k);
    var a := RenewJob(wk.token, now);
    w' := Step(w, a);
    StepKeeps(w, a);
    ReachesItself(w');
    ReachesBefore(w, a, w');
  }

  lemma OtherActiveBreaks(w: World, now: Time, id: Id, k: Id) returns (w': World)
    requires WorldOk(w) && IsEligible(w.db, now, id) && id != k && Idle(w.db, now, id, 2)
    requires IsActive(w.db.jobs, w.db.jobs[id].session, k)
    requires w.db.jobs[k].retryAfter.Some? ==> w.db.jobs[k].retryAfter.value <= now
    ensures Reaches(w, w') && SecondSummaryInTail(w'.db, w.db.jobs[id].session)
  {
    if w.db.jobs[k].state == Running {
      var mid := HoldRunning(w, now, k);
      w' := TwoActiveBreak(mid, now, id, k);
      ReachesOn(w, mid, w');
    } else {
      w' := TwoActiveBreak(w, now, id, k);
    }
  }

  /** What the queue's tests mean for a failed job of a session in order. */
  lemma GuardFails(db: Db, id: Id)
    requires DbOk(db) && ChainsOk(db) && id in db.jobs && db.jobs[id].session in db.sessions
    requires !QueueGuard(db, db.jobs[id].session, db.jobs[id].through)
    ensures var (s, t) := (db.jobs[id].session, db.jobs[id].through);
            || (exists c :: IsCompleted(db.jobs, s, c) && End(db.sessions[s].events, db.jobs[c]) > t)
            || (exists k :: IsActive(db.jobs, s, k) && k != id)
  {
    var s := db.jobs[id].session;
    assert SessionOk(db, s) && ChainAt(db, s) && Of(db.jobs, s, id);
    RetryGuardMeaning(s, db.sessions[s].events, db.used, db.jobs, id);
  }

  /** After the retry the job is eligible as soon as its session is not live. */
  lemma RetriedIsEligible(db: Db, id: Id, now: Time)
    requires id in db.jobs && db.jobs[id].state == Failed && Idle(db, now, id, 2)
    ensures var next := RetryFailedJob(db, id).0;
            && IsEligible(next, now, id) && Idle(next, now, id, 2) && next.sessions == db.sessions
            && next.jobs[id].session == db.jobs[id].session && next.jobs[id].through == db.jobs[id].through
            && forall a | a in db.jobs && a != id :: a in next.jobs && next.jobs[a] == db.jobs[a]
  {
  }

  lemma RetryPastSummary(db: Db, next: World, id: Id, c: Id, now: Time) returns (w': World)
    requires id in db.jobs && db.jobs[id].state == Failed && Idle(db, now, id, 2)
    requires WorldOk(next) && next.db == RetryFailedJob(db, id).0
    requires var s := db.jobs[id].session;
             IsCompleted(db.jobs, s, c) && End(db.sessions[s].events, db.jobs[c]) > db.jobs[id].through
    ensures Reaches(next, w') && SecondSummaryInTail(w'.db, db.jobs[id].session)
  {
    RetriedIsEligible(db, id, now);
    w' := LateSummaryBreaks(next, now, id, c);
  }

  lemma RetryBesideActive(db: Db, next: World, id: Id, k: Id, now: Time) returns (w': World)
    requires id in db.jobs && db.jobs[id].state == Failed && Idle(db, now, id, 2)
    requires WorldOk(next) && next.db == RetryFailedJob(db, id).0
    requires IsActive(db.jobs, db.jobs[id].session, k) && k != id
    requires db.jobs[k].retryAfter.Some? ==> db.jobs[k].retryAfter.value <= now
    ensures Reaches(next, w') && SecondSummaryInTail(w'.db, db.jobs[id].session)
  {
    RetriedIsEligible(db, id, now);
    w' := OtherActiveBreaks(next, now, id, k);
  }

  lemma UnguardedBreaks(db: Db, next: World, id: Id) returns (w': World)
    requires DbOk(db) && ChainsOk(db) && id in db.jobs && db.jobs[id].state == Failed
    requires WorldOk(next) && next.db == RetryFailedJob(db, id).0
    requires db.jobs[id].session in db.sessions
    requires |db.sessions[db.jobs[id].session].events| + 2 <= I64_MAX
    requires !QueueGuard(db, db.jobs[id].session, db.jobs[id].through)
    ensures Reaches(next, w') && SecondSummaryInTail(w'.db, db.jobs[id].session)
  {
    var s := db.jobs[id].session;
    var claim := db.sessions[s].claim;
    var start := if claim.Some? then claim.value.until else 0;
    GuardFails(db, id);
    if c :| IsCompleted(db.jobs, s, c) && End(db.sessions[s].events, db.jobs[c]) > db.jobs[id].through {
      w' := RetryPastSummary(db, next, id, c, start);
    } else {
      var k :| IsActive(db.jobs, s, k) && k != id;
      var ready := db.jobs[k].retryAfter;
      w' := RetryBesideActive(db, next, id, k, if ready.Some? && ready.value > start then ready.value else start);
    }
  }

  lemma GuardedHolds(next: World, session: Id)
    requires WorldOk(next) && ChainsOk(next.db)
    ensures forall w' | Reaches(next, w') :: !SecondSummaryInTail(w'.db, session)
  {
    forall w' | Reaches(next, w') ensures !SecondSummaryInTail(w'.db, session) {
      ReachesKeeps(next, w');
      ChainsExcludeSecondSummary(w'.db, session);
    }
  }

  /** From any state that a guarded run reaches, retrying a failed job lets some continuation, itself
      guarded, put a second summary in the replay tail exactly when a test that queueing makes fails
      for the job: another boundary is active, or a summary lies after its boundary. */
  lemma RetryBreaksIffUnguarded(w: World, id: Id)
    requires WorldOk(w) && ChainsOk(w.db) && id in w.db.jobs && w.db.jobs[id].state == Failed
    requires w.db.jobs[id].session in w.db.sessions
    requires |w.db.sessions[w.db.jobs[id].session].events| + 2 <= I64_MAX
    ensures (exists w' :: Reaches(Step(w, RetryJob(id)), w') && SecondSummaryInTail(w'.db, w.db.jobs[id].session))
            <==> !QueueGuard(w.db, w.db.jobs[id].session, w.db.jobs[id].through)
  {
    var s, next := w.db.jobs[id].session, Step(w, RetryJob(id));
    StepKeeps(w, RetryJob(id));
    if QueueGuard(w.db, s, w.db.jobs[id].through) {
      GuardedHolds(next, s);
    } else {
      var w' := UnguardedBreaks(w.db, next, id);
    }
  }
}
