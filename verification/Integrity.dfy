/** Every transaction keeps the database invariant, and all but an unguarded retry keep the chains:
    retrying a failed job keeps them exactly when the tests made by queueing hold for it. */
module Integrity {
  import opened Records
  import opened Turns
  import opened Transcript
  import opened Store
  import opened Ledger

  /** A session whose events and jobs did not change stays as it was. */
  lemma SessionFrame(db: Db, db': Db, s: Id)
    requires db.used <= db'.used
    requires s in db'.sessions ==> s in db.sessions && db'.sessions[s].events == db.sessions[s].events
    requires SameJobs(s, db.jobs, db'.jobs)
    ensures SessionOk(db, s) ==> SessionOk(db', s)
    ensures ChainAt(db, s) ==> ChainAt(db', s)
  {
    if s in db'.sessions {
      if SessionOk(db, s) { BookFrame(s, db.sessions[s].events, db.jobs, db'.jobs); }
      if ChainAt(db, s) { ShapeFrame(s, db.sessions[s].events, db.jobs, db'.jobs); }
    }
  }

  /** Changing a row of one session leaves the jobs of the others alone. */
  lemma OtherJobs(jobs: map<Id, Job>, id: Id, j: Job, s: Id)
    requires s != j.session && (id in jobs ==> jobs[id].session == j.session)
    ensures SameJobs(s, jobs, jobs[id := j])
  {
  }

  lemma RemainingJobs(jobs: map<Id, Job>, id: Id, s: Id)
    requires s != id
    ensures SameJobs(s, jobs, map j | j in jobs && jobs[j].session != id :: jobs[j])
  {
  }

  /** The invariant is kept, and so are the chains. */
  ghost predicate Preserves(db: Db, db': Db) {
    DbOk(db') && (ChainsOk(db) ==> ChainsOk(db'))
  }

  lemma DbClaim(db: Db, id: Id, claim: Option<Claim>, used: set<Id>)
    requires DbOk(db) && id in db.sessions && db.used <= used
    ensures Preserves(db, SetClaim(db, id, claim).(used := used))
  {
    var db' := SetClaim(db, id, claim).(used := used);
    forall s ensures SessionOk(db', s) && (ChainAt(db, s) ==> ChainAt(db', s)) {
      SessionFrame(db, db', s);
    }
  }

  lemma DbStart(db: Db, workspace: int, uuid: Id)
    requires DbOk(db) && uuid !in db.used
    ensures Preserves(db, StartSession(db, workspace, uuid))
  {
    var db' := StartSession(db, workspace, uuid);
    forall s ensures SessionOk(db', s) && (ChainAt(db, s) ==> ChainAt(db', s)) {
      if s == uuid {
        assert forall a :: !Of(db.jobs, uuid, a);
        assert BookOk(uuid, [], db.jobs);
      } else {
        SessionFrame(db, db', s);
      }
    }
  }

  lemma DbAppend(db: Db, id: Id, rows: seq<Event>, claim: Option<Claim>, ids: set<Id>)
    requires DbOk(db) && id in db.sessions
    requires Extends(db.sessions[id].events, rows, db.used)
    requires forall i | 0 <= i < |rows| :: rows[i].kind != Summary && rows[i].id in ids
    ensures Preserves(db, AppendRows(db, id, rows, claim, ids))
  {
    var events, db' := db.sessions[id].events, AppendRows(db, id, rows, claim, ids);
    forall s ensures SessionOk(db', s) && (ChainAt(db, s) ==> ChainAt(db', s)) {
      assert SessionOk(db, s);
      if s == id {
        ExtendEvents(events, rows, db.used, db.used + ids);
        BookExtend(id, events, rows, db.used, db.jobs);
      } else {
        SessionFrame(db, db', s);
      }
    }
  }

  /** One job row of one session changes. */
  lemma DbJob(db: Db, id: Id, j: Job, used: set<Id>)
    requires DbOk(db) && db.used <= used && id in used && j.session in db.sessions
    requires id in db.jobs ==> db.jobs[id].session == j.session
    requires BookOk(j.session, db.sessions[j.session].events, db.jobs[id := j])
    ensures DbOk(SetJob(db, id, j).(used := used))
    ensures ChainsOk(db) && ShapeOk(j.session, db.sessions[j.session].events, db.jobs[id := j]) ==>
              ChainsOk(SetJob(db, id, j).(used := used))
  {
    var db' := SetJob(db, id, j).(used := used);
    forall s ensures SessionOk(db', s) && (s != j.session && ChainAt(db, s) ==> ChainAt(db', s)) {
      assert SessionOk(db, s);
      if s != j.session {
        OtherJobs(db.jobs, id, j, s);
        SessionFrame(db, db', s);
      }
    }
  }

  lemma DbRecast(db: Db, jobs': map<Id, Job>, used: set<Id>)
    requires DbOk(db) && db.used <= used && AllRecast(db.jobs, jobs')
    ensures DbOk(db.(jobs := jobs', used := used))
  {
    var db' := db.(jobs := jobs', used := used);
    forall s ensures SessionOk(db', s) {
      assert SessionOk(db, s);
      if s in db.sessions { BookRecast(s, db.sessions[s].events, db.jobs, jobs'); }
    }
  }

  lemma DbKeepAll(db: Db, jobs': map<Id, Job>, used: set<Id>)
    requires DbOk(db) && db.used <= used && AllKept(db.jobs, jobs')
    ensures Preserves(db, db.(jobs := jobs', used := used))
  {
    DbRecast(db, jobs', used);
    var db' := db.(jobs := jobs', used := used);
    forall s ensures ChainAt(db, s) ==> ChainAt(db', s) {
      if s in db.sessions && ChainAt(db, s) { ShapeKeep(s, db.sessions[s].events, db.jobs, jobs'); }
    }
  }

  lemma DbKeep(db: Db, id: Id, j: Job, used: set<Id>)
    requires DbOk(db) && db.used <= used && id in db.jobs && Kept(db.jobs[id], j)
    ensures Preserves(db, SetJob(db, id, j).(used := used))
  {
    DbKeepAll(db, db.jobs[id := j], used);
  }

  lemma DbDelete(db: Db, id: Id, now: Time)
    requires DbOk(db)
    ensures Preserves(db, DeleteSession(db, id, now).0)
  {
    var db' := WithoutSession(db, id);
    forall s ensures SessionOk(db', s) && (ChainAt(db, s) ==> ChainAt(db', s)) {
      if s in db'.sessions {
        RemainingJobs(db.jobs, id, s);
        SessionFrame(db, db', s);
      }
    }
    assert Preserves(db, db');
  }

  lemma {:induction false} LatestWorkerExists(jobs: map<Id, Job>, session: Id, ids: set<Id>) returns (latest: Id)
    requires ids != {} && forall a | a in ids :: IsWorker(jobs, session, a)
    ensures latest in ids && IsWorker(jobs, session, latest)
    ensures forall a | a in ids ::
              IsWorker(jobs, session, a) && jobs[a].leaseUntil.value <= jobs[latest].leaseUntil.value
    decreases |ids|
  {
    latest :| latest in ids;
    if ids != {latest} {
      var other := LatestWorkerExists(jobs, session, ids - {latest});
      forall a | a in ids && a != latest ensures a in ids - {latest} {}
      if jobs[latest].leaseUntil.value < jobs[other].leaseUntil.value { latest := other; }
    }
  }

  /** A session with a live worker is not deleted, and the answer is a deadline no earlier than that of
      any of its workers. */
  lemma DeleteSparesWorkers(db: Db, id: Id, now: Time, worker: Id)
    requires id in db.sessions && !Live(db.sessions[id].claim, now)
    requires IsWorker(db.jobs, id, worker) && WorkerLive(db.jobs[worker], now)
    ensures var (db', r) := DeleteSession(db, id, now);
            && db' == db && r.Err? && r.error.SessionBusy? && now < r.error.until
            && forall other | IsWorker(db.jobs, id, other) :: db.jobs[other].leaseUntil.value <= r.error.until
  {
    var ids := set a | a in db.jobs && IsWorker(db.jobs, id, a);
    assert worker in ids;
    var latest := LatestWorkerExists(db.jobs, id, ids);
    forall other | other in db.jobs && IsWorker(db.jobs, id, other) ensures other in ids {}
    assert IsLatestWorker(db.jobs, id, latest);
  }

  /** The facts about one job of a well-formed database. */
  lemma JobFacts(db: Db, id: Id)
    requires DbOk(db) && id in db.jobs
    ensures var j := db.jobs[id]; j.session in db.sessions && JobOk(j.session, db.sessions[j.session].events, id, j)
  {
    assert SessionOk(db, db.jobs[id].session);
    assert Of(db.jobs, db.jobs[id].session, id);
  }

  lemma TurnExtends(events: seq<Event>, used: set<Id>, inputs: seq<EventInput>, turnId: Id, ids: seq<Id>,
                    createdAt: Bytes)
    requires PreparesTurn(inputs) && |ids| == |inputs| && |events| + |inputs| <= I64_MAX
    requires forall i | 0 <= i < |ids| :: ids[i] !in used
    requires forall i, j | 0 <= i < j < |ids| :: ids[i] != ids[j]
    ensures Extends(events, TurnRows(inputs, |events|, turnId, ids, createdAt), used)
    ensures forall i | 0 <= i < |inputs| :: TurnRows(inputs, |events|, turnId, ids, createdAt)[i].kind != Summary
  {
    var rows := TurnRows(inputs, |events|, turnId, ids, createdAt);
    assert IsTurn(rows);
    TurnIsWhole(rows);
    forall i | 0 <= i < |inputs| ensures inputs[i] in inputs {}
  }

  lemma DbAppendTurn(db: Db, lease: Lease, workspace: int, inputs: seq<EventInput>, now: Time,
                     turnId: Id, ids: seq<Id>, createdAt: Bytes)
    requires DbOk(db) && |ids| == |inputs|
    requires forall i | 0 <= i < |ids| :: ids[i] !in db.used
    requires forall i, j | 0 <= i < j < |ids| :: ids[i] != ids[j]
    ensures Preserves(db, AppendTurn(db, lease, workspace, inputs, now, turnId, ids, createdAt).0)
  {
    var (db', _, r) := AppendTurn(db, lease, workspace, inputs, now, turnId, ids, createdAt);
    if r.Ok? {
      assert SessionOk(db, lease.session);
      var events := db.sessions[lease.session].events;
      LastSequenceIsLength(events);
      TurnExtends(events, db.used, inputs, turnId, ids, createdAt);
      DbAppend(db, lease.session, r.value, Some(Claim(lease.token, now + SESSION_LEASE)), {turnId} + set i | i in ids);
    }
  }

  lemma DbAppendEvent(db: Db, id: Id, input: EventInput, now: Time, uuid: Id, createdAt: Bytes)
    requires DbOk(db) && uuid !in db.used
    ensures Preserves(db, AppendEvent(db, id, input, now, uuid, createdAt).0)
  {
    var (db', r) := AppendEvent(db, id, input, now, uuid, createdAt);
    if r.Ok? {
      assert SessionOk(db, id);
      LastSequenceIsLength(db.sessions[id].events);
      SingleIsWhole(r.value);
      DbAppend(db, id, [r.value], None, {uuid});
    }
  }

  // ----- provenance of well-formed events

  /** On well-formed events a fingerprint succeeds exactly at a boundary, with the prefix's source. */
  lemma ProvenanceOk(session: Id, events: seq<Event>, used: set<Id>, through: int)
    requires EventsOk(events, used) && 0 < through <= |events|
    ensures TranscriptProvenance(session, events, through).Ok? <==> Boundary(events, through)
    ensures Boundary(events, through) ==>
            TranscriptProvenance(session, events, through) == Ok(SourceOf(session, events, through))
  {
    ThroughIsPrefix(events, through);
    AdvanceClosed(events[..through]);
  }

  // ----- the queue's two tests

  /** The tests that queueing makes before it lets a boundary become active. */
  ghost predicate QueueGuard(db: Db, session: Id, through: int)
    requires session in db.sessions
  {
    && !BlockedByActive(db.jobs, session, through)
    && !SummaryAfter(db.sessions[session].events, db.jobs, session, through)
  }

  lemma SummaryAfterMeaning(session: Id, events: seq<Event>, used: set<Id>, jobs: map<Id, Job>, through: int)
    requires EventsOk(events, used) && JobsOk(session, events, jobs)
    ensures !SummaryAfter(events, jobs, session, through) <==> AfterSummaries(session, events, jobs, through)
  {
    forall a | IsCompleted(jobs, session, a)
      ensures (exists k | 0 <= k < |events| ::
                 Some(events[k].id) == jobs[a].summaryEvent && events[k].sequence > through)
              <==> End(events, jobs[a]) > through
    {
      assert Of(jobs, session, a);
      var s := SummarySlot(events, jobs[a]);
      assert Some(events[s].id) == jobs[a].summaryEvent;
      forall k | 0 <= k < |events| && Some(events[k].id) == jobs[a].summaryEvent ensures k == s {
        SlotIs(events, k);
      }
    }
  }

  lemma BlockedMeaning(session: Id, jobs: map<Id, Job>, id: Id, through: int)
    requires OneActive(session, jobs)
    requires forall a | IsActive(jobs, session, a) && jobs[a].through == through :: a == id
    requires id in jobs && jobs[id].session == session ==> jobs[id].through == through
    ensures !BlockedByActive(jobs, session, through) <==> NoOtherActive(session, jobs, id)
  {
    forall a | IsActive(jobs, session, a) ensures IsOldestActive(jobs, session, a) {}
  }

  /** A queued boundary may become active. */
  lemma QueueActivates(db: Db, session: Id, through: int, uuid: Id, j: Job)
    requires DbOk(db) && ChainAt(db, session) && uuid !in db.used && session in db.sessions
    requires QueueGuard(db, session, through)
    requires forall id :: !QueuedAt(db.jobs, session, through, id)
    requires j.session == session && j.Active() && j.through == through
    ensures Activates(session, db.sessions[session].events, db.jobs, uuid, j)
  {
    assert SessionOk(db, session);
    SummaryAfterMeaning(session, db.sessions[session].events, db.used, db.jobs, through);
    forall a | IsActive(db.jobs, session, a) ensures db.jobs[a].through != through {
      assert !QueuedAt(db.jobs, session, through, a);
    }
    BlockedMeaning(session, db.jobs, uuid, through);
  }

  lemma DbQueue(db: Db, session: Id, through: int, now: Time, uuid: Id)
    requires DbOk(db) && uuid !in db.used
    ensures Preserves(db, QueueCompaction(db, session, through, now, uuid).0)
  {
    var (db', r) := QueueCompaction(db, session, through, now, uuid);
    if db' != db {
      var events := db.sessions[session].events;
      var j := db'.jobs[uuid];
      assert SessionOk(db, session);
      AtSequenceIsIndex(events, through);
      ProvenanceOk(session, events, db.used, through);
      forall a | Of(db.jobs, session, a) ensures db.jobs[a].through != through {
        assert !QueuedAt(db.jobs, session, through, a);
      }
      BookInsert(session, events, db.jobs, uuid, j);
      DbJob(db, uuid, j, db.used + {uuid});
      if ChainsOk(db) {
        assert ChainAt(db, session);
        QueueActivates(db, session, through, uuid, j);
        ShapeActivate(session, events, db.jobs, uuid, j);
      }
    }
  }

  // ----- worker transactions

  lemma FailureKeeps(j: Job, error: Bytes, disposition: Disposition, now: Time)
    requires CheckOk(j) && j.state == Running
    ensures Kept(j, FailureTransition(j, error, disposition, now))
  {
  }

  /** Recovery changes only expired rows, each once, into the row a failed attempt leaves. */
  lemma {:induction false} RecoverRows(jobs: map<Id, Job>, now: Time, limit: nat)
    ensures RecoverUpTo(jobs, now, limit).Keys == jobs.Keys
    ensures forall a | a in jobs ::
              || RecoverUpTo(jobs, now, limit)[a] == jobs[a]
              || (&& IsExpired(jobs, now, a)
                  && RecoverUpTo(jobs, now, limit)[a] == FailureTransition(jobs[a], EXPIRED, Retry, now))
    decreases limit
  {
    if limit > 0 && exists id :: IsFirstExpired(jobs, now, id) {
      var id :| IsFirstExpired(jobs, now, id)
                && RecoverUpTo(jobs, now, limit) == RecoverUpTo(Expire(jobs, now, id), now, limit - 1);
      RecoverRows(Expire(jobs, now, id), now, limit - 1);
    }
  }

  /** A table in which some expired rows were recorded as failed attempts is kept. */
  lemma ExpiredKept(db: Db, jobs': map<Id, Job>, now: Time)
    requires DbOk(db) && jobs'.Keys == db.jobs.Keys
    requires forall a | a in db.jobs ::
               || jobs'[a] == db.jobs[a]
               || (IsExpired(db.jobs, now, a) && jobs'[a] == FailureTransition(db.jobs[a], EXPIRED, Retry, now))
    ensures AllKept(db.jobs, jobs')
  {
    forall a | a in db.jobs ensures jobs'[a] == db.jobs[a] || Kept(db.jobs[a], jobs'[a]) {
      JobFacts(db, a);
      if jobs'[a] != db.jobs[a] { FailureKeeps(db.jobs[a], EXPIRED, Retry, now); }
    }
  }

  lemma DbRecover(db: Db, now: Time, limit: nat)
    requires DbOk(db)
    ensures Preserves(db, db.(jobs := RecoverUpTo(db.jobs, now, limit)))
  {
    RecoverRows(db.jobs, now, limit);
    ExpiredKept(db, RecoverUpTo(db.jobs, now, limit), now);
    DbKeepAll(db, RecoverUpTo(db.jobs, now, limit), db.used);
  }

  lemma DbRecoverAll(db: Db, now: Time)
    requires DbOk(db)
    ensures Preserves(db, db.(jobs := RecoverAll(db.jobs, now)))
  {
    ExpiredKept(db, RecoverAll(db.jobs, now), now);
    DbKeepAll(db, RecoverAll(db.jobs, now), db.used);
  }

  lemma DbClaimJob(db: Db, now: Time, uuid: Id)
    requires DbOk(db)
    ensures Preserves(db, ClaimCompaction(db, now, uuid).0)
  {
    DbRecover(db, now, MAX_STALE_JOB_RECOVERIES);
    var recovered := db.(jobs := RecoverUpTo(db.jobs, now, MAX_STALE_JOB_RECOVERIES));
    var w := ClaimCompaction(db, now, uuid).1;
    if w.Some? {
      var id := w.value.job;
      JobFacts(recovered, id);
      DbKeep(recovered, id, StartJob(recovered.jobs[id], uuid, now), db.used + {uuid});
    }
  }

  lemma DbRenew(db: Db, w: Worker, now: Time)
    requires DbOk(db)
    ensures Preserves(db, RenewCompaction(db, w, now).0)
  {
    if HoldsJob(db, w) {
      JobFacts(db, w.job);
      DbKeep(db, w.job, db.jobs[w.job].(leaseUntil := Some(now + COMPACTION_LEASE)), db.used);
    }
  }

  lemma DbFail(db: Db, w: Worker, error: Bytes, disposition: Disposition, now: Time)
    requires DbOk(db)
    ensures Preserves(db, RecordFailure(db, w, error, disposition, now).0)
  {
    if HoldsJob(db, w) {
      JobFacts(db, w.job);
      FailureKeeps(db.jobs[w.job], error, disposition, now);
      DbKeep(db, w.job, FailureTransition(db.jobs[w.job], error, disposition, now), db.used);
    }
  }

  lemma DbRelease(db: Db, w: Worker)
    requires DbOk(db)
    ensures Preserves(db, ReleaseCompaction(db, w).0)
  {
    if HoldsJob(db, w) {
      JobFacts(db, w.job);
      DbKeep(db, w.job, ReleaseCompaction(db, w).0.jobs[w.job], db.used);
    }
  }

  /** The session whose compaction finishes. */
  lemma CompleteSession(db: Db, id: Id, row: Event)
    requires DbOk(db) && id in db.jobs && db.jobs[id].Active()
    requires row.id !in db.used && Summarizes(row, id, db.jobs[id]) && DecodesEvent(row)
    requires row.sequence == |db.sessions[db.jobs[id].session].events| + 1 <= I64_MAX
    ensures var s := db.jobs[id].session;
            var (events, jobs') := (db.sessions[s].events + [row], db.jobs[id := FinishJob(db.jobs[id], row.id)]);
            && EventsOk(events, db.used + {row.id}) && BookOk(s, events, jobs')
            && (ChainAt(db, s) ==> ShapeOk(s, events, jobs'))
  {
    var s := db.jobs[id].session;
    assert SessionOk(db, s);
    SingleIsWhole(row);
    ExtendEvents(db.sessions[s].events, [row], db.used, db.used + {row.id});
    BookComplete(s, db.sessions[s].events, db.used, db.jobs, id, row);
  }

  lemma DbFinish(db: Db, id: Id, row: Event, claim: Option<Claim>)
    requires DbOk(db) && id in db.jobs && db.jobs[id].Active()
    requires row.id !in db.used && Summarizes(row, id, db.jobs[id]) && DecodesEvent(row)
    requires row.sequence == |db.sessions[db.jobs[id].session].events| + 1 <= I64_MAX
    ensures Preserves(db, SetJob(AppendRows(db, db.jobs[id].session, [row], claim, {row.id}), id,
                                 FinishJob(db.jobs[id], row.id)))
  {
    CompleteSession(db, id, row);
    var db' := SetJob(AppendRows(db, db.jobs[id].session, [row], claim, {row.id}), id, FinishJob(db.jobs[id], row.id));
    forall s ensures SessionOk(db', s) && (ChainAt(db, s) ==> ChainAt(db', s)) {
      if s != db.jobs[id].session {
        OtherJobs(db.jobs, id, FinishJob(db.jobs[id], row.id), s);
        SessionFrame(db, db', s);
      }
    }
  }

  /** What a completion that succeeds has written. */
  lemma CompleteWrites(db: Db, w: Worker, text: Bytes, now: Time, uuid: Id, createdAt: Bytes)
    requires 0 <= w.through
    ensures var (db', r) := CompleteCompaction(db, w, text, now, uuid, createdAt);
            if r.Err? then db' == db
            else
              && HoldsJob(db, w) && db.jobs[w.job].session in db.sessions && db.jobs[w.job].source == w.source
              && var events := db.sessions[db.jobs[w.job].session].events;
                 && LastSequence(events) + 1 <= I64_MAX
                 && r.value == SummaryRow(w, LastSequence(events) + 1, text, uuid, createdAt)
                 && db' == SetJob(AppendRows(db, db.jobs[w.job].session, [r.value],
                                             db.sessions[db.jobs[w.job].session].claim, {uuid}),
                                  w.job, FinishJob(db.jobs[w.job], uuid))
  {
  }

  lemma DbComplete(db: Db, w: Worker, text: Bytes, now: Time, uuid: Id, createdAt: Bytes)
    requires DbOk(db) && uuid !in db.used && 0 <= w.through
    requires w.job in db.jobs ==> db.jobs[w.job].through == w.through
    ensures Preserves(db, CompleteCompaction(db, w, text, now, uuid, createdAt).0)
  {
    var (db', r) := CompleteCompaction(db, w, text, now, uuid, createdAt);
    CompleteWrites(db, w, text, now, uuid, createdAt);
    if r.Ok? {
      var s := db.jobs[w.job].session;
      assert SessionOk(db, s);
      LastSequenceIsLength(db.sessions[s].events);
      DbFinish(db, w.job, r.value, db.sessions[s].claim);
    }
  }

  // ----- retrying a failed job

  /** A retry keeps the invariant, guarded or not. */
  lemma DbRetry(db: Db, id: Id)
    requires DbOk(db)
    ensures DbOk(RetryFailedJob(db, id).0)
  {
    if id in db.jobs && db.jobs[id].state == Failed {
      JobFacts(db, id);
      DbRecast(db, RetryFailedJob(db, id).0.jobs, db.used);
    }
  }

  /** Retrying keeps the chains exactly when the tests that queueing makes hold for the job. */
  lemma RetryKeepsIffGuarded(db: Db, id: Id)
    requires DbOk(db) && ChainsOk(db) && id in db.jobs && db.jobs[id].state == Failed
    ensures ChainsOk(RetryFailedJob(db, id).0) <==> QueueGuard(db, db.jobs[id].session, db.jobs[id].through)
  {
    var j := db.jobs[id];
    var session, events := j.session, db.sessions[j.session].events;
    var db' := RetryFailedJob(db, id).0;
    DbRetry(db, id);
    assert SessionOk(db, session) && ChainAt(db, session) && SessionOk(db', session);
    assert Of(db.jobs, session, id);
    RetryGuardMeaning(session, events, db.used, db.jobs, id);
    if QueueGuard(db, session, j.through) {
      ShapeActivate(session, events, db.jobs, id, db'.jobs[id]);
      DbJob(db, id, db'.jobs[id], db.used);
      assert db' == SetJob(db, id, db'.jobs[id]).(used := db.used);
    }
    if ChainsOk(db') {
      assert ChainAt(db', session);
      ActiveMeansGuarded(session, events, db.jobs, id, db'.jobs[id]);
    }
  }

  lemma RetryGuardMeaning(session: Id, events: seq<Event>, used: set<Id>, jobs: map<Id, Job>, id: Id)
    requires EventsOk(events, used) && JobsOk(session, events, jobs)
    requires UniqueBoundaries(session, jobs) && OneActive(session, jobs) && Of(jobs, session, id)
    ensures !BlockedByActive(jobs, session, jobs[id].through) <==> NoOtherActive(session, jobs, id)
    ensures !SummaryAfter(events, jobs, session, jobs[id].through) <==>
            AfterSummaries(session, events, jobs, jobs[id].through)
  {
    SummaryAfterMeaning(session, events, used, jobs, jobs[id].through);
    assert forall a | IsActive(jobs, session, a) :: Of(jobs, session, a);
    BlockedMeaning(session, jobs, id, jobs[id].through);
  }

  lemma ActiveMeansGuarded(session: Id, events: seq<Event>, jobs: map<Id, Job>, id: Id, j': Job)
    requires Of(jobs, session, id) && jobs[id].state == Failed
    requires j'.session == session && j'.Active() && j'.through == jobs[id].through
    requires ShapeOk(session, events, jobs[id := j'])
    ensures NoOtherActive(session, jobs, id) && AfterSummaries(session, events, jobs, jobs[id].through)
  {
    var jobs' := jobs[id := j'];
    assert IsActive(jobs', session, id);
    forall a | IsActive(jobs, session, a) ensures a == id {
      assert IsActive(jobs', session, a);
    }
    forall a | IsCompleted(jobs, session, a) ensures End(events, jobs[a]) <= j'.through {
      assert IsCompleted(jobs', session, a);
    }
  }
}
