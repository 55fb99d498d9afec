/** When each transaction of a well-formed store succeeds, and what it has then done, in terms a caller can
    observe. */
module Effects {
  import opened Records
  import opened Turns
  import opened Transcript
  import opened Store
  import opened Ledger
  import opened Integrity
  import opened Replays
  import opened Protocol
  import opened Retries

  // ----- sessions

  /** Only one session's row differs, and no job. */
  ghost predicate OnlySession(db: Db, db': Db, id: Id) {
    && db'.jobs == db.jobs && db'.sessions.Keys == db.sessions.Keys
    && forall s | s in db.sessions && s != id :: db'.sessions[s] == db.sessions[s]
  }

  lemma StartGivesEmpty(db: Db, workspace: int, uuid: Id, now: Time, token: Id)
    requires DbOk(db) && uuid !in db.used
    ensures var db' := StartSession(db, workspace, uuid);
            && uuid in db'.sessions && db'.sessions[uuid].events == [] && db'.jobs == db.jobs
            && (forall s | s in db.sessions :: s in db'.sessions && db'.sessions[s] == db.sessions[s])
            && ClaimSession(db', uuid, workspace, now, token).1.Ok?
            && LoadReplay(db', uuid) == Ok(Replay([], 0, None))
  {
    var db' := StartSession(db, workspace, uuid);
    assert forall a :: !IsCompleted(db'.jobs, uuid, a);
  }

  /** A claim succeeds exactly on a session of the workspace that nobody holds; it then lasts five minutes. */
  lemma ClaimEffect(db: Db, id: Id, workspace: int, now: Time, uuid: Id)
    requires DbOk(db)
    ensures var (db', r) := ClaimSession(db, id, workspace, now, uuid);
            && (r.Ok? <==> && id in db.sessions && db.sessions[id].workspace == workspace
                           && !(db.sessions[id].claim.Some? && now < db.sessions[id].claim.value.until))
            && (r.Err? ==> db' == db)
            && (r.Ok? ==>
                  && OnlySession(db, db', id) && HeldUntil(db', id, uuid, now + 300)
                  && db'.sessions[id].events == db.sessions[id].events
                  && r.value.session == id && r.value.token == uuid
                  && r.value.lastSequence == |db.sessions[id].events|
                  && r.value.replayed == (db.sessions[id].events == []) && !r.value.released)
  {
    if id in db.sessions {
      assert SessionOk(db, id);
      LastSequenceIsLength(db.sessions[id].events);
    }
  }

  /** Until the deadline the holder of the token is admitted and nobody else gets the session; from then on
      the token is refused and anybody gets it. */
  ghost predicate HeldUntil(db: Db, id: Id, token: Id, deadline: Time) {
    && id in db.sessions
    && (forall lease: Lease, now: Time | lease.session == id && lease.token == token ::
          ValidateSessionLease(db, lease, now).Ok? <==> now < deadline)
    && (forall now: Time, uuid: Id ::
          ClaimSession(db, id, db.sessions[id].workspace, now, uuid).1.Ok? <==> deadline <= now)
    && (forall now: Time, uuid: Id | now < deadline ::
          ClaimSession(db, id, db.sessions[id].workspace, now, uuid).1 == Err(SessionBusy(deadline)))
  }

  /** Renewal needs the stored token and nothing else, and starts the five minutes again. */
  lemma RenewEffect(db: Db, lease: Lease, workspace: int, now: Time)
    ensures var (db', lease', r) := RenewSession(db, lease, workspace, now);
            && (r.Ok? <==>
                  && workspace == lease.workspace && lease.session in db.sessions
                  && db.sessions[lease.session].claim.Some?
                  && db.sessions[lease.session].claim.value.token == lease.token)
            && (r.Err? ==> db' == db && lease' == lease)
            && (r.Ok? ==>
                  && OnlySession(db, db', lease.session) && HeldUntil(db', lease.session, lease.token, now + 300)
                  && db'.sessions[lease.session].events == db.sessions[lease.session].events
                  && lease' == lease.(until := now + 300))
  {
  }

  /** A release succeeds exactly under the stored token and then frees the session at once, for anybody; once it
      has, releasing again changes nothing. */
  lemma ReleaseEffect(db: Db, lease: Lease, now: Time, uuid: Id)
    ensures var (db', lease', r) := ReleaseSession(db, lease);
            && (r.Ok? <==> lease.released || HoldsToken(db, lease.session, lease.token))
            && (r.Err? || lease.released ==> db' == db && lease' == lease)
            && (r.Ok? && !lease.released ==>
                  && lease'.released && OnlySession(db, db', lease.session)
                  && db'.sessions[lease.session].events == db.sessions[lease.session].events
                  && ClaimSession(db', lease.session, db.sessions[lease.session].workspace, now, uuid).1.Ok?
                  && ValidateSessionLease(db', lease, now).Err?)
  {
  }

  /** Replay succeeds exactly under a live claim, when the session has no second summary in its tail and its
      effective transcript fits; the cursor is then at the end of the log. */
  lemma ReplayEffect(db: Db, lease: Lease, workspace: int, now: Time)
    requires DbOk(db)
    ensures var (lease', r) := ReplaySession(db, lease, workspace, now);
            && (r.Ok? <==>
                  && workspace == lease.workspace && ValidateSessionLease(db, lease, now).Ok?
                  && !SecondSummaryInTail(db, lease.session)
                  && LoadReplay(db, lease.session) != Err(TooLarge))
            && (r.Err? ==> lease' == lease)
            && (r.Ok? ==>
                  lease' == lease.(lastSequence := |db.sessions[lease.session].events|, replayed := true))
  {
    if lease.session in db.sessions {
      ReplayExactly(db, lease.session);
      ReplayMovesCursor(db, lease, workspace, now);
      assert SessionOk(db, lease.session);
      LastSequenceIsLength(db.sessions[lease.session].events);
    }
  }

  /** The inputs that make a turn. */
  ghost predicate TurnAdmissible(inputs: seq<EventInput>) {
    && 0 < |inputs| <= 4096 && TotalBytes(inputs) <= 0x100_0000
    && forall i | 0 <= i < |inputs| :: inputs[i].kind != Summary && |inputs[i].text| <= 0x40_0000
  }

  /** A turn is appended exactly under a live claim by a holder who has seen the whole log; its events then
      carry the inputs, in order, after everything that was there. */
  lemma AppendTurnEffect(db: Db, lease: Lease, workspace: int, inputs: seq<EventInput>, now: Time,
                         turnId: Id, ids: seq<Id>, createdAt: Bytes)
    requires DbOk(db) && |ids| == |inputs|
    ensures var (db', lease', r) := AppendTurn(db, lease, workspace, inputs, now, turnId, ids, createdAt);
            && (r.Ok? <==>
                  && TurnAdmissible(inputs) && lease.replayed && workspace == lease.workspace
                  && ValidateSessionLease(db, lease, now).Ok?
                  && lease.lastSequence == |db.sessions[lease.session].events|
                  && |db.sessions[lease.session].events| + |inputs| <= I64_MAX)
            && (r.Err? ==> db' == db)
            && (r.Ok? ==>
                  && OnlySession(db, db', lease.session) && HeldUntil(db', lease.session, lease.token, now + 300)
                  && db'.sessions[lease.session].events == db.sessions[lease.session].events + r.value
                  && Carries(r.value, inputs) && (forall i | 0 <= i < |ids| :: r.value[i].id == ids[i])
                  && lease' == lease.(lastSequence := lease.lastSequence + |inputs|, until := now + 300))
  {
    assert (forall input | input in inputs :: input.kind != Summary && |input.text| <= MAX_EVENT_BYTES)
      <==> (forall i | 0 <= i < |inputs| :: inputs[i].kind != Summary && |inputs[i].text| <= 0x40_0000);
    if lease.session in db.sessions {
      assert SessionOk(db, lease.session);
      LastSequenceIsLength(db.sessions[lease.session].events);
    }
  }

  /** One event per input, in order, with its kind, text and meaning. */
  ghost predicate Carries(events: seq<Event>, inputs: seq<EventInput>) {
    && |events| == |inputs|
    && forall i | 0 <= i < |events| ::
         events[i].kind == inputs[i].kind && events[i].text == inputs[i].text && events[i].meta == inputs[i].meta
  }

  /** An append that succeeds adds its inputs to the end of the log. */
  lemma TurnCarries(db: Db, lease: Lease, workspace: int, inputs: seq<EventInput>, now: Time,
                    turnId: Id, ids: seq<Id>, createdAt: Bytes)
    requires |ids| == |inputs|
    ensures var (db', _, r) := AppendTurn(db, lease, workspace, inputs, now, turnId, ids, createdAt);
            r.Ok? ==>
              && lease.session in db.sessions && lease.session in db'.sessions && Carries(r.value, inputs)
              && db'.sessions[lease.session].events == db.sessions[lease.session].events + r.value
  {
  }

  lemma AppendEventEffect(db: Db, id: Id, input: EventInput, now: Time, uuid: Id, createdAt: Bytes)
    requires DbOk(db)
    ensures var (db', r) := AppendEvent(db, id, input, now, uuid, createdAt);
            && (r.Ok? <==>
                  && input.kind != Summary && |input.text| <= 0x40_0000 && id in db.sessions
                  && !Live(db.sessions[id].claim, now) && |db.sessions[id].events| < I64_MAX)
            && (r.Err? ==> db' == db)
            && (r.Ok? ==>
                  && OnlySession(db, db', id) && db'.sessions[id].claim.None?
                  && db'.sessions[id].events == db.sessions[id].events + [r.value]
                  && Carries([r.value], [input]) && r.value.id == uuid)
  {
    if id in db.sessions {
      assert SessionOk(db, id);
      LastSequenceIsLength(db.sessions[id].events);
    }
  }

  lemma LiveWorkerIsSeen(db: Db, id: Id, now: Time)
    requires id in db.sessions && !Live(db.sessions[id].claim, now)
    ensures DeleteSession(db, id, now).1.Err? <==> exists j :: IsWorker(db.jobs, id, j) && WorkerLive(db.jobs[j], now)
  {
    if j :| IsWorker(db.jobs, id, j) && WorkerLive(db.jobs[j], now) {
      DeleteSparesWorkers(db, id, now, j);
    }
  }

  /** A deletion succeeds exactly when nobody holds the session and no worker of it is live; then the session
      and its jobs are gone and everything else is as it was. */
  lemma DeleteEffect(db: Db, id: Id, now: Time)
    ensures var (db', r) := DeleteSession(db, id, now);
            && (r.Ok? <==>
                  && id in db.sessions && !Live(db.sessions[id].claim, now)
                  && !exists j :: IsWorker(db.jobs, id, j) && WorkerLive(db.jobs[j], now))
            && (r.Err? ==> db' == db)
            && (r.Ok? ==>
                  && id !in db'.sessions && (forall j | j in db'.jobs :: db'.jobs[j].session != id)
                  && (forall s | s in db.sessions && s != id :: s in db'.sessions && db'.sessions[s] == db.sessions[s])
                  && (forall j | j in db.jobs && db.jobs[j].session != id :: j in db'.jobs && db'.jobs[j] == db.jobs[j])
                  && db'.sessions.Keys <= db.sessions.Keys && db'.jobs.Keys <= db.jobs.Keys && db'.used == db.used)
  {
    if id in db.sessions && !Live(db.sessions[id].claim, now) { LiveWorkerIsSeen(db, id, now); }
  }

  // ----- compactions

  lemma {:induction false} WholeCloses(events: seq<Event>)
    requires WholeTurns(events) && events != []
    ensures var last := events[|events| - 1]; last.turnIndex + 1 == last.turnSize
    decreases |events|
  {
    var n := events[0].turnSize;
    var first, rest := events[..n], events[n..];
    assert IsTurn(first);
    if rest != [] {
      WholeCloses(rest);
    } else {
      assert events[|events| - 1] == first[n - 1];
    }
  }

  /** The last event of a prefix closes a turn exactly when the prefix is made of whole turns. */
  lemma ClosesIffWhole(events: seq<Event>, through: int)
    requires WholeTurns(events) && 0 < through <= |events|
    ensures WholeTurns(events[..through]) <==> events[through - 1].turnIndex + 1 == events[through - 1].turnSize
  {
    WholeCut(events, through - 1);
    if WholeTurns(events[..through]) { WholeCloses(events[..through]); }
  }

  /** What queueing reads at a boundary of a well-formed session. */
  lemma BoundaryRead(db: Db, session: Id, through: int)
    requires DbOk(db) && session in db.sessions
    ensures var events := db.sessions[session].events;
            var row := AtSequence(events, through);
            && (row.Some? <==> 0 < through <= |events|)
            && (row.Some? ==> 0 <= row.value.turnIndex && 0 < row.value.turnSize)
            && (Boundary(events, through) <==>
                  row.Some? && row.value.turnIndex + 1 == row.value.turnSize && through < I64_MAX)
            && (row.Some? ==> (TranscriptProvenance(session, events, through).Ok? <==> Boundary(events, through)))
    ensures forall id | QueuedAt(db.jobs, session, through, id) :: DecodesJob(db.jobs[id])
  {
    var events := db.sessions[session].events;
    assert SessionOk(db, session);
    AtSequenceIsIndex(events, through);
    if 0 < through <= |events| {
      assert events[through - 1] in events;
      ClosesIffWhole(events, through);
      ProvenanceOk(session, events, db.used, through);
    }
    forall id | QueuedAt(db.jobs, session, through, id) ensures DecodesJob(db.jobs[id]) { JobFacts(db, id); }
  }

  /** Queueing succeeds exactly at a boundary between whole turns for which both of its tests hold. */
  lemma QueueSucceedsIff(db: Db, session: Id, through: int, now: Time, uuid: Id)
    requires DbOk(db)
    ensures QueueCompaction(db, session, through, now, uuid).1.Ok? <==>
              && session in db.sessions && Boundary(db.sessions[session].events, through)
              && QueueGuard(db, session, through)
  {
    if session in db.sessions { BoundaryRead(db, session, through); }
  }

  /** After queueing the boundary has the row that is answered, new and pending unless there was one. */
  lemma QueueEffect(db: Db, session: Id, through: int, now: Time, uuid: Id)
    requires RefsOk(db) && uuid !in db.used
    ensures var (db', r) := QueueCompaction(db, session, through, now, uuid);
            && db'.sessions == db.sessions
            && (r.Err? ==> db' == db)
            && (r.Ok? ==>
                  && r.value.0 in db'.jobs && db'.jobs[r.value.0] == r.value.1
                  && r.value.1.session == session && r.value.1.through == through
                  && (r.value.0 in db.jobs ==> db' == db)
                  && (r.value.0 !in db.jobs ==>
                        && r.value.0 == uuid && r.value.1.state == Pending && r.value.1.retryAfter.None?
                        && db'.jobs == db.jobs[uuid := r.value.1]))
  {
  }

  /** A claim takes the oldest of the eligible jobs, for five minutes; it takes none only if there is none. */
  lemma ClaimsOldest(db: Db, now: Time, uuid: Id)
    ensures var (db', w) := ClaimCompaction(db, now, uuid);
            && (w.None? <==> forall id :: !IsEligible(db, now, id))
            && (w.Some? ==>
                  && IsEligible(db, now, w.value.job) && w.value.token == uuid
                  && w.value.through == db.jobs[w.value.job].through && w.value.source == db.jobs[w.value.job].source
                  && (forall other | IsEligible(db, now, other) ::
                        || db.jobs[w.value.job].createdAt < db.jobs[other].createdAt
                        || (db.jobs[w.value.job].createdAt == db.jobs[other].createdAt && w.value.job <= other))
                  && HoldsJob(db', w.value)
                  && forall t :: WorkerLive(db'.jobs[w.value.job], t) <==> t < now + 300)
  {
    RecoverSteady(db, now, MAX_STALE_JOB_RECOVERIES);
    if id :| IsEligible(db, now, id) { ClaimProgress(db, now, uuid, id); }
    var mid := db.(jobs := RecoverUpTo(db.jobs, now, MAX_STALE_JOB_RECOVERIES));
    forall id | IsEligible(db, now, id)
      ensures IsEligible(mid, now, id) && mid.jobs[id].createdAt == db.jobs[id].createdAt
    {
    }
  }

  /** Only one job's row differs, in how far its work has got, and no session. */
  ghost predicate OnlyJob(db: Db, db': Db, id: Id) {
    && db'.sessions == db.sessions && db'.jobs.Keys == db.jobs.Keys && id in db.jobs
    && SameWork(db.jobs[id], db'.jobs[id])
    && forall j | j in db.jobs && j != id :: db'.jobs[j] == db.jobs[j]
  }

  /** While no turn executes, the job can be claimed exactly from `from` on. */
  ghost predicate WaitsUntil(db: Db, id: Id, from: Time)
    requires id in db.jobs
  {
    forall t: Time | !(db.jobs[id].session in db.sessions && Live(db.sessions[db.jobs[id].session].claim, t)) ::
      IsEligible(db, t, id) <==> from <= t
  }

  /** Only the worker that holds a job renews and releases it: a renewed claim lasts five more minutes, and a
      released job can be claimed at once. */
  lemma WorkerEffect(db: Db, w: Worker, now: Time)
    ensures var (db', r) := RenewCompaction(db, w, now);
            && (r.Ok? <==> HoldsJob(db, w)) && (r.Err? ==> db' == db)
            && (r.Ok? ==>
                  && OnlyJob(db, db', w.job) && HoldsJob(db', w)
                  && forall t :: WorkerLive(db'.jobs[w.job], t) <==> t < now + 300)
    ensures var (db', r) := ReleaseCompaction(db, w);
            && (r.Ok? <==> HoldsJob(db, w)) && (r.Err? ==> db' == db)
            && (r.Ok? ==>
                  && OnlyJob(db, db', w.job) && !HoldsJob(db', w)
                  && forall t: Time | !(db.jobs[w.job].session in db.sessions
                                        && Live(db.sessions[db.jobs[w.job].session].claim, t)) ::
                       IsEligible(db', t, w.job))
  {
  }

  /** A failure is recorded exactly for the worker that holds the job, with its diagnostic.  The job then waits
      half a minute after its first failure and a minute after its second; the third one and a permanent one
      end it. */
  lemma FailureEffect(db: Db, w: Worker, error: Bytes, disposition: Disposition, now: Time)
    requires DbOk(db)
    ensures var (db', r) := RecordFailure(db, w, error, disposition, now);
            && (r.Ok? <==> !Store.Blank(error) && |error| <= 4096 && HoldsJob(db, w))
            && (r.Err? ==> db' == db)
            && (r.Ok? ==>
                  && OnlyJob(db, db', w.job) && !HoldsJob(db', w) && db'.jobs[w.job].lastError == Some(error)
                  && var n := db.jobs[w.job].failures;
                     if disposition == Permanent || n >= 2 then
                       db'.jobs[w.job].state == Failed && forall t :: !IsEligible(db', t, w.job)
                     else WaitsUntil(db', w.job, now + (if n == 0 then 30 else 60)))
  {
    if HoldsJob(db, w) {
      JobFacts(db, w.job);
      assert Shift(0) == 1 && Shift(1) == 2 * Shift(0);
    }
  }

  /** A retry succeeds exactly on a failed job; it starts anew and can be claimed at once. */
  lemma RetryEffect(db: Db, id: Id)
    ensures var (db', r) := RetryFailedJob(db, id);
            && (r.Ok? <==> id in db.jobs && db.jobs[id].state == Failed)
            && (r.Err? ==> db' == db)
            && (r.Ok? ==>
                  && OnlyJob(db, db', id) && db'.jobs[id].failures == 0
                  && forall t: Time | !(db.jobs[id].session in db.sessions
                                        && Live(db.sessions[db.jobs[id].session].claim, t)) ::
                       IsEligible(db', t, id))
  {
  }

  /** A session is retitled exactly when nobody holds it, and then anybody may claim it. */
  lemma TitleEffect(db: Db, id: Id, now: Time)
    ensures var (db', r) := SetSessionTitle(db, id, now);
            && (r.Ok? <==> id in db.sessions && !Live(db.sessions[id].claim, now))
            && (r.Err? ==> db' == db)
            && (r.Ok? ==>
                  && OnlySession(db, db', id) && db'.sessions[id] == db.sessions[id].(claim := None)
                  && forall workspace, t, uuid :: ClaimSession(db', id, workspace, t, uuid).1.Ok?
                                                  <==> workspace == db.sessions[id].workspace)
  {
  }

  /** A completion succeeds exactly for the worker that holds the job before its deadline, on a session that
      nobody holds: the source never turns out to have changed.  The summary then carries the given text. */
  lemma CompleteEffect(w: World, token: Id, text: Bytes, now: Time, uuid: Id, createdAt: Bytes)
    requires WorldOk(w) && token in w.workers && 0 <= w.workers[token].through
    ensures var wk := w.workers[token];
            var (db', r) := CompleteCompaction(w.db, wk, text, now, uuid, createdAt);
            && (r.Ok? <==>
                  && |text| <= 0x40_0000 && HoldsJob(w.db, wk) && WorkerLive(w.db.jobs[wk.job], now)
                  && w.db.jobs[wk.job].session in w.db.sessions
                  && !Live(w.db.sessions[w.db.jobs[wk.job].session].claim, now)
                  && |w.db.sessions[w.db.jobs[wk.job].session].events| < I64_MAX)
            && (r.Err? ==> db' == w.db)
            && (r.Ok? ==>
                  && r.value.kind == Summary && r.value.text == text
                  && r.value.meta == Some(SummaryMeta(wk.job, wk.through, wk.source))
                  && db'.sessions == w.db.sessions[w.db.jobs[wk.job].session :=
                       w.db.sessions[w.db.jobs[wk.job].session].(
                         events := w.db.sessions[w.db.jobs[wk.job].session].events + [r.value])]
                  && wk.job in db'.jobs && db'.jobs[wk.job].state == Completed
                  && db'.jobs[wk.job].summaryEvent == Some(r.value.id) && r.value.id == uuid)
  {
    var wk := w.workers[token];
    CompleteWrites(w.db, wk, text, now, uuid, createdAt);
    if wk.job in w.db.jobs {
      JobFacts(w.db, wk.job);
      var j := w.db.jobs[wk.job];
      assert SessionOk(w.db, j.session);
      ProvenanceOk(j.session, w.db.sessions[j.session].events, w.db.used, j.through);
      LastSequenceIsLength(w.db.sessions[j.session].events);
    }
  }
}
