/** The store as the program runs it: one object whose tables the transactions rewrite and lease
    objects that they update.  Each method is proved to do what the transaction of the same name in
    `Store` says, and to keep the database invariant. */
module Database {
  import opened Records
  import opened Turns
  import opened Transcript
  import opened Store
  import opened Ledger
  import opened Integrity
  import opened Replays
  import opened Retries
  import opened Effects

  // ----- the queries have one answer

  lemma OneBoundary(db: Db, session: Id, through: int, id: Id)
    requires DbOk(db) && session in db.sessions && QueuedAt(db.jobs, session, through, id)
    ensures forall other | QueuedAt(db.jobs, session, through, other) :: other == id
  {
    assert SessionOk(db, session) && Of(db.jobs, session, id);
    forall other | QueuedAt(db.jobs, session, through, other) ensures other == id {
      assert Of(db.jobs, session, other);
    }
  }

  lemma OneFirstExpired(jobs: map<Id, Job>, now: Time, a: Id, b: Id)
    requires IsFirstExpired(jobs, now, a) && IsFirstExpired(jobs, now, b)
    ensures a == b
  {
  }

  lemma {:induction false} SomeFirst(jobs: map<Id, Job>, now: Time, ids: set<Id>) returns (id: Id)
    requires ids != {} && forall a | a in ids :: IsExpired(jobs, now, a)
    ensures id in ids && IsExpired(jobs, now, id)
    ensures forall a | a in ids ::
              && IsExpired(jobs, now, a)
              && (|| jobs[id].leaseUntil.value < jobs[a].leaseUntil.value
                  || (jobs[id].leaseUntil.value == jobs[a].leaseUntil.value && id <= a))
    decreases |ids|
  {
    id :| id in ids;
    if ids != {id} {
      var other := SomeFirst(jobs, now, ids - {id});
      forall a | a in ids && a != id ensures a in ids - {id} {}
      if jobs[other].leaseUntil.value < jobs[id].leaseUntil.value
         || (jobs[other].leaseUntil.value == jobs[id].leaseUntil.value && other <= id) {
        id := other;
      }
    }
  }

  function ExpiredIds(jobs: map<Id, Job>, now: Time): set<Id> {
    set id | id in jobs && IsExpired(jobs, now, id)
  }

  /** While a claim has expired there is a first one to recover. */
  lemma FirstExpiredExists(jobs: map<Id, Job>, now: Time)
    requires ExpiredIds(jobs, now) != {}
    ensures exists id :: IsFirstExpired(jobs, now, id)
  {
    var id := SomeFirst(jobs, now, ExpiredIds(jobs, now));
    forall other | other in jobs && IsExpired(jobs, now, other) ensures other in ExpiredIds(jobs, now) {}
    assert IsFirstExpired(jobs, now, id);
  }

  /** Recording one expired claim leaves the rest to do, and the same final table. */
  lemma ExpireOne(jobs: map<Id, Job>, now: Time, id: Id)
    requires IsExpired(jobs, now, id)
    ensures ExpiredIds(Expire(jobs, now, id), now) == ExpiredIds(jobs, now) - {id}
    ensures RecoverAll(Expire(jobs, now, id), now) == RecoverAll(jobs, now)
  {
  }

  lemma NothingExpired(jobs: map<Id, Job>, now: Time)
    requires ExpiredIds(jobs, now) == {}
    ensures RecoverAll(jobs, now) == jobs
  {
    forall id | id in jobs ensures !IsExpired(jobs, now, id) {
      assert id !in ExpiredIds(jobs, now);
    }
  }

  // ----- leases

  class SessionLease {
    const session: Id
    const workspace: int
    const token: Id
    var until: Time
    var lastSequence: int
    var replayed: bool
    var released: bool

    ghost function Value(): Lease
      reads this
    {
      Lease(session, workspace, token, until, lastSequence, replayed, released)
    }

    constructor (session: Id, workspace: int, token: Id, until: Time, lastSequence: int)
      ensures Value() == Lease(session, workspace, token, until, lastSequence, lastSequence == 0, false)
    {
      this.session, this.workspace, this.token := session, workspace, token;
      this.until, this.lastSequence, replayed, released := until, lastSequence, lastSequence == 0, false;
    }
  }

  class MemoryStore {
    var sessions: map<Id, Session>
    var jobs: map<Id, Job>
    ghost var used: set<Id>

    ghost function Rows(): Db
      reads this
    {
      Db(sessions, jobs, used)
    }

    ghost predicate Valid()
      reads this
    {
      HashesStream() && DbOk(Rows())
    }

    constructor ()
      requires HashesStream()
      ensures Valid() && Rows() == Db(map[], map[], {})
    {
      sessions, jobs, used := map[], map[], {};
      new;
      forall s ensures SessionOk(Rows(), s) {}
    }

    // ----- reading a session

    /** Fingerprint the prefix of a session through a boundary. */
    method SourceThrough(session: Id, through: int) returns (r: Result<Provenance>)
      requires HashesStream() && session in sessions
      ensures r == TranscriptProvenance(session, sessions[session].events, through)
    {
      if through <= 0 {
        return Err(Invalid);
      }
      var rows := Through(sessions[session].events, through);
      var digest := HashRows(session, through, rows);
      if digest.None? || |rows| != through || through >= I64_MAX {
        return Err(Corrupt(BadTranscript));
      }
      return Ok(Provenance(through, rows[0].id, rows[through - 1].id, digest.value));
    }

    /** The effective transcript of a session, checked while it is read. */
    method LoadSessionReplay(session: Id) returns (r: Result<Replay>)
      requires Valid() && session in sessions
      ensures r == LoadReplay(Rows(), session)
    {
      var events := sessions[session].events;
      if id :| id in jobs && IsTop(jobs, session, id) {
        assert SessionOk(Rows(), session);
        LoadsTop(Rows(), session, id);
        r := ReplayCompacted(session, id);
      } else {
        var taken := CollectRows(events, [], 0, false);
        if taken.Err? {
          return Err(taken.error);
        }
        CollectDecodes(events, [], 0, false);
        var whole := ValidateReplayTurns(taken.value);
        r := if whole then Ok(Replay(taken.value, LastSequence(events), None)) else Err(Corrupt(BrokenTurns));
      }
    }

    /** The branch of a replay that starts from a completed compaction. */
    method ReplayCompacted(session: Id, id: Id) returns (r: Result<Replay>)
      requires HashesStream() && session in sessions && id in jobs
      ensures r == ReplayWith(session, sessions[session].events, id, jobs[id])
    {
      var events, j := sessions[session].events, jobs[id];
      if j.summaryEvent.None? {
        return Err(Corrupt(MissingSummary));
      }
      if !DecodesJob(j) {
        return Err(Corrupt(Row));
      }
      var source := SourceThrough(session, j.through);
      if source.Err? {
        return Err(source.error);
      }
      if source.value != j.source {
        return Err(Corrupt(SourceChanged));
      }
      var found := WithId(events, j.summaryEvent.value);
      if found.None? {
        return Err(Corrupt(MissingSummary));
      }
      r := ReplayTail(session, id, found.value);
    }

    method ReplayTail(session: Id, id: Id, summary: Event) returns (r: Result<Replay>)
      requires session in sessions && id in jobs
      requires PassesSource(session, sessions[session].events, jobs[id], summary)
      ensures r == ReplayWith(session, sessions[session].events, id, jobs[id])
    {
      var events, j := sessions[session].events, jobs[id];
      var head := CollectRows([summary], [], 0, false);
      if head.Err? {
        return Err(head.error);
      }
      if !SummaryMatches(summary, id, j) {
        return Err(Corrupt(SummaryMismatch));
      }
      var tail := After(events, j.through, summary.id);
      var rows := CollectRows(tail, head.value, |summary.text|, true);
      if rows.Err? {
        return Err(rows.error);
      }
      CollectDecodes([summary], [], 0, false);
      CollectDecodes(tail, head.value, |summary.text|, true);
      var whole := ValidateReplayTurns(rows.value);
      return if whole then Ok(Replay(rows.value, LastSequence(events), Some(j.through))) else Err(Corrupt(BrokenTurns));
    }

    // ----- sessions and their leases

    method StartSession(workspace: int, uuid: Id)
      requires Valid() && uuid !in used
      modifies this
      ensures Valid() && Rows() == Store.StartSession(old(Rows()), workspace, uuid)
    {
      DbStart(Rows(), workspace, uuid);
      sessions := sessions[uuid := Session(workspace, None, [])];
      used := used + {uuid};
    }

    method ClaimSession(id: Id, workspace: int, now: Time, uuid: Id) returns (r: Result<SessionLease>)
      requires Valid() && uuid !in used
      modifies this
      ensures Valid() && Rows() == Store.ClaimSession(old(Rows()), id, workspace, now, uuid).0
      ensures r.Ok? ==> fresh(r.value)
      ensures r.Ok? ==>
                Store.ClaimSession(old(Rows()), id, workspace, now, uuid).1 == Ok(r.value.Value())
      ensures r.Err? ==> Store.ClaimSession(old(Rows()), id, workspace, now, uuid).1 == Err(r.error)
    {
      if id !in sessions {
        return Err(NotFound);
      }
      var session := sessions[id];
      if session.workspace != workspace {
        return Err(WorkspaceMismatch);
      }
      if Live(session.claim, now) {
        return Err(SessionBusy(session.claim.value.until));
      }
      var until := now + SESSION_LEASE;
      DbClaim(Rows(), id, Some(Claim(uuid, until)), used + {uuid});
      sessions := sessions[id := session.(claim := Some(Claim(uuid, until)))];
      used := used + {uuid};
      var lease := new SessionLease(id, workspace, uuid, until, LastSequence(session.events));
      return Ok(lease);
    }

    method RenewSession(lease: SessionLease, workspace: int, now: Time) returns (r: Result<()>)
      requires Valid()
      modifies this, lease
      ensures Valid() && (Rows(), lease.Value(), r) ==
              Store.RenewSession(old(Rows()), old(lease.Value()), workspace, now)
    {
      if workspace != lease.workspace {
        return Err(WorkspaceMismatch);
      }
      if !(lease.session in sessions && sessions[lease.session].claim.Some?
           && sessions[lease.session].claim.value.token == lease.token) {
        return Err(StaleSession);
      }
      var until := now + SESSION_LEASE;
      DbClaim(Rows(), lease.session, Some(Claim(lease.token, until)), used);
      sessions := sessions[lease.session := sessions[lease.session].(claim := Some(Claim(lease.token, until)))];
      lease.until := until;
      return Ok(());
    }

    method ReleaseSession(lease: SessionLease) returns (r: Result<()>)
      requires Valid()
      modifies this, lease
      ensures Valid() && (Rows(), lease.Value(), r) == Store.ReleaseSession(old(Rows()), old(lease.Value()))
    {
      if lease.released {
        return Ok(());
      }
      if !(lease.session in sessions && sessions[lease.session].claim.Some?
           && sessions[lease.session].claim.value.token == lease.token) {
        return Err(StaleSession);
      }
      DbClaim(Rows(), lease.session, None, used);
      sessions := sessions[lease.session := sessions[lease.session].(claim := None)];
      lease.released := true;
      return Ok(());
    }

    method ValidateSessionLease(lease: SessionLease, now: Time) returns (r: Result<()>)
      ensures r == Store.ValidateSessionLease(Rows(), lease.Value(), now)
    {
      if lease.session !in sessions {
        return Err(NotFound);
      }
      var claim := sessions[lease.session].claim;
      if claim.None? || claim.value.token != lease.token || claim.value.until <= now {
        return Err(StaleSession);
      }
      return Ok(());
    }

    method ReplaySession(lease: SessionLease, workspace: int, now: Time) returns (r: Result<Replay>)
      requires Valid()
      modifies lease
      ensures (lease.Value(), r) == Store.ReplaySession(Rows(), old(lease.Value()), workspace, now)
    {
      if workspace != lease.workspace {
        return Err(WorkspaceMismatch);
      }
      var live := ValidateSessionLease(lease, now);
      if live.Err? {
        return Err(live.error);
      }
      r := LoadSessionReplay(lease.session);
      if r.Ok? {
        lease.lastSequence, lease.replayed := r.value.lastSequence, true;
      }
    }

    /** The checks on a turn and on the lease that writes it. */
    method ReadyToAppend(lease: SessionLease, workspace: int, inputs: seq<EventInput>, now: Time)
      returns (r: Result<()>)
      ensures r == if !PreparesTurn(inputs) then Err(Invalid)
                   else if !lease.replayed then Err(ReplayRequired)
                   else if workspace != lease.workspace then Err(WorkspaceMismatch)
                   else Store.ValidateSessionLease(Rows(), lease.Value(), now)
    {
      var prepared := PrepareTurn(inputs);
      if !prepared {
        return Err(Invalid);
      }
      if !lease.replayed {
        return Err(ReplayRequired);
      }
      if workspace != lease.workspace {
        return Err(WorkspaceMismatch);
      }
      r := ValidateSessionLease(lease, now);
    }

    /** Write the rows of a turn and move the lease on. */
    method WriteTurn(lease: SessionLease, rows: seq<Event>, last: int, now: Time, ghost turnId: Id, ghost ids: seq<Id>)
      requires lease.session in sessions
      modifies this`sessions, this`used, lease`lastSequence, lease`until
      ensures Rows() == AppendRows(old(Rows()), lease.session, rows, Some(Claim(lease.token, now + SESSION_LEASE)),
                                   {turnId} + set i | i in ids)
      ensures lease.Value() == old(lease.Value()).(lastSequence := last, until := now + SESSION_LEASE)
    {
      var session := sessions[lease.session];
      var until := now + SESSION_LEASE;
      session := session.(events := session.events + rows, claim := Some(Claim(lease.token, until)));
      sessions := sessions[lease.session := session];
      used := used + ({turnId} + set i | i in ids);
      lease.lastSequence, lease.until := last, until;
    }

    /** Append one atomic turn: all of its rows or none. */
    method AppendTurn(lease: SessionLease, workspace: int, inputs: seq<EventInput>, now: Time,
                      turnId: Id, ids: seq<Id>, createdAt: Bytes) returns (r: Result<seq<Event>>)
      requires Valid() && |ids| == |inputs|
      requires forall i | 0 <= i < |ids| :: ids[i] !in used
      requires forall i, j | 0 <= i < j < |ids| :: ids[i] != ids[j]
      modifies this, lease
      ensures Valid()
      ensures (Rows(), lease.Value(), r) ==
              Store.AppendTurn(old(Rows()), old(lease.Value()), workspace, inputs, now, turnId, ids, createdAt)
      ensures r.Ok? ==>
                && lease.session in old(sessions) && lease.session in sessions && Carries(r.value, inputs)
                && sessions[lease.session].events == old(sessions)[lease.session].events + r.value
    {
      TurnCarries(Rows(), lease.Value(), workspace, inputs, now, turnId, ids, createdAt);
      DbAppendTurn(Rows(), lease.Value(), workspace, inputs, now, turnId, ids, createdAt);
      var ready := ReadyToAppend(lease, workspace, inputs, now);
      if ready.Err? {
        return Err(ready.error);
      }
      var session := sessions[lease.session];
      var last := LastSequence(session.events);
      if last != lease.lastSequence {
        lease.replayed := false;
        return Err(StaleReplay(lease.lastSequence, last));
      }
      var rows := BuildTurn(inputs, last, turnId, ids, createdAt);
      if rows.Err? {
        return Err(rows.error);
      }
      AppendSucceeds(Rows(), lease.Value(), workspace, inputs, now, turnId, ids, createdAt);
      WriteTurn(lease, rows.value, last + |inputs|, now, turnId, ids);
      return rows;
    }

    /** Append one event to a session that nobody executes. */
    method AppendEvent(id: Id, input: EventInput, now: Time, uuid: Id, createdAt: Bytes) returns (r: Result<Event>)
      requires Valid() && uuid !in used
      modifies this
      ensures Valid() && (Rows(), r) == Store.AppendEvent(old(Rows()), id, input, now, uuid, createdAt)
    {
      if input.kind == Summary || |input.text| > MAX_EVENT_BYTES {
        return Err(Invalid);
      }
      if id !in sessions {
        return Err(NotFound);
      }
      var session := sessions[id];
      if Live(session.claim, now) {
        return Err(SessionBusy(session.claim.value.until));
      }
      var sequence := LastSequence(session.events) + 1;
      if sequence > I64_MAX {
        return Err(Corrupt(Overflow));
      }
      DbAppendEvent(Rows(), id, input, now, uuid, createdAt);
      var row := Event(uuid, sequence, uuid, 0, 1, input.kind, input.text, input.meta, createdAt);
      sessions := sessions[id := session.(events := session.events + [row], claim := None)];
      used := used + {uuid};
      return Ok(row);
    }

    /** Retitle a session that nobody executes; an expired claim is cleared. */
    method SetSessionTitle(id: Id, now: Time) returns (r: Result<()>)
      requires Valid()
      modifies this
      ensures Valid() && (Rows(), r) == Store.SetSessionTitle(old(Rows()), id, now)
    {
      if id !in sessions {
        return Err(NotFound);
      }
      if Live(sessions[id].claim, now) {
        return Err(SessionBusy(sessions[id].claim.value.until));
      }
      DbClaim(Rows(), id, None, used);
      sessions := sessions[id := sessions[id].(claim := None)];
      return Ok(());
    }

    method DeleteSession(id: Id, now: Time) returns (r: Result<()>)
      requires Valid()
      modifies this
      ensures Valid() && (Rows(), r) == Store.DeleteSession(old(Rows()), id, now)
      ensures r.Ok? ==>
                && id !in sessions && (forall j | j in jobs :: jobs[j].session != id)
                && (forall s | s in old(sessions) && s != id :: s in sessions && sessions[s] == old(sessions)[s])
                && (forall j | j in old(jobs) && old(jobs)[j].session != id :: j in jobs && jobs[j] == old(jobs)[j])
    {
      DeleteEffect(Rows(), id, now);
      if id !in sessions {
        return Err(NotFound);
      }
      if Live(sessions[id].claim, now) {
        return Err(SessionBusy(sessions[id].claim.value.until));
      }
      DbDelete(Rows(), id, now);
      if j :| j in jobs && IsLatestWorker(jobs, id, j) {
        if WorkerLive(jobs[j], now) {
          return Err(SessionBusy(jobs[j].leaseUntil.value));
        }
      }
      sessions, jobs := sessions - {id}, map j | j in jobs && jobs[j].session != id :: jobs[j];
      return Ok(());
    }

    // ----- the compaction queue

    method QueueCompaction(session: Id, through: int, now: Time, uuid: Id) returns (r: Result<(Id, Job)>)
      requires Valid() && uuid !in used
      modifies this
      ensures Valid() && (Rows(), r) == Store.QueueCompaction(old(Rows()), session, through, now, uuid)
    {
      DbQueue(Rows(), session, through, now, uuid);
      if through <= 0 || through > I64_MAX {
        return Err(Invalid);
      }
      if a :| a in jobs && IsOldestActive(jobs, session, a) {
        if jobs[a].through != through {
          return Err(Invalid);
        }
        assert forall b | IsOldestActive(jobs, session, b) :: b == a;
      }
      if session !in sessions {
        return Err(Invalid);
      }
      var events := sessions[session].events;
      var boundary := AtSequence(events, through);
      if boundary.None? {
        return Err(Invalid);
      }
      var index, size := boundary.value.turnIndex, boundary.value.turnSize;
      if index < 0 || size <= 0 || index + 1 != size {
        return Err(Invalid);
      }
      if SummaryAfter(events, jobs, session, through) {
        return Err(Invalid);
      }
      var source := SourceThrough(session, through);
      if source.Err? {
        return Err(source.error);
      }
      if id :| id in jobs && QueuedAt(jobs, session, through, id) {
        OneBoundary(Rows(), session, through, id);
        return if DecodesJob(jobs[id]) then Ok((id, jobs[id])) else Err(Corrupt(Row));
      }
      var j := NewJob(session, through, source.value, now);
      jobs, used := jobs[uuid := j], used + {uuid};
      return Ok((uuid, j));
    }

    /** Record the first expired claim, if there is one, as a failed attempt. */
    method RecoverOne(now: Time) returns (found: bool)
      modifies this
      ensures sessions == old(sessions) && used == old(used)
      ensures found <==> ExpiredIds(old(jobs), now) != {}
      ensures found ==> exists id :: IsFirstExpired(old(jobs), now, id) && jobs == Expire(old(jobs), now, id)
      ensures !found ==> jobs == old(jobs)
    {
      if id :| id in jobs && IsFirstExpired(jobs, now, id) {
        assert id in ExpiredIds(jobs, now);
        jobs := Expire(jobs, now, id);
        return true;
      }
      if ExpiredIds(jobs, now) != {} {
        FirstExpiredExists(jobs, now);
        assert false;
      }
      return false;
    }

    /** Drain every expired claim; the loop ends with exactly those recorded as failed attempts. */
    method RecoverStale(now: Time) returns (changed: nat)
      requires Valid()
      modifies this
      ensures Valid() && Rows() == old(Rows()).(jobs := RecoverAll(old(jobs), now))
      ensures changed == |ExpiredIds(old(jobs), now)| && ExpiredIds(jobs, now) == {}
    {
      DbRecoverAll(Rows(), now);
      changed := 0;
      var more := true;
      while more
        invariant sessions == old(sessions) && used == old(used)
        invariant RecoverAll(jobs, now) == RecoverAll(old(jobs), now)
        invariant changed + |ExpiredIds(jobs, now)| == |ExpiredIds(old(jobs), now)|
        invariant !more ==> ExpiredIds(jobs, now) == {}
        decreases more, |ExpiredIds(jobs, now)|
      {
        ghost var before := jobs;
        more := RecoverOne(now);
        if more {
          ghost var id :| IsFirstExpired(before, now, id) && jobs == Expire(before, now, id);
          ExpireOne(before, now, id);
          assert id in ExpiredIds(before, now);
          changed := changed + 1;
        }
      }
      NothingExpired(jobs, now);
    }

    /** Recover a bounded number of expired claims, then start the oldest eligible job. */
    method ClaimCompaction(now: Time, uuid: Id) returns (w: Option<Worker>)
      requires Valid() && uuid !in used
      modifies this
      ensures Valid() && (Rows(), w) == Store.ClaimCompaction(old(Rows()), now, uuid)
    {
      DbClaimJob(Rows(), now, uuid);
      var left, more := MAX_STALE_JOB_RECOVERIES, true;
      while left > 0 && more
        invariant sessions == old(sessions) && used == old(used)
        invariant RecoverUpTo(jobs, now, left) == RecoverUpTo(old(jobs), now, MAX_STALE_JOB_RECOVERIES)
        invariant !more ==> ExpiredIds(jobs, now) == {}
      {
        ghost var before := jobs;
        more := RecoverOne(now);
        RecoverNext(before, now, left);
        left := left - 1;
      }
      RecoverDone(jobs, now, left);
      if id :| id in jobs && IsOldestEligible(Db(sessions, jobs, {}), now, id) {
        OneOldest(Rows(), now, id);
        var j := jobs[id];
        jobs, used := jobs[id := StartJob(j, uuid, now)], used + {uuid};
        return Some(Worker(id, uuid, j.through, j.source));
      }
      SameEligible(Rows(), now);
      return None;
    }

    method RenewCompaction(w: Worker, now: Time) returns (r: Result<()>)
      requires Valid()
      modifies this
      ensures Valid() && (Rows(), r) == Store.RenewCompaction(old(Rows()), w, now)
    {
      DbRenew(Rows(), w, now);
      if !(w.job in jobs && jobs[w.job].state == Running && jobs[w.job].claimToken == Some(w.token)) {
        return Err(Invalid);
      }
      jobs := jobs[w.job := jobs[w.job].(leaseUntil := Some(now + COMPACTION_LEASE))];
      return Ok(());
    }

    method RecordFailure(w: Worker, error: Bytes, disposition: Disposition, now: Time) returns (r: Result<()>)
      requires Valid()
      modifies this
      ensures Valid() && (Rows(), r) == Store.RecordFailure(old(Rows()), w, error, disposition, now)
    {
      DbFail(Rows(), w, error, disposition, now);
      if Blank(error) || |error| > MAX_JOB_FAILURE_BYTES {
        return Err(Invalid);
      }
      if !(w.job in jobs && jobs[w.job].state == Running && jobs[w.job].claimToken == Some(w.token)) {
        return Err(StaleCompaction);
      }
      jobs := jobs[w.job := FailureTransition(jobs[w.job], error, disposition, now)];
      return Ok(());
    }

    method ReleaseCompaction(w: Worker) returns (r: Result<()>)
      requires Valid()
      modifies this
      ensures Valid() && (Rows(), r) == Store.ReleaseCompaction(old(Rows()), w)
    {
      DbRelease(Rows(), w);
      if !(w.job in jobs && jobs[w.job].state == Running && jobs[w.job].claimToken == Some(w.token)) {
        return Err(StaleCompaction);
      }
      jobs := jobs[w.job := jobs[w.job].(state := Pending, claimToken := None, leaseUntil := None, retryAfter := None)];
      return Ok(());
    }

    method ValidateCompactionLease(w: Worker, now: Time) returns (r: Result<()>)
      requires HashesStream()
      ensures r == Store.ValidateCompactionLease(Rows(), w, now)
    {
      if w.job !in jobs {
        return Err(NotFound);
      }
      var j := jobs[w.job];
      if j.state != Running || j.claimToken != Some(w.token) || j.leaseUntil.None? || j.leaseUntil.value <= now
         || j.source != w.source {
        return Err(StaleCompaction);
      }
      if j.session !in sessions {
        return Err(NotFound);
      }
      var source := SourceThrough(j.session, j.through);
      if source.Err? {
        return Err(source.error);
      }
      return if source.value != j.source then Err(Corrupt(SourceChanged)) else Ok(());
    }

    method CompleteCompaction(w: Worker, text: Bytes, now: Time, uuid: Id, createdAt: Bytes) returns (r: Result<Event>)
      requires Valid() && uuid !in used && 0 <= w.through
      requires w.job in jobs ==> jobs[w.job].through == w.through
      modifies this
      ensures Valid() && (Rows(), r) == Store.CompleteCompaction(old(Rows()), w, text, now, uuid, createdAt)
    {
      DbComplete(Rows(), w, text, now, uuid, createdAt);
      if |text| > MAX_EVENT_BYTES {
        return Err(Invalid);
      }
      var held := ValidateCompactionLease(w, now);
      if held.Err? {
        return Err(held.error);
      }
      var j := jobs[w.job];
      var session := sessions[j.session];
      if Live(session.claim, now) {
        return Err(SessionBusy(session.claim.value.until));
      }
      var sequence := LastSequence(session.events) + 1;
      if sequence > I64_MAX {
        return Err(Corrupt(Overflow));
      }
      var row := SummaryRow(w, sequence, text, uuid, createdAt);
      sessions := sessions[j.session := session.(events := session.events + [row])];
      jobs, used := jobs[w.job := FinishJob(j, uuid)], used + {uuid};
      return Ok(row);
    }

    method RetryFailedJob(id: Id) returns (r: Result<()>)
      requires Valid()
      modifies this
      ensures Valid() && (Rows(), r) == Store.RetryFailedJob(old(Rows()), id)
    {
      DbRetry(Rows(), id);
      if id !in jobs || jobs[id].state != Failed {
        return Err(NotFound);
      }
      var j := jobs[id];
      jobs := jobs[id := j.(state := Pending, failures := 0, retryAfter := None, lastError := None, failedAt := None)];
      return Ok(());
    }
  }

  /** What an append that passes its checks writes. */
  lemma AppendSucceeds(db: Db, lease: Lease, workspace: int, inputs: seq<EventInput>, now: Time, turnId: Id,
                       ids: seq<Id>, createdAt: Bytes)
    requires |ids| == |inputs| && PreparesTurn(inputs) && lease.replayed && workspace == lease.workspace
    requires Store.ValidateSessionLease(db, lease, now).Ok?
    requires LastSequence(db.sessions[lease.session].events) == lease.lastSequence
    requires lease.lastSequence + |inputs| <= I64_MAX
    ensures var (rows, until) := (TurnRows(inputs, lease.lastSequence, turnId, ids, createdAt), now + SESSION_LEASE);
            AppendTurn(db, lease, workspace, inputs, now, turnId, ids, createdAt) ==
            (AppendRows(db, lease.session, rows, Some(Claim(lease.token, until)), {turnId} + set i | i in ids),
             lease.(lastSequence := lease.lastSequence + |inputs|, until := until), Ok(rows))
  {
  }

  // ----- recovery in the order of the query

  lemma RecoverNext(jobs: map<Id, Job>, now: Time, limit: nat)
    requires limit > 0
    ensures ExpiredIds(jobs, now) == {} ==> RecoverUpTo(jobs, now, limit) == RecoverUpTo(jobs, now, limit - 1)
    ensures forall id | IsFirstExpired(jobs, now, id) ::
              RecoverUpTo(jobs, now, limit) == RecoverUpTo(Expire(jobs, now, id), now, limit - 1)
  {
    if ExpiredIds(jobs, now) == {} {
      forall id ensures !IsFirstExpired(jobs, now, id) { assert id !in ExpiredIds(jobs, now); }
    }
    forall id, other | IsFirstExpired(jobs, now, id) && IsFirstExpired(jobs, now, other) ensures id == other {
      OneFirstExpired(jobs, now, id, other);
    }
  }

  lemma RecoverDone(jobs: map<Id, Job>, now: Time, limit: nat)
    requires limit == 0 || ExpiredIds(jobs, now) == {}
    ensures RecoverUpTo(jobs, now, limit) == jobs
  {
    if limit > 0 {
      forall id ensures !IsFirstExpired(jobs, now, id) { assert id !in ExpiredIds(jobs, now); }
    }
  }

  lemma OneOldest(db: Db, now: Time, id: Id)
    requires IsOldestEligible(Db(db.sessions, db.jobs, {}), now, id)
    ensures IsOldestEligible(db, now, id) && forall other | IsOldestEligible(db, now, other) :: other == id
  {
    forall a ensures IsEligible(Db(db.sessions, db.jobs, {}), now, a) <==> IsEligible(db, now, a) {}
  }

  lemma SameEligible(db: Db, now: Time)
    ensures (exists id :: IsOldestEligible(db, now, id)) <==>
            (exists id :: IsOldestEligible(Db(db.sessions, db.jobs, {}), now, id))
  {
    forall a ensures IsEligible(Db(db.sessions, db.jobs, {}), now, a) <==> IsEligible(db, now, a) {}
    forall a ensures IsOldestEligible(Db(db.sessions, db.jobs, {}), now, a) <==> IsOldestEligible(db, now, a) {}
  }

  // ----- the loops over rows

  /** Take rows while they fit, decode and are allowed. */
  method CollectRows(rows: seq<Event>, taken: seq<Event>, bytes: nat, compacted: bool) returns (r: Result<seq<Event>>)
    ensures r == Collect(rows, taken, bytes, compacted)
  {
    var events, total: nat := taken, bytes;
    for i := 0 to |rows|
      invariant Collect(rows[i..], events, total, compacted) == Collect(rows, taken, bytes, compacted)
    {
      var row := rows[i];
      assert rows[i..][0] == row && rows[i..][1..] == rows[i + 1..];
      if compacted && row.kind == Summary {
        return Err(Corrupt(SecondSummary));
      }
      if |events| >= MAX_REPLAY_EVENTS {
        return Err(TooLarge);
      }
      total := total + |row.text|;
      if total > MAX_REPLAY_BYTES {
        return Err(TooLarge);
      }
      if !DecodesEvent(row) {
        return Err(Corrupt(BadEvent));
      }
      events := events + [row];
    }
    return Ok(events);
  }

  lemma {:induction false} CollectDecodes(rows: seq<Event>, taken: seq<Event>, bytes: nat, compacted: bool)
    requires forall e | e in taken :: 0 <= e.turnSize
    ensures Collect(rows, taken, bytes, compacted).Ok? ==>
              forall e | e in Collect(rows, taken, bytes, compacted).value :: 0 <= e.turnSize
    decreases |rows|
  {
    if rows != [] && DecodesEvent(rows[0]) {
      CollectDecodes(rows[1..], taken + [rows[0]], bytes + |rows[0].text|, compacted);
    }
  }

  /** The checks of a replay up to its summary have passed. */
  ghost predicate PassesSource(session: Id, events: seq<Event>, j: Job, summary: Event) {
    && j.summaryEvent.Some? && DecodesJob(j)
    && TranscriptProvenance(session, events, j.through) == Ok(j.source)
    && WithId(events, j.summaryEvent.value) == Some(summary)
  }

  /** Check the size and kinds of a proposed turn. */
  method PrepareTurn(inputs: seq<EventInput>) returns (ok: bool)
    ensures ok <==> PreparesTurn(inputs)
  {
    if |inputs| == 0 || |inputs| > MAX_TURN_EVENTS {
      return false;
    }
    var total := 0;
    assert inputs[..0] == [];
    for i := 0 to |inputs|
      invariant total == TotalBytes(inputs[..i]) <= MAX_TURN_BYTES
      invariant forall k | 0 <= k < i :: inputs[k].kind != Summary && |inputs[k].text| <= MAX_EVENT_BYTES
    {
      var input := inputs[i];
      assert input in inputs;
      if input.kind == Summary || |input.text| > MAX_EVENT_BYTES {
        return false;
      }
      total := total + |input.text|;
      assert inputs[..i + 1][..i] == inputs[..i];
      if total > MAX_TURN_BYTES {
        TotalBytesGrows(inputs, i + 1);
        return false;
      }
    }
    assert inputs[..|inputs|] == inputs;
    return true;
  }

  lemma {:induction false} TotalBytesGrows(inputs: seq<EventInput>, n: nat)
    requires n <= |inputs|
    ensures TotalBytes(inputs[..n]) <= TotalBytes(inputs)
    decreases |inputs|
  {
    if n < |inputs| {
      var front := inputs[..|inputs| - 1];
      assert front[..n] == inputs[..n];
      TotalBytesGrows(front, n);
    } else {
      assert inputs[..n] == inputs;
    }
  }

  /** The rows of one turn, or an overflow of the sequence counter. */
  method BuildTurn(inputs: seq<EventInput>, last: int, turnId: Id, ids: seq<Id>, createdAt: Bytes)
    returns (r: Result<seq<Event>>)
    requires |ids| == |inputs| > 0
    ensures r == if last + |inputs| > I64_MAX then Err(Corrupt(Overflow))
            else Ok(TurnRows(inputs, last, turnId, ids, createdAt))
    ensures r.Ok? ==> Carries(r.value, inputs)
  {
    var appended := [];
    for i := 0 to |inputs|
      invariant i > 0 ==> last + i <= I64_MAX
      invariant appended == TurnRows(inputs, last, turnId, ids, createdAt)[..i]
    {
      var sequence := last + i + 1;
      if sequence > I64_MAX {
        return Err(Corrupt(Overflow));
      }
      var input := inputs[i];
      var row := Event(ids[i], sequence, turnId, i, |inputs|, input.kind, input.text, input.meta, createdAt);
      appended := appended + [row];
    }
    assert appended == TurnRows(inputs, last, turnId, ids, createdAt);
    return Ok(appended);
  }


  /** The rows read so far are numbered from 1, the checker is in `state`, and `stream` was hashed. */
  ghost predicate Fed(session: Id, through: int, rows: seq<Event>, state: Open, stream: Bytes) {
    && Contiguous(rows) && AdvanceAll(CLOSED, rows) == Some(state)
    && stream == Encode(UuidText(session), through, RawAll(rows))
  }

  lemma FedNone(session: Id, through: int)
    ensures Fed(session, through, [], CLOSED, Header(TextBytes(TAG), UuidText(session), through))
  {
    EncodeNone(UuidText(session), through);
    assert RawAll([]) == [];
  }

  lemma StreamOne(session: Id, through: int, rows: seq<Event>, event: Event)
    ensures Encode(UuidText(session), through, RawAll(rows + [event])) ==
            Encode(UuidText(session), through, RawAll(rows)) + EncodeEvent(Raw(event))
  {
    assert RawAll(rows + [event]) == RawAll(rows) + [Raw(event)];
    EncodeSnoc(UuidText(session), through, RawAll(rows), Raw(event));
  }

  lemma CheckOne(rows: seq<Event>, i: nat)
    requires i < |rows| && Contiguous(rows[..i]) && AdvanceAll(CLOSED, rows[..i]).Some?
    ensures var state := AdvanceAll(CLOSED, rows[..i]).value;
            && (rows[i].sequence != i + 1 ==> !Contiguous(rows))
            && (Advance(state, rows[i]).None? ==> AdvanceAll(CLOSED, rows).None?)
            && (rows[i].sequence == i + 1 ==> Contiguous(rows[..i] + [rows[i]]))
            && AdvanceAll(CLOSED, rows[..i] + [rows[i]]) == Advance(state, rows[i])
  {
    AdvanceSnoc(CLOSED, rows[..i], rows[i]);
    if Advance(AdvanceAll(CLOSED, rows[..i]).value, rows[i]).None? {
      assert rows[..i + 1] == rows[..i] + [rows[i]];
      AdvanceStuck(rows, i + 1);
    }
  }

  lemma FedOne(session: Id, through: int, rows: seq<Event>, i: nat, state: Open, stream: Bytes)
    requires i < |rows| && Fed(session, through, rows[..i], state, stream)
    ensures rows[i].sequence != i + 1 ==> !Contiguous(rows)
    ensures Advance(state, rows[i]).None? ==> AdvanceAll(CLOSED, rows).None?
    ensures rows[i].sequence == i + 1 && Advance(state, rows[i]).Some? ==>
              Fed(session, through, rows[..i + 1], Advance(state, rows[i]).value, stream + EncodeEvent(Raw(rows[i])))
  {
    PrefixSnoc(rows, i);
    CheckOne(rows, i);
    StreamOne(session, through, rows[..i], rows[i]);
  }

  /** The hashing loop: check numbering and turns row by row while feeding the hash. */
  method HashRows(session: Id, through: int, rows: seq<Event>) returns (digest: Option<Bytes>)
    ensures digest.Some? <==> Contiguous(rows) && WholeTurns(rows)
    ensures digest.Some? ==> digest.value == Sha256(Encode(UuidText(session), through, RawAll(rows)))
    ensures digest.Some? <==> Contiguous(rows) && AdvanceAll(CLOSED, rows) == Some(CLOSED)
  {
    var stream := Header(TextBytes(TAG), UuidText(session), through);
    FedNone(session, through);
    AdvanceClosed(rows);
    var turn := new ProvenanceTurn();
    assert rows[..0] == [];
    for i := 0 to |rows|
      invariant fresh(turn) && Fed(session, through, rows[..i], turn.State(), stream)
    {
      FedOne(session, through, rows, i, turn.State(), stream);
      if rows[i].sequence != i + 1 {
        return None;
      }
      var ok := turn.Validate(rows[i]);
      if !ok {
        return None;
      }
      stream := stream + EncodeEvent(Raw(rows[i]));
    }
    assert rows[..|rows|] == rows;
    if turn.id.Some? {
      return None;
    }
    AdvanceRests(rows);
    return Some(Sha256(stream));
  }

  /** The streaming checker does not recover from an error. */
  lemma {:induction false} AdvanceStuck(rows: seq<Event>, n: nat)
    requires n <= |rows| && AdvanceAll(CLOSED, rows[..n]).None?
    ensures AdvanceAll(CLOSED, rows).None?
    decreases |rows| - n
  {
    if n < |rows| {
      assert rows[..n + 1] == rows[..n] + [rows[n]];
      AdvanceSnoc(CLOSED, rows[..n], rows[n]);
      AdvanceStuck(rows, n + 1);
    } else {
      assert rows[..n] == rows;
    }
  }

  /** A checker with no open turn is in its initial state. */
  lemma {:induction false} AdvanceRests(rows: seq<Event>)
    requires AdvanceAll(CLOSED, rows).Some?
    ensures AdvanceAll(CLOSED, rows).value.id.None? ==> AdvanceAll(CLOSED, rows) == Some(CLOSED)
  {
    if rows != [] {
      var n := |rows| - 1;
      assert rows == rows[..n] + [rows[n]];
      AdvanceSnoc(CLOSED, rows[..n], rows[n]);
    }
  }
}
