/** What every transaction keeps: the shape of a session's events, of its job rows, and of the chain
    its compactions form. */
module Ledger {
  import opened Records
  import opened Turns
  import opened Transcript
  import opened Store

  // ----- queries on well-formed events

  ghost predicate Distinct(events: seq<Event>) {
    forall i, j | 0 <= i < j < |events| :: events[i].id != events[j].id
  }

  lemma {:induction false} LastSequenceIsLength(events: seq<Event>)
    requires Contiguous(events)
    ensures LastSequence(events) == |events|
  {
    if events != [] { LastSequenceIsLength(events[..|events| - 1]); }
  }

  lemma {:induction false} ThroughIsPrefix(events: seq<Event>, t: int)
    requires Contiguous(events) && 0 <= t <= |events|
    ensures Through(events, t) == events[..t]
  {
    if events != [] {
      var n := |events| - 1;
      var front := events[..n];
      if t <= n {
        ThroughIsPrefix(front, t);
        assert front[..t] == events[..t];
      } else {
        ThroughIsPrefix(front, n);
        ThroughAll(front, n, t);
        assert events[..t] == front + [events[n]];
      }
    }
  }

  lemma {:induction false} ThroughAll(events: seq<Event>, m: int, t: int)
    requires Contiguous(events) && |events| <= m && |events| <= t
    ensures Through(events, m) == Through(events, t)
  {
    if events != [] { ThroughAll(events[..|events| - 1], m, t); }
  }

  lemma {:induction false} AtSequenceIsIndex(events: seq<Event>, t: int)
    requires Contiguous(events)
    ensures AtSequence(events, t) == if 1 <= t <= |events| then Some(events[t - 1]) else None
  {
    if events != [] { AtSequenceIsIndex(events[..|events| - 1], t); }
  }

  lemma {:induction false} WithIdIsIndex(events: seq<Event>, k: nat)
    requires Distinct(events) && k < |events|
    ensures WithId(events, events[k].id) == Some(events[k])
  {
    if k < |events| - 1 { WithIdIsIndex(events[..|events| - 1], k); }
  }

  lemma FrontCuts(events: seq<Event>, t: nat, k: nat)
    requires t <= k < |events| - 1
    ensures var (n, front) := (|events| - 1, events[..|events| - 1]);
            front[t..k] == events[t..k] && front[k] == events[k]
            && events[t..k] + events[k + 1..] == front[t..k] + front[k + 1..] + [events[n]]
  {
  }

  lemma LastCut(events: seq<Event>, t: nat)
    requires t < |events|
    ensures var n := |events| - 1; events[..n][t..] == events[t..n] == events[t..n] + events[n + 1..]
  {
  }

  lemma {:induction false} AfterIsTail(events: seq<Event>, t: nat, k: nat)
    requires Contiguous(events) && Distinct(events) && t <= k < |events|
    ensures After(events, t, events[k].id) == events[t..k] + events[k + 1..]
    decreases |events|
  {
    var n := |events| - 1;
    var front := events[..n];
    if k < n {
      AfterIsTail(front, t, k);
      FrontCuts(events, t, k);
    } else {
      AfterWithoutId(front, t, events[k].id);
      LastCut(events, t);
    }
  }

  lemma TailSnoc(events: seq<Event>, t: nat)
    requires t < |events|
    ensures var n := |events| - 1; events[t..] == events[..n][t..] + [events[n]]
  {
  }

  lemma {:induction false} AfterWithoutId(events: seq<Event>, t: nat, id: Id)
    requires Contiguous(events) && t <= |events|
    requires forall e | e in events :: e.id != id
    ensures After(events, t, id) == events[t..]
    decreases |events|
  {
    if events != [] {
      var n := |events| - 1;
      var front := events[..n];
      if t <= n {
        AfterWithoutId(front, t, id);
        TailSnoc(events, t);
      } else {
        AfterNone(events, t, id);
      }
    }
  }

  lemma {:induction false} AfterNone(events: seq<Event>, t: nat, id: Id)
    requires Contiguous(events) && |events| <= t
    ensures After(events, t, id) == []
  {
    if events != [] { AfterNone(events[..|events| - 1], t, id); }
  }

  // ----- the invariant

  /** The events of one session: numbered from 1, distinct, decodable and made of whole turns. */
  ghost predicate EventsOk(events: seq<Event>, used: set<Id>) {
    && Contiguous(events) && Distinct(events) && WholeTurns(events) && |events| <= I64_MAX
    && forall e | e in events :: DecodesEvent(e) && e.id in used
  }

  /** The fingerprint of a session's first `through` events. */
  ghost function SourceOf(session: Id, events: seq<Event>, through: int): Provenance
    requires 0 < through <= |events|
  {
    Provenance(through, events[0].id, events[through - 1].id, Fingerprint(session, through, events[..through]))
  }

  ghost predicate Boundary(events: seq<Event>, through: int) {
    0 < through <= |events| && through < I64_MAX && WholeTurns(events[..through])
  }

  /** The position of the event with a given identity, or -1. */
  ghost function Slot(events: seq<Event>, id: Id): (k: int)
    ensures -1 <= k < |events|
    ensures k >= 0 ==> events[k].id == id
  {
    if events == [] then -1
    else if events[|events| - 1].id == id then |events| - 1
    else Slot(events[..|events| - 1], id)
  }

  /** Where the summary of a completed compaction lies. */
  ghost function SummarySlot(events: seq<Event>, j: Job): int {
    if j.summaryEvent.None? then -1 else Slot(events, j.summaryEvent.value)
  }

  /** The summary a completed compaction wrote lies after its boundary and names it. */
  ghost predicate SummaryOk(events: seq<Event>, id: Id, j: Job) {
    var k := SummarySlot(events, j);
    && 0 <= j.through <= k
    && events[k].kind == Summary && events[k].turnIndex == 0 && events[k].turnSize == 1
    && events[k].meta == Some(SummaryMeta(id, j.through, j.source))
  }

  /** The four-state CHECK of the schema, with the retry budget it never exceeds. */
  ghost predicate CheckOk(j: Job) {
    && DecodesJob(j)
    && (j.claimToken.Some? <==> j.leaseUntil.Some?)
    && j.failures <= MAX_JOB_FAILURES
    && (j.Active() ==> j.failures < MAX_JOB_FAILURES)
  }

  ghost predicate JobOk(session: Id, events: seq<Event>, id: Id, j: Job) {
    && Boundary(events, j.through)
    && j.source == SourceOf(session, events, j.through)
    && CheckOk(j)
    && (j.state == Completed ==> SummaryOk(events, id, j))
  }

  ghost predicate Of(jobs: map<Id, Job>, session: Id, id: Id) {
    id in jobs && jobs[id].session == session
  }

  /** The sequence number of the summary of a completed compaction. */
  ghost function End(events: seq<Event>, j: Job): int {
    SummarySlot(events, j) + 1
  }

  ghost predicate JobsOk(session: Id, events: seq<Event>, jobs: map<Id, Job>) {
    forall a | Of(jobs, session, a) :: JobOk(session, events, a, jobs[a])
  }

  ghost predicate UniqueBoundaries(session: Id, jobs: map<Id, Job>) {
    forall a, b | Of(jobs, session, a) && Of(jobs, session, b) && jobs[a].through == jobs[b].through :: a == b
  }

  ghost predicate OneActive(session: Id, jobs: map<Id, Job>) {
    forall a, b | IsActive(jobs, session, a) && IsActive(jobs, session, b) :: a == b
  }

  /** Every completed compaction ends, summary included, at or before the boundary of any later or
      active one: t1 < s1 <= t2 < s2 <= ... */
  ghost predicate ChainOk(session: Id, events: seq<Event>, jobs: map<Id, Job>) {
    && (forall a, b | IsCompleted(jobs, session, a) && IsCompleted(jobs, session, b)
                      && jobs[a].through < jobs[b].through ::
          End(events, jobs[a]) <= jobs[b].through)
    && (forall a, b | IsCompleted(jobs, session, a) && IsActive(jobs, session, b) ::
          End(events, jobs[a]) <= jobs[b].through)
  }

  /** Every summary event was written by a completed job. */
  ghost predicate SummariesOwned(session: Id, events: seq<Event>, jobs: map<Id, Job>) {
    forall k | 0 <= k < |events| && events[k].kind == Summary ::
      exists a :: IsCompleted(jobs, session, a) && SummarySlot(events, jobs[a]) == k
  }

  /** What every transaction keeps, a retry included. */
  ghost predicate BookOk(session: Id, events: seq<Event>, jobs: map<Id, Job>) {
    JobsOk(session, events, jobs) && UniqueBoundaries(session, jobs) && SummariesOwned(session, events, jobs)
  }

  /** What makes a session replayable: at most one active job, and the chain. */
  ghost predicate ShapeOk(session: Id, events: seq<Event>, jobs: map<Id, Job>) {
    OneActive(session, jobs) && ChainOk(session, events, jobs)
  }

  ghost predicate SessionOk(db: Db, s: Id) {
    s in db.sessions ==>
      EventsOk(db.sessions[s].events, db.used) && BookOk(s, db.sessions[s].events, db.jobs)
  }

  /** Identifiers have been generated and every job belongs to a session. */
  ghost predicate RefsOk(db: Db) {
    && (forall s | s in db.sessions :: s in db.used)
    && (forall a | a in db.jobs :: a in db.used && db.jobs[a].session in db.sessions)
  }

  ghost predicate DbOk(db: Db) {
    RefsOk(db) && forall s :: SessionOk(db, s)
  }

  ghost predicate ChainAt(db: Db, s: Id) {
    s in db.sessions ==> ShapeOk(s, db.sessions[s].events, db.jobs)
  }

  ghost predicate ChainsOk(db: Db) {
    forall s :: ChainAt(db, s)
  }

  // ----- what keeps them

  /** Two job tables that agree on one session. */
  ghost predicate SameJobs(session: Id, jobs: map<Id, Job>, jobs': map<Id, Job>) {
    && (forall a | Of(jobs, session, a) :: Of(jobs', session, a) && jobs'[a] == jobs[a])
    && (forall a | Of(jobs', session, a) :: Of(jobs, session, a))
  }

  lemma ShapeFrame(session: Id, events: seq<Event>, jobs: map<Id, Job>, jobs': map<Id, Job>)
    requires ShapeOk(session, events, jobs)
    requires SameJobs(session, jobs, jobs')
    ensures ShapeOk(session, events, jobs')
  {
    forall a | Of(jobs', session, a) ensures jobs'[a] == jobs[a] && Of(jobs, session, a) {}
    forall a | IsCompleted(jobs', session, a) ensures IsCompleted(jobs, session, a) { assert Of(jobs', session, a); }
    forall a | IsActive(jobs', session, a) ensures IsActive(jobs, session, a) { assert Of(jobs', session, a); }
  }

  lemma BookFrame(session: Id, events: seq<Event>, jobs: map<Id, Job>, jobs': map<Id, Job>)
    requires BookOk(session, events, jobs)
    requires SameJobs(session, jobs, jobs')
    ensures BookOk(session, events, jobs')
  {
    assert JobsOk(session, events, jobs') by {
      forall a | Of(jobs', session, a) ensures JobOk(session, events, a, jobs'[a]) { assert Of(jobs, session, a); }
    }
    OwnedFrame(session, events, jobs, jobs');
  }

  lemma OwnedFrame(session: Id, events: seq<Event>, jobs: map<Id, Job>, jobs': map<Id, Job>)
    requires SummariesOwned(session, events, jobs)
    requires SameJobs(session, jobs, jobs')
    ensures SummariesOwned(session, events, jobs')
  {
    forall k | 0 <= k < |events| && events[k].kind == Summary
      ensures exists a :: IsCompleted(jobs', session, a) && SummarySlot(events, jobs'[a]) == k
    {
      var a :| IsCompleted(jobs, session, a) && SummarySlot(events, jobs[a]) == k;
      assert Of(jobs, session, a) && IsCompleted(jobs', session, a);
    }
  }

  /** New rows that extend a session's events. */
  ghost predicate Extends(events: seq<Event>, rows: seq<Event>, used: set<Id>) {
    && WholeTurns(rows) && |events| + |rows| <= I64_MAX
    && (forall i | 0 <= i < |rows| :: rows[i].sequence == |events| + i + 1 && DecodesEvent(rows[i]))
    && (forall i | 0 <= i < |rows| :: rows[i].id !in used)
    && (forall i, j | 0 <= i < j < |rows| :: rows[i].id != rows[j].id)
  }

  lemma ExtendEvents(events: seq<Event>, rows: seq<Event>, used: set<Id>, used': set<Id>)
    requires EventsOk(events, used) && Extends(events, rows, used)
    requires used <= used' && forall i | 0 <= i < |rows| :: rows[i].id in used'
    ensures EventsOk(events + rows, used')
  {
    var all := events + rows;
    WholeAppend(events, rows);
    forall i, j | 0 <= i < j < |all| ensures all[i].id != all[j].id {
      if j >= |events| && i < |events| { assert events[i] in events; }
    }
    forall e | e in all ensures DecodesEvent(e) && e.id in used' {
      if e !in events { assert e in rows; }
    }
  }

  lemma {:induction false} SlotExtend(events: seq<Event>, rows: seq<Event>, id: Id)
    requires forall i | 0 <= i < |rows| :: rows[i].id != id
    ensures Slot(events + rows, id) == Slot(events, id)
    decreases |rows|
  {
    if rows == [] {
      assert events + rows == events;
    } else {
      var n := |rows| - 1;
      assert (events + rows)[..|events| + n] == events + rows[..n];
      SlotExtend(events, rows[..n], id);
    }
  }

  lemma {:induction false} SlotIs(events: seq<Event>, k: nat)
    requires Distinct(events) && k < |events|
    ensures Slot(events, events[k].id) == k
  {
    if k < |events| - 1 { SlotIs(events[..|events| - 1], k); }
  }

  lemma ExtendJob(session: Id, events: seq<Event>, rows: seq<Event>, used: set<Id>, id: Id, j: Job)
    requires EventsOk(events, used) && Extends(events, rows, used)
    requires JobOk(session, events, id, j)
    ensures JobOk(session, events + rows, id, j)
    ensures j.state == Completed ==> SummarySlot(events + rows, j) == SummarySlot(events, j) >= 0
  {
    assert (events + rows)[..j.through] == events[..j.through];
    if j.state == Completed {
      assert events[SummarySlot(events, j)] in events;
      SlotExtend(events, rows, j.summaryEvent.value);
    }
  }

  lemma JobsExtend(session: Id, events: seq<Event>, rows: seq<Event>, used: set<Id>, jobs: map<Id, Job>)
    requires EventsOk(events, used) && Extends(events, rows, used)
    requires JobsOk(session, events, jobs)
    ensures JobsOk(session, events + rows, jobs)
    ensures forall a | IsCompleted(jobs, session, a) ::
              SummarySlot(events + rows, jobs[a]) == SummarySlot(events, jobs[a]) >= jobs[a].through
  {
    forall a | Of(jobs, session, a)
      ensures JobOk(session, events + rows, a, jobs[a])
      ensures jobs[a].state == Completed ==>
                SummarySlot(events + rows, jobs[a]) == SummarySlot(events, jobs[a]) >= jobs[a].through
    {
      ExtendJob(session, events, rows, used, a, jobs[a]);
    }
    forall a | IsCompleted(jobs, session, a) ensures Of(jobs, session, a) {}
  }

  /** Appending turns without a summary keeps the books. */
  lemma BookExtend(session: Id, events: seq<Event>, rows: seq<Event>, used: set<Id>, jobs: map<Id, Job>)
    requires EventsOk(events, used) && Extends(events, rows, used)
    requires BookOk(session, events, jobs)
    requires forall i | 0 <= i < |rows| :: rows[i].kind != Summary
    ensures BookOk(session, events + rows, jobs)
    ensures ShapeOk(session, events, jobs) ==> ShapeOk(session, events + rows, jobs)
  {
    JobsExtend(session, events, rows, used, jobs);
    OwnedExtend(session, events, rows, jobs);
  }

  lemma OwnedExtend(session: Id, events: seq<Event>, rows: seq<Event>, jobs: map<Id, Job>)
    requires SummariesOwned(session, events, jobs)
    requires forall i | 0 <= i < |rows| :: rows[i].kind != Summary
    requires forall a | IsCompleted(jobs, session, a) ::
             SummarySlot(events + rows, jobs[a]) == SummarySlot(events, jobs[a])
    ensures SummariesOwned(session, events + rows, jobs)
  {
    var all := events + rows;
    forall k | 0 <= k < |all| && all[k].kind == Summary
      ensures exists a :: IsCompleted(jobs, session, a) && SummarySlot(all, jobs[a]) == k
    {
      assert events[k] == all[k];
      var a :| IsCompleted(jobs, session, a) && SummarySlot(events, jobs[a]) == k;
    }
  }

  /** A job row that changed without finishing. */
  ghost predicate Recast(j: Job, j': Job) {
    && j'.session == j.session && j'.through == j.through && j'.source == j.source
    && j.state != Completed && j'.state != Completed
    && CheckOk(j')
  }

  /** A job row that changed without finishing and without becoming active. */
  ghost predicate Kept(j: Job, j': Job) {
    Recast(j, j') && (j'.Active() ==> j.Active())
  }

  /** A job table in which every row is the same or was recast. */
  ghost predicate AllRecast(jobs: map<Id, Job>, jobs': map<Id, Job>) {
    && (forall a | a in jobs' :: a in jobs)
    && (forall a | a in jobs :: a in jobs' && (jobs'[a] == jobs[a] || Recast(jobs[a], jobs'[a])))
  }

  ghost predicate AllKept(jobs: map<Id, Job>, jobs': map<Id, Job>) {
    && (forall a | a in jobs' :: a in jobs)
    && (forall a | a in jobs :: a in jobs' && (jobs'[a] == jobs[a] || Kept(jobs[a], jobs'[a])))
  }

  lemma JobsRecast(session: Id, events: seq<Event>, jobs: map<Id, Job>, jobs': map<Id, Job>)
    requires JobsOk(session, events, jobs) && AllRecast(jobs, jobs')
    ensures JobsOk(session, events, jobs')
  {
    forall a | Of(jobs', session, a) ensures JobOk(session, events, a, jobs'[a]) {
      assert Of(jobs, session, a) && JobOk(session, events, a, jobs[a]);
    }
  }

  lemma OwnedRecast(session: Id, events: seq<Event>, jobs: map<Id, Job>, jobs': map<Id, Job>)
    requires SummariesOwned(session, events, jobs) && AllRecast(jobs, jobs')
    ensures SummariesOwned(session, events, jobs')
  {
    forall k | 0 <= k < |events| && events[k].kind == Summary
      ensures exists a :: IsCompleted(jobs', session, a) && SummarySlot(events, jobs'[a]) == k
    {
      var a :| IsCompleted(jobs, session, a) && SummarySlot(events, jobs[a]) == k;
      assert IsCompleted(jobs', session, a);
    }
  }

  lemma BookRecast(session: Id, events: seq<Event>, jobs: map<Id, Job>, jobs': map<Id, Job>)
    requires BookOk(session, events, jobs) && AllRecast(jobs, jobs')
    ensures BookOk(session, events, jobs')
  {
    JobsRecast(session, events, jobs, jobs');
    OwnedRecast(session, events, jobs, jobs');
    assert UniqueBoundaries(session, jobs') by {
      forall a | Of(jobs', session, a) ensures Of(jobs, session, a) && jobs'[a].through == jobs[a].through {}
    }
  }

  lemma ShapeKeep(session: Id, events: seq<Event>, jobs: map<Id, Job>, jobs': map<Id, Job>)
    requires ShapeOk(session, events, jobs) && AllKept(jobs, jobs')
    ensures ShapeOk(session, events, jobs')
  {
    forall a | IsCompleted(jobs', session, a) ensures IsCompleted(jobs, session, a) && jobs'[a] == jobs[a] {}
    forall a | IsActive(jobs', session, a) ensures IsActive(jobs, session, a) && jobs'[a].through == jobs[a].through {}
  }

  /** Changing a row that was not completed leaves every summary with its owner. */
  lemma OwnedElsewhere(session: Id, events: seq<Event>, jobs: map<Id, Job>, id: Id, j': Job)
    requires SummariesOwned(session, events, jobs)
    requires !IsCompleted(jobs, session, id)
    ensures SummariesOwned(session, events, jobs[id := j'])
  {
    var jobs' := jobs[id := j'];
    forall k | 0 <= k < |events| && events[k].kind == Summary
      ensures exists a :: IsCompleted(jobs', session, a) && SummarySlot(events, jobs'[a]) == k
    {
      var a :| IsCompleted(jobs, session, a) && SummarySlot(events, jobs[a]) == k;
      assert a != id && IsCompleted(jobs', session, a);
    }
  }

  /** A boundary at or after every completed summary of the session. */
  ghost predicate AfterSummaries(session: Id, events: seq<Event>, jobs: map<Id, Job>, through: int) {
    forall a | IsCompleted(jobs, session, a) :: End(events, jobs[a]) <= through
  }

  ghost predicate NoOtherActive(session: Id, jobs: map<Id, Job>, id: Id) {
    forall a | IsActive(jobs, session, a) :: a == id
  }

  /** A job row that may become active: no other one is, and its boundary includes every summary. */
  ghost predicate Activates(session: Id, events: seq<Event>, jobs: map<Id, Job>, id: Id, j: Job) {
    && j.session == session && j.Active() && !IsCompleted(jobs, session, id)
    && NoOtherActive(session, jobs, id) && AfterSummaries(session, events, jobs, j.through)
  }

  lemma ShapeActivate(session: Id, events: seq<Event>, jobs: map<Id, Job>, id: Id, j: Job)
    requires ShapeOk(session, events, jobs) && Activates(session, events, jobs, id, j)
    ensures ShapeOk(session, events, jobs[id := j])
  {
    var jobs' := jobs[id := j];
    forall a | IsActive(jobs', session, a) ensures a == id { assert a != id ==> IsActive(jobs, session, a); }
    forall a | IsCompleted(jobs', session, a) ensures a != id && IsCompleted(jobs, session, a) {}
  }

  /** A new row at a boundary that no other job of the session has. */
  lemma BookInsert(session: Id, events: seq<Event>, jobs: map<Id, Job>, id: Id, j: Job)
    requires BookOk(session, events, jobs) && JobOk(session, events, id, j) && j.session == session
    requires id !in jobs && forall a | Of(jobs, session, a) :: jobs[a].through != j.through
    requires j.state != Completed
    ensures BookOk(session, events, jobs[id := j])
  {
    var jobs' := jobs[id := j];
    assert JobsOk(session, events, jobs') by {
      forall a | Of(jobs', session, a) ensures JobOk(session, events, a, jobs'[a]) {
        if a != id { assert Of(jobs, session, a); }
      }
    }
    assert UniqueBoundaries(session, jobs') by {
      forall a | Of(jobs', session, a) && a != id ensures Of(jobs, session, a) {}
    }
    OwnedElsewhere(session, events, jobs, id, j);
  }

  ghost predicate Summarizes(row: Event, id: Id, j: Job) {
    && row.kind == Summary && row.turnIndex == 0 && row.turnSize == 1
    && j.through >= 0 && row.meta == Some(SummaryMeta(id, j.through, j.source))
  }

  lemma JobsComplete(session: Id, events: seq<Event>, used: set<Id>, jobs: map<Id, Job>, id: Id, row: Event)
    requires EventsOk(events, used) && Extends(events, [row], used)
    requires JobsOk(session, events, jobs)
    requires IsActive(jobs, session, id) && Summarizes(row, id, jobs[id])
    ensures JobsOk(session, events + [row], jobs[id := FinishJob(jobs[id], row.id)])
    ensures forall a | IsCompleted(jobs, session, a) ::
              End(events + [row], jobs[a]) == End(events, jobs[a]) > jobs[a].through
  {
    var all, done := events + [row], FinishJob(jobs[id], row.id);
    var jobs' := jobs[id := done];
    JobsExtend(session, events, [row], used, jobs);
    assert Of(jobs, session, id);
    assert SummarySlot(all, done) == |events|;
    assert JobOk(session, all, id, done);
    forall a | Of(jobs', session, a) ensures JobOk(session, all, a, jobs'[a]) {
      if a != id { assert Of(jobs, session, a); }
    }
  }

  /** Finishing an active job with a summary at the end of the log keeps the books. */
  lemma BookComplete(session: Id, events: seq<Event>, used: set<Id>, jobs: map<Id, Job>, id: Id, row: Event)
    requires EventsOk(events, used) && Extends(events, [row], used)
    requires BookOk(session, events, jobs)
    requires IsActive(jobs, session, id) && Summarizes(row, id, jobs[id])
    ensures BookOk(session, events + [row], jobs[id := FinishJob(jobs[id], row.id)])
    ensures ShapeOk(session, events, jobs) ==> ShapeOk(session, events + [row], jobs[id := FinishJob(jobs[id], row.id)])
  {
    var done := FinishJob(jobs[id], row.id);
    JobsComplete(session, events, used, jobs, id, row);
    UniqueComplete(session, jobs, id, done);
    OwnedComplete(session, events, row, jobs, id, done);
    if ShapeOk(session, events, jobs) { ShapeComplete(session, events, row, jobs, id, done); }
  }

  lemma UniqueComplete(session: Id, jobs: map<Id, Job>, id: Id, done: Job)
    requires UniqueBoundaries(session, jobs) && Of(jobs, session, id)
    requires done.session == session && done.through == jobs[id].through
    ensures UniqueBoundaries(session, jobs[id := done])
  {
    var jobs' := jobs[id := done];
    forall a | Of(jobs', session, a) ensures Of(jobs, session, a) && jobs'[a].through == jobs[a].through {}
  }

  lemma ShapeComplete(session: Id, events: seq<Event>, row: Event, jobs: map<Id, Job>, id: Id, done: Job)
    requires ShapeOk(session, events, jobs) && IsActive(jobs, session, id)
    requires done.session == session && done.through == jobs[id].through && done.state == Completed
    requires forall a | IsCompleted(jobs, session, a) ::
               End(events + [row], jobs[a]) == End(events, jobs[a]) > jobs[a].through
    ensures ShapeOk(session, events + [row], jobs[id := done])
  {
    var jobs' := jobs[id := done];
    forall a | IsCompleted(jobs', session, a) && a != id ensures IsCompleted(jobs, session, a) {}
    forall a | IsActive(jobs', session, a) ensures false {
      assert a != id ==> IsActive(jobs, session, a);
    }
  }

  lemma OwnedComplete(session: Id, events: seq<Event>, row: Event, jobs: map<Id, Job>, id: Id, done: Job)
    requires SummariesOwned(session, events, jobs) && IsActive(jobs, session, id)
    requires done.session == session && done.state == Completed && SummarySlot(events + [row], done) == |events|
    requires forall a | IsCompleted(jobs, session, a) ::
             SummarySlot(events + [row], jobs[a]) == SummarySlot(events, jobs[a])
    ensures SummariesOwned(session, events + [row], jobs[id := done])
  {
    var all, jobs' := events + [row], jobs[id := done];
    forall k | 0 <= k < |all| && all[k].kind == Summary
      ensures exists a :: IsCompleted(jobs', session, a) && SummarySlot(all, jobs'[a]) == k
    {
      if k == |events| {
        assert IsCompleted(jobs', session, id);
      } else {
        assert events[k] == all[k];
        var a :| IsCompleted(jobs, session, a) && SummarySlot(events, jobs[a]) == k;
        assert a != id && IsCompleted(jobs', session, a);
      }
    }
  }
}
