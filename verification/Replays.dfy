/** What replaying a session returns. */
module Replays {
  import opened Records
  import opened Turns
  import opened Transcript
  import opened Store
  import opened Ledger
  import opened Integrity

  ghost function TextBytesOf(rows: seq<Event>): nat {
    if rows == [] then 0 else |rows[0].text| + TextBytesOf(rows[1..])
  }

  /** The rows fit the replay limits. */
  ghost predicate ReplayFits(rows: seq<Event>) {
    |rows| <= MAX_REPLAY_EVENTS && TextBytesOf(rows) <= MAX_REPLAY_BYTES
  }

  /** Rows that decode and are allowed are all taken, unless a size limit stops the loop. */
  lemma {:induction false} CollectTakesAll(rows: seq<Event>, taken: seq<Event>, bytes: nat, compacted: bool)
    requires forall e | e in rows :: DecodesEvent(e) && (compacted ==> e.kind != Summary)
    requires |taken| <= MAX_REPLAY_EVENTS && bytes <= MAX_REPLAY_BYTES
    ensures Collect(rows, taken, bytes, compacted) ==
            if |taken| + |rows| <= MAX_REPLAY_EVENTS && bytes + TextBytesOf(rows) <= MAX_REPLAY_BYTES
            then Ok(taken + rows) else Err(TooLarge)
    decreases |rows|
  {
    if rows == [] {
      assert taken + rows == taken;
    } else {
      assert rows[0] in rows;
      if |taken| < MAX_REPLAY_EVENTS && bytes + |rows[0].text| <= MAX_REPLAY_BYTES {
        CollectTakesAll(rows[1..], taken + [rows[0]], bytes + |rows[0].text|, compacted);
        assert taken + [rows[0]] + rows[1..] == taken + rows;
      }
    }
  }

  /** The events that are not compaction summaries, in order. */
  ghost function WithoutSummaries(events: seq<Event>): seq<Event> {
    if events == [] then []
    else if events[0].kind == Summary then WithoutSummaries(events[1..])
    else [events[0]] + WithoutSummaries(events[1..])
  }

  lemma {:induction false} NoSummaries(events: seq<Event>)
    requires forall e | e in events :: e.kind != Summary
    ensures WithoutSummaries(events) == events
  {
    if events != [] {
      assert events[0] in events;
      NoSummaries(events[1..]);
    }
  }

  lemma {:induction false} OneSummary(events: seq<Event>, k: nat)
    requires k < |events|
    requires forall i | 0 <= i < |events| :: events[i].kind == Summary <==> i == k
    ensures WithoutSummaries(events) == events[..k] + events[k + 1..]
  {
    if k == 0 {
      assert events[..0] + events[1..] == events[1..];
      NoSummaries(events[1..]);
    } else {
      OneSummary(events[1..], k - 1);
      assert events[..k] == [events[0]] + events[1..][..k - 1];
      assert events[1..][k..] == events[k + 1..];
    }
  }

  /** The transcript a session stands for: its latest summary, if any, then every later event that is
      not a summary. */
  ghost function Effective(events: seq<Event>, top: Option<Job>): seq<Event>
    requires top.Some? ==> 0 <= top.value.through <= SummarySlot(events, top.value)
  {
    if top.None? then events
    else [events[SummarySlot(events, top.value)]] + WithoutSummaries(events[top.value.through..])
  }

  /** After the boundary of the latest compaction there is one summary, its own. */
  lemma TailHasOneSummary(session: Id, events: seq<Event>, jobs: map<Id, Job>, id: Id)
    requires BookOk(session, events, jobs) && ChainOk(session, events, jobs) && IsTop(jobs, session, id)
    ensures var (t, k) := (jobs[id].through, SummarySlot(events, jobs[id]));
            && 0 < t <= k < |events|
            && forall i | t <= i < |events| :: events[i].kind == Summary <==> i == k
  {
    assert Of(jobs, session, id);
    var t, k := jobs[id].through, SummarySlot(events, jobs[id]);
    forall i | t <= i < |events| && events[i].kind == Summary ensures i == k {
      var a :| IsCompleted(jobs, session, a) && SummarySlot(events, jobs[a]) == i;
      // Any other completed compaction ended at or before the boundary.
      assert Of(jobs, session, a);
    }
  }

  lemma WithoutJob(session: Id, events: seq<Event>, used: set<Id>, jobs: map<Id, Job>)
    requires EventsOk(events, used) && SummariesOwned(session, events, jobs)
    requires forall a :: !IsCompleted(jobs, session, a)
    ensures forall i | 0 <= i < |events| :: events[i].kind != Summary
    ensures ReplayWithout(session, events) ==
            if ReplayFits(events) then Ok(Replay(events, |events|, None)) else Err(TooLarge)
  {
    CollectTakesAll(events, [], 0, false);
    assert [] + events == events;
    LastSequenceIsLength(events);
  }

  lemma TotalCons(first: Event, rest: seq<Event>)
    ensures TextBytesOf([first] + rest) == |first.text| + TextBytesOf(rest)
  {
    assert ([first] + rest)[1..] == rest;
  }

  /** The rows that the loop takes after a verified summary. */
  lemma CollectAfterSummary(summary: Event, tail: seq<Event>)
    requires DecodesEvent(summary)
    requires forall e | e in tail :: DecodesEvent(e) && e.kind != Summary
    ensures var head := Collect([summary], [], 0, false);
            if head.Ok? then
              && head.value == [summary]
              && Collect(tail, [summary], |summary.text|, true) ==
                 if ReplayFits([summary] + tail) then Ok([summary] + tail) else Err(TooLarge)
            else head == Err(TooLarge) && !ReplayFits([summary] + tail)
  {
    CollectTakesAll([summary], [], 0, false);
    TotalCons(summary, []);
    TotalCons(summary, tail);
    assert [] + [summary] == [summary];
    if Collect([summary], [], 0, false).Ok? {
      CollectTakesAll(tail, [summary], |summary.text|, true);
    }
  }

  /** The tail after a boundary, without the one-event turn at `k`. */
  lemma WholeWithoutAt(events: seq<Event>, t: nat, k: nat)
    requires t <= k < |events| && WholeTurns(events[t..]) && events[k].turnIndex == 0 && events[k].turnSize == 1
    ensures WholeTurns(events[t..k] + events[k + 1..])
  {
    CutTwice(events, t, k);
    WholeRemoveSingle(events[t..], k - t);
  }

  lemma WholeInFront(summary: Event, rest: seq<Event>)
    requires summary.turnIndex == 0 && summary.turnSize == 1 && WholeTurns(rest)
    ensures WholeTurns([summary] + rest)
  {
    SingleIsWhole(summary);
    WholeAppend([summary], rest);
  }

  /** The tail after a boundary without the boundary's own summary is made of whole turns. */
  lemma EffectiveIsWhole(events: seq<Event>, t: nat, k: nat)
    requires WholeTurns(events) && t <= k < |events| && WholeTurns(events[..t])
    requires events[k].turnIndex == 0 && events[k].turnSize == 1
    ensures WholeTurns([events[k]] + (events[t..k] + events[k + 1..]))
  {
    WholeSuffix(events, t);
    WholeWithoutAt(events, t, k);
    WholeInFront(events[k], events[t..k] + events[k + 1..]);
  }

  /** The replay loop, once every check on the compaction has passed. */
  lemma ReplaySteps(session: Id, events: seq<Event>, id: Id, j: Job, summary: Event, tail: seq<Event>)
    requires ChecksPass(session, events, id, j, summary, tail)
    requires DecodesEvent(summary) && forall e | e in tail :: DecodesEvent(e) && e.kind != Summary
    ensures ReplayWith(session, events, id, j) ==
            if ReplayFits([summary] + tail) then Ok(Replay([summary] + tail, LastSequence(events), Some(j.through)))
            else Err(TooLarge)
  {
    CollectAfterSummary(summary, tail);
  }

  /** Where the effective transcript's rows come from. */
  lemma EffectiveRows(events: seq<Event>, j: Job)
    requires 0 <= j.through <= SummarySlot(events, j)
    requires forall i | j.through <= i < |events| :: events[i].kind == Summary <==> i == SummarySlot(events, j)
    ensures var (t, k) := (j.through, SummarySlot(events, j));
            Effective(events, Some(j)) == [events[k]] + (events[t..k] + events[k + 1..])
  {
    var t, k := j.through, SummarySlot(events, j);
    OneSummary(events[t..], k - t);
    CutTwice(events, t, k);
  }

  /** The rows other than the summary decode and are no summaries. */
  lemma TailRows(events: seq<Event>, t: nat, k: nat) returns (summary: Event, tail: seq<Event>)
    requires t <= k < |events|
    requires forall e | e in events :: DecodesEvent(e)
    requires forall i | t <= i < |events| :: events[i].kind == Summary <==> i == k
    ensures summary == events[k] && tail == events[t..k] + events[k + 1..]
    ensures DecodesEvent(summary) && forall e | e in tail :: DecodesEvent(e) && e.kind != Summary
  {
    summary, tail := events[k], events[t..k] + events[k + 1..];
    assert events[k] in events;
    forall i | t <= i < |events| && i != k ensures DecodesEvent(events[i]) && events[i].kind != Summary {
      assert events[i] in events;
    }
  }

  /** What the checks on a completed compaction find, and whole turns after them. */
  ghost predicate ChecksPass(session: Id, events: seq<Event>, id: Id, j: Job, summary: Event, tail: seq<Event>) {
    ChecksStart(session, events, id, j, summary, tail) && WholeTurns([summary] + tail)
  }

  ghost predicate ChecksStart(session: Id, events: seq<Event>, id: Id, j: Job, summary: Event, tail: seq<Event>) {
    && DecodesJob(j) && j.summaryEvent == Some(summary.id)
    && TranscriptProvenance(session, events, j.through) == Ok(j.source)
    && WithId(events, summary.id) == Some(summary) && SummaryMatches(summary, id, j)
    && After(events, j.through, summary.id) == tail
  }

  lemma SummaryFound(events: seq<Event>, t: nat, k: nat)
    requires Contiguous(events) && Distinct(events) && t <= k < |events|
    ensures WithId(events, events[k].id) == Some(events[k])
    ensures After(events, t, events[k].id) == events[t..k] + events[k + 1..]
  {
    WithIdIsIndex(events, k);
    AfterIsTail(events, t, k);
  }

  lemma CompletedChecks(session: Id, events: seq<Event>, used: set<Id>, id: Id, j: Job)
    requires EventsOk(events, used) && JobOk(session, events, id, j) && j.state == Completed
    ensures var (t, k) := (j.through, SummarySlot(events, j));
            ChecksPass(session, events, id, j, events[k], events[t..k] + events[k + 1..])
  {
    CompletedRows(events, j);
    ProvenanceOk(session, events, used, j.through);
    var summary, tail := CompletedStart(session, events, id, j);
  }

  /** The checks before the loop need only the numbering, the source and the summary. */
  lemma CompletedStart(session: Id, events: seq<Event>, id: Id, j: Job) returns (summary: Event, tail: seq<Event>)
    requires Contiguous(events) && Distinct(events) && DecodesJob(j) && SummaryOk(events, id, j)
    requires TranscriptProvenance(session, events, j.through) == Ok(j.source)
    ensures ChecksStart(session, events, id, j, summary, tail)
    ensures var (t, k) := (j.through, SummarySlot(events, j));
            summary == events[k] && tail == events[t..k] + events[k + 1..]
  {
    var t, k := j.through, SummarySlot(events, j);
    SummaryFound(events, t, k);
    summary, tail := events[k], events[t..k] + events[k + 1..];
  }

  /** The rows of a completed compaction, in front of what follows its boundary. */
  lemma CompletedRows(events: seq<Event>, j: Job)
    requires WholeTurns(events) && Boundary(events, j.through) && j.through <= SummarySlot(events, j)
    requires var e := events[SummarySlot(events, j)]; e.turnIndex == 0 && e.turnSize == 1
    ensures var (t, k) := (j.through, SummarySlot(events, j));
            WholeTurns([events[k]] + (events[t..k] + events[k + 1..]))
  {
    EffectiveIsWhole(events, j.through, SummarySlot(events, j));
  }

  lemma WithJob(session: Id, events: seq<Event>, used: set<Id>, id: Id, j: Job)
    requires EventsOk(events, used) && JobOk(session, events, id, j) && j.state == Completed
    requires forall i | j.through <= i < |events| :: events[i].kind == Summary <==> i == SummarySlot(events, j)
    ensures ReplayWith(session, events, id, j) ==
            if ReplayFits(Effective(events, Some(j)))
            then Ok(Replay(Effective(events, Some(j)), |events|, Some(j.through)))
            else Err(TooLarge)
    ensures WholeTurns(Effective(events, Some(j)))
  {
    LastSequenceIsLength(events);
    var summary, tail := EffectiveParts(session, events, used, id, j);
    ReplaySteps(session, events, id, j, summary, tail);
  }

  /** The effective transcript as a verified summary and the rows after it. */
  lemma EffectiveParts(session: Id, events: seq<Event>, used: set<Id>, id: Id, j: Job)
    returns (summary: Event, tail: seq<Event>)
    requires EventsOk(events, used) && JobOk(session, events, id, j) && j.state == Completed
    requires forall i | j.through <= i < |events| :: events[i].kind == Summary <==> i == SummarySlot(events, j)
    ensures ChecksPass(session, events, id, j, summary, tail) && DecodesEvent(summary)
    ensures forall e | e in tail :: DecodesEvent(e) && e.kind != Summary
    ensures Effective(events, Some(j)) == [summary] + tail
  {
    CompletedChecks(session, events, used, id, j);
    EffectiveRows(events, j);
    summary, tail := TailRows(events, j.through, SummarySlot(events, j));
  }

  /** The latest completed compaction of a session, if there is one. */
  ghost function TopJob(jobs: map<Id, Job>, session: Id): Option<Job> {
    if id :| IsTop(jobs, session, id) then Some(jobs[id]) else None
  }

  lemma {:induction false} SomeTop(jobs: map<Id, Job>, session: Id, done: set<Id>) returns (id: Id)
    requires done != {} && forall a | a in done :: IsCompleted(jobs, session, a)
    ensures id in done && IsCompleted(jobs, session, id)
    ensures forall a | a in done :: IsCompleted(jobs, session, a) && jobs[a].through <= jobs[id].through
    decreases |done|
  {
    id :| id in done;
    if done != {id} {
      var other := SomeTop(jobs, session, done - {id});
      if jobs[id].through < jobs[other].through { id := other; }
    }
  }

  lemma TopExists(jobs: map<Id, Job>, session: Id, a: Id)
    requires IsCompleted(jobs, session, a)
    ensures exists id :: IsTop(jobs, session, id)
  {
    var done := set b | b in jobs && IsCompleted(jobs, session, b);
    assert a in done;
    var id := SomeTop(jobs, session, done);
    assert IsTop(jobs, session, id);
  }

  /** The row a replay builds on is the session's latest completed compaction. */
  lemma LoadsTop(db: Db, session: Id, id: Id)
    requires session in db.sessions && UniqueBoundaries(session, db.jobs) && IsTop(db.jobs, session, id)
    ensures LoadReplay(db, session) == ReplayWith(session, db.sessions[session].events, id, db.jobs[id])
    ensures TopJob(db.jobs, session) == Some(db.jobs[id])
  {
    UniqueTop(session, db.jobs, id);
  }

  /** When the chain of a session holds, replay never reports corruption.  Its rows are the effective
      transcript, which is made of whole turns and in which each event appears once: the prefix
      through the boundary is stood for by the leading summary, and every later event that is not a
      summary follows in order. */
  lemma ReplayNeverCorrupt(db: Db, session: Id)
    requires DbOk(db) && ChainAt(db, session) && session in db.sessions
    ensures var (events, top) := (db.sessions[session].events, TopJob(db.jobs, session));
            && (top.Some? ==> 0 < top.value.through <= SummarySlot(events, top.value))
            && WholeTurns(Effective(events, top))
            && (top.None? ==> forall i | 0 <= i < |events| :: events[i].kind != Summary)
            && (top.Some? ==> top.value.source == SourceOf(session, events, top.value.through))
            && LoadReplay(db, session) ==
               if ReplayFits(Effective(events, top))
               then Ok(Replay(Effective(events, top), |events|, if top.Some? then Some(top.value.through) else None))
               else Err(TooLarge)
  {
    assert SessionOk(db, session);
    var events := db.sessions[session].events;
    if id :| IsTop(db.jobs, session, id) {
      LoadsTop(db, session, id);
      TailHasOneSummary(session, events, db.jobs, id);
      JobFacts(db, id);
      WithJob(session, events, db.used, id, db.jobs[id]);
    } else {
      forall a ensures !IsCompleted(db.jobs, session, a) {
        if IsCompleted(db.jobs, session, a) { TopExists(db.jobs, session, a); }
      }
      WithoutJob(session, events, db.used, db.jobs);
    }
  }

  lemma UniqueTop(session: Id, jobs: map<Id, Job>, id: Id)
    requires UniqueBoundaries(session, jobs) && IsTop(jobs, session, id)
    ensures forall other | IsTop(jobs, session, other) :: other == id
  {
    assert Of(jobs, session, id);
    forall other | IsTop(jobs, session, other) ensures other == id {
      assert Of(jobs, session, other);
    }
  }

  /** A recorded source detects every change to the prefix it covers, short of a hash collision. */
  lemma SourceDetectsChange(session: Id, events: seq<Event>, changed: seq<Event>, through: int)
    requires HashesStream()
    requires 0 < through <= |events| && through <= |changed| && InI64(through)
    requires Fits(UuidText(session))
    requires forall e | e in RawAll(events[..through]) :: FitsEvent(e)
    requires forall e | e in RawAll(changed[..through]) :: FitsEvent(e)
    requires RawAll(events[..through]) != RawAll(changed[..through])
    requires var (x, y) := (Encode(UuidText(session), through, RawAll(events[..through])),
                            Encode(UuidText(session), through, RawAll(changed[..through])));
             Sha256(x) == Sha256(y) ==> x == y
    ensures SourceOf(session, events, through) != SourceOf(session, changed, through)
  {
    if SourceOf(session, events, through) == SourceOf(session, changed, through) {
      EncodingInjective(UuidText(session), through, RawAll(events[..through]),
                        UuidText(session), through, RawAll(changed[..through]));
    }
  }

  /** Replay refuses a compaction whose source no longer matches the transcript. */
  lemma ReplayRejectsChangedSource(session: Id, events: seq<Event>, used: set<Id>, id: Id, j: Job)
    requires EventsOk(events, used) && 0 < j.through <= |events|
    requires j.source != SourceOf(session, events, j.through)
    ensures ReplayWith(session, events, id, j).Err? && ReplayWith(session, events, id, j).error.Corrupt?
  {
    ProvenanceOk(session, events, used, j.through);
  }
}
