/** The memory database and its transactions, each one a function from the rows before to the rows
    after and the answer.  A transaction that answers an error leaves the rows as they were. */
module Store {
  import opened Records
  import opened Turns
  import opened Transcript

  const SESSION_LEASE: Time := 300
  const COMPACTION_LEASE: Time := 300
  const JOB_RETRY_BASE: Time := 30
  const JOB_RETRY_MAX: Time := 300
  const MAX_JOB_FAILURES := 3
  const MAX_STALE_JOB_RECOVERIES: nat := 128
  const MAX_JOB_FAILURE_BYTES := 4096
  const MAX_TURN_EVENTS := 4096
  const MAX_EVENT_BYTES := 0x40_0000
  const MAX_TURN_BYTES := 0x100_0000
  const MAX_REPLAY_EVENTS: nat := 100000
  const MAX_REPLAY_BYTES: nat := 0x400_0000
  const U32_MAX := 0xffff_ffff

  datatype Claim = Claim(token: Id, until: Time)

  /** A session row together with its event rows in sequence order. */
  datatype Session = Session(workspace: int, claim: Option<Claim>, events: seq<Event>)

  datatype JobState = Pending | Running | Completed | Failed

  datatype Job = Job(session: Id, through: int, state: JobState, claimToken: Option<Id>,
                     leaseUntil: Option<Time>, failures: int, retryAfter: Option<Time>,
                     lastError: Option<Bytes>, failedAt: Option<Time>, source: Provenance,
                     summaryEvent: Option<Id>, createdAt: Time)
  {
    predicate Active() { state == Pending || state == Running }
  }

  /** `used` holds every UUID generated so far; a generator never repeats one. */
  datatype Db = Db(sessions: map<Id, Session>, jobs: map<Id, Job>, used: set<Id>)

  /** A session lease held by a client. */
  datatype Lease = Lease(session: Id, workspace: int, token: Id, until: Time,
                         lastSequence: int, replayed: bool, released: bool)

  /** A compaction claim held by a worker. */
  datatype Worker = Worker(job: Id, token: Id, through: int, source: Provenance)

  datatype Corruption =
    BadTranscript | SourceChanged | Row | MissingSummary | SummaryMismatch | SecondSummary | BadEvent
    | BrokenTurns | Overflow

  datatype Error =
    NotFound | WorkspaceMismatch | SessionBusy(until: Time) | StaleSession | ReplayRequired
    | StaleReplay(expected: int, actual: int) | StaleCompaction | Invalid | TooLarge
    | Corrupt(why: Corruption)

  datatype Result<+T> = Ok(value: T) | Err(error: Error)

  datatype Disposition = Retry | Permanent

  datatype EventInput = EventInput(kind: EventKind, text: Bytes, meta: Option<SummaryMeta>)

  datatype Replay = Replay(events: seq<Event>, lastSequence: int, compactedThrough: Option<int>)

  // ----- queries over the events of one session

  /** `COALESCE(MAX(sequence), 0)`. */
  function LastSequence(events: seq<Event>): int {
    if events == [] then 0
    else
      var rest := LastSequence(events[..|events| - 1]);
      var last := events[|events| - 1].sequence;
      if last > rest then last else rest
  }

  /** `WHERE sequence <= boundary ORDER BY sequence`. */
  function Through(events: seq<Event>, boundary: int): seq<Event> {
    if events == [] then []
    else
      var rest := Through(events[..|events| - 1], boundary);
      var last := events[|events| - 1];
      if last.sequence <= boundary then rest + [last] else rest
  }

  /** `WHERE sequence > boundary AND id != except ORDER BY sequence`. */
  function After(events: seq<Event>, boundary: int, except: Id): seq<Event> {
    if events == [] then []
    else
      var rest := After(events[..|events| - 1], boundary, except);
      var last := events[|events| - 1];
      if last.sequence > boundary && last.id != except then rest + [last] else rest
  }

  function AtSequence(events: seq<Event>, sequence: int): Option<Event> {
    if events == [] then None
    else if events[|events| - 1].sequence == sequence then Some(events[|events| - 1])
    else AtSequence(events[..|events| - 1], sequence)
  }

  function WithId(events: seq<Event>, id: Id): Option<Event> {
    if events == [] then None
    else if events[|events| - 1].id == id then Some(events[|events| - 1])
    else WithId(events[..|events| - 1], id)
  }

  predicate Contiguous(events: seq<Event>) {
    forall i | 0 <= i < |events| :: events[i].sequence == i + 1
  }

  // ----- provenance and replay

  /** The digest of a transcript.  Nothing in the protocol depends on how it is computed. */
  const Fingerprint: (Id, int, seq<Event>) -> Bytes

  /** The digest is the SHA-256 of the encoded byte stream. */
  ghost predicate HashesStream() {
    forall session, through, rows {:trigger Encode(UuidText(session), through, RawAll(rows))} ::
      Fingerprint(session, through, rows) == Sha256(Encode(UuidText(session), through, RawAll(rows)))
  }

  /** Fingerprint the prefix through a boundary, or report what is wrong with it. */
  function TranscriptProvenance(session: Id, events: seq<Event>, through: int): Result<Provenance> {
    if through <= 0 then Err(Invalid)
    else
      var rows := Through(events, through);
      if !Contiguous(rows) || |rows| != through || through >= I64_MAX then Err(Corrupt(BadTranscript))
      else if AdvanceAll(CLOSED, rows) != Some(CLOSED) then Err(Corrupt(BadTranscript))
      else Ok(Provenance(through, rows[0].id, rows[through - 1].id, Fingerprint(session, through, rows)))
  }

  /** A row that decodes as a typed event. */
  predicate DecodesEvent(e: Event) {
    0 <= e.turnIndex < e.turnSize <= U32_MAX && 0 <= e.sequence
  }

  /** The replay loop: take rows while they fit, decode, and are allowed. */
  function Collect(rows: seq<Event>, taken: seq<Event>, bytes: nat, compacted: bool): Result<seq<Event>>
    decreases |rows|
  {
    if rows == [] then Ok(taken)
    else
      var row := rows[0];
      if compacted && row.kind == Summary then Err(Corrupt(SecondSummary))
      else if |taken| >= MAX_REPLAY_EVENTS || bytes + |row.text| > MAX_REPLAY_BYTES then Err(TooLarge)
      else if !DecodesEvent(row) then Err(Corrupt(BadEvent))
      else Collect(rows[1..], taken + [row], bytes + |row.text|, compacted)
  }

  predicate ValidHistory(j: Job) {
    0 <= j.failures && (j.failures == 0 <==> j.lastError.None?)
  }

  /** A job row that decodes as a typed job. */
  predicate DecodesJob(j: Job) {
    var hasClaim := j.claimToken.Some? && j.leaseUntil.Some?;
    && 0 <= j.failures <= U32_MAX
    && j.source.eventCount == j.through
    && match j.state
       case Pending =>
         !hasClaim && j.summaryEvent.None? && j.failedAt.None? && ValidHistory(j)
         && (j.retryAfter.None? || j.failures > 0)
       case Running =>
         hasClaim && j.summaryEvent.None? && j.retryAfter.None? && j.failedAt.None? && ValidHistory(j)
       case Completed =>
         !hasClaim && j.summaryEvent.Some? && j.retryAfter.None? && j.lastError.None? && j.failedAt.None?
       case Failed =>
         !hasClaim && j.summaryEvent.None? && j.retryAfter.None? && j.lastError.Some? && j.failedAt.Some?
         && j.failures > 0
  }

  predicate SummaryMatches(event: Event, id: Id, j: Job) {
    && event.kind == Summary
    && event.sequence > j.through
    && 0 <= j.through
    && event.meta == Some(SummaryMeta(id, j.through, j.source))
  }

  predicate IsCompleted(jobs: map<Id, Job>, session: Id, id: Id) {
    id in jobs && jobs[id].session == session && jobs[id].state == Completed
  }

  /** `WHERE state = 'completed' ORDER BY through_sequence DESC LIMIT 1`; boundaries are unique within
      a session, so no tie has to be broken. */
  predicate IsTop(jobs: map<Id, Job>, session: Id, id: Id) {
    && IsCompleted(jobs, session, id)
    && forall other | other in jobs && IsCompleted(jobs, session, other) ::
         jobs[other].through <= jobs[id].through
  }

  ghost function ReplayWithout(session: Id, events: seq<Event>): Result<Replay> {
    match Collect(events, [], 0, false)
    case Err(e) => Err(e)
    case Ok(rows) =>
      if !WholeTurns(rows) then Err(Corrupt(BrokenTurns))
      else Ok(Replay(rows, LastSequence(events), None))
  }

  ghost function ReplayWith(session: Id, events: seq<Event>, id: Id, j: Job): Result<Replay> {
    if j.summaryEvent.None? then Err(Corrupt(MissingSummary))
    else if !DecodesJob(j) then Err(Corrupt(Row))
    else
      match TranscriptProvenance(session, events, j.through)
      case Err(e) => Err(e)
      case Ok(source) =>
        if source != j.source then Err(Corrupt(SourceChanged))
        else
          match WithId(events, j.summaryEvent.value)
          case None => Err(Corrupt(MissingSummary))
          case Some(summary) =>
            match Collect([summary], [], 0, false)
            case Err(e) => Err(e)
            case Ok(taken) =>
              if !SummaryMatches(summary, id, j) then Err(Corrupt(SummaryMismatch))
              else
                match Collect(After(events, j.through, summary.id), taken, |summary.text|, true)
                case Err(e) => Err(e)
                case Ok(rows) =>
                  if !WholeTurns(rows) then Err(Corrupt(BrokenTurns))
                  else Ok(Replay(rows, LastSequence(events), Some(j.through)))
  }

  /** The effective transcript of a session. */
  ghost function LoadReplay(db: Db, session: Id): Result<Replay>
    requires session in db.sessions
  {
    var events := db.sessions[session].events;
    if id :| IsTop(db.jobs, session, id) then ReplayWith(session, events, id, db.jobs[id])
    else ReplayWithout(session, events)
  }

  // ----- session transactions

  predicate Live(claim: Option<Claim>, now: Time) {
    claim.Some? && claim.value.until > now
  }

  predicate HoldsToken(db: Db, session: Id, token: Id) {
    session in db.sessions && db.sessions[session].claim.Some? && db.sessions[session].claim.value.token == token
  }

  function SetSession(db: Db, id: Id, session: Session): Db {
    db.(sessions := db.sessions[id := session])
  }

  function SetClaim(db: Db, id: Id, claim: Option<Claim>): Db
    requires id in db.sessions
  {
    SetSession(db, id, db.sessions[id].(claim := claim))
  }

  function StartSession(db: Db, workspace: int, uuid: Id): Db {
    Db(db.sessions[uuid := Session(workspace, None, [])], db.jobs, db.used + {uuid})
  }

  function ClaimSession(db: Db, id: Id, workspace: int, now: Time, uuid: Id): (Db, Result<Lease>) {
    if id !in db.sessions then (db, Err(NotFound))
    else
      var session := db.sessions[id];
      if session.workspace != workspace then (db, Err(WorkspaceMismatch))
      else if Live(session.claim, now) then (db, Err(SessionBusy(session.claim.value.until)))
      else
        var until := now + SESSION_LEASE;
        var last := LastSequence(session.events);
        (SetClaim(db, id, Some(Claim(uuid, until))).(used := db.used + {uuid}),
         Ok(Lease(id, workspace, uuid, until, last, last == 0, false)))
  }

  /** Renewal needs the stored token, not an unexpired deadline. */
  function RenewSession(db: Db, lease: Lease, workspace: int, now: Time): (Db, Lease, Result<()>) {
    if workspace != lease.workspace then (db, lease, Err(WorkspaceMismatch))
    else if !HoldsToken(db, lease.session, lease.token) then (db, lease, Err(StaleSession))
    else
      var until := now + SESSION_LEASE;
      (SetClaim(db, lease.session, Some(Claim(lease.token, until))), lease.(until := until), Ok(()))
  }

  function ReleaseSession(db: Db, lease: Lease): (Db, Lease, Result<()>) {
    if lease.released then (db, lease, Ok(()))
    else if !HoldsToken(db, lease.session, lease.token) then (db, lease, Err(StaleSession))
    else (SetClaim(db, lease.session, None), lease.(released := true), Ok(()))
  }

  function ValidateSessionLease(db: Db, lease: Lease, now: Time): Result<()> {
    if lease.session !in db.sessions then Err(NotFound)
    else if !HoldsToken(db, lease.session, lease.token) || db.sessions[lease.session].claim.value.until <= now
    then Err(StaleSession)
    else Ok(())
  }

  ghost function ReplaySession(db: Db, lease: Lease, workspace: int, now: Time): (Lease, Result<Replay>) {
    if workspace != lease.workspace then (lease, Err(WorkspaceMismatch))
    else
      match ValidateSessionLease(db, lease, now)
      case Err(e) => (lease, Err(e))
      case Ok(_) =>
        match LoadReplay(db, lease.session)
        case Err(e) => (lease, Err(e))
        case Ok(replay) => (lease.(lastSequence := replay.lastSequence, replayed := true), Ok(replay))
  }

  function TotalBytes(inputs: seq<EventInput>): nat {
    if inputs == [] then 0 else TotalBytes(inputs[..|inputs| - 1]) + |inputs[|inputs| - 1].text|
  }

  predicate PreparesTurn(inputs: seq<EventInput>) {
    && 0 < |inputs| <= MAX_TURN_EVENTS
    && (forall input | input in inputs :: input.kind != Summary && |input.text| <= MAX_EVENT_BYTES)
    && TotalBytes(inputs) <= MAX_TURN_BYTES
  }

  /** The rows of one turn, appended after `last`. */
  function TurnRows(inputs: seq<EventInput>, last: int, turnId: Id, ids: seq<Id>, createdAt: Bytes): seq<Event>
    requires |ids| == |inputs|
  {
    seq(|inputs|, i requires 0 <= i < |inputs| =>
      Event(ids[i], last + i + 1, turnId, i, |inputs|, inputs[i].kind, inputs[i].text, inputs[i].meta, createdAt))
  }

  function AppendRows(db: Db, id: Id, rows: seq<Event>, claim: Option<Claim>, uuid: set<Id>): Db
    requires id in db.sessions
  {
    var session := db.sessions[id];
    SetSession(db, id, session.(events := session.events + rows, claim := claim)).(used := db.used + uuid)
  }

  function AppendTurn(db: Db, lease: Lease, workspace: int, inputs: seq<EventInput>, now: Time,
                      turnId: Id, ids: seq<Id>, createdAt: Bytes): (Db, Lease, Result<seq<Event>>)
    requires |ids| == |inputs|
  {
    if !PreparesTurn(inputs) then (db, lease, Err(Invalid))
    else if !lease.replayed then (db, lease, Err(ReplayRequired))
    else if workspace != lease.workspace then (db, lease, Err(WorkspaceMismatch))
    else
      match ValidateSessionLease(db, lease, now)
      case Err(e) => (db, lease, Err(e))
      case Ok(_) =>
        var last := LastSequence(db.sessions[lease.session].events);
        if last != lease.lastSequence then
          (db, lease.(replayed := false), Err(StaleReplay(lease.lastSequence, last)))
        else if last + |inputs| > I64_MAX then (db, lease, Err(Corrupt(Overflow)))
        else
          var until := now + SESSION_LEASE;
          var rows := TurnRows(inputs, last, turnId, ids, createdAt);
          (AppendRows(db, lease.session, rows, Some(Claim(lease.token, until)), {turnId} + set i | i in ids),
           lease.(lastSequence := last + |inputs|, until := until), Ok(rows))
  }

  function AppendEvent(db: Db, id: Id, input: EventInput, now: Time, uuid: Id, createdAt: Bytes): (Db, Result<Event>) {
    if input.kind == Summary || |input.text| > MAX_EVENT_BYTES then (db, Err(Invalid))
    else if id !in db.sessions then (db, Err(NotFound))
    else
      var session := db.sessions[id];
      if Live(session.claim, now) then (db, Err(SessionBusy(session.claim.value.until)))
      else
        var sequence := LastSequence(session.events) + 1;
        if sequence > I64_MAX then (db, Err(Corrupt(Overflow)))
        else
          var row := Event(uuid, sequence, uuid, 0, 1, input.kind, input.text, input.meta, createdAt);
          (AppendRows(db, id, [row], None, {uuid}), Ok(row))
  }

  /** Retitling a session that is not being executed clears an expired claim. */
  function SetSessionTitle(db: Db, id: Id, now: Time): (Db, Result<()>) {
    if id !in db.sessions then (db, Err(NotFound))
    else if Live(db.sessions[id].claim, now) then (db, Err(SessionBusy(db.sessions[id].claim.value.until)))
    else (SetClaim(db, id, None), Ok(()))
  }

  predicate WorkerLive(j: Job, now: Time) {
    j.state == Running && j.leaseUntil.Some? && j.leaseUntil.value > now
  }

  predicate IsWorker(jobs: map<Id, Job>, session: Id, id: Id) {
    id in jobs && jobs[id].session == session && jobs[id].state == Running && jobs[id].leaseUntil.Some?
  }

  /** `SELECT MAX(lease_until) ... WHERE state = 'running'`. */
  predicate IsLatestWorker(jobs: map<Id, Job>, session: Id, id: Id) {
    && IsWorker(jobs, session, id)
    && forall other | other in jobs && IsWorker(jobs, session, other) ::
         jobs[other].leaseUntil.value <= jobs[id].leaseUntil.value
  }

  function WithoutSession(db: Db, id: Id): Db {
    db.(sessions := db.sessions - {id}, jobs := map j | j in db.jobs && db.jobs[j].session != id :: db.jobs[j])
  }

  /** A live claim, or a live worker of the session, answers its deadline. */
  ghost function DeleteSession(db: Db, id: Id, now: Time): (Db, Result<()>) {
    if id !in db.sessions then (db, Err(NotFound))
    else if Live(db.sessions[id].claim, now) then (db, Err(SessionBusy(db.sessions[id].claim.value.until)))
    else if j :| IsLatestWorker(db.jobs, id, j) then
      if WorkerLive(db.jobs[j], now) then (db, Err(SessionBusy(db.jobs[j].leaseUntil.value)))
      else (WithoutSession(db, id), Ok(()))
    else (WithoutSession(db, id), Ok(()))
  }

  // ----- compaction transactions

  predicate OlderJob(jobs: map<Id, Job>, a: Id, b: Id)
    requires a in jobs && b in jobs
  {
    jobs[a].createdAt < jobs[b].createdAt || (jobs[a].createdAt == jobs[b].createdAt && a <= b)
  }

  predicate IsActive(jobs: map<Id, Job>, session: Id, id: Id) {
    id in jobs && jobs[id].session == session && jobs[id].Active()
  }

  /** `state IN ('pending','running') ORDER BY created_at, id LIMIT 1`. */
  predicate IsOldestActive(jobs: map<Id, Job>, session: Id, id: Id) {
    && IsActive(jobs, session, id)
    && forall other | other in jobs && IsActive(jobs, session, other) :: OlderJob(jobs, id, other)
  }

  /** The session's oldest active job has another boundary. */
  ghost predicate BlockedByActive(jobs: map<Id, Job>, session: Id, through: int) {
    exists a :: IsOldestActive(jobs, session, a) && jobs[a].through != through
  }

  /** Some completed compaction of the session has its summary after `through`. */
  predicate SummaryAfter(events: seq<Event>, jobs: map<Id, Job>, session: Id, through: int) {
    exists id | id in jobs ::
      && IsCompleted(jobs, session, id)
      && exists k | 0 <= k < |events| :: Some(events[k].id) == jobs[id].summaryEvent && events[k].sequence > through
  }

  predicate QueuedAt(jobs: map<Id, Job>, session: Id, through: int, id: Id) {
    id in jobs && jobs[id].session == session && jobs[id].through == through
  }

  function NewJob(session: Id, through: int, source: Provenance, now: Time): Job {
    Job(session, through, Pending, None, None, 0, None, None, None, source, None, now)
  }

  /** Queueing answers the row for the boundary: a new one, or the one that is there. */
  ghost function QueueCompaction(db: Db, session: Id, through: int, now: Time, uuid: Id): (Db, Result<(Id, Job)>) {
    if through <= 0 || through > I64_MAX then (db, Err(Invalid))
    else if BlockedByActive(db.jobs, session, through) then (db, Err(Invalid))
    else if session !in db.sessions then (db, Err(Invalid))
    else
      var events := db.sessions[session].events;
      match AtSequence(events, through)
      case None => (db, Err(Invalid))
      case Some(boundary) =>
        if boundary.turnIndex < 0 || boundary.turnSize <= 0 || boundary.turnIndex + 1 != boundary.turnSize
        then (db, Err(Invalid))
        else if SummaryAfter(events, db.jobs, session, through) then (db, Err(Invalid))
        else
          match TranscriptProvenance(session, events, through)
          case Err(e) => (db, Err(e))
          case Ok(source) =>
            if id :| QueuedAt(db.jobs, session, through, id) then
              (db, if DecodesJob(db.jobs[id]) then Ok((id, db.jobs[id])) else Err(Corrupt(Row)))
            else
              var j := NewJob(session, through, source, now);
              (db.(jobs := db.jobs[uuid := j], used := db.used + {uuid}), Ok((uuid, j)))
  }

  /** How one more failure changes a job. */
  function FailureTransition(j: Job, error: Bytes, disposition: Disposition, now: Time): Job {
    var failures := j.failures + 1;
    var cleared := j.(claimToken := None, leaseUntil := None, failures := failures, lastError := Some(error));
    if disposition == Permanent || failures >= MAX_JOB_FAILURES then
      cleared.(state := Failed, retryAfter := None, failedAt := Some(now))
    else
      cleared.(state := Pending, retryAfter := Some(now + RetryDelay(failures)), failedAt := None)
  }

  function Shift(exponent: nat): nat {
    if exponent == 0 then 1 else 2 * Shift(exponent - 1)
  }

  /** Exponential backoff from the base, capped. */
  function RetryDelay(failures: int): Time {
    var exponent := if failures <= 1 then 0 else if failures - 1 > 31 then 31 else failures - 1;
    var delay := JOB_RETRY_BASE * Shift(exponent);
    if delay > JOB_RETRY_MAX then JOB_RETRY_MAX else delay
  }

  function SetJob(db: Db, id: Id, j: Job): Db {
    db.(jobs := db.jobs[id := j])
  }

  predicate IsExpired(jobs: map<Id, Job>, now: Time, id: Id) {
    id in jobs && jobs[id].state == Running && jobs[id].leaseUntil.Some? && jobs[id].leaseUntil.value <= now
  }

  /** `state = 'running' AND lease_until <= now ORDER BY lease_until, id LIMIT 1`. */
  predicate IsFirstExpired(jobs: map<Id, Job>, now: Time, id: Id) {
    && IsExpired(jobs, now, id)
    && forall other | other in jobs && IsExpired(jobs, now, other) ::
         || jobs[id].leaseUntil.value < jobs[other].leaseUntil.value
         || (jobs[id].leaseUntil.value == jobs[other].leaseUntil.value && id <= other)
  }

  /** The fixed diagnostic recorded for an expired worker claim; its wording plays no part. */
  const EXPIRED: Bytes

  function Expire(jobs: map<Id, Job>, now: Time, id: Id): map<Id, Job>
    requires id in jobs
  {
    jobs[id := FailureTransition(jobs[id], EXPIRED, Retry, now)]
  }

  /** Recover expired claims one at a time, first deadline first, at most `limit` of them. */
  ghost function RecoverUpTo(jobs: map<Id, Job>, now: Time, limit: nat): map<Id, Job> {
    if limit > 0 && exists id :: IsFirstExpired(jobs, now, id) then
      var id :| IsFirstExpired(jobs, now, id);
      RecoverUpTo(Expire(jobs, now, id), now, limit - 1)
    else jobs
  }

  /** Every claim that has expired at `now` recorded as a failed attempt, all at once. */
  function RecoverAll(jobs: map<Id, Job>, now: Time): map<Id, Job> {
    map id | id in jobs ::
      if IsExpired(jobs, now, id) then FailureTransition(jobs[id], EXPIRED, Retry, now) else jobs[id]
  }

  /** A pending job that may be claimed: its retry deadline has come and its session is not live. */
  predicate IsEligible(db: Db, now: Time, id: Id) {
    && id in db.jobs && db.jobs[id].state == Pending
    && (db.jobs[id].retryAfter.None? || db.jobs[id].retryAfter.value <= now)
    && !(db.jobs[id].session in db.sessions && Live(db.sessions[db.jobs[id].session].claim, now))
  }

  predicate IsOldestEligible(db: Db, now: Time, id: Id) {
    && IsEligible(db, now, id)
    && forall other | other in db.jobs && IsEligible(db, now, other) :: OlderJob(db.jobs, id, other)
  }

  function StartJob(j: Job, token: Id, now: Time): Job {
    j.(state := Running, claimToken := Some(token), leaseUntil := Some(now + COMPACTION_LEASE), retryAfter := None)
  }

  ghost function ClaimCompaction(db: Db, now: Time, uuid: Id): (Db, Option<Worker>) {
    var recovered := db.(jobs := RecoverUpTo(db.jobs, now, MAX_STALE_JOB_RECOVERIES));
    if exists id :: IsOldestEligible(recovered, now, id) then
      var id :| IsOldestEligible(recovered, now, id);
      var j := recovered.jobs[id];
      (SetJob(recovered, id, StartJob(j, uuid, now)).(used := db.used + {uuid}),
       Some(Worker(id, uuid, j.through, j.source)))
    else (recovered, None)
  }

  predicate HoldsJob(db: Db, w: Worker) {
    w.job in db.jobs && db.jobs[w.job].state == Running && db.jobs[w.job].claimToken == Some(w.token)
  }

  function RenewCompaction(db: Db, w: Worker, now: Time): (Db, Result<()>) {
    if !HoldsJob(db, w) then (db, Err(Invalid))
    else (SetJob(db, w.job, db.jobs[w.job].(leaseUntil := Some(now + COMPACTION_LEASE))), Ok(()))
  }

  /** Nothing but white space. */
  predicate Blank(text: Bytes) {
    forall b | b in text :: b == 32 || 9 <= b <= 13
  }

  function RecordFailure(db: Db, w: Worker, error: Bytes, disposition: Disposition, now: Time): (Db, Result<()>) {
    if Blank(error) || |error| > MAX_JOB_FAILURE_BYTES then (db, Err(Invalid))
    else if !HoldsJob(db, w) then (db, Err(StaleCompaction))
    else (SetJob(db, w.job, FailureTransition(db.jobs[w.job], error, disposition, now)), Ok(()))
  }

  function ReleaseCompaction(db: Db, w: Worker): (Db, Result<()>) {
    if !HoldsJob(db, w) then (db, Err(StaleCompaction))
    else
      (SetJob(db, w.job, db.jobs[w.job].(state := Pending, claimToken := None, leaseUntil := None, retryAfter := None)),
       Ok(()))
  }

  function ValidateCompactionLease(db: Db, w: Worker, now: Time): Result<()> {
    if w.job !in db.jobs then Err(NotFound)
    else
      var j := db.jobs[w.job];
      if !HoldsJob(db, w) || j.leaseUntil.None? || j.leaseUntil.value <= now || j.source != w.source
      then Err(StaleCompaction)
      else if j.session !in db.sessions then Err(NotFound)
      else
        match TranscriptProvenance(j.session, db.sessions[j.session].events, j.through)
        case Err(e) => Err(e)
        case Ok(source) => if source != j.source then Err(Corrupt(SourceChanged)) else Ok(())
  }

  function FinishJob(j: Job, summary: Id): Job {
    j.(state := Completed, claimToken := None, leaseUntil := None, retryAfter := None, lastError := None,
       failedAt := None, summaryEvent := Some(summary))
  }

  function SummaryRow(w: Worker, sequence: int, text: Bytes, uuid: Id, createdAt: Bytes): Event
    requires 0 <= w.through
  {
    Event(uuid, sequence, uuid, 0, 1, Summary, text, Some(SummaryMeta(w.job, w.through, w.source)), createdAt)
  }

  /** Append the summary and finish the job.  A live session claim wins; an expired one is left as it
      is. */
  function CompleteCompaction(db: Db, w: Worker, text: Bytes, now: Time, uuid: Id, createdAt: Bytes)
    : (Db, Result<Event>)
    requires 0 <= w.through
  {
    if |text| > MAX_EVENT_BYTES then (db, Err(Invalid))
    else
      match ValidateCompactionLease(db, w, now)
      case Err(e) => (db, Err(e))
      case Ok(_) =>
        var j := db.jobs[w.job];
        var session := db.sessions[j.session];
        if Live(session.claim, now) then (db, Err(SessionBusy(session.claim.value.until)))
        else
          var sequence := LastSequence(session.events) + 1;
          if sequence > I64_MAX then (db, Err(Corrupt(Overflow)))
          else
            var row := SummaryRow(w, sequence, text, uuid, createdAt);
            (SetJob(AppendRows(db, j.session, [row], session.claim, {uuid}), w.job, FinishJob(j, uuid)), Ok(row))
  }

  /** Put a failed job back in the queue. */
  function RetryFailedJob(db: Db, id: Id): (Db, Result<()>) {
    if id !in db.jobs || db.jobs[id].state != Failed then (db, Err(NotFound))
    else
      var j := db.jobs[id];
      (SetJob(db, id, j.(state := Pending, failures := 0, retryAfter := None, lastError := None, failedAt := None)),
       Ok(()))
  }
}
