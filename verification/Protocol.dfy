/** Clients, workers and the database as one step machine.  A step is one transaction on behalf of
    one caller; the time of each step is an arbitrary input. */
module Protocol {
  import opened Records
  import opened Turns
  import opened Transcript
  import opened Store
  import opened Ledger
  import opened Integrity
  import opened Replays

  /** `seen` records, for each lease, the session's whole event list as its holder last replayed it or
      appended to it. */
  datatype World = World(db: Db, leases: map<Id, Lease>, workers: map<Id, Worker>, seen: map<Id, seq<Event>>)

  datatype Action =
    | Start(workspace: int, uuid: Id)
    | Claim(session: Id, workspace: int, now: Time, uuid: Id)
    | Renew(token: Id, workspace: int, now: Time)
    | Release(token: Id)
    | ReplayAll(token: Id, workspace: int, now: Time)
    | Append(token: Id, workspace: int, inputs: seq<EventInput>, now: Time, turnId: Id, ids: seq<Id>, createdAt: Bytes)
    | AppendOne(session: Id, input: EventInput, now: Time, uuid: Id, createdAt: Bytes)
    | SetTitle(session: Id, now: Time)
    | Delete(session: Id, now: Time)
    | Queue(session: Id, through: int, now: Time, uuid: Id)
    | ClaimJob(now: Time, uuid: Id)
    | RenewJob(token: Id, now: Time)
    | FailJob(token: Id, error: Bytes, disposition: Disposition, now: Time)
    | ReleaseJob(token: Id)
    | CompleteJob(token: Id, text: Bytes, now: Time, uuid: Id, createdAt: Bytes)
    | RecoverStale(now: Time)
    | RetryJob(job: Id)

  const EMPTY := World(Db(map[], map[], {}), map[], map[], map[])

  /** The caller holds the lease it names, and generated identifiers are new. */
  ghost predicate Enabled(w: World, a: Action) {
    match a
    case Renew(token, _, _) => token in w.leases
    case Release(token) => token in w.leases
    case ReplayAll(token, _, _) => token in w.leases
    case Append(token, _, inputs, _, turnId, ids, _) =>
      && token in w.leases && |ids| == |inputs| && turnId !in w.db.used
      && (forall i | 0 <= i < |ids| :: ids[i] !in w.db.used)
      && (forall i, j | 0 <= i < j < |ids| :: ids[i] != ids[j])
    case RenewJob(token, _) => token in w.workers
    case FailJob(token, _, _, _) => token in w.workers
    case ReleaseJob(token) => token in w.workers
    case CompleteJob(token, _, _, uuid, _) => token in w.workers && 0 <= w.workers[token].through && uuid !in w.db.used
    case Start(_, uuid) => uuid !in w.db.used
    case Claim(_, _, _, uuid) => uuid !in w.db.used
    case AppendOne(_, _, _, uuid, _) => uuid !in w.db.used
    case Queue(_, _, _, uuid) => uuid !in w.db.used
    case ClaimJob(_, uuid) => uuid !in w.db.used
    case _ => true
  }

  /** The actions of a client that holds, or asks for, a session lease. */
  ghost predicate IsLeaseAction(a: Action) {
    a.Claim? || a.Renew? || a.Release? || a.ReplayAll? || a.Append?
  }

  ghost function LeaseStep(w: World, a: Action): World
    requires Enabled(w, a) && IsLeaseAction(a)
  {
    match a
    case Claim(session, workspace, now, uuid) =>
      var (db, r) := ClaimSession(w.db, session, workspace, now, uuid);
      if r.Err? then w
      else w.(db := db, leases := w.leases[uuid := r.value], seen := w.seen[uuid := []])
    case Renew(token, workspace, now) =>
      var (db, lease, _) := RenewSession(w.db, w.leases[token], workspace, now);
      w.(db := db, leases := w.leases[token := lease])
    case Release(token) =>
      var (db, lease, _) := ReleaseSession(w.db, w.leases[token]);
      w.(db := db, leases := w.leases[token := lease])
    case ReplayAll(token, workspace, now) =>
      var (lease, r) := ReplaySession(w.db, w.leases[token], workspace, now);
      if r.Err? then w
      else w.(leases := w.leases[token := lease], seen := w.seen[token := w.db.sessions[lease.session].events])
    case Append(token, workspace, inputs, now, turnId, ids, createdAt) =>
      var (db, lease, r) := AppendTurn(w.db, w.leases[token], workspace, inputs, now, turnId, ids, createdAt);
      if r.Err? then w.(leases := w.leases[token := lease])
      else w.(db := db, leases := w.leases[token := lease],
              seen := w.seen[token := (if token in w.seen then w.seen[token] else []) + r.value])
  }

  /** The actions that touch the database only. */
  ghost function DbStep(w: World, a: Action): Db
    requires Enabled(w, a) && !IsLeaseAction(a) && !a.ClaimJob?
  {
    match a
    case Start(workspace, uuid) => StartSession(w.db, workspace, uuid)
    case AppendOne(session, input, now, uuid, createdAt) => AppendEvent(w.db, session, input, now, uuid, createdAt).0
    case SetTitle(session, now) => SetSessionTitle(w.db, session, now).0
    case Delete(session, now) => DeleteSession(w.db, session, now).0
    case Queue(session, through, now, uuid) => QueueCompaction(w.db, session, through, now, uuid).0
    case RenewJob(token, now) => RenewCompaction(w.db, w.workers[token], now).0
    case FailJob(token, error, disposition, now) => RecordFailure(w.db, w.workers[token], error, disposition, now).0
    case ReleaseJob(token) => ReleaseCompaction(w.db, w.workers[token]).0
    case CompleteJob(token, text, now, uuid, createdAt) =>
      CompleteCompaction(w.db, w.workers[token], text, now, uuid, createdAt).0
    case RecoverStale(now) => w.db.(jobs := RecoverAll(w.db.jobs, now))
    case RetryJob(job) => RetryFailedJob(w.db, job).0
  }

  ghost function Step(w: World, a: Action): World
    requires Enabled(w, a)
  {
    if IsLeaseAction(a) then LeaseStep(w, a)
    else if a.ClaimJob? then
      var (db, r) := ClaimCompaction(w.db, a.now, a.uuid);
      if r.None? then w.(db := db) else w.(db := db, workers := w.workers[a.uuid := r.value])
    else w.(db := DbStep(w, a))
  }

  /** A retry repeats the tests that queueing makes. */
  ghost predicate Guarded(w: World, a: Action) {
    a.RetryJob? && a.job in w.db.jobs && w.db.jobs[a.job].state == Failed ==>
      w.db.jobs[a.job].session in w.db.sessions
      && QueueGuard(w.db, w.db.jobs[a.job].session, w.db.jobs[a.job].through)
  }

  // ----- the invariant of a run

  /** A worker's copy of its job agrees with the row, for as long as the row exists. */
  ghost predicate WorkersOk(w: World) {
    && (forall t | t in w.workers ::
          && t in w.db.used && w.workers[t].token == t && w.workers[t].job in w.db.used && 0 <= w.workers[t].through
          && (w.workers[t].job in w.db.jobs ==>
                && w.db.jobs[w.workers[t].job].through == w.workers[t].through
                && w.db.jobs[w.workers[t].job].source == w.workers[t].source))
    && (forall id | id in w.db.jobs && w.db.jobs[id].claimToken.Some? ::
          var t := w.db.jobs[id].claimToken.value; t in w.workers && w.workers[t].job == id)
  }

  /** Stored session tokens were issued for that session. */
  ghost predicate LeasesOk(w: World) {
    && (forall t | t in w.leases ::
          t in w.db.used && t in w.seen && w.leases[t].token == t && w.leases[t].session in w.db.used)
    && (forall s | s in w.db.sessions && w.db.sessions[s].claim.Some? ::
          var t := w.db.sessions[s].claim.value.token; t in w.leases && w.leases[t].session == s)
  }

  /** A lease that may append has seen a prefix of its session as long as its cursor says. */
  ghost predicate SeenOk(w: World) {
    forall t | t in w.leases && t in w.seen && w.leases[t].replayed && w.leases[t].session in w.db.sessions ::
      && w.seen[t] <= w.db.sessions[w.leases[t].session].events
      && |w.seen[t]| == w.leases[t].lastSequence
  }

  ghost predicate WorldOk(w: World) {
    DbOk(w.db) && WorkersOk(w) && LeasesOk(w) && SeenOk(w)
  }

  lemma InitOk()
    ensures WorldOk(EMPTY) && ChainsOk(EMPTY.db)
  {
    forall s ensures SessionOk(EMPTY.db, s) && ChainAt(EMPTY.db, s) {}
  }

  // ----- the database part

  lemma LeaseStepKeepsDb(w: World, a: Action)
    requires DbOk(w.db) && Enabled(w, a) && IsLeaseAction(a)
    ensures Preserves(w.db, LeaseStep(w, a).db)
  {
    match a
    case Claim(session, workspace, now, uuid) =>
      if session in w.db.sessions {
        DbClaim(w.db, session, Some(Store.Claim(uuid, now + SESSION_LEASE)), w.db.used + {uuid});
      }
    case Renew(token, workspace, now) =>
      var lease := w.leases[token];
      if lease.session in w.db.sessions {
        DbClaim(w.db, lease.session, Some(Store.Claim(lease.token, now + SESSION_LEASE)), w.db.used);
      }
    case Release(token) =>
      if w.leases[token].session in w.db.sessions { DbClaim(w.db, w.leases[token].session, None, w.db.used); }
    case ReplayAll(token, workspace, now) =>
    case Append(token, workspace, inputs, now, turnId, ids, createdAt) =>
      DbAppendTurn(w.db, w.leases[token], workspace, inputs, now, turnId, ids, createdAt);
  }

  lemma DbStepKeepsDb(w: World, a: Action)
    requires DbOk(w.db) && WorkersOk(w) && Enabled(w, a) && !IsLeaseAction(a) && !a.ClaimJob?
    ensures DbOk(DbStep(w, a))
    ensures ChainsOk(w.db) && Guarded(w, a) ==> ChainsOk(DbStep(w, a))
  {
    match a
    case Start(workspace, uuid) => DbStart(w.db, workspace, uuid);
    case AppendOne(session, input, now, uuid, createdAt) => DbAppendEvent(w.db, session, input, now, uuid, createdAt);
    case SetTitle(session, now) =>
      if session in w.db.sessions { DbClaim(w.db, session, None, w.db.used); }
    case Delete(session, now) => DbDelete(w.db, session, now);
    case Queue(session, through, now, uuid) => DbQueue(w.db, session, through, now, uuid);
    case RenewJob(token, now) => DbRenew(w.db, w.workers[token], now);
    case FailJob(token, error, disposition, now) => DbFail(w.db, w.workers[token], error, disposition, now);
    case ReleaseJob(token) => DbRelease(w.db, w.workers[token]);
    case CompleteJob(token, text, now, uuid, createdAt) =>
      DbComplete(w.db, w.workers[token], text, now, uuid, createdAt);
    case RecoverStale(now) => DbRecoverAll(w.db, now);
    case RetryJob(job) =>
      DbRetry(w.db, job);
      if ChainsOk(w.db) && job in w.db.jobs && w.db.jobs[job].state == Failed { RetryKeepsIffGuarded(w.db, job); }
  }

  lemma StepKeepsDb(w: World, a: Action)
    requires DbOk(w.db) && WorkersOk(w) && Enabled(w, a)
    ensures DbOk(Step(w, a).db)
    ensures ChainsOk(w.db) && Guarded(w, a) ==> ChainsOk(Step(w, a).db)
  {
    if IsLeaseAction(a) { LeaseStepKeepsDb(w, a); }
    else if a.ClaimJob? { DbClaimJob(w.db, a.now, a.uuid); }
    else { DbStepKeepsDb(w, a); }
  }

  // ----- what leases and workers rely on

  ghost predicate SameWork(j: Job, j': Job) {
    j'.session == j.session && j'.through == j.through && j'.source == j.source && j'.createdAt == j.createdAt
  }

  /** Job rows keep their session, boundary and source; a row that appears has a new identity; a claim
      token that appears is the one `granted` to a worker. */
  ghost predicate JobsFrom(db: Db, db': Db, granted: Option<Worker>) {
    && db.used <= db'.used
    && (granted.Some? ==>
          var g := granted.value;
          && g.token !in db.used && g.token in db'.used && g.job in db.jobs && g.job in db'.jobs
          && g.through == db.jobs[g.job].through && g.source == db.jobs[g.job].source)
    && forall id | id in db'.jobs ::
         && (id in db.jobs ==> SameWork(db.jobs[id], db'.jobs[id]))
         && (id !in db.jobs ==> id !in db.used && id in db'.used && db'.jobs[id].claimToken.None?)
         && (db'.jobs[id].claimToken.Some? ==>
               || (id in db.jobs && db'.jobs[id].claimToken == db.jobs[id].claimToken)
               || (granted.Some? && granted.value.job == id && db'.jobs[id].claimToken == Some(granted.value.token)))
  }

  /** A session keeps its events as a prefix; one that appears is new and unclaimed; a stored token is
      one that was stored before or the one `granted`. */
  ghost predicate SessionsFrom(db: Db, db': Db, granted: Option<Lease>) {
    && db.used <= db'.used
    && forall s | s in db'.sessions ::
         && (s in db.sessions ==> db.sessions[s].events <= db'.sessions[s].events)
         && (s !in db.sessions ==> s !in db.used && s in db'.used && db'.sessions[s].claim.None?)
         && (db'.sessions[s].claim.Some? ==>
               || HoldsToken(db, s, db'.sessions[s].claim.value.token)
               || (&& granted.Some? && granted.value.session == s
                   && granted.value.token == db'.sessions[s].claim.value.token))
  }

  ghost predicate Evolves(db: Db, db': Db) {
    JobsFrom(db, db', None) && SessionsFrom(db, db', None)
  }

  lemma StartEvolves(db: Db, workspace: int, uuid: Id)
    requires RefsOk(db) && uuid !in db.used
    ensures Evolves(db, StartSession(db, workspace, uuid))
  {
  }

  lemma AppendEventEvolves(db: Db, session: Id, input: EventInput, now: Time, uuid: Id, createdAt: Bytes)
    ensures Evolves(db, AppendEvent(db, session, input, now, uuid, createdAt).0)
  {
  }

  lemma TitleEvolves(db: Db, session: Id, now: Time)
    ensures Evolves(db, SetSessionTitle(db, session, now).0)
  {
  }

  lemma DeleteEvolves(db: Db, session: Id, now: Time)
    ensures Evolves(db, DeleteSession(db, session, now).0)
  {
  }

  lemma QueueEvolves(db: Db, session: Id, through: int, now: Time, uuid: Id)
    requires RefsOk(db) && uuid !in db.used
    ensures Evolves(db, QueueCompaction(db, session, through, now, uuid).0)
  {
    var db' := QueueCompaction(db, session, through, now, uuid).0;
    assert db'.sessions == db.sessions;
    assert db' == db || exists source ::
      db'.jobs == db.jobs[uuid := NewJob(session, through, source, now)] && db'.used == db.used + {uuid};
  }

  /** One row changes and its claim is cleared or stays. */
  lemma OneRowEvolves(db: Db, id: Id, j': Job)
    requires id in db.jobs && SameWork(db.jobs[id], j')
    requires j'.claimToken.None? || j'.claimToken == db.jobs[id].claimToken
    ensures Evolves(db, SetJob(db, id, j'))
  {
  }

  lemma WorkerEvolves(db: Db, wk: Worker)
    ensures forall now :: Evolves(db, RenewCompaction(db, wk, now).0)
    ensures forall error, disposition, now :: Evolves(db, RecordFailure(db, wk, error, disposition, now).0)
    ensures Evolves(db, ReleaseCompaction(db, wk).0)
  {
    if HoldsJob(db, wk) {
      var j := db.jobs[wk.job];
      forall now ensures Evolves(db, RenewCompaction(db, wk, now).0) {
        OneRowEvolves(db, wk.job, j.(leaseUntil := Some(now + COMPACTION_LEASE)));
      }
      forall error, disposition, now ensures Evolves(db, RecordFailure(db, wk, error, disposition, now).0) {
        OneRowEvolves(db, wk.job, FailureTransition(j, error, disposition, now));
      }
      OneRowEvolves(db, wk.job, j.(state := Pending, claimToken := None, leaseUntil := None, retryAfter := None));
    }
  }

  lemma RetryEvolves(db: Db, id: Id)
    ensures Evolves(db, RetryFailedJob(db, id).0)
  {
    if id in db.jobs && db.jobs[id].state == Failed { OneRowEvolves(db, id, RetryFailedJob(db, id).0.jobs[id]); }
  }

  lemma CompleteEvolves(db: Db, wk: Worker, text: Bytes, now: Time, uuid: Id, createdAt: Bytes)
    requires 0 <= wk.through
    ensures Evolves(db, CompleteCompaction(db, wk, text, now, uuid, createdAt).0)
  {
    CompleteWrites(db, wk, text, now, uuid, createdAt);
  }

  lemma RecoverEvolves(db: Db, jobs': map<Id, Job>, now: Time)
    requires jobs'.Keys == db.jobs.Keys
    requires forall a | a in db.jobs ::
               jobs'[a] == db.jobs[a] || jobs'[a] == FailureTransition(db.jobs[a], EXPIRED, Store.Retry, now)
    ensures Evolves(db, db.(jobs := jobs'))
  {
  }

  lemma ClaimJobEvolves(db: Db, now: Time, uuid: Id)
    requires uuid !in db.used
    ensures var (db', r) := ClaimCompaction(db, now, uuid);
            JobsFrom(db, db', r) && SessionsFrom(db, db', None) && (r.Some? ==> r.value.token == uuid)
  {
    RecoverRows(db.jobs, now, MAX_STALE_JOB_RECOVERIES);
    RecoverEvolves(db, RecoverUpTo(db.jobs, now, MAX_STALE_JOB_RECOVERIES), now);
  }

  lemma DbStepEvolves(w: World, a: Action)
    requires RefsOk(w.db) && Enabled(w, a) && !IsLeaseAction(a) && !a.ClaimJob?
    ensures Evolves(w.db, DbStep(w, a))
  {
    match a
    case Start(workspace, uuid) => StartEvolves(w.db, workspace, uuid);
    case AppendOne(session, input, now, uuid, createdAt) =>
      AppendEventEvolves(w.db, session, input, now, uuid, createdAt);
    case SetTitle(session, now) => TitleEvolves(w.db, session, now);
    case Delete(session, now) => DeleteEvolves(w.db, session, now);
    case Queue(session, through, now, uuid) => QueueEvolves(w.db, session, through, now, uuid);
    case RenewJob(token, now) => WorkerEvolves(w.db, w.workers[token]);
    case FailJob(token, error, disposition, now) => WorkerEvolves(w.db, w.workers[token]);
    case ReleaseJob(token) => WorkerEvolves(w.db, w.workers[token]);
    case CompleteJob(token, text, now, uuid, createdAt) =>
      CompleteEvolves(w.db, w.workers[token], text, now, uuid, createdAt);
    case RecoverStale(now) => RecoverEvolves(w.db, RecoverAll(w.db.jobs, now), now);
    case RetryJob(job) => RetryEvolves(w.db, job);
  }

  /** The lease a step hands out. */
  ghost function Granted(w: World, a: Action): Option<Lease> {
    if !a.Claim? then None
    else
      match ClaimSession(w.db, a.session, a.workspace, a.now, a.uuid).1
      case Ok(lease) => Some(lease)
      case Err(_) => None
  }

  lemma ClaimEvolves(db: Db, session: Id, workspace: int, now: Time, uuid: Id)
    ensures var (db', r) := ClaimSession(db, session, workspace, now, uuid);
            JobsFrom(db, db', None) && SessionsFrom(db, db', if r.Ok? then Some(r.value) else None)
  {
  }

  lemma HolderEvolves(db: Db, lease: Lease, workspace: int, now: Time)
    ensures Evolves(db, RenewSession(db, lease, workspace, now).0)
    ensures Evolves(db, ReleaseSession(db, lease).0)
  {
  }

  lemma AppendTurnEvolves(db: Db, lease: Lease, workspace: int, inputs: seq<EventInput>, now: Time,
                          turnId: Id, ids: seq<Id>, createdAt: Bytes)
    requires |ids| == |inputs|
    ensures Evolves(db, AppendTurn(db, lease, workspace, inputs, now, turnId, ids, createdAt).0)
  {
  }

  lemma LeaseStepEvolves(w: World, a: Action)
    requires Enabled(w, a) && IsLeaseAction(a)
    ensures JobsFrom(w.db, LeaseStep(w, a).db, None)
    ensures SessionsFrom(w.db, LeaseStep(w, a).db, Granted(w, a))
  {
    match a
    case Claim(session, workspace, now, uuid) => ClaimEvolves(w.db, session, workspace, now, uuid);
    case Renew(token, workspace, now) => HolderEvolves(w.db, w.leases[token], workspace, now);
    case Release(token) => HolderEvolves(w.db, w.leases[token], 0, 0);
    case ReplayAll(token, workspace, now) =>
    case Append(token, workspace, inputs, now, turnId, ids, createdAt) =>
      AppendTurnEvolves(w.db, w.leases[token], workspace, inputs, now, turnId, ids, createdAt);
  }

  lemma StepEvolves(w: World, a: Action)
    requires RefsOk(w.db) && Enabled(w, a)
    ensures SessionsFrom(w.db, Step(w, a).db, Granted(w, a))
    ensures !a.ClaimJob? ==> JobsFrom(w.db, Step(w, a).db, None) && Step(w, a).workers == w.workers
  {
    if IsLeaseAction(a) { LeaseStepEvolves(w, a); LeaseStepWorkers(w, a); }
    else if a.ClaimJob? { ClaimJobEvolves(w.db, a.now, a.uuid); }
    else { DbStepEvolves(w, a); }
  }

  lemma LeaseStepWorkers(w: World, a: Action)
    requires Enabled(w, a) && IsLeaseAction(a)
    ensures LeaseStep(w, a).workers == w.workers
  {
  }

  lemma KeepWorkers(w: World, w': World, granted: Option<Worker>)
    requires WorkersOk(w) && RefsOk(w.db) && JobsFrom(w.db, w'.db, granted)
    requires w'.workers == if granted.Some? then w.workers[granted.value.token := granted.value] else w.workers
    requires forall id | id in w.db.jobs :: 0 <= w.db.jobs[id].through
    ensures WorkersOk(w')
  {
  }

  lemma StepKeepsWorkers(w: World, a: Action)
    requires DbOk(w.db) && WorkersOk(w) && Enabled(w, a)
    ensures WorkersOk(Step(w, a))
  {
    forall id | id in w.db.jobs ensures 0 <= w.db.jobs[id].through { JobFacts(w.db, id); }
    StepEvolves(w, a);
    if a.ClaimJob? {
      ClaimJobEvolves(w.db, a.now, a.uuid);
      KeepWorkers(w, Step(w, a), ClaimCompaction(w.db, a.now, a.uuid).1);
    } else {
      KeepWorkers(w, Step(w, a), None);
    }
  }

  /** A lease object keeps its session and token, and only its own holder (`actor`) changes it or what
      it saw; a lease that appears is the one `granted`, and its holder has seen nothing. */
  ghost predicate LeasesFrom(w: World, w': World, actor: Option<Id>, granted: Option<Lease>) {
    && (forall t | t in w.leases ::
          && t in w'.leases && t in w'.seen
          && w'.leases[t].session == w.leases[t].session && w'.leases[t].token == w.leases[t].token
          && (actor != Some(t) ==> w'.leases[t] == w.leases[t] && t in w.seen && w'.seen[t] == w.seen[t]))
    && (forall t | t in w'.leases && t !in w.leases ::
          && granted.Some? && t == granted.value.token && w'.leases[t] == granted.value
          && t in w'.seen && w'.seen[t] == [])
    && (granted.Some? ==> granted.value.token in w'.leases && w'.leases[granted.value.token] == granted.value)
  }

  ghost function Actor(a: Action): Option<Id> {
    match a
    case Renew(token, _, _) => Some(token)
    case Release(token) => Some(token)
    case ReplayAll(token, _, _) => Some(token)
    case Append(token, _, _, _, _, _, _) => Some(token)
    case _ => None
  }

  /** One lease and what its holder saw are updated. */
  lemma OneLease(w: World, w': World, token: Id)
    requires LeasesOk(w) && token in w.leases && token in w'.leases && token in w'.seen
    requires w'.leases == w.leases[token := w'.leases[token]] && w'.seen == w.seen[token := w'.seen[token]]
    requires w'.leases[token].session == w.leases[token].session && w'.leases[token].token == w.leases[token].token
    ensures LeasesFrom(w, w', Some(token), None)
  {
  }

  lemma LeaseStepLeases(w: World, a: Action)
    requires LeasesOk(w) && Enabled(w, a) && IsLeaseAction(a)
    ensures LeasesFrom(w, LeaseStep(w, a), Actor(a), Granted(w, a))
  {
    var w' := LeaseStep(w, a);
    match a
    case Claim(session, workspace, now, uuid) =>
    case Renew(token, workspace, now) => OneLease(w, w', token);
    case Release(token) => OneLease(w, w', token);
    case ReplayAll(token, workspace, now) => OneLease(w, w', token);
    case Append(token, workspace, inputs, now, turnId, ids, createdAt) => OneLease(w, w', token);
  }

  lemma StepLeases(w: World, a: Action)
    requires LeasesOk(w) && Enabled(w, a)
    ensures LeasesFrom(w, Step(w, a), Actor(a), Granted(w, a))
  {
    if IsLeaseAction(a) { LeaseStepLeases(w, a); }
  }

  lemma KeepLeases(w: World, w': World, actor: Option<Id>, granted: Option<Lease>)
    requires LeasesOk(w) && SessionsFrom(w.db, w'.db, granted) && LeasesFrom(w, w', actor, granted)
    requires granted.Some? ==> granted.value.token in w'.db.used && granted.value.session in w.db.used
    ensures LeasesOk(w')
  {
  }

  /** A claim that succeeds issues a new token for the session it names. */
  lemma ClaimGrants(w: World, a: Action)
    requires RefsOk(w.db) && Enabled(w, a)
    ensures Granted(w, a).Some? ==>
              var lease := Granted(w, a).value;
              && a.session in w.db.sessions && lease.session == a.session
              && lease.token == a.uuid && a.uuid !in w.db.used && a.uuid in Step(w, a).db.used
              && lease.lastSequence == LastSequence(w.db.sessions[a.session].events)
              && lease.replayed == (lease.lastSequence == 0)
              && a.session in Step(w, a).db.sessions
              && Step(w, a).db.sessions[a.session].events == w.db.sessions[a.session].events
  {
  }

  lemma StepKeepsLeases(w: World, a: Action)
    requires RefsOk(w.db) && LeasesOk(w) && Enabled(w, a)
    ensures LeasesOk(Step(w, a))
  {
    StepEvolves(w, a);
    StepLeases(w, a);
    ClaimGrants(w, a);
    KeepLeases(w, Step(w, a), Actor(a), Granted(w, a));
  }

  // ----- no lost update

  ghost predicate SeenBy(w: World, t: Id)
    requires t in w.leases && t in w.seen
  {
    w.leases[t].replayed && w.leases[t].session in w.db.sessions ==>
      && w.seen[t] <= w.db.sessions[w.leases[t].session].events
      && |w.seen[t]| == w.leases[t].lastSequence
  }

  /** An append that succeeds extends exactly the list its holder last saw. */
  lemma AppendExtendsSeen(w: World, a: Action)
    requires WorldOk(w) && Enabled(w, a) && a.Append?
    ensures var lease := w.leases[a.token];
            var r := AppendTurn(w.db, lease, a.workspace, a.inputs, a.now, a.turnId, a.ids, a.createdAt).2;
            r.Ok? ==>
              && lease.session in w.db.sessions
              && w.db.sessions[lease.session].events == w.seen[a.token]
              && Step(w, a).db.sessions[lease.session].events == w.seen[a.token] + r.value
              && Step(w, a).seen[a.token] == w.seen[a.token] + r.value
              && Step(w, a).leases[a.token].lastSequence == |w.seen[a.token]| + |r.value|
  {
    var s := w.leases[a.token].session;
    if s in w.db.sessions {
      assert SessionOk(w.db, s);
      LastSequenceIsLength(w.db.sessions[s].events);
      assert SeenBy(w, a.token);
    }
  }

  /** A replay moves the cursor to the end of the log it read. */
  lemma ReplayCursor(db: Db, session: Id)
    requires session in db.sessions
    ensures LoadReplay(db, session).Ok? ==>
            LoadReplay(db, session).value.lastSequence == LastSequence(db.sessions[session].events)
  {
  }

  lemma ReplayMovesCursor(db: Db, lease: Lease, workspace: int, now: Time)
    ensures var (lease', r) := ReplaySession(db, lease, workspace, now);
            if r.Err? then lease' == lease
            else
              && lease.session in db.sessions
              && lease' == lease.(lastSequence := LastSequence(db.sessions[lease.session].events), replayed := true)
  {
    if lease.session in db.sessions { ReplayCursor(db, lease.session); }
  }

  lemma ReplayRecordsAll(w: World, a: Action)
    requires WorldOk(w) && Enabled(w, a) && a.ReplayAll?
    ensures SeenBy(Step(w, a), a.token)
  {
    var s := w.leases[a.token].session;
    ReplayMovesCursor(w.db, w.leases[a.token], a.workspace, a.now);
    if s in w.db.sessions {
      assert SessionOk(w.db, s);
      LastSequenceIsLength(w.db.sessions[s].events);
    }
    assert SeenBy(w, a.token);
  }

  /** Renewal and release leave the cursor alone; a failed append does too, or drops the replay. */
  lemma OtherHolderSteps(w: World, a: Action)
    requires WorldOk(w) && Enabled(w, a) && (a.Renew? || a.Release?)
    ensures SeenBy(Step(w, a), a.token)
  {
    assert SeenBy(w, a.token);
  }

  lemma FailedAppend(w: World, a: Action)
    requires WorldOk(w) && Enabled(w, a) && a.Append?
    requires AppendTurn(w.db, w.leases[a.token], a.workspace, a.inputs, a.now, a.turnId, a.ids, a.createdAt).2.Err?
    ensures SeenBy(Step(w, a), a.token)
  {
    assert SeenBy(w, a.token);
  }

  /** A step of somebody else leaves a lease's view a prefix of its session. */
  lemma BystanderKeepsSeen(w: World, w': World, actor: Option<Id>, granted: Option<Lease>, t: Id)
    requires LeasesOk(w) && SeenOk(w) && RefsOk(w.db) && t in w.leases && actor != Some(t)
    requires SessionsFrom(w.db, w'.db, granted) && LeasesFrom(w, w', actor, granted)
    ensures SeenBy(w', t)
  {
    assert SeenBy(w, t);
  }

  lemma StepKeepsSeen(w: World, a: Action)
    requires WorldOk(w) && Enabled(w, a)
    ensures SeenOk(Step(w, a))
  {
    var w' := Step(w, a);
    forall t | t in w'.leases && t in w'.seen ensures SeenBy(w', t) {
      if t !in w.leases {
        GrantedSeesNothing(w, a, t);
      } else if Actor(a) == Some(t) {
        ActorKeepsSeen(w, a);
      } else {
        StepKeepsBystander(w, a, t);
      }
    }
  }

  lemma StepKeepsBystander(w: World, a: Action, t: Id)
    requires WorldOk(w) && Enabled(w, a) && t in w.leases && Actor(a) != Some(t)
    ensures t in Step(w, a).leases && t in Step(w, a).seen && SeenBy(Step(w, a), t)
  {
    StepEvolves(w, a);
    StepLeases(w, a);
    BystanderKeepsSeen(w, Step(w, a), Actor(a), Granted(w, a), t);
  }

  /** A new lease may append only to a session without events, of which it has seen everything. */
  lemma GrantedSeesNothing(w: World, a: Action, t: Id)
    requires WorldOk(w) && Enabled(w, a) && t in Step(w, a).leases && t !in w.leases
    ensures t in Step(w, a).seen && SeenBy(Step(w, a), t)
  {
    StepLeases(w, a);
    ClaimGrants(w, a);
    assert SessionOk(w.db, a.session);
    LastSequenceIsLength(w.db.sessions[a.session].events);
  }

  lemma ActorKeepsSeen(w: World, a: Action)
    requires WorldOk(w) && Enabled(w, a) && Actor(a).Some?
    ensures Actor(a).value in Step(w, a).leases && Actor(a).value in Step(w, a).seen
            && SeenBy(Step(w, a), Actor(a).value)
  {
    match a
    case Renew(_, _, _) => OtherHolderSteps(w, a);
    case Release(_) => OtherHolderSteps(w, a);
    case ReplayAll(_, _, _) => ReplayRecordsAll(w, a);
    case Append(token, workspace, inputs, now, turnId, ids, createdAt) =>
      var r := AppendTurn(w.db, w.leases[token], workspace, inputs, now, turnId, ids, createdAt).2;
      if r.Err? { FailedAppend(w, a); } else { AppendExtendsSeen(w, a); }
  }

  /** Every step keeps the invariant, and keeps the chains if a retry repeats the queue's tests. */
  lemma StepKeeps(w: World, a: Action)
    requires WorldOk(w) && Enabled(w, a)
    ensures WorldOk(Step(w, a))
    ensures ChainsOk(w.db) && Guarded(w, a) ==> ChainsOk(Step(w, a).db)
  {
    StepKeepsDb(w, a);
    StepKeepsWorkers(w, a);
    StepKeepsLeases(w, a);
    StepKeepsSeen(w, a);
  }
}
