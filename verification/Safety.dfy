/** What holds over whole runs of the protocol. */
module Safety {
  import opened Records
  import opened Turns
  import opened Transcript
  import opened Store
  import opened Ledger
  import opened Integrity
  import opened Replays
  import opened Protocol

  /** Every action is possible when its turn comes. */
  ghost predicate Runs(w: World, actions: seq<Action>)
    decreases |actions|
  {
    actions == [] || (Enabled(w, actions[0]) && Runs(Step(w, actions[0]), actions[1..]))
  }

  /** Every retry in the run repeats the tests that queueing makes. */
  ghost predicate GuardedRun(w: World, actions: seq<Action>)
    requires Runs(w, actions)
    decreases |actions|
  {
    actions == [] || (Guarded(w, actions[0]) && GuardedRun(Step(w, actions[0]), actions[1..]))
  }

  ghost function Final(w: World, actions: seq<Action>): World
    requires Runs(w, actions)
    decreases |actions|
  {
    if actions == [] then w else Final(Step(w, actions[0]), actions[1..])
  }

  lemma {:induction false} RunKeeps(w: World, actions: seq<Action>)
    requires WorldOk(w) && Runs(w, actions)
    ensures WorldOk(Final(w, actions))
    ensures ChainsOk(w.db) && GuardedRun(w, actions) ==> ChainsOk(Final(w, actions).db)
    decreases |actions|
  {
    if actions != [] {
      StepKeeps(w, actions[0]);
      RunKeeps(Step(w, actions[0]), actions[1..]);
    }
  }

  /** In every run with guarded retries, a session's completed compactions form a chain with at most
      one active job, and replay answers the effective transcript or its size limit. */
  lemma GuardedRunsReplay(actions: seq<Action>, session: Id)
    requires Runs(EMPTY, actions) && GuardedRun(EMPTY, actions)
    requires session in Final(EMPTY, actions).db.sessions
    ensures var db := Final(EMPTY, actions).db;
            var (events, top) := (db.sessions[session].events, TopJob(db.jobs, session));
            && ShapeOk(session, events, db.jobs)
            && (top.Some? ==> 0 < top.value.through <= SummarySlot(events, top.value))
            && WholeTurns(Effective(events, top))
            && LoadReplay(db, session) ==
               if ReplayFits(Effective(events, top))
               then Ok(Replay(Effective(events, top), |events|, if top.Some? then Some(top.value.through) else None))
               else Err(TooLarge)
  {
    InitOk();
    RunKeeps(EMPTY, actions);
    var db := Final(EMPTY, actions).db;
    assert ChainAt(db, session);
    ReplayNeverCorrupt(db, session);
  }

  /** In every run, guarded or not, each job row satisfies the schema's CHECK, decodes, and has at most
      three failures, fewer while it is pending or running. */
  lemma JobRowsStayValid(actions: seq<Action>, id: Id)
    requires Runs(EMPTY, actions) && id in Final(EMPTY, actions).db.jobs
    ensures var j := Final(EMPTY, actions).db.jobs[id];
            && DecodesJob(j) && (j.claimToken.Some? <==> j.leaseUntil.Some?)
            && j.failures <= 3 && (j.Active() ==> j.failures <= 2)
  {
    InitOk();
    RunKeeps(EMPTY, actions);
    JobFacts(Final(EMPTY, actions).db, id);
  }

  /** Whatever ran before, an append that succeeds extends exactly what its holder last saw. */
  lemma NoLostUpdate(actions: seq<Action>, a: Action)
    requires Runs(EMPTY, actions)
    requires a.Append? && Enabled(Final(EMPTY, actions), a)
    ensures var w := Final(EMPTY, actions);
            var lease := w.leases[a.token];
            var r := AppendTurn(w.db, lease, a.workspace, a.inputs, a.now, a.turnId, a.ids, a.createdAt).2;
            r.Ok? ==>
              && lease.session in w.db.sessions && a.token in w.seen
              && w.db.sessions[lease.session].events == w.seen[a.token]
              && Step(w, a).db.sessions[lease.session].events == w.seen[a.token] + r.value
  {
    InitOk();
    RunKeeps(EMPTY, actions);
    AppendExtendsSeen(Final(EMPTY, actions), a);
  }

  // ----- exclusion

  /** The time at which a step reads the clock. */
  ghost function ClockOf(a: Action): Option<Time> {
    match a
    case Claim(_, _, now, _) => Some(now)
    case Renew(_, _, now) => Some(now)
    case ReplayAll(_, _, now) => Some(now)
    case Append(_, _, _, now, _, _, _) => Some(now)
    case AppendOne(_, _, now, _, _) => Some(now)
    case SetTitle(_, now) => Some(now)
    case Delete(_, now) => Some(now)
    case Queue(_, _, now, _) => Some(now)
    case ClaimJob(now, _) => Some(now)
    case RenewJob(_, now) => Some(now)
    case FailJob(_, _, _, now) => Some(now)
    case CompleteJob(_, _, now, _, _) => Some(now)
    case RecoverStale(now) => Some(now)
    case _ => None
  }

  /** The claim on a session is live at the time of a step. */
  ghost predicate LiveAt(w: World, session: Id, a: Action) {
    && session in w.db.sessions && w.db.sessions[session].claim.Some?
    && (ClockOf(a).Some? ==> Live(w.db.sessions[session].claim, ClockOf(a).value))
  }

  ghost predicate SessionSame(db: Db, db': Db, session: Id) {
    session in db.sessions && session in db'.sessions && db'.sessions[session].events == db.sessions[session].events
  }

  lemma DbStepExcluded(w: World, session: Id, a: Action)
    requires RefsOk(w.db) && Enabled(w, a) && !IsLeaseAction(a) && !a.ClaimJob? && LiveAt(w, session, a)
    ensures SessionSame(w.db, DbStep(w, a), session)
    ensures DbStep(w, a).sessions[session].claim == w.db.sessions[session].claim
  {
    match a
    case CompleteJob(token, text, now, uuid, createdAt) =>
      CompleteExcluded(w.db, w.workers[token], text, now, uuid, createdAt, session);
    case Queue(s, through, now, uuid) => QueueSessions(w.db, s, through, now, uuid);
    case RenewJob(token, now) => WorkerSessions(w.db, w.workers[token]);
    case FailJob(token, error, disposition, now) => WorkerSessions(w.db, w.workers[token]);
    case ReleaseJob(token) => WorkerSessions(w.db, w.workers[token]);
    case _ =>
  }

  lemma QueueSessions(db: Db, session: Id, through: int, now: Time, uuid: Id)
    ensures QueueCompaction(db, session, through, now, uuid).0.sessions == db.sessions
  {
  }

  lemma WorkerSessions(db: Db, wk: Worker)
    ensures forall now :: RenewCompaction(db, wk, now).0.sessions == db.sessions
    ensures forall error, disposition, now :: RecordFailure(db, wk, error, disposition, now).0.sessions == db.sessions
    ensures ReleaseCompaction(db, wk).0.sessions == db.sessions
  {
  }

  /** Completion gives way to a live claim. */
  lemma CompleteExcluded(db: Db, wk: Worker, text: Bytes, now: Time, uuid: Id, createdAt: Bytes, session: Id)
    requires 0 <= wk.through && session in db.sessions && Live(db.sessions[session].claim, now)
    ensures CompleteCompaction(db, wk, text, now, uuid, createdAt).0.sessions.Keys >= {session}
    ensures CompleteCompaction(db, wk, text, now, uuid, createdAt).0.sessions[session] == db.sessions[session]
  {
  }

  /** While a claim is live, only an append by the holder of the stored token changes the session's
      events, and nothing deletes the session. */
  lemma LiveClaimExcludes(w: World, session: Id, a: Action)
    requires WorldOk(w) && Enabled(w, a) && LiveAt(w, session, a)
    ensures session in Step(w, a).db.sessions
    ensures Step(w, a).db.sessions[session].events != w.db.sessions[session].events ==>
              a.Append? && a.token == w.db.sessions[session].claim.value.token
  {
    if IsLeaseAction(a) {
      LeaseStepExcluded(w, session, a);
    } else if a.ClaimJob? {
      RecoverRows(w.db.jobs, a.now, MAX_STALE_JOB_RECOVERIES);
    } else {
      DbStepExcluded(w, session, a);
    }
  }

  lemma LeaseStepExcluded(w: World, session: Id, a: Action)
    requires LeasesOk(w) && Enabled(w, a) && IsLeaseAction(a) && LiveAt(w, session, a)
    ensures session in LeaseStep(w, a).db.sessions
    ensures LeaseStep(w, a).db.sessions[session].events != w.db.sessions[session].events ==>
              a.Append? && a.token == w.db.sessions[session].claim.value.token
  {
  }

  // ----- tokens are never revived

  /** The database no longer stores a lease's token. */
  ghost predicate Retired(w: World, t: Id) {
    t in w.leases && !HoldsToken(w.db, w.leases[t].session, t)
  }

  lemma StepKeepsRetired(w: World, a: Action, t: Id)
    requires WorldOk(w) && Enabled(w, a) && Retired(w, t)
    ensures Retired(Step(w, a), t)
  {
    StepEvolves(w, a);
    StepLeases(w, a);
    ClaimGrants(w, a);
  }

  lemma {:induction false} RunKeepsRetired(w: World, actions: seq<Action>, t: Id)
    requires WorldOk(w) && Runs(w, actions) && Retired(w, t)
    ensures Retired(Final(w, actions), t)
    decreases |actions|
  {
    if actions != [] {
      StepKeeps(w, actions[0]);
      StepKeepsRetired(w, actions[0], t);
      RunKeepsRetired(Step(w, actions[0]), actions[1..], t);
    }
  }

  /** A token that was replaced or cleared never again passes validation, renewal or release, and so
      neither replays nor appends, however the run continues. */
  lemma RetiredTokenIsRefused(w: World, actions: seq<Action>, t: Id, workspace: int, now: Time)
    requires WorldOk(w) && Runs(w, actions) && Retired(w, t)
    ensures var w' := Final(w, actions);
            && t in w'.leases
            && var lease := w'.leases[t];
               && ValidateSessionLease(w'.db, lease, now).Err?
               && RenewSession(w'.db, lease, workspace, now).2.Err?
               && (!lease.released ==> ReleaseSession(w'.db, lease).2.Err?)
               && ReleaseSession(w'.db, lease).0 == w'.db
               && ReplaySession(w'.db, lease, workspace, now).1.Err?
               && forall inputs, turnId, ids, createdAt :: |ids| == |inputs| ==>
                    AppendTurn(w'.db, lease, workspace, inputs, now, turnId, ids, createdAt).2.Err?
  {
    RunKeeps(w, actions);
    RunKeepsRetired(w, actions, t);
    assert LeasesOk(Final(w, actions));
  }
}
