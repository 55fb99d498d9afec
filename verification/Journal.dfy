/** What a session's log holds after any run: exactly what was written to it, in order. */
module Journal {
  import opened Records
  import opened Turns
  import opened Transcript
  import opened Store
  import opened Ledger
  import opened Integrity
  import opened Replays
  import opened Protocol
  import opened Safety
  import opened Effects

  /** What was said in each event. */
  ghost function Contents(events: seq<Event>): seq<EventInput> {
    seq(|events|, i requires 0 <= i < |events| => EventInput(events[i].kind, events[i].text, events[i].meta))
  }

  lemma ContentsAppend(events: seq<Event>, rows: seq<Event>, inputs: seq<EventInput>)
    requires Carries(rows, inputs)
    ensures Contents(events + rows) == Contents(events) + inputs
  {
  }

  /** What a step writes to a session: the inputs of an append that succeeds, or the summary of a completion
      that does. */
  ghost function StepWrites(w: World, a: Action, session: Id): seq<EventInput>
    requires Enabled(w, a)
  {
    match a
    case Append(token, workspace, inputs, now, turnId, ids, createdAt) =>
      var r := AppendTurn(w.db, w.leases[token], workspace, inputs, now, turnId, ids, createdAt).2;
      if r.Ok? && w.leases[token].session == session then inputs else []
    case AppendOne(s, input, now, uuid, createdAt) =>
      if AppendEvent(w.db, s, input, now, uuid, createdAt).1.Ok? && s == session then [input] else []
    case CompleteJob(token, text, now, uuid, createdAt) =>
      var wk := w.workers[token];
      if CompleteCompaction(w.db, wk, text, now, uuid, createdAt).1.Ok? && wk.job in w.db.jobs
         && w.db.jobs[wk.job].session == session
      then [EventInput(Summary, text, Some(SummaryMeta(wk.job, wk.through, wk.source)))] else []
    case _ => []
  }

  ghost function Written(w: World, actions: seq<Action>, session: Id): seq<EventInput>
    requires Runs(w, actions)
    decreases |actions|
  {
    if actions == [] then []
    else StepWrites(w, actions[0], session) + Written(Step(w, actions[0]), actions[1..], session)
  }

  /** What a session's log holds, nothing if there is no such session. */
  ghost function Log(db: Db, session: Id): seq<EventInput> {
    if session in db.sessions then Contents(db.sessions[session].events) else []
  }

  lemma AppendLogs(w: World, a: Action, session: Id)
    requires WorldOk(w) && Enabled(w, a) && a.Append? && session in w.db.sessions
    ensures session in Step(w, a).db.sessions
    ensures Log(Step(w, a).db, session) == Log(w.db, session) + StepWrites(w, a, session)
  {
    var lease := w.leases[a.token];
    AppendTurnEffect(w.db, lease, a.workspace, a.inputs, a.now, a.turnId, a.ids, a.createdAt);
    var r := AppendTurn(w.db, lease, a.workspace, a.inputs, a.now, a.turnId, a.ids, a.createdAt).2;
    if r.Ok? && lease.session == session {
      ContentsAppend(w.db.sessions[session].events, r.value, a.inputs);
    }
  }

  lemma AppendOneLogs(w: World, a: Action, session: Id)
    requires WorldOk(w) && Enabled(w, a) && a.AppendOne? && session in w.db.sessions
    ensures session in Step(w, a).db.sessions
    ensures Log(Step(w, a).db, session) == Log(w.db, session) + StepWrites(w, a, session)
  {
    AppendEventEffect(w.db, a.session, a.input, a.now, a.uuid, a.createdAt);
    var r := AppendEvent(w.db, a.session, a.input, a.now, a.uuid, a.createdAt).1;
    if r.Ok? && a.session == session {
      ContentsAppend(w.db.sessions[session].events, [r.value], [a.input]);
    }
  }

  lemma CompleteLogs(w: World, a: Action, session: Id)
    requires WorldOk(w) && Enabled(w, a) && a.CompleteJob? && session in w.db.sessions
    ensures session in Step(w, a).db.sessions
    ensures Log(Step(w, a).db, session) == Log(w.db, session) + StepWrites(w, a, session)
  {
    var wk := w.workers[a.token];
    CompleteEffect(w, a.token, a.text, a.now, a.uuid, a.createdAt);
    var r := CompleteCompaction(w.db, wk, a.text, a.now, a.uuid, a.createdAt).1;
    if r.Ok? && w.db.jobs[wk.job].session == session {
      ContentsAppend(w.db.sessions[session].events, [r.value],
                     [EventInput(Summary, a.text, Some(SummaryMeta(wk.job, wk.through, wk.source)))]);
    }
  }

  /** Every other step leaves the events of every session that survives it. */
  lemma OtherStepsLogNothing(w: World, a: Action, session: Id)
    requires WorldOk(w) && Enabled(w, a) && !a.Append? && !a.AppendOne? && !a.CompleteJob?
    requires session in w.db.sessions && session in Step(w, a).db.sessions
    ensures Step(w, a).db.sessions[session].events == w.db.sessions[session].events
  {
    if a.ClaimJob? {
      ClaimJobSessions(w.db, a.now, a.uuid);
    } else if IsLeaseAction(a) {
      LeaseStepLogsNothing(w, a, session);
    } else {
      DbStepLogsNothing(w, a, session);
    }
  }

  lemma ClaimJobSessions(db: Db, now: Time, uuid: Id)
    ensures ClaimCompaction(db, now, uuid).0.sessions == db.sessions
  {
  }

  lemma LeaseStepLogsNothing(w: World, a: Action, session: Id)
    requires Enabled(w, a) && IsLeaseAction(a) && !a.Append? && session in w.db.sessions
    ensures session in LeaseStep(w, a).db.sessions
    ensures LeaseStep(w, a).db.sessions[session].events == w.db.sessions[session].events
  {
  }

  lemma DbStepLogsNothing(w: World, a: Action, session: Id)
    requires WorldOk(w) && Enabled(w, a) && !IsLeaseAction(a) && !a.ClaimJob? && !a.AppendOne? && !a.CompleteJob?
    requires session in w.db.sessions && session in DbStep(w, a).sessions
    ensures DbStep(w, a).sessions[session].events == w.db.sessions[session].events
  {
    match a
    case Queue(s, through, now, uuid) => QueueSessions(w.db, s, through, now, uuid);
    case RenewJob(token, now) => WorkerSessions(w.db, w.workers[token]);
    case FailJob(token, error, disposition, now) => WorkerSessions(w.db, w.workers[token]);
    case ReleaseJob(token) => WorkerSessions(w.db, w.workers[token]);
    case Delete(s, now) => DeleteEffect(w.db, s, now);
    case _ =>
  }

  /** A step adds what it writes to the log of a session that exists after it. */
  lemma StepLogs(w: World, a: Action, session: Id)
    requires WorldOk(w) && Enabled(w, a) && session in Step(w, a).db.sessions
    ensures Log(Step(w, a).db, session) == Log(w.db, session) + StepWrites(w, a, session)
  {
    if session !in w.db.sessions {
      NewSessionIsEmpty(w, a, session);
    } else if a.Append? {
      AppendLogs(w, a, session);
    } else if a.AppendOne? {
      AppendOneLogs(w, a, session);
    } else if a.CompleteJob? {
      CompleteLogs(w, a, session);
    } else {
      OtherStepsLogNothing(w, a, session);
    }
  }

  lemma NewSessionIsEmpty(w: World, a: Action, session: Id)
    requires WorldOk(w) && Enabled(w, a) && session in Step(w, a).db.sessions && session !in w.db.sessions
    ensures Log(Step(w, a).db, session) == [] && StepWrites(w, a, session) == []
  {
    if !a.Start? {
      NoOtherStepCreates(w, a, session);
    }
  }

  lemma NoOtherStepCreates(w: World, a: Action, session: Id)
    requires WorldOk(w) && Enabled(w, a) && !a.Start? && session !in w.db.sessions
    ensures session !in Step(w, a).db.sessions
  {
    if a.ClaimJob? {
      ClaimJobSessions(w.db, a.now, a.uuid);
    } else if IsLeaseAction(a) {
      NoLeaseStepCreates(w, a, session);
    } else {
      NoDbStepCreates(w, a, session);
    }
  }

  lemma NoLeaseStepCreates(w: World, a: Action, session: Id)
    requires Enabled(w, a) && IsLeaseAction(a) && session !in w.db.sessions
    ensures session !in LeaseStep(w, a).db.sessions
  {
  }

  lemma NoDbStepCreates(w: World, a: Action, session: Id)
    requires WorldOk(w) && Enabled(w, a) && !IsLeaseAction(a) && !a.ClaimJob? && !a.Start? && session !in w.db.sessions
    ensures session !in DbStep(w, a).sessions
  {
    match a
    case CompleteJob(token, text, now, uuid, createdAt) => CompleteEffect(w, token, text, now, uuid, createdAt);
    case Queue(s, through, now, uuid) => QueueSessions(w.db, s, through, now, uuid);
    case RenewJob(token, now) => WorkerSessions(w.db, w.workers[token]);
    case FailJob(token, error, disposition, now) => WorkerSessions(w.db, w.workers[token]);
    case ReleaseJob(token) => WorkerSessions(w.db, w.workers[token]);
    case Delete(s, now) => DeleteEffect(w.db, s, now);
    case _ =>
  }

  /** A session that is gone stays gone: its identifier is never used again. */
  lemma {:induction false} DeletedForGood(w: World, actions: seq<Action>, session: Id)
    requires WorldOk(w) && Runs(w, actions) && session in w.db.used && session !in w.db.sessions
    ensures session !in Final(w, actions).db.sessions
    decreases |actions|
  {
    if actions != [] {
      StepKeeps(w, actions[0]);
      StepEvolves(w, actions[0]);
      DeletedForGood(Step(w, actions[0]), actions[1..], session);
    }
  }

  lemma {:induction false} RunLogs(w: World, actions: seq<Action>, session: Id)
    requires WorldOk(w) && Runs(w, actions) && session in Final(w, actions).db.sessions
    ensures Log(Final(w, actions).db, session) == Log(w.db, session) + Written(w, actions, session)
    decreases |actions|
  {
    if actions != [] {
      StepKeeps(w, actions[0]);
      RunLogs(Step(w, actions[0]), actions[1..], session);
      StaysWhileNeeded(w, actions, session);
      StepAddsToLog(w, actions[0], session);
      LogGrows(Log(w.db, session), StepWrites(w, actions[0], session),
               Written(Step(w, actions[0]), actions[1..], session));
    }
  }

  /** A session that is there in the end is not deleted by the first step. */
  lemma StaysWhileNeeded(w: World, actions: seq<Action>, session: Id)
    requires WorldOk(w) && Runs(w, actions) && actions != [] && session in Final(w, actions).db.sessions
    ensures session in w.db.sessions ==> session in Step(w, actions[0]).db.sessions
  {
    StepKeeps(w, actions[0]);
    if session in w.db.sessions && session !in Step(w, actions[0]).db.sessions {
      UsedStays(w, actions[0], session);
      DeletedForGood(Step(w, actions[0]), actions[1..], session);
    }
  }

  lemma LogGrows<T>(log: seq<T>, written: seq<T>, more: seq<T>)
    ensures log + written + more == log + (written + more)
  {
  }

  lemma UsedStays(w: World, a: Action, session: Id)
    requires WorldOk(w) && Enabled(w, a) && session in w.db.sessions
    ensures session in Step(w, a).db.used
  {
    StepEvolves(w, a);
  }

  lemma StepAddsToLog(w: World, a: Action, session: Id)
    requires WorldOk(w) && Enabled(w, a) && (session in w.db.sessions ==> session in Step(w, a).db.sessions)
    ensures Log(Step(w, a).db, session) == Log(w.db, session) + StepWrites(w, a, session)
  {
    if session in Step(w, a).db.sessions {
      StepLogs(w, a, session);
    } else {
      NothingWrittenYet(w, a, session);
    }
  }

  lemma NothingWrittenYet(w: World, a: Action, session: Id)
    requires WorldOk(w) && Enabled(w, a) && session !in w.db.sessions
    ensures StepWrites(w, a, session) == []
  {
    if a.CompleteJob? { CompleteEffect(w, a.token, a.text, a.now, a.uuid, a.createdAt); }
  }

  /** In every run a session's events are, in order and with kind, text and meaning, exactly the inputs of the
      appends to it that succeeded and the summaries of the completions that did. */
  lemma LogIsWhatWasWritten(actions: seq<Action>, session: Id)
    requires Runs(EMPTY, actions) && session in Final(EMPTY, actions).db.sessions
    ensures Contents(Final(EMPTY, actions).db.sessions[session].events) == Written(EMPTY, actions, session)
  {
    InitOk();
    RunLogs(EMPTY, actions, session);
  }
}
