/**
 * Pacing of a task's claims: they are at least a second apart, and so bound how
 * often workers can decide to poll an accepted provider task.
 */
module Polling {
  import opened Prelude
  import opened ImageTasks
  import Ledger
  import Submission

  // What happened to one task so far: its claims with the first and the last
  // time, the worker runs that started and those that decided to poll.
  datatype Log = Log(claims: nat, first: int, last: int, starts: nat, decisions: nat)

  const NOTHING := Log(0, 0, 0, 0, 0)

  predicate Claims(w: World, e: Event, j: nat) {
    j < |w.jobs| && e == Dispatch(j) && Claimable(w.jobs[j], w.now)
  }

  predicate Starts(w: World, e: Event, j: nat) {
    j < |w.jobs| && e == Start(j) && !w.jobs[j].task.Closed?
  }

  predicate Decides(w: World, e: Event, j: nat) {
    && e.ReadStage? && e.worker < |w.workers| && w.workers[e.worker].job == j && j < |w.jobs|
    && w.workers[e.worker].phase.StatusRead? && ReadStagePhase(w, e.worker).phase.Resuming?
  }

  function Note(w: World, e: Event, j: nat, log: Log): Log {
    if Claims(w, e, j) then
      log.(claims := log.claims + 1, first := if log.claims == 0 then w.now else log.first, last := w.now)
    else if Starts(w, e, j) then log.(starts := log.starts + 1)
    else if Decides(w, e, j) then log.(decisions := log.decisions + 1)
    else log
  }

  function Track(w: World, events: seq<Event>, j: nat): Log {
    if events == [] then NOTHING
    else
      var n := |events| - 1;
      Note(Run(w, events[..n]), events[n], j, Track(w, events[..n], j))
  }

  /** Every worker run of the task follows a claim of its own. */
  ghost predicate Paced(w: World, events: seq<Event>, j: nat) {
    forall k :: 0 <= k <= |events| ==> Track(w, events[..k], j).starts <= Track(w, events[..k], j).claims
  }

  // ---------------------------------------------------------------- counts

  // A worker that has not yet looked at the stage of its generation.
  predicate Undecided(worker: Worker, j: nat) {
    worker.job == j && (worker.phase.Started? || worker.phase.StatusRead?)
  }

  function UndecidedCount(workers: seq<Worker>, j: nat): nat {
    if workers == [] then 0
    else UndecidedCount(workers[..|workers| - 1], j) + if Undecided(workers[|workers| - 1], j) then 1 else 0
  }

  lemma {:induction false} UndecidedUpdate(workers: seq<Worker>, v: nat, worker: Worker, j: nat)
    requires v < |workers|
    ensures UndecidedCount(workers[v := worker], j)
            == UndecidedCount(workers, j) - (if Undecided(workers[v], j) then 1 else 0) + (if Undecided(worker, j) then 1 else 0)
  {
    var n := |workers| - 1;
    if v < n {
      UndecidedUpdate(workers[..n], v, worker, j);
      assert workers[v := worker][..n] == workers[..n][v := worker];
    } else {
      assert workers[v := worker][..n] == workers[..n];
    }
  }

  // -------------------------------------------------------------- invariant

  // The next claim of a claimed task is at least a second after the last one.
  predicate Spaced(job: Job, last: int) {
    job.task.Running? ==>
      && (job.token.Some? ==> job.claimExpires > last)
      && (job.token.None? ==> job.due.Some?)
      && (job.due.Some? ==> job.due.value > last)
  }

  predicate Unclaimed(job: Job) {
    (job.task.Queued? || job.task.Closed?) && job.token.None? && job.due.None?
  }

  predicate ClaimsTimely(w: World, j: nat, log: Log) {
    if j >= |w.jobs| then log == NOTHING
    else if log.claims == 0 then log.starts == 0 && Unclaimed(w.jobs[j])
    else
      && log.first <= log.last <= w.now && log.claims - 1 <= log.last - log.first
      && !w.jobs[j].task.Queued? && Spaced(w.jobs[j], log.last)
  }

  predicate DecisionsTimely(w: World, j: nat, log: Log) {
    && log.decisions + UndecidedCount(w.workers, j) <= log.starts
    && (log.decisions > 0 ==>
          j < |w.jobs| && w.jobs[j].stage.Polling? && log.decisions <= w.jobs[j].stage.startedAt + POLLING_LIMIT - log.first)
  }

  // What an event other than a claim or a start may do to the claim of a row.
  predicate ClaimKept(before: Job, after: Job, now: int) {
    || (after.task.Closed? && after.token.None? && after.due.None?)
    || (after.task == before.task && after.token == before.token && after.due == before.due
        && (after.claimExpires == before.claimExpires || (before.token.Some? && after.claimExpires == now + CLAIM_TTL)))
    || (before.token.Some? && after.token.None? && after.due.Some? && (after.due == before.due || after.due.value > now)
        && (after.task == before.task || (after.task.Running? && !before.task.Closed?)))
    || (before.task.Closed? && before.token.Some? && after.task == before.task)
  }

  lemma KeptSpaced(before: Job, after: Job, now: int, last: int)
    requires ClaimKept(before, after, now) && last <= now
    ensures !before.task.Queued? && Spaced(before, last) ==> !after.task.Queued? && Spaced(after, last)
    ensures Unclaimed(before) ==> Unclaimed(after)
  {
  }

  predicate ClaimEvent(e: Event) {
    e.Persist? || e.Release? || e.Heartbeat? || e.Complete? || e.CloseTask? || e.Reconcile?
  }

  lemma QuietWorkerEvent(w: World, v: nat, e: Event)
    requires v < |w.workers| && w.workers[v].job < |w.jobs| && OfWorker(e) && !ClaimEvent(e)
    ensures var before, next := w.jobs[w.workers[v].job], WorkerNext(w, v, e);
      && |next.jobs| == |w.jobs|
      && var after := next.jobs[w.workers[v].job];
         after.task == before.task && after.token == before.token && after.due == before.due
         && after.claimExpires == before.claimExpires
  {
    if e.FailGeneration? && w.workers[v].phase.Failing? {
      FailureKeepsClaim(w, v, w.workers[v].phase.cause, e.env);
    }
  }

  lemma FailureKeepsClaim(w: World, v: nat, cause: Cause, env: Ledger.Env)
    requires v < |w.workers| && w.workers[v].job < |w.jobs|
    ensures var before, next := w.jobs[w.workers[v].job], FailGenerationNext(w, v, cause, env);
      && |next.jobs| == |w.jobs| && |next.workers| == |w.workers|
      && (next.workers[v].phase.Done? || next.workers[v].phase.Closing?)
      && var after := next.jobs[w.workers[v].job];
         after.task == before.task && after.token == before.token && after.due == before.due
         && after.claimExpires == before.claimExpires
  {
  }

  lemma WorkerKeepsClaim(w: World, v: nat, e: Event)
    requires Submission.Safe(w) && v < |w.workers| && w.workers[v].job < |w.jobs| && OfWorker(e)
    ensures var j := w.workers[v].job; var next := WorkerNext(w, v, e);
      |next.jobs| == |w.jobs| && ClaimKept(w.jobs[j], next.jobs[j], w.now)
  {
    if !ClaimEvent(e) {
      QuietWorkerEvent(w, v, e);
    }
  }

  /** No event but a claim or a start touches the claim of a row otherwise. */
  lemma NextKeepsClaim(w: World, e: Event, j: nat)
    requires Submission.Safe(w) && j < |w.jobs| && !Claims(w, e, j) && !Starts(w, e, j)
    ensures j < |Next(w, e).jobs| && ClaimKept(w.jobs[j], Next(w, e).jobs[j], w.now)
  {
    Submission.NextSafe(w, e);
    if OfWorker(e) {
      if e.worker < |w.workers| {
        assert Submission.Moves(w, Next(w, e), e.worker);
        WorkerKeepsClaim(w, e.worker, e);
      }
    } else {
      OutsideKeepsClaim(w, e, j);
    }
  }

  lemma OutsideKeepsClaim(w: World, e: Event, j: nat)
    requires j < |w.jobs| && !OfWorker(e) && !Claims(w, e, j) && !Starts(w, e, j)
    ensures j < |Next(w, e).jobs| && ClaimKept(w.jobs[j], Next(w, e).jobs[j], w.now)
  {
    if e.Create? {
      CreateKeepsRow(w, e.request, e.env, j);
    } else if e.ExpireJob? && e.job < |w.jobs| {
      ExpireKeepsClaim(w, e.job, e.cutoff, e.env, j);
    }
  }

  lemma CreateKeepsRow(w: World, r: Request, env: Ledger.Env, j: nat)
    requires j < |w.jobs|
    ensures CreateTask(w, r, env).Ok? ==>
      j < |CreateTask(w, r, env).value.0.jobs| && CreateTask(w, r, env).value.0.jobs[j] == w.jobs[j]
  {
  }

  lemma ExpireKeepsClaim(w: World, i: nat, cutoff: int, env: Ledger.Env, j: nat)
    requires i < |w.jobs| && j < |w.jobs|
    ensures j < |ExpireJobNext(w, i, cutoff, env).jobs|
    ensures ClaimKept(w.jobs[j], ExpireJobNext(w, i, cutoff, env).jobs[j], w.now)
  {
  }

  lemma CreatedUnclaimed(w: World, r: Request, env: Ledger.Env, j: nat)
    requires j >= |w.jobs|
    ensures CreateTask(w, r, env).Ok? && j < |CreateTask(w, r, env).value.0.jobs|
            ==> Unclaimed(CreateTask(w, r, env).value.0.jobs[j])
  {
  }

  lemma NewRowUnclaimed(w: World, e: Event, j: nat)
    requires Submission.Safe(w) && j >= |w.jobs|
    ensures j < |Next(w, e).jobs| ==> Unclaimed(Next(w, e).jobs[j])
  {
    if e.Create? {
      CreatedUnclaimed(w, e.request, e.env, j);
    } else {
      SameRows(w, e);
    }
  }

  lemma SameRows(w: World, e: Event)
    requires Submission.Safe(w) && !e.Create?
    ensures |Next(w, e).jobs| == |w.jobs|
  {
    if OfWorker(e) {
      Submission.NextSafe(w, e);
    }
  }

  lemma NextClock(w: World, e: Event)
    ensures w.now <= Next(w, e).now
  {
    if OfWorker(e) && e.worker < |w.workers| && w.workers[e.worker].job < |w.jobs| {
      WorkerClock(w, e.worker, e);
    }
  }

  lemma WorkerClock(w: World, v: nat, e: Event)
    requires v < |w.workers| && w.workers[v].job < |w.jobs|
    ensures WorkerNext(w, v, e).now == w.now
  {
  }

  lemma ClaimTimely(w: World, j: nat, log: Log)
    requires ClaimsTimely(w, j, log) && Claims(w, Dispatch(j), j)
    ensures log.claims > 0 ==> w.now > log.last
    ensures ClaimsTimely(Next(w, Dispatch(j)), j, Note(w, Dispatch(j), j, log))
  {
  }

  lemma StartTimely(w: World, j: nat, log: Log)
    requires ClaimsTimely(w, j, log) && Starts(w, Start(j), j)
    requires log.starts + 1 <= log.claims
    ensures ClaimsTimely(Next(w, Start(j)), j, Note(w, Start(j), j, log))
  {
  }

  lemma NextClaimsTimely(w: World, e: Event, j: nat, log: Log)
    requires Submission.Safe(w) && ClaimsTimely(w, j, log)
    requires Note(w, e, j, log).starts <= Note(w, e, j, log).claims
    ensures ClaimsTimely(Next(w, e), j, Note(w, e, j, log))
  {
    if j >= |w.jobs| {
      NewRowUnclaimed(w, e, j);
    } else if Claims(w, e, j) {
      ClaimTimely(w, j, log);
    } else if Starts(w, e, j) {
      StartTimely(w, j, log);
    } else {
      NextClock(w, e);
      NextKeepsClaim(w, e, j);
      KeptSpaced(w.jobs[j], Next(w, e).jobs[j], w.now, Min(log.last, w.now));
    }
  }

  // -------------------------------------------------------------- decisions

  predicate Early(phase: Phase) {
    phase.Started? || phase.StatusRead?
  }

  predicate SendingEvent(e: Event) {
    e.Fence? || e.FenceOpaque? || e.Answer? || e.Persist?
  }

  lemma SendingNotEarly(w: World, v: nat, e: Event)
    requires v < |w.workers| && w.workers[v].job < |w.jobs| && SendingEvent(e)
    ensures |WorkerNext(w, v, e).workers| == |w.workers|
    ensures Early(WorkerNext(w, v, e).workers[v].phase) ==> Early(w.workers[v].phase)
  {
  }

  lemma SettlingNotEarly(w: World, v: nat, e: Event)
    requires v < |w.workers| && w.workers[v].job < |w.jobs| && Submission.Settles(e)
    ensures |WorkerNext(w, v, e).workers| == |w.workers|
    ensures Early(WorkerNext(w, v, e).workers[v].phase) ==> Early(w.workers[v].phase)
  {
    if e.FailGeneration? && w.workers[v].phase.Failing? {
      FailureKeepsClaim(w, v, w.workers[v].phase.cause, e.env);
    }
  }

  lemma OthersNotEarly(w: World, v: nat, e: Event)
    requires v < |w.workers| && w.workers[v].job < |w.jobs| && OfWorker(e) && !Submission.Settles(e) && !SendingEvent(e)
    ensures |WorkerNext(w, v, e).workers| == |w.workers|
    ensures Early(WorkerNext(w, v, e).workers[v].phase) ==> Early(w.workers[v].phase)
    ensures e.ReadStage? && w.workers[v].phase.StatusRead? ==> !Early(WorkerNext(w, v, e).workers[v].phase)
  {
  }

  lemma NeverEarlyAgain(w: World, v: nat, e: Event)
    requires v < |w.workers| && w.workers[v].job < |w.jobs| && OfWorker(e)
    ensures |WorkerNext(w, v, e).workers| == |w.workers|
    ensures Early(WorkerNext(w, v, e).workers[v].phase) ==> Early(w.workers[v].phase)
    ensures e.ReadStage? && w.workers[v].phase.StatusRead? ==> !Early(WorkerNext(w, v, e).workers[v].phase)
  {
    if SendingEvent(e) {
      SendingNotEarly(w, v, e);
    } else if Submission.Settles(e) {
      SettlingNotEarly(w, v, e);
    } else {
      OthersNotEarly(w, v, e);
    }
  }

  lemma MovesUndecided(w: World, next: World, v: nat, j: nat)
    requires Submission.Moves(w, next, v) && (Early(next.workers[v].phase) ==> Early(w.workers[v].phase))
    ensures UndecidedCount(next.workers, j) <= UndecidedCount(w.workers, j)
    ensures w.workers[v].job == j && Early(w.workers[v].phase) && !Early(next.workers[v].phase)
            ==> UndecidedCount(next.workers, j) + 1 == UndecidedCount(w.workers, j)
  {
    UndecidedUpdate(w.workers, v, next.workers[v], j);
  }

  lemma StartUndecided(w: World, i: nat, j: nat)
    requires i < |w.jobs|
    ensures UndecidedCount(StartNext(w, i).workers, j)
            <= UndecidedCount(w.workers, j) + if i == j && !w.jobs[j].task.Closed? then 1 else 0
  {
    var next := StartNext(w, i);
    if next.workers != w.workers {
      assert next.workers[..|w.workers|] == w.workers;
    }
  }

  lemma OutsideUndecided(w: World, e: Event, j: nat)
    requires !OfWorker(e)
    ensures UndecidedCount(Next(w, e).workers, j) <= UndecidedCount(w.workers, j) + if Starts(w, e, j) then 1 else 0
  {
    if e.Start? && e.job < |w.jobs| {
      StartUndecided(w, e.job, j);
    } else {
      assert Next(w, e).workers == w.workers;
    }
  }

  /** Deciding a poll uses up a worker; nothing but a start adds one. */
  lemma NextUndecided(w: World, e: Event, j: nat)
    requires Submission.Safe(w)
    ensures UndecidedCount(Next(w, e).workers, j) + (if Decides(w, e, j) then 1 else 0)
            <= UndecidedCount(w.workers, j) + (if Starts(w, e, j) then 1 else 0)
  {
    if !OfWorker(e) {
      OutsideUndecided(w, e, j);
    } else if e.worker < |w.workers| {
      Submission.NextSafe(w, e);
      NeverEarlyAgain(w, e.worker, e);
      MovesUndecided(w, Next(w, e), e.worker, j);
    }
  }

  lemma NextDecisions(w: World, e: Event, j: nat, log: Log)
    requires Submission.Safe(w) && ClaimsTimely(w, j, log) && DecisionsTimely(w, j, log)
    requires Note(w, e, j, log).starts <= Note(w, e, j, log).claims && log.starts <= log.claims
    ensures DecisionsTimely(Next(w, e), j, Note(w, e, j, log))
  {
    NextUndecided(w, e, j);
    if j < |w.jobs| {
      Submission.NextProgress(w, e, j);
    }
    if Decides(w, e, j) {
      DecisionWithinLimit(w, e, j);
      SomeUndecided(w.workers, e.worker, j);
    } else if Claims(w, e, j) && log.claims == 0 {
      assert log.decisions == 0;
    }
  }

  lemma {:induction false} SomeUndecided(workers: seq<Worker>, v: nat, j: nat)
    requires v < |workers| && Undecided(workers[v], j)
    ensures UndecidedCount(workers, j) >= 1
  {
    if v < |workers| - 1 {
      SomeUndecided(workers[..|workers| - 1], v, j);
    }
  }

  lemma DecisionWithinLimit(w: World, e: Event, j: nat)
    requires Decides(w, e, j)
    ensures w.jobs[j].stage.Polling? && w.now < w.jobs[j].stage.startedAt + POLLING_LIMIT
    ensures Next(w, e).jobs == w.jobs
  {
  }

  lemma {:induction false} RunTimely(w: World, events: seq<Event>, j: nat)
    requires Initial(w) && Paced(w, events, j)
    ensures var log := Track(w, events, j);
      ClaimsTimely(Run(w, events), j, log) && DecisionsTimely(Run(w, events), j, log) && log.starts <= log.claims
  {
    assert events[..|events|] == events;
    if events != [] {
      var n := |events| - 1;
      forall k | 0 <= k <= n ensures Track(w, events[..n][..k], j).starts <= Track(w, events[..n][..k], j).claims {
        assert events[..n][..k] == events[..k];
      }
      RunTimely(w, events[..n], j);
      Submission.RunSafe(w, events[..n]);
      NextClaimsTimely(Run(w, events[..n]), events[n], j, Track(w, events[..n], j));
      NextDecisions(Run(w, events[..n]), events[n], j, Track(w, events[..n], j));
    }
  }

  /**
   * In every paced run the claims of a task are at least a second apart, so there
   * are at most as many as seconds passed since the first.
   */
  lemma ClaimsSpaced(w: World, events: seq<Event>, e: Event, j: nat)
    requires Initial(w) && Paced(w, events, j)
    ensures var log, now := Track(w, events, j), Run(w, events);
      && (log.claims > 0 ==> log.claims <= now.now - log.first + 1)
      && (log.claims > 0 && Claims(now, e, j) ==> now.now >= log.last + 1)
  {
    RunTimely(w, events, j);
    if Claims(Run(w, events), e, j) {
      ClaimTimely(Run(w, events), j, Track(w, events, j));
    }
  }

  /**
   * In every paced run, however late its workers start, the decisions to poll are
   * bounded by the polling limit and the time the submission had to wait, and none
   * is made once the limit has passed.
   */
  lemma DecisionsBounded(w: World, events: seq<Event>, e: Event, j: nat)
    requires Initial(w) && Paced(w, events, j)
    ensures var log, now := Track(w, events, j), Run(w, events);
      && (log.decisions > 0 ==>
            && j < |now.jobs| && now.jobs[j].stage.Polling?
            && log.decisions <= (now.jobs[j].stage.startedAt - log.first) + POLLING_LIMIT)
      && (Decides(now, e, j) ==> now.now < now.jobs[j].stage.startedAt + POLLING_LIMIT)
  {
    RunTimely(w, events, j);
    if Decides(Run(w, events), e, j) {
      DecisionWithinLimit(Run(w, events), e, j);
    }
  }
}
