/**
 * Spacing of polls: if every worker run on an accepted provider task starts on
 * time, consecutive polls are at least a second apart and fewer than the polling
 * limit in seconds, and so are the queries sent under a live claim.
 */
module PollSpacing {
  import opened Prelude
  import opened ImageTasks
  import Ledger
  import Submission
  import Polling

  // A poll: a worker in its own live claim reserves capacity for the query.
  predicate Polls(w: World, e: Event, j: nat) {
    && e.Reserve? && e.worker < |w.workers| && w.workers[e.worker].job == j && j < |w.jobs|
    && w.workers[e.worker].phase.Resuming? && ReservePhase(w, e.worker, e.room).Querying?
  }

  // A query that reaches the provider while its sender's claim is still live.
  predicate Queries(w: World, e: Event, j: nat) {
    && e.Query? && e.worker < |w.workers| && w.workers[e.worker].job == j && j < |w.jobs|
    && w.workers[e.worker].phase.Querying? && HoldsLiveClaim(w, e.worker, j)
  }

  // How many polls and queries a task had, when the last query was sent and when
  // the last of either was.
  datatype PollLog = PollLog(polls: nat, queries: nat, asked: int, last: int)

  const QUIET := PollLog(0, 0, 0, 0)

  function Note(w: World, e: Event, j: nat, log: PollLog): PollLog {
    if Polls(w, e, j) then log.(polls := log.polls + 1, last := w.now)
    else if Queries(w, e, j) then log.(queries := log.queries + 1, asked := w.now, last := w.now)
    else log
  }

  /** The log after a run that began with `log`. */
  function Track(w: World, events: seq<Event>, j: nat, log: PollLog): PollLog {
    if events == [] then log
    else
      var n := |events| - 1;
      Note(Run(w, events[..n]), events[n], j, Track(w, events[..n], j, log))
  }

  // ---------------------------------------------------------------- starts

  // A row on which a worker that starts now will poll.
  predicate Pollable(job: Job, now: int) {
    && job.task.Running? && job.status.Pending?
    && job.stage.Polling? && job.stage.providerId != "" && now < job.stage.startedAt + POLLING_LIMIT
  }

  // The time after which the next poll may come.
  function Base(job: Job, log: PollLog): int
    requires job.stage.Polling?
  {
    if log.polls == 0 then job.stage.startedAt else log.last
  }

  // A delivery the row still waits for and that comes before polling ends.
  predicate DueInTime(job: Job)
    requires job.stage.Polling?
  {
    job.due.Some? && job.due.value < job.stage.startedAt + POLLING_LIMIT
  }

  /**
   * A worker run starts on time if it cannot poll at all, or the second of the last
   * poll has passed and no delivery is pending that would come before polling ends.
   */
  predicate StartsOnTime(job: Job, now: int, log: PollLog) {
    Pollable(job, now) ==> now > Base(job, log) && !DueInTime(job)
  }

  predicate StepOnTime(w: World, e: Event, j: nat, log: PollLog) {
    Polling.Starts(w, e, j) ==> StartsOnTime(w.jobs[j], w.now, log)
  }

  /** Every worker run of the task starts on time. */
  predicate OnTime(w: World, events: seq<Event>, j: nat, log: PollLog) {
    events == []
    || var n := |events| - 1;
       OnTime(w, events[..n], j, log) && StepOnTime(Run(w, events[..n]), events[n], j, Track(w, events[..n], j, log))
  }

  // The row still carries a claim that no worker run has used.
  ghost predicate UnusedClaim(w: World, j: nat)
    requires j < |w.jobs|
  {
    && w.jobs[j].task.Running? && w.jobs[j].token.Some?
    && forall v :: 0 <= v < |w.workers| && w.workers[v].job == j ==> w.workers[v].token != w.jobs[j].token.value
  }

  ghost predicate PunctualStep(w: World, e: Event, j: nat) {
    Polling.Starts(w, e, j) ==> UnusedClaim(w, j)
  }

  /** Every worker run of the task starts while the claim it follows is still the current one. */
  ghost predicate Punctual(w: World, events: seq<Event>, j: nat) {
    events == []
    || var n := |events| - 1;
       Punctual(w, events[..n], j) && PunctualStep(Run(w, events[..n]), events[n], j)
  }

  predicate SpacedStep(w: World, e: Event, j: nat, log: PollLog) {
    Polls(w, e, j) ==> w.jobs[j].stage.Polling? && w.now > Base(w.jobs[j], log)
  }

  /** Every poll comes a second or more after the submission and after the poll and the query before. */
  predicate Spaced(w: World, events: seq<Event>, j: nat, log: PollLog) {
    events == []
    || var n := |events| - 1;
       Spaced(w, events[..n], j, log) && SpacedStep(Run(w, events[..n]), events[n], j, Track(w, events[..n], j, log))
  }

  // -------------------------------------------------------------- invariant

  // A worker that may still poll on its claim.
  predicate Unspent(phase: Phase) {
    phase.Started? || phase.StatusRead? || phase.Resuming?
  }

  ghost predicate Armed(w: World, j: nat)
    requires j < |w.jobs|
  {
    && w.jobs[j].token.Some?
    && forall v :: 0 <= v < |w.workers| && w.workers[v].job == j && HoldsClaim(w, v, j) ==> Unspent(w.workers[v].phase)
  }

  // The holder of the claim has read that the generation is pending.
  ghost predicate Reading(w: World, j: nat)
    requires j < |w.jobs|
  {
    exists v :: 0 <= v < |w.workers| && w.workers[v].job == j && HoldsClaim(w, v, j) && w.workers[v].phase.StatusRead?
  }

  // The holder of the claim has decided to poll.
  ghost predicate AboutToPoll(w: World, j: nat)
    requires j < |w.jobs|
  {
    exists v :: 0 <= v < |w.workers| && w.workers[v].job == j && HoldsClaim(w, v, j) && w.workers[v].phase.Resuming?
  }

  // The holder of the claim has reserved capacity and not yet sent its query.
  ghost predicate Asking(w: World, j: nat)
    requires j < |w.jobs|
  {
    exists v :: 0 <= v < |w.workers| && w.workers[v].job == j && HoldsClaim(w, v, j) && w.workers[v].phase.Querying?
  }

  // The claim and the due time hold the next poll off until after `base`.
  predicate Waits(job: Job, base: int)
    requires job.stage.Polling?
  {
    if job.token.Some? then job.claimExpires > base && !DueInTime(job) else job.due.Some? && job.due.value > base
  }

  predicate RowCalm(job: Job, now: int, log: PollLog) {
    && (job.task.Queued? ==> job.token.None? && !job.stage.Polling?)
    && (job.task.Closed? ==> job.token.None?)
    && (!job.stage.NoStage? ==> job.stage.startedAt <= now)
    && log.queries <= log.polls
    && (!job.stage.Polling? ==> log.polls == 0)
    && (job.stage.Polling? ==>
          job.stage.startedAt + log.polls <= Base(job, log) <= now && log.polls < POLLING_LIMIT)
    && (Pollable(job, now) ==> Waits(job, Base(job, log)))
  }

  ghost predicate HoldersCalm(w: World, j: nat, log: PollLog)
    requires j < |w.jobs|
  {
    var job := w.jobs[j];
    && (Pollable(job, w.now) && Armed(w, j) ==> w.now > Base(job, log))
    && (Reading(w, j) ==> job.status.Pending?)
    && (job.stage.Polling? && AboutToPoll(w, j) ==>
          w.now > Base(job, log) && Base(job, log) + 2 <= job.stage.startedAt + POLLING_LIMIT)
    && (Asking(w, j) ==> log.queries < log.polls && (log.queries > 0 ==> log.asked < log.last))
  }

  // No poll can come before `Base` has passed, and a decided one came within the limit.
  ghost predicate Calm(w: World, j: nat, log: PollLog) {
    if j >= |w.jobs| then log.polls == log.queries == 0
    else RowCalm(w.jobs[j], w.now, log) && (log.queries > 0 ==> log.asked <= log.last) && HoldersCalm(w, j, log)
  }

  // ------------------------------------------------------- other events

  // What a worker that does not reserve capacity may do on a row.
  predicate PhaseMoves(before: Phase, after: Phase, job: Job, now: int) {
    && (Unspent(after) ==> Unspent(before))
    && (after.StatusRead? ==> before.StatusRead? || (before.Started? && job.status.Pending?))
    && (after.Resuming? ==>
          || before.Resuming?
          || (&& before.StatusRead? && job.stage.Polling? && job.stage.providerId != ""
              && now < job.stage.startedAt + POLLING_LIMIT))
    && (after.Querying? ==> before.Querying?)
  }

  lemma SendingMoves(w: World, v: nat, e: Event)
    requires v < |w.workers| && w.workers[v].job < |w.jobs| && Polling.SendingEvent(e)
    ensures v < |WorkerNext(w, v, e).workers|
    ensures PhaseMoves(w.workers[v].phase, WorkerNext(w, v, e).workers[v].phase, w.jobs[w.workers[v].job], w.now)
  {
  }

  lemma SettlingMoves(w: World, v: nat, e: Event)
    requires v < |w.workers| && w.workers[v].job < |w.jobs| && Submission.Settles(e)
    ensures v < |WorkerNext(w, v, e).workers|
    ensures PhaseMoves(w.workers[v].phase, WorkerNext(w, v, e).workers[v].phase, w.jobs[w.workers[v].job], w.now)
  {
    if e.FailGeneration? && w.workers[v].phase.Failing? {
      Polling.FailureKeepsClaim(w, v, w.workers[v].phase.cause, e.env);
    }
  }

  lemma DecidingMoves(w: World, v: nat, e: Event)
    requires v < |w.workers| && w.workers[v].job < |w.jobs| && MovesPhaseOnly(e) && e.worker == v
    requires !Polls(w, e, w.workers[v].job)
    ensures v < |WorkerNext(w, v, e).workers|
    ensures PhaseMoves(w.workers[v].phase, WorkerNext(w, v, e).workers[v].phase, w.jobs[w.workers[v].job], w.now)
  {
  }

  lemma OtherMoves(w: World, v: nat, e: Event)
    requires v < |w.workers| && w.workers[v].job < |w.jobs|
    requires OfWorker(e) && !Polling.SendingEvent(e) && !Submission.Settles(e) && !MovesPhaseOnly(e)
    ensures v < |WorkerNext(w, v, e).workers|
    ensures PhaseMoves(w.workers[v].phase, WorkerNext(w, v, e).workers[v].phase, w.jobs[w.workers[v].job], w.now)
  {
  }

  lemma WorkerMoves(w: World, v: nat, e: Event)
    requires v < |w.workers| && w.workers[v].job < |w.jobs| && OfWorker(e) && e.worker == v
    requires !Polls(w, e, w.workers[v].job)
    ensures v < |WorkerNext(w, v, e).workers|
    ensures PhaseMoves(w.workers[v].phase, WorkerNext(w, v, e).workers[v].phase, w.jobs[w.workers[v].job], w.now)
  {
    if Polling.SendingEvent(e) {
      SendingMoves(w, v, e);
    } else if Submission.Settles(e) {
      SettlingMoves(w, v, e);
    } else if MovesPhaseOnly(e) {
      DecidingMoves(w, v, e);
    } else {
      OtherMoves(w, v, e);
    }
  }

  // What an event does to the workers of a row it neither claims, starts nor polls.
  ghost predicate WorkersMove(w: World, next: World, j: nat)
    requires j < |w.jobs|
  {
    && |w.workers| <= |next.workers|
    && (forall v :: 0 <= v < |w.workers| ==>
          && next.workers[v].job == w.workers[v].job && next.workers[v].token == w.workers[v].token
          && (w.workers[v].job == j ==> PhaseMoves(w.workers[v].phase, next.workers[v].phase, w.jobs[j], w.now)))
    && (forall v :: |w.workers| <= v < |next.workers| ==> next.workers[v].job != j)
  }

  lemma StartWorkers(w: World, i: nat, j: nat)
    requires i < |w.jobs| && j < |w.jobs| && (i != j || w.jobs[j].task.Closed?)
    ensures WorkersMove(w, StartNext(w, i), j)
  {
  }

  lemma OutsideWorkers(w: World, e: Event, j: nat)
    requires j < |w.jobs| && !OfWorker(e) && !Polling.Starts(w, e, j)
    ensures WorkersMove(w, Next(w, e), j)
  {
    if e.Start? && e.job < |w.jobs| {
      StartWorkers(w, e.job, j);
    } else {
      assert Next(w, e).workers == w.workers;
    }
  }

  lemma NextWorkers(w: World, e: Event, j: nat)
    requires Submission.Safe(w) && j < |w.jobs| && !Polling.Starts(w, e, j) && !Polls(w, e, j)
    ensures WorkersMove(w, Next(w, e), j)
  {
    if !OfWorker(e) {
      OutsideWorkers(w, e, j);
    } else if e.worker < |w.workers| {
      Submission.NextSafe(w, e);
      if w.workers[e.worker].job == j {
        WorkerMoves(w, e.worker, e);
      }
      MovesWorkers(w, Next(w, e), e.worker, j);
    }
  }

  lemma MovesWorkers(w: World, next: World, v: nat, j: nat)
    requires Submission.Moves(w, next, v) && j < |w.jobs|
    requires w.workers[v].job == j ==> PhaseMoves(w.workers[v].phase, next.workers[v].phase, w.jobs[j], w.now)
    ensures WorkersMove(w, next, j)
  {
  }

  // How the stored stage may change: it keeps its start time once there is one, and
  // storing an accepted task gives the claim up until a later due time.
  predicate StageMoves(before: Job, after: Job, now: int) {
    || after.stage == before.stage
    || (before.stage.NoStage? && after.stage.Submitting? && after.stage.startedAt == now)
    || (before.stage.Submitting? && after.stage.OpaqueSubmitting? && after.stage.startedAt == before.stage.startedAt)
    || (&& !before.stage.NoStage? && after.stage.Polling? && after.stage.startedAt == before.stage.startedAt
        && after.task.Running? && after.token.None? && after.due.Some? && after.due.value > now)
  }

  predicate StageEvent(e: Event) {
    e.Fence? || e.FenceOpaque? || e.Persist?
  }

  lemma StageEventMoves(w: World, v: nat, e: Event)
    requires Submission.Safe(w) && v < |w.workers| && StageEvent(e)
    ensures w.workers[v].job < |WorkerNext(w, v, e).jobs|
    ensures StageMoves(w.jobs[w.workers[v].job], WorkerNext(w, v, e).jobs[w.workers[v].job], w.now)
  {
    assert Submission.WorkerSafe(w.jobs[w.workers[v].job], v, w.workers[v]);
  }

  lemma QuietStage(w: World, v: nat, e: Event)
    requires v < |w.workers| && w.workers[v].job < |w.jobs| && OfWorker(e) && !StageEvent(e)
    ensures w.workers[v].job < |WorkerNext(w, v, e).jobs|
    ensures WorkerNext(w, v, e).jobs[w.workers[v].job].stage == w.jobs[w.workers[v].job].stage
  {
  }

  lemma OutsideStage(w: World, e: Event, j: nat)
    requires j < |w.jobs| && !OfWorker(e)
    ensures j < |Next(w, e).jobs| && Next(w, e).jobs[j].stage == w.jobs[j].stage
  {
    if e.Create? {
      Polling.CreateKeepsRow(w, e.request, e.env, j);
    } else if e.ExpireJob? && e.job < |w.jobs| {
      ExpireKeepsStage(w, e.job, e.cutoff, e.env, j);
    }
  }

  lemma ExpireKeepsStage(w: World, i: nat, cutoff: int, env: Ledger.Env, j: nat)
    requires i < |w.jobs| && j < |w.jobs|
    ensures j < |ExpireJobNext(w, i, cutoff, env).jobs| && ExpireJobNext(w, i, cutoff, env).jobs[j].stage == w.jobs[j].stage
  {
  }

  lemma NextStage(w: World, e: Event, j: nat)
    requires Submission.Safe(w) && j < |w.jobs|
    ensures j < |Next(w, e).jobs| && StageMoves(w.jobs[j], Next(w, e).jobs[j], w.now)
  {
    Submission.NextSafe(w, e);
    if !OfWorker(e) {
      OutsideStage(w, e, j);
    } else if e.worker < |w.workers| {
      if StageEvent(e) {
        StageEventMoves(w, e.worker, e);
      } else {
        QuietStage(w, e.worker, e);
      }
    }
  }

  // A generation is settled by the timeout, which closes the task, or by the worker
  // that holds the claim, which then stops reading.
  ghost predicate StatusMoves(w: World, next: World, j: nat)
    requires j < |w.jobs| && j < |next.jobs|
  {
    || next.jobs[j].status == w.jobs[j].status
    || next.jobs[j].token.None?
    || exists v :: 0 <= v < |w.workers| && v < |next.workers| && HoldsClaim(w, v, j) && !next.workers[v].phase.StatusRead?
  }

  lemma WorkerStatus(w: World, v: nat, e: Event)
    requires v < |w.workers| && w.workers[v].job < |w.jobs| && OfWorker(e) && !Submission.Settles(e)
    ensures w.workers[v].job < |WorkerNext(w, v, e).jobs|
    ensures WorkerNext(w, v, e).jobs[w.workers[v].job].status == w.jobs[w.workers[v].job].status
  {
  }

  lemma FailureStatus(w: World, v: nat, cause: Cause, env: Ledger.Env)
    requires v < |w.workers| && w.workers[v].job < |w.jobs|
    ensures var next, j := FailGenerationNext(w, v, cause, env), w.workers[v].job;
      && j < |next.jobs| && v < |next.workers| && !next.workers[v].phase.StatusRead?
      && (next.jobs[j].status == w.jobs[j].status || HoldsClaim(w, v, j))
  {
  }

  lemma SettlingStatus(w: World, v: nat, e: Event)
    requires v < |w.workers| && w.workers[v].job < |w.jobs| && Submission.Settles(e)
    ensures w.workers[v].job < |WorkerNext(w, v, e).jobs| && StatusMoves(w, WorkerNext(w, v, e), w.workers[v].job)
  {
    if e.FailGeneration? && w.workers[v].phase.Failing? {
      FailureStatus(w, v, w.workers[v].phase.cause, e.env);
    }
  }

  lemma ExpireStatus(w: World, i: nat, cutoff: int, env: Ledger.Env, j: nat)
    requires i < |w.jobs| && j < |w.jobs| && (w.jobs[j].task.Closed? ==> w.jobs[j].token.None?)
    ensures j < |ExpireJobNext(w, i, cutoff, env).jobs| && StatusMoves(w, ExpireJobNext(w, i, cutoff, env), j)
  {
  }

  lemma OutsideStatus(w: World, e: Event, j: nat)
    requires j < |w.jobs| && (w.jobs[j].task.Closed? ==> w.jobs[j].token.None?) && !OfWorker(e)
    ensures j < |Next(w, e).jobs| && StatusMoves(w, Next(w, e), j)
  {
    if e.Create? {
      Polling.CreateKeepsRow(w, e.request, e.env, j);
    } else if e.ExpireJob? && e.job < |w.jobs| {
      ExpireStatus(w, e.job, e.cutoff, e.env, j);
    }
  }

  lemma NextStatus(w: World, e: Event, j: nat)
    requires Submission.Safe(w) && j < |w.jobs| && (w.jobs[j].task.Closed? ==> w.jobs[j].token.None?)
    ensures j < |Next(w, e).jobs| && StatusMoves(w, Next(w, e), j)
  {
    Submission.NextSafe(w, e);
    if !OfWorker(e) {
      OutsideStatus(w, e, j);
    } else if e.worker < |w.workers| && w.workers[e.worker].job == j {
      if Submission.Settles(e) {
        SettlingStatus(w, e.worker, e);
      } else {
        WorkerStatus(w, e.worker, e);
      }
    }
  }

  lemma RowStaysCalm(before: Job, after: Job, now: int, later: int, log: PollLog)
    requires RowCalm(before, now, log) && now <= later
    requires Polling.ClaimKept(before, after, now) && StageMoves(before, after, now) && Submission.RowProgress(before, after)
    ensures RowCalm(after, later, log)
    ensures before.stage.Polling? ==> after.stage.Polling? && Base(after, log) == Base(before, log)
    ensures after.token.Some? ==> after.token == before.token && after.stage.Polling? == before.stage.Polling?
    ensures after.token.Some? && Pollable(after, later) ==> Pollable(before, now)
  {
  }

  // A row that changed as events other than claims, starts and polls change it.
  ghost predicate RowKept(w: World, next: World, j: nat, log: PollLog)
    requires j < |w.jobs|
  {
    && j < |next.jobs| && w.now <= next.now
    && var before, after := w.jobs[j], next.jobs[j];
    && after.token.Some? && after.token == before.token && after.stage.Polling? == before.stage.Polling?
    && (after.stage.Polling? ==>
          Base(after, log) == Base(before, log) && after.stage.startedAt == before.stage.startedAt)
    && (Pollable(after, next.now) ==> Pollable(before, w.now))
    && before.task.Running?
  }

  lemma HoldersStayCalm(w: World, next: World, j: nat, log: PollLog)
    requires Submission.TokensDistinct(w) && j < |w.jobs| && Calm(w, j, log)
    requires WorkersMove(w, next, j) && RowKept(w, next, j, log) && StatusMoves(w, next, j)
    ensures HoldersCalm(next, j, log)
  {
    if Armed(next, j) {
      ArmedBefore(w, next, j);
    }
    ReadingBefore(w, next, j);
    PollingBefore(w, next, j, log);
    if Asking(next, j) {
      var v :| 0 <= v < |next.workers| && next.workers[v].job == j && HoldsClaim(next, v, j) && next.workers[v].phase.Querying?;
      assert HoldsClaim(w, v, j) && w.workers[v].phase.Querying?;
    }
  }

  lemma ArmedBefore(w: World, next: World, j: nat)
    requires j < |w.jobs| && j < |next.jobs| && WorkersMove(w, next, j)
    requires Armed(next, j) && w.jobs[j].token == next.jobs[j].token
    ensures Armed(w, j)
  {
    forall v | 0 <= v < |w.workers| && w.workers[v].job == j && HoldsClaim(w, v, j) ensures Unspent(w.workers[v].phase) {
      assert HoldsClaim(next, v, j);
    }
  }

  lemma ReadingBefore(w: World, next: World, j: nat)
    requires Submission.TokensDistinct(w) && j < |w.jobs| && j < |next.jobs| && (Reading(w, j) ==> w.jobs[j].status.Pending?)
    requires WorkersMove(w, next, j) && w.jobs[j].token == next.jobs[j].token && StatusMoves(w, next, j)
    ensures Reading(next, j) ==> next.jobs[j].status.Pending?
  {
    if Reading(next, j) {
      var v :| 0 <= v < |next.workers| && next.workers[v].job == j && HoldsClaim(next, v, j) && next.workers[v].phase.StatusRead?;
      assert HoldsClaim(w, v, j);
      OnlyHolder(w, j, v);
    }
  }

  lemma PollingBefore(w: World, next: World, j: nat, log: PollLog)
    requires Submission.TokensDistinct(w) && j < |w.jobs| && Calm(w, j, log)
    requires WorkersMove(w, next, j) && RowKept(w, next, j, log)
    ensures var job := next.jobs[j];
      job.stage.Polling? && AboutToPoll(next, j) ==>
        next.now > Base(job, log) && Base(job, log) + 2 <= job.stage.startedAt + POLLING_LIMIT
  {
    if next.jobs[j].stage.Polling? && AboutToPoll(next, j) {
      var v :| 0 <= v < |next.workers| && next.workers[v].job == j && HoldsClaim(next, v, j) && next.workers[v].phase.Resuming?;
      assert HoldsClaim(w, v, j);
      if w.workers[v].phase.Resuming? {
        assert AboutToPoll(w, j);
      } else {
        assert Reading(w, j);
        HolderArms(w, j, v);
      }
    }
  }

  /** Events that are no claim, start, poll or query of the row keep it calm. */
  lemma OthersCalm(w: World, e: Event, j: nat, log: PollLog)
    requires Submission.Safe(w) && Submission.TokensDistinct(w) && j < |w.jobs| && Calm(w, j, log)
    requires !Polling.Claims(w, e, j) && !Polling.Starts(w, e, j) && !Polls(w, e, j)
    ensures Calm(Next(w, e), j, log)
  {
    var next := Next(w, e);
    Polling.NextClock(w, e);
    Polling.NextKeepsClaim(w, e, j);
    Submission.NextProgress(w, e, j);
    NextStage(w, e, j);
    NextStatus(w, e, j);
    NextWorkers(w, e, j);
    RowStaysCalm(w.jobs[j], next.jobs[j], w.now, next.now, log);
    if next.jobs[j].token.Some? {
      HoldersStayCalm(w, next, j, log);
    } else {
      NobodyHolds(next, j, log);
    }
  }

  lemma NobodyHolds(w: World, j: nat, log: PollLog)
    requires j < |w.jobs| && w.jobs[j].token.None?
    ensures HoldersCalm(w, j, log)
  {
  }

  // ----------------------------------------------------- claims and starts

  lemma ClaimCalm(w: World, j: nat, log: PollLog)
    requires Submission.TokensDistinct(w) && Calm(w, j, log) && Polling.Claims(w, Dispatch(j), j)
    ensures Calm(DispatchNext(w, j), j, log)
  {
    var next := DispatchNext(w, j);
    assert next.jobs[j].token == Some(w.tokens) && next.workers == w.workers;
    assert forall v :: 0 <= v < |w.workers| ==> w.workers[v].token != w.tokens;
  }

  lemma StartCalm(w: World, j: nat, log: PollLog)
    requires Submission.TokensDistinct(w) && Calm(w, j, log) && Polling.Starts(w, Start(j), j)
    requires StartsOnTime(w.jobs[j], w.now, log)
    ensures Calm(StartNext(w, j), j, log)
  {
    var next := StartNext(w, j);
    assert next.jobs[j].token == Some(w.tokens);
    forall v | 0 <= v < |next.workers| && next.workers[v].token == w.tokens ensures v == |w.workers| {
    }
  }

  /** A start on a claim that is still current and unused is always on time. */
  lemma UnusedOnTime(w: World, e: Event, j: nat, log: PollLog)
    requires Calm(w, j, log) && PunctualStep(w, e, j)
    ensures StepOnTime(w, e, j, log)
  {
    if Polling.Starts(w, e, j) {
      assert Armed(w, j);
    }
  }

  // ------------------------------------------------------ polls and queries

  lemma OnlyHolder(w: World, j: nat, v: nat)
    requires Submission.TokensDistinct(w) && j < |w.jobs| && v < |w.workers| && HoldsClaim(w, v, j)
    ensures forall u :: 0 <= u < |w.workers| && HoldsClaim(w, u, j) ==> u == v
  {
    forall u | 0 <= u < |w.workers| && HoldsClaim(w, u, j) ensures u == v {
      assert w.workers[u].token == w.workers[v].token;
    }
  }

  lemma HolderArms(w: World, j: nat, v: nat)
    requires Submission.TokensDistinct(w) && j < |w.jobs| && v < |w.workers| && w.workers[v].job == j
    requires HoldsClaim(w, v, j) && Unspent(w.workers[v].phase)
    ensures Armed(w, j)
  {
    OnlyHolder(w, j, v);
  }

  // The only holder of a row leaves nobody armed, reading or about to poll.
  lemma SpentHolder(w: World, j: nat, v: nat)
    requires Submission.TokensDistinct(w) && j < |w.jobs| && v < |w.workers| && w.workers[v].job == j
    requires HoldsClaim(w, v, j) && !Unspent(w.workers[v].phase)
    ensures !Armed(w, j) && !Reading(w, j) && !AboutToPoll(w, j)
    ensures Asking(w, j) ==> w.workers[v].phase.Querying?
  {
    OnlyHolder(w, j, v);
  }

  lemma PollCalm(w: World, e: Event, j: nat, log: PollLog)
    requires Submission.Safe(w) && Submission.TokensDistinct(w) && Calm(w, j, log) && Polls(w, e, j)
    ensures SpacedStep(w, e, j, log)
    ensures Calm(Next(w, e), j, Note(w, e, j, log))
  {
    var v := e.worker;
    assert Submission.WorkerSafe(w.jobs[j], v, w.workers[v]);
    assert AboutToPoll(w, j);
    ReserveMoves(w, e);
    SpentHolder(Next(w, e), j, v);
  }

  lemma ReserveMoves(w: World, e: Event)
    requires e.Reserve? && e.worker < |w.workers| && w.workers[e.worker].job < |w.jobs|
    requires w.workers[e.worker].phase.Resuming?
    ensures Next(w, e) == SetPhase(w, e.worker, ReservePhase(w, e.worker, e.room))
  {
  }

  lemma QueryMoves(w: World, e: Event)
    requires e.Query? && e.worker < |w.workers| && w.workers[e.worker].job < |w.jobs|
    requires w.workers[e.worker].phase.Querying?
    ensures Next(w, e) == SetPhase(w, e.worker, QueryPhase(w.workers[e.worker].phase, e.reply))
  {
  }

  lemma QueryCalm(w: World, e: Event, j: nat, log: PollLog)
    requires Submission.Safe(w) && Submission.TokensDistinct(w) && Calm(w, j, log) && Queries(w, e, j)
    ensures w.jobs[j].stage.Polling? && w.jobs[j].stage.startedAt < w.now && log.queries < log.polls
    ensures log.queries > 0 ==> w.now > log.asked
    ensures Calm(Next(w, e), j, Note(w, e, j, log))
  {
    var v := e.worker;
    assert Submission.WorkerSafe(w.jobs[j], v, w.workers[v]);
    assert Asking(w, j);
    QueryMoves(w, e);
    SpentHolder(Next(w, e), j, v);
  }

  // ------------------------------------------------------------------- runs

  lemma NextCalm(w: World, e: Event, j: nat, log: PollLog)
    requires Submission.Safe(w) && Submission.TokensDistinct(w) && Calm(w, j, log) && StepOnTime(w, e, j, log)
    ensures Calm(Next(w, e), j, Note(w, e, j, log)) && SpacedStep(w, e, j, log)
  {
    if j >= |w.jobs| {
      NewRowCalm(w, e, j, log);
    } else if Polling.Claims(w, e, j) {
      ClaimCalm(w, j, log);
    } else if Polling.Starts(w, e, j) {
      StartCalm(w, j, log);
    } else if Polls(w, e, j) {
      PollCalm(w, e, j, log);
    } else if Queries(w, e, j) {
      QueryCalm(w, e, j, log);
    } else {
      OthersCalm(w, e, j, log);
    }
  }

  lemma NewRowCalm(w: World, e: Event, j: nat, log: PollLog)
    requires Submission.Safe(w) && j >= |w.jobs| && log.polls == log.queries == 0
    ensures Calm(Next(w, e), j, log)
  {
    Polling.NewRowUnclaimed(w, e, j);
    if e.Create? {
      CreatedCalm(w, e.request, e.env, j, log);
    } else {
      Polling.SameRows(w, e);
    }
  }

  lemma CreatedCalm(w: World, r: Request, env: Ledger.Env, j: nat, log: PollLog)
    requires j >= |w.jobs| && log.polls == log.queries == 0
    ensures CreateTask(w, r, env).Ok? ==> Calm(CreateTask(w, r, env).value.0, j, log)
  {
  }

  // What every step of a run keeps.
  ghost predicate Orderly(w: World, j: nat, log: PollLog) {
    Submission.Safe(w) && Submission.TokensDistinct(w) && Calm(w, j, log)
  }

  lemma NextOrderly(w: World, e: Event, j: nat, log: PollLog)
    requires Orderly(w, j, log) && StepOnTime(w, e, j, log)
    ensures Orderly(Next(w, e), j, Note(w, e, j, log)) && SpacedStep(w, e, j, log)
  {
    Submission.NextSafe(w, e);
    Submission.NextTokens(w, e);
    NextCalm(w, e, j, log);
  }

  /** From an orderly state every run whose workers start on time is orderly and spaced. */
  lemma {:induction false} RunOrderly(w: World, events: seq<Event>, j: nat, log: PollLog)
    requires Orderly(w, j, log) && OnTime(w, events, j, log)
    ensures Orderly(Run(w, events), j, Track(w, events, j, log)) && Spaced(w, events, j, log)
  {
    if events != [] {
      var n := |events| - 1;
      RunOrderly(w, events[..n], j, log);
      NextOrderly(Run(w, events[..n]), events[n], j, Track(w, events[..n], j, log));
    }
  }

  /** Runs that start on their own current claims start on time. */
  lemma {:induction false} PunctualOnTime(w: World, events: seq<Event>, j: nat, log: PollLog)
    requires Orderly(w, j, log) && Punctual(w, events, j)
    ensures OnTime(w, events, j, log)
  {
    if events != [] {
      var n := |events| - 1;
      PunctualOnTime(w, events[..n], j, log);
      RunOrderly(w, events[..n], j, log);
      UnusedOnTime(Run(w, events[..n]), events[n], j, Track(w, events[..n], j, log));
    }
  }

  lemma InitialOrderly(w: World, j: nat)
    requires Initial(w)
    ensures Orderly(w, j, QUIET)
  {
  }

  // -------------------------------------------------------------- theorems

  /**
   * Polls are spaced: in every run whose workers start on time a poll comes at
   * least a second after the submission, after the poll before and after the last
   * query sent under a live claim.
   */
  lemma PollsSpaced(w: World, events: seq<Event>, e: Event, j: nat)
    requires Initial(w) && OnTime(w, events, j, QUIET) && Polls(Run(w, events), e, j)
    ensures var log, now := Track(w, events, j, QUIET), Run(w, events);
      && now.jobs[j].stage.Polling?
      && now.now >= now.jobs[j].stage.startedAt + 1
      && (log.polls > 0 ==> now.now >= log.last + 1)
  {
    InitialOrderly(w, j);
    RunOrderly(w, events, j, QUIET);
    PollCalm(Run(w, events), e, j, Track(w, events, j, QUIET));
  }

  /**
   * Queries are spaced: in such runs a query sent under its sender's live claim
   * reaches the provider at least a second after the submission and after the
   * query before, and is the only one of its poll.
   */
  lemma QueriesSpaced(w: World, events: seq<Event>, e: Event, j: nat)
    requires Initial(w) && OnTime(w, events, j, QUIET) && Queries(Run(w, events), e, j)
    ensures var log, now := Track(w, events, j, QUIET), Run(w, events);
      && now.jobs[j].stage.Polling?
      && now.now >= now.jobs[j].stage.startedAt + 1
      && (log.queries > 0 ==> now.now >= log.asked + 1)
      && log.queries < log.polls
  {
    InitialOrderly(w, j);
    RunOrderly(w, events, j, QUIET);
    QueryCalm(Run(w, events), e, j, Track(w, events, j, QUIET));
  }

  /** Polling ends: in such runs a generation is polled fewer times than the polling limit has seconds. */
  lemma PollsBounded(w: World, events: seq<Event>, j: nat)
    requires Initial(w) && OnTime(w, events, j, QUIET)
    ensures Track(w, events, j, QUIET).queries <= Track(w, events, j, QUIET).polls < POLLING_LIMIT
  {
    InitialOrderly(w, j);
    RunOrderly(w, events, j, QUIET);
  }

  /** All of this holds when every worker run starts on a claim that is still its own and current. */
  lemma PunctualRunsOnTime(w: World, events: seq<Event>, j: nat)
    requires Initial(w) && Punctual(w, events, j)
    ensures OnTime(w, events, j, QUIET) && Spaced(w, events, j, QUIET)
  {
    InitialOrderly(w, j);
    PunctualOnTime(w, events, j, QUIET);
    RunOrderly(w, events, j, QUIET);
  }
}
