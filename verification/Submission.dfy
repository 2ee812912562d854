/**
 * Submission safety: over every interleaving of workers, crashes, expired
 * claims and lost session locks, a generation is sent to the provider at most
 * twice, and at most one of the requests was not explicitly rejected.
 */
module Submission {
  import opened Prelude
  import opened ImageTasks
  import opened Ledger

  // ------------------------------------------------------------- invariant

  // What the provider may have received for one generation.
  predicate SendsAllowed(sends: seq<Submission>) {
    || sends == []
    || |sends| == 1
    || (|sends| == 2 && sends[0].Rejected?)
  }

  predicate JobSafe(job: Job) {
    && (job.owner.None? <==> job.stage.NoStage?)
    && (job.owner.None? ==> job.sends == [])
    && SendsAllowed(job.sends)
    && (job.stage.Polling? ==> job.stage.failures < QUERY_FAILURE_LIMIT)
    && (job.task.Closed? ==> !job.status.Pending? && job.task.final == job.status)
    && (job.status.Completed? ==> job.task.Closed?)
  }

  // What a worker's phase says about the row it works on.
  predicate WorkerSafe(job: Job, v: nat, worker: Worker) {
    match worker.phase
    case Fenced =>
      job.owner == Some(v) && job.stage == ImageTasks.Submitting(worker.startedAt) && job.sends == []
    case Sent =>
      job.owner == Some(v) && job.stage == ImageTasks.Submitting(worker.startedAt) && job.sends == [Unanswered]
    case Refused =>
      job.owner == Some(v) && job.stage == ImageTasks.Submitting(worker.startedAt) && job.sends == [Rejected]
    case OpaqueFenced =>
      job.owner == Some(v) && job.stage == OpaqueSubmitting(worker.startedAt) && job.sends == [Rejected]
    case OpaqueSent =>
      job.owner == Some(v) && job.stage == OpaqueSubmitting(worker.startedAt) && job.sends == [Rejected, Unanswered]
    case Accepted(id) =>
      && job.owner == Some(v) && id != ""
      && (job.stage == ImageTasks.Submitting(worker.startedAt) || job.stage == OpaqueSubmitting(worker.startedAt))
    case Resuming(id, failures) =>
      job.stage.Polling? && job.stage.providerId == id && job.stage.startedAt == worker.startedAt
      && failures < QUERY_FAILURE_LIMIT
    case Querying(id, failures) =>
      job.stage.Polling? && job.stage.providerId == id && job.stage.startedAt == worker.startedAt
      && failures < QUERY_FAILURE_LIMIT
    case Polled(id, failures) =>
      job.stage.Polling? && job.stage.providerId == id && job.stage.startedAt == worker.startedAt
      && failures < QUERY_FAILURE_LIMIT
    case Reconciling(final) => job.status == final && !final.Pending?
    case Closing => !job.status.Pending?
    case _ => true
  }

  ghost predicate Safe(w: World) {
    && (forall j :: 0 <= j < |w.jobs| ==> JobSafe(w.jobs[j]))
    && (forall v :: 0 <= v < |w.workers| ==>
          w.workers[v].job < |w.jobs| && WorkerSafe(w.jobs[w.workers[v].job], v, w.workers[v]))
  }

  // A row change that no worker but `v` can notice.
  predicate Unnoticed(before: Job, after: Job, v: Option<nat>) {
    && (before.status.Pending? || after.status == before.status)
    && (|| (after.owner == before.owner && after.stage == before.stage && after.sends == before.sends)
        || (before.owner.None? && after.owner == v && v.Some?)
        || (before.owner == v && v.Some? && after.owner == v && !before.stage.Polling?)
        || (after.owner == before.owner && after.sends == before.sends && before.stage.Polling? && after.stage.Polling?
            && after.stage.providerId == before.stage.providerId && after.stage.startedAt == before.stage.startedAt))
  }

  lemma OthersUnmoved(before: Job, after: Job, v: Option<nat>, u: nat, worker: Worker)
    requires JobSafe(before) && Unnoticed(before, after, v) && Some(u) != v
    requires WorkerSafe(before, u, worker)
    ensures WorkerSafe(after, u, worker)
  {
  }

  /** Changing one row and the phase of one of its workers keeps the invariant if both fit. */
  lemma WorkerStepSafe(w: World, v: nat, job: Job, worker: Worker)
    requires Safe(w) && v < |w.workers| && worker.job == w.workers[v].job
    requires JobSafe(job) && Unnoticed(w.jobs[worker.job], job, Some(v)) && WorkerSafe(job, v, worker)
    ensures forall next: World :: next.jobs == w.jobs[worker.job := job] && next.workers == w.workers[v := worker] ==> Safe(next)
  {
    var j := worker.job;
    forall next: World | next.jobs == w.jobs[j := job] && next.workers == w.workers[v := worker] ensures Safe(next) {
      forall u | 0 <= u < |next.workers|
        ensures next.workers[u].job < |next.jobs| && WorkerSafe(next.jobs[next.workers[u].job], u, next.workers[u])
      {
        if u != v && next.workers[u].job == j {
          OthersUnmoved(w.jobs[j], job, Some(v), u, next.workers[u]);
        }
      }
    }
  }

  /** Changing one row without any worker keeps the invariant if nobody can notice. */
  lemma RowStepSafe(w: World, j: nat, job: Job)
    requires Safe(w) && j < |w.jobs| && JobSafe(job) && Unnoticed(w.jobs[j], job, None)
    ensures forall next: World :: next.jobs == w.jobs[j := job] && next.workers == w.workers ==> Safe(next)
  {
    forall next: World | next.jobs == w.jobs[j := job] && next.workers == w.workers ensures Safe(next) {
      forall u | 0 <= u < |next.workers|
        ensures next.workers[u].job < |next.jobs| && WorkerSafe(next.jobs[next.workers[u].job], u, next.workers[u])
      {
        if next.workers[u].job == j {
          OthersUnmoved(w.jobs[j], job, None, u, next.workers[u]);
        }
      }
    }
  }

  // What one transition may do to one row, whoever causes it.
  predicate RowProgress(before: Job, after: Job) {
    && after.request == before.request && after.created == before.created
    && (before.status.Pending? || after.status == before.status)
    && (before.task.Closed? ==> after.task == before.task)
    && (before.owner.Some? ==> after.owner == before.owner)
    && (before.stage.Polling? ==>
          after.stage.Polling? && after.stage.providerId == before.stage.providerId
          && after.stage.startedAt == before.stage.startedAt && after.sends == before.sends)
    && |before.sends| <= |after.sends|
  }

  // What one event of worker `v` may change.
  ghost predicate Moves(w: World, next: World, v: nat) {
    && v < |w.workers| == |next.workers| && w.workers[v].job < |w.jobs| == |next.jobs|
    && var j := w.workers[v].job;
    && next.jobs == w.jobs[j := next.jobs[j]]
    && next.workers == w.workers[v := next.workers[v]]
    && next.tokens == w.tokens
    && next.workers[v].job == j && next.workers[v].token == w.workers[v].token
    && (w.workers[v].phase.Done? ==> next.workers[v].phase.Done?)
    && RowProgress(w.jobs[j], next.jobs[j])
    && (next.jobs[j].token == w.jobs[j].token || next.jobs[j].token.None?)
    && (next.jobs[j].sends != w.jobs[j].sends ==>
          w.jobs[j].owner == Some(v) && w.workers[v].phase in {Fenced, Sent, OpaqueFenced, OpaqueSent})
  }

  // ----------------------------------------------------------- every event

  lemma FenceSafe(w: World, v: nat)
    requires Safe(w) && v < |w.workers| && w.workers[v].phase.Preparing?
    ensures Safe(FenceNext(w, v)) && Moves(w, FenceNext(w, v), v)
  {
    var j := w.workers[v].job;
    assert JobSafe(w.jobs[j]);
    WorkerStepSafe(w, v, FenceNext(w, v).jobs[j], FenceNext(w, v).workers[v]);
  }

  lemma FenceOpaqueSafe(w: World, v: nat)
    requires Safe(w) && v < |w.workers| && w.workers[v].phase.Refused?
    ensures Safe(FenceOpaqueNext(w, v)) && Moves(w, FenceOpaqueNext(w, v), v)
  {
    var j := w.workers[v].job;
    assert JobSafe(w.jobs[j]) && WorkerSafe(w.jobs[j], v, w.workers[v]);
    WorkerStepSafe(w, v, FenceOpaqueNext(w, v).jobs[j], FenceOpaqueNext(w, v).workers[v]);
  }

  lemma SendSafe(w: World, v: nat)
    requires Safe(w) && v < |w.workers|
    ensures Safe(WorkerNext(w, v, Send(v))) && Moves(w, WorkerNext(w, v, Send(v)), v)
  {
    var j := w.workers[v].job;
    assert JobSafe(w.jobs[j]) && WorkerSafe(w.jobs[j], v, w.workers[v]);
    var next := WorkerNext(w, v, Send(v));
    if w.workers[v].phase.Fenced? || w.workers[v].phase.OpaqueFenced? {
      WorkerStepSafe(w, v, next.jobs[j], next.workers[v]);
    }
  }

  lemma AnswerSafe(w: World, v: nat, reply: Reply)
    requires Safe(w) && v < |w.workers|
    requires w.workers[v].phase.Sent? || w.workers[v].phase.OpaqueSent?
    requires |w.jobs[w.workers[v].job].sends| > 0
    ensures Safe(AnswerNext(w, v, reply)) && Moves(w, AnswerNext(w, v, reply), v)
  {
    var j := w.workers[v].job;
    assert JobSafe(w.jobs[j]) && WorkerSafe(w.jobs[j], v, w.workers[v]);
    WorkerStepSafe(w, v, AnswerNext(w, v, reply).jobs[j], AnswerNext(w, v, reply).workers[v]);
  }

  lemma PersistSafe(w: World, v: nat, delay: int)
    requires Safe(w) && v < |w.workers| && (w.workers[v].phase.Accepted? || w.workers[v].phase.Polled?)
    ensures Safe(PersistNext(w, v, delay)) && Moves(w, PersistNext(w, v, delay), v)
  {
    var j := w.workers[v].job;
    assert JobSafe(w.jobs[j]) && WorkerSafe(w.jobs[j], v, w.workers[v]);
    WorkerStepSafe(w, v, PersistNext(w, v, delay).jobs[j], PersistNext(w, v, delay).workers[v]);
  }

  lemma CompleteSafe(w: World, v: nat)
    requires Safe(w) && v < |w.workers|
    ensures Safe(CompleteNext(w, v)) && Moves(w, CompleteNext(w, v), v)
  {
    var j := w.workers[v].job;
    assert JobSafe(w.jobs[j]);
    WorkerStepSafe(w, v, CompleteNext(w, v).jobs[j], CompleteNext(w, v).workers[v]);
  }

  lemma ChargeRepairShape(w: World, v: nat, step: string, cents: nat, env: Env) returns (consumed: int, repairs: set<string>)
    requires v < |w.workers| && w.workers[v].job < |w.jobs|
    ensures var j := w.workers[v].job;
      && ChargeRepairNext(w, v, step, cents, env).jobs == w.jobs[j := w.jobs[j].(consumed := consumed, repairs := repairs)]
      && ChargeRepairNext(w, v, step, cents, env).workers == w.workers
      && ChargeRepairNext(w, v, step, cents, env).tokens == w.tokens
  {
    var j := w.workers[v].job;
    var next := ChargeRepairNext(w, v, step, cents, env);
    consumed, repairs := next.jobs[j].consumed, next.jobs[j].repairs;
  }

  lemma ChargeRepairSafe(w: World, v: nat, step: string, cents: nat, env: Env)
    requires Safe(w) && v < |w.workers|
    ensures Safe(ChargeRepairNext(w, v, step, cents, env)) && Moves(w, ChargeRepairNext(w, v, step, cents, env), v)
  {
    var j := w.workers[v].job;
    assert JobSafe(w.jobs[j]) && WorkerSafe(w.jobs[j], v, w.workers[v]);
    var consumed, repairs := ChargeRepairShape(w, v, step, cents, env);
    WorkerStepSafe(w, v, w.jobs[j].(consumed := consumed, repairs := repairs), w.workers[v]);
  }

  lemma FailGenerationShape(w: World, v: nat, cause: Cause, env: Env) returns (consumed: int, phase: Phase)
    requires v < |w.workers| && w.workers[v].job < |w.jobs|
    ensures var next, j := FailGenerationNext(w, v, cause, env), w.workers[v].job;
      && next.workers == w.workers[v := w.workers[v].(phase := phase)] && next.tokens == w.tokens
      && (next.jobs == w.jobs || (w.jobs[j].status.Pending? && next.jobs == w.jobs[j := w.jobs[j].(status := Failed, consumed := consumed)]))
      && (phase == Done || (phase == Closing && !next.jobs[j].status.Pending?))
  {
    var next, j := FailGenerationNext(w, v, cause, env), w.workers[v].job;
    consumed, phase := next.jobs[j].consumed, next.workers[v].phase;
  }

  lemma FailGenerationSafe(w: World, v: nat, cause: Cause, env: Env)
    requires Safe(w) && v < |w.workers| && w.workers[v].phase.Failing?
    ensures Safe(FailGenerationNext(w, v, cause, env)) && Moves(w, FailGenerationNext(w, v, cause, env), v)
  {
    var j := w.workers[v].job;
    assert JobSafe(w.jobs[j]);
    var consumed, phase := FailGenerationShape(w, v, cause, env);
    var next := FailGenerationNext(w, v, cause, env);
    assert JobSafe(next.jobs[j]) && next.jobs == w.jobs[j := next.jobs[j]];
    WorkerStepSafe(w, v, next.jobs[j], w.workers[v].(phase := phase));
  }

  lemma PhaseOnlyShape(w: World, v: nat, e: Event)
    requires Safe(w) && v < |w.workers| && MovesPhaseOnly(e)
    ensures var next := WorkerNext(w, v, e);
      && next.jobs == w.jobs && next.tokens == w.tokens && v < |next.workers|
      && next.workers == w.workers[v := next.workers[v]]
  {
  }

  lemma PhaseOnlyFits(w: World, v: nat, e: Event)
    requires Safe(w) && v < |w.workers| && MovesPhaseOnly(e)
    ensures var j, next := w.workers[v].job, WorkerNext(w, v, e).workers;
      && v < |next| && next[v].job == j && next[v].token == w.workers[v].token
      && (w.workers[v].phase.Done? ==> next[v].phase.Done?) && WorkerSafe(w.jobs[j], v, next[v])
  {
    assert WorkerSafe(w.jobs[w.workers[v].job], v, w.workers[v]);
    assert JobSafe(w.jobs[w.workers[v].job]);
  }

  lemma PhaseOnlySafe(w: World, v: nat, e: Event)
    requires Safe(w) && v < |w.workers| && MovesPhaseOnly(e)
    ensures Safe(WorkerNext(w, v, e)) && Moves(w, WorkerNext(w, v, e), v)
  {
    PhaseOnlyShape(w, v, e);
    PhaseOnlyFits(w, v, e);
    OwnPhaseSafe(w, v, WorkerNext(w, v, e));
  }

  lemma OwnPhaseSafe(w: World, v: nat, next: World)
    requires Safe(w) && v < |w.workers| && next.jobs == w.jobs && next.tokens == w.tokens && v < |next.workers|
    requires next.workers == w.workers[v := next.workers[v]] && next.workers[v].job == w.workers[v].job
    requires next.workers[v].token == w.workers[v].token && (w.workers[v].phase.Done? ==> next.workers[v].phase.Done?)
    requires WorkerSafe(w.jobs[w.workers[v].job], v, next.workers[v])
    ensures Safe(next) && Moves(w, next, v)
  {
    assert JobSafe(w.jobs[w.workers[v].job]);
    WorkerStepSafe(w, v, w.jobs[w.workers[v].job], next.workers[v]);
  }

  lemma RowOnlySafe(w: World, v: nat, e: Event)
    requires Safe(w) && v < |w.workers| && (e.Heartbeat? || e.Moderate?)
    ensures Safe(WorkerNext(w, v, e)) && Moves(w, WorkerNext(w, v, e), v)
  {
    var j := w.workers[v].job;
    assert JobSafe(w.jobs[j]) && WorkerSafe(w.jobs[j], v, w.workers[v]);
    WorkerStepSafe(w, v, WorkerNext(w, v, e).jobs[j], w.workers[v]);
  }

  lemma ReconcileSafe(w: World, v: nat)
    requires Safe(w) && v < |w.workers|
    ensures Safe(WorkerNext(w, v, Reconcile(v))) && Moves(w, WorkerNext(w, v, Reconcile(v)), v)
  {
    var j := w.workers[v].job;
    assert JobSafe(w.jobs[j]) && WorkerSafe(w.jobs[j], v, w.workers[v]);
    var next := WorkerNext(w, v, Reconcile(v));
    WorkerStepSafe(w, v, next.jobs[j], next.workers[v]);
  }

  lemma CloseTaskSafe(w: World, v: nat)
    requires Safe(w) && v < |w.workers|
    ensures Safe(WorkerNext(w, v, CloseTask(v))) && Moves(w, WorkerNext(w, v, CloseTask(v)), v)
  {
    if w.workers[v].phase.Closing? {
      ClosingSafe(w, v);
    } else {
      StandStill(w, v);
    }
  }

  lemma ClosingSafe(w: World, v: nat)
    requires Safe(w) && v < |w.workers| && w.workers[v].phase.Closing?
    ensures Safe(WorkerNext(w, v, CloseTask(v))) && Moves(w, WorkerNext(w, v, CloseTask(v)), v)
  {
    var j := w.workers[v].job;
    var job := if w.jobs[j].task == Closed(Completed) then w.jobs[j] else CloseAs(w.jobs[j], Failed);
    assert JobSafe(w.jobs[j]) && WorkerSafe(w.jobs[j], v, w.workers[v]);
    WorkerStepSafe(w, v, job, w.workers[v].(phase := Done));
    ClosingMoves(w, v, job);
  }

  lemma ClosingMoves(w: World, v: nat, job: Job)
    requires Safe(w) && v < |w.workers| && w.workers[v].phase.Closing?
    requires var row := w.jobs[w.workers[v].job]; job == if row.task == Closed(Completed) then row else CloseAs(row, Failed)
    requires JobSafe(job)
    ensures var next, j := WorkerNext(w, v, CloseTask(v)), w.workers[v].job;
      && next.jobs == w.jobs[j := job] && next.workers == w.workers[v := w.workers[v].(phase := Done)]
      && Moves(w, next, v)
  {
    var j := w.workers[v].job;
    assert WorkerSafe(w.jobs[j], v, w.workers[v]) && JobSafe(w.jobs[j]);
    assert w.jobs[j := w.jobs[j]] == w.jobs;
  }

  lemma ReleaseSafe(w: World, v: nat, wait: int)
    requires Safe(w) && v < |w.workers|
    ensures Safe(WorkerNext(w, v, Release(v, wait))) && Moves(w, WorkerNext(w, v, Release(v, wait)), v)
  {
    var j := w.workers[v].job;
    assert JobSafe(w.jobs[j]) && WorkerSafe(w.jobs[j], v, w.workers[v]);
    var next := WorkerNext(w, v, Release(v, wait));
    WorkerStepSafe(w, v, next.jobs[j], next.workers[v]);
  }

  lemma EditSafe(w: World, v: nat, e: Event)
    requires Safe(w) && v < |w.workers| && (e.FenceEdit? || e.SendEdit?)
    ensures Safe(WorkerNext(w, v, e)) && Moves(w, WorkerNext(w, v, e), v)
  {
    var j := w.workers[v].job;
    assert JobSafe(w.jobs[j]) && WorkerSafe(w.jobs[j], v, w.workers[v]);
    var next := WorkerNext(w, v, e);
    WorkerStepSafe(w, v, next.jobs[j], next.workers[v]);
  }

  lemma StandStill(w: World, v: nat)
    requires Safe(w) && v < |w.workers|
    ensures Moves(w, w, v)
  {
  }

  predicate Submits(e: Event) {
    e.Fence? || e.Send? || e.Answer? || e.FenceOpaque? || e.Persist?
  }

  lemma SubmittingEventSafe(w: World, e: Event)
    requires Safe(w) && Submits(e) && e.worker < |w.workers|
    ensures Safe(WorkerNext(w, e.worker, e)) && Moves(w, WorkerNext(w, e.worker, e), e.worker)
  {
    var v := e.worker;
    var phase := w.workers[v].phase;
    StandStill(w, v);
    match e
    case Fence(_) => if phase.Preparing? { FenceSafe(w, v); }
    case Send(_) => SendSafe(w, v);
    case Answer(_, reply) =>
      if (phase.Sent? || phase.OpaqueSent?) && w.jobs[w.workers[v].job].sends != [] { AnswerSafe(w, v, reply); }
    case FenceOpaque(_) => if phase.Refused? { FenceOpaqueSafe(w, v); }
    case Persist(_, delay) => if phase.Accepted? || phase.Polled? { PersistSafe(w, v, delay); }
  }

  predicate Settles(e: Event) {
    e.ChargeRepair? || e.Complete? || e.FailGeneration?
  }

  lemma SettlingEventSafe(w: World, e: Event)
    requires Safe(w) && Settles(e) && e.worker < |w.workers|
    ensures Safe(WorkerNext(w, e.worker, e)) && Moves(w, WorkerNext(w, e.worker, e), e.worker)
  {
    var v := e.worker;
    StandStill(w, v);
    match e
    case ChargeRepair(_, step, cents, env) => if w.workers[v].phase.Produced? { ChargeRepairSafe(w, v, step, cents, env); }
    case Complete(_) => if w.workers[v].phase.Produced? { CompleteSafe(w, v); }
    case FailGeneration(_, env) => if w.workers[v].phase.Failing? { FailGenerationSafe(w, v, w.workers[v].phase.cause, env); }
  }

  lemma WorkerEventSafe(w: World, e: Event)
    requires Safe(w) && OfWorker(e) && e.worker < |w.workers|
    ensures Safe(WorkerNext(w, e.worker, e)) && Moves(w, WorkerNext(w, e.worker, e), e.worker)
  {
    var v := e.worker;
    if Submits(e) {
      SubmittingEventSafe(w, e);
    } else if Settles(e) {
      SettlingEventSafe(w, e);
    } else if MovesPhaseOnly(e) {
      PhaseOnlySafe(w, v, e);
    } else if e.Heartbeat? || e.Moderate? {
      RowOnlySafe(w, v, e);
    } else if e.FenceEdit? || e.SendEdit? {
      EditSafe(w, v, e);
    } else if e.Reconcile? {
      ReconcileSafe(w, v);
    } else if e.CloseTask? {
      CloseTaskSafe(w, v);
    } else {
      ReleaseSafe(w, v, e.wait);
    }
  }

  // What an event outside the workers may change.
  ghost predicate Surrounds(w: World, next: World) {
    && |w.jobs| <= |next.jobs| && w.workers <= next.workers && w.tokens <= next.tokens
    && (forall j :: 0 <= j < |w.jobs| ==>
          RowProgress(w.jobs[j], next.jobs[j]) && next.jobs[j].sends == w.jobs[j].sends)
    && (forall j :: 0 <= j < |next.jobs| && next.jobs[j].token.Some? ==>
          || (j < |w.jobs| && next.jobs[j].token == w.jobs[j].token)
          || (w.tokens == next.jobs[j].token.value < next.tokens))
    && (forall v :: |w.workers| <= v < |next.workers| ==> v == |w.workers| && w.tokens == next.workers[v].token < next.tokens)
  }

  lemma ExpireJobSafe(w: World, j: nat, cutoff: int, env: Env)
    requires Safe(w) && j < |w.jobs|
    ensures Safe(ExpireJobNext(w, j, cutoff, env)) && Surrounds(w, ExpireJobNext(w, j, cutoff, env))
  {
    assert JobSafe(w.jobs[j]);
    var consumed := ExpireJobShape(w, j, cutoff, env);
    RowStepSafe(w, j, ExpireJobNext(w, j, cutoff, env).jobs[j]);
  }

  lemma ExpireJobShape(w: World, j: nat, cutoff: int, env: Env) returns (consumed: int)
    requires j < |w.jobs|
    ensures var next := ExpireJobNext(w, j, cutoff, env);
      var failed := w.jobs[j].(status := Failed, consumed := consumed);
      && next.workers == w.workers && next.tokens == w.tokens
      && (next.jobs == w.jobs
          || (w.jobs[j].status.Pending?
              && next.jobs == w.jobs[j := if w.jobs[j].task.Closed? then failed else CloseAs(failed, Failed)]))
  {
    consumed := ExpireJobNext(w, j, cutoff, env).jobs[j].consumed;
  }

  lemma DispatchSafe(w: World, j: nat)
    requires Safe(w) && j < |w.jobs|
    ensures Safe(DispatchNext(w, j)) && Surrounds(w, DispatchNext(w, j))
  {
    assert JobSafe(w.jobs[j]);
    RowStepSafe(w, j, DispatchNext(w, j).jobs[j]);
  }

  lemma StartSafe(w: World, j: nat)
    requires Safe(w) && j < |w.jobs|
    ensures Safe(StartNext(w, j)) && Surrounds(w, StartNext(w, j))
  {
    assert JobSafe(w.jobs[j]);
    var started := StartNext(w, j);
    RowStepSafe(w, j, started.jobs[j]);
    NewWorkerSafe(w.(jobs := started.jobs), started);
  }

  // A new worker has done nothing yet.
  lemma NewWorkerSafe(w: World, next: World)
    requires Safe(w) && next.jobs == w.jobs && w.workers <= next.workers
    requires forall u :: |w.workers| <= u < |next.workers| ==> next.workers[u].job < |w.jobs| && next.workers[u].phase.Started?
    ensures Safe(next)
  {
    forall u | 0 <= u < |next.workers|
      ensures next.workers[u].job < |next.jobs| && WorkerSafe(next.jobs[next.workers[u].job], u, next.workers[u])
    {
      if u < |w.workers| {
        assert next.workers[u] == w.workers[u];
        assert WorkerSafe(w.jobs[w.workers[u].job], u, w.workers[u]);
      }
    }
  }

  lemma CreateShape(w: World, r: Request, env: Env)
    requires CreateTask(w, r, env).Ok?
    ensures var next := CreateTask(w, r, env).value.0;
      && next.workers == w.workers && next.tokens == w.tokens
      && (next.jobs == w.jobs || next.jobs == w.jobs + [NewJob(r, w.now)])
  {
  }

  lemma CreateSafe(w: World, r: Request, env: Env)
    requires Safe(w) && CreateTask(w, r, env).Ok?
    ensures Safe(CreateTask(w, r, env).value.0) && Surrounds(w, CreateTask(w, r, env).value.0)
  {
    var next := CreateTask(w, r, env).value.0;
    CreateShape(w, r, env);
    forall u | 0 <= u < |next.workers|
      ensures next.workers[u].job < |next.jobs| && WorkerSafe(next.jobs[next.workers[u].job], u, next.workers[u])
    {
      assert WorkerSafe(w.jobs[w.workers[u].job], u, w.workers[u]);
    }
  }

  lemma RowsUntouchedSafe(w: World, next: World)
    requires Safe(w) && next.jobs == w.jobs && next.workers == w.workers && next.tokens == w.tokens
    ensures Safe(next) && Surrounds(w, next)
  {
  }

  lemma ClaimingSafe(w: World, e: Event)
    requires Safe(w) && (e.Dispatch? || e.Start?)
    ensures Safe(Next(w, e)) && Surrounds(w, Next(w, e))
  {
    RowsUntouchedSafe(w, w);
    if e.job < |w.jobs| {
      if e.Dispatch? { DispatchSafe(w, e.job); } else { StartSafe(w, e.job); }
    }
  }

  lemma CreateEventSafe(w: World, r: Request, env: Env)
    requires Safe(w)
    ensures Safe(Next(w, Event.Create(r, env))) && Surrounds(w, Next(w, Event.Create(r, env)))
  {
    RowsUntouchedSafe(w, w);
    if CreateTask(w, r, env).Ok? { CreateSafe(w, r, env); }
  }

  lemma ExpireEventSafe(w: World, j: nat, cutoff: int, env: Env)
    requires Safe(w)
    ensures Safe(Next(w, ExpireJob(j, cutoff, env))) && Surrounds(w, Next(w, ExpireJob(j, cutoff, env)))
  {
    RowsUntouchedSafe(w, w);
    if j < |w.jobs| { ExpireJobSafe(w, j, cutoff, env); }
  }

  lemma OutsideSafe(w: World, e: Event)
    requires Safe(w) && !OfWorker(e)
    ensures Safe(Next(w, e)) && Surrounds(w, Next(w, e))
  {
    RowsUntouchedSafe(w, w);
    if e.Dispatch? || e.Start? {
      ClaimingSafe(w, e);
    } else if e.ExpireJob? {
      ExpireEventSafe(w, e.job, e.cutoff, e.env);
    } else if e.Create? {
      CreateEventSafe(w, e.request, e.env);
    } else {
      RowsUntouchedSafe(w, Next(w, e));
    }
  }

  /** Every transition keeps the invariant. */
  lemma NextSafe(w: World, e: Event)
    requires Safe(w)
    ensures Safe(Next(w, e))
    ensures OfWorker(e) && e.worker < |w.workers| ==> Moves(w, Next(w, e), e.worker)
    ensures !(OfWorker(e) && e.worker < |w.workers|) ==> Surrounds(w, Next(w, e))
  {
    if !OfWorker(e) {
      OutsideSafe(w, e);
    } else if e.worker < |w.workers| {
      WorkerEventSafe(w, e);
    }
  }

  lemma {:induction false} RunSafe(w: World, events: seq<Event>)
    requires Initial(w)
    ensures Safe(Run(w, events))
  {
    if events != [] {
      RunSafe(w, events[..|events| - 1]);
      NextSafe(Run(w, events[..|events| - 1]), events[|events| - 1]);
    }
  }

  // -------------------------------------------------------------- theorems

  function NotRejected(sends: seq<Submission>): nat {
    if sends == [] then 0 else (if sends[0].Rejected? then 0 else 1) + NotRejected(sends[1..])
  }

  lemma AllowedSendsCount(sends: seq<Submission>)
    requires SendsAllowed(sends)
    ensures |sends| <= 2 && NotRejected(sends) <= 1
  {
    if |sends| == 2 {
      assert sends[1..] == [sends[1]];
    }
  }

  /**
   * At most one submission: in every run the provider receives at most two
   * requests for a generation, and at most one of them was not rejected.
   */
  lemma AtMostOneSubmission(w: World, events: seq<Event>, j: nat)
    requires Initial(w) && j < |Run(w, events).jobs|
    ensures |Run(w, events).jobs[j].sends| <= 2
    ensures NotRejected(Run(w, events).jobs[j].sends) <= 1
  {
    RunSafe(w, events);
    ghost var r := Run(w, events);
    assert JobSafe(r.jobs[j]);
    AllowedSendsCount(r.jobs[j].sends);
  }

  /** A finished task and its generation always agree on how they ended. */
  lemma ClosedTaskAgrees(w: World, events: seq<Event>, j: nat)
    requires Initial(w) && j < |Run(w, events).jobs|
    ensures var job := Run(w, events).jobs[j];
      && (job.task.Closed? ==> job.task.final == job.status && job.status != Pending)
      && (job.status == Completed ==> job.task == Closed(Completed))
  {
    RunSafe(w, events);
    assert JobSafe(Run(w, events).jobs[j]);
  }

  lemma NextProgress(w: World, e: Event, j: nat)
    requires Safe(w) && j < |w.jobs|
    ensures j < |Next(w, e).jobs| && RowProgress(w.jobs[j], Next(w, e).jobs[j])
  {
    NextSafe(w, e);
  }

  /**
   * Completed and failed are final for generation and task, the fence has one
   * winner, and an accepted provider task keeps its identity and start time.
   */
  lemma {:induction false} RunProgress(w: World, events: seq<Event>, j: nat)
    requires Safe(w) && j < |w.jobs|
    ensures j < |Run(w, events).jobs| && RowProgress(w.jobs[j], Run(w, events).jobs[j]) && Safe(Run(w, events))
  {
    if events != [] {
      var prior := Run(w, events[..|events| - 1]);
      RunProgress(w, events[..|events| - 1], j);
      NextProgress(prior, events[|events| - 1], j);
      NextSafe(prior, events[|events| - 1]);
    }
  }

  /** Only the worker that won the fence can ever send, and only in a phase after it. */
  lemma OnlyFenceOwnerSends(w: World, e: Event, j: nat)
    requires Safe(w) && j < |w.jobs| && j < |Next(w, e).jobs| && Next(w, e).jobs[j].sends != w.jobs[j].sends
    ensures OfWorker(e) && e.worker < |w.workers| && w.workers[e.worker].job == j
    ensures w.jobs[j].owner == Some(e.worker)
    ensures w.workers[e.worker].phase in {Fenced, Sent, OpaqueFenced, OpaqueSent}
  {
    NextSafe(w, e);
  }

  lemma DoneStays(w: World, e: Event, v: nat)
    requires Safe(w) && v < |w.workers| && w.workers[v].phase.Done?
    ensures v < |Next(w, e).workers| && Next(w, e).workers[v].phase.Done?
  {
    NextSafe(w, e);
  }

  /**
   * No resubmission after a restart: once the fence owner is gone, whatever the
   * stage it left behind, no later run sends another request for the generation.
   */
  lemma {:induction false} NoSendAfterOwnerGone(w: World, events: seq<Event>, j: nat, v: nat)
    requires Safe(w) && j < |w.jobs| && v < |w.workers|
    requires w.jobs[j].owner == Some(v) && w.workers[v].phase.Done?
    ensures var later := Run(w, events);
      && j < |later.jobs| && v < |later.workers|
      && later.jobs[j].sends == w.jobs[j].sends
      && later.workers[v].phase.Done? && Safe(later) && later.jobs[j].owner == Some(v)
  {
    if events != [] {
      var last := events[|events| - 1];
      var prior := Run(w, events[..|events| - 1]);
      NoSendAfterOwnerGone(w, events[..|events| - 1], j, v);
      NextSafe(prior, last);
      NextProgress(prior, last, j);
      DoneStays(prior, last, v);
      if Next(prior, last).jobs[j].sends != prior.jobs[j].sends {
        OnlyFenceOwnerSends(prior, last, j);
      }
    }
  }

  // Phases of a worker that can only settle the failure and stop.
  predicate Ending(phase: Phase) {
    phase.Failing? || phase.Closing? || phase.Done?
  }

  lemma EndingStays(w: World, v: nat, e: Event)
    requires v < |w.workers| && w.workers[v].job < |w.jobs| && OfWorker(e) && Ending(w.workers[v].phase)
    ensures v < |WorkerNext(w, v, e).workers| && Ending(WorkerNext(w, v, e).workers[v].phase)
  {
  }

  lemma NextEnding(w: World, e: Event, v: nat)
    requires Safe(w) && v < |w.workers| && Ending(w.workers[v].phase)
    ensures v < |Next(w, e).workers| && Ending(Next(w, e).workers[v].phase)
    ensures Next(w, e).workers[v].job == w.workers[v].job
  {
    NextSafe(w, e);
    if OfWorker(e) && e.worker == v {
      EndingStays(w, v, e);
    }
  }

  lemma {:induction false} RunEnding(w: World, events: seq<Event>, v: nat)
    requires Safe(w) && v < |w.workers| && Ending(w.workers[v].phase)
    ensures var later := Run(w, events);
      && Safe(later) && v < |later.workers|
      && Ending(later.workers[v].phase) && later.workers[v].job == w.workers[v].job
  {
    if events != [] {
      var prior := Run(w, events[..|events| - 1]);
      RunEnding(w, events[..|events| - 1], v);
      NextSafe(prior, events[|events| - 1]);
      NextEnding(prior, events[|events| - 1], v);
    }
  }

  // A stored stage a restart may not go on from: a submission under way, or a
  // provider task that is too old.
  predicate Unresumable(job: Job, now: int) {
    !job.stage.NoStage? && (job.stage.Polling? ==> job.stage.providerId == "" || now - job.stage.startedAt >= POLLING_LIMIT)
  }

  /**
   * A restart that finds an interrupted submission never sends: in every later run
   * the worker that read the stage only ever settles the failure and stops, and no
   * event of it changes what the provider received, for this generation or another.
   */
  lemma InterruptedNeverSends(w: World, v: nat, events: seq<Event>, e: Event)
    requires Safe(w) && v < |w.workers| && w.workers[v].phase.StatusRead?
    requires Unresumable(w.jobs[w.workers[v].job], w.now)
    ensures var later := Run(Next(w, ReadStage(v)), events);
      && v < |later.workers| && Ending(later.workers[v].phase)
      && (OfWorker(e) && e.worker == v ==>
            forall j :: 0 <= j < |later.jobs| ==> j < |Next(later, e).jobs| && Next(later, e).jobs[j].sends == later.jobs[j].sends)
  {
    NextSafe(w, ReadStage(v));
    RunEnding(Next(w, ReadStage(v)), events, v);
    var later := Run(Next(w, ReadStage(v)), events);
    if OfWorker(e) && e.worker == v {
      NextSafe(later, e);
    }
  }

  // ---------------------------------------------------------------- claims

  // The next token drawn is new to every worker.
  ghost predicate TokensFresh(w: World) {
    forall v :: 0 <= v < |w.workers| ==> w.workers[v].token < w.tokens
  }

  // Claims are told apart by their tokens.
  ghost predicate TokensDistinct(w: World) {
    && TokensFresh(w)
    && (forall j :: 0 <= j < |w.jobs| && w.jobs[j].token.Some? ==> w.jobs[j].token.value < w.tokens)
    && (forall u, v :: 0 <= u < v < |w.workers| ==> w.workers[u].token != w.workers[v].token)
  }

  lemma NextTokens(w: World, e: Event)
    requires Safe(w) && TokensDistinct(w)
    ensures TokensDistinct(Next(w, e))
  {
    NextSafe(w, e);
    if OfWorker(e) && e.worker < |w.workers| {
      MovesTokens(w, Next(w, e), e.worker);
    } else {
      SurroundsTokens(w, Next(w, e));
    }
  }

  lemma MovesTokens(w: World, next: World, v: nat)
    requires TokensDistinct(w) && Moves(w, next, v)
    ensures TokensDistinct(next)
  {
  }

  lemma SurroundsTokens(w: World, next: World)
    requires TokensDistinct(w) && Surrounds(w, next)
    ensures TokensDistinct(next)
  {
  }

  /** At most one worker holds the claim of a task, so at most one can persist, complete or settle it. */
  lemma {:induction false} OneHolder(w: World, events: seq<Event>)
    requires Initial(w)
    ensures TokensDistinct(Run(w, events))
    ensures var r := Run(w, events);
      forall j, u, v ::
        (0 <= j < |r.jobs| && 0 <= u < |r.workers| && 0 <= v < |r.workers| && HoldsClaim(r, u, j) && HoldsClaim(r, v, j))
        ==> u == v
  {
    if events != [] {
      OneHolder(w, events[..|events| - 1]);
      RunSafe(w, events[..|events| - 1]);
      NextTokens(Run(w, events[..|events| - 1]), events[|events| - 1]);
    }
  }
}
