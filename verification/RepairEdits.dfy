/**
 * Repair edits: each step of a generation is sent to the provider at most once,
 * whatever workers, crashes and lapsed claims do, and only sent steps are charged.
 */
module RepairEdits {
  import opened Prelude
  import opened ImageTasks
  import Ledger
  import Submission

  // ------------------------------------------------------------- invariant

  // A step was sent at most once, only after its receipt, and before its charge.
  ghost predicate RowEdits(job: Job) {
    && (forall step :: job.edits[step] <= 1)
    && (forall step :: step in job.edits ==> step in job.attempts)
    && (forall step :: step in job.repairs ==> step in job.edits)
  }

  // A worker's fenced steps have a receipt, and it knows which of them it sent.
  ghost predicate WorkerEdits(job: Job, worker: Worker) {
    forall step :: step in worker.edits ==> step in job.attempts && (worker.edits[step] <==> step in job.edits)
  }

  // The fence of a step has one winner.
  ghost predicate FencedApart(u: Worker, v: Worker) {
    u.job == v.job ==> forall step :: step in u.edits ==> step !in v.edits
  }

  ghost predicate EditsSafe(w: World) {
    && (forall j :: 0 <= j < |w.jobs| ==> RowEdits(w.jobs[j]))
    && (forall v :: 0 <= v < |w.workers| ==> w.workers[v].job < |w.jobs| && WorkerEdits(w.jobs[w.workers[v].job], w.workers[v]))
    && (forall u, v :: 0 <= u < v < |w.workers| ==> FencedApart(w.workers[u], w.workers[v]))
  }

  // -------------------------------------------------------- other events

  predicate EditEvent(e: Event) {
    e.FenceEdit? || e.SendEdit? || e.ChargeRepair?
  }

  predicate SameEdits(before: Job, after: Job) {
    after.attempts == before.attempts && after.edits == before.edits && after.repairs == before.repairs
  }

  // An event that leaves receipts, edits and fenced steps alone.
  ghost predicate EditsUntouched(w: World, next: World) {
    && |w.jobs| <= |next.jobs| && |w.workers| <= |next.workers|
    && (forall j :: 0 <= j < |w.jobs| ==> SameEdits(w.jobs[j], next.jobs[j]))
    && (forall j :: |w.jobs| <= j < |next.jobs| ==>
          next.jobs[j].attempts == {} && next.jobs[j].repairs == {} && next.jobs[j].edits == multiset{})
    && (forall v :: 0 <= v < |w.workers| ==>
          next.workers[v].job == w.workers[v].job && next.workers[v].edits == w.workers[v].edits)
    && (forall v :: |w.workers| <= v < |next.workers| ==> next.workers[v].job < |next.jobs| && next.workers[v].edits == map[])
  }

  lemma UntouchedStaysSafe(w: World, next: World)
    requires EditsSafe(w) && EditsUntouched(w, next)
    ensures EditsSafe(next)
  {
    forall j | 0 <= j < |next.jobs| ensures RowEdits(next.jobs[j]) {
      assert j < |w.jobs| ==> RowEdits(w.jobs[j]) && SameEdits(w.jobs[j], next.jobs[j]);
    }
    forall v | 0 <= v < |next.workers|
      ensures next.workers[v].job < |next.jobs| && WorkerEdits(next.jobs[next.workers[v].job], next.workers[v])
    {
      assert v < |w.workers| ==> WorkerEdits(w.jobs[w.workers[v].job], w.workers[v]);
    }
    forall u, v | 0 <= u < v < |next.workers| ensures FencedApart(next.workers[u], next.workers[v]) {
      assert v < |w.workers| ==> FencedApart(w.workers[u], w.workers[v]);
    }
  }

  // What an event of a worker leaves alone on its own row and in its own state.
  predicate OwnEditsKept(w: World, next: World, v: nat)
    requires v < |w.workers| && w.workers[v].job < |w.jobs|
  {
    && v < |next.workers| && w.workers[v].job < |next.jobs|
    && SameEdits(w.jobs[w.workers[v].job], next.jobs[w.workers[v].job])
    && next.workers[v].edits == w.workers[v].edits
  }

  lemma OwnKeptUntouched(w: World, next: World, v: nat)
    requires Submission.Safe(w) && Submission.Moves(w, next, v) && OwnEditsKept(w, next, v)
    ensures EditsUntouched(w, next)
  {
  }

  lemma SubmissionKeepsEdits(w: World, v: nat, e: Event)
    requires v < |w.workers| && w.workers[v].job < |w.jobs| && Submission.Submits(e)
    ensures OwnEditsKept(w, WorkerNext(w, v, e), v)
  {
  }

  predicate ClosingEvent(e: Event) {
    e.Complete? || e.FailGeneration?
  }

  lemma ClosingKeepsEdits(w: World, v: nat, e: Event)
    requires v < |w.workers| && w.workers[v].job < |w.jobs| && ClosingEvent(e)
    ensures OwnEditsKept(w, WorkerNext(w, v, e), v)
  {
    if e.FailGeneration? && w.workers[v].phase.Failing? {
      FailureKeepsEdits(w, v, w.workers[v].phase.cause, e.env);
    }
  }

  lemma FailureKeepsEdits(w: World, v: nat, cause: Cause, env: Ledger.Env)
    requires v < |w.workers| && w.workers[v].job < |w.jobs|
    ensures OwnEditsKept(w, FailGenerationNext(w, v, cause, env), v)
  {
  }

  lemma PhaseKeepsEdits(w: World, v: nat, e: Event)
    requires v < |w.workers| && w.workers[v].job < |w.jobs| && MovesPhaseOnly(e)
    ensures OwnEditsKept(w, WorkerNext(w, v, e), v)
  {
  }

  lemma RowKeepsEdits(w: World, v: nat, e: Event)
    requires v < |w.workers| && w.workers[v].job < |w.jobs|
    requires e.Heartbeat? || e.Moderate? || e.Reconcile? || e.CloseTask? || e.Release?
    ensures OwnEditsKept(w, WorkerNext(w, v, e), v)
  {
    if e.Reconcile? || e.CloseTask? || e.Release? {
      LeavingKeepsEdits(w, v, e);
    }
  }

  lemma LeavingKeepsEdits(w: World, v: nat, e: Event)
    requires v < |w.workers| && w.workers[v].job < |w.jobs| && (e.Reconcile? || e.CloseTask? || e.Release?)
    ensures OwnEditsKept(w, WorkerNext(w, v, e), v)
  {
  }

  lemma CreateKeepsEdits(w: World, r: Request, env: Ledger.Env)
    ensures CreateTask(w, r, env).Ok? ==> EditsUntouched(w, CreateTask(w, r, env).value.0)
  {
  }

  lemma ExpireKeepsEdits(w: World, j: nat, cutoff: int, env: Ledger.Env)
    requires j < |w.jobs|
    ensures EditsUntouched(w, ExpireJobNext(w, j, cutoff, env))
  {
  }

  lemma DispatchKeepsEdits(w: World, j: nat)
    requires j < |w.jobs|
    ensures EditsUntouched(w, DispatchNext(w, j))
  {
  }

  lemma StartKeepsEdits(w: World, j: nat)
    requires j < |w.jobs|
    ensures EditsUntouched(w, StartNext(w, j))
  {
  }

  lemma ClaimingKeepsEdits(w: World, e: Event)
    requires !OfWorker(e) && !e.Create? && !e.ExpireJob?
    ensures EditsUntouched(w, Next(w, e))
  {
    if e.Dispatch? && e.job < |w.jobs| {
      DispatchKeepsEdits(w, e.job);
    } else if e.Start? && e.job < |w.jobs| {
      StartKeepsEdits(w, e.job);
    } else {
      assert Next(w, e).jobs == w.jobs && Next(w, e).workers == w.workers;
    }
  }

  lemma OutsideKeepsEdits(w: World, e: Event)
    requires !OfWorker(e)
    ensures EditsUntouched(w, Next(w, e))
  {
    if e.Create? {
      CreateKeepsEdits(w, e.request, e.env);
    } else if !e.ExpireJob? {
      ClaimingKeepsEdits(w, e);
    } else if e.job < |w.jobs| {
      ExpireKeepsEdits(w, e.job, e.cutoff, e.env);
    }
  }

  // --------------------------------------------------------------- edits

  /** One row and one of its workers change together. */
  lemma EditStepSafe(w: World, v: nat, job: Job, worker: Worker, next: World)
    requires EditsSafe(w) && v < |w.workers| && worker.job == w.workers[v].job
    requires next.jobs == w.jobs[worker.job := job] && next.workers == w.workers[v := worker]
    requires RowEdits(job) && WorkerEdits(job, worker)
    requires forall u :: 0 <= u < |w.workers| && u != v && w.workers[u].job == worker.job ==>
               WorkerEdits(job, w.workers[u]) && FencedApart(w.workers[u], worker) && FencedApart(worker, w.workers[u])
    ensures EditsSafe(next)
  {
    forall a, b | 0 <= a < b < |next.workers| ensures FencedApart(next.workers[a], next.workers[b]) {
      assert FencedApart(w.workers[a], w.workers[b]);
    }
  }

  lemma FenceEditSafe(w: World, v: nat, step: string)
    requires EditsSafe(w) && v < |w.workers|
    ensures EditsSafe(FenceEditNext(w, v, step))
  {
    var next, j := FenceEditNext(w, v, step), w.workers[v].job;
    assert RowEdits(w.jobs[j]) && WorkerEdits(w.jobs[j], w.workers[v]);
    if next != w {
      forall u | 0 <= u < |w.workers| && u != v && w.workers[u].job == j
        ensures WorkerEdits(next.jobs[j], w.workers[u])
        ensures FencedApart(w.workers[u], next.workers[v]) && FencedApart(next.workers[v], w.workers[u])
      {
        assert WorkerEdits(w.jobs[j], w.workers[u]);
        assert FencedApart(w.workers[if u < v then u else v], w.workers[if u < v then v else u]);
      }
      EditStepSafe(w, v, next.jobs[j], next.workers[v], next);
    }
  }

  lemma SendEditSafe(w: World, v: nat, step: string)
    requires EditsSafe(w) && v < |w.workers|
    ensures EditsSafe(SendEditNext(w, v, step))
  {
    var next, j := SendEditNext(w, v, step), w.workers[v].job;
    assert RowEdits(w.jobs[j]) && WorkerEdits(w.jobs[j], w.workers[v]);
    if next != w {
      forall u | 0 <= u < |w.workers| && u != v && w.workers[u].job == j
        ensures WorkerEdits(next.jobs[j], w.workers[u])
        ensures FencedApart(w.workers[u], next.workers[v]) && FencedApart(next.workers[v], w.workers[u])
      {
        assert WorkerEdits(w.jobs[j], w.workers[u]);
        assert FencedApart(w.workers[if u < v then u else v], w.workers[if u < v then v else u]);
      }
      EditStepSafe(w, v, next.jobs[j], next.workers[v], next);
    }
  }

  lemma ChargeRepairRow(w: World, v: nat, step: string, cents: nat, env: Ledger.Env) returns (consumed: int)
    requires v < |w.workers| && w.workers[v].job < |w.jobs|
    ensures var next, j := ChargeRepairNext(w, v, step, cents, env), w.workers[v].job;
      && next.workers == w.workers
      && (next.jobs == w.jobs
          || (Chargeable(w, v, step, cents)
              && next.jobs == w.jobs[j := w.jobs[j].(consumed := consumed, repairs := w.jobs[j].repairs + {step})]))
  {
    consumed := ChargeRepairNext(w, v, step, cents, env).jobs[w.workers[v].job].consumed;
  }

  lemma ChargeRepairEdits(w: World, v: nat, step: string, cents: nat, env: Ledger.Env)
    requires EditsSafe(w) && v < |w.workers|
    ensures EditsSafe(ChargeRepairNext(w, v, step, cents, env))
  {
    var j := w.workers[v].job;
    var next := ChargeRepairNext(w, v, step, cents, env);
    var consumed := ChargeRepairRow(w, v, step, cents, env);
    assert RowEdits(w.jobs[j]) && WorkerEdits(w.jobs[j], w.workers[v]);
    if next.jobs != w.jobs {
      var job := w.jobs[j].(consumed := consumed, repairs := w.jobs[j].repairs + {step});
      forall u | 0 <= u < |w.workers| && u != v && w.workers[u].job == j
        ensures WorkerEdits(job, w.workers[u])
        ensures FencedApart(w.workers[u], w.workers[v]) && FencedApart(w.workers[v], w.workers[u])
      {
        assert WorkerEdits(w.jobs[j], w.workers[u]);
        assert FencedApart(w.workers[if u < v then u else v], w.workers[if u < v then v else u]);
      }
      EditStepSafe(w, v, job, w.workers[v], next);
    }
  }

  lemma EditEventSafe(w: World, e: Event)
    requires EditsSafe(w) && EditEvent(e) && e.worker < |w.workers|
    ensures EditsSafe(Next(w, e))
  {
    var v := e.worker;
    if !w.workers[v].phase.Produced? {
      assert Next(w, e) == w;
    } else if e.FenceEdit? {
      FenceEditSafe(w, v, e.step);
    } else if e.SendEdit? {
      SendEditSafe(w, v, e.step);
    } else {
      ChargeRepairEdits(w, v, e.step, e.cents, e.env);
    }
  }

  lemma NextEditsSafe(w: World, e: Event)
    requires EditsSafe(w) && Submission.Safe(w)
    ensures EditsSafe(Next(w, e))
  {
    if !OfWorker(e) {
      OutsideKeepsEdits(w, e);
      UntouchedStaysSafe(w, Next(w, e));
    } else if e.worker < |w.workers| {
      if EditEvent(e) {
        EditEventSafe(w, e);
      } else {
        WorkerKeepsEdits(w, e.worker, e);
        UntouchedStaysSafe(w, Next(w, e));
      }
    }
  }

  lemma WorkerKeepsEdits(w: World, v: nat, e: Event)
    requires Submission.Safe(w) && v < |w.workers| && OfWorker(e) && e.worker == v && !EditEvent(e)
    ensures EditsUntouched(w, Next(w, e))
  {
    Submission.NextSafe(w, e);
    if Submission.Submits(e) {
      SubmissionKeepsEdits(w, v, e);
    } else if ClosingEvent(e) {
      ClosingKeepsEdits(w, v, e);
    } else if MovesPhaseOnly(e) {
      PhaseKeepsEdits(w, v, e);
    } else {
      RowKeepsEdits(w, v, e);
    }
    OwnKeptUntouched(w, Next(w, e), v);
  }

  lemma {:induction false} RunEditsSafe(w: World, events: seq<Event>)
    requires Initial(w)
    ensures EditsSafe(Run(w, events))
  {
    if events != [] {
      RunEditsSafe(w, events[..|events| - 1]);
      Submission.RunSafe(w, events[..|events| - 1]);
      NextEditsSafe(Run(w, events[..|events| - 1]), events[|events| - 1]);
    }
  }

  // -------------------------------------------------------------- theorems

  /**
   * In every run each repair step of a generation is sent to the provider at most
   * once, and a step that was charged was sent.
   */
  lemma EditSentAtMostOnce(w: World, events: seq<Event>, j: nat, step: string)
    requires Initial(w) && j < |Run(w, events).jobs|
    ensures var job := Run(w, events).jobs[j];
      job.edits[step] <= 1 && (step in job.repairs ==> job.edits[step] == 1)
  {
    RunEditsSafe(w, events);
    assert RowEdits(Run(w, events).jobs[j]);
  }

  lemma OnlySendingSends(w: World, e: Event, j: nat)
    requires Submission.Safe(w) && j < |w.jobs| && !e.SendEdit?
    ensures j < |Next(w, e).jobs| && Next(w, e).jobs[j].edits == w.jobs[j].edits
  {
    if !OfWorker(e) {
      OutsideKeepsEdits(w, e);
    } else if e.worker < |w.workers| {
      if e.ChargeRepair? {
        ChargeSendsNothing(w, e, j);
      } else if e.FenceEdit? {
        FencingSendsNothing(w, e, j);
      } else {
        WorkerKeepsEdits(w, e.worker, e);
      }
    }
  }

  lemma ChargeSendsNothing(w: World, e: Event, j: nat)
    requires e.ChargeRepair? && e.worker < |w.workers| && w.workers[e.worker].job < |w.jobs| && j < |w.jobs|
    ensures j < |Next(w, e).jobs| && Next(w, e).jobs[j].edits == w.jobs[j].edits
  {
    ChargeEvent(w, e);
    var consumed := ChargeRepairRow(w, e.worker, e.step, e.cents, e.env);
  }

  lemma ChargeEvent(w: World, e: Event)
    requires e.ChargeRepair? && e.worker < |w.workers| && w.workers[e.worker].job < |w.jobs|
    ensures Next(w, e) == w || Next(w, e) == ChargeRepairNext(w, e.worker, e.step, e.cents, e.env)
  {
  }

  lemma FencingSendsNothing(w: World, e: Event, j: nat)
    requires e.FenceEdit? && e.worker < |w.workers| && w.workers[e.worker].job < |w.jobs| && j < |w.jobs|
    ensures j < |Next(w, e).jobs| && Next(w, e).jobs[j].edits == w.jobs[j].edits
  {
  }

  /** A step is only ever sent by the worker that fenced it, and only while it was not sent yet. */
  lemma OnlyFencerSends(w: World, e: Event, j: nat, step: string)
    requires EditsSafe(w) && Submission.Safe(w) && j < |w.jobs| && j < |Next(w, e).jobs|
    ensures || Next(w, e).jobs[j].edits[step] == w.jobs[j].edits[step]
            || (&& e.SendEdit? && e.step == step && e.worker < |w.workers| && w.workers[e.worker].job == j
                && step in w.workers[e.worker].edits && step !in w.jobs[j].edits)
  {
    if e.SendEdit? {
      if e.worker < |w.workers| {
        assert WorkerEdits(w.jobs[w.workers[e.worker].job], w.workers[e.worker]);
      }
    } else {
      OnlySendingSends(w, e, j);
    }
  }
}
