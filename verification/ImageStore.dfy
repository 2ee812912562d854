/**
 * The image task transactions as the service runs them: statement by statement
 * over the shared rows, each restoring what it wrote when it fails.
 */
module ImageStore {
  import opened Prelude
  import opened Ledger
  import opened IT = ImageTasks
  import CreditStore
  import RepairEdits
  import Settlement
  import Submission

  // A settled generation of one timeout sweep.
  datatype ExpiryDetail = ExpiryDetail(job: nat, refunded: int)

  // One generation of a timeout sweep.
  datatype Visit = Visit(job: nat, env: Env)

  /** The system after a sweep over the listed generations. */
  function Sweep(w: World, visits: seq<Visit>, cutoff: int): World {
    if visits == [] then w
    else ExpireOne(Sweep(w, visits[..|visits| - 1], cutoff), visits[|visits| - 1], cutoff)
  }

  function ExpireOne(w: World, visit: Visit, cutoff: int): World {
    if visit.job < |w.jobs| then ExpireJobNext(w, visit.job, cutoff, visit.env) else w
  }

  function ExpiryEvents(visits: seq<Visit>, cutoff: int): seq<Event> {
    seq(|visits|, k requires 0 <= k < |visits| => ExpireJob(visits[k].job, cutoff, visits[k].env))
  }

  lemma NextExpires(w: World, visit: Visit, cutoff: int)
    ensures Next(w, ExpireJob(visit.job, cutoff, visit.env)) == ExpireOne(w, visit, cutoff)
  {
  }

  /** A sweep is a run of the protocol. */
  lemma {:induction false} SweepIsRun(w: World, visits: seq<Visit>, cutoff: int)
    ensures Sweep(w, visits, cutoff) == Run(w, ExpiryEvents(visits, cutoff))
  {
    if visits != [] {
      var n := |visits| - 1;
      SweepIsRun(w, visits[..n], cutoff);
      NextExpires(Run(w, ExpiryEvents(visits[..n], cutoff)), visits[n], cutoff);
      assert ExpiryEvents(visits, cutoff)[..n] == ExpiryEvents(visits[..n], cutoff);
    }
  }

  predicate Overdue(job: Job, cutoff: int) {
    job.status.Pending? && job.created < cutoff
  }

  // ---------------------------------------------------------- invariants

  // What every run of the protocol keeps: submission and edit safety, and settled books.
  ghost predicate Healthy(w: World) {
    Submission.Safe(w) && RepairEdits.EditsSafe(w) && Settlement.WorldSettled(w)
  }

  lemma NextHealthy(w: World, e: Event)
    requires Healthy(w)
    ensures Healthy(Next(w, e))
  {
    Submission.NextSafe(w, e);
    RepairEdits.NextEditsSafe(w, e);
    Settlement.NextSettled(w, e);
  }

  /** In every run of the protocol the rows are healthy. */
  lemma {:induction false} RunHealthy(w: World, events: seq<Event>)
    requires Initial(w)
    ensures Healthy(Run(w, events))
  {
    Submission.RunSafe(w, events);
    RepairEdits.RunEditsSafe(w, events);
    Settlement.RunSettled(w, events);
  }

  lemma CreationHealthy(w: World, r: Request, env: Env)
    requires Healthy(w) && WellFormed(r)
    ensures CreateTask(w, r, env).Ok? ==> Healthy(CreateTask(w, r, env).value.0)
  {
    NextHealthy(w, Create(r, env));
  }

  lemma ExpiryHealthy(w: World, visit: Visit, cutoff: int)
    requires Healthy(w)
    ensures Healthy(ExpireOne(w, visit, cutoff))
  {
    NextExpires(w, visit, cutoff);
    NextHealthy(w, ExpireJob(visit.job, cutoff, visit.env));
  }

  lemma SubmissionHealthy(w: World, v: nat, delay: int)
    requires Healthy(w) && v < |w.workers| && w.workers[v].job < |w.jobs|
    ensures w.workers[v].phase.Preparing? ==> Healthy(FenceNext(w, v))
    ensures w.workers[v].phase.Accepted? || w.workers[v].phase.Polled? ==> Healthy(PersistNext(w, v, delay))
  {
    SubmissionTransitions(w, v, delay);
    NextHealthy(w, Fence(v));
    NextHealthy(w, Persist(v, delay));
  }

  lemma EditHealthy(w: World, v: nat, step: string)
    requires Healthy(w) && v < |w.workers| && w.workers[v].job < |w.jobs| && w.workers[v].phase.Produced?
    ensures Healthy(FenceEditNext(w, v, step))
  {
    EditTransition(w, v, step);
    NextHealthy(w, FenceEdit(v, step));
  }

  lemma RepairHealthy(w: World, v: nat, step: string, cents: nat, env: Env)
    requires Healthy(w) && v < |w.workers| && w.workers[v].job < |w.jobs| && w.workers[v].phase.Produced?
    ensures Healthy(ChargeRepairNext(w, v, step, cents, env))
  {
    RepairTransition(w, v, step, cents, env);
    NextHealthy(w, ChargeRepair(v, step, cents, env));
  }

  lemma CompletionHealthy(w: World, v: nat)
    requires Healthy(w) && v < |w.workers| && w.workers[v].job < |w.jobs| && w.workers[v].phase.Produced?
    ensures Healthy(CompleteNext(w, v))
  {
    CompletionTransition(w, v);
    NextHealthy(w, Complete(v));
  }

  lemma FailureHealthy(w: World, v: nat, env: Env)
    requires Healthy(w) && v < |w.workers| && w.workers[v].job < |w.jobs| && w.workers[v].phase.Failing?
    ensures Healthy(FailGenerationNext(w, v, w.workers[v].phase.cause, env))
  {
    FailureTransition(w, v, env);
    NextHealthy(w, FailGeneration(v, env));
  }

  class Store {
    const credits: CreditStore.Store
    var now: int
    var keys: map<string, Key>
    var limits: map<string, int>
    var jobs: seq<Job>
    var workers: seq<Worker>
    var tokens: nat

    ghost function View(): World
      reads this, credits
    {
      World(now, credits.View(), keys, limits, jobs, workers, tokens)
    }

    constructor (credits: CreditStore.Store, now: int, keys: map<string, Key>, limits: map<string, int>)
      ensures this.credits == credits
      ensures View() == World(now, credits.View(), keys, limits, [], [], 0)
    {
      this.credits, this.now, this.keys, this.limits := credits, now, keys, limits;
      jobs, workers, tokens := [], [], 0;
    }

    method Restore(saved: Tables, savedKeys: map<string, Key>, savedJobs: seq<Job>)
      modifies this`keys, this`jobs, credits
      ensures credits.View() == saved && keys == savedKeys && jobs == savedJobs
    {
      credits.wallets, credits.batches, credits.entries, credits.operations :=
        saved.wallets, saved.batches, saved.entries, saved.operations;
      keys, jobs := savedKeys, savedJobs;
    }

    /** Charges the wallet, and the key unless the charge is a replay. */
    method ChargeTx(r: Request, keyId: string, created: int, cents: nat, ref: string, env: Env)
      returns (charged: Result<bool, CreditError>)
      modifies this`keys, credits
      ensures match Charge(old(Books(credits.View(), keys)), r, keyId, created, cents, ref, env)
        case Ok(done) => charged == Ok(done.1) && Books(credits.View(), keys) == done.0
        case Err(error) => charged == Err(error)
    {
      var wallet := credits.LockWallet(r.user, env.now, env.requestId);
      var receipt :- credits.ConsumeCreditTx(wallet, ChargeMutation(r, created, cents, ref), env);
      if !receipt.replayed && keyId != "" {
        var _ :- ChargeKeyTx(keyId, r.user, cents);
      }
      return Ok(receipt.replayed);
    }

    /** Adds to a key's used credits within its limit. */
    method ChargeKeyTx(keyId: string, user: string, cents: nat) returns (charged: Result<(), CreditError>)
      modifies this`keys
      ensures match ChargeKey(old(keys), keyId, user, cents)
        case Ok(after) => charged == Ok(()) && keys == after
        case Err(error) => charged == Err(error) && keys == old(keys)
    {
      if keyId !in keys || keys[keyId].user != user || !keys[keyId].active
         || (keys[keyId].limit.Some? && keys[keyId].used + cents > keys[keyId].limit.value) {
        return Err(InsufficientCredits);
      }
      keys := keys[keyId := keys[keyId].(used := keys[keyId].used + cents)];
      return Ok(());
    }

    /** Refunds the wallet, and the bound key unless the refund is a replay. */
    method ReturnTx(r: Request, created: int, cents: nat, ref: string, env: Env) returns (returned: Result<(), CreditError>)
      modifies this`keys, credits
      ensures match Return(old(Books(credits.View(), keys)), r, created, cents, ref, env)
        case Ok(books) => returned == Ok(()) && Books(credits.View(), keys) == books
        case Err(error) => returned == Err(error)
    {
      var wallet := credits.LockWallet(r.user, env.now, env.requestId);
      var receipt :- credits.GrantCreditTx(wallet, RefundMutation(r, created, cents, ref), env);
      if !receipt.replayed {
        ReturnToKeyTx(r.keyId, r.user, cents);
      }
      return Ok(());
    }

    /** Takes credits back off a key, never below zero. */
    method ReturnToKeyTx(keyId: string, user: string, cents: nat)
      modifies this`keys
      ensures keys == ReturnToKey(old(keys), keyId, user, cents)
    {
      if keyId != "" && keyId in keys && keys[keyId].user == user {
        keys := keys[keyId := keys[keyId].(used := Max(0, keys[keyId].used - cents))];
      }
    }

    /** Refunds what a failed generation does not keep and closes its row. */
    method SettleTx(j: nat, cause: Option<Cause>, suffix: string, env: Env) returns (settled: Result<(), CreditError>)
      requires j < |jobs|
      modifies this`keys, this`jobs, credits
      ensures match SettleFailure(old(Books(credits.View(), keys)), old(jobs[j]), cause, suffix, env)
        case Ok(done) => settled == Ok(()) && Books(credits.View(), keys) == done.0 && jobs == old(jobs)[j := done.1]
        case Err(error) => settled == Err(error)
    {
      var job := jobs[j];
      var retained := Retained(cause, job.consumed, job.request.quote, job.moderated);
      var cents := job.consumed - retained;
      var _ :- RefundTx(job.request, job.created, cents, job.request.generationId + suffix, env);
      CloseFailed(j, retained);
      return Ok(());
    }

    /** Refunds unless there is nothing to refund. */
    method RefundTx(r: Request, created: int, cents: int, ref: string, env: Env) returns (refunded: Result<(), CreditError>)
      modifies this`keys, credits
      ensures match IT.RefundRest(old(Books(credits.View(), keys)), r, created, cents, ref, env)
        case Ok(books) => refunded == Ok(()) && Books(credits.View(), keys) == books
        case Err(error) => refunded == Err(error)
    {
      if cents > 0 {
        refunded := ReturnTx(r, created, cents, ref, env);
      } else {
        refunded := Ok(());
      }
    }

    /** Marks a generation failed with the credits it keeps. */
    method CloseFailed(j: nat, retained: int)
      requires j < |jobs|
      modifies this`jobs
      ensures jobs == old(jobs)[j := old(jobs[j]).(status := Failed, consumed := retained)]
    {
      jobs := jobs[j := jobs[j].(status := Failed, consumed := retained)];
    }

    /** Scans the rows that share an identifier with the request. */
    method ExistingImageTask(r: Request) returns (existing: Result<Option<nat>, CreateError>)
      ensures existing == ExistingTask(jobs, |jobs|, r)
    {
      var response: Option<nat> := None;
      var k := 0;
      while k < |jobs|
        invariant 0 <= k <= |jobs|
        invariant ExistingTask(jobs, k, r) == Ok(response)
      {
        if Matches(jobs[k], r) {
          if response.Some? || !SameRequest(jobs[k], r) {
            ConflictPersists(jobs, k + 1, |jobs|, r);
            return Err(Conflict);
          }
          response := Some(k);
        }
        k := k + 1;
      }
      return Ok(response);
    }

    /** Inserts, charges and queues one task, all or nothing. */
    method EnqueueTx(r: Request, env: Env) returns (queued: Result<(), CreditError>)
      modifies this`keys, this`jobs, credits
      ensures match Enqueue(old(View()), r, env)
        case Ok(after) => queued == Ok(()) && View() == after
        case Err(error) => queued == Err(error) && View() == old(View())
    {
      var saved := Tables(credits.wallets, credits.batches, credits.entries, credits.operations);
      var savedKeys, savedJobs := keys, jobs;
      jobs := jobs + [NewJob(r, now)];
      var charged := ChargeTx(r, r.keyId, now, r.quote.amount, r.generationId, env.(now := now));
      if charged.Err? {
        Restore(saved, savedKeys, savedJobs);
        return Err(charged.error);
      }
      return Ok(());
    }

    /** Creates one task, or returns the task of an identical request. */
    method CreateImageTask(r: Request, env: Env) returns (created: Result<nat, CreateError>)
      modifies this`keys, this`jobs, credits
      ensures match CreateTask(old(View()), r, env)
        case Ok(done) => View() == done.0 && created == Ok(done.1)
        case Err(error) => View() == old(View()) && created == Err(error)
      ensures old(Healthy(View())) && WellFormed(r) ==> Healthy(View())
    {
      ghost var before := View();
      if Healthy(before) && WellFormed(r) { CreationHealthy(before, r, env); }
      var existing :- ExistingImageTask(r);
      if existing.Some? {
        return Ok(existing.value);
      }
      if UnfinishedCount(jobs, r.user) >= (if r.user in limits then limits[r.user] else DEFAULT_CONCURRENCY) {
        return Err(TooManyTasks);
      }
      var j := |jobs|;
      var queued := EnqueueTx(r, env);
      if queued.Err? {
        return Err(NotCharged(queued.error));
      }
      return Ok(j);
    }

    /** Passes the submission fence for a worker whose claim is live; sends nothing yet. */
    method FenceSubmission(v: nat) returns (won: bool)
      requires v < |workers| && workers[v].job < |jobs|
      modifies this`jobs, this`workers
      ensures View() == FenceNext(old(View()), v)
      ensures won <==> workers[v].phase.Fenced?
      ensures old(Healthy(View()) && workers[v].phase.Preparing?) ==> Healthy(View())
    {
      ghost var before := View();
      if Healthy(before) { SubmissionHealthy(before, v, 0); }
      var worker := workers[v];
      var job := jobs[worker.job];
      won := job.status.Pending? && job.stage.NoStage? && job.token == Some(worker.token) && job.claimExpires > now;
      if won {
        jobs := jobs[worker.job := job.(stage := Submitting(now), owner := Some(v))];
        worker := worker.(startedAt := now);
      }
      workers := workers[v := worker.(phase := if won then Fenced else Done)];
    }

    /** Stores an accepted provider task and gives up the claim until its next poll. */
    method PersistPending(v: nat, delay: int) returns (persisted: bool)
      requires v < |workers| && workers[v].job < |jobs|
      requires workers[v].phase.Accepted? || workers[v].phase.Polled?
      modifies this`jobs, this`workers
      ensures View() == PersistNext(old(View()), v, delay)
      ensures persisted <==> workers[v].phase.Done?
      ensures old(Healthy(View())) ==> Healthy(View())
    {
      ghost var before := View();
      if Healthy(before) { SubmissionHealthy(before, v, delay); }
      var worker := workers[v];
      var job := jobs[worker.job];
      if job.task.Closed? || job.token != Some(worker.token) || job.claimExpires <= now || !job.status.Pending? {
        workers := workers[v := worker.(phase := Failing(OtherFailure))];
        return false;
      }
      var failures := if worker.phase.Polled? then worker.phase.failures else 0;
      job := job.(stage := Polling(worker.phase.providerId, worker.startedAt, failures));
      job := job.(task := Running, token := None, due := Some(now + (if delay < 1 then 1 else delay)));
      jobs := jobs[worker.job := job];
      workers := workers[v := worker.(phase := Done)];
      return true;
    }

    /** Charges one finished repair step under the generation's operation and adds its receipt. */
    method PostRepairTx(j: nat, step: string, cents: nat, env: Env) returns (posted: Result<(), CreditError>)
      requires j < |jobs|
      modifies this`keys, this`jobs, credits
      ensures var job := old(jobs[j]);
        match Charge(old(Books(credits.View(), keys)), job.request, RepairKey(job.request), job.created, cents,
                     RepairRef(job.request, step), env)
        case Ok(done) =>
          && posted == Ok(()) && Books(credits.View(), keys) == done.0
          && jobs == old(jobs)[j := Receipted(job, step, cents, done.1)]
        case Err(error) => posted == Err(error)
    {
      var job := jobs[j];
      var replayed :-
        ChargeTx(job.request, RepairKey(job.request), job.created, cents, RepairRef(job.request, step), env);
      AddReceipt(j, step, cents, replayed);
      return Ok(());
    }

    /** Adds the receipt of a repair step and, unless its charge was a replay, its credits. */
    method AddReceipt(j: nat, step: string, cents: nat, replayed: bool)
      requires j < |jobs|
      modifies this`jobs
      ensures jobs == old(jobs)[j := Receipted(old(jobs[j]), step, cents, replayed)]
    {
      var job := jobs[j];
      if !replayed {
        job := job.(consumed := job.consumed + cents);
      }
      jobs := jobs[j := job.(repairs := job.repairs + {step})];
    }

    /** Passes the fence of one repair step for a worker whose claim is live; sends nothing yet. */
    method FenceRepairStep(v: nat, step: string) returns (won: bool)
      requires v < |workers| && workers[v].job < |jobs|
      modifies this`jobs, this`workers
      ensures View() == FenceEditNext(old(View()), v, step)
      ensures won ==> step in jobs[workers[v].job].attempts && step !in old(jobs)[workers[v].job].attempts
      ensures !won ==> View() == old(View())
      ensures old(Healthy(View()) && workers[v].phase.Produced?) ==> Healthy(View())
    {
      if Healthy(View()) && workers[v].phase.Produced? { EditHealthy(View(), v, step); }
      var worker := workers[v];
      var job := jobs[worker.job];
      won := job.task.Running? && job.token == Some(worker.token) && job.claimExpires > now && job.status.Pending?
             && step !in job.attempts;
      if won {
        jobs := jobs[worker.job := job.(attempts := job.attempts + {step})];
        workers := workers[v := worker.(edits := worker.edits[step := false])];
      }
    }

    /** Charges one finished repair step, once, while the claim is live. */
    method ChargeRepairStep(v: nat, step: string, cents: nat, env: Env) returns (charged: bool)
      requires v < |workers| && workers[v].job < |jobs|
      modifies this`keys, this`jobs, credits
      ensures View() == ChargeRepairNext(old(View()), v, step, cents, env)
      ensures charged ==> Chargeable(old(View()), v, step, cents)
      ensures !charged ==> View() == old(View())
      ensures old(Healthy(View()) && workers[v].phase.Produced?) ==> Healthy(View())
    {
      if Healthy(View()) && workers[v].phase.Produced? { RepairHealthy(View(), v, step, cents, env); }
      var worker := workers[v];
      var job := jobs[worker.job];
      if !(job.task.Running? && job.token == Some(worker.token) && job.claimExpires > now && job.status.Pending?)
         || cents == 0 || step in job.repairs || step !in worker.edits || !worker.edits[step] {
        return false;
      }
      charged := CommitRepair(v, step, cents, env);
    }

    /** Posts the charge and the receipt of a chargeable step together, or restores every row. */
    method CommitRepair(v: nat, step: string, cents: nat, env: Env) returns (charged: bool)
      requires v < |workers| && workers[v].job < |jobs| && Chargeable(View(), v, step, cents)
      modifies this`keys, this`jobs, credits
      ensures View() == ChargeRepairNext(old(View()), v, step, cents, env)
      ensures !charged ==> View() == old(View())
    {
      var saved := Tables(credits.wallets, credits.batches, credits.entries, credits.operations);
      var savedKeys, savedJobs := keys, jobs;
      var posted := PostRepairTx(workers[v].job, step, cents, env.(now := now));
      if posted.Err? {
        Restore(saved, savedKeys, savedJobs);
      }
      return posted.Ok?;
    }

    /** Completes generation and task together, if the claim is still the worker's own and live. */
    method CompleteOutput(v: nat) returns (completed: bool)
      requires v < |workers| && workers[v].job < |jobs|
      modifies this`jobs, this`workers
      ensures View() == CompleteNext(old(View()), v)
      ensures completed ==> jobs[workers[v].job].status == Completed && old(jobs)[workers[v].job].status == Pending
      ensures !completed ==> jobs == old(jobs)
      ensures old(Healthy(View()) && workers[v].phase.Produced?) ==> Healthy(View())
    {
      ghost var before := View();
      if Healthy(before) && before.workers[v].phase.Produced? { CompletionHealthy(before, v); }
      var worker := workers[v];
      var job := jobs[worker.job];
      completed := job.token == Some(worker.token) && job.claimExpires > now && job.task.Running? && job.status.Pending?;
      if completed {
        job := job.(status := Completed);
        jobs := jobs[worker.job := job.(task := Closed(Completed), token := None, due := None)];
      }
      workers := workers[v := worker.(phase := Done)];
    }

    /** The worker's failure transaction, whatever happened to its claim meanwhile. */
    method FailImageGeneration(v: nat, cause: Cause, env: Env)
      requires v < |workers| && workers[v].job < |jobs|
      modifies this`keys, this`jobs, this`workers, credits
      ensures View() == FailGenerationNext(old(View()), v, cause, env)
      ensures old(Healthy(View()) && workers[v].phase == Failing(cause)) ==> Healthy(View())
    {
      ghost var before := View();
      if Healthy(before) && before.workers[v].phase == Failing(cause) { FailureHealthy(before, v, env); }
      var worker := workers[v];
      var j := worker.job;
      if jobs[j].token != Some(worker.token) {
        workers := workers[v := worker.(phase := Done)];
        return;
      }
      var phase := Closing;
      if jobs[j].status.Pending? {
        var saved := Tables(credits.wallets, credits.batches, credits.entries, credits.operations);
        var savedKeys, savedJobs := keys, jobs;
        var settled := SettleTx(j, Some(cause), ":worker-refund", env.(now := now));
        if settled.Err? {
          Restore(saved, savedKeys, savedJobs);
          phase := Done;
        }
      }
      workers := workers[v := worker.(phase := phase)];
    }

    /** Settles one overdue generation and closes its task, whoever holds the claim. */
    method ExpirePendingImage(j: nat, cutoff: int, env: Env) returns (detail: Result<Option<int>, CreditError>)
      modifies this`keys, this`jobs, credits
      ensures View() == ExpireOne(old(View()), Visit(j, env), cutoff)
      ensures detail.Err? ==> View() == old(View())
      ensures detail.Ok? && detail.value.None? <==> !(j < |old(jobs)| && Overdue(old(jobs)[j], cutoff))
      ensures detail.Ok? && detail.value.Some? ==>
        j < |jobs| && jobs[j].status == Failed && detail.value.value == old(jobs)[j].consumed - jobs[j].consumed
      ensures |jobs| == |old(jobs)|
      ensures forall i :: 0 <= i < |jobs| ==> jobs[i] == old(jobs)[i] || (i == j && jobs[i].status == Failed)
    {
      if j >= |jobs| || !jobs[j].status.Pending? || jobs[j].created >= cutoff {
        return Ok(None);
      }
      var saved := Tables(credits.wallets, credits.batches, credits.entries, credits.operations);
      var savedKeys, savedJobs := keys, jobs;
      var charged, open := jobs[j].consumed, !jobs[j].task.Closed?;
      var settled := SettleTx(j, None, ":timeout-refund", env.(now := now));
      if settled.Err? {
        Restore(saved, savedKeys, savedJobs);
        return Err(settled.error);
      }
      if open {
        jobs := jobs[j := jobs[j].(task := Closed(Failed), token := None, due := None)];
      }
      return Ok(Some(charged - jobs[j].consumed));
    }

    /** The next generation of a sweep, in a transaction of its own. */
    method SweepNext(ghost start: World, visits: seq<Visit>, done: nat, cutoff: int) returns (detail: Result<Option<int>, CreditError>)
      requires done < |visits| && View() == Sweep(start, visits[..done], cutoff)
      requires Swept(jobs, visits[..done], cutoff)
      modifies this`keys, this`jobs, credits
      ensures detail.Ok? ==> View() == Sweep(start, visits[..done + 1], cutoff) && Swept(jobs, visits[..done + 1], cutoff)
      ensures detail.Err? ==> View() == old(View())
      ensures detail.Ok? && detail.value.Some? ==> FailedAt(jobs, visits[done].job)
      ensures FailuresStay(old(jobs), jobs)
      ensures old(Healthy(View())) ==> Healthy(View())
    {
      ghost var before, world := jobs, View();
      if Healthy(world) { ExpiryHealthy(world, visits[done], cutoff); }
      assert visits[..done + 1][..done] == visits[..done];
      detail := ExpirePendingImage(visits[done].job, cutoff, visits[done].env);
      if detail.Ok? {
        SweptFurther(before, jobs, visits, done, cutoff);
      }
    }

    /**
     * The timeout sweep: one transaction per listed generation, stopping at the
     * first error. Without an error none of them is left overdue.
     */
    method ExpirePendingImages(visits: seq<Visit>, cutoff: int) returns (details: seq<ExpiryDetail>, done: nat)
      modifies this`keys, this`jobs, credits
      ensures done <= |visits|
      ensures View() == Sweep(old(View()), visits[..done], cutoff)
      ensures Swept(jobs, visits[..done], cutoff)
      ensures forall d :: d in details ==> FailedAt(jobs, d.job)
      ensures old(Healthy(View())) ==> Healthy(View())
    {
      details, done := [], 0;
      ghost var start := View();
      while done < |visits|
        invariant done <= |visits| && View() == Sweep(start, visits[..done], cutoff)
        invariant Swept(jobs, visits[..done], cutoff)
        invariant forall d :: d in details ==> FailedAt(jobs, d.job)
        invariant Healthy(start) ==> Healthy(View())
      {
        var detail := SweepNext(start, visits, done, cutoff);
        if detail.Err? {
          return;
        }
        if detail.value.Some? {
          details := details + [ExpiryDetail(visits[done].job, detail.value.value)];
        }
        done := done + 1;
      }
    }
  }

  // No visited generation is left pending past the cutoff.
  predicate Swept(jobs: seq<Job>, visits: seq<Visit>, cutoff: int) {
    forall k | 0 <= k < |visits| :: visits[k].job < |jobs| ==> !Overdue(jobs[visits[k].job], cutoff)
  }

  predicate FailedAt(jobs: seq<Job>, j: nat) {
    j < |jobs| && jobs[j].status == Failed
  }

  // Rows only ever become failed.
  predicate FailuresStay(before: seq<Job>, after: seq<Job>) {
    |after| == |before| && forall i | 0 <= i < |before| :: after[i] == before[i] || after[i].status == Failed
  }

  lemma SweptFurther(before: seq<Job>, after: seq<Job>, visits: seq<Visit>, done: nat, cutoff: int)
    requires done < |visits| && FailuresStay(before, after) && Swept(before, visits[..done], cutoff)
    requires visits[done].job < |after| ==> !Overdue(after[visits[done].job], cutoff)
    ensures Swept(after, visits[..done + 1], cutoff)
  {
    forall k | 0 <= k < done + 1 && visits[k].job < |after| ensures !Overdue(after[visits[k].job], cutoff) {
      if k < done {
        assert visits[..done][k] == visits[k];
      }
    }
  }

  lemma {:induction false} ConflictPersists(jobs: seq<Job>, k: nat, n: nat, r: Request)
    requires k <= n <= |jobs| && ExistingTask(jobs, k, r) == Err(Conflict)
    ensures ExistingTask(jobs, n, r) == Err(Conflict)
  {
    if k < n {
      ConflictPersists(jobs, k, n - 1, r);
    }
  }

  /** The fence and the pending update are the protocol's transitions in the phases that run them. */
  lemma SubmissionTransitions(w: World, v: nat, delay: int)
    requires v < |w.workers| && w.workers[v].job < |w.jobs|
    ensures w.workers[v].phase.Preparing? ==> Next(w, Fence(v)) == FenceNext(w, v)
    ensures w.workers[v].phase.Accepted? || w.workers[v].phase.Polled? ==> Next(w, Persist(v, delay)) == PersistNext(w, v, delay)
  {
  }

  /** So are the edit fence, the repair charge and the completion of a worker that has output. */
  lemma EditTransition(w: World, v: nat, step: string)
    requires v < |w.workers| && w.workers[v].job < |w.jobs| && w.workers[v].phase.Produced?
    ensures Next(w, FenceEdit(v, step)) == FenceEditNext(w, v, step)
  {
  }

  lemma RepairTransition(w: World, v: nat, step: string, cents: nat, env: Env)
    requires v < |w.workers| && w.workers[v].job < |w.jobs| && w.workers[v].phase.Produced?
    ensures Next(w, ChargeRepair(v, step, cents, env)) == ChargeRepairNext(w, v, step, cents, env)
  {
  }

  lemma CompletionTransition(w: World, v: nat)
    requires v < |w.workers| && w.workers[v].job < |w.jobs| && w.workers[v].phase.Produced?
    ensures Next(w, Complete(v)) == CompleteNext(w, v)
  {
  }

  /** So is the failure transaction of a failing worker. */
  lemma FailureTransition(w: World, v: nat, env: Env)
    requires v < |w.workers| && w.workers[v].job < |w.jobs| && w.workers[v].phase.Failing?
    ensures Next(w, FailGeneration(v, env)) == FailGenerationNext(w, v, w.workers[v].phase.cause, env)
  {
  }
}
