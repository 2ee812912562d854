/**
 * Task creation over whole runs: how many unfinished tasks a user can have, what
 * repeating a request does, and why a failing generation is always settled.
 */
module Admission {
  import opened Prelude
  import opened Ledger
  import opened Conservation
  import opened LedgerEffects
  import opened Settlement
  import Submission
  import IT = ImageTasks

  // ------------------------------------------------------- admission bound

  lemma {:induction false} CountShrinks(jobs: seq<IT.Job>, jobs': seq<IT.Job>, user: string)
    requires |jobs| == |jobs'|
    requires forall i :: 0 <= i < |jobs| ==> Submission.RowProgress(jobs[i], jobs'[i])
    ensures IT.UnfinishedCount(jobs', user) <= IT.UnfinishedCount(jobs, user)
  {
    if jobs != [] {
      var n := |jobs| - 1;
      CountShrinks(jobs[..n], jobs'[..n], user);
      assert Submission.RowProgress(jobs[n], jobs'[n]);
    }
  }

  ghost predicate WithinLimits(w: IT.World) {
    forall user :: IT.UnfinishedCount(w.jobs, user) <= Max(0, IT.LimitOf(w, user))
  }

  lemma CreateWithinLimits(w: IT.World, r: IT.Request, env: Env)
    requires WithinLimits(w) && IT.CreateTask(w, r, env).Ok?
    ensures WithinLimits(IT.CreateTask(w, r, env).value.0)
  {
    var next := IT.CreateTask(w, r, env).value.0;
    if next != w {
      assert next.jobs == w.jobs + [IT.NewJob(r, w.now)];
      assert next.jobs[..|w.jobs|] == w.jobs;
      forall user ensures IT.UnfinishedCount(next.jobs, user) <= Max(0, IT.LimitOf(next, user)) {
        assert IT.UnfinishedCount(w.jobs, user) <= Max(0, IT.LimitOf(w, user));
      }
    }
  }

  lemma WorkersKeepLimits(w: IT.World, v: nat, e: IT.Event)
    requires v < |w.workers| && w.workers[v].job < |w.jobs|
    ensures IT.WorkerNext(w, v, e).limits == w.limits && |IT.WorkerNext(w, v, e).jobs| == |w.jobs|
  {
  }

  lemma OthersKeepLimits(w: IT.World, e: IT.Event)
    requires !e.Create?
    ensures IT.Next(w, e).limits == w.limits && |IT.Next(w, e).jobs| == |w.jobs|
  {
    if IT.OfWorker(e) && e.worker < |w.workers| && w.workers[e.worker].job < |w.jobs| {
      WorkersKeepLimits(w, e.worker, e);
    }
  }

  lemma NextWithinLimits(w: IT.World, e: IT.Event)
    requires WithinLimits(w) && Submission.Safe(w)
    ensures WithinLimits(IT.Next(w, e))
  {
    if e.Create? {
      if IT.WellFormed(e.request) && IT.CreateTask(w, e.request, e.env).Ok? {
        CreateWithinLimits(w, e.request, e.env);
      }
    } else {
      OthersKeepLimits(w, e);
      var next := IT.Next(w, e);
      forall j: nat | j < |w.jobs| ensures Submission.RowProgress(w.jobs[j], next.jobs[j]) {
        Submission.NextProgress(w, e, j);
      }
      forall user ensures IT.UnfinishedCount(next.jobs, user) <= Max(0, IT.LimitOf(next, user)) {
        CountShrinks(w.jobs, next.jobs, user);
        assert IT.UnfinishedCount(w.jobs, user) <= Max(0, IT.LimitOf(w, user));
      }
    }
  }

  /** In every run no user ever has more unfinished tasks than the user's limit. */
  lemma {:induction false} UnfinishedBounded(w: IT.World, events: seq<IT.Event>)
    requires IT.Initial(w)
    ensures WithinLimits(IT.Run(w, events))
  {
    if events != [] {
      UnfinishedBounded(w, events[..|events| - 1]);
      Submission.RunSafe(w, events[..|events| - 1]);
      NextWithinLimits(IT.Run(w, events[..|events| - 1]), events[|events| - 1]);
    }
  }

  // --------------------------------------------------- idempotent creation

  /** In every run no two tasks share a task id or a generation id. */
  lemma OneTaskPerIdentity(w: IT.World, events: seq<IT.Event>, i: nat, j: nat)
    requires IT.Initial(w) && i < |IT.Run(w, events).jobs| && j < |IT.Run(w, events).jobs|
    ensures var jobs := IT.Run(w, events).jobs;
      jobs[i].request.taskId == jobs[j].request.taskId || jobs[i].request.generationId == jobs[j].request.generationId ==> i == j
  {
    RunSettled(w, events);
  }

  lemma {:induction false} ExistingTaskFound(jobs: seq<IT.Job>, n: nat, r: IT.Request, j: nat)
    requires IdentitiesDistinct(jobs) && n <= |jobs| && j < n && IT.SameRequest(jobs[j], r)
    ensures IT.ExistingTask(jobs, n, r) == Ok(Some(j))
  {
    if j == n - 1 {
      forall i | 0 <= i < n - 1 ensures !IT.Matches(jobs[i], r) {
        assert jobs[i].request.taskId != jobs[j].request.taskId;
      }
      ExistingTaskNone(jobs, n - 1, r);
    } else {
      assert jobs[j].request.taskId != jobs[n - 1].request.taskId;
      ExistingTaskFound(jobs, n - 1, r, j);
    }
  }

  lemma {:induction false} ExistingTaskConflicts(jobs: seq<IT.Job>, n: nat, r: IT.Request, j: nat)
    requires n <= |jobs| && j < n && IT.Matches(jobs[j], r) && !IT.SameRequest(jobs[j], r)
    ensures IT.ExistingTask(jobs, n, r) == Err(IT.Conflict)
  {
    if j < n - 1 {
      ExistingTaskConflicts(jobs, n - 1, r, j);
    }
  }

  /**
   * Creation against the existing rows: an identical request returns its task, a
   * request that shares an identifier but differs is refused, and either way
   * nothing changes. Only an unused pair of identifiers can create.
   */
  lemma CreationIsIdempotent(w: IT.World, r: IT.Request, env: Env)
    requires WorldSettled(w)
    ensures forall j :: 0 <= j < |w.jobs| && IT.SameRequest(w.jobs[j], r) ==> IT.CreateTask(w, r, env) == Ok((w, j))
    ensures (exists j :: 0 <= j < |w.jobs| && IT.Matches(w.jobs[j], r) && !IT.SameRequest(w.jobs[j], r))
            ==> IT.CreateTask(w, r, env) == Err(IT.Conflict)
    ensures IT.CreateTask(w, r, env).Ok? && IT.CreateTask(w, r, env).value.0 != w
            ==> forall j :: 0 <= j < |w.jobs| ==> !IT.Matches(w.jobs[j], r)
  {
    forall j: nat | j < |w.jobs| && IT.SameRequest(w.jobs[j], r) ensures IT.CreateTask(w, r, env) == Ok((w, j)) {
      ExistingTaskFound(w.jobs, |w.jobs|, r, j);
    }
    if j: nat :| j < |w.jobs| && IT.Matches(w.jobs[j], r) && !IT.SameRequest(w.jobs[j], r) {
      ExistingTaskConflicts(w.jobs, |w.jobs|, r, j);
    }
    ExistingTaskNone(w.jobs, |w.jobs|, r);
  }

  /**
   * Repeating a successful creation after any run returns the same task and
   * changes nothing.
   */
  lemma RetryReturnsTask(w: IT.World, r: IT.Request, env: Env, events: seq<IT.Event>, later: Env)
    requires WorldSettled(w) && Submission.Safe(w) && IT.WellFormed(r) && IT.CreateTask(w, r, env).Ok?
    ensures var (created, j) := IT.CreateTask(w, r, env).value;
      var now := IT.Run(created, events);
      IT.CreateTask(now, r, later) == Ok((now, j))
  {
    var (created, j) := IT.CreateTask(w, r, env).value;
    CreateKeepsSettled(w, r, env);
    Submission.CreateSafe(w, r, env);
    CreatedRow(w, r, env);
    RunStaysSettled(created, events);
    Submission.RunProgress(created, events, j);
    var now := IT.Run(created, events);
    assert Submission.RowProgress(created.jobs[j], now.jobs[j]);
    ExistingTaskFound(now.jobs, |now.jobs|, r, j);
  }

  lemma CreatedRow(w: IT.World, r: IT.Request, env: Env)
    requires IT.CreateTask(w, r, env).Ok?
    ensures var (created, j) := IT.CreateTask(w, r, env).value;
      j < |created.jobs| && IT.SameRequest(created.jobs[j], r)
  {
    if IT.ExistingTask(w.jobs, |w.jobs|, r).value.None? {
      var (created, j) := IT.CreateTask(w, r, env).value;
      assert created.jobs == w.jobs + [IT.NewJob(r, w.now)] && j == |w.jobs|;
      assert created.jobs[j] == IT.NewJob(r, w.now);
    }
  }

  lemma {:induction false} RunStaysSettled(w: IT.World, events: seq<IT.Event>)
    requires WorldSettled(w)
    ensures WorldSettled(IT.Run(w, events))
  {
    if events != [] {
      RunStaysSettled(w, events[..|events| - 1]);
      NextSettled(IT.Run(w, events[..|events| - 1]), events[|events| - 1]);
    }
  }

  // ----------------------------------------------------- settling succeeds

  lemma LockKeepsRow(t: Tables, user: string, now: int, requestId: string, key: OperationKey, at: int)
    requires Agrees(t) && OperationTimesAre(t.entries, key, at)
    ensures var locked := Lock(t, user, now, requestId);
      && Agrees(locked) && key in locked.operations && locked.operations[key].at == at
      && locked.operations[key].net == Total(t.entries, Gross(key)) - Total(t.entries, Returned(key))
  {
    LockAgrees(t, user, now, requestId);
    LockKeepsOperations(t, user, now, requestId);
    var locked := Lock(t, user, now, requestId);
    assert SameOperation(t.entries, locked.entries, key);
    assert ProjectionAgrees(locked, key);
    assert OperationTimesAre(locked.entries, key, at);
    var i :| 0 <= i < |locked.entries| && OfOperation(locked.entries[i], key);
  }

  lemma LockKeepsRefsFree(t: Tables, user: string, now: int, requestId: string, ref: string)
    requires Agrees(t)
    requires FindBatch(t.batches, "refund", ref).None? && FindEntry(t.entries, user, Refund, ref).None?
    ensures var locked := Lock(t, user, now, requestId);
      FindBatch(locked.batches, "refund", ref).None? && FindEntry(locked.entries, user, Refund, ref).None?
  {
    var locked := Lock(t, user, now, requestId);
    var lapsed := ExpirationEntries(t.batches, user, now, requestId);
    ExpirationTotals(t.batches, user, now, requestId);
    forall b | b in locked.batches ensures !(b.source == "refund" && b.sourceRef == Some(ref)) {
      var i :| 0 <= i < |locked.batches| && locked.batches[i] == b;
      assert t.batches[i] in t.batches;
    }
    forall e | e in locked.entries ensures !(e.user == user && e.kind == Refund && e.sourceRef == Some(ref)) {
      assert locked.entries == t.entries + lapsed;
      assert e in t.entries || e in lapsed;
    }
  }

  /**
   * Settlement of a pending generation never gets stuck on the ledger: the refund
   * is accepted even for a frozen wallet, unless its source reference is taken or
   * the configured expiry is invalid.
   */
  lemma FailureAlwaysSettles(w: IT.World, j: nat, cause: Option<IT.Cause>, suffix: string, env: Env)
    requires WorldSettled(w) && j < |w.jobs| && w.jobs[j].status == IT.Pending && suffix != ""
    requires var ref := w.jobs[j].request.generationId + suffix;
      && FindBatch(w.ledger.batches, "refund", ref).None?
      && FindEntry(w.ledger.entries, w.jobs[j].request.user, Refund, ref).None?
    requires env.expiryDays <= 36500 && IT.Credits(w.jobs[j].consumed) <= MAX_CREDITS
    ensures IT.SettleFailure(IT.Books(w.ledger, w.keys), w.jobs[j], cause, suffix, env).Ok?
  {
    assert JobSettled(w.ledger, w.jobs[j]);
    JobFailureSettles(w.ledger, w.keys, w.jobs[j], cause, suffix, env);
  }

  lemma JobFailureSettles(
    ledger: Tables, keys: map<string, IT.Key>, job: IT.Job, cause: Option<IT.Cause>, suffix: string, env: Env)
    requires Agrees(ledger) && JobSettled(ledger, job) && suffix != ""
    requires FindBatch(ledger.batches, "refund", job.request.generationId + suffix).None?
    requires FindEntry(ledger.entries, job.request.user, Refund, job.request.generationId + suffix).None?
    requires env.expiryDays <= 36500 && IT.Credits(job.consumed) <= MAX_CREDITS
    ensures IT.SettleFailure(IT.Books(ledger, keys), job, cause, suffix, env).Ok?
  {
    KeepingSettles(ledger, keys, job, IT.Retained(cause, job.consumed, job.request.quote, job.moderated),
                   job.request.generationId + suffix, env);
  }

  lemma KeepingSettles(ledger: Tables, keys: map<string, IT.Key>, job: IT.Job, kept: int, ref: string, env: Env)
    requires Agrees(ledger) && JobSettled(ledger, job) && 0 <= kept && ref != ""
    requires FindBatch(ledger.batches, "refund", ref).None?
    requires FindEntry(ledger.entries, job.request.user, Refund, ref).None?
    requires env.expiryDays <= 36500 && IT.Credits(job.consumed) <= MAX_CREDITS
    ensures IT.SettleKeeping(IT.Books(ledger, keys), job, kept, ref, env).Ok?
  {
    RestGoesThrough(ledger, keys, job, job.consumed - kept, ref, env);
  }

  lemma RestGoesThrough(ledger: Tables, keys: map<string, IT.Key>, job: IT.Job, cents: int, ref: string, env: Env)
    requires Agrees(ledger) && JobSettled(ledger, job) && cents <= job.consumed && ref != ""
    requires FindBatch(ledger.batches, "refund", ref).None?
    requires FindEntry(ledger.entries, job.request.user, Refund, ref).None?
    requires env.expiryDays <= 36500 && IT.Credits(job.consumed) <= MAX_CREDITS
    ensures IT.RefundRest(IT.Books(ledger, keys), job.request, job.created, cents, ref, env).Ok?
  {
    if cents > 0 {
      ReturnGoesThrough(ledger, keys, job, cents, ref, env);
    }
  }

  lemma ReturnGoesThrough(ledger: Tables, keys: map<string, IT.Key>, job: IT.Job, cents: nat, ref: string, env: Env)
    requires Agrees(ledger) && JobSettled(ledger, job) && 0 < cents <= job.consumed && ref != ""
    requires FindBatch(ledger.batches, "refund", ref).None?
    requires FindEntry(ledger.entries, job.request.user, Refund, ref).None?
    requires env.expiryDays <= 36500 && IT.Credits(job.consumed) <= MAX_CREDITS
    ensures IT.Return(IT.Books(ledger, keys), job.request, job.created, cents, ref, env).Ok?
  {
    RefundGoesThrough(ledger, job, cents, ref, env);
  }

  lemma RefundGoesThrough(ledger: Tables, job: IT.Job, cents: nat, ref: string, env: Env)
    requires Agrees(ledger) && JobSettled(ledger, job) && 0 < cents <= job.consumed && ref != ""
    requires FindBatch(ledger.batches, "refund", ref).None?
    requires FindEntry(ledger.entries, job.request.user, Refund, ref).None?
    requires env.expiryDays <= 36500 && IT.Credits(job.consumed) <= MAX_CREDITS
    ensures var m := IT.RefundMutation(job.request, job.created, cents, ref);
      GrantCredit(Lock(ledger, m.user, env.now, env.requestId), m, env).Ok?
  {
    var m := IT.RefundMutation(job.request, job.created, cents, ref);
    var locked := Lock(ledger, m.user, env.now, env.requestId);
    LockKeepsRow(ledger, m.user, env.now, env.requestId, KeyOf(m), job.created);
    LockKeepsRefsFree(ledger, m.user, env.now, env.requestId, ref);
    RefundAmountValid(cents, job.consumed);
    ServiceNotBlank();
    assert job.request.generationId != "";
    RefundAcceptedWithinNet(locked, m, cents, env);
  }

  lemma RefundAmountValid(cents: int, consumed: int)
    requires 0 < cents <= consumed && IT.Credits(consumed) <= MAX_CREDITS
    ensures ValidateAmount(IT.Credits(cents), false) == Ok(cents)
  {
    CentsValidate(cents);
    assert IT.Credits(cents) <= IT.Credits(consumed);
    assert IT.Credits(cents) * 100.0 + 0.5 == cents as real + 0.5;
  }

  lemma ServiceNotBlank()
    ensures !Blank(IT.SERVICE)
  {
    assert TrimLeft(IT.SERVICE) == IT.SERVICE;
    assert TrimRight(IT.SERVICE) == IT.SERVICE;
  }
}
