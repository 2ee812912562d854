/**
 * Exactly-once settlement: whatever interleaving of failures, timeouts,
 * completions and repair charges, the ledger holds for every generation exactly
 * the credits its row says were consumed, and the bound keys moved by the same.
 */
module Settlement {
  import opened Prelude
  import opened Ledger
  import opened Spending
  import opened Conservation
  import opened LedgerEffects
  import IT = ImageTasks

  // ------------------------------------------------------------- invariant

  /** The ledger agrees with one generation row. */
  ghost predicate JobSettled(ledger: Tables, job: IT.Job) {
    var tally := TallyOf(ledger.entries, IT.OperationOf(job.request));
    && tally.gross - tally.returned == job.consumed && 0 <= job.consumed
    && OperationTimesAre(ledger.entries, IT.OperationOf(job.request), job.created)
    && tally.refunds <= 1
    && (job.status != IT.Failed ==> tally.refunds == 0 && tally.returned == 0)
    && !Blank(job.request.generationId)
  }

  function KeyShare(job: IT.Job, key: string): int {
    if job.request.keyId == key then job.consumed else 0
  }

  /** Credits consumed by all generations bound to a key. */
  function KeyTotal(jobs: seq<IT.Job>, key: string): int {
    if jobs == [] then 0 else KeyTotal(jobs[..|jobs| - 1], key) + KeyShare(jobs[|jobs| - 1], key)
  }

  ghost predicate KeySettled(keys: map<string, IT.Key>, jobs: seq<IT.Job>, key: string) {
    key in keys ==>
      && key !in IT.RESERVED_KEYS && 0 <= keys[key].opening
      && keys[key].used == keys[key].opening + KeyTotal(jobs, key)
  }

  ghost predicate IdentitiesDistinct(jobs: seq<IT.Job>) {
    forall i, j :: 0 <= i < j < |jobs| ==>
      jobs[i].request.taskId != jobs[j].request.taskId
      && jobs[i].request.generationId != jobs[j].request.generationId
  }

  ghost predicate Settled(ledger: Tables, keys: map<string, IT.Key>, jobs: seq<IT.Job>) {
    && Agrees(ledger)
    && (forall j :: 0 <= j < |jobs| ==> JobSettled(ledger, jobs[j]))
    && (forall key :: KeySettled(keys, jobs, key))
    && (forall j :: 0 <= j < |jobs| && jobs[j].request.keyId != "" ==>
          jobs[j].request.keyId in keys && keys[jobs[j].request.keyId].user == jobs[j].request.user)
    && (forall key: OperationKey :: key.typ == IT.SERVICE && HasOperation(ledger.entries, key) ==>
          exists j :: 0 <= j < |jobs| && IT.OperationOf(jobs[j].request) == key)
    && IdentitiesDistinct(jobs)
  }

  lemma {:induction false} KeyTotalUpdate(jobs: seq<IT.Job>, j: nat, job: IT.Job, key: string)
    requires j < |jobs|
    ensures KeyTotal(jobs[j := job], key) == KeyTotal(jobs, key) - KeyShare(jobs[j], key) + KeyShare(job, key)
  {
    var n := |jobs| - 1;
    if j < n {
      KeyTotalUpdate(jobs[..n], j, job, key);
      assert jobs[j := job][..n] == jobs[..n][j := job];
    } else {
      assert jobs[j := job][..n] == jobs[..n];
    }
  }

  lemma {:induction false} KeyTotalCovers(jobs: seq<IT.Job>, j: nat, key: string)
    requires j < |jobs| && forall i :: 0 <= i < |jobs| ==> 0 <= jobs[i].consumed
    ensures KeyShare(jobs[j], key) <= KeyTotal(jobs, key)
  {
    var n := |jobs| - 1;
    KeyTotalNonNegative(jobs[..n], key);
    if j < n {
      KeyTotalCovers(jobs[..n], j, key);
    }
  }

  lemma {:induction false} KeyTotalNonNegative(jobs: seq<IT.Job>, key: string)
    requires forall i :: 0 <= i < |jobs| ==> 0 <= jobs[i].consumed
    ensures 0 <= KeyTotal(jobs, key)
  {
    if jobs != [] {
      KeyTotalNonNegative(jobs[..|jobs| - 1], key);
    }
  }

  lemma CentsValidate(cents: int)
    requires cents >= 0
    ensures var r := ValidateAmount(IT.Credits(cents), false); r.Err? || r == Ok(cents)
  {
    assert IT.Credits(cents) * 100.0 + 0.5 == cents as real + 0.5;
  }

  // --------------------------------------------------- one row, the ledger

  /** Rows whose books did not change stay settled under a ledger that tells them the same. */
  lemma JobStaysSettled(before: Tables, after: Tables, job: IT.Job)
    requires JobSettled(before, job)
    requires SameOperation(before.entries, after.entries, IT.OperationOf(job.request))
    ensures JobSettled(after, job)
  {
  }

  lemma OperationsDiffer(jobs: seq<IT.Job>, i: nat, j: nat)
    requires IdentitiesDistinct(jobs) && i < |jobs| && j < |jobs| && i != j
    ensures IT.OperationOf(jobs[i].request) != IT.OperationOf(jobs[j].request)
  {
  }

  // Every key keeps its identity and moves by what the row's share of it moves.
  predicate KeysMove(keys: map<string, IT.Key>, keys': map<string, IT.Key>, job: IT.Job, job': IT.Job) {
    && keys'.Keys == keys.Keys
    && (forall k :: k in keys ==>
          && keys'[k].user == keys[k].user && keys'[k].opening == keys[k].opening
          && keys'[k].used == keys[k].used + KeyShare(job', k) - KeyShare(job, k))
  }

  // How one row's books may move together with the ledger and its key.
  ghost predicate BooksMove(
    ledger: Tables, keys: map<string, IT.Key>, job: IT.Job,
    ledger': Tables, keys': map<string, IT.Key>, job': IT.Job)
  {
    && job'.request == job.request && job'.created == job.created
    && Agrees(ledger') && JobSettled(ledger', job')
    && (forall key :: key != IT.OperationOf(job.request) ==> SameOperation(ledger.entries, ledger'.entries, key))
    && KeysMove(keys, keys', job, job')
  }

  lemma OperationsStayKnown(ledger: Tables, ledger': Tables, jobs: seq<IT.Job>, jobs': seq<IT.Job>, own: OperationKey)
    requires forall key: OperationKey :: key.typ == IT.SERVICE && HasOperation(ledger.entries, key) ==>
      exists i :: 0 <= i < |jobs| && IT.OperationOf(jobs[i].request) == key
    requires forall key :: key != own ==> SameOperation(ledger.entries, ledger'.entries, key)
    requires exists i :: 0 <= i < |jobs'| && IT.OperationOf(jobs'[i].request) == own
    requires |jobs| <= |jobs'| && forall i :: 0 <= i < |jobs| ==> jobs'[i].request == jobs[i].request
    ensures forall key: OperationKey :: key.typ == IT.SERVICE && HasOperation(ledger'.entries, key) ==>
      exists i :: 0 <= i < |jobs'| && IT.OperationOf(jobs'[i].request) == key
  {
    forall key: OperationKey | key.typ == IT.SERVICE && HasOperation(ledger'.entries, key)
      ensures exists i :: 0 <= i < |jobs'| && IT.OperationOf(jobs'[i].request) == key
    {
      if key != own {
        assert SameOperation(ledger.entries, ledger'.entries, key);
        var i :| 0 <= i < |jobs| && IT.OperationOf(jobs[i].request) == key;
        assert IT.OperationOf(jobs'[i].request) == key;
      }
    }
  }

  lemma KeysStaySettled(
    keys: map<string, IT.Key>, keys': map<string, IT.Key>, jobs: seq<IT.Job>, j: nat, job': IT.Job, key: string)
    requires j < |jobs| && KeySettled(keys, jobs, key) && KeysMove(keys, keys', jobs[j], job')
    ensures KeySettled(keys', jobs[j := job'], key)
  {
    KeyTotalUpdate(jobs, j, job', key);
  }

  lemma RowsStaySettled(
    ledger: Tables, keys: map<string, IT.Key>, jobs: seq<IT.Job>, j: nat,
    ledger': Tables, keys': map<string, IT.Key>, job': IT.Job)
    requires forall i :: 0 <= i < |jobs| ==> JobSettled(ledger, jobs[i])
    requires IdentitiesDistinct(jobs) && j < |jobs| && BooksMove(ledger, keys, jobs[j], ledger', keys', job')
    ensures var jobs' := jobs[j := job']; forall i :: 0 <= i < |jobs'| ==> JobSettled(ledger', jobs'[i])
  {
    var jobs' := jobs[j := job'];
    forall i | 0 <= i < |jobs'| ensures JobSettled(ledger', jobs'[i]) {
      if i != j {
        OperationsDiffer(jobs, i, j);
        JobStaysSettled(ledger, ledger', jobs[i]);
      }
    }
  }

  /** If one row's books move together, everything stays settled. */
  lemma MoveKeepsSettled(
    ledger: Tables, keys: map<string, IT.Key>, jobs: seq<IT.Job>, j: nat,
    ledger': Tables, keys': map<string, IT.Key>, job': IT.Job)
    requires Settled(ledger, keys, jobs) && j < |jobs| && BooksMove(ledger, keys, jobs[j], ledger', keys', job')
    ensures Settled(ledger', keys', jobs[j := job'])
  {
    var jobs' := jobs[j := job'];
    RowsStaySettled(ledger, keys, jobs, j, ledger', keys', job');
    forall key ensures KeySettled(keys', jobs', key) {
      KeysStaySettled(keys, keys', jobs, j, job', key);
    }
    assert IT.OperationOf(jobs'[j].request) == IT.OperationOf(jobs[j].request);
    OperationsStayKnown(ledger, ledger', jobs, jobs', IT.OperationOf(jobs[j].request));
  }

  // ---------------------------------------------------------------- refund

  lemma ReturnPosts(ledger: Tables, r: IT.Request, created: int, cents: nat, ref: string, env: Env)
    requires Agrees(ledger) && TallyOf(ledger.entries, IT.OperationOf(r)).refunds == 0
    requires GrantCredit(Lock(ledger, r.user, env.now, env.requestId), IT.RefundMutation(r, created, cents, ref), env).Ok?
    ensures var posting := GrantCredit(Lock(ledger, r.user, env.now, env.requestId), IT.RefundMutation(r, created, cents, ref), env).value;
      var own, before := IT.OperationOf(r), TallyOf(ledger.entries, IT.OperationOf(r));
      && !posting.receipt.replayed
      && Agrees(posting.tables)
      && OperationTimesAre(posting.tables.entries, own, created)
      && TallyOf(posting.tables.entries, own) == Tally(before.gross, before.returned + cents, 1, true)
      && (forall key :: key != own ==> SameOperation(ledger.entries, posting.tables.entries, key))
  {
    var m := IT.RefundMutation(r, created, cents, ref);
    CentsValidate(cents);
    if GrantCredit(Lock(ledger, m.user, env.now, env.requestId), m, env).value.receipt.replayed {
      RefundReplayKnows(ledger, m, env);
    } else {
      var e := RefundPosts(ledger, m, env);
      assert OfOperation(e, IT.OperationOf(r));
    }
  }

  lemma ReturnMovesKeys(keys: map<string, IT.Key>, job: IT.Job, cents: nat, job': IT.Job)
    requires "" !in keys && job'.request == job.request && job'.consumed == job.consumed - cents
    requires job.request.keyId in keys ==>
      keys[job.request.keyId].user == job.request.user && cents <= keys[job.request.keyId].used
    ensures KeysMove(keys, IT.ReturnToKey(keys, job.request.keyId, job.request.user, cents), job, job')
  {
  }

  /** A pending generation was never refunded, so its refund is no replay: it returns exactly the credits asked for. */
  lemma ReturnMovesBooks(ledger: Tables, keys: map<string, IT.Key>, job: IT.Job, cents: nat, ref: string, env: Env)
    requires Agrees(ledger) && JobSettled(ledger, job) && job.status == IT.Pending && cents <= job.consumed
    requires "" !in keys
    requires job.request.keyId in keys ==>
      keys[job.request.keyId].user == job.request.user && cents <= keys[job.request.keyId].used
    requires IT.Return(IT.Books(ledger, keys), job.request, job.created, cents, ref, env).Ok?
    ensures var b := IT.Return(IT.Books(ledger, keys), job.request, job.created, cents, ref, env).value;
      BooksMove(ledger, keys, job, b.ledger, b.keys, job.(status := IT.Failed, consumed := job.consumed - cents))
  {
    ReturnPosts(ledger, job.request, job.created, cents, ref, env);
    ReturnMovesKeys(keys, job, cents, job.(status := IT.Failed, consumed := job.consumed - cents));
  }

  lemma SettleFailureMovesBooks(
    ledger: Tables, keys: map<string, IT.Key>, job: IT.Job, cause: Option<IT.Cause>, suffix: string, env: Env)
    requires Agrees(ledger) && JobSettled(ledger, job) && job.status == IT.Pending
    requires "" !in keys
    requires job.request.keyId in keys ==>
      keys[job.request.keyId].user == job.request.user && job.consumed <= keys[job.request.keyId].used
    requires IT.SettleFailure(IT.Books(ledger, keys), job, cause, suffix, env).Ok?
    ensures var (b, failed) := IT.SettleFailure(IT.Books(ledger, keys), job, cause, suffix, env).value;
      && BooksMove(ledger, keys, job, b.ledger, b.keys, failed)
      && failed == job.(status := IT.Failed, consumed := IT.Retained(cause, job.consumed, job.request.quote, job.moderated))
  {
    var cents := job.consumed - IT.Retained(cause, job.consumed, job.request.quote, job.moderated);
    if cents > 0 {
      ReturnMovesBooks(ledger, keys, job, cents, job.request.generationId + suffix, env);
    }
  }

  // ---------------------------------------------------------------- charge

  lemma ReplayMovesNothing(ledger: Tables, job: IT.Job, m: Mutation, env: Env)
    requires Agrees(ledger) && JobSettled(ledger, job) && m.opType != "" && m.opId != ""
    requires ConsumeCredit(Lock(ledger, m.user, env.now, env.requestId), m, env).Ok?
    requires ConsumeCredit(Lock(ledger, m.user, env.now, env.requestId), m, env).value.receipt.replayed
    ensures var after := ConsumeCredit(Lock(ledger, m.user, env.now, env.requestId), m, env).value.tables;
      Agrees(after) && JobSettled(after, job) && SameOperations(ledger, after)
  {
    ConsumeReplayKnows(ledger, m, env);
    var after := ConsumeCredit(Lock(ledger, m.user, env.now, env.requestId), m, env).value.tables;
    assert SameOperation(ledger.entries, after.entries, IT.OperationOf(job.request));
    JobStaysSettled(ledger, after, job);
  }

  lemma ChargePosts(ledger: Tables, r: IT.Request, created: int, cents: nat, ref: string, env: Env)
    requires Agrees(ledger) && r.generationId != ""
    requires var m := IT.ChargeMutation(r, created, cents, ref);
      var posting := ConsumeCredit(Lock(ledger, r.user, env.now, env.requestId), m, env);
      posting.Ok? && !posting.value.receipt.replayed
    ensures var m := IT.ChargeMutation(r, created, cents, ref);
      var after := ConsumeCredit(Lock(ledger, r.user, env.now, env.requestId), m, env).value.tables;
      var own, before := IT.OperationOf(r), TallyOf(ledger.entries, IT.OperationOf(r));
      && Agrees(after) && cents > 0 && !Blank(r.generationId)
      && OperationTimesAre(after.entries, own, created)
      && TallyOf(after.entries, own) == Tally(before.gross + cents, before.returned, before.refunds, true)
      && (forall key :: key != own ==> SameOperation(ledger.entries, after.entries, key))
  {
    var m := IT.ChargeMutation(r, created, cents, ref);
    CentsValidate(cents);
    var e := ConsumePosts(ledger, m, env);
    assert OfOperation(e, IT.OperationOf(r));
  }

  lemma ChargeMovesKeys(keys: map<string, IT.Key>, keyId: string, r: IT.Request, cents: nat, job: IT.Job, job': IT.Job)
    requires job.request == r == job'.request && job'.consumed == job.consumed + cents
    requires "" !in keys && (keyId == r.keyId)
    requires keyId != "" ==> IT.ChargeKey(keys, keyId, r.user, cents).Ok?
    ensures KeysMove(keys, if keyId != "" then IT.ChargeKey(keys, keyId, r.user, cents).value else keys, job, job')
  {
  }

  /** A repair charge adds to the generation what it adds to the ledger and to the key. */
  lemma RepairMovesBooks(ledger: Tables, keys: map<string, IT.Key>, job: IT.Job, cents: nat, ref: string, env: Env)
    requires Agrees(ledger) && JobSettled(ledger, job) && job.status == IT.Pending && job.request.generationId != ""
    requires forall k :: k in keys ==> k !in IT.RESERVED_KEYS
    requires job.request.keyId != "" ==> job.request.keyId in keys
    requires IT.Charge(IT.Books(ledger, keys), job.request, IT.RepairKey(job.request), job.created, cents, ref, env).Ok?
    ensures var (b, replayed) :=
        IT.Charge(IT.Books(ledger, keys), job.request, IT.RepairKey(job.request), job.created, cents, ref, env).value;
      BooksMove(ledger, keys, job, b.ledger, b.keys, job.(consumed := if replayed then job.consumed else job.consumed + cents))
  {
    var m := IT.ChargeMutation(job.request, job.created, cents, ref);
    var locked := Lock(ledger, m.user, env.now, env.requestId);
    var posting := ConsumeCredit(locked, m, env).value;
    assert IT.RepairKey(job.request) == job.request.keyId;
    if posting.receipt.replayed {
      ReplayMovesNothing(ledger, job, m, env);
    } else {
      ChargePosts(ledger, job.request, job.created, cents, ref, env);
      ChargeMovesKeys(keys, job.request.keyId, job.request, cents, job, job.(consumed := job.consumed + cents));
    }
  }

  /** Creating a generation charges it under a new operation and a fresh row. */
  lemma CreateKeepsSettled(w: IT.World, r: IT.Request, env: Env)
    requires Settled(w.ledger, w.keys, w.jobs) && IT.CreateTask(w, r, env).Ok? && r.generationId != ""
    ensures var next := IT.CreateTask(w, r, env).value.0; Settled(next.ledger, next.keys, next.jobs)
  {
    var next := IT.CreateTask(w, r, env).value.0;
    if next != w {
      ExistingTaskNone(w.jobs, |w.jobs|, r);
      ChargeOpensBooks(w.ledger, w.keys, w.jobs, r, w.now, env.(now := w.now));
      var charged := IT.Charge(IT.Books(w.ledger, w.keys), r, r.keyId, w.now, r.quote.amount, r.generationId, env.(now := w.now));
      var (books, _) := charged.value;
      assert next.ledger == books.ledger && next.keys == books.keys && next.jobs == w.jobs + [IT.NewJob(r, w.now)];
    }
  }

  lemma {:induction false} ExistingTaskNone(jobs: seq<IT.Job>, n: nat, r: IT.Request)
    requires n <= |jobs|
    ensures IT.ExistingTask(jobs, n, r) == Ok(None) <==> forall i :: 0 <= i < n ==> !IT.Matches(jobs[i], r)
  {
    if n > 0 {
      ExistingTaskNone(jobs, n - 1, r);
    }
  }

  lemma ChargeOpensBooks(
    ledger: Tables, keys: map<string, IT.Key>, jobs: seq<IT.Job>, r: IT.Request, created: int, env: Env)
    requires Settled(ledger, keys, jobs) && r.generationId != ""
    requires forall i :: 0 <= i < |jobs| ==> !IT.Matches(jobs[i], r)
    requires IT.Charge(IT.Books(ledger, keys), r, r.keyId, created, r.quote.amount, r.generationId, env).Ok?
    ensures var (b, _) := IT.Charge(IT.Books(ledger, keys), r, r.keyId, created, r.quote.amount, r.generationId, env).value;
      Settled(b.ledger, b.keys, jobs + [IT.NewJob(r, created)])
  {
    var m := IT.ChargeMutation(r, created, r.quote.amount, r.generationId);
    var job := IT.NewJob(r, created);
    var b := IT.Charge(IT.Books(ledger, keys), r, r.keyId, created, r.quote.amount, r.generationId, env).value.0;
    assert !HasOperation(ledger.entries, IT.OperationOf(r));
    NewOperationEmpty(ledger.entries, IT.OperationOf(r));
    NotReplayed(ledger, m, env);
    ChargePosts(ledger, r, created, r.quote.amount, r.generationId, env);
    assert KeySettled(keys, jobs, "");
    ChargeMovesKeys(keys, r.keyId, r, r.quote.amount, job.(consumed := 0), job);
    OpenedBooksSettled(ledger, keys, jobs, b.ledger, b.keys, job);
  }

  lemma NotReplayed(ledger: Tables, m: Mutation, env: Env)
    requires Agrees(ledger) && m.opType != "" && !HasOperation(ledger.entries, KeyOf(m))
    requires ConsumeCredit(Lock(ledger, m.user, env.now, env.requestId), m, env).Ok?
    ensures !ConsumeCredit(Lock(ledger, m.user, env.now, env.requestId), m, env).value.receipt.replayed || m.opId == ""
  {
    if m.opId != "" && ConsumeCredit(Lock(ledger, m.user, env.now, env.requestId), m, env).value.receipt.replayed {
      ConsumeReplayKnows(ledger, m, env);
    }
  }

  lemma {:induction false} NewOperationEmpty(entries: seq<Entry>, key: OperationKey)
    requires !HasOperation(entries, key)
    ensures TallyOf(entries, key) == Tally(0, 0, 0, false)
  {
    if entries != [] {
      var n := |entries| - 1;
      assert forall i :: 0 <= i < n ==> entries[..n][i] == entries[i];
      NewOperationEmpty(entries[..n], key);
      assert !OfOperation(entries[n], key);
    }
  }

  lemma RowsAndNewRowSettled(ledger: Tables, jobs: seq<IT.Job>, ledger': Tables, job: IT.Job)
    requires forall i :: 0 <= i < |jobs| ==> JobSettled(ledger, jobs[i]) && !IT.Matches(jobs[i], job.request)
    requires JobSettled(ledger', job)
    requires forall key :: key != IT.OperationOf(job.request) ==> SameOperation(ledger.entries, ledger'.entries, key)
    ensures forall i :: 0 <= i < |jobs + [job]| ==> JobSettled(ledger', (jobs + [job])[i])
  {
    forall i | 0 <= i < |jobs| ensures JobSettled(ledger', jobs[i]) {
      assert JobSettled(ledger, jobs[i]) && !IT.Matches(jobs[i], job.request);
      JobStaysSettled(ledger, ledger', jobs[i]);
    }
  }

  lemma NewIdentityDistinct(jobs: seq<IT.Job>, job: IT.Job)
    requires IdentitiesDistinct(jobs) && forall i :: 0 <= i < |jobs| ==> !IT.Matches(jobs[i], job.request)
    ensures IdentitiesDistinct(jobs + [job])
  {
    forall i | 0 <= i < |jobs|
      ensures jobs[i].request.taskId != job.request.taskId && jobs[i].request.generationId != job.request.generationId
    {
      assert !IT.Matches(jobs[i], job.request);
    }
  }

  lemma OpenedBooksSettled(
    ledger: Tables, keys: map<string, IT.Key>, jobs: seq<IT.Job>,
    ledger': Tables, keys': map<string, IT.Key>, job: IT.Job)
    requires Settled(ledger, keys, jobs)
    requires forall i :: 0 <= i < |jobs| ==> !IT.Matches(jobs[i], job.request)
    requires Agrees(ledger') && JobSettled(ledger', job)
    requires forall key :: key != IT.OperationOf(job.request) ==> SameOperation(ledger.entries, ledger'.entries, key)
    requires KeysMove(keys, keys', job.(consumed := 0), job)
    requires job.request.keyId != "" ==> job.request.keyId in keys && keys[job.request.keyId].user == job.request.user
    ensures Settled(ledger', keys', jobs + [job])
  {
    var jobs' := jobs + [job];
    RowsAndNewRowSettled(ledger, jobs, ledger', job);
    NewIdentityDistinct(jobs, job);
    assert jobs'[..|jobs|] == jobs;
    forall key ensures KeySettled(keys', jobs', key) {
      assert KeySettled(keys, jobs, key);
    }
    assert IT.OperationOf(jobs'[|jobs|].request) == IT.OperationOf(job.request);
    OperationsStayKnown(ledger, ledger', jobs, jobs', IT.OperationOf(job.request));
  }

  // ---------------------------------------------------------- every event

  // Rows whose books are untouched; a pending generation may complete.
  predicate BooksKept(before: IT.Job, after: IT.Job) {
    && after.request == before.request && after.created == before.created && after.consumed == before.consumed
    && (after.status == before.status || (before.status == IT.Pending && after.status == IT.Completed))
  }

  lemma {:induction false} KeptKeyTotal(jobs: seq<IT.Job>, jobs': seq<IT.Job>, key: string)
    requires |jobs| == |jobs'| && forall i :: 0 <= i < |jobs| ==> BooksKept(jobs[i], jobs'[i])
    ensures KeyTotal(jobs, key) == KeyTotal(jobs', key)
  {
    if jobs != [] {
      KeptKeyTotal(jobs[..|jobs| - 1], jobs'[..|jobs| - 1], key);
    }
  }

  lemma KeptStaysSettled(ledger: Tables, keys: map<string, IT.Key>, jobs: seq<IT.Job>, jobs': seq<IT.Job>)
    requires Settled(ledger, keys, jobs)
    requires |jobs| == |jobs'| && forall i :: 0 <= i < |jobs| ==> BooksKept(jobs[i], jobs'[i])
    ensures Settled(ledger, keys, jobs')
  {
    forall i | 0 <= i < |jobs'| ensures JobSettled(ledger, jobs'[i]) {
      assert JobSettled(ledger, jobs[i]);
    }
    forall key ensures KeySettled(keys, jobs', key) {
      assert KeySettled(keys, jobs, key);
      KeptKeyTotal(jobs, jobs', key);
    }
    forall key: OperationKey | key.typ == IT.SERVICE && HasOperation(ledger.entries, key)
      ensures exists i :: 0 <= i < |jobs'| && IT.OperationOf(jobs'[i].request) == key
    {
      var i :| 0 <= i < |jobs| && IT.OperationOf(jobs[i].request) == key;
      assert IT.OperationOf(jobs'[i].request) == key;
    }
  }

  ghost predicate WorldSettled(w: IT.World) {
    Settled(w.ledger, w.keys, w.jobs)
  }

  lemma KeyCoversJob(w: IT.World, j: nat)
    requires WorldSettled(w) && j < |w.jobs|
    ensures var keyId := w.jobs[j].request.keyId;
      && "" !in w.keys
      && (keyId in w.keys ==> w.keys[keyId].user == w.jobs[j].request.user && w.jobs[j].consumed <= w.keys[keyId].used)
  {
    var keyId := w.jobs[j].request.keyId;
    assert KeySettled(w.keys, w.jobs, keyId) && KeySettled(w.keys, w.jobs, "");
    forall i | 0 <= i < |w.jobs| ensures 0 <= w.jobs[i].consumed {
      assert JobSettled(w.ledger, w.jobs[i]);
    }
    KeyTotalCovers(w.jobs, j, keyId);
  }

  lemma FailureKeepsSettled(w: IT.World, j: nat, cause: Option<IT.Cause>, suffix: string, env: Env, next: IT.World)
    requires WorldSettled(w) && j < |w.jobs| && w.jobs[j].status == IT.Pending
    requires IT.SettleFailure(IT.Books(w.ledger, w.keys), w.jobs[j], cause, suffix, env).Ok?
    requires var (b, failed) := IT.SettleFailure(IT.Books(w.ledger, w.keys), w.jobs[j], cause, suffix, env).value;
      && next.ledger == b.ledger && next.keys == b.keys && |next.jobs| == |w.jobs|
      && BooksKept(failed, next.jobs[j]) && next.jobs == w.jobs[j := next.jobs[j]]
    ensures WorldSettled(next)
  {
    var (b, failed) := IT.SettleFailure(IT.Books(w.ledger, w.keys), w.jobs[j], cause, suffix, env).value;
    KeyCoversJob(w, j);
    SettleFailureMovesBooks(w.ledger, w.keys, w.jobs[j], cause, suffix, env);
    MoveKeepsSettled(w.ledger, w.keys, w.jobs, j, b.ledger, b.keys, failed);
    KeptStaysSettled(b.ledger, b.keys, w.jobs[j := failed], next.jobs);
  }

  lemma FailGenerationSettled(w: IT.World, v: nat, cause: IT.Cause, env: Env)
    requires WorldSettled(w) && v < |w.workers| && w.workers[v].job < |w.jobs|
    ensures WorldSettled(IT.FailGenerationNext(w, v, cause, env))
  {
    var j := w.workers[v].job;
    var next := IT.FailGenerationNext(w, v, cause, env);
    if IT.HoldsClaim(w, v, j) && w.jobs[j].status.Pending? {
      var settled := IT.SettleFailure(IT.Books(w.ledger, w.keys), w.jobs[j], Some(cause), ":worker-refund", env.(now := w.now));
      if settled.Ok? {
        FailureKeepsSettled(w, j, Some(cause), ":worker-refund", env.(now := w.now), next);
      }
    }
  }

  lemma ExpireJobSettled(w: IT.World, j: nat, cutoff: int, env: Env)
    requires WorldSettled(w) && j < |w.jobs|
    ensures WorldSettled(IT.ExpireJobNext(w, j, cutoff, env))
  {
    var next := IT.ExpireJobNext(w, j, cutoff, env);
    if w.jobs[j].status.Pending? && w.jobs[j].created < cutoff {
      var settled := IT.SettleFailure(IT.Books(w.ledger, w.keys), w.jobs[j], None, ":timeout-refund", env.(now := w.now));
      if settled.Ok? {
        FailureKeepsSettled(w, j, None, ":timeout-refund", env.(now := w.now), next);
      }
    }
  }

  lemma RepairKeepsSettled(w: IT.World, j: nat, cents: nat, ref: string, env: Env, next: IT.World)
    requires WorldSettled(w) && j < |w.jobs| && w.jobs[j].status == IT.Pending
    requires var job := w.jobs[j];
      IT.Charge(IT.Books(w.ledger, w.keys), job.request, IT.RepairKey(job.request), job.created, cents, ref, env).Ok?
    requires var job := w.jobs[j];
      var (b, replayed) :=
        IT.Charge(IT.Books(w.ledger, w.keys), job.request, IT.RepairKey(job.request), job.created, cents, ref, env).value;
      && next.ledger == b.ledger && next.keys == b.keys && |next.jobs| == |w.jobs|
      && BooksKept(job.(consumed := if replayed then job.consumed else job.consumed + cents), next.jobs[j])
      && next.jobs == w.jobs[j := next.jobs[j]]
    ensures WorldSettled(next)
  {
    var job := w.jobs[j];
    var (b, replayed) :=
      IT.Charge(IT.Books(w.ledger, w.keys), job.request, IT.RepairKey(job.request), job.created, cents, ref, env).value;
    var job' := job.(consumed := if replayed then job.consumed else job.consumed + cents);
    forall k | k in w.keys ensures k !in IT.RESERVED_KEYS {
      assert KeySettled(w.keys, w.jobs, k);
    }
    assert JobSettled(w.ledger, job);
    RepairMovesBooks(w.ledger, w.keys, job, cents, ref, env);
    MoveKeepsSettled(w.ledger, w.keys, w.jobs, j, b.ledger, b.keys, job');
    KeptStaysSettled(b.ledger, b.keys, w.jobs[j := job'], next.jobs);
  }

  lemma ChargeRepairSettled(w: IT.World, v: nat, step: string, cents: nat, env: Env)
    requires WorldSettled(w) && v < |w.workers| && w.workers[v].job < |w.jobs|
    ensures WorldSettled(IT.ChargeRepairNext(w, v, step, cents, env))
  {
    var j := w.workers[v].job;
    var job := w.jobs[j];
    var next := IT.ChargeRepairNext(w, v, step, cents, env);
    if next != w {
      RepairKeepsSettled(w, j, cents, IT.RepairRef(job.request, step), env.(now := w.now), next);
    }
  }

  /** Ledger transactions of other parts of the system leave the books of every generation alone. */
  lemma OtherLedgerSettled(w: IT.World, step: Step)
    requires WorldSettled(w) && IT.Foreign(step)
    ensures WorldSettled(w.(ledger := Apply(w.ledger, step)))
  {
    StepAgrees(w.ledger, step);
    var next := w.(ledger := Apply(w.ledger, step));
    forall key: OperationKey | key.typ == IT.SERVICE ensures SameOperation(w.ledger.entries, next.ledger.entries, key) {
      ForeignKeepsOperation(w.ledger, step, key);
    }
    forall j | 0 <= j < |next.jobs| ensures JobSettled(next.ledger, next.jobs[j]) {
      JobStaysSettled(w.ledger, next.ledger, w.jobs[j]);
    }
    forall key: OperationKey | key.typ == IT.SERVICE && HasOperation(next.ledger.entries, key)
      ensures exists j :: 0 <= j < |next.jobs| && IT.OperationOf(next.jobs[j].request) == key
    {
      assert SameOperation(w.ledger.entries, next.ledger.entries, key);
    }
  }

  lemma SameOperationTransitive(a: seq<Entry>, b: seq<Entry>, c: seq<Entry>, key: OperationKey)
    requires SameOperation(a, b, key) && SameOperation(b, c, key)
    ensures SameOperation(a, c, key)
  {
  }

  lemma ForeignKeepsOperation(t: Tables, step: Step, key: OperationKey)
    requires Agrees(t) && IT.Foreign(step) && key.typ == IT.SERVICE
    ensures SameOperation(t.entries, Apply(t, step).entries, key)
  {
    var user := if step.Award? || step.Spend? then step.m.user else step.user;
    var env := step.env;
    var locked := Lock(t, user, env.now, env.requestId);
    LockAgrees(t, user, env.now, env.requestId);
    LockKeepsOperations(t, user, env.now, env.requestId);
    assert SameOperation(t.entries, locked.entries, key);
    if Attempt(t, step).Ok? {
      match step
      case Sweep(_, _) => ExpireKeepsOperation(t, user, env.now, env.requestId, key);
      case Open(_, _) =>
      case Award(m, _) => AwardKeepsOperation(locked, m, env, key);
                          SameOperationTransitive(t.entries, locked.entries, Apply(t, step).entries, key);
      case Spend(m, _) => SpendKeepsOperation(locked, m, env, key);
                          SameOperationTransitive(t.entries, locked.entries, Apply(t, step).entries, key);
      case Bonus(_, amount, _) => BonusKeepsOperation(t, locked, user, amount, env, key);
                                  SameOperationTransitive(t.entries, locked.entries, Apply(t, step).entries, key);
      case Repair(_, _) => RepairKeepsOperation(locked, user, env, key);
                           SameOperationTransitive(t.entries, locked.entries, Apply(t, step).entries, key);
      case SetFrozen(_, _, _) =>
    }
  }

  lemma SpendKeepsOperation(t: Tables, m: Mutation, env: Env, key: OperationKey)
    requires m.user in t.wallets && ConsumeCredit(t, m, env).Ok? && m.opType != key.typ && key.typ == IT.SERVICE
    ensures SameOperation(t.entries, ConsumeCredit(t, m, env).value.tables.entries, key)
  {
    var amount := ValidateAmount(m.amount, false).value;
    if ConsumeReplay(t, m, amount).value.None? {
      var posted, rebuilt := PostedConsumption(t, m, amount, env);
      AppendKeepsOthers(t.entries, ConsumptionEntry(m, amount, env), key);
    }
  }

  lemma AwardKeepsOperation(t: Tables, m: Mutation, env: Env, key: OperationKey)
    requires m.user in t.wallets && GrantCredit(t, m, env).Ok? && m.opType != key.typ
    ensures SameOperation(t.entries, GrantCredit(t, m, env).value.tables.entries, key)
  {
    var amount := ValidateAmount(m.amount, false).value;
    var (source, typ) := GrantKind(m).value;
    if GrantReplay(t, m, source, typ, amount).value.None? {
      var expires, posted, rebuilt := PostedGrant(t, m, amount, source, typ, env);
      AppendKeepsOthers(t.entries, GrantEntry(m, amount, typ, env), key);
    }
  }

  lemma RepairKeepsOperation(t: Tables, user: string, env: Env, key: OperationKey)
    requires Agrees(t) && RepairBonusExpiry(t, user, env).Ok?
    ensures SameOperation(t.entries, RepairBonusExpiry(t, user, env).value.entries, key)
  {
    var shortened := t.(batches := ShortenAll(t.batches, user, env.freeExpiryDays));
    forall i | 0 <= i < |shortened.batches| ensures BatchSound(shortened.batches[i]) {
      assert BatchSound(t.batches[i]);
    }
    ExpireKeepsOperation(shortened, user, env.now, env.requestId, key);
  }

  lemma BonusKeepsOperation(t: Tables, locked: Tables, user: string, amount: real, env: Env, key: OperationKey)
    requires locked == Lock(t, user, env.now, env.requestId) && Agrees(locked)
    requires RegistrationBonus(t, user, amount, env).Ok? && key.typ == IT.SERVICE
    ensures SameOperation(locked.entries, RegistrationBonus(t, user, amount, env).value.entries, key)
  {
    if HasRegistrationBonus(locked.entries, user) {
      RepairKeepsOperation(locked, user, env, key);
    } else if ValidateAmount(amount, true).value != 0 {
      AwardKeepsOperation(locked, BonusMutation(user, amount), env, key);
    }
  }

  lemma EditKeySettled(w: IT.World, keyId: string, active: bool, limit: Option<int>)
    requires WorldSettled(w) && keyId in w.keys
    ensures WorldSettled(w.(keys := w.keys[keyId := w.keys[keyId].(active := active, limit := limit)]))
  {
    var next := w.(keys := w.keys[keyId := w.keys[keyId].(active := active, limit := limit)]);
    forall key ensures KeySettled(next.keys, next.jobs, key) {
      assert KeySettled(w.keys, w.jobs, key);
    }
  }

  predicate MovesBooks(e: IT.Event) {
    e.FailGeneration? || e.ChargeRepair?
  }

  predicate Sends(e: IT.Event) {
    e.Fence? || e.FenceOpaque? || e.Send?
  }

  predicate Stores(e: IT.Event) {
    e.Answer? || e.Persist? || e.Complete?
  }

  // What an event of a worker that moves no credits does to its row and the books.
  predicate OwnRowKept(w: IT.World, next: IT.World, j: nat)
    requires j < |w.jobs|
  {
    && next.ledger == w.ledger && next.keys == w.keys && |next.jobs| == |w.jobs|
    && next.jobs == w.jobs[j := next.jobs[j]] && BooksKept(w.jobs[j], next.jobs[j])
  }

  lemma FencesKeepBooks(w: IT.World, v: nat)
    requires v < |w.workers| && w.workers[v].job < |w.jobs|
    ensures OwnRowKept(w, IT.FenceNext(w, v), w.workers[v].job) && OwnRowKept(w, IT.FenceOpaqueNext(w, v), w.workers[v].job)
  {
    assert w.jobs == w.jobs[w.workers[v].job := w.jobs[w.workers[v].job]];
  }

  lemma SendKeepsBooks(w: IT.World, v: nat, e: IT.Event)
    requires v < |w.workers| && w.workers[v].job < |w.jobs| && Sends(e)
    ensures OwnRowKept(w, IT.WorkerNext(w, v, e), w.workers[v].job)
  {
    assert w.jobs == w.jobs[w.workers[v].job := w.jobs[w.workers[v].job]];
    FencesKeepBooks(w, v);
  }

  lemma StoreKeepsBooks(w: IT.World, v: nat, e: IT.Event)
    requires v < |w.workers| && w.workers[v].job < |w.jobs| && Stores(e)
    ensures OwnRowKept(w, IT.WorkerNext(w, v, e), w.workers[v].job)
  {
    assert w.jobs == w.jobs[w.workers[v].job := w.jobs[w.workers[v].job]];
  }

  lemma ClaimKeepsBooks(w: IT.World, v: nat, e: IT.Event)
    requires v < |w.workers| && w.workers[v].job < |w.jobs| && IT.OfWorker(e) && !MovesBooks(e) && !Sends(e) && !Stores(e)
    requires !IT.MovesPhaseOnly(e)
    ensures OwnRowKept(w, IT.WorkerNext(w, v, e), w.workers[v].job)
  {
    assert w.jobs == w.jobs[w.workers[v].job := w.jobs[w.workers[v].job]];
  }

  lemma PhaseKeepsBooks(w: IT.World, v: nat, e: IT.Event)
    requires v < |w.workers| && w.workers[v].job < |w.jobs| && IT.MovesPhaseOnly(e)
    ensures OwnRowKept(w, IT.WorkerNext(w, v, e), w.workers[v].job)
  {
    assert w.jobs == w.jobs[w.workers[v].job := w.jobs[w.workers[v].job]];
  }

  lemma OwnRowSettled(w: IT.World, next: IT.World, j: nat)
    requires WorldSettled(w) && j < |w.jobs| && OwnRowKept(w, next, j)
    ensures WorldSettled(next)
  {
    KeptStaysSettled(w.ledger, w.keys, w.jobs, next.jobs);
  }

  lemma WorkerEventSettled(w: IT.World, v: nat, e: IT.Event)
    requires WorldSettled(w) && v < |w.workers| && w.workers[v].job < |w.jobs| && IT.OfWorker(e)
    ensures WorldSettled(IT.WorkerNext(w, v, e))
  {
    if e.FailGeneration? {
      if w.workers[v].phase.Failing? {
        FailGenerationSettled(w, v, w.workers[v].phase.cause, e.env);
      }
    } else if e.ChargeRepair? {
      if w.workers[v].phase.Produced? {
        ChargeRepairSettled(w, v, e.step, e.cents, e.env);
      }
    } else {
      if Sends(e) {
        SendKeepsBooks(w, v, e);
      } else if Stores(e) {
        StoreKeepsBooks(w, v, e);
      } else if IT.MovesPhaseOnly(e) {
        PhaseKeepsBooks(w, v, e);
      } else {
        ClaimKeepsBooks(w, v, e);
      }
      OwnRowSettled(w, IT.WorkerNext(w, v, e), w.workers[v].job);
    }
  }

  lemma DispatchKeepsSettled(w: IT.World, j: nat)
    requires WorldSettled(w) && j < |w.jobs|
    ensures WorldSettled(IT.DispatchNext(w, j))
  {
    KeptStaysSettled(w.ledger, w.keys, w.jobs, IT.DispatchNext(w, j).jobs);
  }

  lemma StartKeepsSettled(w: IT.World, j: nat)
    requires WorldSettled(w) && j < |w.jobs|
    ensures WorldSettled(IT.StartNext(w, j))
  {
    KeptStaysSettled(w.ledger, w.keys, w.jobs, IT.StartNext(w, j).jobs);
  }

  // Events outside the workers that may move money.
  predicate MovesMoney(e: IT.Event) {
    e.Create? || e.ExpireJob? || e.OtherLedger?
  }

  lemma MoneySettled(w: IT.World, e: IT.Event)
    requires WorldSettled(w) && MovesMoney(e)
    ensures WorldSettled(IT.Next(w, e))
  {
    if e.Create? {
      CreationSettled(w, e.request, e.env);
    } else if e.ExpireJob? {
      ExpirySettled(w, e.job, e.cutoff, e.env);
    } else {
      TransactionSettled(w, e.transaction);
    }
  }

  lemma ExpiryEvent(w: IT.World, j: nat, cutoff: int, env: Env)
    ensures IT.Next(w, IT.ExpireJob(j, cutoff, env)) == if j < |w.jobs| then IT.ExpireJobNext(w, j, cutoff, env) else w
  {
  }

  lemma ExpirySettled(w: IT.World, j: nat, cutoff: int, env: Env)
    requires WorldSettled(w)
    ensures WorldSettled(IT.Next(w, IT.ExpireJob(j, cutoff, env)))
  {
    ExpiryEvent(w, j, cutoff, env);
    if j < |w.jobs| {
      ExpireJobSettled(w, j, cutoff, env);
    }
  }

  lemma CreationSettled(w: IT.World, r: IT.Request, env: Env)
    requires WorldSettled(w)
    ensures WorldSettled(IT.Next(w, IT.Create(r, env)))
  {
    if IT.WellFormed(r) && IT.CreateTask(w, r, env).Ok? {
      CreateKeepsSettled(w, r, env);
    }
  }

  lemma TransactionSettled(w: IT.World, step: Step)
    requires WorldSettled(w)
    ensures WorldSettled(IT.Next(w, IT.OtherLedger(step)))
  {
    if IT.Foreign(step) {
      OtherLedgerSettled(w, step);
    }
  }

  lemma TickSettled(w: IT.World, seconds: nat)
    requires WorldSettled(w)
    ensures WorldSettled(w.(now := w.now + seconds))
  {
  }

  lemma OutsideSettled(w: IT.World, e: IT.Event)
    requires WorldSettled(w) && !IT.OfWorker(e) && !MovesMoney(e)
    ensures WorldSettled(IT.Next(w, e))
  {
    if e.Dispatch? {
      if e.job < |w.jobs| { DispatchKeepsSettled(w, e.job); }
    } else if e.Start? {
      if e.job < |w.jobs| { StartKeepsSettled(w, e.job); }
    } else if e.EditKey? {
      if e.keyId in w.keys { EditKeySettled(w, e.keyId, e.active, e.limit); }
    } else {
      TickSettled(w, e.seconds);
    }
  }

  /** Every transition keeps the ledger, the rows and the keys settled. */
  lemma NextSettled(w: IT.World, e: IT.Event)
    requires WorldSettled(w)
    ensures WorldSettled(IT.Next(w, e))
  {
    if MovesMoney(e) {
      MoneySettled(w, e);
    } else if !IT.OfWorker(e) {
      OutsideSettled(w, e);
    } else if e.worker < |w.workers| && w.workers[e.worker].job < |w.jobs| {
      WorkerEventSettled(w, e.worker, e);
    }
  }

  lemma InitialSettled(w: IT.World)
    requires IT.Initial(w)
    ensures WorldSettled(w)
  {
    assert forall key :: KeySettled(w.keys, w.jobs, key);
  }

  lemma {:induction false} RunSettled(w: IT.World, events: seq<IT.Event>)
    requires IT.Initial(w)
    ensures WorldSettled(IT.Run(w, events))
  {
    if events == [] {
      InitialSettled(w);
    } else {
      RunSettled(w, events[..|events| - 1]);
      NextSettled(IT.Run(w, events[..|events| - 1]), events[|events| - 1]);
    }
  }

  // -------------------------------------------------------------- theorems

  /**
   * Exactly-once settlement: in every run the ledger consumption of a generation
   * minus its refunds is what its row says was consumed, at most one refund was
   * ever granted, and none for a generation that is pending or completed.
   */
  lemma SettledExactlyOnce(w: IT.World, events: seq<IT.Event>, j: nat)
    requires IT.Initial(w) && j < |IT.Run(w, events).jobs|
    ensures var r := IT.Run(w, events);
      var tally := TallyOf(r.ledger.entries, IT.OperationOf(r.jobs[j].request));
      && tally.gross - tally.returned == r.jobs[j].consumed
      && tally.refunds <= 1
      && (r.jobs[j].status != IT.Failed ==> tally.refunds == 0 && tally.gross == r.jobs[j].consumed)
  {
    RunSettled(w, events);
    var r := IT.Run(w, events);
    assert JobSettled(r.ledger, r.jobs[j]);
  }

  /** In every run a key's used credits moved by exactly what the generations bound to it consumed. */
  lemma KeysFollowGenerations(w: IT.World, events: seq<IT.Event>, key: string)
    requires IT.Initial(w) && key in IT.Run(w, events).keys
    ensures var r := IT.Run(w, events); r.keys[key].used == r.keys[key].opening + KeyTotal(r.jobs, key)
  {
    RunSettled(w, events);
    assert KeySettled(IT.Run(w, events).keys, IT.Run(w, events).jobs, key);
  }
}
