/**
 * The image task protocol: rows shared by any number of workers, and one
 * transition per database statement, provider call or crash. The session lock
 * around a worker is not modelled: safety rests on the claim token and on the
 * submission fence alone.
 */
module ImageTasks {
  import opened Prelude
  import opened Ledger
  import opened Spending
  import Conservation

  // ------------------------------------------------------------------ rows

  datatype GenerationStatus = Pending | Completed | Failed

  datatype TaskStatus = Queued | Running | Closed(final: GenerationStatus)

  // The persisted provider state of a generation.
  datatype Stage =
    | NoStage
    | Submitting(startedAt: int)
    | OpaqueSubmitting(startedAt: int)
    | Polling(providerId: string, startedAt: int, failures: nat)

  // What became of one request sent to the provider.
  datatype Submission = Unanswered | Rejected | Answered

  datatype Quote = Quote(amount: nat, moderationOnly: int, moderationFailure: int)

  datatype Request = Request(
    taskId: string, generationId: string, user: string, keyId: string, digest: string,
    format: string, callback: string, transparent: bool, quote: Quote)

  // A generation row with its task row. `attempts` and `repairs` are the repair steps
  // with a receipt and with a completed one. `owner`, `sends` and `edits` record who
  // passed the submission fence and what the provider received.
  datatype Job = Job(
    request: Request, created: int,
    status: GenerationStatus, consumed: int, moderated: bool, stage: Stage, attempts: set<string>, repairs: set<string>,
    task: TaskStatus, token: Option<nat>, claimExpires: int, due: Option<int>,
    owner: Option<nat>, sends: seq<Submission>, edits: multiset<string>)

  datatype Key = Key(user: string, active: bool, limit: Option<int>, opening: int, used: int)

  // --------------------------------------------------------------- workers

  datatype Cause = ModerationBlocked | ModerationUnavailable | OtherFailure

  datatype Phase =
    | Started
    | Reconciling(final: GenerationStatus)
    | StatusRead
    | Preparing
    | Fenced
    | Sent
    | Refused
    | OpaqueFenced
    | OpaqueSent
    | Accepted(providerId: string)
    | Resuming(providerId: string, failures: nat)
    | Querying(providerId: string, failures: nat)
    | Polled(providerId: string, failures: nat)
    | Produced
    | Failing(cause: Cause)
    | Closing
    | Done

  // `edits` are the repair steps this worker fenced; true once sent to the provider.
  datatype Worker = Worker(job: nat, token: nat, phase: Phase, startedAt: int, edits: map<string, bool>)

  datatype World = World(
    now: int, ledger: Tables, keys: map<string, Key>, limits: map<string, int>,
    jobs: seq<Job>, workers: seq<Worker>, tokens: nat)

  const CLAIM_TTL := 900
  const POLLING_LIMIT := 1200
  const QUERY_FAILURE_LIMIT := 3
  const DEFAULT_CONCURRENCY := 20
  const SERVICE := "image_generation"
  const SESSION_KEY := "web:session"

  function SetJob(w: World, j: nat, job: Job): World
    requires j < |w.jobs|
  {
    w.(jobs := w.jobs[j := job])
  }

  function SetPhase(w: World, v: nat, phase: Phase): World
    requires v < |w.workers|
  {
    w.(workers := w.workers[v := w.workers[v].(phase := phase)])
  }

  predicate HoldsClaim(w: World, v: nat, j: nat)
    requires v < |w.workers| && j < |w.jobs|
  {
    w.jobs[j].token == Some(w.workers[v].token)
  }

  predicate HoldsLiveClaim(w: World, v: nat, j: nat)
    requires v < |w.workers| && j < |w.jobs|
  {
    HoldsClaim(w, v, j) && w.jobs[j].claimExpires > w.now
  }

  // --------------------------------------------------------------- charges

  function TaskKey(r: Request): string {
    if r.keyId == "" then SESSION_KEY else r.keyId
  }

  function OperationOf(r: Request): OperationKey {
    OperationKey(r.user, SERVICE, r.generationId)
  }

  function Credits(cents: int): real {
    cents as real / 100.0
  }

  function ChargeMutation(r: Request, created: int, cents: nat, ref: string): Mutation {
    Mutation("consume", r.user, Credits(cents), "", "", ref, SERVICE, None, false, SERVICE, r.generationId, Some(created))
  }

  function RefundMutation(r: Request, created: int, cents: nat, ref: string): Mutation {
    Mutation("refund", r.user, Credits(cents), "", "", ref, "", None, false, SERVICE, r.generationId, Some(created))
  }

  function ChargeKey(keys: map<string, Key>, keyId: string, user: string, cents: int): Result<map<string, Key>, CreditError> {
    if keyId !in keys then Err(InsufficientCredits)
    else
      var k := keys[keyId];
      if k.user != user || !k.active || (k.limit.Some? && k.used + cents > k.limit.value) then Err(InsufficientCredits)
      else Ok(keys[keyId := k.(used := k.used + cents)])
  }

  function ReturnToKey(keys: map<string, Key>, keyId: string, user: string, cents: int): map<string, Key> {
    if keyId != "" && keyId in keys && keys[keyId].user == user then
      keys[keyId := keys[keyId].(used := Max(0, keys[keyId].used - cents))]
    else keys
  }

  datatype Books = Books(ledger: Tables, keys: map<string, Key>)

  const RESERVED_KEYS := {"", "site", "session", SESSION_KEY}

  /** The key a repair charges: the task's, unless it names a session. */
  function RepairKey(r: Request): string {
    if TaskKey(r) in RESERVED_KEYS then "" else TaskKey(r)
  }

  /** Charges the wallet and the given key; a replayed charge moves neither. */
  function Charge(b: Books, r: Request, keyId: string, created: int, cents: nat, ref: string, env: Env)
    : Result<(Books, bool), CreditError>
  {
    var posting :- ConsumeCredit(Lock(b.ledger, r.user, env.now, env.requestId), ChargeMutation(r, created, cents, ref), env);
    if posting.receipt.replayed then Ok((Books(posting.tables, b.keys), true))
    else
      var keys :- if keyId != "" then ChargeKey(b.keys, keyId, r.user, cents) else Ok(b.keys);
      Ok((Books(posting.tables, keys), false))
  }

  /** Refunds the wallet and the bound key; a replayed refund moves neither. */
  function Return(b: Books, r: Request, created: int, cents: nat, ref: string, env: Env): Result<Books, CreditError> {
    var posting :- GrantCredit(Lock(b.ledger, r.user, env.now, env.requestId), RefundMutation(r, created, cents, ref), env);
    Ok(Books(posting.tables,
             if posting.receipt.replayed then b.keys else ReturnToKey(b.keys, r.keyId, r.user, cents)))
  }

  /** The moderation fee a failure earned: the blocked fee, the fee of a completed check, or none. */
  function EarnedFee(cause: Option<Cause>, quote: Quote, moderated: bool): int {
    if cause == Some(ModerationUnavailable) then 0
    else if cause == Some(ModerationBlocked) then quote.moderationFailure
    else if moderated then quote.moderationOnly
    else 0
  }

  /** Credits kept by a failed generation: the earned fee, never more than was charged. */
  function Retained(cause: Option<Cause>, charged: int, quote: Quote, moderated: bool): (r: int)
    ensures 0 <= charged ==> 0 <= r <= charged
    ensures 0 <= EarnedFee(cause, quote, moderated) <= charged ==> r == EarnedFee(cause, quote, moderated)
    ensures 0 <= charged <= EarnedFee(cause, quote, moderated) ==> r == charged
    ensures cause == Some(ModerationUnavailable) || EarnedFee(cause, quote, moderated) <= 0 || charged <= 0 ==> r == 0
  {
    Min(Max(0, charged), Max(0, EarnedFee(cause, quote, moderated)))
  }

  /** Refunds unless there is nothing to refund. */
  function RefundRest(b: Books, r: Request, created: int, cents: int, ref: string, env: Env): Result<Books, CreditError> {
    if cents > 0 then Return(b, r, created, cents, ref, env) else Ok(b)
  }

  /** Refunds a generation, except what it keeps, and closes it as failed. */
  function SettleKeeping(b: Books, job: Job, kept: int, ref: string, env: Env): Result<(Books, Job), CreditError> {
    var settled :- RefundRest(b, job.request, job.created, job.consumed - kept, ref, env);
    Ok((settled, job.(status := Failed, consumed := kept)))
  }

  /** Settles the failure of a pending generation, which keeps an earned moderation fee. */
  function SettleFailure(b: Books, job: Job, cause: Option<Cause>, suffix: string, env: Env): Result<(Books, Job), CreditError> {
    SettleKeeping(b, job, Retained(cause, job.consumed, job.request.quote, job.moderated), job.request.generationId + suffix, env)
  }

  // -------------------------------------------------------------- creation

  predicate Matches(job: Job, r: Request) {
    job.request.taskId == r.taskId || job.request.generationId == r.generationId
  }

  predicate SameRequest(job: Job, r: Request) {
    && job.request.taskId == r.taskId && job.request.generationId == r.generationId
    && job.request.user == r.user && TaskKey(job.request) == TaskKey(r)
    && job.request.digest == r.digest && job.request.format == r.format && job.request.callback == r.callback
  }

  // Normalised requests always carry both identifiers.
  predicate WellFormed(r: Request) {
    r.taskId != "" && r.generationId != ""
  }

  datatype CreateError = Conflict | TooManyTasks | NotCharged(error: CreditError)

  /** The task an identical request created, nothing if both identifiers are unused. */
  function ExistingTask(jobs: seq<Job>, n: nat, r: Request): (existing: Result<Option<nat>, CreateError>)
    requires n <= |jobs|
    ensures existing.Err? ==> existing.error == Conflict
    ensures existing.Ok? && existing.value.Some? ==> existing.value.value < n && SameRequest(jobs[existing.value.value], r)
  {
    if n == 0 then Ok(None)
    else
      var earlier :- ExistingTask(jobs, n - 1, r);
      if !Matches(jobs[n - 1], r) then Ok(earlier)
      else if earlier.Some? || !SameRequest(jobs[n - 1], r) then Err(Conflict)
      else Ok(Some(n - 1))
  }

  predicate Unfinished(job: Job, user: string) {
    job.request.user == user && (job.task.Queued? || job.task.Running?) && job.status.Pending?
  }

  function UnfinishedCount(jobs: seq<Job>, user: string): nat {
    if jobs == [] then 0
    else UnfinishedCount(jobs[..|jobs| - 1], user) + if Unfinished(jobs[|jobs| - 1], user) then 1 else 0
  }

  function LimitOf(w: World, user: string): int {
    if user in w.limits then w.limits[user] else DEFAULT_CONCURRENCY
  }

  function NewJob(r: Request, created: int): Job {
    Job(r, created, Pending, r.quote.amount, false, NoStage, {}, {}, Queued, None, 0, None, None, [], multiset{})
  }

  /** Charges a new generation and queues its task. */
  function Enqueue(w: World, r: Request, env: Env): Result<World, CreditError> {
    var charged :- Charge(Books(w.ledger, w.keys), r, r.keyId, w.now, r.quote.amount, r.generationId, env.(now := w.now));
    var (books, _) := charged;
    Ok(w.(ledger := books.ledger, keys := books.keys, jobs := w.jobs + [NewJob(r, w.now)]))
  }

  /** Creates the generation, charges it and queues its task, all or nothing. */
  function CreateTask(w: World, r: Request, env: Env): Result<(World, nat), CreateError> {
    var existing :- ExistingTask(w.jobs, |w.jobs|, r);
    if existing.Some? then Ok((w, existing.value))
    else if UnfinishedCount(w.jobs, r.user) >= LimitOf(w, r.user) then Err(TooManyTasks)
    else
      var queued := Enqueue(w, r, env);
      if queued.Err? then Err(NotCharged(queued.error)) else Ok((queued.value, |w.jobs|))
  }

  // ----------------------------------------------------------- transitions

  datatype Reply =
    | TransparencyRefused
    | Output
    | AcceptedAs(id: string)
    | Unavailable
    | Broken(cause: Cause)

  datatype Event =
    | Tick(seconds: nat)
    | Create(request: Request, env: Env)
    | Dispatch(job: nat)
    | Start(job: nat)
    | Heartbeat(worker: nat)
    | ReadStatus(worker: nat)
    | Reconcile(worker: nat)
    | ReadStage(worker: nat)
    | Moderate(worker: nat)
    | GiveUp(worker: nat, cause: Cause)
    | Fence(worker: nat)
    | Send(worker: nat)
    | Answer(worker: nat, reply: Reply)
    | FenceOpaque(worker: nat)
    | Reserve(worker: nat, room: bool)
    | Query(worker: nat, reply: Reply)
    | Persist(worker: nat, delay: int)
    | FenceEdit(worker: nat, step: string)
    | SendEdit(worker: nat, step: string)
    | ChargeRepair(worker: nat, step: string, cents: nat, env: Env)
    | Complete(worker: nat)
    | FailGeneration(worker: nat, env: Env)
    | CloseTask(worker: nat)
    | Release(worker: nat, wait: int)
    | Crash(worker: nat)
    | ExpireJob(job: nat, cutoff: int, env: Env)
    | OtherLedger(transaction: Conservation.Step)
    | EditKey(keyId: string, active: bool, limit: Option<int>)

  /** A free or lapsed task whose next delivery is due. */
  predicate Claimable(job: Job, now: int) {
    && (job.task.Queued? || (job.task.Running? && (job.token.None? || job.claimExpires <= now)))
    && (job.due.None? || job.due.value <= now)
  }

  /** Takes a claimable task. */
  function DispatchNext(w: World, j: nat): World
    requires j < |w.jobs|
  {
    var job := w.jobs[j];
    if Claimable(job, w.now) then
      SetJob(w, j, job.(task := Running, token := Some(w.tokens), claimExpires := w.now + CLAIM_TTL, due := None))
      .(tokens := w.tokens + 1)
    else w
  }

  /** A worker replaces the claim with its own token, live or not. */
  function StartNext(w: World, j: nat): World
    requires j < |w.jobs|
  {
    var job := w.jobs[j];
    if job.task.Closed? then w
    else
      SetJob(w, j, job.(task := Running, token := Some(w.tokens), claimExpires := w.now + CLAIM_TTL))
      .(tokens := w.tokens + 1, workers := w.workers + [Worker(j, w.tokens, Started, 0, map[])])
  }

  /** The submission fence: pending, never submitted, and the worker's claim still live. */
  function FenceNext(w: World, v: nat): World
    requires v < |w.workers| && w.workers[v].job < |w.jobs|
  {
    var j := w.workers[v].job;
    var job := w.jobs[j];
    if job.status.Pending? && job.stage.NoStage? && HoldsLiveClaim(w, v, j) then
      SetJob(w, j, job.(stage := Submitting(w.now), owner := Some(v)))
      .(workers := w.workers[v := w.workers[v].(phase := Fenced, startedAt := w.now)])
    else SetPhase(w, v, Done)
  }

  /** The second fence, before the one opaque retry. */
  function FenceOpaqueNext(w: World, v: nat): World
    requires v < |w.workers| && w.workers[v].job < |w.jobs|
  {
    var j := w.workers[v].job;
    var job := w.jobs[j];
    if job.status.Pending? && HoldsLiveClaim(w, v, j) then
      SetPhase(SetJob(w, j, job.(stage := OpaqueSubmitting(w.workers[v].startedAt))), v, OpaqueFenced)
    else SetPhase(w, v, Failing(OtherFailure))
  }

  function AfterReply(reply: Reply, transparent: bool): Phase {
    match reply
    case TransparencyRefused => if transparent then Refused else Failing(OtherFailure)
    case Output => Produced
    case AcceptedAs(id) => if id == "" then Failing(OtherFailure) else Accepted(id)
    case Unavailable => Failing(OtherFailure)
    case Broken(cause) => Failing(cause)
  }

  function Outcome(reply: Reply): Submission {
    if reply.TransparencyRefused? then Rejected else Answered
  }

  function AnswerNext(w: World, v: nat, reply: Reply): World
    requires v < |w.workers| && w.workers[v].job < |w.jobs|
    requires |w.jobs[w.workers[v].job].sends| > 0
  {
    var j := w.workers[v].job;
    var job := w.jobs[j];
    var answered := job.(sends := job.sends[|job.sends| - 1 := Outcome(reply)]);
    SetPhase(SetJob(w, j, answered), v, AfterReply(reply, w.workers[v].phase.Sent? && job.request.transparent))
  }

  /** Reads the persisted provider state and decides whether anything may be sent. */
  function ReadStagePhase(w: World, v: nat): Worker
    requires v < |w.workers| && w.workers[v].job < |w.jobs|
  {
    var worker := w.workers[v];
    match w.jobs[worker.job].stage
    case NoStage => worker.(phase := Preparing)
    case Polling(id, startedAt, failures) =>
      if id == "" || w.now - startedAt >= POLLING_LIMIT then worker.(phase := Failing(OtherFailure))
      else worker.(phase := Resuming(id, failures), startedAt := startedAt)
    case _ => worker.(phase := Failing(OtherFailure))
  }

  /** One provider query of an accepted task, and what the worker makes of the reply. */
  function QueryPhase(phase: Phase, reply: Reply): Phase
    requires phase.Resuming? || phase.Querying?
  {
    match reply
    case Output => Produced
    case AcceptedAs(id) => if id != "" && id != phase.providerId then Failing(OtherFailure) else Polled(phase.providerId, 0)
    case Unavailable =>
      if phase.failures >= QUERY_FAILURE_LIMIT then Failing(OtherFailure) else Polled(phase.providerId, phase.failures)
    case TransparencyRefused | Broken(_) =>
      if phase.failures + 1 >= QUERY_FAILURE_LIMIT then Failing(OtherFailure)
      else Polled(phase.providerId, phase.failures + 1)
  }

  /**
   * Reserves provider capacity for a poll, which takes the worker's own live claim.
   * A full member puts the poll off; a lost claim counts as a failed poll.
   */
  function ReservePhase(w: World, v: nat, room: bool): Phase
    requires v < |w.workers| && w.workers[v].job < |w.jobs| && w.workers[v].phase.Resuming?
  {
    var worker := w.workers[v];
    if !(w.jobs[worker.job].task.Running? && HoldsLiveClaim(w, v, worker.job)) then QueryPhase(worker.phase, Broken(OtherFailure))
    else if !room then QueryPhase(worker.phase, Unavailable)
    else Querying(worker.phase.providerId, worker.phase.failures)
  }

  /** The fence of one repair step: no receipt yet, pending, and the worker's claim still live. */
  function FenceEditNext(w: World, v: nat, step: string): World
    requires v < |w.workers| && w.workers[v].job < |w.jobs|
  {
    var j := w.workers[v].job;
    var job := w.jobs[j];
    if job.task.Running? && HoldsLiveClaim(w, v, j) && job.status.Pending? && step !in job.attempts then
      SetJob(w, j, job.(attempts := job.attempts + {step}))
      .(workers := w.workers[v := w.workers[v].(edits := w.workers[v].edits[step := false])])
    else w
  }

  /** Sends a fenced repair step to the provider. */
  function SendEditNext(w: World, v: nat, step: string): World
    requires v < |w.workers| && w.workers[v].job < |w.jobs|
  {
    var j := w.workers[v].job;
    var job := w.jobs[j];
    if step in w.workers[v].edits && !w.workers[v].edits[step] then
      SetJob(w, j, job.(edits := job.edits + multiset{step}))
      .(workers := w.workers[v := w.workers[v].(edits := w.workers[v].edits[step := true])])
    else w
  }

  /** Stores the accepted provider task and gives the claim up until the next poll. */
  function PersistNext(w: World, v: nat, delay: int): World
    requires v < |w.workers| && w.workers[v].job < |w.jobs|
    requires w.workers[v].phase.Accepted? || w.workers[v].phase.Polled?
  {
    var worker := w.workers[v];
    var j := worker.job;
    var job := w.jobs[j];
    if job.task.Closed? || !HoldsLiveClaim(w, v, j) || !job.status.Pending? then SetPhase(w, v, Failing(OtherFailure))
    else
      var failures := if worker.phase.Polled? then worker.phase.failures else 0;
      var stage := Polling(worker.phase.providerId, worker.startedAt, failures);
      var due := Some(w.now + Max(1, delay));
      SetPhase(SetJob(w, j, job.(stage := stage, task := Running, token := None, due := due)), v, Done)
  }

  /** A finished repair step that may be charged: its worker sent it, holds a live claim, and it was not charged yet. */
  predicate Chargeable(w: World, v: nat, step: string, cents: nat)
    requires v < |w.workers| && w.workers[v].job < |w.jobs|
  {
    var job := w.jobs[w.workers[v].job];
    && job.task.Running? && HoldsLiveClaim(w, v, w.workers[v].job) && job.status.Pending?
    && cents > 0 && step !in job.repairs && step in w.workers[v].edits && w.workers[v].edits[step]
  }

  function RepairRef(r: Request, step: string): string {
    r.generationId + ":blockrepair-" + step
  }

  /** Charges one finished repair step under the generation's operation and adds its receipt. */
  function PostRepair(b: Books, job: Job, step: string, cents: nat, env: Env): Result<(Books, Job), CreditError> {
    var charged :-
      Charge(b, job.request, RepairKey(job.request), job.created, cents, RepairRef(job.request, step), env);
    Ok((charged.0, Receipted(job, step, cents, charged.1)))
  }

  function Receipted(job: Job, step: string, cents: nat, replayed: bool): Job {
    job.(consumed := if replayed then job.consumed else job.consumed + cents, repairs := job.repairs + {step})
  }

  function ChargeRepairNext(w: World, v: nat, step: string, cents: nat, env: Env): World
    requires v < |w.workers| && w.workers[v].job < |w.jobs|
  {
    var j := w.workers[v].job;
    if !Chargeable(w, v, step, cents) then w
    else
      var posted := PostRepair(Books(w.ledger, w.keys), w.jobs[j], step, cents, env.(now := w.now));
      if posted.Err? then w
      else
        var (books, job) := posted.value;
        SetJob(w, j, job).(ledger := books.ledger, keys := books.keys)
  }

  function CompleteNext(w: World, v: nat): World
    requires v < |w.workers| && w.workers[v].job < |w.jobs|
  {
    var j := w.workers[v].job;
    var job := w.jobs[j];
    if HoldsLiveClaim(w, v, j) && job.task.Running? && job.status.Pending? then
      SetPhase(SetJob(w, j, job.(status := Completed, task := Closed(Completed), token := None, due := None)), v, Done)
    else SetPhase(w, v, Done)
  }

  /** The worker's failure transaction: fenced by the token, settled once. */
  function FailGenerationNext(w: World, v: nat, cause: Cause, env: Env): World
    requires v < |w.workers| && w.workers[v].job < |w.jobs|
  {
    var j := w.workers[v].job;
    var job := w.jobs[j];
    if !HoldsClaim(w, v, j) then SetPhase(w, v, Done)
    else if !job.status.Pending? then SetPhase(w, v, Closing)
    else
      var settled := SettleFailure(Books(w.ledger, w.keys), job, Some(cause), ":worker-refund", env.(now := w.now));
      if settled.Err? then SetPhase(w, v, Done)
      else
        var (books, failed) := settled.value;
        SetPhase(SetJob(w, j, failed).(ledger := books.ledger, keys := books.keys), v, Closing)
  }

  function CloseAs(job: Job, final: GenerationStatus): Job {
    job.(task := Closed(final), token := None, due := None)
  }

  /** The timeout path: settles a pending generation older than the cutoff, whoever holds it. */
  function ExpireJobNext(w: World, j: nat, cutoff: int, env: Env): World
    requires j < |w.jobs|
  {
    var job := w.jobs[j];
    if !job.status.Pending? || job.created >= cutoff then w
    else
      var settled := SettleFailure(Books(w.ledger, w.keys), job, None, ":timeout-refund", env.(now := w.now));
      if settled.Err? then w
      else
        var (books, failed) := settled.value;
        SetJob(w, j, if job.task.Closed? then failed else CloseAs(failed, Failed))
        .(ledger := books.ledger, keys := books.keys)
  }

  // A ledger transaction of another part of the system.
  predicate Foreign(step: Conservation.Step) {
    match step
    case Spend(m, _) => m.opType != SERVICE
    case Award(m, _) => m.opType != SERVICE
    case _ => true
  }

  const REDELIVERY := 5

  /**
   * Gives the claim up. An open task is delivered again after a short time, or
   * later if the worker found no capacity or a busy script and asked for a wait.
   */
  function Released(job: Job, now: int, wait: int): Job {
    job.(token := None,
         due := if job.task.Closed? then None else if job.due.Some? then job.due else Some(now + Max(REDELIVERY, wait)))
  }

  // Phases in which a local error sends the worker to its failure path.
  predicate CanGiveUp(phase: Phase) {
    phase.Started? || phase.StatusRead? || phase.Preparing? || phase.Accepted? || phase.Polled? || phase.Produced?
  }

  /** The step a worker in its phase takes; an event its phase does not allow changes nothing. */
  function WorkerNext(w: World, v: nat, e: Event): World
    requires v < |w.workers| && w.workers[v].job < |w.jobs|
  {
    var worker := w.workers[v];
    var j := worker.job;
    var job := w.jobs[j];
    match e
    case Heartbeat(_) =>
      if HoldsLiveClaim(w, v, j) && job.task.Running? && !worker.phase.Done? then
        SetJob(w, j, job.(claimExpires := w.now + CLAIM_TTL))
      else w
    case ReadStatus(_) =>
      if !worker.phase.Started? then w
      else SetPhase(w, v, if job.status.Pending? then StatusRead else Reconciling(job.status))
    case Reconcile(_) =>
      if !worker.phase.Reconciling? then w
      else SetPhase(if job.task.Closed? then w else SetJob(w, j, CloseAs(job, worker.phase.final)), v, Done)
    case ReadStage(_) =>
      if !worker.phase.StatusRead? then w else w.(workers := w.workers[v := ReadStagePhase(w, v)])
    case Moderate(_) =>
      if !worker.phase.Preparing? then w else SetJob(w, j, job.(moderated := true))
    case GiveUp(_, cause) =>
      if CanGiveUp(worker.phase) then SetPhase(w, v, Failing(cause)) else w
    case Fence(_) =>
      if !worker.phase.Preparing? then w else FenceNext(w, v)
    case Send(_) =>
      if worker.phase.Fenced? then SetPhase(SetJob(w, j, job.(sends := job.sends + [Unanswered])), v, Sent)
      else if worker.phase.OpaqueFenced? then SetPhase(SetJob(w, j, job.(sends := job.sends + [Unanswered])), v, OpaqueSent)
      else w
    case Answer(_, reply) =>
      if !(worker.phase.Sent? || worker.phase.OpaqueSent?) || job.sends == [] then w else AnswerNext(w, v, reply)
    case FenceOpaque(_) =>
      if !worker.phase.Refused? then w else FenceOpaqueNext(w, v)
    case Reserve(_, room) =>
      if !worker.phase.Resuming? then w else SetPhase(w, v, ReservePhase(w, v, room))
    case Query(_, reply) =>
      if !worker.phase.Querying? then w else SetPhase(w, v, QueryPhase(worker.phase, reply))
    case Persist(_, delay) =>
      if !(worker.phase.Accepted? || worker.phase.Polled?) then w else PersistNext(w, v, delay)
    case FenceEdit(_, step) =>
      if !worker.phase.Produced? then w else FenceEditNext(w, v, step)
    case SendEdit(_, step) =>
      if !worker.phase.Produced? then w else SendEditNext(w, v, step)
    case ChargeRepair(_, step, cents, env) =>
      if !worker.phase.Produced? then w else ChargeRepairNext(w, v, step, cents, env)
    case Complete(_) =>
      if !worker.phase.Produced? then w else CompleteNext(w, v)
    case FailGeneration(_, env) =>
      if !worker.phase.Failing? then w else FailGenerationNext(w, v, worker.phase.cause, env)
    case CloseTask(_) =>
      if !worker.phase.Closing? then w
      else SetPhase(if job.task == Closed(Completed) then w else SetJob(w, j, CloseAs(job, Failed)), v, Done)
    case Release(_, wait) =>
      SetPhase(if HoldsClaim(w, v, j) then SetJob(w, j, Released(job, w.now, wait)) else w, v, Done)
    case Crash(_) => SetPhase(w, v, Done)
    case _ => w
  }

  predicate OfWorker(e: Event) {
    !(e.Tick? || e.Create? || e.Dispatch? || e.Start? || e.ExpireJob? || e.OtherLedger? || e.EditKey?)
  }

  // Events that write no row.
  predicate MovesPhaseOnly(e: Event) {
    e.ReadStatus? || e.ReadStage? || e.GiveUp? || e.Reserve? || e.Query? || e.Crash?
  }

  /** One transition of the whole system. */
  function Next(w: World, e: Event): World {
    match e
    case Tick(seconds) => w.(now := w.now + seconds)
    case Create(request, env) =>
      var created := CreateTask(w, request, env);
      if WellFormed(request) && created.Ok? then created.value.0 else w
    case Dispatch(j) => if j < |w.jobs| then DispatchNext(w, j) else w
    case Start(j) => if j < |w.jobs| then StartNext(w, j) else w
    case ExpireJob(j, cutoff, env) => if j < |w.jobs| then ExpireJobNext(w, j, cutoff, env) else w
    case OtherLedger(step) => if Foreign(step) then w.(ledger := Conservation.Apply(w.ledger, step)) else w
    case EditKey(keyId, active, limit) =>
      if keyId in w.keys then w.(keys := w.keys[keyId := w.keys[keyId].(active := active, limit := limit)]) else w
    case _ =>
      if e.worker < |w.workers| && w.workers[e.worker].job < |w.jobs| then WorkerNext(w, e.worker, e) else w
  }

  function Run(w: World, events: seq<Event>): World {
    if events == [] then w else Next(Run(w, events[..|events| - 1]), events[|events| - 1])
  }

  /** An initial system: any ledger history, any keys, no image task yet. */
  ghost predicate Initial(w: World) {
    && w.jobs == [] && w.workers == []
    && Conservation.Agrees(w.ledger)
    && (forall key: OperationKey :: key.typ == SERVICE ==> !Conservation.HasOperation(w.ledger.entries, key))
    && (forall k :: k in w.keys ==> k !in RESERVED_KEYS && 0 <= w.keys[k].opening == w.keys[k].used)
  }
}
