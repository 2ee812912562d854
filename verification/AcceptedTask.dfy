/**
 * A run from an initial system to an accepted provider task that waits for its
 * next poll: what can go wrong with late polls can go wrong in a real run.
 */
module AcceptedTask {
  import opened Prelude
  import opened Ledger
  import opened ImageTasks
  import Conservation
  import Spending
  import Admission
  import Submission
  import PollSpacing
  import LateStarts

  // A wallet with one purchased credit, and a request that costs it.
  const FUNDED := Tables(
    map["u" := Wallet(100, 100, 0, 0, false)],
    [Batch("b", "u", 100, 100, "purchase", None, 0, None, Active)],
    [Entry("e", "u", Grant("purchase"), 100, "WALLET:u", None, None)],
    map[])

  const REQUEST := Request("t", "g", "u", "", "digest", "url", "", false, Quote(100, 0, 0))
  const ENV := Env(0, 0, "b2", "e2", "r", 0, 0)
  const START := World(0, FUNDED, map[], map[], [], [], 0)

  // ------------------------------------------------------------- the charge

  lemma FundedAgrees()
    ensures Conservation.Agrees(FUNDED)
  {
    forall user ensures Conservation.WalletAgrees(FUNDED, user) {
      FundedSums(user);
    }
    forall key ensures Conservation.ProjectionAgrees(FUNDED, key) {
      NoOperations(key);
    }
  }

  lemma FundedSums(user: string)
    ensures Conservation.WalletAgrees(FUNDED, user)
  {
    assert FUNDED.batches[..0] == [] && FUNDED.entries[..0] == [];
  }

  lemma NoOperations(key: OperationKey)
    ensures !Conservation.HasOperation(FUNDED.entries, key)
  {
  }

  lemma NothingLapses()
    ensures Lock(FUNDED, "u", 0, "r") == FUNDED
  {
    assert FUNDED.batches[..0] == [];
    assert ExpirationEntries(FUNDED.batches, "u", 0, "r") == [];
    assert LapseAll(FUNDED.batches, "u", 0) == FUNDED.batches;
  }

  const MUTATION := ChargeMutation(REQUEST, 0, 100, "g")

  lemma Affordable()
    ensures ValidateAmount(MUTATION.amount, false) == Ok(100) && !Blank(Spending.ServiceOf(MUTATION))
    ensures Spending.ConsumeReplay(FUNDED, MUTATION, 100) == Ok(None)
  {
    assert Credits(100) == 1.0;
    Admission.ServiceNotBlank();
    assert FUNDED.entries[1..] == [];
  }

  lemma Charged()
    ensures Charge(Books(FUNDED, map[]), REQUEST, "", 0, 100, "g", ENV).Ok?
  {
    FundedAgrees();
    NothingLapses();
    Affordable();
    Conservation.BatchesAlwaysSuffice(FUNDED, MUTATION, ENV);
    assert Spending.ConsumeCredit(FUNDED, MUTATION, ENV) == Spending.PostConsumption(FUNDED, MUTATION, 100, ENV);
    Posts();
  }

  lemma Posts()
    requires Spending.PostConsumption(FUNDED, MUTATION, 100, ENV) != Err(InsufficientBatches)
    ensures var posting := Spending.PostConsumption(FUNDED, MUTATION, 100, ENV); posting.Ok? && !posting.value.receipt.replayed
  {
    var entry := Spending.ConsumptionEntry(MUTATION, 100, ENV);
    Admission.ServiceNotBlank();
    assert TrimLeft("g") == "g" && TrimRight("g") == "g";
    assert !OperationBlank(entry);
    Rebuilds(Spending.Drain(FUNDED.batches, Spending.SpendingOrder(FUNDED.batches, "u", 0), 100).0, entry);
  }

  lemma Rebuilds(batches: seq<Batch>, entry: Entry)
    requires entry == Spending.ConsumptionEntry(MUTATION, 100, ENV)
    ensures Rebuild(FUNDED.(batches := batches, entries := FUNDED.entries + [entry]), OperationKey("u", SERVICE, "g"), 0).Ok?
  {
    var key, entries := OperationKey("u", SERVICE, "g"), FUNDED.entries + [entry];
    assert entries[1] == entry && OfOperation(entries[1], key) && !OfOperation(entries[0], key);
    assert entries[..1] == FUNDED.entries && FUNDED.entries[..0] == [];
    assert Total(entries, Returned(key)) == 0 && Total(entries, Gross(key)) == 100;
  }

  // --------------------------------------------------------------- the task

  lemma Created()
    ensures var created := Next(START, Create(REQUEST, ENV));
      created == START.(ledger := created.ledger, keys := created.keys, jobs := [NewJob(REQUEST, 0)])
  {
    Charged();
    assert START.jobs + [NewJob(REQUEST, 0)] == [NewJob(REQUEST, 0)];
    assert CreateTask(START, REQUEST, ENV).Ok?;
  }

  // The only worker and the only row of a system.
  predicate Alone(w: World, job: Job, phase: Phase, startedAt: int) {
    w.jobs == [job] && w.workers == [Worker(0, 1, phase, startedAt, map[])] && w.tokens == 2 && w.now == 0
  }

  const CLAIMED := NewJob(REQUEST, 0).(task := Running, token := Some(1), claimExpires := CLAIM_TTL)
  const FENCED := CLAIMED.(stage := Submitting(0), owner := Some(0))

  lemma Prepares(w: World)
    requires w.jobs == [NewJob(REQUEST, 0)] && w.workers == [] && w.tokens == 0 && w.now == 0
    ensures Alone(Run(w, [Dispatch(0), Start(0), ReadStatus(0)]), CLAIMED, StatusRead, 0)
  {
    LateStarts.RunThree(w, Dispatch(0), Start(0), ReadStatus(0));
    ClaimedAndStarted(w);
    var started := Next(Next(w, Dispatch(0)), Start(0));
    assert Next(started, ReadStatus(0)) == SetPhase(started, 0, StatusRead);
  }

  lemma ClaimedAndStarted(w: World)
    requires w.jobs == [NewJob(REQUEST, 0)] && w.workers == [] && w.tokens == 0 && w.now == 0
    ensures Alone(Next(Next(w, Dispatch(0)), Start(0)), CLAIMED, Started, 0)
  {
    assert Next(w, Dispatch(0)) == DispatchNext(w, 0);
    assert Next(DispatchNext(w, 0), Start(0)) == StartNext(DispatchNext(w, 0), 0);
  }

  lemma Fences(w: World)
    requires Alone(w, CLAIMED, StatusRead, 0)
    ensures Alone(Run(w, [ReadStage(0), Fence(0), Send(0)]), FENCED.(sends := [Unanswered]), Sent, 0)
  {
    LateStarts.RunThree(w, ReadStage(0), Fence(0), Send(0));
    var ready := Next(w, ReadStage(0));
    assert Alone(ready, CLAIMED, Preparing, 0);
    PassesFence(ready);
    Sends(Next(ready, Fence(0)));
  }

  lemma PassesFence(w: World)
    requires Alone(w, CLAIMED, Preparing, 0)
    ensures Alone(Next(w, Fence(0)), FENCED, Fenced, 0)
  {
    assert Next(w, Fence(0)) == FenceNext(w, 0);
  }

  lemma Sends(w: World)
    requires Alone(w, FENCED, Fenced, 0)
    ensures Alone(Next(w, Send(0)), FENCED.(sends := [Unanswered]), Sent, 0)
  {
    assert FENCED.sends + [Unanswered] == [Unanswered];
    assert Next(w, Send(0)) == SetPhase(SetJob(w, 0, FENCED.(sends := [Unanswered])), 0, Sent);
  }

  lemma Accepts(w: World)
    requires Alone(w, FENCED.(sends := [Unanswered]), Sent, 0)
    ensures var end := Run(w, [Answer(0, AcceptedAs("p")), Persist(0, 5), Tick(5)]);
      LateStarts.Waiting(end, 0) && Submission.TokensFresh(end)
  {
    LateStarts.RunThree(w, Answer(0, AcceptedAs("p")), Persist(0, 5), Tick(5));
    GetsAccepted(w);
    Persists(Next(w, Answer(0, AcceptedAs("p"))));
  }

  lemma GetsAccepted(w: World)
    requires Alone(w, FENCED.(sends := [Unanswered]), Sent, 0)
    ensures Alone(Next(w, Answer(0, AcceptedAs("p"))), FENCED.(sends := [Answered]), Accepted("p"), 0)
  {
    var job := FENCED.(sends := [Unanswered]);
    assert job.sends[0 := Answered] == [Answered];
    assert Next(w, Answer(0, AcceptedAs("p"))) == SetPhase(SetJob(w, 0, job.(sends := [Answered])), 0, Accepted("p"));
  }

  lemma Persists(w: World)
    requires Alone(w, FENCED.(sends := [Answered]), Accepted("p"), 0)
    ensures var end := Next(Next(w, Persist(0, 5)), Tick(5)); LateStarts.Waiting(end, 0) && Submission.TokensFresh(end)
  {
    assert Next(w, Persist(0, 5)) == PersistNext(w, 0, 5);
  }

  /** An accepted task waiting for its poll is reachable from an initial system. */
  lemma AcceptedReachable() returns (before: seq<Event>)
    ensures Initial(START)
    ensures LateStarts.Waiting(Run(START, before), 0) && Submission.TokensFresh(Run(START, before))
  {
    FundedAgrees();
    forall key: OperationKey ensures !Conservation.HasOperation(FUNDED.entries, key) {
      NoOperations(key);
    }
    Created();
    var created := Next(START, Create(REQUEST, ENV));
    Prepares(created);
    var read := Run(created, [Dispatch(0), Start(0), ReadStatus(0)]);
    Fences(read);
    Accepts(Run(read, [ReadStage(0), Fence(0), Send(0)]));
    RunOn(START, [Create(REQUEST, ENV)], [Dispatch(0), Start(0), ReadStatus(0)]);
    before := [Create(REQUEST, ENV)] + [Dispatch(0), Start(0), ReadStatus(0)];
    assert [Create(REQUEST, ENV)][..0] == [];
    assert Run(START, [Create(REQUEST, ENV)]) == created;
    RunOn(START, before, [ReadStage(0), Fence(0), Send(0)]);
    before := before + [ReadStage(0), Fence(0), Send(0)];
    RunOn(START, before, [Answer(0, AcceptedAs("p")), Persist(0, 5), Tick(5)]);
    before := before + [Answer(0, AcceptedAs("p")), Persist(0, 5), Tick(5)];
  }

  lemma {:induction false} RunOn(w: World, before: seq<Event>, after: seq<Event>)
    ensures Run(w, before + after) == Run(Run(w, before), after)
  {
    if after == [] {
      assert before + after == before;
    } else {
      var n := |after| - 1;
      RunOn(w, before, after[..n]);
      RunLast(w, before + after[..n], after[n]);
      RunLast(Run(w, before), after[..n], after[n]);
      assert after == after[..n] + [after[n]] && before + after == (before + after[..n]) + [after[n]];
    }
  }

  lemma RunLast(w: World, events: seq<Event>, e: Event)
    ensures Run(w, events + [e]) == Next(Run(w, events), e)
  {
    assert (events + [e])[..|events|] == events;
  }

  // ---------------------------------------------------------------- witness

  /** So both late runs happen from an initial system: polls that coincide and queries that do. */
  lemma LatePollsReachable(delay: int, reply: Reply) returns (before: seq<Event>, events: seq<Event>)
    ensures Initial(START) && LateStarts.Waiting(Run(START, before), 0)
    ensures var v := |Run(START, before).workers|;
      var first := Run(START, before + LateStarts.Stall(0) + LateStarts.Visit(0, v));
      var second := Run(first, LateStarts.Finish(v, delay) + LateStarts.Visit(0, v + 1));
      && PollSpacing.Polls(first, Reserve(v, true), 0) && PollSpacing.Polls(second, Reserve(v + 1, true), 0)
      && second.now == first.now
    ensures var u := |Run(START, before).workers|;
      LateStarts.EndsAsking(Run(START, before), events, 0, u, u + 1)
  {
    before := AcceptedReachable();
    var w := Run(START, before);
    var v := |w.workers|;
    LateStarts.StalledStartsCoincide(w, 0, delay);
    events := LateStarts.StalledQueriesCoincide(w, 0, reply);
    RunOn(START, before, LateStarts.Stall(0));
    RunOn(START, before + LateStarts.Stall(0), LateStarts.Visit(0, v));
    var first := Run(Run(w, LateStarts.Stall(0)), LateStarts.Visit(0, v));
    RunOn(first, LateStarts.Finish(v, delay), LateStarts.Visit(0, v + 1));
  }
}
