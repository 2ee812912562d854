/**
 * Late starts: a worker run takes its row without looking at claim or due time.
 * Exactly the starts that are not on time let a later poll come too soon, and a
 * stalled worker can still send a query it reserved under a claim long lost.
 */
module LateStarts {
  import opened Prelude
  import opened ImageTasks
  import Submission
  import Polling
  import opened PollSpacing

  // ------------------------------------------------------------ first steps

  /** What a run does, seen from its first event. */
  lemma {:induction false} FirstEvent(w: World, e: Event, rest: seq<Event>, j: nat, log: PollLog)
    ensures Run(w, [e] + rest) == Run(Next(w, e), rest)
    ensures Track(w, [e] + rest, j, log) == Track(Next(w, e), rest, j, Note(w, e, j, log))
    ensures Punctual(w, [e] + rest, j) <==> PunctualStep(w, e, j) && Punctual(Next(w, e), rest, j)
    ensures Spaced(w, [e] + rest, j, log) <==> SpacedStep(w, e, j, log) && Spaced(Next(w, e), rest, j, Note(w, e, j, log))
  {
    var events := [e] + rest;
    var n := |rest|;
    if n == 0 {
      assert events[..0] == [] && rest == [];
    } else {
      FirstEvent(w, e, rest[..n - 1], j, log);
      assert events[..n] == [e] + rest[..n - 1] && events[n] == rest[n - 1];
    }
  }

  // A punctual run in which a poll comes too soon.
  ghost predicate Crowds(w: World, events: seq<Event>, j: nat, log: PollLog) {
    Punctual(w, events, j) && !Spaced(w, events, j, log)
  }

  lemma CrowdsLater(w: World, e: Event, rest: seq<Event>, j: nat, log: PollLog)
    requires PunctualStep(w, e, j) && Crowds(Next(w, e), rest, j, Note(w, e, j, log))
    ensures Crowds(w, [e] + rest, j, log)
  {
    FirstEvent(w, e, rest, j, log);
  }

  lemma CrowdsNow(w: World, e: Event, j: nat, log: PollLog)
    requires Polls(w, e, j) && !SpacedStep(w, e, j, log)
    ensures Crowds(w, [e], j, log)
  {
    FirstEvent(w, e, [], j, log);
    assert [e] + [] == [e];
  }

  // ----------------------------------------------------------------- visits

  // A worker run with a live claim on a row it can poll.
  predicate OwnRun(w: World, j: nat, v: nat) {
    && j < |w.jobs| && Pollable(w.jobs[j], w.now)
    && v < |w.workers| && w.workers[v].job == j && HoldsLiveClaim(w, v, j)
  }

  predicate JustStarted(w: World, j: nat, v: nat) {
    OwnRun(w, j, v) && w.workers[v].phase.Started?
  }

  // A worker run that has decided to poll.
  predicate Resumes(w: World, j: nat, v: nat) {
    && OwnRun(w, j, v) && w.workers[v].phase.Resuming?
    && w.workers[v].phase.providerId != "" && w.workers[v].startedAt == w.jobs[j].stage.startedAt
  }

  // Steps that touch nothing but one worker.
  predicate OnlyWorker(w: World, next: World, v: nat)
    requires v < |w.workers|
  {
    && next.now == w.now && next.jobs == w.jobs && next.tokens == w.tokens && v < |next.workers|
    && next.workers == w.workers[v := next.workers[v]] && next.workers[v].token == w.workers[v].token
  }

  lemma StartedRow(w: World, j: nat)
    requires j < |w.jobs| && Pollable(w.jobs[j], w.now)
    ensures var started, v := StartNext(w, j), |w.workers|;
      && Next(w, Start(j)) == started && started.now == w.now && |started.workers| == v + 1 && started.workers[..v] == w.workers
      && JustStarted(started, j, v)
      && started.jobs[j] == w.jobs[j].(token := Some(w.tokens), claimExpires := w.now + CLAIM_TTL)
      && (Submission.TokensFresh(w) ==> Submission.TokensFresh(started))
  {
  }

  lemma ReadsStatus(w: World, j: nat, v: nat)
    requires JustStarted(w, j, v)
    ensures var read := Next(w, ReadStatus(v));
      OnlyWorker(w, read, v) && OwnRun(read, j, v) && read.workers[v].phase.StatusRead?
  {
    assert Next(w, ReadStatus(v)) == SetPhase(w, v, StatusRead);
  }

  lemma ReadsStage(w: World, j: nat, v: nat)
    requires OwnRun(w, j, v) && w.workers[v].phase.StatusRead?
    ensures var ready := Next(w, ReadStage(v));
      OnlyWorker(w, ready, v) && Resumes(ready, j, v) && Polls(ready, Reserve(v, true), j)
  {
    assert Next(w, ReadStage(v)) == w.(workers := w.workers[v := ReadStagePhase(w, v)]);
  }

  // The worker after it read status and stage.
  function Ready(w: World, v: nat): World {
    Next(Next(w, ReadStatus(v)), ReadStage(v))
  }

  lemma VisitPolls(w: World, j: nat, v: nat)
    requires JustStarted(w, j, v)
    ensures OnlyWorker(w, Ready(w, v), v) && Resumes(Ready(w, v), j, v) && Polls(Ready(w, v), Reserve(v, true), j)
  {
    ReadsStatus(w, j, v);
    ReadsStage(Next(w, ReadStatus(v)), j, v);
  }

  lemma ReservesNow(w: World, j: nat, v: nat)
    requires Resumes(w, j, v) && Polls(w, Reserve(v, true), j)
    ensures var asking := Next(w, Reserve(v, true));
      && OnlyWorker(w, asking, v) && OwnRun(asking, j, v) && asking.workers[v].phase.Querying?
      && asking.workers[v].phase.providerId == w.workers[v].phase.providerId
      && asking.workers[v].startedAt == w.workers[v].startedAt
  {
    ReserveMoves(w, Reserve(v, true));
  }

  lemma VisitCrowds(w: World, j: nat, v: nat, rest: seq<Event>, log: PollLog) returns (events: seq<Event>)
    requires JustStarted(w, j, v) && Crowds(Ready(w, v), rest, j, log)
    ensures Crowds(w, events, j, log)
  {
    CrowdsLater(Next(w, ReadStatus(v)), ReadStage(v), rest, j, log);
    CrowdsLater(w, ReadStatus(v), [ReadStage(v)] + rest, j, log);
    events := [ReadStatus(v)] + ([ReadStage(v)] + rest);
  }

  // ------------------------------------------------------- starts too early

  /** A worker that starts before the last poll is a second old polls too soon itself. */
  lemma StartsTooSoon(w: World, j: nat, v: nat, log: PollLog) returns (events: seq<Event>)
    requires JustStarted(w, j, v) && w.now <= Base(w.jobs[j], log)
    ensures Crowds(w, events, j, log)
  {
    VisitPolls(w, j, v);
    CrowdsNow(Ready(w, v), Reserve(v, true), j, log);
    events := VisitCrowds(w, j, v, [Reserve(v, true)], log);
  }

  // ----------------------------------------------------- pending deliveries

  lemma ReleasesDue(w: World, j: nat, v: nat)
    requires OwnRun(w, j, v)
    ensures var released := Next(w, Release(v, 0));
      && released.now == w.now && released.tokens == w.tokens && |released.workers| == |w.workers| && j < |released.jobs|
      && (w.jobs[j].due.Some? ==> released.jobs[j] == w.jobs[j].(token := None))
      && (Submission.TokensFresh(w) ==> Submission.TokensFresh(released))
  {
    assert Next(w, Release(v, 0)) == SetPhase(SetJob(w, j, Released(w.jobs[j], w.now, 0)), v, Done);
  }

  lemma ClaimsAgain(w: World, j: nat)
    requires j < |w.jobs| && Pollable(w.jobs[j], w.now) && Claimable(w.jobs[j], w.now) && Submission.TokensFresh(w)
    ensures var claimed := Next(w, Dispatch(j));
      && claimed.now == w.now && claimed.workers == w.workers && j < |claimed.jobs| && UnusedClaim(claimed, j)
      && Pollable(claimed.jobs[j], claimed.now) && claimed.jobs[j].stage == w.jobs[j].stage
      && claimed.jobs[j].claimExpires == w.now + CLAIM_TTL && claimed.jobs[j].due.None?
      && Submission.TokensFresh(claimed)
  {
    assert Next(w, Dispatch(j)) == DispatchNext(w, j);
  }

  /** A task claimed again in the second of its last poll is polled too soon. */
  lemma ClaimedTooSoon(w: World, j: nat, log: PollLog) returns (events: seq<Event>)
    requires j < |w.jobs| && Pollable(w.jobs[j], w.now) && Claimable(w.jobs[j], w.now) && Submission.TokensFresh(w)
    requires w.now <= Base(w.jobs[j], log)
    ensures Crowds(w, events, j, log)
  {
    ClaimsAgain(w, j);
    var claimed := Next(w, Dispatch(j));
    StartedRow(claimed, j);
    var rest := StartsTooSoon(Next(claimed, Start(j)), j, |claimed.workers|, log);
    CrowdsLater(claimed, Start(j), rest, j, log);
    CrowdsLater(w, Dispatch(j), [Start(j)] + rest, j, log);
    events := [Dispatch(j)] + ([Start(j)] + rest);
  }

  /** A worker that kept a delivery that is due polls, gives the claim up, and the task is polled again at once. */
  lemma DueCrowds(w: World, j: nat, v: nat, log: PollLog) returns (events: seq<Event>)
    requires JustStarted(w, j, v) && Submission.TokensFresh(w) && w.jobs[j].due.Some? && w.jobs[j].due.value <= w.now
    ensures Crowds(w, events, j, log)
  {
    VisitPolls(w, j, v);
    var ready := Ready(w, v);
    ReservesNow(ready, j, v);
    var polled, noted := Next(ready, Reserve(v, true)), Note(ready, Reserve(v, true), j, log);
    ReleasesDue(polled, j, v);
    var rest := ClaimedTooSoon(Next(polled, Release(v, 0)), j, noted);
    CrowdsLater(polled, Release(v, 0), rest, j, noted);
    CrowdsLater(ready, Reserve(v, true), [Release(v, 0)] + rest, j, log);
    events := VisitCrowds(w, j, v, [Reserve(v, true)] + ([Release(v, 0)] + rest), log);
  }

  lemma KeepsAlive(w: World, j: nat, v: nat)
    requires JustStarted(w, j, v) && w.jobs[j].claimExpires == w.now + CLAIM_TTL
    requires w.now + 1 < w.jobs[j].stage.startedAt + POLLING_LIMIT
    ensures var later := Next(w, Tick(1)); var kept := Next(later, Heartbeat(v));
      && JustStarted(kept, j, v) && kept.now == w.now + 1 && kept.jobs[j] == w.jobs[j].(claimExpires := kept.now + CLAIM_TTL)
      && (Submission.TokensFresh(w) ==> Submission.TokensFresh(kept))
  {
    var later := Next(w, Tick(1));
    assert Next(later, Heartbeat(v)) == SetJob(later, j, later.jobs[j].(claimExpires := later.now + CLAIM_TTL));
  }

  /** A worker that started with a pending delivery can wait for it under its heartbeat. */
  lemma {:induction false} WaitsForDue(w: World, j: nat, v: nat, log: PollLog) returns (events: seq<Event>)
    requires JustStarted(w, j, v) && Submission.TokensFresh(w) && DueInTime(w.jobs[j])
    requires w.jobs[j].claimExpires == w.now + CLAIM_TTL
    ensures Crowds(w, events, j, log)
    decreases w.jobs[j].due.value - w.now
  {
    if w.jobs[j].due.value <= w.now {
      events := DueCrowds(w, j, v, log);
    } else {
      KeepsAlive(w, j, v);
      var later := Next(w, Tick(1));
      var rest := WaitsForDue(Next(later, Heartbeat(v)), j, v, log);
      CrowdsLater(later, Heartbeat(v), rest, j, log);
      CrowdsLater(w, Tick(1), [Heartbeat(v)] + rest, j, log);
      events := [Tick(1)] + ([Heartbeat(v)] + rest);
    }
  }

  // -------------------------------------------------------------- exactness

  // Whatever punctual run follows, no poll comes too soon.
  ghost predicate StaysSpaced(w: World, j: nat, log: PollLog) {
    forall more :: Punctual(w, more, j) ==> Spaced(w, more, j, log)
  }

  lemma OrderlyStaysSpaced(w: World, j: nat, log: PollLog)
    requires Orderly(w, j, log)
    ensures StaysSpaced(w, j, log)
  {
    forall more | Punctual(w, more, j) ensures Spaced(w, more, j, log) {
      PunctualOnTime(w, more, j, log);
      RunOrderly(w, more, j, log);
    }
  }

  /** A start that is not on time has a punctual continuation in which a poll comes too soon. */
  lemma LateStartCrowds(w: World, j: nat, log: PollLog) returns (events: seq<Event>)
    requires Submission.TokensFresh(w) && Polling.Starts(w, Start(j), j) && !StartsOnTime(w.jobs[j], w.now, log)
    ensures Crowds(StartNext(w, j), events, j, log)
  {
    StartedRow(w, j);
    if w.now <= Base(w.jobs[j], log) {
      events := StartsTooSoon(StartNext(w, j), j, |w.workers|, log);
    } else {
      events := WaitsForDue(StartNext(w, j), j, |w.workers|, log);
    }
  }

  /**
   * Exactly when a start keeps the polls apart: it is on time if and only if in
   * every run that follows, if its own starts are punctual, no poll comes too soon.
   */
  lemma StartSpacesIff(w: World, j: nat, log: PollLog)
    requires Orderly(w, j, log) && Polling.Starts(w, Start(j), j)
    ensures StartsOnTime(w.jobs[j], w.now, log) <==> StaysSpaced(StartNext(w, j), j, log)
  {
    if StartsOnTime(w.jobs[j], w.now, log) {
      NextOrderly(w, Start(j), j, log);
      OrderlyStaysSpaced(StartNext(w, j), j, log);
    } else {
      var events := LateStartCrowds(w, j, log);
    }
  }

  /**
   * So starting on time is exact for whole runs: every start of a run was on time
   * if and only if at no moment of it a punctual continuation polls too soon.
   */
  lemma {:induction false} OnTimeExactly(w: World, events: seq<Event>, j: nat)
    requires Initial(w)
    ensures OnTime(w, events, j, QUIET) <==>
              forall n :: 0 <= n <= |events| ==> StaysSpaced(Run(w, events[..n]), j, Track(w, events[..n], j, QUIET))
  {
    InitialOrderly(w, j);
    if OnTime(w, events, j, QUIET) {
      forall n | 0 <= n <= |events| ensures StaysSpaced(Run(w, events[..n]), j, Track(w, events[..n], j, QUIET)) {
        OnTimeFront(w, events, j, QUIET, n);
        RunOrderly(w, events[..n], j, QUIET);
        OrderlyStaysSpaced(Run(w, events[..n]), j, Track(w, events[..n], j, QUIET));
      }
    } else {
      var n := FirstLate(w, events, j);
    }
  }

  lemma {:induction false} OnTimeFront(w: World, events: seq<Event>, j: nat, log: PollLog, n: nat)
    requires OnTime(w, events, j, log) && n <= |events|
    ensures OnTime(w, events[..n], j, log)
  {
    if n < |events| {
      OnTimeFront(w, events[..|events| - 1], j, log, n);
      assert events[..|events| - 1][..n] == events[..n];
    } else {
      assert events[..n] == events;
    }
  }

  lemma {:induction false} FirstLate(w: World, events: seq<Event>, j: nat) returns (n: nat)
    requires Initial(w) && !OnTime(w, events, j, QUIET)
    ensures n <= |events| && !StaysSpaced(Run(w, events[..n]), j, Track(w, events[..n], j, QUIET))
  {
    var last := |events| - 1;
    var before, log := Run(w, events[..last]), Track(w, events[..last], j, QUIET);
    if OnTime(w, events[..last], j, QUIET) {
      n := last + 1;
      assert events[..n] == events;
      InitialOrderly(w, j);
      RunOrderly(w, events[..last], j, QUIET);
      StartSpacesIff(before, j, log);
      assert Run(w, events) == StartNext(before, j) && Track(w, events, j, QUIET) == log;
    } else {
      n := FirstLate(w, events[..last], j);
      assert events[..last][..n] == events[..n];
    }
  }

  // ---------------------------------------------------------- stalled claims

  // An accepted task that waits for its next delivery, which is due.
  predicate Waiting(w: World, j: nat) {
    && j < |w.jobs| && Pollable(w.jobs[j], w.now) && w.jobs[j].token.None? && Claimable(w.jobs[j], w.now)
    && w.now + CLAIM_TTL < w.jobs[j].stage.startedAt + POLLING_LIMIT
  }

  lemma RunThree(w: World, a: Event, b: Event, c: Event)
    ensures Run(w, [a, b, c]) == Next(Next(Next(w, a), b), c) && Run(w, [a, b]) == Next(Next(w, a), b)
  {
    assert [a, b, c][..2] == [a, b] && [a, b][..1] == [a] && [a][..0] == [];
    assert Run(w, [a]) == Next(w, a);
  }

  // Two claims of one task, the second after the first lapsed unused.
  function Stall(j: nat): seq<Event> {
    [Dispatch(j), Tick(CLAIM_TTL), Dispatch(j)]
  }

  // A worker run up to its decision to poll.
  function Visit(j: nat, v: nat): seq<Event> {
    [Start(j), ReadStatus(v), ReadStage(v)]
  }

  // The rest of the run, with a reply that is still pending.
  function Finish(v: nat, delay: int): seq<Event> {
    [Reserve(v, true), Query(v, AcceptedAs("")), Persist(v, delay)]
  }

  lemma StallLapses(w: World, j: nat)
    requires Waiting(w, j)
    ensures Polling.Claims(w, Dispatch(j), j) && Polling.Claims(Run(w, [Dispatch(j), Tick(CLAIM_TTL)]), Dispatch(j), j)
    ensures var stalled := Run(w, Stall(j));
      j < |stalled.jobs| && Pollable(stalled.jobs[j], stalled.now) && stalled.workers == w.workers
  {
    RunThree(w, Dispatch(j), Tick(CLAIM_TTL), Dispatch(j));
    var claimed := DispatchNext(w, j);
    var lapsed := claimed.(now := claimed.now + CLAIM_TTL);
    assert Next(Next(w, Dispatch(j)), Tick(CLAIM_TTL)) == lapsed;
    assert Run(w, Stall(j)) == DispatchNext(lapsed, j);
  }

  lemma VisitRuns(w: World, j: nat)
    requires j < |w.jobs| && Pollable(w.jobs[j], w.now)
    ensures var v := |w.workers|; var ready := Run(w, Visit(j, v));
      && Polls(ready, Reserve(v, true), j) && ready.now == w.now && |ready.workers| == v + 1 && Resumes(ready, j, v)
  {
    var v := |w.workers|;
    StartedRow(w, j);
    VisitPolls(StartNext(w, j), j, v);
    RunThree(w, Start(j), ReadStatus(v), ReadStage(v));
  }

  lemma FinishWaits(w: World, j: nat, v: nat, delay: int)
    requires Resumes(w, j, v) && Polls(w, Reserve(v, true), j)
    ensures var done := Run(w, Finish(v, delay));
      && done.now == w.now && |done.workers| == |w.workers|
      && j < |done.jobs| && Pollable(done.jobs[j], done.now) && done.jobs[j].due.Some? && done.jobs[j].due.value > done.now
  {
    ReservesNow(w, j, v);
    var asking := Next(w, Reserve(v, true));
    var polled := Next(asking, Query(v, AcceptedAs("")));
    assert polled == SetPhase(asking, v, Polled(w.workers[v].phase.providerId, 0));
    PersistWaits(polled, j, v, delay);
    RunThree(w, Reserve(v, true), Query(v, AcceptedAs("")), Persist(v, delay));
  }

  lemma PersistWaits(w: World, j: nat, v: nat, delay: int)
    requires OwnRun(w, j, v) && w.workers[v].phase.Polled?
    requires w.workers[v].phase.providerId != "" && w.workers[v].startedAt == w.jobs[j].stage.startedAt
    ensures var done := Next(w, Persist(v, delay));
      && done.now == w.now && |done.workers| == |w.workers|
      && j < |done.jobs| && Pollable(done.jobs[j], done.now) && done.jobs[j].due.Some? && done.jobs[j].due.value > done.now
  {
    assert Next(w, Persist(v, delay)) == PersistNext(w, v, delay);
  }

  /**
   * Two polls can coincide: two claimants, the first one stalled past its claim,
   * start one after the other. The second start takes the row although the first
   * run has finished and put the next poll off.
   */
  lemma StalledStartsCoincide(w: World, j: nat, delay: int)
    requires Waiting(w, j)
    ensures var v := |w.workers|;
      var first := Run(Run(w, Stall(j)), Visit(j, v));
      var finished := Run(first, Finish(v, delay));
      var second := Run(finished, Visit(j, v + 1));
      && Polling.Claims(w, Dispatch(j), j) && Polling.Claims(Run(w, [Dispatch(j), Tick(CLAIM_TTL)]), Dispatch(j), j)
      && Polls(first, Reserve(v, true), j) && Polls(second, Reserve(v + 1, true), j) && second.now == first.now
      && j < |finished.jobs| && finished.jobs[j].due.Some? && finished.jobs[j].due.value > second.now
  {
    StallLapses(w, j);
    var stalled, v := Run(w, Stall(j)), |w.workers|;
    VisitRuns(stalled, j);
    FinishWaits(Run(stalled, Visit(j, v)), j, v, delay);
    VisitRuns(Run(Run(stalled, Visit(j, v)), Finish(v, delay)), j);
  }

  // --------------------------------------------------------- stalled queries

  // Two workers of one task whose queries are both still to be sent, the first
  // without the claim.
  predicate BothAsk(w: World, j: nat, u: nat, v: nat) {
    && u < v < |w.workers| && j < |w.jobs| && w.workers[u].job == w.workers[v].job == j
    && w.workers[u].phase.Querying? && w.workers[v].phase.Querying?
    && !HoldsClaim(w, u, j) && HoldsLiveClaim(w, v, j)
  }

  // A punctual run that ends there.
  ghost predicate EndsAsking(w: World, events: seq<Event>, j: nat, u: nat, v: nat) {
    Punctual(w, events, j) && BothAsk(Run(w, events), j, u, v)
  }

  lemma AsksLater(w: World, e: Event, rest: seq<Event>, j: nat, u: nat, v: nat)
    requires PunctualStep(w, e, j) && EndsAsking(Next(w, e), rest, j, u, v)
    ensures EndsAsking(w, [e] + rest, j, u, v)
  {
    FirstEvent(w, e, rest, j, QUIET);
  }

  // The worker that reserves next to one that stalled.
  lemma SecondAsks(w: World, j: nat, u: nat, v: nat) returns (events: seq<Event>)
    requires JustStarted(w, j, v) && u < v && w.workers[u].job == j && w.workers[u].phase.Querying? && !HoldsClaim(w, u, j)
    ensures EndsAsking(w, events, j, u, v)
  {
    VisitPolls(w, j, v);
    var ready := Ready(w, v);
    ReservesNow(ready, j, v);
    assert EndsAsking(Next(ready, Reserve(v, true)), [], j, u, v);
    AsksLater(ready, Reserve(v, true), [], j, u, v);
    events := [Reserve(v, true)] + [];
    AsksLater(Next(w, ReadStatus(v)), ReadStage(v), events, j, u, v);
    AsksLater(w, ReadStatus(v), [ReadStage(v)] + events, j, u, v);
    events := [ReadStatus(v)] + ([ReadStage(v)] + events);
  }

  // A worker that reserved stalls until its claim has lapsed and another takes over.
  lemma StalledAsks(w: World, j: nat, u: nat) returns (events: seq<Event>)
    requires OwnRun(w, j, u) && w.workers[u].phase.Querying? && Submission.TokensFresh(w) && w.jobs[j].due.None?
    requires w.jobs[j].claimExpires == w.now + CLAIM_TTL < w.jobs[j].stage.startedAt + POLLING_LIMIT
    ensures EndsAsking(w, events, j, u, |w.workers|)
  {
    var v, later := |w.workers|, Next(w, Tick(CLAIM_TTL));
    ClaimsAgain(later, j);
    var claimed := Next(later, Dispatch(j));
    StartedRow(claimed, j);
    var started := Next(claimed, Start(j));
    assert started.workers[u] == w.workers[u];
    events := SecondAsks(started, j, u, v);
    AsksLater(claimed, Start(j), events, j, u, v);
    AsksLater(later, Dispatch(j), [Start(j)] + events, j, u, v);
    AsksLater(w, Tick(CLAIM_TTL), [Dispatch(j)] + ([Start(j)] + events), j, u, v);
    events := [Tick(CLAIM_TTL)] + ([Dispatch(j)] + ([Start(j)] + events));
  }

  /**
   * Even in a punctual run two queries can reach the provider together: one worker
   * reserves and stalls past its claim, another claims the task, starts and
   * reserves, and both queries are still to be sent.
   */
  lemma StalledQueriesCoincide(w: World, j: nat, reply: Reply) returns (events: seq<Event>)
    requires Waiting(w, j) && Submission.TokensFresh(w)
    ensures var u := |w.workers|; var end := Run(w, events); var sent := Next(end, Query(u, reply));
      && EndsAsking(w, events, j, u, u + 1)
      && sent.now == end.now && Queries(sent, Query(u + 1, reply), j)
  {
    var u := |w.workers|;
    ClaimsAgain(w, j);
    var claimed := Next(w, Dispatch(j));
    StartedRow(claimed, j);
    var started := Next(claimed, Start(j));
    VisitPolls(started, j, u);
    var ready := Ready(started, u);
    ReservesNow(ready, j, u);
    events := StalledAsks(Next(ready, Reserve(u, true)), j, u);
    AsksLater(ready, Reserve(u, true), events, j, u, u + 1);
    events := [Reserve(u, true)] + events;
    AsksLater(Next(started, ReadStatus(u)), ReadStage(u), events, j, u, u + 1);
    AsksLater(started, ReadStatus(u), [ReadStage(u)] + events, j, u, u + 1);
    events := [ReadStatus(u)] + ([ReadStage(u)] + events);
    AsksLater(claimed, Start(j), events, j, u, u + 1);
    AsksLater(w, Dispatch(j), [Start(j)] + events, j, u, u + 1);
    events := [Dispatch(j)] + ([Start(j)] + events);
    FirstSent(Run(w, events), j, u, u + 1, reply);
  }

  lemma FirstSent(w: World, j: nat, u: nat, v: nat, reply: Reply)
    requires BothAsk(w, j, u, v)
    ensures Next(w, Query(u, reply)).now == w.now && Queries(Next(w, Query(u, reply)), Query(v, reply), j)
  {
    QueryMoves(w, Query(u, reply));
  }
}
