/**
 * Scheduler accounting over every run of the lease pool: each acquisition counts
 * once on its member, each receipt gets at most one result, and results never
 * outnumber acquisitions. The transactions themselves are the methods at the end.
 */
module SchedulerReceipts {
  import opened Prelude
  import opened Leases

  // ------------------------------------------------------------- invariant

  function ReceiptsOf(p: Pool, member: string): set<ReceiptKey> {
    set key | key in p.receipts && p.receipts[key] == member
  }

  function SuccessesOf(p: Pool, member: string): set<ReceiptKey> {
    set key | key in p.verdicts && p.verdicts[key].member == member && p.verdicts[key].success
  }

  function FailuresOf(p: Pool, member: string): set<ReceiptKey> {
    set key | key in p.verdicts && p.verdicts[key].member == member && !p.verdicts[key].success && p.verdicts[key].penalised
  }

  // Every counter is the number of receipts it stands for.
  ghost predicate Accounted(p: Pool) {
    p.verdicts.Keys <= p.receipts.Keys && forall member :: MemberExact(p, member)
  }

  ghost predicate MemberExact(p: Pool, member: string) {
    && CountersOf(p, member).acquired == |ReceiptsOf(p, member)|
    && CountersOf(p, member).successes == |SuccessesOf(p, member)|
    && CountersOf(p, member).failures == |FailuresOf(p, member)|
  }

  // Everything the accounts depend on.
  predicate SameAccounts(p: Pool, next: Pool) {
    next.receipts == p.receipts && next.verdicts == p.verdicts && next.counters == p.counters
  }

  lemma SameStaysAccounted(p: Pool, next: Pool)
    requires Accounted(p) && SameAccounts(p, next)
    ensures Accounted(next)
  {
    forall member ensures MemberExact(next, member) {
      assert MemberExact(p, member);
      assert ReceiptsOf(next, member) == ReceiptsOf(p, member);
      assert SuccessesOf(next, member) == SuccessesOf(p, member) && FailuresOf(next, member) == FailuresOf(p, member);
    }
  }

  lemma AcquiredCounts(p: Pool, key: ReceiptKey, holder: string, member: string)
    requires key !in p.receipts
    ensures var next := Acquired(p, key, holder);
      && ReceiptsOf(next, member) == ReceiptsOf(p, member) + (if member == holder then {key} else {})
      && SuccessesOf(next, member) == SuccessesOf(p, member) && FailuresOf(next, member) == FailuresOf(p, member)
  {
    var next := Acquired(p, key, holder);
    assert next.receipts == p.receipts[key := holder] && next.verdicts == p.verdicts;
  }

  lemma AcquiredAccounted(p: Pool, key: ReceiptKey, member: string)
    requires Accounted(p)
    ensures Accounted(Acquired(p, key, member))
  {
    var next := Acquired(p, key, member);
    if key !in p.receipts {
      forall other ensures MemberExact(next, other) {
        assert MemberExact(p, other);
        AcquiredCounts(p, key, member, other);
      }
    }
  }

  lemma DecideCounts(p: Pool, key: ReceiptKey, v: Verdict, member: string)
    requires key in p.receipts && key !in p.verdicts
    ensures var next := Decide(p, key, v);
      && ReceiptsOf(next, member) == ReceiptsOf(p, member)
      && SuccessesOf(next, member) == SuccessesOf(p, member) + (if member == v.member && v.success then {key} else {})
      && FailuresOf(next, member)
         == FailuresOf(p, member) + (if member == v.member && !v.success && v.penalised then {key} else {})
  {
    var next := Decide(p, key, v);
    assert next.receipts == p.receipts && next.verdicts == p.verdicts[key := v];
  }

  lemma DecideExact(p: Pool, key: ReceiptKey, v: Verdict, member: string)
    requires MemberExact(p, member) && key in p.receipts && key !in p.verdicts
    ensures MemberExact(Decide(p, key, v), member)
  {
    DecideCounts(p, key, v, member);
    assert key !in SuccessesOf(p, member) && key !in FailuresOf(p, member);
  }

  lemma DecideAccounted(p: Pool, key: ReceiptKey, v: Verdict)
    requires Accounted(p)
    ensures Accounted(Decide(p, key, v))
  {
    var next := Decide(p, key, v);
    if next != p {
      forall member ensures MemberExact(next, member) {
        assert MemberExact(p, member);
        DecideExact(p, key, v, member);
      }
    }
  }

  lemma NextAccounted(p: Pool, e: Event)
    requires Accounted(p)
    ensures Accounted(Next(p, e))
  {
    NextFiles(p, e);
    match FilingOf(p, e)
    case Nothing => SameStaysAccounted(p, Next(p, e));
    case Filed(key, member) =>
      AcquiredAccounted(p, key, member);
      SameStaysAccounted(Acquired(p, key, member), Next(p, e));
    case Decided(key, verdict) =>
      DecideAccounted(p, key, verdict);
      SameStaysAccounted(Decide(p, key, verdict), Next(p, e));
  }

  /** In every run each member's counters are exact. */
  lemma {:induction false} CountersExact(p: Pool, events: seq<Event>)
    requires Initial(p)
    ensures Accounted(Run(p, events))
  {
    if events == [] {
      forall member ensures MemberExact(p, member) {
        assert ReceiptsOf(p, member) == {} && SuccessesOf(p, member) == {} && FailuresOf(p, member) == {};
      }
    } else {
      CountersExact(p, events[..|events| - 1]);
      NextAccounted(Run(p, events[..|events| - 1]), events[|events| - 1]);
    }
  }

  // -------------------------------------------------------------- receipts

  // Records are only ever added.
  predicate Grows(p: Pool, next: Pool) {
    && p.receipts.Keys <= next.receipts.Keys && p.verdicts.Keys <= next.verdicts.Keys
    && (forall key | key in p.receipts :: next.receipts[key] == p.receipts[key])
    && (forall key | key in p.verdicts :: next.verdicts[key] == p.verdicts[key])
  }

  // What one event may do to the records.
  datatype Filing = Nothing | Filed(key: ReceiptKey, member: string) | Decided(key: ReceiptKey, verdict: Verdict)

  function FilingOf(p: Pool, e: Event): Filing {
    match e
    case TakeMain(task, token, routed) =>
      var member := ProviderOf(p, task, routed);
      if AcquireMain(p, task, token, member).Some? then Filed(ForMember(task, member), member) else Nothing
    case TakeRepair(task, step, token, member) =>
      if AcquireRepair(p, task, step, token, member).1 then Filed(ForRepair(task, step), member) else Nothing
    case Result(task, named, step, success, penalised) =>
      var member := ReportedMember(p, task, named);
      if member == "" then Nothing else Decided(ResultKey(task, member, step), Verdict(member, success, penalised))
    case _ => Nothing
  }

  lemma AcquiredSame(p: Pool, q: Pool, key: ReceiptKey, member: string)
    requires SameAccounts(p, q)
    ensures SameAccounts(Acquired(p, key, member), Acquired(q, key, member))
  {
  }

  ghost predicate Files(p: Pool, next: Pool, filing: Filing) {
    match filing
    case Nothing => SameAccounts(p, next)
    case Filed(key, member) => SameAccounts(Acquired(p, key, member), next)
    case Decided(key, verdict) => SameAccounts(Decide(p, key, verdict), next)
  }

  lemma TakeMainFiles(p: Pool, task: string, token: nat, member: string)
    requires AcquireMain(p, task, token, member).Some?
    ensures Files(p, AcquireMain(p, task, token, member).value, Filed(ForMember(task, member), member))
  {
    var next := AcquireMain(p, task, token, member).value;
    AcquiredSame(p, p.(leases := next.leases), ForMember(task, member), member);
  }

  lemma TakeRepairFiles(p: Pool, task: string, step: string, token: nat, member: string)
    ensures var (next, taken) := AcquireRepair(p, task, step, token, member);
      Files(p, next, if taken then Filed(ForRepair(task, step), member) else Nothing)
  {
    var (next, taken) := AcquireRepair(p, task, step, token, member);
    var freed := DropLease(p, Main(task), token);
    assert SameAccounts(p, freed);
    if taken {
      var leased := freed.(leases := freed.leases[Repair(task, step) := Lease(member, token, p.now + LEASE_TTL)]);
      AcquiredSame(p, leased, ForRepair(task, step), member);
      assert next == Acquired(leased, ForRepair(task, step), member);
    }
  }

  lemma NextFiles(p: Pool, e: Event)
    ensures Files(p, Next(p, e), FilingOf(p, e))
  {
    match e
    case TakeMain(task, token, routed) =>
      var member := ProviderOf(p, task, routed);
      if AcquireMain(p, task, token, member).Some? { TakeMainFiles(p, task, token, member); }
    case TakeRepair(task, step, token, member) => TakeRepairFiles(p, task, step, token, member);
    case _ =>
  }

  lemma FilesGrow(p: Pool, next: Pool, filing: Filing)
    requires Files(p, next, filing)
    ensures Grows(p, next)
  {
  }

  lemma NextKeepsRecords(p: Pool, e: Event)
    ensures Grows(p, Next(p, e))
  {
    NextFiles(p, e);
    FilesGrow(p, Next(p, e), FilingOf(p, e));
  }

  /** First writer wins: a receipt and its result never change again. */
  lemma {:induction false} RecordsKept(p: Pool, events: seq<Event>, key: ReceiptKey)
    ensures key in p.receipts ==> key in Run(p, events).receipts && Run(p, events).receipts[key] == p.receipts[key]
    ensures key in p.verdicts ==> key in Run(p, events).verdicts && Run(p, events).verdicts[key] == p.verdicts[key]
  {
    if events != [] {
      RecordsKept(p, events[..|events| - 1], key);
      NextKeepsRecords(Run(p, events[..|events| - 1]), events[|events| - 1]);
    }
  }

  /** A second result of the same call changes nothing, whatever it says. */
  lemma SecondResultIgnored(
    p: Pool, task: string, named: string, step: Option<string>, first: bool, second: bool, penal1: bool, penal2: bool)
    ensures var once := Report(p, task, named, step, first, penal1);
      Report(once, task, named, step, second, penal2) == once
  {
  }

  // ---------------------------------------------------------------- totals

  function Results(p: Pool, member: string): nat {
    CountersOf(p, member).successes + CountersOf(p, member).failures
  }

  function ResultTotal(p: Pool, members: seq<string>): nat {
    if members == [] then 0 else Results(p, members[0]) + ResultTotal(p, members[1..])
  }

  ghost predicate Distinct(members: seq<string>) {
    forall i, j :: 0 <= i < j < |members| ==> members[i] != members[j]
  }

  function JudgedFor(p: Pool, members: seq<string>): set<ReceiptKey> {
    set key | key in p.verdicts && p.verdicts[key].member in members
  }

  lemma {:induction false} ResultsJudged(p: Pool, members: seq<string>)
    requires Accounted(p) && Distinct(members)
    ensures ResultTotal(p, members) <= |JudgedFor(p, members)|
  {
    if members != [] {
      var first, rest := members[0], members[1..];
      ResultsJudged(p, rest);
      assert MemberExact(p, first);
      var own := SuccessesOf(p, first) + FailuresOf(p, first);
      assert own !! JudgedFor(p, rest);
      assert SuccessesOf(p, first) !! FailuresOf(p, first);
      Subset(own + JudgedFor(p, rest), JudgedFor(p, members));
    }
  }

  /**
   * In every run the successes and failures of any members together are at most
   * the number of results, which is at most the number of acquisitions.
   */
  lemma ResultsNeverExceedAcquisitions(p: Pool, events: seq<Event>, members: seq<string>)
    requires Initial(p) && Distinct(members)
    ensures var end := Run(p, events);
      ResultTotal(end, members) <= |end.verdicts| <= |end.receipts|
  {
    CountersExact(p, events);
    var end := Run(p, events);
    ResultsJudged(end, members);
    Subset(JudgedFor(end, members), end.verdicts.Keys);
    Subset(end.verdicts.Keys, end.receipts.Keys);
  }

  /** A result counted on the member whose acquisition the receipt counted. */
  predicate Loyal(p: Pool) {
    forall key | key in p.verdicts :: key in p.receipts && p.verdicts[key].member == p.receipts[key]
  }

  // A result is reported by the member that acquired the receipt.
  predicate NamesAcquirer(p: Pool, e: Event) {
    match FilingOf(p, e)
    case Decided(key, verdict) => key in p.receipts ==> p.receipts[key] == verdict.member
    case _ => true
  }

  // A generation's receipt is filed under the member that acquired it.
  predicate FiledUnderMember(p: Pool) {
    forall key | key in p.receipts && key.ForMember? :: p.receipts[key] == key.member
  }

  lemma FiledLoyal(p: Pool, next: Pool, key: ReceiptKey, member: string)
    requires FiledUnderMember(p) && Loyal(p) && SameAccounts(Acquired(p, key, member), next)
    requires key.ForMember? ==> member == key.member
    ensures FiledUnderMember(next) && Loyal(next)
  {
  }

  lemma DecidedLoyal(p: Pool, next: Pool, key: ReceiptKey, verdict: Verdict)
    requires FiledUnderMember(p) && Loyal(p) && SameAccounts(Decide(p, key, verdict), next)
    ensures FiledUnderMember(next)
    ensures Loyal(next) <==> next.verdicts == p.verdicts || (key in p.receipts && p.receipts[key] == verdict.member)
  {
    if next.verdicts != p.verdicts {
      assert key in next.verdicts && next.verdicts[key] == verdict;
    }
  }

  lemma FilesLoyal(p: Pool, next: Pool, filing: Filing)
    requires FiledUnderMember(p) && Loyal(p) && Files(p, next, filing)
    requires filing.Filed? && filing.key.ForMember? ==> filing.member == filing.key.member
    ensures FiledUnderMember(next)
    ensures Loyal(next) <==>
            || !filing.Decided? || next.verdicts == p.verdicts
            || (filing.key in p.receipts && p.receipts[filing.key] == filing.verdict.member)
  {
    match filing
    case Nothing =>
    case Filed(key, member) => FiledLoyal(p, next, key, member);
    case Decided(key, verdict) => DecidedLoyal(p, next, key, verdict);
  }

  lemma NextLoyal(p: Pool, e: Event)
    requires FiledUnderMember(p) && Loyal(p)
    ensures FiledUnderMember(Next(p, e))
    ensures Loyal(Next(p, e)) <==> NamesAcquirer(p, e) || Next(p, e).verdicts == p.verdicts
  {
    NextFiles(p, e);
    FilesLoyal(p, Next(p, e), FilingOf(p, e));
  }

  /** A generation's own result always names the acquirer; only a repair's can fail to. */
  lemma MainResultsLoyal(p: Pool, task: string, named: string, success: bool, penalised: bool)
    requires FiledUnderMember(p)
    ensures NamesAcquirer(p, Result(task, named, None, success, penalised))
  {
  }

  // A repair's result is reported by the member that acquired its receipt.
  predicate RepairNamesAcquirer(p: Pool, e: Event) {
    e.Result? && e.repair.Some? ==> NamesAcquirer(p, e)
  }

  lemma StepNamesAcquirer(p: Pool, e: Event)
    requires FiledUnderMember(p) && RepairNamesAcquirer(p, e)
    ensures NamesAcquirer(p, e)
  {
    if e.Result? && e.repair.None? {
      MainResultsLoyal(p, e.task, e.named, e.success, e.penalised);
    }
  }

  /**
   * Member by member the same bound holds in every run whose repair results name
   * the member that acquired the receipt; the generation's own results always do.
   */
  lemma {:induction false} MemberResultsBounded(p: Pool, events: seq<Event>, member: string)
    requires Initial(p)
    requires forall k :: 0 <= k < |events| ==> RepairNamesAcquirer(Run(p, events[..k]), events[k])
    ensures Results(Run(p, events), member) <= CountersOf(Run(p, events), member).acquired
  {
    LoyalRun(p, events);
    CountersExact(p, events);
    var end := Run(p, events);
    assert MemberExact(end, member) && SuccessesOf(end, member) !! FailuresOf(end, member);
    Subset(SuccessesOf(end, member) + FailuresOf(end, member), ReceiptsOf(end, member));
  }

  lemma {:induction false} LoyalRun(p: Pool, events: seq<Event>)
    requires Initial(p)
    requires forall k :: 0 <= k < |events| ==> RepairNamesAcquirer(Run(p, events[..k]), events[k])
    ensures FiledUnderMember(Run(p, events)) && Loyal(Run(p, events))
  {
    if events != [] {
      var n := |events| - 1;
      forall k | 0 <= k < n ensures RepairNamesAcquirer(Run(p, events[..n][..k]), events[..n][k]) {
        assert events[..n][..k] == events[..k];
      }
      LoyalRun(p, events[..n]);
      StepNamesAcquirer(Run(p, events[..n]), events[n]);
      NextLoyal(Run(p, events[..n]), events[n]);
    }
  }

  // ---------------------------------------------------------- overdrawing

  // The receipts with a result that counts on the member.
  function CountedOn(p: Pool, member: string): set<ReceiptKey> {
    SuccessesOf(p, member) + FailuresOf(p, member)
  }

  // The member's own receipts without one.
  function SpareOf(p: Pool, member: string): set<ReceiptKey> {
    ReceiptsOf(p, member) - CountedOn(p, member)
  }

  // Results that count on the member for a receipt another one acquired.
  function ForeignTo(p: Pool, member: string): set<ReceiptKey> {
    CountedOn(p, member) - ReceiptsOf(p, member)
  }

  lemma Exchange(a: set<ReceiptKey>, b: set<ReceiptKey>)
    ensures |a| + |b - a| == |b| + |a - b|
  {
    assert a + (b - a) == b + (a - b);
  }

  lemma BalanceExact(p: Pool, member: string)
    requires MemberExact(p, member)
    ensures Results(p, member) + |SpareOf(p, member)| == CountersOf(p, member).acquired + |ForeignTo(p, member)|
  {
    assert SuccessesOf(p, member) !! FailuresOf(p, member);
    Exchange(CountedOn(p, member), ReceiptsOf(p, member));
  }

  /**
   * In every run a member's results and spare receipts balance its acquisitions
   * and foreign results, so its results exceed its acquisitions exactly when it
   * has more foreign results than spare receipts.
   */
  lemma ResultsBalance(p: Pool, events: seq<Event>, member: string)
    requires Initial(p)
    ensures var end := Run(p, events);
      && Results(end, member) + |SpareOf(end, member)| == CountersOf(end, member).acquired + |ForeignTo(end, member)|
      && (Results(end, member) > CountersOf(end, member).acquired <==> |ForeignTo(end, member)| > |SpareOf(end, member)|)
  {
    CountersExact(p, events);
    assert MemberExact(Run(p, events), member);
    BalanceExact(Run(p, events), member);
  }

  // A first result that counts on the member.
  predicate CountsOn(p: Pool, filing: Filing, member: string) {
    && filing.Decided? && filing.key in p.receipts && filing.key !in p.verdicts
    && filing.verdict.member == member && (filing.verdict.success || filing.verdict.penalised)
  }

  lemma FilesMove(p: Pool, next: Pool, filing: Filing, member: string)
    requires Files(p, next, filing)
    ensures CountersOf(next, member).acquired >= CountersOf(p, member).acquired
    ensures !CountsOn(p, filing, member) ==> Results(next, member) == Results(p, member)
    ensures CountsOn(p, filing, member) ==>
              Results(next, member) == Results(p, member) + 1 && CountersOf(next, member).acquired == CountersOf(p, member).acquired
  {
    match filing
    case Nothing =>
    case Filed(key, holder) => AcquiredMoves(p, key, holder, member);
    case Decided(key, verdict) => DecidedMoves(p, key, verdict, member);
  }

  lemma AcquiredMoves(p: Pool, key: ReceiptKey, holder: string, member: string)
    ensures var next := Acquired(p, key, holder);
      CountersOf(next, member).acquired >= CountersOf(p, member).acquired && Results(next, member) == Results(p, member)
  {
  }

  lemma DecidedMoves(p: Pool, key: ReceiptKey, verdict: Verdict, member: string)
    ensures var next := Decide(p, key, verdict);
      && CountersOf(next, member).acquired == CountersOf(p, member).acquired
      && Results(next, member) == Results(p, member) + if CountsOn(p, Decided(key, verdict), member) then 1 else 0
  {
    if key in p.receipts && key !in p.verdicts {
      assert CountersOf(Decide(p, key, verdict), member)
          == if member == verdict.member then Judge(CountersOf(p, member), verdict.success, verdict.penalised)
             else CountersOf(p, member);
    }
  }

  /**
   * Exactly which step pushes a member's results above its acquisitions: one whose
   * result counts on it while it has none to spare. If no foreign result counts on
   * it yet, that result is for a receipt another member acquired.
   */
  lemma NextOverdrawsIff(p: Pool, e: Event, member: string)
    requires Accounted(p) && Results(p, member) <= CountersOf(p, member).acquired
    ensures Results(Next(p, e), member) > CountersOf(Next(p, e), member).acquired
            <==> CountsOn(p, FilingOf(p, e), member) && Results(p, member) == CountersOf(p, member).acquired
    ensures ForeignTo(p, member) == {} && Results(Next(p, e), member) > CountersOf(Next(p, e), member).acquired
            ==> !NamesAcquirer(p, e)
  {
    NextFiles(p, e);
    FilesMove(p, Next(p, e), FilingOf(p, e), member);
    if CountsOn(p, FilingOf(p, e), member) && Results(p, member) == CountersOf(p, member).acquired && ForeignTo(p, member) == {} {
      assert MemberExact(p, member);
      BalanceExact(p, member);
      assert FilingOf(p, e).key !in CountedOn(p, member) && FilingOf(p, e).key !in SpareOf(p, member);
    }
  }

  // The pool after member "a" acquired repair step "s" of task "t", gave the lease
  // back, and a new worker took the task over.
  const HANDED_OVER := SMALL.(
    claims := map["t" := Claim(2, LEASE_TTL)], receipts := map[ForRepair("t", "s") := "a"],
    counters := map["a" := Counters(1, 0, 0)])

  const REPAIRED := SMALL.(
    claims := map["t" := Claim(1, LEASE_TTL)], receipts := map[ForRepair("t", "s") := "a"],
    counters := map["a" := Counters(1, 0, 0)], leases := map[Repair("t", "s") := Lease("a", 1, LEASE_TTL)])

  const REPAIR := [Claimed("t", 1), TakeRepair("t", "s", 1, "a")]
  const HANDOVER := [Drop(Repair("t", "s"), 1), Claimed("t", 2)]

  lemma StepRepaired()
    ensures Run(SMALL, REPAIR) == REPAIRED
  {
    var claimed := Next(SMALL, REPAIR[0]);
    assert LiveOf(claimed, "a") == {};
    TwoSteps(SMALL, REPAIR[0], REPAIR[1]);
  }

  lemma HandedOverReachable()
    ensures Initial(SMALL) && Run(SMALL, REPAIR + HANDOVER) == HANDED_OVER
  {
    StepRepaired();
    assert Next(REPAIRED, HANDOVER[0]).leases == map[];
    TwoSteps(REPAIRED, HANDOVER[0], HANDOVER[1]);
    RunFront(SMALL, REPAIR, HANDOVER);
  }

  /**
   * The bound can fail for one member: the step is acquired again by member "b",
   * whose acquisition is not counted because the receipt exists, and the result
   * is counted on "b".
   */
  lemma HandedOverRepairMiscounts()
    ensures var taken := Next(Run(SMALL, REPAIR + HANDOVER), TakeRepair("t", "s", 2, "b"));
      var end := Next(taken, Result("t", "b", Some("s"), true, false));
      Initial(SMALL) && Repair("t", "s") in taken.leases && Results(end, "b") == 1 && CountersOf(end, "b").acquired == 0
  {
    HandedOverReachable();
    TakesOver(HANDED_OVER);
  }

  lemma TakesOver(p: Pool)
    requires p == HANDED_OVER
    ensures var taken := Next(p, TakeRepair("t", "s", 2, "b"));
      var end := Next(taken, Result("t", "b", Some("s"), true, false));
      Repair("t", "s") in taken.leases && Results(end, "b") == 1 && CountersOf(end, "b").acquired == 0
  {
    assert LiveOf(p, "b") == {};
  }

  // ---------------------------------------------------------- transactions

  class Scheduler {
    var now: int
    var capacity: map<string, int>
    var pins: map<string, string>
    var claims: map<string, Claim>
    var leases: map<LeaseId, Lease>
    var selected: map<string, string>
    var receipts: map<ReceiptKey, string>
    var verdicts: map<ReceiptKey, Verdict>
    var counters: map<string, Counters>

    ghost function View(): Pool
      reads this
    {
      Pool(now, capacity, pins, claims, leases, selected, receipts, verdicts, counters)
    }

    constructor (now: int, capacity: map<string, int>, pins: map<string, string>)
      ensures Initial(View()) && Accounted(View())
      ensures this.now == now && this.capacity == capacity && this.pins == pins
    {
      this.now, this.capacity, this.pins := now, capacity, pins;
      claims, leases, selected, receipts, verdicts, counters := map[], map[], map[], map[], map[], map[];
      new;
      CountersExact(View(), []);
    }

    /** Files the receipt of an acquisition and counts it, unless it was filed before. */
    method MediaSchedulerAcquired(key: ReceiptKey, member: string)
      modifies this`receipts, this`counters
      ensures View() == Acquired(old(View()), key, member)
    {
      if key in receipts {
        return;
      }
      receipts := receipts[key := member];
      var c := if member in counters then counters[member] else Counters(0, 0, 0);
      counters := counters[member := c.(acquired := c.acquired + 1)];
    }

    /** Live leases of a member, apart from the given ones. */
    method CountLive(member: string, except: set<LeaseId>) returns (n: nat)
      ensures n == |LiveOf(View(), member) - except|
    {
      var live := set id | id in leases && leases[id].member == member && leases[id].expires > now && id !in except;
      assert live == LiveOf(View(), member) - except;
      return |live|;
    }

    /** Takes or renews the main lease of a task. */
    method AcquireImageProviderLease(task: string, token: nat, member: string) returns (ok: bool)
      modifies this`leases, this`receipts, this`counters
      ensures ok <==> AcquireMain(old(View()), task, token, member).Some?
      ensures ok ==> View() == AcquireMain(old(View()), task, token, member).value
      ensures !ok ==> View() == old(View())
    {
      if task !in claims || claims[task].token != token || claims[task].expires <= now {
        return false;
      }
      var limit := if member in capacity then capacity[member] else 0;
      var active := CountLive(member, {Main(task)});
      if limit < 1 || active >= limit {
        return false;
      }
      if Main(task) in leases {
        leases := leases[Main(task) := leases[Main(task)].(owner := token, expires := now + LEASE_TTL)];
      } else {
        leases := leases[Main(task) := Lease(member, token, now + LEASE_TTL)];
      }
      MediaSchedulerAcquired(ForMember(task, member), member);
      return true;
    }

    method DropMain(task: string, token: nat)
      modifies this`leases
      ensures View() == DropLease(old(View()), Main(task), token)
    {
      if Main(task) in leases && leases[Main(task)].owner == token {
        leases := leases - {Main(task)};
      }
    }

    /** Gives up the main lease and takes one for a repair step. */
    method AcquireImageRepairLease(task: string, step: string, token: nat, member: string) returns (ok: bool)
      modifies this`leases, this`receipts, this`counters
      ensures (View(), ok) == AcquireRepair(old(View()), task, step, token, member)
    {
      if task !in claims || claims[task].token != token || claims[task].expires <= now {
        return false;
      }
      var saved := leases;
      DropMain(task, token);
      var limit := if member in capacity then capacity[member] else 0;
      var active := CountLive(member, {});
      assert LiveOf(View(), member) - {} == LiveOf(View(), member);
      if limit < 1 || active >= limit {
        return false;
      }
      if Repair(task, step) in leases {
        leases := saved;
        return false;
      }
      leases := leases[Repair(task, step) := Lease(member, token, now + LEASE_TTL)];
      MediaSchedulerAcquired(ForRepair(task, step), member);
      return true;
    }

    /** Counts the first result of a receipt on the reporting member. */
    method RecordResult(task: string, named: string, step: Option<string>, success: bool, penalised: bool)
      modifies this`verdicts, this`counters
      ensures View() == Report(old(View()), task, named, step, success, penalised)
    {
      var member := named;
      if member == "" && task in selected {
        member := selected[task];
      }
      if member == "" && Main(task) in leases {
        member := leases[Main(task)].member;
      }
      if member == "" {
        return;
      }
      var key := ResultKey(task, member, step);
      if key !in receipts || key in verdicts {
        return;
      }
      verdicts := verdicts[key := Verdict(member, success, penalised)];
      CountResult(member, success, penalised);
    }

    /** Adds a result to a member's counters; a harmless failure counts nowhere. */
    method CountResult(member: string, success: bool, penalised: bool)
      modifies this`counters
      ensures counters == old(counters)[member := Judge(CountersOf(old(View()), member), success, penalised)]
    {
      var c := if member in counters then counters[member] else Counters(0, 0, 0);
      if success {
        c := c.(successes := c.successes + 1);
      } else if penalised {
        c := c.(failures := c.failures + 1);
      }
      counters := counters[member := c];
    }
  }
}
