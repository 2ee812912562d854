/**
 * Provider capacity and scheduler accounting: the lease rows that reserve a
 * member's concurrency for generations and repairs, the receipts that make every
 * acquisition count once, and the one result each receipt may get.
 */
module Leases {
  import opened Prelude

  // ------------------------------------------------------------------ rows

  datatype LeaseId = Main(task: string) | Repair(task: string, step: string)

  datatype Lease = Lease(member: string, owner: nat, expires: int)

  datatype Claim = Claim(token: nat, expires: int)

  // A generation acquires a member under the member's own key, a repair step
  // under the key of its lease.
  datatype ReceiptKey = ForMember(task: string, member: string) | ForRepair(task: string, step: string)

  // The result of a receipt and the member it was counted on.
  datatype Verdict = Verdict(member: string, success: bool, penalised: bool)

  datatype Counters = Counters(acquired: nat, successes: nat, failures: nat)

  // `pins` holds the member a task's billing snapshot fixed; only tasks from before
  // such snapshots have none.
  datatype Pool = Pool(
    now: int, capacity: map<string, int>, pins: map<string, string>, claims: map<string, Claim>, leases: map<LeaseId, Lease>,
    selected: map<string, string>, receipts: map<ReceiptKey, string>, verdicts: map<ReceiptKey, Verdict>,
    counters: map<string, Counters>)

  const LEASE_TTL := 900

  predicate ClaimValid(p: Pool, task: string, token: nat) {
    task in p.claims && p.claims[task].token == token && p.claims[task].expires > p.now
  }

  function LiveOf(p: Pool, member: string): set<LeaseId> {
    set id | id in p.leases && p.leases[id].member == member && p.leases[id].expires > p.now
  }

  function CapacityOf(p: Pool, member: string): int {
    if member in p.capacity then p.capacity[member] else 0
  }

  /** A slot for the lease: leases other than `id` leave room in the member's concurrency. */
  predicate HasRoom(p: Pool, member: string, id: LeaseId) {
    CapacityOf(p, member) >= 1 && |LiveOf(p, member) - {id}| < CapacityOf(p, member)
  }

  function CountersOf(p: Pool, member: string): Counters {
    if member in p.counters then p.counters[member] else Counters(0, 0, 0)
  }

  // ------------------------------------------------------------ operations

  /** Counts an acquisition, unless its receipt exists already. */
  function Acquired(p: Pool, key: ReceiptKey, member: string): Pool {
    if key in p.receipts then p
    else
      var c := CountersOf(p, member);
      p.(receipts := p.receipts[key := member], counters := p.counters[member := c.(acquired := c.acquired + 1)])
  }

  /** The member a task's main call goes to: the pinned one, else the one routed now. */
  function ProviderOf(p: Pool, task: string, routed: string): string {
    if task in p.pins then p.pins[task] else routed
  }

  /** Takes or renews a task's main lease. An existing row keeps its member. */
  function AcquireMain(p: Pool, task: string, token: nat, member: string): Option<Pool> {
    var id := Main(task);
    if !ClaimValid(p, task, token) || !HasRoom(p, member, id) then None
    else
      var lease :=
        if id in p.leases then p.leases[id].(owner := token, expires := p.now + LEASE_TTL)
        else Lease(member, token, p.now + LEASE_TTL);
      Some(Acquired(p.(leases := p.leases[id := lease]), ForMember(task, member), member))
  }

  function DropLease(p: Pool, id: LeaseId, token: nat): Pool {
    if id in p.leases && p.leases[id].owner == token then p.(leases := p.leases - {id}) else p
  }

  /** Gives the main lease up and takes one for a repair step; a full member costs only the main lease. */
  function AcquireRepair(p: Pool, task: string, step: string, token: nat, member: string): (Pool, bool) {
    var id := Repair(task, step);
    if !ClaimValid(p, task, token) then (p, false)
    else
      var freed := DropLease(p, Main(task), token);
      if CapacityOf(p, member) < 1 || |LiveOf(freed, member)| >= CapacityOf(p, member) then (freed, false)
      else if id in freed.leases then (p, false)
      else
        var leased := freed.(leases := freed.leases[id := Lease(member, token, p.now + LEASE_TTL)]);
        (Acquired(leased, ForRepair(task, step), member), true)
  }

  /** The member a result is about: the named one, the generation's, or its lease's. */
  function ReportedMember(p: Pool, task: string, member: string): string {
    if member != "" then member
    else if task in p.selected && p.selected[task] != "" then p.selected[task]
    else if Main(task) in p.leases then p.leases[Main(task)].member
    else ""
  }

  function Judge(c: Counters, success: bool, penalised: bool): Counters {
    if success then c.(successes := c.successes + 1)
    else if penalised then c.(failures := c.failures + 1)
    else c
  }

  function ResultKey(task: string, member: string, step: Option<string>): ReceiptKey {
    if step.Some? then ForRepair(task, step.value) else ForMember(task, member)
  }

  /** Records the first result of a receipt; later ones and unreceipted ones change nothing. */
  function Decide(p: Pool, key: ReceiptKey, v: Verdict): Pool {
    if key !in p.receipts || key in p.verdicts then p
    else
      p.(verdicts := p.verdicts[key := v],
         counters := p.counters[v.member := Judge(CountersOf(p, v.member), v.success, v.penalised)])
  }

  function Report(p: Pool, task: string, named: string, step: Option<string>, success: bool, penalised: bool): Pool {
    var member := ReportedMember(p, task, named);
    if member == "" then p
    else Decide(p, ResultKey(task, member, step), Verdict(member, success, penalised))
  }

  datatype Event =
    | Tick(seconds: nat)
    | Claimed(task: string, token: nat)
    | KeepClaim(task: string, token: nat)
    | Select(task: string, member: string)
    | TakeMain(task: string, token: nat, routed: string)
    | RenewMain(task: string, token: nat)
    | TakeRepair(task: string, step: string, token: nat, member: string)
    | RenewRepair(task: string, step: string, token: nat)
    | Drop(id: LeaseId, token: nat)
    | Result(task: string, named: string, repair: Option<string>, success: bool, penalised: bool)

  function Renew(p: Pool, id: LeaseId, token: nat): Pool {
    if id in p.leases && p.leases[id].owner == token then
      p.(leases := p.leases[id := p.leases[id].(expires := p.now + LEASE_TTL)])
    else p
  }

  function Next(p: Pool, e: Event): Pool {
    match e
    case Tick(seconds) => p.(now := p.now + seconds)
    case Claimed(task, token) => p.(claims := p.claims[task := Claim(token, p.now + LEASE_TTL)])
    case KeepClaim(task, token) =>
      if ClaimValid(p, task, token) then p.(claims := p.claims[task := Claim(token, p.now + LEASE_TTL)]) else p
    case Select(task, member) => p.(selected := p.selected[task := member])
    case TakeMain(task, token, routed) =>
      var taken := AcquireMain(p, task, token, ProviderOf(p, task, routed));
      if taken.Some? then taken.value else p
    case RenewMain(task, token) => Renew(p, Main(task), token)
    case TakeRepair(task, step, token, member) => AcquireRepair(p, task, step, token, member).0
    case RenewRepair(task, step, token) =>
      if ClaimValid(p, task, token) then Renew(p, Repair(task, step), token) else p
    case Drop(id, token) => DropLease(p, id, token)
    case Result(task, named, step, success, penalised) => Report(p, task, named, step, success, penalised)
  }

  function Run(p: Pool, events: seq<Event>): Pool {
    if events == [] then p else Next(Run(p, events[..|events| - 1]), events[|events| - 1])
  }

  ghost predicate Initial(p: Pool) {
    p.leases == map[] && p.receipts == map[] && p.verdicts == map[] && p.counters == map[]
  }

  // -------------------------------------------------------------- capacity

  ghost predicate WithinCapacity(p: Pool) {
    forall member :: |LiveOf(p, member)| <= Max(0, CapacityOf(p, member))
  }

  lemma Subset<T>(a: set<T>, b: set<T>)
    requires a <= b
    ensures |a| <= |b|
  {
    assert b == a + (b - a);
  }

  /** Writing one live lease keeps every member within capacity exactly when the lease's own member has room. */
  lemma WriteLease(p: Pool, id: LeaseId, lease: Lease)
    requires WithinCapacity(p) && lease.expires > p.now
    requires id in p.leases ==> lease.member == p.leases[id].member
    ensures var next := p.(leases := p.leases[id := lease]);
      WithinCapacity(next) <==> HasRoom(p, lease.member, id)
  {
    var next := p.(leases := p.leases[id := lease]);
    assert LiveOf(next, lease.member) == (LiveOf(p, lease.member) - {id}) + {id};
    forall member | member != lease.member ensures |LiveOf(next, member)| <= Max(0, CapacityOf(next, member)) {
      assert LiveOf(next, member) == LiveOf(p, member);
    }
    assert CapacityOf(next, lease.member) == CapacityOf(p, lease.member);
  }

  lemma SameLeases(p: Pool, next: Pool)
    requires WithinCapacity(p) && p.now <= next.now && p.capacity == next.capacity
    requires forall id :: id in next.leases ==> id in p.leases && p.leases[id] == next.leases[id]
    ensures WithinCapacity(next)
  {
    forall member ensures |LiveOf(next, member)| <= Max(0, CapacityOf(next, member)) {
      Subset(LiveOf(next, member), LiveOf(p, member));
    }
  }

  lemma OwnLiveLeaseHasRoom(p: Pool, id: LeaseId)
    requires WithinCapacity(p) && id in p.leases && p.leases[id].expires > p.now
    ensures HasRoom(p, p.leases[id].member, id)
  {
    var live := LiveOf(p, p.leases[id].member);
    assert id in live && live == (live - {id}) + {id};
    assert |live| <= Max(0, CapacityOf(p, p.leases[id].member));
  }

  /**
   * Taking a main lease keeps capacity exactly when the member on the row, which
   * an existing row keeps, has room. For a new row or an unchanged member that is
   * the check the acquisition makes itself.
   */
  lemma TakeMainKeepsCapacityIff(p: Pool, task: string, token: nat, member: string)
    requires WithinCapacity(p) && AcquireMain(p, task, token, member).Some?
    ensures var id := Main(task);
      var holder := if id in p.leases then p.leases[id].member else member;
      && (WithinCapacity(AcquireMain(p, task, token, member).value) <==> HasRoom(p, holder, id))
      && (holder == member ==> WithinCapacity(AcquireMain(p, task, token, member).value))
  {
    var id := Main(task);
    var next := AcquireMain(p, task, token, member).value;
    WriteLease(p, id, next.leases[id]);
    var written := p.(leases := p.leases[id := next.leases[id]]);
    assert next.leases == written.leases;
    if WithinCapacity(written) { SameLeases(written, next); }
    if WithinCapacity(next) { SameLeases(next, written); }
  }

  /** Renewing keeps capacity exactly when the row's member has room, so always while the lease is live. */
  lemma RenewKeepsCapacityIff(p: Pool, id: LeaseId, token: nat)
    requires WithinCapacity(p) && id in p.leases && p.leases[id].owner == token
    ensures WithinCapacity(Renew(p, id, token)) <==> HasRoom(p, p.leases[id].member, id)
    ensures p.leases[id].expires > p.now ==> WithinCapacity(Renew(p, id, token))
  {
    WriteLease(p, id, p.leases[id].(expires := p.now + LEASE_TTL));
    if p.leases[id].expires > p.now {
      OwnLiveLeaseHasRoom(p, id);
    }
  }

  // What taking a repair lease leaves of the lease rows.
  lemma RepairLeases(p: Pool, task: string, step: string, token: nat, member: string)
    ensures var (next, taken) := AcquireRepair(p, task, step, token, member);
      var freed, id := DropLease(p, Main(task), token), Repair(task, step);
      && next.now == p.now && next.capacity == p.capacity && next.pins == p.pins
      && (!taken ==> next.leases == p.leases || next.leases == freed.leases)
      && (taken ==> id !in freed.leases && |LiveOf(freed, member)| < CapacityOf(freed, member)
                    && next.leases == freed.leases[id := Lease(member, token, p.now + LEASE_TTL)])
  {
  }

  lemma TakeRepairKeepsCapacity(p: Pool, task: string, step: string, token: nat, member: string)
    requires WithinCapacity(p)
    ensures WithinCapacity(AcquireRepair(p, task, step, token, member).0)
  {
    var (next, taken) := AcquireRepair(p, task, step, token, member);
    var freed := DropLease(p, Main(task), token);
    RepairLeases(p, task, step, token, member);
    SameLeases(p, freed);
    if taken {
      InsertLease(freed, Repair(task, step), Lease(member, token, p.now + LEASE_TTL), next);
    } else {
      SameLeases(p, next);
    }
  }

  lemma InsertLease(p: Pool, id: LeaseId, lease: Lease, next: Pool)
    requires WithinCapacity(p) && id !in p.leases && lease.expires > p.now
    requires |LiveOf(p, lease.member)| < CapacityOf(p, lease.member)
    requires next.leases == p.leases[id := lease] && next.now == p.now && next.capacity == p.capacity
    ensures WithinCapacity(next)
  {
    assert LiveOf(p, lease.member) - {id} == LiveOf(p, lease.member);
    WriteLease(p, id, lease);
    SameLeases(p.(leases := p.leases[id := lease]), next);
  }

  // A pinned task's main lease is on its pinned member.
  predicate PinsKept(p: Pool) {
    forall id | id in p.leases && id.Main? && id.task in p.pins :: p.leases[id].member == p.pins[id.task]
  }

  /**
   * How a lease may be rewritten: before it expired, and, for a task without a pin,
   * for the member on its row.
   */
  predicate Steady(p: Pool, e: Event) {
    match e
    case TakeMain(task, _, routed) =>
      Main(task) in p.leases ==> task in p.pins || p.leases[Main(task)].member == routed
    case RenewMain(task, _) => Main(task) in p.leases ==> p.leases[Main(task)].expires > p.now
    case RenewRepair(task, step, _) => Repair(task, step) in p.leases ==> p.leases[Repair(task, step)].expires > p.now
    case _ => true
  }

  lemma TakeMainSteady(p: Pool, task: string, token: nat, routed: string)
    requires WithinCapacity(p) && PinsKept(p) && Steady(p, TakeMain(task, token, routed))
    ensures var taken := AcquireMain(p, task, token, ProviderOf(p, task, routed)); taken.Some? ==> WithinCapacity(taken.value)
  {
    var member := ProviderOf(p, task, routed);
    if AcquireMain(p, task, token, member).Some? {
      TakeMainKeepsCapacityIff(p, task, token, member);
    }
  }

  lemma RenewSteady(p: Pool, id: LeaseId, token: nat)
    requires WithinCapacity(p) && (id in p.leases ==> p.leases[id].expires > p.now)
    ensures WithinCapacity(Renew(p, id, token))
  {
    if id in p.leases && p.leases[id].owner == token {
      RenewKeepsCapacityIff(p, id, token);
    }
  }

  lemma RenewalSteady(p: Pool, e: Event)
    requires WithinCapacity(p) && Steady(p, e) && (e.RenewMain? || e.RenewRepair?)
    ensures WithinCapacity(Next(p, e))
  {
    RenewSteady(p, if e.RenewMain? then Main(e.task) else Repair(e.task, e.step), e.token);
  }

  lemma NextWithinCapacity(p: Pool, e: Event)
    requires WithinCapacity(p) && PinsKept(p) && Steady(p, e)
    ensures WithinCapacity(Next(p, e))
  {
    if e.TakeMain? {
      TakeMainSteady(p, e.task, e.token, e.routed);
    } else if e.RenewMain? || e.RenewRepair? {
      RenewalSteady(p, e);
    } else if e.TakeRepair? {
      TakeRepairKeepsCapacity(p, e.task, e.step, e.token, e.member);
    } else {
      SameLeases(p, Next(p, e));
    }
  }

  lemma NextKeepsPins(p: Pool, e: Event)
    requires PinsKept(p)
    ensures PinsKept(Next(p, e)) && Next(p, e).pins == p.pins
  {
    match e
    case TakeMain(task, token, routed) => MainKeepsPins(p, task, token, routed);
    case TakeRepair(task, step, token, member) => RepairKeepsPins(p, task, step, token, member);
    case _ =>
  }

  lemma MainKeepsPins(p: Pool, task: string, token: nat, routed: string)
    requires PinsKept(p)
    ensures var taken := AcquireMain(p, task, token, ProviderOf(p, task, routed));
      taken.Some? ==> PinsKept(taken.value) && taken.value.pins == p.pins
  {
  }

  lemma RepairKeepsPins(p: Pool, task: string, step: string, token: nat, member: string)
    requires PinsKept(p)
    ensures PinsKept(AcquireRepair(p, task, step, token, member).0) && AcquireRepair(p, task, step, token, member).0.pins == p.pins
  {
    RepairLeases(p, task, step, token, member);
    var (next, _) := AcquireRepair(p, task, step, token, member);
    LeasesKeepPins(p, next, Repair(task, step));
  }

  lemma LeasesKeepPins(p: Pool, next: Pool, id: LeaseId)
    requires PinsKept(p) && next.pins == p.pins && id.Repair?
    requires forall other :: other in next.leases && other != id ==> other in p.leases && next.leases[other] == p.leases[other]
    ensures PinsKept(next)
  {
  }

  ghost predicate SteadyRun(p: Pool, events: seq<Event>) {
    forall k :: 0 <= k < |events| ==> Steady(Run(p, events[..k]), events[k])
  }

  /**
   * In every steady run live main and repair leases never exceed a member's
   * concurrency. Of pinned tasks only live renewals are asked.
   */
  lemma {:induction false} CapacityKept(p: Pool, events: seq<Event>)
    requires Initial(p) && SteadyRun(p, events)
    ensures WithinCapacity(Run(p, events)) && PinsKept(Run(p, events)) && Run(p, events).pins == p.pins
  {
    if events == [] {
      forall member ensures |LiveOf(p, member)| <= Max(0, CapacityOf(p, member)) {
        assert LiveOf(p, member) == {};
      }
    } else {
      var n := |events| - 1;
      forall k | 0 <= k < n ensures Steady(Run(p, events[..n][..k]), events[..n][k]) {
        assert events[..n][..k] == events[..k];
      }
      CapacityKept(p, events[..n]);
      NextWithinCapacity(Run(p, events[..n]), events[n]);
      NextKeepsPins(Run(p, events[..n]), events[n]);
    }
  }

  // A renewal comes before the lease expired.
  predicate RenewsLive(p: Pool, e: Event) {
    match e
    case RenewMain(task, _) => Main(task) in p.leases ==> p.leases[Main(task)].expires > p.now
    case RenewRepair(task, step, _) => Repair(task, step) in p.leases ==> p.leases[Repair(task, step)].expires > p.now
    case _ => true
  }

  /** With a pin for every task, renewals made while a lease is live are all that capacity needs. */
  lemma PinnedCapacityKept(p: Pool, events: seq<Event>)
    requires Initial(p) && forall k :: 0 <= k < |events| && events[k].TakeMain? ==> events[k].task in p.pins
    requires forall k :: 0 <= k < |events| ==> RenewsLive(Run(p, events[..k]), events[k])
    ensures WithinCapacity(Run(p, events))
  {
    forall k | 0 <= k < |events| ensures Steady(Run(p, events[..k]), events[k]) {
      PinsFixed(p, events[..k]);
    }
    CapacityKept(p, events);
  }

  lemma {:induction false} PinsFixed(p: Pool, events: seq<Event>)
    requires Initial(p)
    ensures PinsKept(Run(p, events)) && Run(p, events).pins == p.pins
  {
    if events != [] {
      PinsFixed(p, events[..|events| - 1]);
      NextKeepsPins(Run(p, events[..|events| - 1]), events[|events| - 1]);
    }
  }

  /** A task that still holds a live main lease of a member always gets it again. */
  lemma HolderReacquires(p: Pool, task: string, token: nat)
    requires WithinCapacity(p) && ClaimValid(p, task, token)
    requires Main(task) in p.leases && p.leases[Main(task)].expires > p.now
    ensures var taken := AcquireMain(p, task, token, p.leases[Main(task)].member);
      && taken.Some?
      && taken.value.leases == p.leases[Main(task) := Lease(p.leases[Main(task)].member, token, p.now + LEASE_TTL)]
  {
    OwnLiveLeaseHasRoom(p, Main(task));
  }

  // Two members with one slot each, no pins, and nothing leased.
  const SMALL := Pool(0, map["a" := 1, "b" := 1], map[], map[], map[], map[], map[], map[], map[])

  const LAPSE := [Claimed("t", 1), TakeMain("t", 1, "a"), Tick(LEASE_TTL)]
  const OVERTAKE := [Claimed("u", 2), TakeMain("u", 2, "a")]
  const RETURN := [Claimed("t", 3), TakeMain("t", 3, "b")]

  function Taken(p: Pool, task: string, token: nat, member: string): map<LeaseId, Lease> {
    var holder := if Main(task) in p.leases then p.leases[Main(task)].member else member;
    p.leases[Main(task) := Lease(holder, token, p.now + LEASE_TTL)]
  }

  lemma Takes(p: Pool, task: string, token: nat, member: string)
    requires ClaimValid(p, task, token) && task !in p.pins && CapacityOf(p, member) == 1 && LiveOf(p, member) <= {Main(task)}
    ensures var end := Next(p, TakeMain(task, token, member));
      end.now == p.now && end.capacity == p.capacity && end.pins == p.pins && end.leases == Taken(p, task, token, member)
  {
    assert LiveOf(p, member) - {Main(task)} == {};
  }

  lemma ClaimAndTake(p: Pool, task: string, token: nat, member: string)
    requires task !in p.pins && CapacityOf(p, member) == 1 && LiveOf(p, member) <= {Main(task)}
    ensures var end := Run(p, [Claimed(task, token), TakeMain(task, token, member)]);
      end.now == p.now && end.capacity == p.capacity && end.pins == p.pins && end.leases == Taken(p, task, token, member)
  {
    JustClaimed(p, task, token, member);
    Takes(Next(p, Claimed(task, token)), task, token, member);
    TwoSteps(p, Claimed(task, token), TakeMain(task, token, member));
  }

  lemma JustClaimed(p: Pool, task: string, token: nat, member: string)
    ensures var claimed := Next(p, Claimed(task, token));
      && ClaimValid(claimed, task, token) && LiveOf(claimed, member) == LiveOf(p, member)
      && claimed.now == p.now && claimed.capacity == p.capacity && claimed.pins == p.pins && claimed.leases == p.leases
      && Taken(claimed, task, token, member) == Taken(p, task, token, member)
  {
  }

  lemma TwoSteps(p: Pool, a: Event, b: Event)
    ensures Run(p, [a, b]) == Next(Next(p, a), b)
  {
    RunThen(p, [], a);
    RunThen(p, [a], b);
    assert [] + [a] == [a] && [a] + [b] == [a, b];
  }

  lemma RunThen(p: Pool, events: seq<Event>, e: Event)
    ensures Run(p, events + [e]) == Next(Run(p, events), e)
  {
    assert (events + [e])[..|events|] == events;
  }

  lemma {:induction false} RunFront(p: Pool, first: seq<Event>, rest: seq<Event>)
    ensures Run(p, first + rest) == Run(Run(p, first), rest)
  {
    if rest == [] {
      assert first + rest == first;
    } else {
      var n := |rest| - 1;
      RunFront(p, first, rest[..n]);
      assert (first + rest)[..|first| + n] == first + rest[..n];
    }
  }

  /**
   * For tasks without a pin capacity can be lost: one whose lease lapsed and whose
   * slot went to another task comes back for a second member, and its old row
   * counts against the first member again.
   */
  lemma MemberChangeOverbooks()
    ensures var end := Run(SMALL, LAPSE + OVERTAKE + RETURN);
      && Initial(SMALL) && CapacityOf(end, "a") == 1
      && LiveOf(end, "a") == {Main("t"), Main("u")} && LiveOf(end, "b") == {}
  {
    assert LiveOf(SMALL, "a") == {};
    ClaimAndTake(SMALL, "t", 1, "a");
    assert LAPSE[..2] == [Claimed("t", 1), TakeMain("t", 1, "a")];
    var lapsed := Run(SMALL, LAPSE);
    assert lapsed.leases == map[Main("t") := Lease("a", 1, LEASE_TTL)] && lapsed.now == LEASE_TTL;
    assert LiveOf(lapsed, "a") == {};
    RunFront(SMALL, LAPSE, OVERTAKE);
    Overtaken(lapsed);
    RunFront(SMALL, LAPSE + OVERTAKE, RETURN);
  }

  lemma Overtaken(lapsed: Pool)
    requires lapsed.leases == map[Main("t") := Lease("a", 1, LEASE_TTL)] && lapsed.now == LEASE_TTL
    requires lapsed.pins == map[] && CapacityOf(lapsed, "a") == CapacityOf(lapsed, "b") == 1
    ensures var end := Run(Run(lapsed, OVERTAKE), RETURN);
      && CapacityOf(end, "a") == 1
      && LiveOf(end, "a") == {Main("t"), Main("u")} && LiveOf(end, "b") == {}
  {
    ClaimAndTake(lapsed, "u", 2, "a");
    var overtaken := Run(lapsed, OVERTAKE);
    assert LiveOf(overtaken, "b") == {};
    ClaimAndTake(overtaken, "t", 3, "b");
  }
}
