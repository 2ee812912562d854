/**
 * The credit ledger of one database: wallets, expiring batches, append-only
 * entries and the per-operation projection. Amounts are whole cents, as
 * numeric(18,2) and the rounding of every amount make them. Every operation is
 * one transaction over the tables.
 */
module Ledger {
  import opened Prelude

  datatype CreditError =
    | InvalidInput
    | IdempotencyConflict
    | AccountFrozen
    | InsufficientCredits
    | InsufficientBatches
    | ConstraintViolation

  datatype Wallet = Wallet(balance: int, earned: int, spent: int, refunded: int, frozen: bool)

  datatype BatchStatus = Active | Consumed | Lapsed

  datatype Batch = Batch(
    id: string, user: string, amount: int, remaining: int, source: string,
    sourceRef: Option<string>, issued: int, expires: Option<int>, status: BatchStatus)

  datatype Kind = Grant(typ: string) | Consumption | Expiration | Refund

  datatype Operation = Operation(typ: string, id: string, at: int)

  datatype Entry = Entry(
    id: string, user: string, kind: Kind, amount: int, account: string,
    sourceRef: Option<string>, op: Option<Operation>)

  datatype OperationKey = OperationKey(user: string, typ: string, id: string)

  datatype Projection = Projection(at: int, gross: int, refunded: int, net: int)

  datatype Tables = Tables(
    wallets: map<string, Wallet>,
    batches: seq<Batch>,
    entries: seq<Entry>,
    operations: map<OperationKey, Projection>)

  const EMPTY_WALLET := Wallet(0, 0, 0, 0, false)
  const EMPTY_TABLES := Tables(map[], [], [], map[])

  // Request of a grant, refund or consumption.
  datatype Mutation = Mutation(
    operation: string, user: string, amount: real, typ: string, sourceType: string,
    sourceRef: string, service: string, expiresAt: Option<int>, noExpiry: bool,
    opType: string, opId: string, opAt: Option<int>)

  // What a transaction takes from outside: its start time, the caller's clock,
  // newly drawn identifiers and the two expiry settings in days.
  datatype Env = Env(
    now: int, clock: int, batchId: string, entryId: string, requestId: string,
    expiryDays: int, freeExpiryDays: int)

  datatype Receipt = Receipt(batchId: string, entryId: string, balance: int, replayed: bool)

  datatype Posting = Posting(tables: Tables, receipt: Receipt)

  // ---------------------------------------------------------------- amounts

  const MAX_CREDITS: real := 1000000000000.0
  const SECONDS_PER_DAY := 86400

  /** Cents of a non-negative amount, rounded half up as math.Round does there. */
  function CreditRound(credits: real): int {
    (credits * 100.0 + 0.5).Floor
  }

  function ValidateAmount(credits: real, allowZero: bool): (r: Result<int, CreditError>)
    ensures r.Ok? ==> 0 <= r.value && (allowZero || 0 < r.value)
    ensures r.Ok? ==> r.value as real - 0.5 <= credits * 100.0 < r.value as real + 0.5
  {
    if credits > MAX_CREDITS || credits < 0.0 then Err(InvalidInput)
    else
      var cents := CreditRound(credits);
      if cents == 0 && !allowZero then Err(InvalidInput) else Ok(cents)
  }

  // ------------------------------------------------------------------ sums

  // Which batches a sum of remaining credit runs over.
  datatype Holding =
    | ActiveOf(user: string)
    | DueOf(user: string, now: int)
    | EndingBy(user: string, time: int)
    | LastingAfter(user: string, time: int)

  predicate DueBy(expires: Option<int>, time: int) {
    expires.Some? && expires.value <= time
  }

  predicate Holds(b: Batch, h: Holding) {
    && b.user == h.user
    && b.status == Active
    && match h
       case ActiveOf(_) => true
       case DueOf(_, now) => DueBy(b.expires, now) && b.remaining > 0
       case EndingBy(_, time) => DueBy(b.expires, time)
       case LastingAfter(_, time) => !DueBy(b.expires, time)
  }

  function HeldIn(b: Batch, h: Holding): int {
    if Holds(b, h) then b.remaining else 0
  }

  /** Remaining credit of the selected batches. */
  function Held(batches: seq<Batch>, h: Holding): int {
    if batches == [] then 0
    else Held(batches[..|batches| - 1], h) + HeldIn(batches[|batches| - 1], h)
  }

  // Which entries a sum of amounts runs over.
  datatype Account =
    | Earned(user: string)
    | Spent(user: string)
    | Refunded(user: string)
    | Expired(user: string)
    | Gross(key: OperationKey)
    | Returned(key: OperationKey)

  predicate OfOperation(e: Entry, key: OperationKey) {
    && (e.kind.Consumption? || e.kind.Refund?)
    && e.op.Some?
    && OperationKey(e.user, e.op.value.typ, e.op.value.id) == key
  }

  predicate Counts(e: Entry, a: Account) {
    match a
    case Earned(user) => e.user == user && (e.kind.Grant? || e.kind.Refund?)
    case Spent(user) => e.user == user && e.kind.Consumption?
    case Refunded(user) => e.user == user && e.kind.Refund?
    case Expired(user) => e.user == user && e.kind.Expiration?
    case Gross(key) => OfOperation(e, key) && e.kind.Consumption?
    case Returned(key) => OfOperation(e, key) && e.kind.Refund?
  }

  function CountedIn(e: Entry, a: Account): int {
    if Counts(e, a) then e.amount else 0
  }

  /** Sum of the selected ledger entries. */
  function Total(entries: seq<Entry>, a: Account): int {
    if entries == [] then 0
    else Total(entries[..|entries| - 1], a) + CountedIn(entries[|entries| - 1], a)
  }

  // ------------------------------------------------------------ expiration

  predicate Due(b: Batch, user: string, now: int) {
    Holds(b, DueOf(user, now))
  }

  function Lapse(b: Batch, user: string, now: int): Batch {
    if Due(b, user, now) then b.(status := Lapsed) else b
  }

  function LapseAll(batches: seq<Batch>, user: string, now: int): (r: seq<Batch>)
    ensures |r| == |batches|
    ensures forall i :: 0 <= i < |r| ==> r[i] == Lapse(batches[i], user, now)
  {
    seq(|batches|, i requires 0 <= i < |batches| => Lapse(batches[i], user, now))
  }

  function ExpirationEntry(b: Batch, requestId: string): Entry {
    Entry(requestId + b.id, b.user, Expiration, b.remaining, "SYSTEM:expired", None, None)
  }

  function ExpirationEntries(batches: seq<Batch>, user: string, now: int, requestId: string): seq<Entry> {
    if batches == [] then []
    else
      var last := batches[|batches| - 1];
      ExpirationEntries(batches[..|batches| - 1], user, now, requestId)
      + (if Due(last, user, now) then [ExpirationEntry(last, requestId)] else [])
  }

  /** Moves every due batch of the user out of the wallet, with a ledger entry each. */
  function Expire(t: Tables, user: string, now: int, requestId: string): Tables {
    var lapsed := ExpirationEntries(t.batches, user, now, requestId);
    var wallets :=
      if user in t.wallets && lapsed != [] then
        var w := t.wallets[user];
        t.wallets[user := w.(balance := Max(0, w.balance - Total(lapsed, Expired(user))))]
      else t.wallets;
    t.(wallets := wallets, batches := LapseAll(t.batches, user, now), entries := t.entries + lapsed)
  }

  /** Opens the wallet if it is missing, then expires what is due. */
  function Lock(t: Tables, user: string, now: int, requestId: string): (r: Tables)
    ensures user in r.wallets
  {
    var wallets := if user in t.wallets then t.wallets else t.wallets[user := EMPTY_WALLET];
    Expire(t.(wallets := wallets), user, now, requestId)
  }

  // ------------------------------------------------------------ projection

  predicate OperationTimesAre(entries: seq<Entry>, key: OperationKey, at: int) {
    && (exists i :: 0 <= i < |entries| && OfOperation(entries[i], key))
    && (forall i :: 0 <= i < |entries| && OfOperation(entries[i], key) ==> entries[i].op.value.at == at)
  }

  /** Folds the ledger rows of one operation into its projection row. */
  function Rebuild(t: Tables, key: OperationKey, at: int): Result<Tables, CreditError> {
    var gross, refunded := Total(t.entries, Gross(key)), Total(t.entries, Returned(key));
    if !OperationTimesAre(t.entries, key, at) || refunded > gross then Err(IdempotencyConflict)
    else Ok(t.(operations := t.operations[key := Projection(at, gross, refunded, gross - refunded)]))
  }

  // ----------------------------------------------------------------- grant

  /** Batch source and entry type of a grant. */
  function GrantKind(m: Mutation): Result<(string, string), CreditError> {
    var typ0 := if m.sourceType == "purchase" then "purchase" else if m.typ != "" then m.typ else "admin_grant";
    if m.operation == "refund" && m.typ != "" && m.typ != "refund" then Err(InvalidInput)
    else
      var (source1, typ1) := if m.operation == "refund" then ("refund", "refund") else (m.sourceType, typ0);
      var (source, typ) := if m.typ == "registration_bonus" then ("bonus", "registration_bonus") else (source1, typ1);
      if source !in {"purchase", "bonus", "refund", "referral", "subscription"} then Err(InvalidInput)
      else if (typ == "refund") != (source == "refund") then Err(InvalidInput)
      else if typ !in {"purchase", "monthly_grant", "registration_bonus", "admin_grant", "refund", "referral_reward"} then
        Err(InvalidInput)
      else Ok((source, typ))
  }

  function KindOf(typ: string): Kind {
    if typ == "refund" then Refund else Grant(typ)
  }

  function FindBatch(batches: seq<Batch>, source: string, ref: string): (r: Option<Batch>)
    ensures r.Some? ==> r.value in batches && r.value.source == source && r.value.sourceRef == Some(ref)
    ensures r.None? ==> forall b :: b in batches ==> !(b.source == source && b.sourceRef == Some(ref))
  {
    if batches == [] then None
    else if batches[0].source == source && batches[0].sourceRef == Some(ref) then Some(batches[0])
    else FindBatch(batches[1..], source, ref)
  }

  function FindEntry(entries: seq<Entry>, user: string, kind: Kind, ref: string): (r: Option<Entry>)
    ensures r.Some? ==> r.value in entries && r.value.user == user && r.value.kind == kind && r.value.sourceRef == Some(ref)
    ensures r.None? ==> forall e :: e in entries ==> !(e.user == user && e.kind == kind && e.sourceRef == Some(ref))
  {
    if entries == [] then None
    else if entries[0].user == user && entries[0].kind == kind && entries[0].sourceRef == Some(ref) then Some(entries[0])
    else FindEntry(entries[1..], user, kind, ref)
  }

  function RefOf(ref: string): Option<string> {
    if ref == "" then None else Some(ref)
  }

  /** The earlier batch a retry of this grant must return, if its reference was used. */
  function GrantReplay(t: Tables, m: Mutation, source: string, typ: string, amount: int)
    : Result<Option<string>, CreditError>
  {
    if m.sourceRef == "" then Ok(None)
    else
      var previous := FindBatch(t.batches, source, m.sourceRef);
      if previous.None? then Ok(None)
      else if previous.value.user != m.user || previous.value.amount != amount then Err(IdempotencyConflict)
      else if typ != "refund" then Ok(Some(previous.value.id))
      else
        var entry := FindEntry(t.entries, m.user, Refund, m.sourceRef);
        if entry.None? || entry.value.op.None? || m.opAt.None?
           || entry.value.op.value != Operation(m.opType, m.opId, m.opAt.value) then Err(IdempotencyConflict)
        else Ok(Some(previous.value.id))
  }

  function KeyOf(m: Mutation): OperationKey {
    OperationKey(m.user, m.opType, m.opId)
  }

  /** A refund must name a recorded operation and stay within what it consumed. */
  function RefundGuard(t: Tables, m: Mutation, amount: int): Result<(), CreditError> {
    if m.sourceRef == "" || m.opId == "" || m.opType == "" || m.opAt.None? then Err(InvalidInput)
    else if !OperationTimesAre(t.entries, KeyOf(m), m.opAt.value)
         || Total(t.entries, Returned(KeyOf(m))) + amount > Total(t.entries, Gross(KeyOf(m))) then
      Err(IdempotencyConflict)
    else Ok(())
  }

  function ExpiryOf(m: Mutation, source: string, env: Env): Result<Option<int>, CreditError> {
    if m.noExpiry then Ok(None)
    else if m.expiresAt.Some? then Ok(m.expiresAt)
    else
      var free := source == "bonus" || source == "referral";
      var configured := if free then env.freeExpiryDays else env.expiryDays;
      if configured <= 0 && !free then Ok(None)
      else
        var days := if configured <= 0 then 7 else configured;
        if days > 36500 then Err(InvalidInput) else Ok(Some(env.clock + days * SECONDS_PER_DAY))
  }

  function RebuildRefund(t: Tables, m: Mutation, typ: string): Result<Tables, CreditError> {
    if typ == "refund" && m.opAt.Some? then Rebuild(t, KeyOf(m), m.opAt.value) else Ok(t)
  }

  function NewBatch(m: Mutation, amount: int, source: string, expires: Option<int>, env: Env): Batch {
    Batch(env.batchId, m.user, amount, amount, source, RefOf(m.sourceRef), env.now, expires, Active)
  }

  function GrantEntry(m: Mutation, amount: int, typ: string, env: Env): Entry {
    Entry(env.entryId, m.user, KindOf(typ), amount, "WALLET:" + m.user, RefOf(m.sourceRef),
          if typ == "refund" && m.opAt.Some? then Some(Operation(m.opType, m.opId, m.opAt.value)) else None)
  }

  predicate EntryRefTaken(t: Tables, e: Entry) {
    e.sourceRef.Some? && FindEntry(t.entries, e.user, e.kind, e.sourceRef.value).Some?
  }

  predicate Blank(s: string) {
    TrimSpace(s) == ""
  }

  predicate OperationBlank(e: Entry) {
    e.op.Some? && (Blank(e.op.value.typ) || Blank(e.op.value.id))
  }

  function CreditWallet(w: Wallet, amount: int, refund: bool): Wallet {
    w.(balance := w.balance + amount, earned := w.earned + amount,
       refunded := w.refunded + if refund then amount else 0)
  }

  /** Writes a grant or refund whose reference is unused. */
  function PostGrant(t: Tables, m: Mutation, amount: int, source: string, typ: string, env: Env)
    : Result<Posting, CreditError>
    requires m.user in t.wallets
  {
    var wallet := t.wallets[m.user];
    var _ :- if typ == "refund" then RefundGuard(t, m, amount) else Ok(());
    var expires :- ExpiryOf(m, source, env);
    var entry := GrantEntry(m, amount, typ, env);
    if EntryRefTaken(t, entry) || OperationBlank(entry) then Err(ConstraintViolation)
    else
      var posted := t.(batches := t.batches + [NewBatch(m, amount, source, expires, env)],
                       entries := t.entries + [entry]);
      var rebuilt :- RebuildRefund(posted, m, typ);
      Ok(Posting(rebuilt.(wallets := rebuilt.wallets[m.user := CreditWallet(wallet, amount, typ == "refund")]),
                 Receipt(env.batchId, env.entryId, wallet.balance + amount, false)))
  }

  /** Adds one batch, its ledger entry and its amount to a locked wallet. */
  function GrantCredit(t: Tables, m: Mutation, env: Env): Result<Posting, CreditError>
    requires m.user in t.wallets
  {
    var wallet := t.wallets[m.user];
    var amount :- ValidateAmount(m.amount, false);
    var (source, typ) :- GrantKind(m);
    var replay :- GrantReplay(t, m, source, typ, amount);
    if replay.Some? then Ok(Posting(t, Receipt(replay.value, "", wallet.balance, true)))
    else if wallet.frozen && typ != "refund" then Err(AccountFrozen)
    else PostGrant(t, m, amount, source, typ, env)
  }
}
