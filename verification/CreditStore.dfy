/**
 * The ledger transactions as the service runs them: statement by statement over
 * the four tables, inside a transaction that restores them on an error.
 */
module CreditStore {
  import opened Prelude
  import opened Ledger
  import opened Spending
  import opened Conservation

  class Store {
    var wallets: map<string, Wallet>
    var batches: seq<Batch>
    var entries: seq<Entry>
    var operations: map<OperationKey, Projection>

    ghost function View(): Tables
      reads this
    {
      Tables(wallets, batches, entries, operations)
    }

    constructor ()
      ensures View() == EMPTY_TABLES
    {
      wallets, batches, entries, operations := map[], [], [], map[];
    }

    /** Expires the user's due batches; returns the ledger rows it added. */
    method ExpireCredits(user: string, now: int, requestId: string) returns (lapsed: seq<Entry>)
      modifies this
      ensures View() == Expire(old(View()), user, now, requestId)
      ensures entries == old(entries) + lapsed
      ensures BatchesSound(old(batches)) ==> Total(lapsed, Expired(user)) == Held(old(batches), DueOf(user, now))
    {
      ghost var before := batches;
      lapsed := ExpirationEntries(batches, user, now, requestId);
      batches := LapseAll(batches, user, now);
      entries := entries + lapsed;
      if user in wallets && lapsed != [] {
        var w := wallets[user];
        wallets := wallets[user := w.(balance := Max(0, w.balance - Total(lapsed, Expired(user))))];
      }
      if BatchesSound(before) {
        ExpirationTotals(before, user, now, requestId);
      }
    }

    /** Opens the wallet if needed, expires what is due and returns the wallet row. */
    method LockWallet(user: string, now: int, requestId: string) returns (wallet: Wallet)
      modifies this
      ensures View() == Lock(old(View()), user, now, requestId)
      ensures user in wallets && wallet == wallets[user]
      ensures old(Agrees(View())) ==> Agrees(View()) && NothingDue(View(), user, now)
    {
      ghost var before := View();
      if user !in wallets {
        wallets := wallets[user := EMPTY_WALLET];
      }
      var _ := ExpireCredits(user, now, requestId);
      wallet := wallets[user];
      if Agrees(before) {
        LockAgrees(before, user, now, requestId);
      }
    }

    /** Folds the ledger rows of one operation into its projection row. */
    method RebuildOperation(key: OperationKey, at: int) returns (r: Result<(), CreditError>)
      modifies this`operations
      ensures r.Ok? == Rebuild(old(View()), key, at).Ok?
      ensures r.Ok? ==> View() == Rebuild(old(View()), key, at).value
      ensures r.Err? ==> View() == old(View()) && r.error == Rebuild(old(View()), key, at).error
    {
      var gross, refunded := Total(entries, Gross(key)), Total(entries, Returned(key));
      if !OperationTimesAre(entries, key, at) || refunded > gross {
        return Err(IdempotencyConflict);
      }
      operations := operations[key := Projection(at, gross, refunded, gross - refunded)];
      return Ok(());
    }

    /**
     * Draws the amount from the listed rows one by one. Returns what the rows
     * did not cover.
     */
    method DrainBatches(order: seq<nat>, amount: int) returns (remaining: int)
      requires forall k :: 0 <= k < |order| ==> order[k] < |batches|
      modifies this`batches
      ensures (batches, remaining) == Drain(old(batches), order, amount)
    {
      remaining := amount;
      var k := 0;
      while k < |order|
        invariant 0 <= k <= |order| && |batches| == |old(batches)|
        invariant Drain(batches, order[k..], remaining) == Drain(old(batches), order, amount)
      {
        var row := batches[order[k]];
        var take := Min(remaining, row.remaining);
        if take <= 0 {
          return;
        }
        assert order[k..][1..] == order[k + 1..];
        batches := batches[order[k] := TakeFrom(row, take)];
        remaining := remaining - take;
        k := k + 1;
      }
    }

    /**
     * Consumes from a locked wallet. An error after the first write leaves the
     * tables to the transaction's rollback.
     */
    method ConsumeCreditTx(wallet: Wallet, m: Mutation, env: Env) returns (r: Result<Receipt, CreditError>)
      requires m.user in wallets && wallet == wallets[m.user]
      modifies this
      ensures match ConsumeCredit(old(View()), m, env)
        case Ok(posting) => r == Ok(posting.receipt) && View() == posting.tables
        case Err(error) => r == Err(error)
    {
      ghost var t := View();
      var amount :- ValidateAmount(m.amount, false);
      if Blank(ServiceOf(m)) {
        return Err(InvalidInput);
      }
      if m.sourceRef != "" {
        var previous := FindEntry(entries, m.user, Consumption, m.sourceRef);
        if previous.Some? {
          var e := previous.value;
          if e.amount != amount || e.account != "SERVICE:" + ServiceOf(m)
             || (m.opType != "" && (e.op.None? || e.op.value.typ != m.opType))
             || (m.opId != "" && (e.op.None? || e.op.value.id != m.opId))
             || (m.opAt.Some? && (e.op.None? || e.op.value.at != m.opAt.value)) {
            return Err(IdempotencyConflict);
          }
          return Ok(Receipt("", e.id, wallet.balance, true));
        }
      }
      assert ConsumeReplay(t, m, amount) == Ok(None);
      if wallet.frozen {
        return Err(AccountFrozen);
      }
      if wallet.balance < amount {
        return Err(InsufficientCredits);
      }
      assert ConsumeCredit(t, m, env) == PostConsumption(t, m, amount, env);
      var order := SpendingOrder(batches, m.user, env.now);
      var remaining := DrainBatches(order, amount);
      if remaining > 0 {
        return Err(InsufficientBatches);
      }
      var op := ConsumedOperation(m, env);
      var entry := ConsumptionEntry(m, amount, env);
      if OperationBlank(entry) {
        return Err(ConstraintViolation);
      }
      entries := entries + [entry];
      var _ :- RebuildOperation(OperationKey(m.user, op.typ, op.id), op.at);
      wallets := wallets[m.user := DebitWallet(wallets[m.user], amount)];
      return Ok(Receipt("", env.entryId, wallet.balance - amount, false));
    }

    /** Grants to, or refunds into, a locked wallet. */
    method GrantCreditTx(wallet: Wallet, m: Mutation, env: Env) returns (r: Result<Receipt, CreditError>)
      requires m.user in wallets && wallet == wallets[m.user]
      modifies this
      ensures match GrantCredit(old(View()), m, env)
        case Ok(posting) => r == Ok(posting.receipt) && View() == posting.tables
        case Err(error) => r == Err(error)
    {
      ghost var t := View();
      var amount :- ValidateAmount(m.amount, false);
      var kind :- GrantKind(m);
      var (source, typ) := kind;
      if m.sourceRef != "" {
        var previous := FindBatch(batches, source, m.sourceRef);
        if previous.Some? {
          var b := previous.value;
          if b.user != m.user || b.amount != amount {
            return Err(IdempotencyConflict);
          }
          if typ == "refund" {
            var entry := FindEntry(entries, m.user, Refund, m.sourceRef);
            if entry.None? || entry.value.op.None? || m.opAt.None?
               || entry.value.op.value != Operation(m.opType, m.opId, m.opAt.value) {
              return Err(IdempotencyConflict);
            }
          }
          return Ok(Receipt(b.id, "", wallet.balance, true));
        }
      }
      assert GrantReplay(t, m, source, typ, amount) == Ok(None);
      if wallet.frozen && typ != "refund" {
        return Err(AccountFrozen);
      }
      assert GrantCredit(t, m, env) == PostGrant(t, m, amount, source, typ, env);
      if typ == "refund" {
        var _ :- RefundGuard(Tables(wallets, batches, entries, operations), m, amount);
      }
      var expires :- ExpiryOf(m, source, env);
      var entry := GrantEntry(m, amount, typ, env);
      if entry.sourceRef.Some? && FindEntry(entries, entry.user, entry.kind, entry.sourceRef.value).Some? {
        return Err(ConstraintViolation);
      }
      if OperationBlank(entry) {
        return Err(ConstraintViolation);
      }
      batches := batches + [NewBatch(m, amount, source, expires, env)];
      entries := entries + [entry];
      if typ == "refund" {
        var _ :- RebuildOperation(KeyOf(m), m.opAt.value);
      }
      wallets := wallets[m.user := CreditWallet(wallets[m.user], amount, typ == "refund")];
      return Ok(Receipt(env.batchId, env.entryId, wallet.balance + amount, false));
    }

    /** Shortens over-long registration bonuses, then expires what became due. */
    method RepairBonusExpiryTx(user: string, env: Env) returns (r: Result<(), CreditError>)
      modifies this
      ensures r.Ok? == RepairBonusExpiry(old(View()), user, env).Ok?
      ensures r.Ok? ==> View() == RepairBonusExpiry(old(View()), user, env).value
      ensures r.Err? ==> View() == old(View()) && r.error == RepairBonusExpiry(old(View()), user, env).error
    {
      if env.freeExpiryDays < SHORTEST_FREE_DAYS || env.freeExpiryDays > LONGEST_FREE_DAYS {
        return Err(InvalidInput);
      }
      batches := ShortenAll(batches, user, env.freeExpiryDays);
      var _ := ExpireCredits(user, env.now, env.requestId);
      return Ok(());
    }

    /**
     * One grant, refund or consumption request as a transaction: lock the wallet,
     * run the operation, and put every table back if it fails.
     */
    method Transact(m: Mutation, env: Env, consume: bool) returns (r: Result<Receipt, CreditError>)
      modifies this
      ensures View() == Apply(old(View()), if consume then Spend(m, env) else Award(m, env))
      ensures r.Err? ==> View() == old(View())
      ensures old(Agrees(View())) ==> Agrees(View()) && r != Err(InsufficientBatches)
    {
      var saved := Tables(wallets, batches, entries, operations);
      ghost var step := if consume then Spend(m, env) else Award(m, env);
      var wallet := LockWallet(m.user, env.now, env.requestId);
      ghost var locked := View();
      if consume {
        r := ConsumeCreditTx(wallet, m, env);
      } else {
        r := GrantCreditTx(wallet, m, env);
      }
      if r.Err? {
        wallets, batches, entries, operations := saved.wallets, saved.batches, saved.entries, saved.operations;
      }
      if Agrees(saved) {
        StepAgrees(saved, step);
        if consume {
          BatchesAlwaysSuffice(locked, m, env);
        } else {
          GrantNeverDrains(locked, m, env);
        }
      }
    }
  }

  lemma GrantNeverDrains(t: Tables, m: Mutation, env: Env)
    requires m.user in t.wallets
    ensures GrantCredit(t, m, env) != Err(InsufficientBatches)
  {
  }
}
