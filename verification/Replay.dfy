/**
 * Idempotency of the ledger: a request that names a source reference takes
 * effect once. Whatever runs in between, repeating it returns the first result
 * and writes nothing.
 */
module Replay {
  import opened Prelude
  import opened Ledger
  import opened Spending
  import opened Conservation

  predicate SameBatch(a: Batch, b: Batch) {
    b == a.(remaining := b.remaining, status := b.status, expires := b.expires)
  }

  // Later tables: entries only appended, batch rows kept except for credit, status and lifetime.
  ghost predicate Extends(t: Tables, later: Tables) {
    && t.entries <= later.entries
    && |t.batches| <= |later.batches|
    && (forall i :: 0 <= i < |t.batches| ==> SameBatch(t.batches[i], later.batches[i]))
  }

  lemma ExtendsTransitive(a: Tables, b: Tables, c: Tables)
    requires Extends(a, b) && Extends(b, c)
    ensures Extends(a, c)
  {
    forall i | 0 <= i < |a.batches| ensures SameBatch(a.batches[i], c.batches[i]) {
      assert SameBatch(a.batches[i], b.batches[i]) && SameBatch(b.batches[i], c.batches[i]);
    }
  }

  lemma ConsumeExtends(t: Tables, m: Mutation, env: Env)
    requires m.user in t.wallets && ConsumeCredit(t, m, env).Ok?
    ensures Extends(t, ConsumeCredit(t, m, env).value.tables)
  {
    var amount := ValidateAmount(m.amount, false).value;
    if ConsumeReplay(t, m, amount).value.None? {
      var posted, _ := PostedConsumption(t, m, amount, env);
      SpendingOrderDrainable(t.batches, m.user, env.now);
      DrainRows(t.batches, SpendingOrder(t.batches, m.user, env.now), amount, m.user);
      forall i | 0 <= i < |t.batches| ensures SameBatch(t.batches[i], posted.batches[i]) {
        assert Drawn(t.batches[i], posted.batches[i]);
      }
    }
  }

  lemma GrantExtends(t: Tables, m: Mutation, env: Env)
    requires m.user in t.wallets && GrantCredit(t, m, env).Ok?
    ensures Extends(t, GrantCredit(t, m, env).value.tables)
  {
    var amount := ValidateAmount(m.amount, false).value;
    var (source, typ) := GrantKind(m).value;
    if GrantReplay(t, m, source, typ, amount).value.None? {
      var _, posted, _ := PostedGrant(t, m, amount, source, typ, env);
    }
  }

  lemma LockExtends(t: Tables, user: string, now: int, requestId: string)
    ensures Extends(t, Lock(t, user, now, requestId))
  {
  }

  lemma RepairExtends(t: Tables, user: string, env: Env)
    requires RepairBonusExpiry(t, user, env).Ok?
    ensures Extends(t, RepairBonusExpiry(t, user, env).value)
  {
  }

  /** Every transaction only adds entries and never changes what a batch row is. */
  lemma StepExtends(t: Tables, step: Step)
    ensures Extends(t, Apply(t, step))
  {
    var user := if step.Award? || step.Spend? then step.m.user else step.user;
    var locked := Lock(t, user, step.env.now, step.env.requestId);
    LockExtends(t, user, step.env.now, step.env.requestId);
    var r := Attempt(t, step);
    if r.Ok? && !step.Sweep? {
      assert Extends(locked, r.value) by {
        match step
        case Open(_, _) =>
        case Award(m, env) => GrantExtends(locked, m, env);
        case Spend(m, env) => ConsumeExtends(locked, m, env);
        case Bonus(_, amount, env) => BonusExtends(locked, t, user, amount, env);
        case Repair(_, env) => RepairExtends(locked, user, env);
        case SetFrozen(_, _, _) =>
      }
      ExtendsTransitive(t, locked, r.value);
    }
  }

  lemma BonusExtends(locked: Tables, t: Tables, user: string, amount: real, env: Env)
    requires locked == Lock(t, user, env.now, env.requestId) && RegistrationBonus(t, user, amount, env).Ok?
    ensures Extends(locked, RegistrationBonus(t, user, amount, env).value)
  {
    if HasRegistrationBonus(locked.entries, user) {
      RepairExtends(locked, user, env);
    } else if ValidateAmount(amount, true).value != 0 {
      GrantExtends(locked, BonusMutation(user, amount), env);
    }
  }

  lemma {:induction false} RunExtends(t: Tables, steps: seq<Step>)
    ensures Extends(t, Run(t, steps))
  {
    if steps != [] {
      var prior := Run(t, steps[..|steps| - 1]);
      RunExtends(t, steps[..|steps| - 1]);
      StepExtends(prior, steps[|steps| - 1]);
      ExtendsTransitive(t, prior, Run(t, steps));
    }
  }

  lemma {:induction false} RunKeepsAgreement(t: Tables, steps: seq<Step>)
    requires Agrees(t)
    ensures Agrees(Run(t, steps))
  {
    if steps != [] {
      RunKeepsAgreement(t, steps[..|steps| - 1]);
      StepAgrees(Run(t, steps[..|steps| - 1]), steps[|steps| - 1]);
    }
  }

  lemma FindsOnlyBatch(t: Tables, i: nat)
    requires ReferencesUnique(t) && i < |t.batches| && t.batches[i].sourceRef.Some?
    ensures FindBatch(t.batches, t.batches[i].source, t.batches[i].sourceRef.value) == Some(t.batches[i])
  {
    var b := t.batches[i];
    assert b in t.batches;
    var found := FindBatch(t.batches, b.source, b.sourceRef.value);
    var j :| 0 <= j < |t.batches| && t.batches[j] == found.value;
    assert (t.batches[j].source, t.batches[j].sourceRef) == (b.source, b.sourceRef);
  }

  lemma FindsOnlyEntry(t: Tables, i: nat)
    requires ReferencesUnique(t) && i < |t.entries| && t.entries[i].sourceRef.Some?
    ensures var e := t.entries[i]; FindEntry(t.entries, e.user, e.kind, e.sourceRef.value) == Some(e)
  {
    var e := t.entries[i];
    assert e in t.entries;
    var found := FindEntry(t.entries, e.user, e.kind, e.sourceRef.value);
    var j :| 0 <= j < |t.entries| && t.entries[j] == found.value;
    assert (t.entries[j].user, t.entries[j].kind, t.entries[j].sourceRef) == (e.user, e.kind, e.sourceRef);
  }

  lemma LaterState(t: Tables, steps: seq<Step>, user: string, later: Env)
    requires Agrees(t)
    ensures var now := Lock(Run(t, steps), user, later.now, later.requestId);
      Agrees(now) && Extends(t, now)
  {
    var ran := Run(t, steps);
    RunKeepsAgreement(t, steps);
    RunExtends(t, steps);
    LockExtends(ran, user, later.now, later.requestId);
    ExtendsTransitive(t, ran, Lock(ran, user, later.now, later.requestId));
    LockAgrees(ran, user, later.now, later.requestId);
  }

  lemma AwardReplays(t: Tables, m: Mutation, env: Env, now: Tables, later: Env)
    requires m.user in t.wallets && m.user in now.wallets && m.sourceRef != ""
    requires GrantCredit(t, m, env).Ok? && !GrantCredit(t, m, env).value.receipt.replayed
    requires ReferencesUnique(now) && Extends(GrantCredit(t, m, env).value.tables, now)
    ensures GrantCredit(now, m, later)
      == Ok(Posting(now, Receipt(GrantCredit(t, m, env).value.receipt.batchId, "", now.wallets[m.user].balance, true)))
  {
    var first := GrantCredit(t, m, env).value;
    var amount := ValidateAmount(m.amount, false).value;
    var (source, typ) := GrantKind(m).value;
    var _, posted, _ := PostedGrant(t, m, amount, source, typ, env);
    assert SameBatch(first.tables.batches[|t.batches|], now.batches[|t.batches|]);
    FindsOnlyBatch(now, |t.batches|);
    if typ == "refund" {
      assert now.entries[|t.entries|] == first.tables.entries[|t.entries|] == GrantEntry(m, amount, typ, env);
      FindsOnlyEntry(now, |t.entries|);
    }
    assert GrantReplay(now, m, source, typ, amount) == Ok(Some(env.batchId));
  }

  lemma SpendReplays(t: Tables, m: Mutation, env: Env, now: Tables, later: Env)
    requires m.user in t.wallets && m.user in now.wallets && m.sourceRef != ""
    requires ConsumeCredit(t, m, env).Ok? && !ConsumeCredit(t, m, env).value.receipt.replayed
    requires ReferencesUnique(now) && Extends(ConsumeCredit(t, m, env).value.tables, now)
    ensures ConsumeCredit(now, m, later)
      == Ok(Posting(now, Receipt("", ConsumeCredit(t, m, env).value.receipt.entryId, now.wallets[m.user].balance, true)))
  {
    var first := ConsumeCredit(t, m, env).value;
    var amount := ValidateAmount(m.amount, false).value;
    var posted, _ := PostedConsumption(t, m, amount, env);
    assert now.entries[|t.entries|] == first.tables.entries[|t.entries|] == ConsumptionEntry(m, amount, env);
    FindsOnlyEntry(now, |t.entries|);
    assert ConsumeReplay(now, m, amount) == Ok(Some(env.entryId));
  }

  /**
   * A grant or refund with a source reference happens once: after any later run
   * the same request returns the first batch and changes nothing.
   */
  lemma AwardHappensOnce(t: Tables, m: Mutation, env: Env, steps: seq<Step>, later: Env)
    requires Agrees(t) && m.user in t.wallets && m.sourceRef != ""
    requires GrantCredit(t, m, env).Ok? && !GrantCredit(t, m, env).value.receipt.replayed
    ensures var first := GrantCredit(t, m, env).value;
      var now := Lock(Run(first.tables, steps), m.user, later.now, later.requestId);
      GrantCredit(now, m, later)
      == Ok(Posting(now, Receipt(first.receipt.batchId, "", now.wallets[m.user].balance, true)))
  {
    var first := GrantCredit(t, m, env).value;
    GrantAgrees(t, m, env);
    LaterState(first.tables, steps, m.user, later);
    AwardReplays(t, m, env, Lock(Run(first.tables, steps), m.user, later.now, later.requestId), later);
  }

  /**
   * A consumption with a source reference happens once: after any later run the
   * same request returns the first entry and changes nothing.
   */
  lemma SpendHappensOnce(t: Tables, m: Mutation, env: Env, steps: seq<Step>, later: Env)
    requires Agrees(t) && m.user in t.wallets && m.sourceRef != ""
    requires ConsumeCredit(t, m, env).Ok? && !ConsumeCredit(t, m, env).value.receipt.replayed
    ensures var first := ConsumeCredit(t, m, env).value;
      var now := Lock(Run(first.tables, steps), m.user, later.now, later.requestId);
      ConsumeCredit(now, m, later)
      == Ok(Posting(now, Receipt("", first.receipt.entryId, now.wallets[m.user].balance, true)))
  {
    var first := ConsumeCredit(t, m, env).value;
    ConsumeAgrees(t, m, env);
    LaterState(first.tables, steps, m.user, later);
    SpendReplays(t, m, env, Lock(Run(first.tables, steps), m.user, later.now, later.requestId), later);
  }

  /** A used reference with another user, amount or operation is refused and changes nothing. */
  lemma ReusedReferenceConflicts(t: Tables, m: Mutation, env: Env, i: nat)
    requires Agrees(t) && m.user in t.wallets && i < |t.batches|
    requires ValidateAmount(m.amount, false).Ok? && GrantKind(m).Ok?
    requires t.batches[i].source == GrantKind(m).value.0 && t.batches[i].sourceRef == Some(m.sourceRef) && m.sourceRef != ""
    requires t.batches[i].user != m.user || t.batches[i].amount != ValidateAmount(m.amount, false).value
    ensures Apply(t, Award(m, env)) == t
    ensures GrantCredit(t, m, env) == Err(IdempotencyConflict)
  {
    FindsOnlyBatch(t, i);
    var locked := Lock(t, m.user, env.now, env.requestId);
    LockAgrees(t, m.user, env.now, env.requestId);
    StepExtends(t, Open(m.user, env));
    assert SameBatch(t.batches[i], locked.batches[i]);
    FindsOnlyBatch(locked, i);
  }
}
