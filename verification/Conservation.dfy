/**
 * Wallet conservation: after any run of ledger transactions the wallets, the
 * batches, the entries and the operation projection tell the same story.
 */
module Conservation {
  import opened Prelude
  import opened Ledger
  import opened Spending

  // ------------------------------------------------------------ invariants

  function WalletOf(t: Tables, user: string): Wallet {
    if user in t.wallets then t.wallets[user] else EMPTY_WALLET
  }

  /** One user's wallet agrees with the user's batches and with the user's entries. */
  ghost predicate WalletAgrees(t: Tables, user: string) {
    var w := WalletOf(t, user);
    && w.balance == Held(t.batches, ActiveOf(user))
    && w.earned == Total(t.entries, Earned(user))
    && w.spent == Total(t.entries, Spent(user))
    && w.refunded == Total(t.entries, Refunded(user))
    && w.balance == w.earned - w.spent - Total(t.entries, Expired(user))
  }

  predicate BatchSound(b: Batch) {
    && 0 <= b.remaining <= b.amount
    && (b.status == Active ==> 0 < b.remaining)
    && (b.status == Consumed ==> b.remaining == 0)
  }

  ghost predicate BatchesSound(batches: seq<Batch>) {
    forall i :: 0 <= i < |batches| ==> BatchSound(batches[i])
  }

  predicate HasOperation(entries: seq<Entry>, key: OperationKey) {
    exists i :: 0 <= i < |entries| && OfOperation(entries[i], key)
  }

  /** A projection row exists exactly for the operations of the ledger and holds their sums. */
  ghost predicate ProjectionAgrees(t: Tables, key: OperationKey) {
    && (key in t.operations <==> HasOperation(t.entries, key))
    && (key in t.operations ==>
          var gross, refunded := Total(t.entries, Gross(key)), Total(t.entries, Returned(key));
          && t.operations[key] == Projection(t.operations[key].at, gross, refunded, gross - refunded)
          && OperationTimesAre(t.entries, key, t.operations[key].at)
          && 0 <= refunded <= gross)
  }

  /** No source reference is granted twice and none is entered twice under one kind. */
  ghost predicate ReferencesUnique(t: Tables) {
    && (forall i, j :: 0 <= i < j < |t.batches| && t.batches[i].sourceRef.Some? ==>
          (t.batches[i].source, t.batches[i].sourceRef) != (t.batches[j].source, t.batches[j].sourceRef))
    && (forall i, j :: 0 <= i < j < |t.entries| && t.entries[i].sourceRef.Some? ==>
          (t.entries[i].user, t.entries[i].kind, t.entries[i].sourceRef)
          != (t.entries[j].user, t.entries[j].kind, t.entries[j].sourceRef))
  }

  ghost predicate AmountsPositive(entries: seq<Entry>) {
    forall i :: 0 <= i < |entries| ==> entries[i].amount > 0
  }

  ghost predicate Agrees(t: Tables) {
    && (forall user :: WalletAgrees(t, user))
    && (forall key :: ProjectionAgrees(t, key))
    && BatchesSound(t.batches)
    && ReferencesUnique(t)
    && AmountsPositive(t.entries)
  }

  ghost predicate NothingDue(t: Tables, user: string, now: int) {
    forall i :: 0 <= i < |t.batches| ==> !Due(t.batches[i], user, now)
  }

  // ------------------------------------------------------------------ sums

  lemma {:induction false} TotalConcat(a: seq<Entry>, b: seq<Entry>, account: Account)
    ensures Total(a + b, account) == Total(a, account) + Total(b, account)
  {
    if b == [] {
      assert a + b == a;
    } else {
      TotalConcat(a, b[..|b| - 1], account);
      assert (a + b)[..|a + b| - 1] == a + b[..|b| - 1];
    }
  }

  lemma TotalAppend(entries: seq<Entry>, e: Entry, account: Account)
    ensures Total(entries + [e], account) == Total(entries, account) + CountedIn(e, account)
  {
    assert (entries + [e])[..|entries|] == entries;
  }

  lemma {:induction false} TotalOfNone(entries: seq<Entry>, account: Account)
    requires forall i :: 0 <= i < |entries| ==> !Counts(entries[i], account)
    ensures Total(entries, account) == 0
  {
    if entries != [] {
      TotalOfNone(entries[..|entries| - 1], account);
    }
  }

  lemma {:induction false} TotalNonNegative(entries: seq<Entry>, account: Account)
    requires AmountsPositive(entries)
    ensures 0 <= Total(entries, account)
  {
    if entries != [] {
      TotalNonNegative(entries[..|entries| - 1], account);
    }
  }

  lemma {:induction false} HeldBounds(batches: seq<Batch>, user: string, now: int)
    requires BatchesSound(batches)
    ensures 0 <= Held(batches, DueOf(user, now)) <= Held(batches, ActiveOf(user))
  {
    if batches != [] {
      HeldBounds(batches[..|batches| - 1], user, now);
    }
  }

  lemma HeldAppend(batches: seq<Batch>, b: Batch, h: Holding)
    ensures Held(batches + [b], h) == Held(batches, h) + HeldIn(b, h)
  {
    assert (batches + [b])[..|batches|] == batches;
  }

  // ------------------------------------------------------------ expiration

  lemma {:induction false} ExpirationTotals(batches: seq<Batch>, user: string, now: int, requestId: string)
    requires BatchesSound(batches)
    ensures var lapsed := ExpirationEntries(batches, user, now, requestId);
      && Total(lapsed, Expired(user)) == Held(batches, DueOf(user, now))
      && (forall i :: 0 <= i < |lapsed| ==>
            lapsed[i].kind == Expiration && lapsed[i].user == user && lapsed[i].amount > 0
            && lapsed[i].sourceRef == None && lapsed[i].op == None)
      && (lapsed == [] ==> Held(batches, DueOf(user, now)) == 0)
  {
    if batches != [] {
      var n := |batches| - 1;
      ExpirationTotals(batches[..n], user, now, requestId);
      var prior := ExpirationEntries(batches[..n], user, now, requestId);
      if Due(batches[n], user, now) {
        TotalAppend(prior, ExpirationEntry(batches[n], requestId), Expired(user));
      } else {
        assert prior + [] == prior;
      }
    }
  }

  lemma {:induction false} LapseMovesDue(batches: seq<Batch>, user: string, now: int, other: string)
    ensures Held(LapseAll(batches, user, now), ActiveOf(other)) ==
            Held(batches, ActiveOf(other)) - if other == user then Held(batches, DueOf(user, now)) else 0
  {
    if batches != [] {
      var n := |batches| - 1;
      LapseMovesDue(batches[..n], user, now, other);
      assert LapseAll(batches, user, now)[..n] == LapseAll(batches[..n], user, now);
    }
  }

  lemma ExpirationKeepsOperation(entries: seq<Entry>, lapsed: seq<Entry>, key: OperationKey, at: int)
    requires forall i :: 0 <= i < |lapsed| ==> lapsed[i].kind == Expiration
    ensures Total(entries + lapsed, Gross(key)) == Total(entries, Gross(key))
    ensures Total(entries + lapsed, Returned(key)) == Total(entries, Returned(key))
    ensures HasOperation(entries + lapsed, key) == HasOperation(entries, key)
    ensures OperationTimesAre(entries + lapsed, key, at) == OperationTimesAre(entries, key, at)
  {
    TotalConcat(entries, lapsed, Gross(key));
    TotalConcat(entries, lapsed, Returned(key));
    TotalOfNone(lapsed, Gross(key));
    TotalOfNone(lapsed, Returned(key));
    var all := entries + lapsed;
    assert forall i :: 0 <= i < |entries| ==> all[i] == entries[i];
    assert forall i :: |entries| <= i < |all| ==> !OfOperation(all[i], key);
  }

  /** The floor at zero in the expiry statement never changes a balance. */
  lemma ExpiryClampIdle(t: Tables, user: string, now: int, requestId: string)
    requires Agrees(t)
    ensures 0 <= WalletOf(t, user).balance - Total(ExpirationEntries(t.batches, user, now, requestId), Expired(user))
  {
    assert WalletAgrees(t, user);
    ExpirationTotals(t.batches, user, now, requestId);
    HeldBounds(t.batches, user, now);
  }

  lemma ExpirationTotalsOf(t: Tables, user: string, now: int, requestId: string, other: string)
    requires Agrees(t)
    ensures var entries := Expire(t, user, now, requestId).entries;
      && Total(entries, Earned(other)) == Total(t.entries, Earned(other))
      && Total(entries, Spent(other)) == Total(t.entries, Spent(other))
      && Total(entries, Refunded(other)) == Total(t.entries, Refunded(other))
      && Total(entries, Expired(other)) == Total(t.entries, Expired(other))
           + if other == user then Held(t.batches, DueOf(user, now)) else 0
  {
    var lapsed := ExpirationEntries(t.batches, user, now, requestId);
    ExpirationTotals(t.batches, user, now, requestId);
    TotalConcat(t.entries, lapsed, Earned(other));
    TotalConcat(t.entries, lapsed, Spent(other));
    TotalConcat(t.entries, lapsed, Refunded(other));
    TotalConcat(t.entries, lapsed, Expired(other));
    TotalOfNone(lapsed, Earned(other));
    TotalOfNone(lapsed, Spent(other));
    TotalOfNone(lapsed, Refunded(other));
    if other != user {
      TotalOfNone(lapsed, Expired(other));
    }
  }

  lemma ExpireBalance(t: Tables, user: string, now: int, requestId: string, other: string)
    requires Agrees(t)
    ensures WalletOf(Expire(t, user, now, requestId), other) ==
            var w := WalletOf(t, other);
            w.(balance := w.balance - if other == user then Held(t.batches, DueOf(user, now)) else 0)
  {
    var lapsed := ExpirationEntries(t.batches, user, now, requestId);
    assert WalletAgrees(t, user);
    ExpiryClampIdle(t, user, now, requestId);
    ExpirationTotals(t.batches, user, now, requestId);
    HeldBounds(t.batches, user, now);
    if user !in t.wallets && lapsed != [] {
      TotalPositive(lapsed, Expired(user));
    }
  }

  lemma ExpireWallets(t: Tables, user: string, now: int, requestId: string, other: string)
    requires Agrees(t)
    ensures WalletAgrees(Expire(t, user, now, requestId), other)
  {
    assert WalletAgrees(t, other);
    ExpireBalance(t, user, now, requestId, other);
    ExpirationTotalsOf(t, user, now, requestId, other);
    LapseMovesDue(t.batches, user, now, other);
  }

  lemma {:induction false} TotalPositive(entries: seq<Entry>, account: Account)
    requires AmountsPositive(entries)
    requires exists i :: 0 <= i < |entries| && Counts(entries[i], account)
    ensures Total(entries, account) > 0
  {
    var n := |entries| - 1;
    TotalNonNegative(entries[..n], account);
    if !Counts(entries[n], account) {
      var i :| 0 <= i < |entries| && Counts(entries[i], account);
      assert entries[..n][i] == entries[i];
      TotalPositive(entries[..n], account);
    }
  }

  lemma ExpireProjections(t: Tables, user: string, now: int, requestId: string)
    requires Agrees(t)
    ensures forall key :: ProjectionAgrees(Expire(t, user, now, requestId), key)
  {
    var lapsed := ExpirationEntries(t.batches, user, now, requestId);
    ExpirationTotals(t.batches, user, now, requestId);
    forall key ensures ProjectionAgrees(Expire(t, user, now, requestId), key) {
      assert ProjectionAgrees(t, key);
      ExpirationKeepsOperation(t.entries, lapsed, key, if key in t.operations then t.operations[key].at else 0);
    }
  }

  lemma ExpireBatches(t: Tables, user: string, now: int, requestId: string)
    requires Agrees(t)
    ensures BatchesSound(Expire(t, user, now, requestId).batches)
    ensures NothingDue(Expire(t, user, now, requestId), user, now)
  {
    var r := Expire(t, user, now, requestId);
    forall i | 0 <= i < |r.batches| ensures BatchSound(r.batches[i]) && !Due(r.batches[i], user, now) {
      assert BatchSound(t.batches[i]);
    }
  }

  /** Expiring a user's batches keeps the whole ledger in agreement and leaves nothing due. */
  lemma ExpireAgrees(t: Tables, user: string, now: int, requestId: string)
    requires Agrees(t)
    ensures Agrees(Expire(t, user, now, requestId))
    ensures NothingDue(Expire(t, user, now, requestId), user, now)
  {
    ExpireEveryWallet(t, user, now, requestId);
    ExpireProjections(t, user, now, requestId);
    ExpireBatches(t, user, now, requestId);
    ExpireReferences(t, user, now, requestId);
  }

  lemma ExpireEveryWallet(t: Tables, user: string, now: int, requestId: string)
    requires Agrees(t)
    ensures forall other :: WalletAgrees(Expire(t, user, now, requestId), other)
  {
    forall other ensures WalletAgrees(Expire(t, user, now, requestId), other) {
      ExpireWallets(t, user, now, requestId, other);
    }
  }

  lemma ExpireReferences(t: Tables, user: string, now: int, requestId: string)
    requires Agrees(t)
    ensures ReferencesUnique(Expire(t, user, now, requestId)) && AmountsPositive(Expire(t, user, now, requestId).entries)
  {
    ExpirationTotals(t.batches, user, now, requestId);
  }

  lemma LockAgrees(t: Tables, user: string, now: int, requestId: string)
    requires Agrees(t)
    ensures Agrees(Lock(t, user, now, requestId))
    ensures NothingDue(Lock(t, user, now, requestId), user, now)
  {
    var wallets := if user in t.wallets then t.wallets else t.wallets[user := EMPTY_WALLET];
    var ready := t.(wallets := wallets);
    forall other ensures WalletAgrees(ready, other) {
      assert WalletAgrees(t, other);
    }
    forall key ensures ProjectionAgrees(ready, key) {
      assert ProjectionAgrees(t, key);
    }
    ExpireAgrees(ready, user, now, requestId);
  }

  // ------------------------------------------------------- posting an entry

  lemma AppendKeepsOperation(entries: seq<Entry>, e: Entry, key: OperationKey, at: int)
    requires !OfOperation(e, key)
    ensures Total(entries + [e], Gross(key)) == Total(entries, Gross(key))
    ensures Total(entries + [e], Returned(key)) == Total(entries, Returned(key))
    ensures HasOperation(entries + [e], key) == HasOperation(entries, key)
    ensures OperationTimesAre(entries + [e], key, at) == OperationTimesAre(entries, key, at)
  {
    TotalAppend(entries, e, Gross(key));
    TotalAppend(entries, e, Returned(key));
    var all := entries + [e];
    assert forall i :: 0 <= i < |entries| ==> all[i] == entries[i];
  }

  lemma AppendJoinsOperation(entries: seq<Entry>, e: Entry, key: OperationKey, at: int)
    requires OfOperation(e, key)
    ensures HasOperation(entries + [e], key)
    ensures OperationTimesAre(entries + [e], key, at) <==>
            e.op.value.at == at && (HasOperation(entries, key) ==> OperationTimesAre(entries, key, at))
  {
    var all := entries + [e];
    assert all[|entries|] == e;
    assert forall i :: 0 <= i < |entries| ==> all[i] == entries[i];
  }

  /** Adding an entry and rebuilding its operation keeps every projection row right. */
  lemma PostKeepsProjections(t: Tables, posted: Tables, e: Entry, at: int)
    requires Agrees(t) && e.amount > 0
    requires posted.entries == t.entries + [e] && posted.operations == t.operations
    requires e.op.Some? && (e.kind.Consumption? || e.kind.Refund?)
    requires Rebuild(posted, OperationKey(e.user, e.op.value.typ, e.op.value.id), at).Ok?
    ensures forall key ::
      ProjectionAgrees(Rebuild(posted, OperationKey(e.user, e.op.value.typ, e.op.value.id), at).value, key)
  {
    var own := OperationKey(e.user, e.op.value.typ, e.op.value.id);
    var r := Rebuild(posted, own, at).value;
    forall key ensures ProjectionAgrees(r, key) {
      assert ProjectionAgrees(t, key);
      if key == own {
        AppendJoinsOperation(t.entries, e, key, at);
        TotalNonNegative(posted.entries, Returned(key));
      } else {
        AppendKeepsOperation(t.entries, e, key, if key in t.operations then t.operations[key].at else 0);
      }
    }
  }

  // ----------------------------------------------------------- consumption

  /** After the expiry step a covered amount is always found in the batches. */
  lemma BatchesAlwaysSuffice(t: Tables, m: Mutation, env: Env)
    requires Agrees(t) && m.user in t.wallets && NothingDue(t, m.user, env.now)
    ensures ConsumeCredit(t, m, env) != Err(InsufficientBatches)
  {
    var amount := ValidateAmount(m.amount, false);
    if amount.Ok? && amount.value <= t.wallets[m.user].balance {
      assert WalletAgrees(t, m.user);
      assert forall i :: 0 <= i < |t.batches| ==> BatchSound(t.batches[i]);
      DrainSuffices(t.batches, m.user, env.now, amount.value);
    }
  }

  lemma DrainKeepsBatches(batches: seq<Batch>, user: string, now: int, amount: int)
    requires BatchesSound(batches) && 0 <= amount
    requires Drain(batches, SpendingOrder(batches, user, now), amount).1 <= 0
    ensures var after := Drain(batches, SpendingOrder(batches, user, now), amount).0;
      && |after| == |batches| && BatchesSound(after)
      && (forall i :: 0 <= i < |batches| ==>
            after[i] == batches[i].(remaining := after[i].remaining, status := after[i].status))
      && (forall other :: Held(after, ActiveOf(other)) ==
            Held(batches, ActiveOf(other)) - if other == user then amount else 0)
  {
    var order := SpendingOrder(batches, user, now);
    SpendingOrderDrainable(batches, user, now);
    DrainRows(batches, order, amount, user);
    DrainUsesUp(batches, order, amount, user);
    DrainTakesExactly(batches, order, amount, user);
    var after := Drain(batches, order, amount).0;
    forall other ensures Held(after, ActiveOf(other)) == Held(batches, ActiveOf(other)) - if other == user then amount else 0 {
      if other != user {
        DrainSparesOthers(batches, order, amount, user, other);
      }
    }
    forall i | 0 <= i < |after| ensures BatchSound(after[i]) {
      assert BatchSound(batches[i]) && Drawn(batches[i], after[i]);
    }
  }

  lemma PostedWalletAgrees(t: Tables, r: Tables, e: Entry, w: Wallet, other: string)
    requires Agrees(t) && e.user in t.wallets
    requires r.wallets == t.wallets[e.user := w] && r.entries == t.entries + [e]
    requires || (e.kind == Consumption && w == DebitWallet(t.wallets[e.user], e.amount))
             || (e.kind == Refund && w == CreditWallet(t.wallets[e.user], e.amount, true))
             || (e.kind.Grant? && w == CreditWallet(t.wallets[e.user], e.amount, false))
    requires Held(r.batches, ActiveOf(other)) == Held(t.batches, ActiveOf(other)) +
             if other != e.user then 0 else if e.kind.Consumption? then -e.amount else e.amount
    ensures WalletAgrees(r, other)
  {
    assert WalletAgrees(t, other);
    TotalAppend(t.entries, e, Earned(other));
    TotalAppend(t.entries, e, Spent(other));
    TotalAppend(t.entries, e, Refunded(other));
    TotalAppend(t.entries, e, Expired(other));
  }

  lemma ReferencesExtend(t: Tables, batches: seq<Batch>, e: Entry)
    requires ReferencesUnique(t) && !EntryRefTaken(t, e)
    requires |batches| == |t.batches|
    requires forall i :: 0 <= i < |batches| ==>
      batches[i].source == t.batches[i].source && batches[i].sourceRef == t.batches[i].sourceRef
    ensures ReferencesUnique(t.(batches := batches, entries := t.entries + [e]))
  {
    forall i | 0 <= i < |t.entries| && t.entries[i].sourceRef.Some?
      ensures (t.entries[i].user, t.entries[i].kind, t.entries[i].sourceRef) != (e.user, e.kind, e.sourceRef)
    {
      assert t.entries[i] in t.entries;
    }
  }

  lemma PostedConsumption(t: Tables, m: Mutation, amount: int, env: Env) returns (posted: Tables, rebuilt: Tables)
    requires m.user in t.wallets && PostConsumption(t, m, amount, env).Ok?
    ensures Drain(t.batches, SpendingOrder(t.batches, m.user, env.now), amount).1 <= 0
    ensures posted == t.(batches := Drain(t.batches, SpendingOrder(t.batches, m.user, env.now), amount).0,
                         entries := t.entries + [ConsumptionEntry(m, amount, env)])
    ensures var op := ConsumedOperation(m, env); Rebuild(posted, OperationKey(m.user, op.typ, op.id), op.at) == Ok(rebuilt)
    ensures PostConsumption(t, m, amount, env).value.tables ==
            rebuilt.(wallets := t.wallets[m.user := DebitWallet(t.wallets[m.user], amount)])
  {
    posted := t.(batches := Drain(t.batches, SpendingOrder(t.batches, m.user, env.now), amount).0,
                 entries := t.entries + [ConsumptionEntry(m, amount, env)]);
    var op := ConsumedOperation(m, env);
    rebuilt := Rebuild(posted, OperationKey(m.user, op.typ, op.id), op.at).value;
  }

  lemma ConsumptionAgrees(t: Tables, m: Mutation, amount: int, env: Env)
    requires Agrees(t) && m.user in t.wallets && amount > 0 && PostConsumption(t, m, amount, env).Ok?
    requires ConsumeReplay(t, m, amount) == Ok(None)
    ensures Agrees(PostConsumption(t, m, amount, env).value.tables)
  {
    var posted, rebuilt := PostedConsumption(t, m, amount, env);
    var r := PostConsumption(t, m, amount, env).value.tables;
    var e := ConsumptionEntry(m, amount, env);
    DrainKeepsBatches(t.batches, m.user, env.now, amount);
    PostKeepsProjections(t, posted, e, e.op.value.at);
    forall other ensures WalletAgrees(r, other) {
      PostedWalletAgrees(t, r, e, r.wallets[m.user], other);
    }
    forall key ensures ProjectionAgrees(r, key) {
      assert ProjectionAgrees(rebuilt, key);
    }
    ReferencesExtend(t, posted.batches, e);
  }

  /** A consumption keeps the whole ledger in agreement. */
  lemma ConsumeAgrees(t: Tables, m: Mutation, env: Env)
    requires Agrees(t) && m.user in t.wallets && ConsumeCredit(t, m, env).Ok?
    ensures Agrees(ConsumeCredit(t, m, env).value.tables)
  {
    var amount := ValidateAmount(m.amount, false).value;
    if ConsumeReplay(t, m, amount).value.None? {
      ConsumptionAgrees(t, m, amount, env);
    }
  }

  // ----------------------------------------------------------------- grant

  lemma PostedGrant(t: Tables, m: Mutation, amount: int, source: string, typ: string, env: Env)
      returns (expires: Option<int>, posted: Tables, rebuilt: Tables)
    requires m.user in t.wallets && PostGrant(t, m, amount, source, typ, env).Ok?
    ensures posted == t.(batches := t.batches + [NewBatch(m, amount, source, expires, env)],
                         entries := t.entries + [GrantEntry(m, amount, typ, env)])
    ensures typ == "refund" ==> RefundGuard(t, m, amount).Ok?
    ensures RebuildRefund(posted, m, typ) == Ok(rebuilt)
    ensures !EntryRefTaken(t, GrantEntry(m, amount, typ, env))
    ensures PostGrant(t, m, amount, source, typ, env).value.tables ==
            rebuilt.(wallets := t.wallets[m.user := CreditWallet(t.wallets[m.user], amount, typ == "refund")])
  {
    expires := ExpiryOf(m, source, env).value;
    posted := t.(batches := t.batches + [NewBatch(m, amount, source, expires, env)],
                 entries := t.entries + [GrantEntry(m, amount, typ, env)]);
    rebuilt := RebuildRefund(posted, m, typ).value;
  }

  lemma GrantedWallets(t: Tables, r: Tables, m: Mutation, b: Batch, e: Entry, w: Wallet)
    requires Agrees(t) && m.user in t.wallets && e.user == m.user && (e.kind == Refund || e.kind.Grant?)
    requires w == CreditWallet(t.wallets[m.user], e.amount, e.kind == Refund)
    requires b.user == m.user && b.status == Active && b.remaining == e.amount
    requires r.wallets == t.wallets[m.user := w] && r.entries == t.entries + [e] && r.batches == t.batches + [b]
    ensures forall other :: WalletAgrees(r, other)
  {
    forall other ensures WalletAgrees(r, other) {
      HeldAppend(t.batches, b, ActiveOf(other));
      PostedWalletAgrees(t, r, e, w, other);
    }
  }

  lemma BatchJoinsSound(batches: seq<Batch>, b: Batch)
    requires BatchesSound(batches) && BatchSound(b)
    ensures BatchesSound(batches + [b])
  {
  }

  lemma GrantedAgrees(t: Tables, m: Mutation, amount: int, source: string, typ: string, env: Env)
    requires Agrees(t) && m.user in t.wallets && amount > 0 && PostGrant(t, m, amount, source, typ, env).Ok?
    requires m.sourceRef != "" ==> FindBatch(t.batches, source, m.sourceRef).None?
    ensures Agrees(PostGrant(t, m, amount, source, typ, env).value.tables)
  {
    var expires, posted, rebuilt := PostedGrant(t, m, amount, source, typ, env);
    var r := PostGrant(t, m, amount, source, typ, env).value.tables;
    var e := GrantEntry(m, amount, typ, env);
    var b := NewBatch(m, amount, source, expires, env);
    assert r.entries == posted.entries && r.batches == posted.batches && r.operations == rebuilt.operations;
    GrantedWallets(t, r, m, b, e, r.wallets[m.user]);
    GrantProjections(t, m, posted, rebuilt, typ, e);
    forall key ensures ProjectionAgrees(r, key) {
      assert ProjectionAgrees(rebuilt, key);
    }
    BatchJoinsSound(t.batches, b);
    GrantReferences(t, posted, b, e);
  }

  /** A grant or refund keeps the whole ledger in agreement. */
  lemma GrantAgrees(t: Tables, m: Mutation, env: Env)
    requires Agrees(t) && m.user in t.wallets && GrantCredit(t, m, env).Ok?
    ensures Agrees(GrantCredit(t, m, env).value.tables)
  {
    var amount := ValidateAmount(m.amount, false).value;
    var (source, typ) := GrantKind(m).value;
    if GrantReplay(t, m, source, typ, amount).value.None? {
      GrantedAgrees(t, m, amount, source, typ, env);
    }
  }

  lemma GrantProjections(t: Tables, m: Mutation, posted: Tables, rebuilt: Tables, typ: string, e: Entry)
    requires Agrees(t) && e.amount > 0
    requires posted.entries == t.entries + [e] && posted.operations == t.operations
    requires e.kind == KindOf(typ) && e.user == m.user
    requires typ == "refund" ==> m.opAt.Some? && e.op == Some(Operation(m.opType, m.opId, m.opAt.value))
    requires RebuildRefund(posted, m, typ) == Ok(rebuilt)
    ensures forall key :: ProjectionAgrees(rebuilt, key)
  {
    if typ == "refund" {
      PostKeepsProjections(t, posted, e, m.opAt.value);
    } else {
      forall key ensures ProjectionAgrees(rebuilt, key) {
        assert ProjectionAgrees(t, key);
        AppendKeepsOperation(t.entries, e, key, if key in t.operations then t.operations[key].at else 0);
      }
    }
  }

  lemma GrantReferences(t: Tables, r: Tables, b: Batch, e: Entry)
    requires ReferencesUnique(t)
    requires r.batches == t.batches + [b] && r.entries == t.entries + [e]
    requires b.sourceRef.Some? ==> FindBatch(t.batches, b.source, b.sourceRef.value).None?
    requires !EntryRefTaken(t, e)
    ensures ReferencesUnique(r)
  {
    forall i | 0 <= i < |t.batches| && t.batches[i].sourceRef.Some?
      ensures (t.batches[i].source, t.batches[i].sourceRef) != (b.source, b.sourceRef)
    {
      assert t.batches[i] in t.batches;
    }
    forall i | 0 <= i < |t.entries| && t.entries[i].sourceRef.Some?
      ensures (t.entries[i].user, t.entries[i].kind, t.entries[i].sourceRef) != (e.user, e.kind, e.sourceRef)
    {
      assert t.entries[i] in t.entries;
    }
  }

  /** The refund guard is enough: the projection rebuild after it never conflicts. */
  lemma RefundGuardSuffices(t: Tables, m: Mutation, amount: int, posted: Tables, env: Env)
    requires RefundGuard(t, m, amount).Ok?
    requires posted.entries == t.entries + [GrantEntry(m, amount, "refund", env)]
    ensures Rebuild(posted, KeyOf(m), m.opAt.value).Ok?
  {
    var e := GrantEntry(m, amount, "refund", env);
    AppendJoinsOperation(t.entries, e, KeyOf(m), m.opAt.value);
    TotalAppend(t.entries, e, Gross(KeyOf(m)));
    TotalAppend(t.entries, e, Returned(KeyOf(m)));
  }

  // ------------------------------------------------------------------ runs

  const SHORTEST_FREE_DAYS := 1
  const LONGEST_FREE_DAYS := 36500

  predicate BonusTooLong(b: Batch, user: string, days: int) {
    && b.user == user && b.source == "bonus" && b.status == Active
    && (b.sourceRef == None || b.sourceRef == Some("registration_bonus:" + user))
    && (b.expires.None? || b.expires.value > b.issued + days * SECONDS_PER_DAY)
  }

  function Shorten(b: Batch, user: string, days: int): Batch {
    if BonusTooLong(b, user, days) then b.(expires := Some(b.issued + days * SECONDS_PER_DAY)) else b
  }

  function ShortenAll(batches: seq<Batch>, user: string, days: int): (r: seq<Batch>)
    ensures |r| == |batches|
    ensures forall i :: 0 <= i < |r| ==> r[i] == Shorten(batches[i], user, days)
  {
    seq(|batches|, i requires 0 <= i < |batches| => Shorten(batches[i], user, days))
  }

  /** Brings old registration bonuses back under the configured lifetime. */
  function RepairBonusExpiry(t: Tables, user: string, env: Env): Result<Tables, CreditError> {
    if env.freeExpiryDays < SHORTEST_FREE_DAYS || env.freeExpiryDays > LONGEST_FREE_DAYS then Err(InvalidInput)
    else Ok(Expire(t.(batches := ShortenAll(t.batches, user, env.freeExpiryDays)), user, env.now, env.requestId))
  }

  predicate HasRegistrationBonus(entries: seq<Entry>, user: string) {
    exists i :: 0 <= i < |entries| && entries[i].user == user && entries[i].kind == Grant("registration_bonus")
  }

  function BonusMutation(user: string, amount: real): Mutation {
    Mutation("grant", user, amount, "registration_bonus", "bonus", "registration_bonus:" + user, "", None, false, "", "", None)
  }

  /** Opens the wallet and grants the registration bonus once; later calls repair its lifetime. */
  function RegistrationBonus(t: Tables, user: string, amount: real, env: Env): Result<Tables, CreditError> {
    var locked := Lock(t, user, env.now, env.requestId);
    if HasRegistrationBonus(locked.entries, user) then RepairBonusExpiry(locked, user, env)
    else
      var cents :- ValidateAmount(amount, true);
      if cents == 0 then Ok(locked)
      else
        var posting :- GrantCredit(locked, BonusMutation(user, amount), env);
        Ok(posting.tables)
  }

  // One ledger transaction.
  datatype Step =
    | Sweep(user: string, env: Env)
    | Open(user: string, env: Env)
    | Award(m: Mutation, env: Env)
    | Spend(m: Mutation, env: Env)
    | Bonus(user: string, amount: real, env: Env)
    | Repair(user: string, env: Env)
    | SetFrozen(user: string, frozen: bool, env: Env)

  /** The outcome of one transaction: an error rolls every write back. */
  function Attempt(t: Tables, step: Step): Result<Tables, CreditError> {
    match step
    case Sweep(user, env) => Ok(Expire(t, user, env.now, env.requestId))
    case Open(user, env) => Ok(Lock(t, user, env.now, env.requestId))
    case Award(m, env) =>
      var posting :- GrantCredit(Lock(t, m.user, env.now, env.requestId), m, env);
      Ok(posting.tables)
    case Spend(m, env) =>
      var posting :- ConsumeCredit(Lock(t, m.user, env.now, env.requestId), m, env);
      Ok(posting.tables)
    case Bonus(user, amount, env) => RegistrationBonus(t, user, amount, env)
    case Repair(user, env) => RepairBonusExpiry(Lock(t, user, env.now, env.requestId), user, env)
    case SetFrozen(user, frozen, env) =>
      var locked := Lock(t, user, env.now, env.requestId);
      Ok(locked.(wallets := locked.wallets[user := locked.wallets[user].(frozen := frozen)]))
  }

  function Apply(t: Tables, step: Step): Tables {
    var r := Attempt(t, step);
    if r.Ok? then r.value else t
  }

  function Run(t: Tables, steps: seq<Step>): Tables {
    if steps == [] then t else Apply(Run(t, steps[..|steps| - 1]), steps[|steps| - 1])
  }

  lemma {:induction false} HeldAlike(a: seq<Batch>, b: seq<Batch>, h: Holding)
    requires h.ActiveOf? && |a| == |b|
    requires forall i :: 0 <= i < |a| ==> b[i] == a[i].(expires := b[i].expires)
    ensures Held(a, h) == Held(b, h)
  {
    if a != [] {
      HeldAlike(a[..|a| - 1], b[..|b| - 1], h);
    }
  }

  lemma RepairAgrees(t: Tables, user: string, env: Env)
    requires Agrees(t) && RepairBonusExpiry(t, user, env).Ok?
    ensures Agrees(RepairBonusExpiry(t, user, env).value)
  {
    var batches := ShortenAll(t.batches, user, env.freeExpiryDays);
    var shortened := t.(batches := batches);
    forall other ensures WalletAgrees(shortened, other) {
      assert WalletAgrees(t, other);
      HeldAlike(t.batches, batches, ActiveOf(other));
    }
    forall key ensures ProjectionAgrees(shortened, key) {
      assert ProjectionAgrees(t, key);
    }
    forall i | 0 <= i < |batches| ensures BatchSound(batches[i]) {
      assert BatchSound(t.batches[i]);
    }
    ExpireAgrees(shortened, user, env.now, env.requestId);
  }

  lemma FreezeAgrees(t: Tables, user: string, frozen: bool)
    requires Agrees(t) && user in t.wallets
    ensures Agrees(t.(wallets := t.wallets[user := t.wallets[user].(frozen := frozen)]))
  {
    var r := t.(wallets := t.wallets[user := t.wallets[user].(frozen := frozen)]);
    forall other ensures WalletAgrees(r, other) {
      assert WalletAgrees(t, other);
    }
    forall key ensures ProjectionAgrees(r, key) {
      assert ProjectionAgrees(t, key);
    }
  }

  /** Every transaction keeps the whole ledger in agreement. */
  lemma StepAgrees(t: Tables, step: Step)
    requires Agrees(t)
    ensures Agrees(Apply(t, step))
  {
    var user := if step.Award? || step.Spend? then step.m.user else step.user;
    var locked := Lock(t, user, step.env.now, step.env.requestId);
    LockAgrees(t, user, step.env.now, step.env.requestId);
    if Attempt(t, step).Ok? {
      match step
      case Sweep(_, env) => ExpireAgrees(t, user, env.now, env.requestId);
      case Open(_, _) =>
      case Award(m, env) => GrantAgrees(locked, m, env);
      case Spend(m, env) => ConsumeAgrees(locked, m, env);
      case Bonus(_, amount, env) =>
        if HasRegistrationBonus(locked.entries, user) {
          RepairAgrees(locked, user, env);
        } else if ValidateAmount(amount, true).value != 0 {
          GrantAgrees(locked, BonusMutation(user, amount), env);
        }
      case Repair(_, env) => RepairAgrees(locked, user, env);
      case SetFrozen(_, frozen, _) => FreezeAgrees(locked, user, frozen);
    }
  }

  lemma EmptyAgrees()
    ensures Agrees(EMPTY_TABLES)
  {
    assert forall user :: WalletAgrees(EMPTY_TABLES, user);
    assert forall key :: ProjectionAgrees(EMPTY_TABLES, key);
  }

  /**
   * Conservation over whole runs: whatever transactions are run in whatever
   * order and at whatever times, every balance is the sum of the user's active
   * batches and equals earned minus spent minus expired, every projection row
   * holds the sums of its operation, and no source reference was used twice.
   */
  lemma {:induction false} RunAgrees(steps: seq<Step>)
    ensures Agrees(Run(EMPTY_TABLES, steps))
  {
    if steps == [] {
      EmptyAgrees();
    } else {
      RunAgrees(steps[..|steps| - 1]);
      StepAgrees(Run(EMPTY_TABLES, steps[..|steps| - 1]), steps[|steps| - 1]);
    }
  }

  /**
   * In every reachable state a spend fails for lack of credit only when the
   * balance itself is short: the batch rows never run out first.
   */
  lemma SpendNeverRunsShort(steps: seq<Step>, m: Mutation, env: Env)
    ensures Attempt(Run(EMPTY_TABLES, steps), Spend(m, env)) != Err(InsufficientBatches)
  {
    var t := Run(EMPTY_TABLES, steps);
    RunAgrees(steps);
    LockAgrees(t, m.user, env.now, env.requestId);
    BatchesAlwaysSuffice(Lock(t, m.user, env.now, env.requestId), m, env);
  }

  /** In every reachable state the floor at zero of the expiry statement leaves the balance as computed. */
  lemma FloorNeverApplies(steps: seq<Step>, user: string, now: int, requestId: string)
    ensures var t := Run(EMPTY_TABLES, steps);
      WalletOf(Expire(t, user, now, requestId), user).balance
      == WalletOf(t, user).balance - Held(t.batches, DueOf(user, now))
  {
    RunAgrees(steps);
    ExpireBalance(Run(EMPTY_TABLES, steps), user, now, requestId, user);
  }

  lemma RefundChecksPass(t: Tables, m: Mutation, amount: int, env: Env)
    requires m.user in t.wallets && m.operation == "refund" && m.typ == "" && m.sourceRef != ""
    requires ValidateAmount(m.amount, false) == Ok(amount)
    requires FindBatch(t.batches, "refund", m.sourceRef).None?
    ensures GrantCredit(t, m, env) == PostGrant(t, m, amount, "refund", "refund", env)
  {
    assert GrantKind(m) == Ok(("refund", "refund"));
    assert GrantReplay(t, m, "refund", "refund", amount) == Ok(None);
  }

  lemma RefundGuardReadsNet(t: Tables, m: Mutation, amount: int)
    requires Agrees(t) && m.sourceRef != "" && m.opId != "" && m.opType != ""
    requires KeyOf(m) in t.operations && m.opAt == Some(t.operations[KeyOf(m)].at)
    ensures RefundGuard(t, m, amount).Ok? <==> amount <= t.operations[KeyOf(m)].net
  {
    assert ProjectionAgrees(t, KeyOf(m));
  }

  /**
   * A refund that names a recorded operation at its own time is accepted exactly
   * when it stays within the net amount of the projection row, whatever the
   * wallet's status, and lowers that net amount by what it returns.
   */
  lemma RefundAcceptedWithinNet(t: Tables, m: Mutation, amount: int, env: Env)
    requires Agrees(t) && m.user in t.wallets
    requires m.operation == "refund" && m.typ == "" && m.sourceRef != ""
    requires ValidateAmount(m.amount, false) == Ok(amount) && ExpiryOf(m, "refund", env).Ok?
    requires KeyOf(m) in t.operations && m.opAt == Some(t.operations[KeyOf(m)].at)
    requires !OperationBlank(GrantEntry(m, amount, "refund", env)) && m.opType != "" && m.opId != ""
    requires FindBatch(t.batches, "refund", m.sourceRef).None?
    requires FindEntry(t.entries, m.user, Refund, m.sourceRef).None?
    ensures var granted := GrantCredit(t, m, env);
      && (granted.Ok? <==> amount <= t.operations[KeyOf(m)].net)
      && (granted.Ok? ==>
            && KeyOf(m) in granted.value.tables.operations
            && granted.value.tables.operations[KeyOf(m)].net == t.operations[KeyOf(m)].net - amount)
  {
    RefundChecksPass(t, m, amount, env);
    RefundGuardReadsNet(t, m, amount);
    if RefundGuard(t, m, amount).Ok? {
      RefundLowersNet(t, m, amount, env);
    }
  }

  lemma RefundLowersNet(t: Tables, m: Mutation, amount: int, env: Env)
    requires Agrees(t) && m.user in t.wallets && KeyOf(m) in t.operations && m.opAt.Some?
    requires RefundGuard(t, m, amount).Ok? && ExpiryOf(m, "refund", env).Ok? && m.sourceRef != ""
    requires !OperationBlank(GrantEntry(m, amount, "refund", env))
    requires FindEntry(t.entries, m.user, Refund, m.sourceRef).None?
    ensures var posting := PostGrant(t, m, amount, "refund", "refund", env);
      && posting.Ok? && KeyOf(m) in posting.value.tables.operations
      && posting.value.tables.operations[KeyOf(m)].net == t.operations[KeyOf(m)].net - amount
  {
    var e := GrantEntry(m, amount, "refund", env);
    var expires := ExpiryOf(m, "refund", env).value;
    var posted := t.(batches := t.batches + [NewBatch(m, amount, "refund", expires, env)], entries := t.entries + [e]);
    RefundGuardSuffices(t, m, amount, posted, env);
    assert ProjectionAgrees(t, KeyOf(m));
    TotalAppend(t.entries, e, Gross(KeyOf(m)));
    TotalAppend(t.entries, e, Returned(KeyOf(m)));
  }
}
