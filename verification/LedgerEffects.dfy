/**
 * What one charge or refund does to the books of every operation, seen from the
 * ledger before the wallet was locked.
 */
module LedgerEffects {
  import opened Prelude
  import opened Ledger
  import opened Spending
  import opened Conservation

  // --------------------------------------------------------------- tallies

  function RefundCount(entries: seq<Entry>, key: OperationKey): nat {
    if entries == [] then 0
    else
      var e := entries[|entries| - 1];
      RefundCount(entries[..|entries| - 1], key) + if OfOperation(e, key) && e.kind.Refund? then 1 else 0
  }

  datatype Tally = Tally(gross: int, returned: int, refunds: nat, known: bool)

  /** What the ledger says about one operation. */
  function TallyOf(entries: seq<Entry>, key: OperationKey): Tally {
    Tally(Total(entries, Gross(key)), Total(entries, Returned(key)), RefundCount(entries, key), HasOperation(entries, key))
  }

  lemma RefundCountAppend(entries: seq<Entry>, e: Entry, key: OperationKey)
    ensures RefundCount(entries + [e], key) ==
            RefundCount(entries, key) + if OfOperation(e, key) && e.kind.Refund? then 1 else 0
  {
    assert (entries + [e])[..|entries|] == entries;
  }

  lemma {:induction false} RefundCountConcat(entries: seq<Entry>, lapsed: seq<Entry>, key: OperationKey)
    requires forall i :: 0 <= i < |lapsed| ==> lapsed[i].kind == Expiration
    ensures RefundCount(entries + lapsed, key) == RefundCount(entries, key)
  {
    if lapsed == [] {
      assert entries + lapsed == entries;
    } else {
      var n := |lapsed| - 1;
      RefundCountConcat(entries, lapsed[..n], key);
      assert (entries + lapsed)[..|entries + lapsed| - 1] == entries + lapsed[..n];
    }
  }

  lemma {:induction false} RefundCounted(entries: seq<Entry>, key: OperationKey)
    requires exists i :: 0 <= i < |entries| && OfOperation(entries[i], key) && entries[i].kind.Refund?
    ensures RefundCount(entries, key) > 0
  {
    var n := |entries| - 1;
    if !(OfOperation(entries[n], key) && entries[n].kind.Refund?) {
      var i :| 0 <= i < |entries| && OfOperation(entries[i], key) && entries[i].kind.Refund?;
      assert entries[..n][i] == entries[i];
      RefundCounted(entries[..n], key);
    }
  }

  // Two ledgers that tell the same about an operation.
  ghost predicate SameOperation(a: seq<Entry>, b: seq<Entry>, key: OperationKey) {
    && TallyOf(a, key) == TallyOf(b, key)
    && (forall at :: OperationTimesAre(a, key, at) == OperationTimesAre(b, key, at))
  }

  lemma ExpireKeepsOperation(t: Tables, user: string, now: int, requestId: string, key: OperationKey)
    requires BatchesSound(t.batches)
    ensures SameOperation(t.entries, Expire(t, user, now, requestId).entries, key)
  {
    var lapsed := ExpirationEntries(t.batches, user, now, requestId);
    ExpirationTotals(t.batches, user, now, requestId);
    RefundCountConcat(t.entries, lapsed, key);
    forall at ensures OperationTimesAre(t.entries, key, at) == OperationTimesAre(t.entries + lapsed, key, at) {
      ExpirationKeepsOperation(t.entries, lapsed, key, at);
    }
    ExpirationKeepsOperation(t.entries, lapsed, key, 0);
  }

  lemma AppendKeepsOthers(entries: seq<Entry>, e: Entry, key: OperationKey)
    requires !OfOperation(e, key)
    ensures SameOperation(entries, entries + [e], key)
  {
    RefundCountAppend(entries, e, key);
    AppendKeepsOperation(entries, e, key, 0);
    forall at ensures OperationTimesAre(entries, key, at) == OperationTimesAre(entries + [e], key, at) {
      AppendKeepsOperation(entries, e, key, at);
    }
  }

  lemma AppendTallies(entries: seq<Entry>, e: Entry, key: OperationKey)
    requires OfOperation(e, key)
    ensures TallyOf(entries + [e], key) ==
            var t := TallyOf(entries, key);
            if e.kind.Refund? then Tally(t.gross, t.returned + e.amount, t.refunds + 1, true)
            else Tally(t.gross + e.amount, t.returned, t.refunds, true)
  {
    TotalAppend(entries, e, Gross(key));
    TotalAppend(entries, e, Returned(key));
    RefundCountAppend(entries, e, key);
    AppendJoinsOperation(entries, e, key, e.op.value.at);
  }

  // -------------------------------------------------- effect on the ledger

  // A ledger after `entry` was posted on top of expirations.
  ghost predicate Posts(before: Tables, after: Tables, e: Entry) {
    && e.op.Some? && OfOperation(e, OperationKey(e.user, e.op.value.typ, e.op.value.id))
    && (forall key :: !OfOperation(e, key) ==> SameOperation(before.entries, after.entries, key))
    && (forall key :: OfOperation(e, key) ==>
          && OperationTimesAre(after.entries, key, e.op.value.at)
          && TallyOf(after.entries, key) ==
             var t := TallyOf(before.entries, key);
             if e.kind.Refund? then Tally(t.gross, t.returned + e.amount, t.refunds + 1, true)
             else Tally(t.gross + e.amount, t.returned, t.refunds, true))
  }

  ghost predicate SameOperations(before: Tables, after: Tables) {
    forall key :: SameOperation(before.entries, after.entries, key)
  }

  lemma PostsAfterLock(t: Tables, locked: Tables, after: Tables, e: Entry, key: OperationKey)
    requires SameOperations(t, locked) && after.entries == locked.entries + [e]
    requires OfOperation(e, key) && OperationTimesAre(after.entries, key, e.op.value.at)
    ensures Posts(t, after, e)
  {
    forall other | !OfOperation(e, other) ensures SameOperation(t.entries, after.entries, other) {
      AppendKeepsOthers(locked.entries, e, other);
      assert SameOperation(t.entries, locked.entries, other);
    }
    AppendTallies(locked.entries, e, key);
    assert SameOperation(t.entries, locked.entries, key);
  }

  lemma LockKeepsOperations(t: Tables, user: string, now: int, requestId: string)
    requires Agrees(t)
    ensures SameOperations(t, Lock(t, user, now, requestId))
  {
    var ready := t.(wallets := if user in t.wallets then t.wallets else t.wallets[user := EMPTY_WALLET]);
    forall key ensures SameOperation(t.entries, Lock(t, user, now, requestId).entries, key) {
      ExpireKeepsOperation(ready, user, now, requestId, key);
    }
  }

  /** A consumption that is not a replay posts one entry under its operation. */
  lemma ConsumePosts(t: Tables, m: Mutation, env: Env) returns (e: Entry)
    requires Agrees(t)
    requires ConsumeCredit(Lock(t, m.user, env.now, env.requestId), m, env).Ok?
    requires !ConsumeCredit(Lock(t, m.user, env.now, env.requestId), m, env).value.receipt.replayed
    ensures var after := ConsumeCredit(Lock(t, m.user, env.now, env.requestId), m, env).value.tables;
      && Agrees(after) && Posts(t, after, e)
      && e.user == m.user && e.kind == Consumption && e.op == Some(ConsumedOperation(m, env))
      && ValidateAmount(m.amount, false) == Ok(e.amount) && !OperationBlank(e)
  {
    var locked := Lock(t, m.user, env.now, env.requestId);
    LockAgrees(t, m.user, env.now, env.requestId);
    LockKeepsOperations(t, m.user, env.now, env.requestId);
    ConsumeAgrees(locked, m, env);
    var amount := ValidateAmount(m.amount, false).value;
    var posted, rebuilt := PostedConsumption(locked, m, amount, env);
    e := ConsumptionEntry(m, amount, env);
    PostsAfterLock(t, locked, ConsumeCredit(locked, m, env).value.tables, e,
                   OperationKey(m.user, e.op.value.typ, e.op.value.id));
  }

  /** A refund that is not a replay posts one entry under the operation it names. */
  lemma RefundPosts(t: Tables, m: Mutation, env: Env) returns (e: Entry)
    requires Agrees(t) && m.operation == "refund" && m.typ == ""
    requires GrantCredit(Lock(t, m.user, env.now, env.requestId), m, env).Ok?
    requires !GrantCredit(Lock(t, m.user, env.now, env.requestId), m, env).value.receipt.replayed
    ensures var after := GrantCredit(Lock(t, m.user, env.now, env.requestId), m, env).value.tables;
      && Agrees(after) && Posts(t, after, e)
      && e.user == m.user && e.kind == Refund && m.opAt.Some?
      && e.op == Some(Operation(m.opType, m.opId, m.opAt.value))
      && ValidateAmount(m.amount, false) == Ok(e.amount)
  {
    var locked := Lock(t, m.user, env.now, env.requestId);
    LockAgrees(t, m.user, env.now, env.requestId);
    LockKeepsOperations(t, m.user, env.now, env.requestId);
    GrantAgrees(locked, m, env);
    var amount := ValidateAmount(m.amount, false).value;
    assert GrantKind(m) == Ok(("refund", "refund"));
    var expires, posted, rebuilt := PostedGrant(locked, m, amount, "refund", "refund", env);
    e := GrantEntry(m, amount, "refund", env);
    PostsAfterLock(t, locked, GrantCredit(locked, m, env).value.tables, e, KeyOf(m));
  }

  lemma ConsumeReplayKnows(t: Tables, m: Mutation, env: Env)
    requires Agrees(t) && m.opType != "" && m.opId != ""
    requires ConsumeCredit(Lock(t, m.user, env.now, env.requestId), m, env).Ok?
    requires ConsumeCredit(Lock(t, m.user, env.now, env.requestId), m, env).value.receipt.replayed
    ensures HasOperation(t.entries, KeyOf(m))
    ensures var after := ConsumeCredit(Lock(t, m.user, env.now, env.requestId), m, env).value.tables;
      Agrees(after) && SameOperations(t, after)
  {
    var locked := Lock(t, m.user, env.now, env.requestId);
    LockAgrees(t, m.user, env.now, env.requestId);
    LockKeepsOperations(t, m.user, env.now, env.requestId);
    var amount := ValidateAmount(m.amount, false).value;
    var e := FindEntry(locked.entries, m.user, Consumption, m.sourceRef).value;
    assert ConsumeReplay(locked, m, amount).value.Some?;
    var i :| 0 <= i < |locked.entries| && locked.entries[i] == e;
    assert OfOperation(locked.entries[i], KeyOf(m));
    assert SameOperation(t.entries, locked.entries, KeyOf(m));
  }

  lemma RefundReplayKnows(t: Tables, m: Mutation, env: Env)
    requires Agrees(t) && m.operation == "refund" && m.typ == ""
    requires GrantCredit(Lock(t, m.user, env.now, env.requestId), m, env).Ok?
    requires GrantCredit(Lock(t, m.user, env.now, env.requestId), m, env).value.receipt.replayed
    ensures TallyOf(t.entries, KeyOf(m)).refunds > 0
  {
    var locked := Lock(t, m.user, env.now, env.requestId);
    LockKeepsOperations(t, m.user, env.now, env.requestId);
    var amount := ValidateAmount(m.amount, false).value;
    assert GrantKind(m) == Ok(("refund", "refund"));
    assert GrantReplay(locked, m, "refund", "refund", amount).value.Some?;
    var e := FindEntry(locked.entries, m.user, Refund, m.sourceRef).value;
    var i :| 0 <= i < |locked.entries| && locked.entries[i] == e;
    assert OfOperation(locked.entries[i], KeyOf(m));
    RefundCounted(locked.entries, KeyOf(m));
    assert SameOperation(t.entries, locked.entries, KeyOf(m));
  }
}
