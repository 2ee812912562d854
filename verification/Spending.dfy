/**
 * Spending: which batches a consumption draws on, in which order, and what the
 * order guarantees. The row order is expiry (never last), source class, issue
 * time and identifier.
 */
module Spending {
  import opened Prelude
  import opened Ledger

  // ----------------------------------------------------------------- order

  function SourceRank(source: string): nat {
    if source == "bonus" || source == "referral" then 1
    else if source == "subscription" then 2
    else if source == "purchase" then 3
    else 4
  }

  predicate ExpiresBefore(a: Option<int>, b: Option<int>) {
    a.Some? && (b.None? || a.value < b.value)
  }

  /** The row order of the spending query. */
  predicate SpentBefore(a: Batch, b: Batch) {
    || ExpiresBefore(a.expires, b.expires)
    || (a.expires == b.expires &&
        (|| SourceRank(a.source) < SourceRank(b.source)
         || (SourceRank(a.source) == SourceRank(b.source) &&
             (|| a.issued < b.issued
              || (a.issued == b.issued && TextBefore(a.id, b.id))))))
  }

  lemma SpentBeforeTransitive(a: Batch, b: Batch, c: Batch)
    requires SpentBefore(a, b) && SpentBefore(b, c)
    ensures SpentBefore(a, c)
  {
    if TextBefore(a.id, b.id) && TextBefore(b.id, c.id) {
      TextTransitive(a.id, b.id, c.id);
    }
  }

  predicate Spendable(b: Batch, user: string, now: int) {
    Holds(b, ActiveOf(user)) && b.remaining > 0 && !DueBy(b.expires, now)
  }

  function Insert(batches: seq<Batch>, order: seq<nat>, i: nat): (r: seq<nat>)
    requires i < |batches| && forall k :: 0 <= k < |order| ==> order[k] < |batches|
    ensures forall k :: 0 <= k < |r| ==> r[k] == i || r[k] in order
  {
    if order == [] || SpentBefore(batches[i], batches[order[0]]) then [i] + order
    else [order[0]] + Insert(batches, order[1..], i)
  }

  function OrderOf(batches: seq<Batch>, n: nat, user: string, now: int): (order: seq<nat>)
    requires n <= |batches|
    ensures forall k :: 0 <= k < |order| ==> order[k] < n
  {
    if n == 0 then []
    else
      var order := OrderOf(batches, n - 1, user, now);
      if Spendable(batches[n - 1], user, now) then
        Insert(batches, order, n - 1)
      else order
  }

  /** Positions of the spendable rows, in the order the query returns them. */
  function SpendingOrder(batches: seq<Batch>, user: string, now: int): (order: seq<nat>)
    ensures forall k :: 0 <= k < |order| ==> order[k] < |batches|
  {
    OrderOf(batches, |batches|, user, now)
  }

  predicate Distinct(order: seq<nat>) {
    forall j, k :: 0 <= j < k < |order| ==> order[j] != order[k]
  }

  lemma {:induction false} InsertAdds(batches: seq<Batch>, order: seq<nat>, i: nat)
    requires i < |batches| && forall k :: 0 <= k < |order| ==> order[k] < |batches|
    ensures forall x: nat :: x in Insert(batches, order, i) <==> x == i || x in order
    ensures Distinct(order) && i !in order ==> Distinct(Insert(batches, order, i))
  {
    if order != [] {
      assert order == [order[0]] + order[1..];
      if !SpentBefore(batches[i], batches[order[0]]) {
        InsertAdds(batches, order[1..], i);
        if Distinct(order) && i !in order {
          assert order[0] !in order[1..];
          assert order[0] !in Insert(batches, order[1..], i);
        }
      }
    }
  }

  // A row order: later rows never come before earlier ones.
  ghost predicate Ordered(batches: seq<Batch>, order: seq<nat>) {
    && (forall k :: 0 <= k < |order| ==> order[k] < |batches|)
    && (forall j, k :: 0 <= j < k < |order| ==> !SpentBefore(batches[order[k]], batches[order[j]]))
  }

  lemma {:induction false} InsertOrdered(batches: seq<Batch>, order: seq<nat>, i: nat)
    requires i < |batches| && Ordered(batches, order)
    ensures Ordered(batches, Insert(batches, order, i))
  {
    InsertAdds(batches, order, i);
    if order != [] {
      if SpentBefore(batches[i], batches[order[0]]) {
        forall k | 0 <= k < |order| ensures !SpentBefore(batches[order[k]], batches[i]) {
          SpentBeforeBetween(batches[order[k]], batches[i], batches[order[0]]);
        }
      } else {
        InsertOrdered(batches, order[1..], i);
        InsertAdds(batches, order[1..], i);
        var rest := Insert(batches, order[1..], i);
        forall k | 0 <= k < |rest| ensures !SpentBefore(batches[rest[k]], batches[order[0]]) {
          assert rest[k] in rest;
        }
      }
    }
  }

  lemma SpentBeforeBetween(a: Batch, b: Batch, c: Batch)
    requires SpentBefore(b, c) && (!SpentBefore(a, c) || a == c)
    ensures !SpentBefore(a, b)
  {
    TextTotal(a.id, b.id);
    if SpentBefore(a, b) {
      SpentBeforeTransitive(a, b, c);
    }
  }

  lemma {:induction false} OrderOrdered(batches: seq<Batch>, n: nat, user: string, now: int)
    requires n <= |batches|
    ensures Ordered(batches, OrderOf(batches, n, user, now))
  {
    if n > 0 {
      var order := OrderOf(batches, n - 1, user, now);
      OrderOrdered(batches, n - 1, user, now);
      InsertOrdered(batches, order, n - 1);
      OrderStep(batches, n, user, now, order);
    }
  }

  lemma OrderStep(batches: seq<Batch>, n: nat, user: string, now: int, order: seq<nat>)
    requires 0 < n <= |batches| && order == OrderOf(batches, n - 1, user, now)
    ensures OrderOf(batches, n, user, now) ==
            if Spendable(batches[n - 1], user, now) then Insert(batches, order, n - 1) else order
  {
  }

  lemma {:induction false} OrderMembers(batches: seq<Batch>, n: nat, user: string, now: int)
    requires n <= |batches|
    ensures Distinct(OrderOf(batches, n, user, now))
    ensures forall i: nat :: i in OrderOf(batches, n, user, now) <==> i < n && Spendable(batches[i], user, now)
  {
    if n > 0 {
      var order := OrderOf(batches, n - 1, user, now);
      OrderMembers(batches, n - 1, user, now);
      assert (n - 1) !in order && Distinct(order);
      InsertAdds(batches, order, n - 1);
      OrderStep(batches, n, user, now, order);
    }
  }

  /**
   * The spending order lists exactly the spendable rows, each once, sorted by
   * the row order.
   */
  lemma SpendingOrderListsSpendable(batches: seq<Batch>, user: string, now: int)
    ensures Ordered(batches, SpendingOrder(batches, user, now))
    ensures Distinct(SpendingOrder(batches, user, now))
    ensures forall i: nat :: i in SpendingOrder(batches, user, now) <==> i < |batches| && Spendable(batches[i], user, now)
  {
    OrderOrdered(batches, |batches|, user, now);
    OrderMembers(batches, |batches|, user, now);
  }

  // ----------------------------------------------------------------- drain

  function TakeFrom(b: Batch, take: int): Batch {
    b.(remaining := b.remaining - take, status := if b.remaining - take <= 0 then Consumed else b.status)
  }

  /** Draws `need` from the listed rows in turn; the second part is what is still missing. */
  function Drain(batches: seq<Batch>, order: seq<nat>, need: int): (r: (seq<Batch>, int))
    requires forall k :: 0 <= k < |order| ==> order[k] < |batches|
    ensures |r.0| == |batches|
    decreases order
  {
    if order == [] then (batches, need)
    else
      var take := Min(need, batches[order[0]].remaining);
      if take <= 0 then (batches, need)
      else Drain(batches[order[0] := TakeFrom(batches[order[0]], take)], order[1..], need - take)
  }

  // Rows a drain may still use: distinct, active rows of the user with credit left.
  ghost predicate Drainable(batches: seq<Batch>, order: seq<nat>, user: string) {
    && (forall k :: 0 <= k < |order| ==>
          order[k] < |batches| && Holds(batches[order[k]], ActiveOf(user)) && batches[order[k]].remaining > 0)
    && Distinct(order)
  }

  lemma {:induction false} HeldUpdate(batches: seq<Batch>, i: nat, b: Batch, h: Holding)
    requires i < |batches|
    ensures Held(batches[i := b], h) == Held(batches, h) - HeldIn(batches[i], h) + HeldIn(b, h)
  {
    var n := |batches| - 1;
    if i < n {
      HeldUpdate(batches[..n], i, b, h);
      assert batches[i := b][..n] == batches[..n][i := b];
    } else {
      assert batches[i := b][..n] == batches[..n];
    }
  }

  lemma {:induction false} HeldSplit(batches: seq<Batch>, user: string, time: int)
    ensures Held(batches, ActiveOf(user)) == Held(batches, EndingBy(user, time)) + Held(batches, LastingAfter(user, time))
  {
    if batches != [] {
      HeldSplit(batches[..|batches| - 1], user, time);
    }
  }

  lemma DrainableStep(batches: seq<Batch>, order: seq<nat>, take: int, user: string)
    requires Drainable(batches, order, user) && order != []
    ensures var next := batches[order[0] := TakeFrom(batches[order[0]], take)];
      && Drainable(next, order[1..], user)
      && order[0] !in order[1..]
      && forall i :: i in order <==> i == order[0] || i in order[1..]
  {
    var tail := order[1..];
    forall k | 0 <= k < |tail| ensures tail[k] == order[k + 1] && tail[k] != order[0] {
    }
    assert order == [order[0]] + tail;
  }

  // What a drain may do to one row.
  predicate Drawn(before: Batch, after: Batch) {
    && after == before.(remaining := after.remaining, status := after.status)
    && after.remaining <= before.remaining
    && (after == before || (before.status == Active && 0 <= after.remaining))
    && (after.status == before.status || (after.status == Consumed && after.remaining == 0))
    && (after.status == Active && before.remaining > 0 ==> after.remaining > 0)
  }

  /** Rows outside the order stay as they were; the others only lose credit. */
  lemma {:induction false} DrainRows(batches: seq<Batch>, order: seq<nat>, need: int, user: string)
    requires Drainable(batches, order, user) && 0 <= need
    ensures var after := Drain(batches, order, need).0;
      && (forall i :: 0 <= i < |batches| && i !in order ==> after[i] == batches[i])
      && (forall i :: 0 <= i < |batches| ==> Drawn(batches[i], after[i]))
    decreases |order|
  {
    if order != [] {
      var i := order[0];
      var take := Min(need, batches[i].remaining);
      if take > 0 {
        DrainableStep(batches, order, take, user);
        DrainRows(batches[i := TakeFrom(batches[i], take)], order[1..], need - take, user);
      }
    }
  }

  /** Whatever is missing at the end, every listed row was used up for it. */
  lemma {:induction false} DrainUsesUp(batches: seq<Batch>, order: seq<nat>, need: int, user: string)
    requires Drainable(batches, order, user) && 0 <= need
    ensures var (after, missing) := Drain(batches, order, need);
      && 0 <= missing <= need
      && (missing > 0 ==> forall i :: 0 <= i < |after| && i in order ==> after[i].status == Consumed)
    decreases |order|
  {
    if order != [] {
      var i := order[0];
      var take := Min(need, batches[i].remaining);
      if take > 0 {
        DrainableStep(batches, order, take, user);
        var next := batches[i := TakeFrom(batches[i], take)];
        DrainUsesUp(next, order[1..], need - take, user);
        DrainRows(next, order[1..], need - take, user);
      }
    }
  }

  /** A drain takes from the user's active credit exactly what it reports. */
  lemma {:induction false} DrainTakesExactly(batches: seq<Batch>, order: seq<nat>, need: int, user: string)
    requires Drainable(batches, order, user) && 0 <= need
    ensures var (after, missing) := Drain(batches, order, need);
      Held(after, ActiveOf(user)) == Held(batches, ActiveOf(user)) - (need - missing)
    decreases |order|
  {
    if order != [] {
      var i := order[0];
      var take := Min(need, batches[i].remaining);
      if take > 0 {
        DrainableStep(batches, order, take, user);
        HeldUpdate(batches, i, TakeFrom(batches[i], take), ActiveOf(user));
        DrainTakesExactly(batches[i := TakeFrom(batches[i], take)], order[1..], need - take, user);
      }
    }
  }

  /** A drain leaves every other user's credit alone. */
  lemma {:induction false} DrainSparesOthers(batches: seq<Batch>, order: seq<nat>, need: int, user: string, other: string)
    requires Drainable(batches, order, user) && other != user
    ensures Held(Drain(batches, order, need).0, ActiveOf(other)) == Held(batches, ActiveOf(other))
    decreases |order|
  {
    if order != [] {
      var i := order[0];
      var take := Min(need, batches[i].remaining);
      if take > 0 {
        DrainableStep(batches, order, take, user);
        HeldUpdate(batches, i, TakeFrom(batches[i], take), ActiveOf(other));
        DrainSparesOthers(batches[i := TakeFrom(batches[i], take)], order[1..], need - take, user, other);
      }
    }
  }

  /** A drain empties a prefix of the order, draws part of at most one row and leaves the rest. */
  lemma {:induction false} DrainUsesPrefix(batches: seq<Batch>, order: seq<nat>, need: int, user: string) returns (k: nat)
    requires Drainable(batches, order, user) && 0 <= need
    ensures PrefixUsed(batches, order, Drain(batches, order, need).0, k)
    decreases |order|
  {
    k := 0;
    if order != [] {
      var i := order[0];
      var take := Min(need, batches[i].remaining);
      if take > 0 {
        DrainableStep(batches, order, take, user);
        var next := batches[i := TakeFrom(batches[i], take)];
        DrainRows(next, order[1..], need - take, user);
        if take == batches[i].remaining {
          var rest := DrainUsesPrefix(next, order[1..], need - take, user);
          PrefixExtends(batches, order, next, Drain(next, order[1..], need - take).0, rest);
          k := rest + 1;
        } else {
          PartOfFirst(batches, order, need, user);
        }
      }
    }
  }

  lemma PartOfFirst(batches: seq<Batch>, order: seq<nat>, need: int, user: string)
    requires Drainable(batches, order, user) && order != [] && 0 < need < batches[order[0]].remaining
    ensures PrefixUsed(batches, order, Drain(batches, order, need).0, 0)
  {
    DrainableStep(batches, order, need, user);
    DrainNothing(batches[order[0] := TakeFrom(batches[order[0]], need)], order[1..]);
    assert Drain(batches, order, need).0 == batches[order[0] := TakeFrom(batches[order[0]], need)];
    forall j | 0 < j < |order| ensures order[j] != order[0] {
      assert order[j] == order[1..][j - 1];
    }
  }

  // The first k listed rows are used up, row k may be partly drawn, later rows are untouched.
  ghost predicate PrefixUsed(batches: seq<Batch>, order: seq<nat>, after: seq<Batch>, k: nat)
    requires forall j :: 0 <= j < |order| ==> order[j] < |batches|
    requires |after| == |batches|
  {
    && k <= |order|
    && (forall j :: 0 <= j < k ==> after[order[j]].remaining == 0 && after[order[j]].status == Consumed)
    && (k < |order| ==> after[order[k]].status == Active && 0 < after[order[k]].remaining <= batches[order[k]].remaining)
    && (forall j :: k < j < |order| ==> after[order[j]] == batches[order[j]])
  }

  lemma DrainNothing(batches: seq<Batch>, order: seq<nat>)
    requires forall j :: 0 <= j < |order| ==> order[j] < |batches|
    ensures order == [] || batches[order[0]].remaining >= 0 ==> Drain(batches, order, 0) == (batches, 0)
  {
  }

  lemma PrefixExtends(batches: seq<Batch>, order: seq<nat>, next: seq<Batch>, after: seq<Batch>, rest: nat)
    requires order != [] && |after| == |batches| == |next|
    requires forall j :: 0 <= j < |order| ==> order[j] < |batches|
    requires order[0] !in order[1..]
    requires forall i :: 0 <= i < |batches| && i != order[0] ==> next[i] == batches[i]
    requires after[order[0]].remaining == 0 && after[order[0]].status == Consumed
    requires PrefixUsed(next, order[1..], after, rest)
    ensures PrefixUsed(batches, order, after, rest + 1)
  {
    var tail := order[1..];
    forall j | 0 < j < |order| ensures order[j] == tail[j - 1] && order[j] != order[0] {
    }
  }

  // ------------------------------------------------------------ optimality

  lemma {:induction false} NothingHeld(batches: seq<Batch>, h: Holding)
    requires forall i :: 0 <= i < |batches| && Holds(batches[i], h) ==> batches[i].remaining == 0
    ensures Held(batches, h) == 0
  {
    if batches != [] {
      NothingHeld(batches[..|batches| - 1], h);
    }
  }

  // Every active row with credit that ends by `time` is still listed.
  ghost predicate EarlyRowsListed(batches: seq<Batch>, order: seq<nat>, user: string, time: int) {
    forall i :: 0 <= i < |batches| && Holds(batches[i], EndingBy(user, time)) && batches[i].remaining != 0 ==> i in order
  }

  lemma OrderedStep(batches: seq<Batch>, order: seq<nat>, take: int)
    requires Ordered(batches, order) && order != []
    ensures Ordered(batches[order[0] := TakeFrom(batches[order[0]], take)], order[1..])
  {
    var next := batches[order[0] := TakeFrom(batches[order[0]], take)];
    var tail := order[1..];
    forall a, b | 0 <= a < b < |tail| ensures !SpentBefore(next[tail[b]], next[tail[a]]) {
      assert tail[a] == order[a + 1] && tail[b] == order[b + 1];
      assert !SpentBefore(batches[order[b + 1]], batches[order[a + 1]]);
    }
  }

  /** Credit ending after `time` is only touched once everything ending by then is gone. */
  lemma {:induction false} DrainEarliestFirst(batches: seq<Batch>, order: seq<nat>, need: int, user: string, time: int)
    requires Drainable(batches, order, user) && Ordered(batches, order) && 0 <= need
    requires EarlyRowsListed(batches, order, user, time)
    ensures var after := Drain(batches, order, need).0;
      || Held(after, EndingBy(user, time)) == 0
      || Held(after, LastingAfter(user, time)) == Held(batches, LastingAfter(user, time))
    decreases |order|
  {
    if order != [] {
      var i := order[0];
      var take := Min(need, batches[i].remaining);
      if take > 0 {
        var row := TakeFrom(batches[i], take);
        DrainableStep(batches, order, take, user);
        OrderedStep(batches, order, take);
        if !DueBy(batches[i].expires, time) {
          NothingEarly(batches, order, user, time);
          DrainKeepsEarly(batches, order, need, user, time);
        } else {
          HeldUpdate(batches, i, row, LastingAfter(user, time));
          if take == need {
            DrainNothing(batches[i := row], order[1..]);
          } else {
            DrainEarliestFirst(batches[i := row], order[1..], need - take, user, time);
          }
        }
      }
    }
  }

  lemma NothingEarly(batches: seq<Batch>, order: seq<nat>, user: string, time: int)
    requires Ordered(batches, order) && order != [] && !DueBy(batches[order[0]].expires, time)
    requires EarlyRowsListed(batches, order, user, time)
    ensures Held(batches, EndingBy(user, time)) == 0
  {
    forall i | 0 <= i < |batches| && Holds(batches[i], EndingBy(user, time)) ensures batches[i].remaining == 0 {
      if batches[i].remaining != 0 {
        var k :| 0 <= k < |order| && order[k] == i;
        assert SpentBefore(batches[order[k]], batches[order[0]]);
      }
    }
    NothingHeld(batches, EndingBy(user, time));
  }

  lemma {:induction false} DrainKeepsEarly(batches: seq<Batch>, order: seq<nat>, need: int, user: string, time: int)
    requires Drainable(batches, order, user) && Ordered(batches, order)
    requires order != [] ==> !DueBy(batches[order[0]].expires, time)
    ensures Held(Drain(batches, order, need).0, EndingBy(user, time)) == Held(batches, EndingBy(user, time))
    decreases |order|
  {
    if order != [] {
      var i := order[0];
      var take := Min(need, batches[i].remaining);
      if take > 0 {
        DrainableStep(batches, order, take, user);
        OrderedStep(batches, order, take);
        HeldUpdate(batches, i, TakeFrom(batches[i], take), EndingBy(user, time));
        if |order| > 1 {
          assert !SpentBefore(batches[order[1]], batches[order[0]]);
        }
        DrainKeepsEarly(batches[i := TakeFrom(batches[i], take)], order[1..], need - take, user, time);
      }
    }
  }

  // Another way of taking `amount` from the user's active rows.
  ghost predicate Allocation(batches: seq<Batch>, other: seq<Batch>, user: string, amount: int) {
    && |other| == |batches|
    && (forall i :: 0 <= i < |batches| ==>
          && other[i].user == batches[i].user && other[i].expires == batches[i].expires
          && HeldIn(other[i], ActiveOf(user)) <= HeldIn(batches[i], ActiveOf(user))
          && 0 <= HeldIn(other[i], ActiveOf(user)))
    && Held(other, ActiveOf(user)) == Held(batches, ActiveOf(user)) - amount
  }

  lemma {:induction false} AllocationBounds(batches: seq<Batch>, other: seq<Batch>, user: string, time: int)
    requires |other| == |batches|
    requires forall i :: 0 <= i < |batches| ==>
      && other[i].user == batches[i].user && other[i].expires == batches[i].expires
      && 0 <= HeldIn(other[i], ActiveOf(user)) <= HeldIn(batches[i], ActiveOf(user))
    ensures 0 <= Held(other, EndingBy(user, time)) <= Held(batches, EndingBy(user, time))
    ensures 0 <= Held(other, LastingAfter(user, time)) <= Held(batches, LastingAfter(user, time))
  {
    if batches != [] {
      var n := |batches| - 1;
      AllocationBounds(batches[..n], other[..n], user, time);
      assert 0 <= HeldIn(other[n], ActiveOf(user)) <= HeldIn(batches[n], ActiveOf(user));
    }
  }

  /**
   * The spending order is optimal: for every time, it leaves at least as much
   * credit that outlasts that time as any other way of spending the same amount.
   */
  lemma SpendingOrderOptimal(batches: seq<Batch>, user: string, now: int, amount: int, other: seq<Batch>, time: int)
    requires forall i :: 0 <= i < |batches| && Holds(batches[i], ActiveOf(user)) ==> batches[i].remaining > 0
    requires forall i :: 0 <= i < |batches| ==> !Due(batches[i], user, now)
    requires 0 <= amount <= Held(batches, ActiveOf(user))
    requires Allocation(batches, other, user, amount)
    ensures var (after, missing) := Drain(batches, SpendingOrder(batches, user, now), amount);
      missing == 0 && Held(after, LastingAfter(user, time)) >= Held(other, LastingAfter(user, time))
  {
    var order := SpendingOrder(batches, user, now);
    SpendingOrderDrainable(batches, user, now);
    DrainTakesExactly(batches, order, amount, user);
    DrainRows(batches, order, amount, user);
    var (after, missing) := Drain(batches, order, amount);
    DrainSuffices(batches, user, now, amount);
    SpendingOrderListsSpendable(batches, user, now);
    assert EarlyRowsListed(batches, order, user, time) by {
      forall i: nat | i < |batches| && Holds(batches[i], EndingBy(user, time)) && batches[i].remaining != 0
        ensures i in order
      {
        assert Spendable(batches[i], user, now);
      }
    }
    DrainEarliestFirst(batches, order, amount, user, time);
    HeldSplit(batches, user, time);
    HeldSplit(after, user, time);
    HeldSplit(other, user, time);
    AllocationBounds(batches, other, user, time);
  }

  lemma SpendingOrderDrainable(batches: seq<Batch>, user: string, now: int)
    ensures Drainable(batches, SpendingOrder(batches, user, now), user)
    ensures Ordered(batches, SpendingOrder(batches, user, now))
    ensures forall i :: 0 <= i < |batches| && Spendable(batches[i], user, now) ==> i in SpendingOrder(batches, user, now)
  {
    var order := SpendingOrder(batches, user, now);
    SpendingOrderListsSpendable(batches, user, now);
    forall k | 0 <= k < |order| ensures Spendable(batches[order[k]], user, now) {
      assert order[k] in order;
    }
  }

  /** With nothing due, an amount covered by the active credit is always fully drawn. */
  lemma DrainSuffices(batches: seq<Batch>, user: string, now: int, amount: int)
    requires forall i :: 0 <= i < |batches| && Holds(batches[i], ActiveOf(user)) ==> batches[i].remaining > 0
    requires forall i :: 0 <= i < |batches| ==> !Due(batches[i], user, now)
    requires 0 <= amount <= Held(batches, ActiveOf(user))
    ensures Drain(batches, SpendingOrder(batches, user, now), amount).1 == 0
  {
    var order := SpendingOrder(batches, user, now);
    SpendingOrderDrainable(batches, user, now);
    DrainTakesExactly(batches, order, amount, user);
    DrainRows(batches, order, amount, user);
    DrainUsesUp(batches, order, amount, user);
    var (after, missing) := Drain(batches, order, amount);
    if missing > 0 {
      forall i: nat | i < |after| ensures !Holds(after[i], ActiveOf(user)) {
        if i in order {
          var k :| 0 <= k < |order| && order[k] == i;
        } else {
          assert !Spendable(batches[i], user, now);
        }
      }
      NothingHeld(after, ActiveOf(user));
    }
  }

  // ----------------------------------------------------------- consumption

  function ServiceOf(m: Mutation): string {
    if m.service == "" then m.typ else m.service
  }

  /** The earlier entry a retry of this consumption must return, if its reference was used. */
  function ConsumeReplay(t: Tables, m: Mutation, amount: int): Result<Option<string>, CreditError> {
    if m.sourceRef == "" then Ok(None)
    else
      var previous := FindEntry(t.entries, m.user, Consumption, m.sourceRef);
      if previous.None? then Ok(None)
      else
        var e := previous.value;
        if e.amount != amount || e.account != "SERVICE:" + ServiceOf(m) then Err(IdempotencyConflict)
        else if m.opType != "" && (e.op.None? || e.op.value.typ != m.opType) then Err(IdempotencyConflict)
        else if m.opId != "" && (e.op.None? || e.op.value.id != m.opId) then Err(IdempotencyConflict)
        else if m.opAt.Some? && (e.op.None? || e.op.value.at != m.opAt.value) then Err(IdempotencyConflict)
        else Ok(Some(e.id))
  }

  function ConsumedOperation(m: Mutation, env: Env): Operation {
    Operation(if m.opType == "" then "uol_credit_consumption" else m.opType,
              if m.opId == "" then env.entryId else m.opId,
              if m.opAt.Some? then m.opAt.value else env.clock)
  }

  function ConsumptionEntry(m: Mutation, amount: int, env: Env): Entry {
    Entry(env.entryId, m.user, Consumption, amount, "SERVICE:" + ServiceOf(m), RefOf(m.sourceRef),
          Some(ConsumedOperation(m, env)))
  }

  function DebitWallet(w: Wallet, amount: int): Wallet {
    w.(balance := w.balance - amount, spent := w.spent + amount)
  }

  /** Writes a consumption whose checks have passed. */
  function PostConsumption(t: Tables, m: Mutation, amount: int, env: Env): Result<Posting, CreditError>
    requires m.user in t.wallets
  {
    var wallet := t.wallets[m.user];
    var (batches, missing) := Drain(t.batches, SpendingOrder(t.batches, m.user, env.now), amount);
    if missing > 0 then Err(InsufficientBatches)
    else
      var op := ConsumedOperation(m, env);
      var entry := ConsumptionEntry(m, amount, env);
      if OperationBlank(entry) then Err(ConstraintViolation)
      else
        var posted := t.(batches := batches, entries := t.entries + [entry]);
        var rebuilt :- Rebuild(posted, OperationKey(m.user, op.typ, op.id), op.at);
        Ok(Posting(rebuilt.(wallets := rebuilt.wallets[m.user := DebitWallet(wallet, amount)]),
                   Receipt("", env.entryId, wallet.balance - amount, false)))
  }

  /** Draws an amount from a locked wallet and records it under one operation. */
  function ConsumeCredit(t: Tables, m: Mutation, env: Env): Result<Posting, CreditError>
    requires m.user in t.wallets
  {
    var wallet := t.wallets[m.user];
    var amount :- ValidateAmount(m.amount, false);
    if Blank(ServiceOf(m)) then Err(InvalidInput)
    else
      var replay :- ConsumeReplay(t, m, amount);
      if replay.Some? then Ok(Posting(t, Receipt("", replay.value, wallet.balance, true)))
      else if wallet.frozen then Err(AccountFrozen)
      else if wallet.balance < amount then Err(InsufficientCredits)
      else PostConsumption(t, m, amount, env)
  }
}
