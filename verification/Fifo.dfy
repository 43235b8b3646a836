/** Splitting a payment over a bill's lines, oldest first: the loop, and the closed form it computes. */
module Fifo {
  import opened Sums
  import opened Tables

  /** What the first `i` lines still owe. */
  function Owed(outs: seq<int>, i: nat): int
    requires i <= |outs|
  {
    Sum(outs[..i], Pos)
  }

  /** What line `i` receives from a payment of `amount`: whatever the lines before it leave, up to what it owes. */
  function Take(outs: seq<int>, amount: int, i: nat): int
    requires i < |outs|
  {
    Min(Pos(outs[i]), Pos(amount - Owed(outs, i)))
  }

  /** The allocation rows for the first `n` lines; a line that takes nothing gets no row. */
  function Rows(ids: seq<nat>, outs: seq<int>, amount: int, payment: nat, n: nat): seq<Allocation>
    requires n <= |ids| == |outs|
  {
    if n == 0 then []
    else
      var take := Take(outs, amount, n - 1);
      var earlier := Rows(ids, outs, amount, payment, n - 1);
      if take > 0 then earlier + [Allocation(payment, ids[n - 1], take)] else earlier
  }

  function Ids(lines: seq<Line>): seq<nat> {
    seq(|lines|, i requires 0 <= i < |lines| => lines[i].id)
  }

  function Outs(lines: seq<Line>, payments: seq<Payment>, allocations: seq<Allocation>): seq<int> {
    seq(|lines|, i requires 0 <= i < |lines| => lines[i].amount - LinePaid(payments, allocations, lines[i].id))
  }

  /** The rows one payment leaves on a bill's lines, in the order the lines are walked. */
  function AllRows(lines: seq<Line>, payments: seq<Payment>, allocations: seq<Allocation>, amount: int, payment: nat): seq<Allocation> {
    Rows(Ids(Walk(lines)), Outs(Walk(lines), payments, allocations), amount, payment, |Walk(lines)|)
  }

  /** All that the lines still owe, counting no line below zero. */
  function TotalOwed(lines: seq<Line>, payments: seq<Payment>, allocations: seq<Allocation>): int {
    Owed(Outs(Walk(lines), payments, allocations), |Walk(lines)|)
  }

  lemma OwedStep(outs: seq<int>, i: nat)
    requires i < |outs|
    ensures Owed(outs, i + 1) == Owed(outs, i) + Pos(outs[i])
  {
    assert outs[..i + 1] == outs[..i] + [outs[i]];
    SumPush(outs[..i], outs[i], Pos);
  }

  lemma {:induction false} OwedRises(outs: seq<int>, i: nat, j: nat)
    requires i <= j <= |outs|
    ensures 0 <= Owed(outs, i) <= Owed(outs, j)
  {
    if i < j {
      OwedRises(outs, i, j - 1);
      OwedStep(outs, j - 1);
    } else {
      SumNonNegative(outs[..i], Pos);
    }
  }

  /** Once the payment is spent the remaining lines get no rows, so breaking out of the loop loses nothing. */
  lemma {:induction false} RowsStop(ids: seq<nat>, outs: seq<int>, amount: int, payment: nat, i: nat, n: nat)
    requires i <= n <= |ids| == |outs|
    requires amount <= Owed(outs, i)
    ensures Rows(ids, outs, amount, payment, n) == Rows(ids, outs, amount, payment, i)
  {
    if i < n {
      RowsStop(ids, outs, amount, payment, i, n - 1);
      OwedRises(outs, i, n - 1);
    }
  }

  lemma NothingYet(lines: seq<Line>, payments: seq<Payment>, allocations: seq<Allocation>, amount: int, payment: nat)
    ensures var outs := Outs(Walk(lines), payments, allocations);
            Owed(outs, 0) == 0 && Rows(Ids(Walk(lines)), outs, amount, payment, 0) == []
  {
  }

  lemma RowsNext(ids: seq<nat>, outs: seq<int>, amount: int, payment: nat, i: nat)
    requires i < |ids| == |outs|
    ensures Rows(ids, outs, amount, payment, i + 1)
            == Rows(ids, outs, amount, payment, i)
               + if Take(outs, amount, i) > 0 then [Allocation(payment, ids[i], Take(outs, amount, i))] else []
  {
  }

  /** `_allocate_fifo`: `paid_by_line` is read once before the loop, `remaining` carries what is left. */
  method AllocateFifo(store: Store, payment: nat, bill: nat) returns (applied: int, remaining: int)
    requires payment < |store.payments| && bill < |store.bills|
    requires store.payments[payment].amount >= 0
    modifies store`allocations
    ensures store.allocations == old(store.allocations)
              + AllRows(store.bills[bill].lines, store.payments, old(store.allocations), store.payments[payment].amount, payment)
    ensures applied == Min(store.payments[payment].amount,
                           TotalOwed(store.bills[bill].lines, store.payments, old(store.allocations)))
    ensures remaining == store.payments[payment].amount - applied
  {
    hide LinePaid, Walk, Rows, Owed;
    NothingYet(store.bills[bill].lines, store.payments, store.allocations, store.payments[payment].amount, payment);
    var lines := Walk(store.bills[bill].lines);
    var payments, allocations := store.payments, store.allocations;
    var paidByLine := seq(|lines|, i requires 0 <= i < |lines| => LinePaid(payments, allocations, lines[i].id));
    ghost var amount := store.payments[payment].amount;
    ghost var ids, outs := Ids(lines), Outs(lines, payments, allocations);
    remaining, applied := store.payments[payment].amount, 0;
    var i := 0;
    while i < |lines|
      invariant i <= |lines|
      invariant remaining == Pos(amount - Owed(outs, i))
      invariant applied == amount - remaining == Min(amount, Owed(outs, i))
      invariant store.allocations == old(store.allocations) + Rows(ids, outs, amount, payment, i)
    {
      OwedStep(outs, i);
      RowsNext(ids, outs, amount, payment, i);
      if remaining <= 0 {
        RowsStop(ids, outs, amount, payment, i, |lines|);
        OwedRises(outs, i, |lines|);
        return;
      }
      var outstanding := lines[i].amount - paidByLine[i];
      if outstanding > 0 {
        var take := Min(remaining, outstanding);
        store.allocations := store.allocations + [Allocation(payment, lines[i].id, take)];
        remaining := remaining - take;
        applied := applied + take;
      }
      i := i + 1;
    }
  }

  // ---- what the closed form means ----

  function AmountIn(a: Allocation): int { a.amount }

  /** The rows add up to the payment, or to all that is owed if that is less. */
  lemma {:induction false} RowsTotal(ids: seq<nat>, outs: seq<int>, amount: int, payment: nat, n: nat)
    requires n <= |ids| == |outs| && amount >= 0
    ensures Sum(Rows(ids, outs, amount, payment, n), AmountIn) == Min(amount, Owed(outs, n))
  {
    if n == 0 {
      assert outs[..0] == [];
    } else {
      RowsTotal(ids, outs, amount, payment, n - 1);
      OwedStep(outs, n - 1);
      OwedRises(outs, n - 1, n - 1);
      SumPush(Rows(ids, outs, amount, payment, n - 1), Allocation(payment, ids[n - 1], Take(outs, amount, n - 1)), AmountIn);
    }
  }

  /** Every row belongs to the payment, is for something, and is on one of the lines walked. */
  lemma {:induction false} RowsShape(ids: seq<nat>, outs: seq<int>, amount: int, payment: nat, n: nat, a: Allocation)
    requires n <= |ids| == |outs|
    requires a in Rows(ids, outs, amount, payment, n)
    ensures a.amount > 0 && a.payment == payment && a.line in ids[..n]
  {
    if a in Rows(ids, outs, amount, payment, n - 1) {
      RowsShape(ids, outs, amount, payment, n - 1, a);
    } else {
      assert a.line == ids[..n][n - 1];
    }
  }

  ghost predicate Distinct(ids: seq<nat>) {
    forall i, j | 0 <= i < j < |ids| :: ids[i] != ids[j]
  }

  function OnLine(line: nat): Allocation -> int {
    (a: Allocation) => if a.line == line then a.amount else 0
  }

  /** Each line receives exactly its share, in one row. */
  lemma {:induction false} RowsOnLine(ids: seq<nat>, outs: seq<int>, amount: int, payment: nat, n: nat, line: nat)
    requires n <= |ids| == |outs| && amount >= 0 && Distinct(ids)
    ensures forall j | 0 <= j < n && ids[j] == line ::
              Sum(Rows(ids, outs, amount, payment, n), OnLine(line)) == Take(outs, amount, j)
    ensures (forall j | 0 <= j < n :: ids[j] != line) ==> Sum(Rows(ids, outs, amount, payment, n), OnLine(line)) == 0
  {
    if n > 0 {
      RowsOnLine(ids, outs, amount, payment, n - 1, line);
      SumPush(Rows(ids, outs, amount, payment, n - 1), Allocation(payment, ids[n - 1], Take(outs, amount, n - 1)), OnLine(line));
      OwedRises(outs, n - 1, n - 1);
    }
  }

  /** What each line owes after a payment. */
  function After(outs: seq<int>, amount: int): seq<int> {
    seq(|outs|, i requires 0 <= i < |outs| => outs[i] - Take(outs, amount, i))
  }

  lemma {:induction false} OwedAfter(outs: seq<int>, amount: int, i: nat)
    requires i <= |outs| && amount >= 0
    ensures Owed(After(outs, amount), i) == Pos(Owed(outs, i) - amount)
  {
    if i > 0 {
      OwedAfter(outs, amount, i - 1);
      OwedStep(outs, i - 1);
      OwedStep(After(outs, amount), i - 1);
      OwedRises(outs, i - 1, i - 1);
    } 
  }

  /** A payment of a + b gives every line what a payment of a followed by one of b gives it. */
  lemma TakeSplits(outs: seq<int>, a: int, b: int, i: nat)
    requires i < |outs| && a >= 0 && b >= 0
    ensures Take(outs, a + b, i) == Take(outs, a, i) + Take(After(outs, a), b, i)
  {
    OwedAfter(outs, a, i);
    OwedRises(outs, i, i);
  }

  /** No line is paid past what it owes, and money is left over only when every line is full. */
  lemma TakeNeverOverpays(outs: seq<int>, amount: int, i: nat)
    requires i < |outs| && amount >= 0
    ensures 0 <= Take(outs, amount, i) <= Pos(outs[i])
    ensures amount > Owed(outs, |outs|) ==> Take(outs, amount, i) == Pos(outs[i]) && After(outs, amount)[i] <= 0
  {
    OwedStep(outs, i);
    OwedRises(outs, i + 1, |outs|);
  }
}
