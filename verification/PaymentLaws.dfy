/** What payments and reversals do to lines, bills and credit. */
module PaymentLaws {
  import opened Prelude
  import opened Sums
  import opened Tables
  import opened Billing
  import opened Payments
  import opened Fifo
  import opened Ledger

  // ---- every stored copy agrees ----

  lemma {:induction false} LinesShareAllocation(lines: seq<Line>, a: Allocation, n: int)
    requires Ordered(lines)
    ensures Sum(lines, (l: Line) => if a.line == l.id then n else 0) == if HasLine(lines, a.line) then n else 0
  {
    if HasLine(lines, a.line) {
      var i :| 0 <= i < |lines| && lines[i].id == a.line;
      forall j | 0 <= j < |lines| && j != i ensures lines[j].id != a.line {
        if j < i { assert lines[j].id < lines[i].id; } else { assert lines[i].id < lines[j].id; }
      }
      SumPick(lines, i, (l: Line) => if a.line == l.id then n else 0);
    } else {
      SumZero(lines, (l: Line) => if a.line == l.id then n else 0);
    }
  }

  /** What a confirmed allocation adds to one line. */
  function ToLine(payments: seq<Payment>, l: Line, a: Allocation): int {
    if a.line == l.id && IsConfirmed(payments, a.payment) then a.amount else 0
  }

  function LinePaidOf(db: Db): Line -> int {
    (l: Line) => LinePaid(db.payments, db.allocations, l.id)
  }

  /** A bill's stored amount paid is the sum of what is paid on its own lines. */
  lemma PaidIsSumOverOwnLines(db: Db, b: nat)
    requires Inv(db) && b < |db.bills|
    ensures db.bills[b].paid == Sum(db.bills[b].lines, LinePaidOf(db))
  {
    var lines := db.bills[b].lines;
    assert BillOk(db.bills[b]);
    var h := (l: Line, a: Allocation) => ToLine(db.payments, l, a);
    var perRow := (a: Allocation) => Sum(lines, Column(h, a));
    forall l | l in lines ensures LinePaidOf(db)(l) == Sum(db.allocations, Row(h, l)) {
      SumSame(db.allocations, Row(h, l),
              (a: Allocation) => if a.line == l.id && IsConfirmed(db.payments, a.payment) then a.amount else 0);
    }
    SumSwap(lines, db.allocations, h, LinePaidOf(db), perRow);
    forall a | a in db.allocations ensures perRow(a) == OnBill(db.payments, b)(a) {
      RowIsOnItsBill(db, b, a);
      var n := if IsConfirmed(db.payments, a.payment) then a.amount else 0;
      LinesShareAllocation(lines, a, n);
      SumSame(lines, Column(h, a), (l: Line) => if a.line == l.id then n else 0);
    }
    SumSame(db.allocations, perRow, OnBill(db.payments, b));
    SumSame(db.allocations, OnBill(db.payments, b), (a: Allocation) =>
      if IsConfirmed(db.payments, a.payment) && db.payments[a.payment].bill == b then a.amount else 0);
  }

  /** An allocation sits on a line of bill `b` exactly when its payment is to bill `b`. */
  lemma RowIsOnItsBill(db: Db, b: nat, a: Allocation)
    requires Inv(db) && b < |db.bills| && a in db.allocations
    ensures a.payment < |db.payments|
    ensures HasLine(db.bills[b].lines, a.line) <==> db.payments[a.payment].bill == b
  {
    var i :| 0 <= i < |db.allocations| && db.allocations[i] == a;
    assert AllocationOk(db, db.allocations[i]);
    var c := db.payments[a.payment].bill;
    var j :| 0 <= j < |db.bills[c].lines| && db.bills[c].lines[j].id == a.line;
    assert BillLinked(db, c) && LineLinked(db, c, db.bills[c].lines[j]);
    if HasLine(db.bills[b].lines, a.line) {
      var k :| 0 <= k < |db.bills[b].lines| && db.bills[b].lines[k].id == a.line;
      assert BillLinked(db, b) && LineLinked(db, b, db.bills[b].lines[k]);
    }
  }

  lemma CreditIsNeverNegative(db: Db, y: nat)
    requires Inv(db) && y < |db.credit|
    ensures db.credit[y] == Unallocated(db, y) >= 0
  {
    forall i | 0 <= i < |db.payments| ensures LeftoverFor(db.bills, db.allocations, y, db.payments[i]) >= 0 {
      assert PaymentOk(db, i);
    }
    SumNonNegative(db.payments, (p: Payment) => LeftoverFor(db.bills, db.allocations, y, p));
  }

  /** The books after any run: each bill's amount paid is what its own lines show paid, each payer's credit is the
      unallocated part of their confirmed payments and never negative, and all confirmed money is on a bill or in
      credit. */
  lemma BooksBalance(payers: nat, moves: seq<Move>)
    ensures var db := Run(Empty(payers), moves);
            && (forall b | 0 <= b < |db.bills| :: db.bills[b].paid == Sum(db.bills[b].lines, LinePaidOf(db)))
            && (forall y | 0 <= y < |db.credit| :: db.credit[y] == Unallocated(db, y) >= 0)
            && Sum(db.payments, ConfirmedAmount) == Sum(db.bills, PaidOf) + Sum(db.credit, Itself)
  {
    EveryRunKeepsInv(payers, moves);
    var db := Run(Empty(payers), moves);
    forall b | 0 <= b < |db.bills| ensures db.bills[b].paid == Sum(db.bills[b].lines, LinePaidOf(db)) {
      PaidIsSumOverOwnLines(db, b);
    }
    forall y | 0 <= y < |db.credit| ensures db.credit[y] == Unallocated(db, y) >= 0 {
      CreditIsNeverNegative(db, y);
    }
  }

  /** After any run: a bill that is not terminal is PAID exactly when it is covered and for something; otherwise OVERDUE
      exactly when its last write came after its due day, and PART_PAID or ISSUED by whether anything is paid. Each line is
      current plus arrears with neither negative, totals are sums over lines, and payments walk the lines in creation
      order. */
  lemma BillsAreConsistent(payers: nat, moves: seq<Move>, b: nat)
    requires b < |Run(Empty(payers), moves).bills|
    ensures var bill := Run(Empty(payers), moves).bills[b];
            && (bill.status != Cancelled && bill.status != Superseded ==>
                  var covered, late := bill.paid >= bill.total > 0, bill.dueOn < bill.updatedOn;
                  && (bill.status == BillStatus.Paid <==> covered)
                  && (bill.status == Overdue <==> !covered && late)
                  && (bill.status == PartPaid <==> !covered && !late && bill.paid > 0)
                  && (bill.status == BillStatus.Issued <==> !covered && !late && bill.paid <= 0))
            && (forall l | l in bill.lines :: l.amount == l.current + l.arrears && l.current >= 0 && l.arrears >= 0)
            && bill.total == Sum(bill.lines, AmountOf) && bill.arrears == Sum(bill.lines, ArrearsOf)
            && Walk(bill.lines) == bill.lines
  {
    EveryRunKeepsInv(payers, moves);
    var bill := Run(Empty(payers), moves).bills[b];
    assert BillOk(bill);
    WalkIsCreationOrder(bill.lines);
    forall l | l in bill.lines ensures LineOk(l) {
      var i :| 0 <= i < |bill.lines| && bill.lines[i] == l;
      assert LineOk(bill.lines[i]);
    }
  }

  // ---- one payment, line by line ----

  function OnLineIn(payments: seq<Payment>, line: nat): Allocation -> int {
    (a: Allocation) => if a.line == line && IsConfirmed(payments, a.payment) then a.amount else 0
  }

  lemma LinePaidIs(payments: seq<Payment>, allocations: seq<Allocation>, line: nat)
    ensures LinePaid(payments, allocations, line) == Sum(allocations, OnLineIn(payments, line))
  {
    SumSame(allocations, OnLineIn(payments, line),
            (a: Allocation) => if a.line == line && IsConfirmed(payments, a.payment) then a.amount else 0);
  }

  /** A payment with no allocations yet changes no line. */
  lemma LinePaidIgnoresNewPayment(db: Db, p: Payment, line: nat)
    requires PaymentsOk(db)
    ensures LinePaid(db.payments + [p], db.allocations, line) == LinePaid(db.payments, db.allocations, line)
  {
    forall i | 0 <= i < |db.allocations| ensures db.allocations[i].payment < |db.payments| {
      assert AllocationOk(db, db.allocations[i]);
    }
    LinePaidIs(db.payments + [p], db.allocations, line);
    LinePaidIs(db.payments, db.allocations, line);
    SumSame(db.allocations, OnLineIn(db.payments + [p], line), OnLineIn(db.payments, line));
  }

  /** What each line of bill `b` still owes, oldest first. */
  function OutsOn(db: Db, b: nat): seq<int>
    requires b < |db.bills|
  {
    Outs(db.bills[b].lines, db.payments, db.allocations)
  }

  lemma OutsIgnoreNewPayment(db: Db, t: Tender, today: int)
    requires Inv(db) && t.bill < |db.bills|
    ensures Outs(Walk(db.bills[t.bill].lines), db.payments + [NewPayment(db, t, today)], db.allocations) == OutsOn(db, t.bill)
    ensures AppliedOf(db, t, today) == Min(t.amount, Owed(OutsOn(db, t.bill), |OutsOn(db, t.bill)|))
  {
    hide LinePaid, Owed, Insert, LinksOk, AssessmentsOk, PaidOk, CreditOk, Balanced, TotalsOk, StatusOk, CaseOk;
    var lines := db.bills[t.bill].lines;
    assert BillOk(db.bills[t.bill]);
    WalkIsCreationOrder(lines);
    var p := NewPayment(db, t, today);
    forall i | 0 <= i < |lines|
      ensures LinePaid(db.payments + [p], db.allocations, lines[i].id) == LinePaid(db.payments, db.allocations, lines[i].id) {
      LinePaidIgnoresNewPayment(db, p, lines[i].id);
    }
    assert Outs(lines, db.payments + [p], db.allocations) == Outs(lines, db.payments, db.allocations);
  }

  function PaidTo(db: Db, id: nat): int {
    LinePaid(db.payments, db.allocations, id)
  }

  function IndexOf(lines: seq<Line>, id: nat): (r: Option<nat>)
    ensures r.Some? ==> r.value < |lines| && lines[r.value].id == id
    ensures r.None? <==> !HasLine(lines, id)
  {
    if lines == [] then None
    else if lines[|lines| - 1].id == id then assert HasLine(lines, id); Some(|lines| - 1)
    else
      assert HasLine(lines[..|lines| - 1], id) <==> HasLine(lines, id) by {
        if HasLine(lines, id) {
          var i :| 0 <= i < |lines| && lines[i].id == id;
          assert lines[..|lines| - 1][i].id == id;
        }
        if HasLine(lines[..|lines| - 1], id) {
          var i :| 0 <= i < |lines| - 1 && lines[..|lines| - 1][i].id == id;
          assert lines[i].id == id;
        }
      }
      IndexOf(lines[..|lines| - 1], id)
  }

  /** What line `id` receives from a payment: min(what it owes, what the lines before it leave); nothing if it is on
      another bill. */
  function Share(lines: seq<Line>, outs: seq<int>, amount: int, id: nat): int
    requires |lines| == |outs|
  {
    var j := IndexOf(lines, id);
    if j.Some? then Take(outs, amount, j.value) else 0
  }

  lemma RowsPayShares(lines: seq<Line>, outs: seq<int>, amount: int, p: nat, id: nat)
    requires |lines| == |outs| && Ordered(lines) && amount >= 0
    ensures Sum(Rows(Ids(lines), outs, amount, p, |lines|), OnLine(id)) == Share(lines, outs, amount, id)
  {
    assert Distinct(Ids(lines));
    RowsOnLine(Ids(lines), outs, amount, p, |lines|, id);
    var j := IndexOf(lines, id);
    if j.Some? {
      assert Ids(lines)[j.value] == id;
    } else {
      forall i | 0 <= i < |lines| ensures Ids(lines)[i] != id {
        assert lines[i].id != id;
      }
    }
  }

  /** Posting pays each line its share and nothing else: oldest line first, the closed form on every line at once. */
  lemma PostPaysOldestFirst(db: Db, t: Tender, today: int, id: nat)
    requires Inv(db) && Callable(db, PostPayment(t))
    ensures PaidTo(PostAccepted(db, t, today), id)
            == PaidTo(db, id) + Share(db.bills[t.bill].lines, OutsOn(db, t.bill), t.amount, id)
  {
    var lines := db.bills[t.bill].lines;
    var p := NewPayment(db, t, today);
    var payments, rows := db.payments + [p], RowsOf(db, t, today);
    assert LinesOk(lines) by { assert BillOk(db.bills[t.bill]); }
    WalkIsCreationOrder(lines);
    OutsIgnoreNewPayment(db, t, today);
    assert rows == Rows(Ids(lines), OutsOn(db, t.bill), t.amount, |db.payments|, |lines|);
    RowsPayShares(lines, OutsOn(db, t.bill), t.amount, |db.payments|, id);
    NewRowsPay(db, t, today, id);
  }

  /** What is paid on a line grows by the payment's rows on it. */
  lemma NewRowsPay(db: Db, t: Tender, today: int, id: nat)
    requires PaymentsOk(db) && t.bill < |db.bills| && LinesOk(db.bills[t.bill].lines) && t.amount > 0
    ensures LinePaid(db.payments + [NewPayment(db, t, today)], db.allocations + RowsOf(db, t, today), id)
            == PaidTo(db, id) + Sum(RowsOf(db, t, today), OnLine(id))
  {
    var p := NewPayment(db, t, today);
    var payments, rows := db.payments + [p], RowsOf(db, t, today);
    RowsOfPayment(db, t, today);
    LinePaidIgnoresNewPayment(db, p, id);
    LinePaidIs(payments, db.allocations, id);
    LinePaidIs(payments, db.allocations + rows, id);
    SumConcat(db.allocations, rows, OnLineIn(payments, id));
    SumSame(rows, OnLineIn(payments, id), OnLine(id));
  }

  /** What the bill's lines owe after a payment. */
  lemma OutsAfterPost(db: Db, t: Tender, today: int)
    requires Inv(db) && Callable(db, PostPayment(t))
    ensures PostAccepted(db, t, today).bills[t.bill].lines == db.bills[t.bill].lines
    ensures OutsOn(PostAccepted(db, t, today), t.bill) == After(OutsOn(db, t.bill), t.amount)
  {
    var after := PostAccepted(db, t, today);
    var lines := db.bills[t.bill].lines;
    assert LinesOk(lines) by { assert BillOk(db.bills[t.bill]); }
    forall j | 0 <= j < |lines| ensures OutsOn(after, t.bill)[j] == After(OutsOn(db, t.bill), t.amount)[j] {
      PostPaysOldestFirst(db, t, today, lines[j].id);
      var k := IndexOf(lines, lines[j].id).value;
      assert k == j;
    }
  }

  /** No line is paid past its amount by posting, and a payment leaves credit only when every line is then full. */
  lemma PostNeverOverpaysALine(db: Db, t: Tender, today: int, j: nat)
    requires Inv(db) && Callable(db, PostPayment(t)) && j < |db.bills[t.bill].lines|
    ensures OutsOn(db, t.bill)[j] >= 0 ==> OutsOn(PostAccepted(db, t, today), t.bill)[j] >= 0
    ensures AppliedOf(db, t, today) < t.amount ==> OutsOn(PostAccepted(db, t, today), t.bill)[j] <= 0
  {
    OutsAfterPost(db, t, today);
    OutsIgnoreNewPayment(db, t, today);
    TakeNeverOverpays(OutsOn(db, t.bill), t.amount, j);
  }

  // ---- splitting a payment ----

  /** Two ledgers nobody can tell apart by bills, credit or what each line has been paid. */
  ghost predicate SameMoney(x: Db, y: Db) {
    x.bills == y.bills && x.credit == y.credit && forall id: nat :: PaidTo(x, id) == PaidTo(y, id)
  }

  lemma PostedTwice(bills: seq<Bill>, b: nat, a: int, c: int, today: int)
    requires b < |bills| && !Terminal(bills[b].status) && a >= 0 && c >= 0
    ensures PostBill(PostBill(bills, b, a, today), b, c, today) == PostBill(bills, b, a + c, today)
  {
    var once := Credited(bills[b], a, today);
    assert Credited(once, c, today) == Credited(bills[b], a + c, today);
  }

  lemma CreditedTwice(credit: seq<int>, y: nat, a: int, c: int)
    requires y < |credit|
    ensures AddCredit(AddCredit(credit, y, a), y, c) == AddCredit(credit, y, a + c)
  {
  }

  lemma AppliedSplits(db: Db, t1: Tender, t2: Tender, today: int)
    requires Inv(db) && Callable(db, PostPayment(t1)) && t2.bill == t1.bill && t2.amount > 0
    requires !Terminal(db.bills[t1.bill].status)
    ensures Inv(PostAccepted(db, t1, today))
    ensures AppliedOf(db, t1.(amount := t1.amount + t2.amount), today)
            == AppliedOf(db, t1, today) + AppliedOf(PostAccepted(db, t1, today), t2, today)
  {
    hide Inv, AllRows, AppliedOf, OutsOn, Owed, After;
    var outs := OutsOn(db, t1.bill);
    PostKeepsInv(db, t1, today);
    OutsAfterPost(db, t1, today);
    OutsIgnoreNewPayment(db, t1, today);
    OutsIgnoreNewPayment(db, t1.(amount := t1.amount + t2.amount), today);
    OutsIgnoreNewPayment(PostAccepted(db, t1, today), t2, today);
    OwedAfter(outs, t1.amount, |outs|);
    OwedRises(outs, 0, |outs|);
  }

  lemma SplitApplied(db: Db, t1: Tender, t2: Tender, t: Tender, today: int)
    requires Inv(db) && Callable(db, PostPayment(t1)) && !Terminal(db.bills[t1.bill].status)
    requires t2.bill == t1.bill == t.bill && t2.amount > 0 && t.amount == t1.amount + t2.amount
    ensures AppliedOf(db, t1, today) >= 0 && AppliedOf(PostAccepted(db, t1, today), t2, today) >= 0
    ensures AppliedOf(db, t, today) == AppliedOf(db, t1, today) + AppliedOf(PostAccepted(db, t1, today), t2, today)
  {
    AppliedSplits(db, t1, t2, today);
    OutsIgnoreNewPayment(db, t, today);
    OutsIgnoreNewPayment(db, t1.(amount := t1.amount + t2.amount), today);
    AppliedBounds(db, t1, today);
    AppliedBounds(PostAccepted(db, t1, today), t2, today);
  }

  lemma SplitBills(db: Db, t1: Tender, t2: Tender, t: Tender, today: int)
    requires Inv(db) && Callable(db, PostPayment(t1)) && !Terminal(db.bills[t1.bill].status)
    requires t2.bill == t1.bill == t.bill && t2.amount > 0 && t.amount == t1.amount + t2.amount
    ensures PostAccepted(PostAccepted(db, t1, today), t2, today).bills == PostAccepted(db, t, today).bills
  {
    hide Inv, AppliedOf, AllRows, PostBill;
    SplitApplied(db, t1, t2, t, today);
    PostedTwice(db.bills, t.bill, AppliedOf(db, t1, today), AppliedOf(PostAccepted(db, t1, today), t2, today), today);
  }

  lemma CreditOfTwo(db: Db, t1: Tender, t2: Tender, t: Tender, today: int)
    requires t.bill < |db.bills| && db.bills[t.bill].payer < |db.credit|
    requires t2.bill == t1.bill == t.bill && t.amount == t1.amount + t2.amount
    requires AppliedOf(db, t, today) == AppliedOf(db, t1, today) + AppliedOf(PostAccepted(db, t1, today), t2, today)
    ensures PostAccepted(PostAccepted(db, t1, today), t2, today).credit == PostAccepted(db, t, today).credit
  {
    hide AppliedOf, AllRows, AddCredit, PostBill;
    var x := PostAccepted(db, t1, today);
    CreditedTwice(db.credit, db.bills[t.bill].payer, t1.amount - AppliedOf(db, t1, today), t2.amount - AppliedOf(x, t2, today));
  }

  lemma SplitCredit(db: Db, t1: Tender, t2: Tender, t: Tender, today: int)
    requires Inv(db) && Callable(db, PostPayment(t1)) && !Terminal(db.bills[t1.bill].status)
    requires t2.bill == t1.bill == t.bill && t2.amount > 0 && t.amount == t1.amount + t2.amount
    ensures PostAccepted(PostAccepted(db, t1, today), t2, today).credit == PostAccepted(db, t, today).credit
  {
    SplitApplied(db, t1, t2, t, today);
    CreditOfTwo(db, t1, t2, t, today);
  }

  lemma ShareSplits(lines: seq<Line>, outs: seq<int>, a: int, b: int, id: nat)
    requires |lines| == |outs| && a >= 0 && b >= 0
    ensures Share(lines, outs, a + b, id) == Share(lines, outs, a, id) + Share(lines, After(outs, a), b, id)
  {
    var j := IndexOf(lines, id);
    if j.Some? { TakeSplits(outs, a, b, j.value); }
  }

  lemma SplitLine(db: Db, t1: Tender, t2: Tender, t: Tender, today: int, id: nat)
    requires Inv(db) && Callable(db, PostPayment(t1)) && Inv(PostAccepted(db, t1, today))
    requires t2.bill == t1.bill == t.bill && t2.amount > 0 && t.amount == t1.amount + t2.amount
    ensures PaidTo(PostAccepted(PostAccepted(db, t1, today), t2, today), id) == PaidTo(PostAccepted(db, t, today), id)
  {
    hide Inv, PostAccepted, AppliedOf, AllRows, PaidTo, Share, After;
    OutsAfterPost(db, t1, today);
    PostPaysOldestFirst(db, t1, today, id);
    PostPaysOldestFirst(PostAccepted(db, t1, today), t2, today, id);
    PostPaysOldestFirst(db, t, today, id);
    ShareSplits(db.bills[t.bill].lines, OutsOn(db, t.bill), t1.amount, t2.amount, id);
  }

  /** Posting a then b leaves every line, bill and credit balance as posting a + b does. */
  lemma SplittingAPaymentChangesNothing(db: Db, t1: Tender, t2: Tender, t: Tender, today: int)
    requires Inv(db) && Callable(db, PostPayment(t1)) && !Terminal(db.bills[t1.bill].status)
    requires t2.bill == t1.bill == t.bill && t2.amount > 0 && t.amount == t1.amount + t2.amount
    ensures SameMoney(PostAccepted(PostAccepted(db, t1, today), t2, today), PostAccepted(db, t, today))
  {
    SplitBills(db, t1, t2, t, today);
    SplitCredit(db, t1, t2, t, today);
    AppliedSplits(db, t1, t2, today);
    forall id: nat ensures PaidTo(PostAccepted(PostAccepted(db, t1, today), t2, today), id) == PaidTo(PostAccepted(db, t, today), id) {
      SplitLine(db, t1, t2, t, today, id);
    }
  }

  lemma AppliedBounds(db: Db, t: Tender, today: int)
    requires Inv(db) && Callable(db, PostPayment(t))
    ensures 0 <= AppliedOf(db, t, today) <= t.amount
  {
    assert BillOk(db.bills[t.bill]);
    RowsOfPayment(db, t, today);
  }

  /** Posting equal tenders to ledgers with the same money leaves the same money, whatever the channel and
      reference. */
  lemma PostRespectsSameMoney(x: Db, y: Db, t: Tender, u: Tender, today: int)
    requires Inv(x) && Inv(y) && SameMoney(x, y) && Callable(x, PostPayment(t))
    requires u.bill == t.bill && u.amount == t.amount
    ensures SameMoney(PostAccepted(x, t, today), PostAccepted(y, u, today))
  {
    var lines := x.bills[t.bill].lines;
    assert OutsOn(x, t.bill) == OutsOn(y, t.bill) by {
      forall i | 0 <= i < |lines| ensures OutsOn(x, t.bill)[i] == OutsOn(y, t.bill)[i] {
        assert PaidTo(x, lines[i].id) == PaidTo(y, lines[i].id);
      }
    }
    forall id: nat ensures PaidTo(PostAccepted(x, t, today), id) == PaidTo(PostAccepted(y, u, today), id) {
      PostPaysOldestFirst(x, t, today, id);
      PostPaysOldestFirst(y, u, today, id);
    }
    PostRespectsBills(x, y, t, u, today);
  }

  lemma PostRespectsBills(x: Db, y: Db, t: Tender, u: Tender, today: int)
    requires Inv(x) && Inv(y) && x.bills == y.bills && x.credit == y.credit && Callable(x, PostPayment(t))
    requires u.bill == t.bill && u.amount == t.amount && OutsOn(x, t.bill) == OutsOn(y, t.bill)
    ensures PostAccepted(x, t, today).bills == PostAccepted(y, u, today).bills
    ensures PostAccepted(x, t, today).credit == PostAccepted(y, u, today).credit
  {
    hide Inv, OutsOn, Owed, AllRows, Credited;
    OutsIgnoreNewPayment(x, t, today);
    OutsIgnoreNewPayment(y, u, today);
  }

  function TenderAmount(t: Tender): int { t.amount }

  /** Posts the tenders in turn, without the reference check. */
  function PostAll(db: Db, ts: seq<Tender>, bill: nat, today: int): (after: Db)
    requires bill < |db.bills| && db.bills[bill].payer < |db.credit|
    requires forall i | 0 <= i < |ts| :: ts[i].bill == bill
    ensures |after.bills| == |db.bills| && |after.credit| == |db.credit|
    ensures after.bills[bill].payer == db.bills[bill].payer
    ensures !Terminal(db.bills[bill].status) ==> !Terminal(after.bills[bill].status)
  {
    if ts == [] then db else PostAccepted(PostAll(db, ts[..|ts| - 1], bill, today), ts[|ts| - 1], today)
  }

  /** Only the sum of a list of payments matters. */
  lemma {:induction false} OnlyTheSumMatters(db: Db, ts: seq<Tender>, t: Tender, today: int)
    requires Inv(db) && Callable(db, PostPayment(t)) && !Terminal(db.bills[t.bill].status)
    requires ts != [] && forall i | 0 <= i < |ts| :: ts[i].bill == t.bill && ts[i].amount > 0
    requires t.amount == Sum(ts, TenderAmount)
    ensures Inv(PostAll(db, ts, t.bill, today))
    ensures SameMoney(PostAll(db, ts, t.bill, today), PostAccepted(db, t, today))
  {
    var n := |ts| - 1;
    var init, last := ts[..n], ts[n];
    if n == 0 {
      assert PostAll(db, init, t.bill, today) == db;
      PostKeepsInv(db, last, today);
      PostRespectsSameMoney(db, db, last, t, today);
    } else {
      assert Sum(init, TenderAmount) > 0 by { SumOfPositives(init); }
      var t' := t.(amount := Sum(init, TenderAmount));
      OnlyTheSumMatters(db, init, t', today);
      var x, y := PostAll(db, init, t.bill, today), PostAccepted(db, t', today);
      PostKeepsInv(x, last, today);
      PostKeepsInv(db, t', today);
      PostRespectsSameMoney(x, y, last, last, today);
      SplittingAPaymentChangesNothing(db, t', last, t, today);
    }
  }

  lemma {:induction false} SumOfPositives(ts: seq<Tender>)
    requires ts != [] && forall i | 0 <= i < |ts| :: ts[i].amount > 0
    ensures Sum(ts, TenderAmount) > 0
  {
    if |ts| > 1 { SumOfPositives(ts[..|ts| - 1]); }
  }

  // ---- reversing ----

  /** What payment `p` put on a line. */
  function PutOn(allocations: seq<Allocation>, p: nat, line: nat): int {
    Sum(allocations, (a: Allocation) => if a.line == line && a.payment == p then a.amount else 0)
  }

  /** Whenever it happens, a reversal takes off exactly what its payment put on each line, its bill and its payer's
      credit, rewrites no history, and cannot be repeated. */
  lemma ReversalIsExact(db: Db, p: nat, today: int, id: nat)
    requires Inv(db) && Callable(db, ReversePayment(p)) && db.payments[p].status == Confirmed
    ensures var after := ReverseConfirmed(db, p, today);
            var b := db.payments[p].bill;
            var y := db.bills[b].payer;
            && LinePaid(after.payments, after.allocations, id) == LinePaid(db.payments, db.allocations, id) - PutOn(db.allocations, p, id)
            && after.bills[b].paid == db.bills[b].paid - Applied(db.allocations, p)
            && after.credit == db.credit[y := db.credit[y] - (db.payments[p].amount - Applied(db.allocations, p))]
            && after.credit[y] >= 0
            && after.allocations == db.allocations
            && after.payments == db.payments[p := db.payments[p].(status := Reversed)]
            && (forall c | 0 <= c < |db.bills| && c != b :: after.bills[c] == db.bills[c])
            && Reverse(after, p, today).Err?
  {
    hide LinePaid, Applied, PutOn, DeriveStatus;
    assert PaymentOk(db, p);
    ReversalNeverFloors(db, p);
    var after := ReverseConfirmed(db, p, today);
    ReverseKeepsRows(db, p, today);
    ReverseKeepsMoney(db, p, today);
    CreditIsNeverNegative(after, db.bills[db.payments[p].bill].payer);
    ReversalTakesItsRowsOff(db, p, today, id);
  }

  lemma ReversalTakesItsRowsOff(db: Db, p: nat, today: int, id: nat)
    requires Callable(db, ReversePayment(p)) && db.payments[p].status == Confirmed
    ensures var after := ReverseConfirmed(db, p, today);
            LinePaid(after.payments, after.allocations, id) == LinePaid(db.payments, db.allocations, id) - PutOn(db.allocations, p, id)
  {
    hide Applied, Recompute;
    var after := ReverseConfirmed(db, p, today);
    var own := (a: Allocation) => if a.line == id && a.payment == p then a.amount else 0;
    LinePaidIs(db.payments, db.allocations, id);
    LinePaidIs(after.payments, db.allocations, id);
    SumAdd(db.allocations, OnLineIn(after.payments, id), own, OnLineIn(db.payments, id));
  }

  /** The reversal of the payment `t` just posted. */
  function Undone(db: Db, t: Tender, today: int): Db
    requires t.bill < |db.bills| && db.bills[t.bill].payer < |db.credit|
  {
    ReverseConfirmed(PostAccepted(db, t, today), |db.payments|, today)
  }

  lemma LineRestored(db: Db, t: Tender, today: int, id: nat)
    requires Inv(db) && Callable(db, PostPayment(t))
    ensures PaidTo(Undone(db, t, today), id) == PaidTo(db, id)
  {
    var reversed := NewPayment(db, t, today).(status := Reversed);
    var payments, rows := db.payments + [reversed], RowsOf(db, t, today);
    assert (db.payments + [NewPayment(db, t, today)])[|db.payments| := reversed] == payments;
    assert LinesOk(db.bills[t.bill].lines) by { assert BillOk(db.bills[t.bill]); }
    RowsOfPayment(db, t, today);
    LinePaidIgnoresNewPayment(db, reversed, id);
    LinePaidIs(payments, db.allocations, id);
    LinePaidIs(payments, db.allocations + rows, id);
    SumConcat(db.allocations, rows, OnLineIn(payments, id));
    SumZero(rows, OnLineIn(payments, id));
  }

  lemma BillRestored(b: Bill, applied: int, today: int)
    requires !Terminal(b.status) && applied >= 0
    ensures var back := Recompute(Credited(b, applied, today).(paid := b.paid), today);
            && back.(debtCase := b.debtCase) == Recompute(b, today)
            && (Credited(b, applied, today).status != BillStatus.Paid ==> back.debtCase == b.debtCase)
  {
  }

  lemma PaidIsNeverNegative(db: Db, b: nat)
    requires Inv(db) && b < |db.bills|
    ensures db.bills[b].paid >= 0
  {
    forall i | 0 <= i < |db.allocations| ensures db.allocations[i].amount > 0 {
      assert AllocationOk(db, db.allocations[i]);
    }
    SumNonNegative(db.allocations, (a: Allocation) =>
      if IsConfirmed(db.payments, a.payment) && db.payments[a.payment].bill == b then a.amount else 0);
  }

  /** The rows of the payment just posted are all that it applied. */
  lemma AppliedByNewPayment(db: Db, t: Tender, today: int)
    requires Inv(db) && Callable(db, PostPayment(t))
    ensures Applied(PostAccepted(db, t, today).allocations, |db.payments|) == AppliedOf(db, t, today)
    ensures 0 <= AppliedOf(db, t, today) <= t.amount
  {
    assert LinesOk(db.bills[t.bill].lines) by { assert BillOk(db.bills[t.bill]); }
    AppliedAfterPost(db, t, today, |db.payments|);
    AppliedBounds(db, t, today);
  }

  lemma CreditRestored(db: Db, t: Tender, today: int)
    requires t.bill < |db.bills| && db.bills[t.bill].payer < |db.credit|
    requires Applied(PostAccepted(db, t, today).allocations, |db.payments|) == AppliedOf(db, t, today) <= t.amount
    ensures Undone(db, t, today).credit == db.credit
  {
    hide AppliedOf, Applied, AllRows, PostBill, Recompute;
    CreditedTwice(db.credit, db.bills[t.bill].payer, t.amount - AppliedOf(db, t, today), AppliedOf(db, t, today) - t.amount);
  }

  lemma BillsRestored(db: Db, t: Tender, today: int)
    requires t.bill < |db.bills| && db.bills[t.bill].payer < |db.credit| && db.bills[t.bill].paid >= 0
    requires Applied(PostAccepted(db, t, today).allocations, |db.payments|) == AppliedOf(db, t, today)
    ensures Undone(db, t, today).bills
            == db.bills[t.bill := Recompute(PostAccepted(db, t, today).bills[t.bill].(paid := db.bills[t.bill].paid), today)]
  {
    hide AppliedOf, Applied, AllRows, AddCredit, DeriveStatus;
  }

  /** Posting and then reversing restores every line, the amount paid, the credit and the status of the day; the one
      trace on the bill is that a debt case the payment closed stays closed. */
  lemma PostThenReverseRestores(db: Db, t: Tender, today: int)
    requires Inv(db) && Callable(db, PostPayment(t)) && !Terminal(db.bills[t.bill].status)
    ensures var after := Undone(db, t, today);
            && (forall id: nat :: PaidTo(after, id) == PaidTo(db, id))
            && after.credit == db.credit
            && after.bills[t.bill].paid == db.bills[t.bill].paid
            && after.bills[t.bill].(debtCase := db.bills[t.bill].debtCase) == Recompute(db.bills[t.bill], today)
            && (PostAccepted(db, t, today).bills[t.bill].status != BillStatus.Paid ==>
                  after.bills[t.bill].debtCase == db.bills[t.bill].debtCase)
            && (forall c | 0 <= c < |db.bills| && c != t.bill :: after.bills[c] == db.bills[c])
  {
    forall id: nat ensures PaidTo(Undone(db, t, today), id) == PaidTo(db, id) {
      LineRestored(db, t, today, id);
    }
    AppliedByNewPayment(db, t, today);
    PaidIsNeverNegative(db, t.bill);
    CreditRestored(db, t, today);
    BillsRestored(db, t, today);
    BillRestored(db.bills[t.bill], AppliedOf(db, t, today), today);
  }

  // ---- reversing after later payments ----

  datatype Dated = Dated(tender: Tender, day: int)

  function DatedAmount(d: Dated): int { d.tender.amount }

  /** Posts the bill's payments in turn, each on its own day, without the reference check. */
  function PostDated(db: Db, ts: seq<Dated>, bill: nat): (after: Db)
    requires bill < |db.bills| && db.bills[bill].payer < |db.credit|
    requires forall i | 0 <= i < |ts| :: ts[i].tender.bill == bill
    ensures |after.bills| == |db.bills| && |after.credit| == |db.credit|
    ensures after.bills[bill].payer == db.bills[bill].payer
  {
    if ts == [] then db
    else PostAccepted(PostDated(db, ts[..|ts| - 1], bill), ts[|ts| - 1].tender, ts[|ts| - 1].day)
  }

  function OwedOnBill(db: Db, b: nat): int
    requires b < |db.bills|
  {
    Owed(OutsOn(db, b), |OutsOn(db, b)|)
  }

  /** How `after` stands once payments of `sum` in all have been posted to bill `b`: as the closed form of their sum says,
      with earlier payments and their rows as they were. */
  ghost predicate Received(db: Db, after: Db, b: nat, sum: int)
    requires b < |db.bills| && b < |after.bills|
  {
    var owed := OwedOnBill(db, b);
    var applied := Min(sum, owed);
    && !Terminal(after.bills[b].status)
    && after.bills[b].payer == db.bills[b].payer < |db.credit|
    && after.bills[b].paid == db.bills[b].paid + applied
    && after.credit == AddCredit(db.credit, db.bills[b].payer, sum - applied)
    && OwedOnBill(after, b) == Pos(owed - sum)
    && |after.payments| >= |db.payments|
    && (forall p | 0 <= p < |db.payments| :: after.payments[p] == db.payments[p] && Applied(after.allocations, p) == Applied(db.allocations, p))
  }

  lemma ReceivedOne(db: Db, t: Tender, today: int)
    requires Inv(db) && Callable(db, PostPayment(t)) && !Terminal(db.bills[t.bill].status)
    ensures Inv(PostAccepted(db, t, today))
    ensures Received(db, PostAccepted(db, t, today), t.bill, t.amount)
  {
    hide Inv, OutsOn, Owed, AllRows, Applied;
    PostKeepsInv(db, t, today);
    OutsIgnoreNewPayment(db, t, today);
    OutsAfterPost(db, t, today);
    OwedAfter(OutsOn(db, t.bill), t.amount, |OutsOn(db, t.bill)|);
    forall p | 0 <= p < |db.payments| ensures Applied(PostAccepted(db, t, today).allocations, p) == Applied(db.allocations, p) {
      EarlierApplied(db, t, today, p);
    }
  }

  lemma EarlierApplied(db: Db, t: Tender, today: int, p: nat)
    requires Inv(db) && Callable(db, PostPayment(t)) && p < |db.payments|
    ensures Applied(PostAccepted(db, t, today).allocations, p) == Applied(db.allocations, p)
  {
    assert LinesOk(db.bills[t.bill].lines) by { assert BillOk(db.bills[t.bill]); }
    AppliedAfterPost(db, t, today, p);
  }

  lemma ReceivedMore(x: Db, y: Db, z: Db, b: nat, s: int, t: int)
    requires b < |x.bills| && b < |y.bills| && b < |z.bills| && s >= 0 && t >= 0 && OwedOnBill(x, b) >= 0
    requires Received(x, y, b, s) && Received(y, z, b, t)
    ensures Received(x, z, b, s + t)
  {
    hide OwedOnBill, Applied;
  }

  lemma OwedIsNotNegative(db: Db, b: nat)
    requires b < |db.bills|
    ensures OwedOnBill(db, b) >= 0
  {
    OwedRises(OutsOn(db, b), 0, |OutsOn(db, b)|);
  }

  lemma {:induction false} ReceivedAll(db: Db, ts: seq<Dated>, b: nat)
    requires Inv(db) && b < |db.bills| && db.bills[b].payer < |db.credit| && !Terminal(db.bills[b].status)
    requires forall i | 0 <= i < |ts| :: ts[i].tender.bill == b && ts[i].tender.amount > 0
    ensures Inv(PostDated(db, ts, b)) && Sum(ts, DatedAmount) >= 0
    ensures Received(db, PostDated(db, ts, b), b, Sum(ts, DatedAmount))
  {
    hide Inv, OwedOnBill, PostAccepted, Applied;
    OwedIsNotNegative(db, b);
    if ts != [] {
      var n := |ts| - 1;
      ReceivedAll(db, ts[..n], b);
      var x := PostDated(db, ts[..n], b);
      ReceivedOne(x, ts[n].tender, ts[n].day);
      ReceivedMore(db, x, PostDated(db, ts, b), b, Sum(ts[..n], DatedAmount), ts[n].tender.amount);
    }
  }

  /** The reversal, on some day, of a payment posted before `laters`. */
  function UndoneLater(db: Db, t: Dated, laters: seq<Dated>, today: int): Db
    requires t.tender.bill < |db.bills| && db.bills[t.tender.bill].payer < |db.credit|
    requires forall i | 0 <= i < |laters| :: laters[i].tender.bill == t.tender.bill
    requires var x := PostDated(PostAccepted(db, t.tender, t.day), laters, t.tender.bill);
             |db.payments| < |x.payments| && x.payments[|db.payments|].bill == t.tender.bill
  {
    ReverseConfirmed(PostDated(PostAccepted(db, t.tender, t.day), laters, t.tender.bill), |db.payments|, today)
  }

  lemma LatersPosted(db: Db, t: Dated, laters: seq<Dated>)
    requires Inv(db) && Callable(db, PostPayment(t.tender)) && !Terminal(db.bills[t.tender.bill].status)
    requires forall i | 0 <= i < |laters| :: laters[i].tender.bill == t.tender.bill && laters[i].tender.amount > 0
    ensures Sum(laters, DatedAmount) >= 0
    ensures var x := PostDated(PostAccepted(db, t.tender, t.day), laters, t.tender.bill);
            && Received(db, x, t.tender.bill, t.tender.amount + Sum(laters, DatedAmount))
            && |db.payments| < |x.payments| && x.payments[|db.payments|] == NewPayment(db, t.tender, t.day)
            && Applied(x.allocations, |db.payments|) == Min(t.tender.amount, OwedOnBill(db, t.tender.bill))
  {
    hide Inv, OutsOn, Owed, AllRows, Applied;
    var b, x := t.tender.bill, PostAccepted(db, t.tender, t.day);
    OwedIsNotNegative(db, b);
    ReceivedOne(db, t.tender, t.day);
    ReceivedAll(x, laters, b);
    ReceivedMore(db, x, PostDated(x, laters, b), b, t.tender.amount, Sum(laters, DatedAmount));
    AppliedByNewPayment(db, t.tender, t.day);
    OutsIgnoreNewPayment(db, t.tender, t.day);
  }

  lemma ReversedIs(x: Db, p: nat, today: int)
    requires p < |x.payments| && x.payments[p].bill < |x.bills| && x.bills[x.payments[p].bill].payer < |x.credit|
    ensures var after, b, applied := ReverseConfirmed(x, p, today), x.payments[p].bill, Applied(x.allocations, p);
            && |after.bills| == |x.bills| && after.bills[b].paid == Max(x.bills[b].paid - applied, 0)
            && after.credit == AddCredit(x.credit, x.bills[b].payer, -Pos(x.payments[p].amount - applied))
  {
    hide Applied, DeriveStatus, Sum;
  }

  lemma {:induction false} LatersAreSomething(laters: seq<Dated>)
    requires forall i | 0 <= i < |laters| :: laters[i].tender.amount > 0
    ensures Sum(laters, DatedAmount) >= 0
    ensures Sum(laters, DatedAmount) == 0 <==> laters == []
  {
    if laters != [] { LatersAreSomething(laters[..|laters| - 1]); }
  }

  /** What the bill and the credit keep after the reversal: all of the later money, as far as it had landed on either. */
  lemma UndoneLaterIs(db: Db, t: Dated, laters: seq<Dated>, today: int)
    requires Inv(db) && Callable(db, PostPayment(t.tender)) && !Terminal(db.bills[t.tender.bill].status)
    requires forall i | 0 <= i < |laters| :: laters[i].tender.bill == t.tender.bill && laters[i].tender.amount > 0
    ensures var b, x := t.tender.bill, PostDated(PostAccepted(db, t.tender, t.day), laters, t.tender.bill);
            |db.payments| < |x.payments| && x.payments[|db.payments|].bill == b
    ensures var b, sum := t.tender.bill, Sum(laters, DatedAmount);
            var after, owed := UndoneLater(db, t, laters, today), OwedOnBill(db, b);
            var kept := Min(t.tender.amount + sum, owed) - Min(t.tender.amount, owed);
            && after.bills[b].paid == db.bills[b].paid + kept
            && after.credit == AddCredit(db.credit, db.bills[b].payer, sum - kept)
  {
    hide Inv, OwedOnBill, Applied, PostAccepted, PostDated, ReverseConfirmed;
    var b, x := t.tender.bill, PostDated(PostAccepted(db, t.tender, t.day), laters, t.tender.bill);
    LatersPosted(db, t, laters);
    OwedIsNotNegative(db, b);
    PaidIsNeverNegative(db, b);
    ReversedIs(x, |db.payments|, today);
    var owed, sum := OwedOnBill(db, b), Sum(laters, DatedAmount);
    CreditedTwice(db.credit, db.bills[b].payer, t.tender.amount + sum - Min(t.tender.amount + sum, owed), -(t.tender.amount - Min(t.tender.amount, owed)));
  }

  /** "As if the payment had never landed" (reverse_payment): after any later payments to the bill, on whatever days, the
      reversal leaves the amount paid and the credit of a ledger that never saw the reversed payment exactly when there
      were no later payments, the bill owed nothing to begin with, or it had room for all of them. Otherwise part of the
      later money stays in credit while the bill is short. */
  lemma ReversalIsAsIfNeverPosted(db: Db, t: Dated, laters: seq<Dated>, today: int)
    requires Inv(db) && Callable(db, PostPayment(t.tender)) && !Terminal(db.bills[t.tender.bill].status)
    requires forall i | 0 <= i < |laters| :: laters[i].tender.bill == t.tender.bill && laters[i].tender.amount > 0
    ensures var b, x := t.tender.bill, PostDated(PostAccepted(db, t.tender, t.day), laters, t.tender.bill);
            |db.payments| < |x.payments| && x.payments[|db.payments|].bill == b
    ensures var b := t.tender.bill;
            var after, without := UndoneLater(db, t, laters, today), PostDated(db, laters, b);
            after.bills[b].paid == without.bills[b].paid && after.credit == without.credit
            <==> laters == [] || OwedOnBill(db, b) == 0 || t.tender.amount + Sum(laters, DatedAmount) <= OwedOnBill(db, b)
  {
    hide Inv, OwedOnBill, Applied, PostAccepted, PostDated, ReverseConfirmed, UndoneLater;
    var b := t.tender.bill;
    UndoneLaterIs(db, t, laters, today);
    ReceivedAll(db, laters, b);
    OwedIsNotNegative(db, b);
    LatersAreSomething(laters);
  }
}
