/** The single money-in path and its only undo. */
module Payments {
  import opened Prelude
  import opened Sums
  import opened Tables
  import opened Fifo
  import Billing
  import BillingServices
  import Enforcement

  datatype Tender = Tender(bill: nat, channel: Channel, ref: string, amount: int)

  /** A non-blank bank reference funds at most one payment per channel. */
  predicate RefUsed(payments: seq<Payment>, channel: Channel, ref: string) {
    ref != "" && exists i :: 0 <= i < |payments| && payments[i].channel == channel && payments[i].ref == ref
  }

  function CloseIfPaid(b: Bill, today: int): Bill {
    if b.status == Paid then Enforcement.CloseCase(b, today) else b
  }

  /** The bill once `applied` has landed on it. */
  function Credited(b: Bill, applied: int, today: int): Bill {
    CloseIfPaid(Billing.Recompute(b.(paid := b.paid + applied), today), today)
  }

  function NewPayment(db: Db, t: Tender, today: int): Payment {
    Payment(|db.payments|, t.bill, t.channel, t.ref, t.amount, Confirmed, today)
  }

  /** What of the tender lands on the bill's lines. */
  function AppliedOf(db: Db, t: Tender, today: int): int
    requires t.bill < |db.bills|
  {
    Min(t.amount, TotalOwed(db.bills[t.bill].lines, db.payments + [NewPayment(db, t, today)], db.allocations))
  }

  function PostBill(bills: seq<Bill>, b: nat, applied: int, today: int): seq<Bill>
    requires b < |bills|
  {
    bills[b := Credited(bills[b], applied, today)]
  }

  function AddCredit(credit: seq<int>, payer: nat, leftover: int): seq<int>
    requires payer < |credit|
  {
    credit[payer := credit[payer] + leftover]
  }

  function PostAccepted(db: Db, t: Tender, today: int): (after: Db)
    requires t.bill < |db.bills| && db.bills[t.bill].payer < |db.credit|
    ensures |after.bills| == |db.bills| && |after.credit| == |db.credit|
    ensures after.bills[t.bill].payer == db.bills[t.bill].payer && after.bills[t.bill].lines == db.bills[t.bill].lines
  {
    var bill := db.bills[t.bill];
    var payments := db.payments + [NewPayment(db, t, today)];
    var applied := AppliedOf(db, t, today);
    db.(payments := payments,
        allocations := db.allocations + AllRows(bill.lines, payments, db.allocations, t.amount, |db.payments|),
        bills := PostBill(db.bills, t.bill, applied, today),
        credit := AddCredit(db.credit, bill.payer, t.amount - applied))
  }

  function Post(db: Db, t: Tender, today: int): Result<Db, Fault>
    requires t.bill < |db.bills| && db.bills[t.bill].payer < |db.credit|
  {
    if Terminal(db.bills[t.bill].status) then Err(PaymentRejected)
    else if RefUsed(db.payments, t.channel, t.ref) then Err(DuplicateReference)
    else Ok(PostAccepted(db, t, today))
  }

  function Max(a: int, b: int): int {
    if a >= b then a else b
  }

  function ReverseConfirmed(db: Db, p: nat, today: int): Db
    requires p < |db.payments| && db.payments[p].bill < |db.bills|
    requires db.bills[db.payments[p].bill].payer < |db.credit|
  {
    var payment := db.payments[p];
    var bill := db.bills[payment.bill];
    var applied := Applied(db.allocations, p);
    db.(payments := db.payments[p := payment.(status := Reversed)],
        bills := db.bills[payment.bill := Billing.Recompute(bill.(paid := Max(bill.paid - applied, 0)), today)],
        credit := AddCredit(db.credit, bill.payer, -Pos(payment.amount - applied)))
  }

  function Reverse(db: Db, p: nat, today: int): Result<Db, Fault>
    requires p < |db.payments| && db.payments[p].bill < |db.bills|
    requires db.bills[db.payments[p].bill].payer < |db.credit|
  {
    if db.payments[p].status != Confirmed then Err(PaymentRejected) else Ok(ReverseConfirmed(db, p, today))
  }

  // ---- services ----

  /** `post_payment` from the payment's row on. */
  method Collect(store: Store, t: Tender, today: int) returns (p: nat)
    requires t.bill < |store.bills| && store.bills[t.bill].payer < |store.credit| && t.amount > 0
    modifies store
    ensures store.Rows() == PostAccepted(old(store.Rows()), t, today) && p == |old(store.payments)|
  {
    hide Sum, LinePaid, Walk, AllRows, TotalOwed, Billing.Recompute, Enforcement.CloseCase;
    ghost var db := store.Rows();
    var bill := store.bills[t.bill];
    p := |store.payments|;
    store.payments := store.payments + [Payment(p, t.bill, t.channel, t.ref, t.amount, Confirmed, today)];
    var applied, leftover := AllocateFifo(store, p, t.bill);
    assert applied == AppliedOf(db, t, today);
    bill := bill.(paid := bill.paid + applied);
    store.bills := store.bills[t.bill := bill];
    BillingServices.RecomputeBill(store, t.bill, today);
    if leftover > 0 {
      store.credit := store.credit[bill.payer := store.credit[bill.payer] + leftover];
    }
    if store.bills[t.bill].status == Paid {
      Enforcement.CloseDebtCaseForBill(store, t.bill, today);
    }
    assert store.bills == db.bills[t.bill := Credited(db.bills[t.bill], applied, today)];
    assert store.credit == db.credit[bill.payer := db.credit[bill.payer] + leftover];
  }

  method PostPayment(store: Store, t: Tender, today: int) returns (r: Result<nat, Fault>)
    requires t.bill < |store.bills| && store.bills[t.bill].payer < |store.credit| && t.amount > 0
    modifies store
    ensures match Post(old(store.Rows()), t, today)
            case Ok(db) => store.Rows() == db && r == Ok(|old(store.payments)|)
            case Err(e) => store.Rows() == old(store.Rows()) && r == Err(e)
  {
    var status := store.bills[t.bill].status;
    if status == Superseded {
      return Err(PaymentRejected);
    }
    if status == Cancelled {
      return Err(PaymentRejected);
    }
    if RefUsed(store.payments, t.channel, t.ref) {
      return Err(DuplicateReference);
    }
    var p := Collect(store, t, today);
    r := Ok(p);
  }

  method ReversePayment(store: Store, p: nat, today: int) returns (r: Result<nat, Fault>)
    requires p < |store.payments| && store.payments[p].bill < |store.bills|
    requires store.bills[store.payments[p].bill].payer < |store.credit|
    modifies store
    ensures match Reverse(old(store.Rows()), p, today)
            case Ok(db) => store.Rows() == db && r == Ok(p)
            case Err(e) => store.Rows() == old(store.Rows()) && r == Err(e)
  {
    var payment := store.payments[p];
    if payment.status != Confirmed {
      return Err(PaymentRejected);
    }
    var applied := Applied(store.allocations, p);
    var leftover := payment.amount - applied;
    store.payments := store.payments[p := payment.(status := Reversed)];
    var bill := store.bills[payment.bill];
    bill := bill.(paid := Max(bill.paid - applied, 0));
    store.bills := store.bills[payment.bill := bill];
    BillingServices.RecomputeBill(store, payment.bill, today);
    if leftover > 0 {
      store.credit := store.credit[bill.payer := store.credit[bill.payer] - leftover];
    }
    r := Ok(p);
  }
}
