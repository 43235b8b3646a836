/** Commission settlements: the period's commission, its per-bill breakdown, and how far the two can drift.
    Amounts are kobo and a rate is in hundredths of a percent. */
module Settlements {
  import opened Sums
  import opened Tables

  /** `quantize(Decimal("0.01"))` on n / d, for n >= 0: nearest, ties to even. */
  function RoundHalfEven(n: nat, d: nat): nat
    requires d > 0
  {
    var q, r := n / d, n % d;
    if 2 * r < d then q
    else if 2 * r > d then q + 1
    else if q % 2 == 0 then q else q + 1
  }

  /** Rounding moves by at most half a unit, and by exactly half only to an even result. */
  lemma RoundHalfEvenIsNearest(n: nat, d: nat)
    requires d > 0
    ensures -(d as int) <= 2 * (d * RoundHalfEven(n, d) - n) <= d
    ensures 2 * (d * RoundHalfEven(n, d) - n) == d || 2 * (d * RoundHalfEven(n, d) - n) == -(d as int) ==> RoundHalfEven(n, d) % 2 == 0
  {
    var q, r := n / d, n % d;
    assert n == d * q + r;
    assert d * (q + 1) == d * q + d;
  }

  const PER_UNIT: nat := 10000

  function Commission(collected: nat, rate: nat): nat {
    RoundHalfEven(collected * rate, PER_UNIT)
  }

  predicate InPeriod(p: Payment, from: int, to: int) {
    p.status == Confirmed && from <= p.postedOn <= to
  }

  /** What counts for consultant `c`: confirmed payments in the period on bills of payers they enumerated. */
  function CountsFor(owner: nat -> nat, c: nat, from: int, to: int): Payment -> int {
    (p: Payment) => if InPeriod(p, from, to) && owner(p.bill) == c then p.amount else 0
  }

  function Gross(payments: seq<Payment>, owner: nat -> nat, c: nat, from: int, to: int): int {
    Sum(payments, CountsFor(owner, c, from, to))
  }

  function OnBillInPeriod(bill: nat, from: int, to: int): Payment -> int {
    (p: Payment) => if InPeriod(p, from, to) && p.bill == bill then p.amount else 0
  }

  function Collected(payments: seq<Payment>, bill: nat, from: int, to: int): int {
    Sum(payments, OnBillInPeriod(bill, from, to))
  }

  predicate HasPayment(payments: seq<Payment>, bill: nat, from: int, to: int) {
    exists i :: 0 <= i < |payments| && InPeriod(payments[i], from, to) && payments[i].bill == bill
  }

  datatype BillRow = BillRow(bill: nat, collected: nat, commission: nat)

  /** The bills of the consultant's payers with a payment in the period, among the first `n`. */
  function PaidBills(payments: seq<Payment>, owner: nat -> nat, c: nat, from: int, to: int, n: nat): seq<nat> {
    if n == 0 then []
    else
      var earlier := PaidBills(payments, owner, c, from, to, n - 1);
      if owner(n - 1) == c && HasPayment(payments, n - 1, from, to) then earlier + [n - 1] else earlier
  }

  ghost predicate AmountsPositive(payments: seq<Payment>) {
    forall i | 0 <= i < |payments| :: payments[i].amount > 0
  }

  lemma CollectedNonNegative(payments: seq<Payment>, bill: nat, from: int, to: int)
    requires AmountsPositive(payments)
    ensures Collected(payments, bill, from, to) >= 0
  {
    SumNonNegative(payments, OnBillInPeriod(bill, from, to));
  }

  /** `_settlement_bill_rows`: one row a paid bill, with its own rounded commission. */
  method SettlementBillRows(payments: seq<Payment>, bills: nat, owner: nat -> nat, c: nat, rate: nat, from: int, to: int)
    returns (rows: seq<BillRow>)
    requires AmountsPositive(payments)
    ensures IsBreakdown(rows, payments, bills, owner, c, rate, from, to)
  {
    rows := [];
    var b := 0;
    while b < bills
      invariant b <= bills && IsBreakdown(rows, payments, b, owner, c, rate, from, to)
    {
      if owner(b) == c && HasPayment(payments, b, from, to) {
        CollectedNonNegative(payments, b, from, to);
        var collected := Collected(payments, b, from, to);
        rows := rows + [BillRow(b, collected, Commission(collected, rate))];
      }
      b := b + 1;
    }
  }

  // ---- the breakdown adds up ----

  function CollectedOn(payments: seq<Payment>, from: int, to: int): nat -> int {
    (b: nat) => Collected(payments, b, from, to)
  }

  function OwnCollected(payments: seq<Payment>, owner: nat -> nat, c: nat, from: int, to: int): nat -> int {
    (b: nat) => if owner(b) == c then Collected(payments, b, from, to) else 0
  }

  lemma NothingCollectedWithoutPayment(payments: seq<Payment>, bill: nat, from: int, to: int)
    requires !HasPayment(payments, bill, from, to)
    ensures Collected(payments, bill, from, to) == 0
  {
    SumZero(payments, OnBillInPeriod(bill, from, to));
  }

  lemma {:induction false} ListedBillsCollectAll(payments: seq<Payment>, owner: nat -> nat, c: nat, from: int, to: int, n: nat)
    ensures Sum<nat>(PaidBills(payments, owner, c, from, to, n), CollectedOn(payments, from, to))
            == Sum<nat>(UpTo(n), OwnCollected(payments, owner, c, from, to))
  {
    if n > 0 {
      hide Collected, HasPayment;
      ListedBillsCollectAll(payments, owner, c, from, to, n - 1);
      SumPush<nat>(UpTo(n - 1), n - 1, OwnCollected(payments, owner, c, from, to));
      if owner(n - 1) == c && HasPayment(payments, n - 1, from, to) {
        SumPush<nat>(PaidBills(payments, owner, c, from, to, n - 1), n - 1, CollectedOn(payments, from, to));
      } else if owner(n - 1) == c {
        NothingCollectedWithoutPayment(payments, n - 1, from, to);
      }
    }
  }

  function Share(owner: nat -> nat, c: nat, from: int, to: int): (nat, Payment) -> int {
    (b: nat, p: Payment) => if owner(b) == c && InPeriod(p, from, to) && p.bill == b then p.amount else 0
  }

  lemma OneBillsShares(payments: seq<Payment>, owner: nat -> nat, c: nat, from: int, to: int, b: nat)
    ensures OwnCollected(payments, owner, c, from, to)(b) == Sum(payments, Row<nat, Payment>(Share(owner, c, from, to), b))
  {
    var row := Row<nat, Payment>(Share(owner, c, from, to), b);
    if owner(b) == c { SumSame(payments, OnBillInPeriod(b, from, to), row); } else { SumZero(payments, row); }
  }

  lemma OnePaymentsShare(bills: nat, owner: nat -> nat, c: nat, from: int, to: int, p: Payment)
    requires p.bill < bills
    ensures CountsFor(owner, c, from, to)(p) == Sum<nat>(UpTo(bills), Column<nat, Payment>(Share(owner, c, from, to), p))
  {
    SumPick<nat>(UpTo(bills), p.bill, Column<nat, Payment>(Share(owner, c, from, to), p));
  }

  /** Per-bill collections add up to the gross collections of the period exactly. */
  lemma BreakdownAddsUpToGross(payments: seq<Payment>, bills: nat, owner: nat -> nat, c: nat, from: int, to: int)
    requires forall i | 0 <= i < |payments| :: payments[i].bill < bills
    ensures Sum<nat>(PaidBills(payments, owner, c, from, to, bills), CollectedOn(payments, from, to)) == Gross(payments, owner, c, from, to)
  {
    hide Collected, PaidBills, Share;
    ListedBillsCollectAll(payments, owner, c, from, to, bills);
    var h := Share(owner, c, from, to);
    forall b: nat | b in UpTo(bills) ensures OwnCollected(payments, owner, c, from, to)(b) == Sum(payments, Row<nat, Payment>(h, b)) {
      OneBillsShares(payments, owner, c, from, to, b);
    }
    forall p | p in payments ensures CountsFor(owner, c, from, to)(p) == Sum<nat>(UpTo(bills), Column<nat, Payment>(h, p)) {
      OnePaymentsShare(bills, owner, c, from, to, p);
    }
    SumSwap<nat, Payment>(UpTo(bills), payments, h, OwnCollected(payments, owner, c, from, to), CountsFor(owner, c, from, to));
  }

  // ---- drift ----

  function CommissionAt(rate: nat): nat -> int {
    (collected: nat) => Commission(collected, rate)
  }

  function Amount(n: nat): int { n }

  function Scale(rate: nat): nat -> int {
    (collected: nat) => collected * rate
  }

  lemma {:induction false} RoundedSumIsClose(collected: seq<nat>, rate: nat)
    ensures -(PER_UNIT * |collected|) <= 2 * (PER_UNIT * Sum(collected, CommissionAt(rate)) - Sum(collected, Scale(rate))) <= PER_UNIT * |collected|
  {
    if collected != [] {
      var n := |collected| - 1;
      RoundedSumIsClose(collected[..n], rate);
      RoundHalfEvenIsNearest(collected[n] * rate, PER_UNIT);
    }
  }

  lemma {:induction false} ScaleDistributes(collected: seq<nat>, rate: nat)
    ensures Sum(collected, Scale(rate)) == Sum(collected, Amount) * rate
  {
    if collected != [] {
      var n := |collected| - 1;
      ScaleDistributes(collected[..n], rate);
      assert (Sum(collected[..n], Amount) + collected[n]) * rate == Sum(collected[..n], Amount) * rate + collected[n] * rate;
    }
  }

  /** The per-bill commissions differ in total from the period's commission by at most half a kobo a bill and half more. */
  lemma CommissionDriftIsBounded(collected: seq<nat>, rate: nat, gross: nat)
    requires gross == Sum(collected, Amount)
    ensures -(|collected| + 1) <= 2 * (Sum(collected, CommissionAt(rate)) - Commission(gross, rate)) <= |collected| + 1
  {
    RoundedSumIsClose(collected, rate);
    ScaleDistributes(collected, rate);
    RoundHalfEvenIsNearest(gross * rate, PER_UNIT);
  }

  function CollectedOf(r: BillRow): int { r.collected }

  function CommissionOf(r: BillRow): int { r.commission }

  /** The rows `SettlementBillRows` returns. */
  ghost predicate IsBreakdown(rows: seq<BillRow>, payments: seq<Payment>, bills: nat, owner: nat -> nat, c: nat, rate: nat, from: int, to: int) {
    && |rows| == |PaidBills(payments, owner, c, from, to, bills)|
    && forall i | 0 <= i < |rows| ::
         && rows[i].bill == PaidBills(payments, owner, c, from, to, bills)[i]
         && rows[i].collected == Collected(payments, rows[i].bill, from, to)
         && rows[i].commission == Commission(rows[i].collected, rate)
  }

  /** On the same payments the drill-down's collections sum to the settlement's gross exactly, and its commissions to the
      settlement's within (rows + 1) / 2 kobo. */
  lemma BreakdownAgreesWithSettlement(rows: seq<BillRow>, payments: seq<Payment>, bills: nat, owner: nat -> nat, k: Consultant, from: int, to: int)
    requires AmountsPositive(payments) && forall i | 0 <= i < |payments| :: payments[i].bill < bills
    requires IsBreakdown(rows, payments, bills, owner, k.id, k.rate, from, to)
    ensures Gross(payments, owner, k.id, from, to) >= 0
    ensures var s := SettlementFor(payments, owner, k, from, to);
            && Sum(rows, CollectedOf) == s.gross
            && -(|rows| + 1) <= 2 * (Sum(rows, CommissionOf) - s.commission) <= |rows| + 1
  {
    var ids := PaidBills(payments, owner, k.id, from, to, bills);
    var collected: seq<nat> := seq(|rows|, i requires 0 <= i < |rows| => rows[i].collected);
    hide Collected, PaidBills, Commission, Gross;
    GrossNonNegative(payments, owner, k.id, from, to);
    BreakdownAddsUpToGross(payments, bills, owner, k.id, from, to);
    SumAlong<BillRow, nat>(rows, ids, CollectedOf, CollectedOn(payments, from, to));
    SumAlong<BillRow, nat>(rows, collected, CollectedOf, Amount);
    SumAlong<BillRow, nat>(rows, collected, CommissionOf, CommissionAt(k.rate));
    CommissionDriftIsBounded(collected, k.rate, Gross(payments, owner, k.id, from, to));
  }

  /** The bound is reached: three bills of one kobo at fifty percent pay nothing each, two kobo together. */
  lemma DriftBoundIsReached()
    ensures Sum<nat>([1, 1, 1], CommissionAt(5000)) == 0 && Commission(3, 5000) == 2
  {
    var three: seq<nat>, two: seq<nat>, one: seq<nat> := [1, 1, 1], [1, 1], [1];
    assert three[..2] == two && two[..1] == one && one[..0] == [];
  }

  // ---- computing settlements ----

  datatype SettlementStatus = Computed | Approved | Settled | Disputed

  datatype Settlement = Settlement(gross: nat, rate: nat, commission: nat, status: SettlementStatus)

  datatype Consultant = Consultant(id: nat, rate: nat)

  datatype Period = Period(consultant: nat, from: int, to: int)

  function SettlementFor(payments: seq<Payment>, owner: nat -> nat, k: Consultant, from: int, to: int): Settlement
    requires Gross(payments, owner, k.id, from, to) >= 0
  {
    var gross := Gross(payments, owner, k.id, from, to);
    Settlement(gross, k.rate, Commission(gross, k.rate), Computed)
  }

  lemma GrossNonNegative(payments: seq<Payment>, owner: nat -> nat, c: nat, from: int, to: int)
    requires AmountsPositive(payments)
    ensures Gross(payments, owner, c, from, to) >= 0
  {
    SumNonNegative(payments, CountsFor(owner, c, from, to));
  }

  /** What a payment earns a consultant to be paid commission on. */
  function Earned(owner: nat -> nat, c: nat, from: int, to: int): Payment -> int {
    (p: Payment) => if p.status == Confirmed && from <= p.postedOn <= to && owner(p.bill) == c then p.amount else 0
  }

  /** A settlement in full: gross is what was confirmed from the first to the last day on bills of the consultant's payers,
      and the commission the nearest kobo to rate percent of it, a tie going to the even one. */
  lemma SettlementIs(payments: seq<Payment>, owner: nat -> nat, k: Consultant, from: int, to: int)
    requires Gross(payments, owner, k.id, from, to) >= 0
    ensures var s := SettlementFor(payments, owner, k, from, to);
            && s.gross == Sum(payments, Earned(owner, k.id, from, to))
            && -10000 <= 2 * (10000 * s.commission - s.gross * k.rate) <= 10000
            && (2 * (10000 * s.commission - s.gross * k.rate) == 10000 || 2 * (10000 * s.commission - s.gross * k.rate) == -10000 ==>
                  s.commission % 2 == 0)
            && s.rate == k.rate && s.status == Computed
  {
    forall p | p in payments ensures CountsFor(owner, k.id, from, to)(p) == Earned(owner, k.id, from, to)(p) {
      if p.status == Confirmed && from <= p.postedOn <= to {
        assert InPeriod(p, from, to);
      } else {
        assert !InPeriod(p, from, to);
      }
    }
    SumSame(payments, CountsFor(owner, k.id, from, to), Earned(owner, k.id, from, to));
    RoundHalfEvenIsNearest(Gross(payments, owner, k.id, from, to) * k.rate, PER_UNIT);
  }

  /** The breakdown lists exactly the bills of the consultant's payers with a confirmed payment from the first to the last
      day, and collects on each what those payments come to. */
  lemma {:induction false} BreakdownLists(payments: seq<Payment>, owner: nat -> nat, c: nat, from: int, to: int, n: nat, b: nat)
    ensures b in PaidBills(payments, owner, c, from, to, n) <==>
              b < n && owner(b) == c && exists i :: 0 <= i < |payments| && payments[i].bill == b && payments[i].status == Confirmed
                                                     && from <= payments[i].postedOn <= to
    ensures Collected(payments, b, from, to) == Sum(payments, (p: Payment) =>
              if p.bill == b && p.status == Confirmed && from <= p.postedOn <= to then p.amount else 0)
  {
    SumSame(payments, OnBillInPeriod(b, from, to), (p: Payment) =>
      if p.bill == b && p.status == Confirmed && from <= p.postedOn <= to then p.amount else 0);
    if n > 0 {
      BreakdownLists(payments, owner, c, from, to, n - 1, b);
    }
  }

  class SettlementBook {
    var rows: map<Period, Settlement>

    constructor ()
      ensures rows == map[]
    {
      rows := map[];
    }

    /** One row a consultant and period: created or overwritten, status back to COMPUTED; every other row is untouched, so a
        later change of rate never reaches a period that is not computed again. Returns the rows written. */
    method ComputeSettlements(payments: seq<Payment>, owner: nat -> nat, consultants: seq<Consultant>, from: int, to: int)
      returns (results: seq<Settlement>)
      requires AmountsPositive(payments)
      requires forall i, j | 0 <= i < j < |consultants| :: consultants[i].id != consultants[j].id
      modifies this
      ensures |results| == |consultants| && forall i | 0 <= i < |results| ::
                Period(consultants[i].id, from, to) in rows && results[i] == rows[Period(consultants[i].id, from, to)]
      ensures forall i | 0 <= i < |consultants| ::
                && Gross(payments, owner, consultants[i].id, from, to) >= 0
                && Period(consultants[i].id, from, to) in rows
                && rows[Period(consultants[i].id, from, to)] == SettlementFor(payments, owner, consultants[i], from, to)
      ensures forall k: Period | (k.from != from || k.to != to || forall i | 0 <= i < |consultants| :: consultants[i].id != k.consultant) ::
                (k in rows <==> k in old(rows)) && (k in rows ==> rows[k] == old(rows)[k])
    {
      results := [];
      var i := 0;
      while i < |consultants|
        invariant i == |results| <= |consultants|
        invariant forall j | 0 <= j < i ::
                    Period(consultants[j].id, from, to) in rows && results[j] == rows[Period(consultants[j].id, from, to)]
        invariant forall j | 0 <= j < i ::
                    && Gross(payments, owner, consultants[j].id, from, to) >= 0
                    && Period(consultants[j].id, from, to) in rows
                    && rows[Period(consultants[j].id, from, to)] == SettlementFor(payments, owner, consultants[j], from, to)
        invariant forall k: Period | (k.from != from || k.to != to || forall j | 0 <= j < |consultants| :: consultants[j].id != k.consultant) ::
                    (k in rows <==> k in old(rows)) && (k in rows ==> rows[k] == old(rows)[k])
      {
        var k := consultants[i];
        GrossNonNegative(payments, owner, k.id, from, to);
        var gross := Gross(payments, owner, k.id, from, to);
        var settlement := Settlement(gross, k.rate, Commission(gross, k.rate), Computed);
        rows := rows[Period(k.id, from, to) := settlement];
        results := results + [settlement];
        i := i + 1;
      }
    }
  }
}
