/** The ledger as a state machine over its services, and what every reachable state satisfies. */
module Ledger {
  import opened Prelude
  import opened Sums
  import opened Tables
  import opened Revenue
  import opened Billing
  import opened Payments
  import opened Fifo
  import Enforcement

  // ---- the machine ----

  /** One call of a service, with the day and year it happens in. */
  datatype Step =
    | DraftAssessment(payer: nat, order: Order)
    | IssueBill(request: IssueRequest)
    | AddBillLine(bill: nat, order: Order)
    | UpdateBillLine(bill: nat, line: nat, amount: int)
    | DeleteBillLine(bill: nat, line: nat)
    | PostPayment(tender: Tender)
    | ReversePayment(payment: nat)
    | RefreshDebt
    | EscalateDebt(bill: nat)

  datatype Move = Move(step: Step, clock: Clock)

  /** The rows a call names exist, and entry points let only positive payments through. */
  ghost predicate Callable(db: Db, s: Step) {
    match s
    case DraftAssessment(payer, _) => payer < |db.credit|
    case IssueBill(r) => QueriedOn(r, db)
    case AddBillLine(b, _) => b < |db.bills|
    case UpdateBillLine(b, j, _) => b < |db.bills| && j < |db.bills[b].lines| && db.bills[b].lines[j].assessment < |db.assessments|
    case DeleteBillLine(b, j) => b < |db.bills| && j < |db.bills[b].lines| && db.bills[b].lines[j].assessment < |db.assessments|
    case PostPayment(t) => t.bill < |db.bills| && db.bills[t.bill].payer < |db.credit| && t.amount > 0
    case ReversePayment(p) =>
      p < |db.payments| && db.payments[p].bill < |db.bills| && db.bills[db.payments[p].bill].payer < |db.credit|
    case RefreshDebt => true
    case EscalateDebt(b) => b < |db.bills| && db.bills[b].debtCase.Some?
  }

  /** A refused call leaves the rows alone. */
  function Kept(db: Db, r: Result<Db, Fault>): Db {
    match r
    case Ok(after) => after
    case Err(_) => db
  }

  ghost function Apply(db: Db, m: Move): Db {
    if !Callable(db, m.step) then db
    else
      match m.step
      case DraftAssessment(payer, o) => Kept(db, CreateDraft(db, payer, o))
      case IssueBill(r) => QueriedInTable(r, db); Kept(db, Issue(db, r, m.clock))
      case AddBillLine(b, o) => Kept(db, AddLine(db, b, o, m.clock.day))
      case UpdateBillLine(b, j, amount) => Kept(db, UpdateLine(db, b, j, amount, m.clock.day))
      case DeleteBillLine(b, j) => Kept(db, DeleteLine(db, b, j, m.clock.day))
      case PostPayment(t) => Kept(db, Post(db, t, m.clock.day))
      case ReversePayment(p) => Kept(db, Reverse(db, p, m.clock.day))
      case RefreshDebt => Enforcement.Refresh(db, m.clock.day)
      case EscalateDebt(b) => Kept(db, Enforcement.Escalate(db, b, m.clock.day))
  }

  ghost function Run(db: Db, moves: seq<Move>): Db {
    if moves == [] then db else Apply(Run(db, moves[..|moves| - 1]), moves[|moves| - 1])
  }

  // ---- what every row satisfies ----

  predicate LineOk(l: Line) {
    l.amount == l.current + l.arrears && l.current >= 0 && l.arrears >= 0
  }

  ghost predicate LinesOk(lines: seq<Line>) {
    Ordered(lines) && forall i | 0 <= i < |lines| :: LineOk(lines[i])
  }

  predicate TotalsOk(b: Bill) {
    b.total == Sum(b.lines, AmountOf) && b.arrears == Sum(b.lines, ArrearsOf)
  }

  /** The stored status is the one the rule gives on the day of the last write. */
  predicate StatusOk(b: Bill) {
    && (!Terminal(b.status) ==> b.status == DeriveStatus(b.total, b.paid, b.dueOn, b.updatedOn))
    && (b.status == Superseded <==> b.successor.Some?)
  }

  predicate CaseOk(b: Bill) {
    b.debtCase.Some? ==>
      && (b.debtCase.value.stage == Closed <==> b.debtCase.value.closedOn.Some?)
      && (b.status == Superseded ==> b.debtCase.value.stage == Closed)
  }

  ghost predicate BillOk(b: Bill) {
    LinesOk(b.lines) && TotalsOk(b) && StatusOk(b) && CaseOk(b)
  }

  ghost predicate BillsOk(bills: seq<Bill>) {
    forall i | 0 <= i < |bills| :: BillOk(bills[i])
  }

  ghost predicate LineLinked(db: Db, b: nat, l: Line) {
    l.id < |db.lineBill| && db.lineBill[l.id] == b && l.assessment < |db.assessments|
  }

  ghost predicate BillLinked(db: Db, b: nat)
    requires b < |db.bills|
  {
    && db.bills[b].payer < |db.credit|
    && (forall i | 0 <= i < |db.bills[b].lines| :: LineLinked(db, b, db.bills[b].lines[i]))
    && (db.bills[b].successor.Some? ==>
          b < db.bills[b].successor.value < |db.bills| && db.bills[db.bills[b].successor.value].payer == db.bills[b].payer)
  }

  ghost predicate LinksOk(db: Db) {
    forall b | 0 <= b < |db.bills| :: BillLinked(db, b)
  }

  ghost predicate AssessmentsOk(table: seq<Assessment>) {
    forall i | 0 <= i < |table| :: table[i].amount >= 0
  }

  ghost predicate RowsOk(db: Db) {
    BillsOk(db.bills) && LinksOk(db) && AssessmentsOk(db.assessments)
  }

  // ---- what the money satisfies ----

  ghost predicate HasLine(lines: seq<Line>, id: nat) {
    exists i :: 0 <= i < |lines| && lines[i].id == id
  }

  ghost predicate PaymentOk(db: Db, p: nat)
    requires p < |db.payments|
  {
    && db.payments[p].id == p && db.payments[p].bill < |db.bills| && db.payments[p].amount > 0
    && Applied(db.allocations, p) <= db.payments[p].amount
  }

  /** An allocation belongs to a payment and to one of the lines of that payment's bill. */
  ghost predicate AllocationOk(db: Db, a: Allocation) {
    && a.amount > 0 && a.payment < |db.payments| && db.payments[a.payment].bill < |db.bills|
    && HasLine(db.bills[db.payments[a.payment].bill].lines, a.line)
  }

  ghost predicate PaymentsOk(db: Db) {
    && (forall p | 0 <= p < |db.payments| :: PaymentOk(db, p))
    && (forall i | 0 <= i < |db.allocations| :: AllocationOk(db, db.allocations[i]))
  }

  /** The part of payment `p` that payer `y` was credited for. */
  function LeftoverFor(bills: seq<Bill>, allocations: seq<Allocation>, y: nat, p: Payment): int {
    if p.status == Confirmed && p.bill < |bills| && bills[p.bill].payer == y then p.amount - Applied(allocations, p.id) else 0
  }

  function Unallocated(db: Db, y: nat): int {
    Sum(db.payments, (p: Payment) => LeftoverFor(db.bills, db.allocations, y, p))
  }

  function ConfirmedAmount(p: Payment): int {
    if p.status == Confirmed then p.amount else 0
  }

  ghost predicate PaidOk(db: Db) {
    forall b | 0 <= b < |db.bills| :: db.bills[b].paid == PaidOn(db.payments, db.allocations, b)
  }

  ghost predicate CreditOk(db: Db) {
    forall y | 0 <= y < |db.credit| :: db.credit[y] == Unallocated(db, y)
  }

  /** Money in is money on bills plus money in credit. */
  predicate Balanced(db: Db) {
    Sum(db.payments, ConfirmedAmount) == Sum(db.bills, PaidOf) + Sum(db.credit, Itself)
  }

  ghost predicate MoneyOk(db: Db) {
    PaymentsOk(db) && PaidOk(db) && CreditOk(db) && Balanced(db)
  }

  ghost predicate Inv(db: Db) {
    RowsOk(db) && MoneyOk(db)
  }

  // ---- rows: one lemma a service ----

  lemma RecomputeOk(b: Bill, today: int)
    requires LinesOk(b.lines) && CaseOk(b) && (b.status == Superseded <==> b.successor.Some?)
    ensures BillOk(Recompute(b, today))
  {
  }

  lemma SetBillKeepsRows(db: Db, after: Db, b: nat)
    requires RowsOk(db) && b < |db.bills| == |after.bills|
    requires |after.assessments| >= |db.assessments| && |after.credit| == |db.credit|
    requires AssessmentsOk(after.assessments)
    requires |after.lineBill| >= |db.lineBill| && after.lineBill[..|db.lineBill|] == db.lineBill
    requires forall i | 0 <= i < |db.bills| && i != b :: after.bills[i] == db.bills[i]
    requires BillOk(after.bills[b])
    requires after.bills[b].payer == db.bills[b].payer && after.bills[b].successor == db.bills[b].successor
    requires forall i | 0 <= i < |after.bills[b].lines| :: LineLinked(after, b, after.bills[b].lines[i])
    ensures RowsOk(after)
  {
    forall i | 0 <= i < |after.bills| ensures BillLinked(after, i) && BillOk(after.bills[i]) {
      assert BillLinked(db, i) && BillOk(db.bills[i]);
      if i != b {
        forall j | 0 <= j < |after.bills[i].lines| ensures LineLinked(after, i, after.bills[i].lines[j]) {
          assert LineLinked(db, i, db.bills[i].lines[j]);
          assert after.lineBill[..|db.lineBill|][db.bills[i].lines[j].id] == i;
        }
      }
    }
  }

  lemma {:induction false} MaxPositionBounds(lines: seq<Line>)
    ensures lines != [] ==> MaxPosition(lines).Some?
    ensures forall i | 0 <= i < |lines| :: lines[i].position <= MaxPosition(lines).value
  {
    if lines != [] {
      MaxPositionBounds(lines[..|lines| - 1]);
    }
  }

  /** However positions collide, a line added later never walks before one already there. */
  lemma NextPositionIsLast(lines: seq<Line>)
    ensures forall i | 0 <= i < |lines| :: lines[i].position <= NextPosition(lines)
  {
    MaxPositionBounds(lines);
  }

  lemma ReplaceKeepsLines(lines: seq<Line>, l: Line)
    requires LinesOk(lines) && LineOk(l)
    requires exists j :: 0 <= j < |lines| && lines[j].id == l.id && lines[j].position == l.position
    ensures LinesOk(ReplaceLine(lines, l))
    ensures forall i | 0 <= i < |lines| :: ReplaceLine(lines, l)[i].id == lines[i].id
  {
    var j :| 0 <= j < |lines| && lines[j].id == l.id && lines[j].position == l.position;
    forall i | 0 <= i < |lines| && i != j ensures lines[i].id != l.id {
      if i < j { assert lines[i].id < lines[j].id; } else { assert lines[j].id < lines[i].id; }
    }
  }

  lemma AddToLineKeepsRows(db: Db, b: nat, l: Line, added: Assessment, today: int)
    requires RowsOk(db) && b < |db.bills| && l in db.bills[b].lines && added.amount >= 0
    requires l.assessment < |db.assessments|
    ensures RowsOk(AddToLine(db, b, l, added, today))
  {
    var bill := db.bills[b];
    assert BillOk(bill) && BillLinked(db, b);
    var j :| 0 <= j < |bill.lines| && bill.lines[j] == l;
    assert LineOk(bill.lines[j]);
    var l' := Merged(l, Absorb(db.assessments[l.assessment], added));
    ReplaceKeepsLines(bill.lines, l');
    var lines := ReplaceLine(bill.lines, l');
    RecomputeOk(bill.(lines := lines), today);
    var after := AddToLine(db, b, l, added, today);
    forall i | 0 <= i < |lines| ensures LineLinked(after, b, lines[i]) {
      assert LineLinked(db, b, bill.lines[i]);
    }
    SetBillKeepsRows(db, after, b);
  }

  lemma AppendLineKeepsRows(db: Db, b: nat, added: Assessment, today: int)
    requires RowsOk(db) && b < |db.bills| && added.amount >= 0
    ensures RowsOk(AppendLine(db, b, added, today))
  {
    var bill := db.bills[b];
    assert BillOk(bill) && BillLinked(db, b);
    var after := AppendLine(db, b, added, today);
    var l := after.bills[b].lines[|bill.lines|];
    var lines := bill.lines + [l];
    NextPositionIsLast(bill.lines);
    forall i | 0 <= i < |lines|
      ensures LineLinked(after, b, lines[i]) && LineOk(lines[i]) && (i < |bill.lines| ==> lines[i].id < l.id) {
      if i < |bill.lines| { assert LineLinked(db, b, bill.lines[i]) && LineOk(bill.lines[i]); }
    }
    RecomputeOk(bill.(lines := lines), today);
    SetBillKeepsRows(db, after, b);
  }

  lemma MergeTargetIsOnBill(db: Db, b: nat, o: Order)
    requires RowsOk(db) && b < |db.bills|
    ensures MergeTarget(db, b, o).Some? ==> MergeTarget(db, b, o).value in db.bills[b].lines
  {
    assert BillOk(db.bills[b]);
    WalkIsCreationOrder(db.bills[b].lines);
  }

  lemma AddKeepsRows(db: Db, b: nat, o: Order, today: int)
    requires RowsOk(db) && b < |db.bills| && AddLine(db, b, o, today).Ok?
    ensures RowsOk(AddLine(db, b, o, today).value)
  {
    PricesWithinBounds(o);
    MergeTargetIsOnBill(db, b, o);
    var added := NewAssessment(db.bills[b].payer, o, Price(o).value);
    match MergeTarget(db, b, o)
    case Some(l) => AddToLineKeepsRows(db, b, l, added, today);
    case None => AppendLineKeepsRows(db, b, added, today);
  }

  lemma UpdateKeepsRows(db: Db, b: nat, j: nat, amount: int, today: int)
    requires RowsOk(db) && Callable(db, UpdateBillLine(b, j, amount)) && UpdateLine(db, b, j, amount, today).Ok?
    ensures RowsOk(UpdateLine(db, b, j, amount, today).value)
  {
    var bill := db.bills[b];
    assert BillOk(bill) && BillLinked(db, b) && LineOk(bill.lines[j]);
    var after := UpdateLine(db, b, j, amount, today).value;
    var lines := bill.lines[j := Edited(bill.lines[j], amount)];
    forall i | 0 <= i < |lines| ensures LineOk(lines[i]) && LineLinked(after, b, lines[i]) {
      assert LineOk(bill.lines[i]) && LineLinked(db, b, bill.lines[i]);
    }
    RecomputeOk(bill.(lines := lines), today);
    SetBillKeepsRows(db, after, b);
  }

  lemma DeleteKeepsRows(db: Db, b: nat, j: nat, today: int)
    requires RowsOk(db) && Callable(db, DeleteBillLine(b, j)) && DeleteLine(db, b, j, today).Ok?
    ensures RowsOk(DeleteLine(db, b, j, today).value)
  {
    hide Sum;
    var bill := db.bills[b];
    assert BillOk(bill) && BillLinked(db, b);
    var after := DeleteLine(db, b, j, today).value;
    var lines := bill.lines[..j] + bill.lines[j + 1..];
    forall i | 0 <= i < |lines| ensures LineOk(lines[i]) && LineLinked(after, b, lines[i]) {
      var k := if i < j then i else i + 1;
      assert lines[i] == bill.lines[k] && LineOk(bill.lines[k]) && LineLinked(db, b, bill.lines[k]);
    }
    RecomputeOk(bill.(lines := lines), today);
    SetBillKeepsRows(db, after, b);
  }

  lemma CloseCaseOk(b: Bill, today: int)
    requires CaseOk(b) || (b.debtCase.Some? && (b.debtCase.value.stage == Closed <==> b.debtCase.value.closedOn.Some?))
    ensures CaseOk(Enforcement.CloseCase(b, today))
    ensures Enforcement.CloseCase(b, today).(debtCase := None) == b.(debtCase := None)
    ensures Enforcement.CloseCase(b, today).debtCase.Some? ==> Enforcement.CloseCase(b, today).debtCase.value.stage == Closed
  {
  }

  lemma PostKeepsRows(db: Db, t: Tender, today: int)
    requires RowsOk(db) && Callable(db, PostPayment(t)) && !Terminal(db.bills[t.bill].status)
    ensures RowsOk(PostAccepted(db, t, today))
  {
    var bill := db.bills[t.bill];
    assert BillOk(bill) && BillLinked(db, t.bill);
    var applied := AppliedOf(db, t, today);
    RecomputeOk(bill.(paid := bill.paid + applied), today);
    CloseCaseOk(Recompute(bill.(paid := bill.paid + applied), today), today);
    var after := PostAccepted(db, t, today);
    forall i | 0 <= i < |bill.lines| ensures LineLinked(after, t.bill, bill.lines[i]) {
      assert LineLinked(db, t.bill, bill.lines[i]);
    }
    SetBillKeepsRows(db, after, t.bill);
  }

  lemma ReverseKeepsRows(db: Db, p: nat, today: int)
    requires RowsOk(db) && Callable(db, ReversePayment(p))
    ensures RowsOk(ReverseConfirmed(db, p, today))
  {
    var b := db.payments[p].bill;
    var bill := db.bills[b];
    assert BillOk(bill) && BillLinked(db, b);
    RecomputeOk(bill.(paid := Max(bill.paid - Applied(db.allocations, p), 0)), today);
    var after := ReverseConfirmed(db, p, today);
    forall i | 0 <= i < |bill.lines| ensures LineLinked(after, b, bill.lines[i]) {
      assert LineLinked(db, b, bill.lines[i]);
    }
    SetBillKeepsRows(db, after, b);
  }

  /** The direct OVERDUE write of debt ageing is what the status rule gives that day: an ageing bill is never paid off. */
  lemma RefreshAgreesWithStatusRule(b: Bill, today: int)
    requires BillOk(b)
    ensures BillOk(Enforcement.RefreshBill(b, today))
    ensures Enforcement.Ageing(b, today) ==> DeriveStatus(b.total, b.paid, b.dueOn, today) == Overdue
  {
  }

  lemma RefreshKeepsRows(db: Db, today: int)
    requires RowsOk(db)
    ensures RowsOk(Enforcement.Refresh(db, today))
  {
    var after := Enforcement.Refresh(db, today);
    forall b | 0 <= b < |db.bills| ensures BillOk(after.bills[b]) && BillLinked(after, b) {
      assert BillOk(db.bills[b]) && BillLinked(db, b);
      RefreshAgreesWithStatusRule(db.bills[b], today);
      forall i | 0 <= i < |db.bills[b].lines| ensures LineLinked(after, b, after.bills[b].lines[i]) {
        assert LineLinked(db, b, db.bills[b].lines[i]);
      }
    }
  }

  lemma EscalateKeepsRows(db: Db, b: nat, today: int)
    requires RowsOk(db) && Callable(db, EscalateDebt(b)) && Enforcement.Escalate(db, b, today).Ok?
    ensures RowsOk(Enforcement.Escalate(db, b, today).value)
  {
    assert BillOk(db.bills[b]) && BillLinked(db, b);
    var after := Enforcement.Escalate(db, b, today).value;
    forall i | 0 <= i < |db.bills[b].lines| ensures LineLinked(after, b, after.bills[b].lines[i]) {
      assert LineLinked(db, b, db.bills[b].lines[i]);
    }
    SetBillKeepsRows(db, after, b);
  }

  // ---- rows: issuing ----

  lemma {:induction false} PricedOk(payer: nat, orders: seq<Order>)
    requires PriceAll(payer, orders).Ok?
    ensures AssessmentsOk(PriceAll(payer, orders).value)
  {
    if orders != [] {
      PricedOk(payer, orders[..|orders| - 1]);
      PricesWithinBounds(orders[|orders| - 1]);
    }
  }

  lemma {:induction false} MergeKeepsAmounts(refs: seq<nat>, table: seq<Assessment>)
    requires InTable(refs, |table|) && AssessmentsOk(table)
    ensures AssessmentsOk(MergeAll(refs, table).table)
  {
    if refs != [] {
      MergeKeepsAmounts(refs[..|refs| - 1], table);
    }
  }

  /** Lines numbered from `next`, at positions 0, 1, 2, .... */
  ghost predicate Numbered(lines: seq<Line>, next: nat, n: nat) {
    forall i | 0 <= i < |lines| ::
      lines[i].id == next + i && lines[i].position == i && LineOk(lines[i]) && lines[i].assessment < n
  }

  /** Every carried item has a positive amount and an assessment to cite. */
  ghost predicate CarryOk(c: Carry, n: nat) {
    forall i | 0 <= i < |c.items| ::
      c.items[i] in c.amounts && c.amounts[c.items[i]] > 0 && c.items[i] in c.citing && c.citing[c.items[i]] < n
  }

  lemma {:induction false} CarriesOk(db: Db, lines: seq<Line>)
    requires forall i | 0 <= i < |lines| :: lines[i].assessment < |db.assessments|
    ensures CarryOk(CarryAll(db, lines), |db.assessments|)
    ensures forall item :: item in CarryAll(db, lines).items <==> item in CarryAll(db, lines).amounts
    ensures forall item | item in CarryAll(db, lines).amounts :: CarryAll(db, lines).amounts[item] > 0
    ensures NoRepeats(CarryAll(db, lines).items)
  {
    if lines != [] {
      var n := |lines| - 1;
      CarriesOk(db, lines[..n]);
      var c, r := CarryAll(db, lines[..n]), CarryAll(db, lines);
      var item := ItemOf(db.assessments, lines[n]);
      if Outstanding(db, lines[n]) > 0 {
        forall i | 0 <= i < |r.items|
          ensures r.items[i] in r.amounts && r.amounts[r.items[i]] > 0 && r.items[i] in r.citing && r.citing[r.items[i]] < |db.assessments| {
          if i < |c.items| { assert r.items[i] == c.items[i]; }
        }
        if item !in c.amounts { assert item !in c.items; }
      }
    }
  }

  lemma {:induction false} PlaceNumbers(table: seq<Assessment>, charged: seq<Line>, c: Carry, next: nat, k: nat)
    requires k <= |c.items| && Numbered(charged, next, |table|) && CarryOk(c, |table|)
    ensures Numbered(Place(table, charged, c, next, k), next, |table|)
  {
    if k > 0 {
      PlaceNumbers(table, charged, c, next, k - 1);
      assert c.items[k - 1] in c.amounts;
    }
  }

  lemma {:induction false} PriorLinesLinked(db: Db, order: seq<nat>)
    requires RowsOk(db) && InTable(order, |db.bills|)
    ensures forall i | 0 <= i < |PriorLines(db.bills, order)| :: PriorLines(db.bills, order)[i].assessment < |db.assessments|
  {
    if order != [] {
      PriorLinesLinked(db, order[..|order| - 1]);
      var b := order[|order| - 1];
      assert BillOk(db.bills[b]) && BillLinked(db, b);
      WalkIsCreationOrder(db.bills[b].lines);
      assert forall i | 0 <= i < |db.bills[b].lines| :: LineLinked(db, b, db.bills[b].lines[i]);
    }
  }

  lemma NewLinesNumbered(db: Db, r: IssueRequest, m: Merge)
    requires RowsOk(db) && InTable(r.openBills, |db.bills|) && InTable(m.kept, |m.table|)
    requires |m.table| >= |db.assessments| && AssessmentsOk(m.table)
    ensures Numbered(NewLines(db, r, m), |db.lineBill|, |m.table|)
  {
    if r.rollArrears {
      var lines := PriorLines(db.bills, r.openBills);
      PriorLinesLinked(db, r.openBills);
      CarriesOk(db, lines);
      var c := CarryAll(db, lines);
      assert CarryOk(c, |m.table|);
      PlaceNumbers(m.table, FreshLines(m.table, m.kept, |db.lineBill|), c, |db.lineBill|, |c.items|);
    }
  }

  lemma SupersedeOk(b: Bill, successor: nat, today: int)
    requires BillOk(b)
    ensures BillOk(Supersede(b, successor, today))
    ensures Supersede(b, successor, today).(status := b.status, successor := b.successor, updatedOn := b.updatedOn, debtCase := b.debtCase) == b
  {
    CloseCaseOk(b.(status := Superseded, successor := Some(successor), updatedOn := today), today);
  }

  lemma PreparedTableOk(db: Db, r: IssueRequest, clock: Clock)
    requires InTable(r.drafts, |db.assessments|) && AssessmentsOk(db.assessments) && Prepare(db, r, clock).Ok?
    ensures AssessmentsOk(Prepare(db, r, clock).value.table) && |Prepare(db, r, clock).value.table| >= |db.assessments|
  {
    var priced := PriceAll(r.payer, r.orders).value;
    PricedOk(r.payer, r.orders);
    MergeKeepsAmounts(Refs(db, r, |priced|), db.assessments + priced);
  }

  lemma IssueKeepsRows(db: Db, r: IssueRequest, m: Merge, clock: Clock)
    requires RowsOk(db) && QueriedOn(r, db) && InTable(r.openBills, |db.bills|) && InTable(m.kept, |m.table|)
    requires |m.table| >= |db.assessments| && AssessmentsOk(m.table)
    ensures RowsOk(IssueMerged(db, r, m, clock))
  {
    hide Sum, NewLines;
    var after := IssueMerged(db, r, m, clock);
    var n := |db.bills|;
    var lines := NewLines(db, r, m);
    NewLinesNumbered(db, r, m);
    RecomputeOk(NewBill(r, lines, clock), clock.day);
    forall i | 0 <= i < |lines| ensures LineLinked(after, n, lines[i]) {
      assert after.lineBill[|db.lineBill| + i] == n;
    }
    forall b | 0 <= b < n ensures BillOk(after.bills[b]) && BillLinked(after, b) {
      assert BillOk(db.bills[b]) && BillLinked(db, b);
      SupersedeOk(db.bills[b], n, clock.day);
      forall i | 0 <= i < |db.bills[b].lines| ensures LineLinked(after, b, after.bills[b].lines[i]) {
        assert LineLinked(db, b, db.bills[b].lines[i]);
      }
      if r.rollArrears && b in r.openBills {
        assert IsOpenBillOf(db, r.payer, b);
      } else if db.bills[b].successor.Some? {
        var next := db.bills[b].successor.value;
        SupersedeOk(db.bills[next], n, clock.day);
      }
    }
  }

  // ---- money: steps that move none ----

  lemma {:induction false} PaidSumFrames(bills: seq<Bill>, after: seq<Bill>)
    requires |after| >= |bills|
    requires forall i | 0 <= i < |after| :: after[i].paid == if i < |bills| then bills[i].paid else 0
    ensures Sum(after, PaidOf) == Sum(bills, PaidOf)
  {
    if after != [] {
      var n := |after| - 1;
      if n >= |bills| { PaidSumFrames(bills, after[..n]); } else { PaidSumFrames(bills[..n], after[..n]); }
    }
  }

  lemma FrameKeepsMoney(db: Db, after: Db)
    requires MoneyOk(db)
    requires after.payments == db.payments && after.allocations == db.allocations && after.credit == db.credit
    requires |after.bills| >= |db.bills|
    requires forall i | 0 <= i < |db.bills| :: after.bills[i].paid == db.bills[i].paid && after.bills[i].payer == db.bills[i].payer
    requires forall i | |db.bills| <= i < |after.bills| :: after.bills[i].paid == 0
    requires forall i | 0 <= i < |db.allocations| && db.allocations[i].payment < |db.payments|
                        && db.payments[db.allocations[i].payment].bill < |db.bills| ::
               HasLine(after.bills[db.payments[db.allocations[i].payment].bill].lines, db.allocations[i].line)
    ensures MoneyOk(after)
  {
    assert forall p | 0 <= p < |db.payments| :: PaymentOk(db, p);
    forall i | 0 <= i < |db.allocations| ensures AllocationOk(after, db.allocations[i]) {
      assert AllocationOk(db, db.allocations[i]);
    }
    forall p | 0 <= p < |db.payments| ensures PaymentOk(after, p) {
      assert PaymentOk(db, p);
    }
    forall b | 0 <= b < |after.bills| ensures after.bills[b].paid == PaidOn(after.payments, after.allocations, b) {
      if b >= |db.bills| {
        forall i | 0 <= i < |db.allocations| ensures db.payments[db.allocations[i].payment].bill < |db.bills| {
          assert AllocationOk(db, db.allocations[i]);
        }
        SumZero(db.allocations, (a: Allocation) =>
          if IsConfirmed(db.payments, a.payment) && db.payments[a.payment].bill == b then a.amount else 0);
      }
    }
    forall y | 0 <= y < |db.credit| ensures after.credit[y] == Unallocated(after, y) {
      forall i | 0 <= i < |db.payments|
        ensures LeftoverFor(after.bills, after.allocations, y, db.payments[i]) == LeftoverFor(db.bills, db.allocations, y, db.payments[i]) {
        assert PaymentOk(db, i);
      }
      SumSame(db.payments, (p: Payment) => LeftoverFor(after.bills, after.allocations, y, p),
              (p: Payment) => LeftoverFor(db.bills, db.allocations, y, p));
    }
    PaidSumFrames(db.bills, after.bills);
  }

  /** Editing bill `b` moves no money so long as its lines with allocations stay. */
  lemma EditKeepsMoney(db: Db, after: Db, b: nat)
    requires MoneyOk(db) && b < |db.bills| == |after.bills|
    requires after.payments == db.payments && after.allocations == db.allocations && after.credit == db.credit
    requires forall i | 0 <= i < |db.bills| && i != b :: after.bills[i] == db.bills[i]
    requires after.bills[b].paid == db.bills[b].paid && after.bills[b].payer == db.bills[b].payer
    requires forall i | 0 <= i < |db.allocations| && HasLine(db.bills[b].lines, db.allocations[i].line) ::
               HasLine(after.bills[b].lines, db.allocations[i].line)
    ensures MoneyOk(after)
  {
    forall i | 0 <= i < |db.allocations| && db.allocations[i].payment < |db.payments| && db.payments[db.allocations[i].payment].bill < |db.bills|
      ensures HasLine(after.bills[db.payments[db.allocations[i].payment].bill].lines, db.allocations[i].line) {
      assert AllocationOk(db, db.allocations[i]);
    }
    FrameKeepsMoney(db, after);
  }

  lemma AddKeepsMoney(db: Db, b: nat, o: Order, today: int)
    requires Inv(db) && b < |db.bills| && AddLine(db, b, o, today).Ok?
    ensures MoneyOk(AddLine(db, b, o, today).value)
  {
    hide MoneyOk, Sum;
    var after := AddLine(db, b, o, today).value;
    var lines, lines' := db.bills[b].lines, after.bills[b].lines;
    assert BillOk(db.bills[b]);
    assert forall i | 0 <= i < |lines| :: i < |lines'| && lines'[i].id == lines[i].id;
    forall i | 0 <= i < |db.allocations| && HasLine(lines, db.allocations[i].line) ensures HasLine(lines', db.allocations[i].line) {
      var k :| 0 <= k < |lines| && lines[k].id == db.allocations[i].line;
      assert lines'[k].id == db.allocations[i].line;
    }
    EditKeepsMoney(db, after, b);
  }

  lemma UpdateKeepsMoney(db: Db, b: nat, j: nat, amount: int, today: int)
    requires Inv(db) && Callable(db, UpdateBillLine(b, j, amount)) && UpdateLine(db, b, j, amount, today).Ok?
    ensures MoneyOk(UpdateLine(db, b, j, amount, today).value)
  {
    hide MoneyOk, Sum;
    var after := UpdateLine(db, b, j, amount, today).value;
    var lines, lines' := db.bills[b].lines, after.bills[b].lines;
    assert forall i | 0 <= i < |lines| :: lines'[i].id == lines[i].id;
    forall i | 0 <= i < |db.allocations| && HasLine(lines, db.allocations[i].line) ensures HasLine(lines', db.allocations[i].line) {
      var k :| 0 <= k < |lines| && lines[k].id == db.allocations[i].line;
      assert lines'[k].id == db.allocations[i].line;
    }
    EditKeepsMoney(db, after, b);
  }

  lemma DeleteKeepsMoney(db: Db, b: nat, j: nat, today: int)
    requires Inv(db) && Callable(db, DeleteBillLine(b, j)) && DeleteLine(db, b, j, today).Ok?
    ensures MoneyOk(DeleteLine(db, b, j, today).value)
  {
    hide MoneyOk, Sum;
    var after := DeleteLine(db, b, j, today).value;
    var lines, lines' := db.bills[b].lines, after.bills[b].lines;
    forall i | 0 <= i < |db.allocations| && HasLine(lines, db.allocations[i].line) ensures HasLine(lines', db.allocations[i].line) {
      var k :| 0 <= k < |lines| && lines[k].id == db.allocations[i].line;
      assert k != j;
      assert lines'[if k < j then k else k - 1] == lines[k];
    }
    EditKeepsMoney(db, after, b);
  }

  /** Issuing touches nothing on earlier bills but status, successor, day and case. */
  lemma IssueLeavesOldBills(db: Db, r: IssueRequest, m: Merge, clock: Clock, i: nat)
    requires RowsOk(db) && InTable(r.openBills, |db.bills|) && InTable(m.kept, |m.table|) && i < |db.bills|
    ensures IssueMerged(db, r, m, clock).bills[i]
            == if r.rollArrears && i in r.openBills then Supersede(db.bills[i], |db.bills|, clock.day) else db.bills[i]
    ensures var b := IssueMerged(db, r, m, clock).bills[i];
            b.paid == db.bills[i].paid && b.payer == db.bills[i].payer && b.lines == db.bills[i].lines && b.total == db.bills[i].total
  {
    assert BillOk(db.bills[i]);
    SupersedeOk(db.bills[i], |db.bills|, clock.day);
  }

  lemma AllocationsOnSameLines(db: Db, bills: seq<Bill>)
    requires MoneyOk(db) && |bills| >= |db.bills|
    requires forall i | 0 <= i < |db.bills| :: bills[i].lines == db.bills[i].lines
    ensures forall i | 0 <= i < |db.allocations| && db.allocations[i].payment < |db.payments|
                       && db.payments[db.allocations[i].payment].bill < |db.bills| ::
              HasLine(bills[db.payments[db.allocations[i].payment].bill].lines, db.allocations[i].line)
  {
    forall i | 0 <= i < |db.allocations| ensures AllocationOk(db, db.allocations[i]) {}
  }

  lemma IssueKeepsMoney(db: Db, r: IssueRequest, m: Merge, clock: Clock)
    requires Inv(db) && InTable(r.openBills, |db.bills|) && InTable(m.kept, |m.table|)
    ensures MoneyOk(IssueMerged(db, r, m, clock))
  {
    hide MoneyOk, BillOk, NewLines;
    var after := IssueMerged(db, r, m, clock);
    forall i | 0 <= i < |db.bills|
      ensures after.bills[i].paid == db.bills[i].paid && after.bills[i].payer == db.bills[i].payer && after.bills[i].lines == db.bills[i].lines {
      IssueLeavesOldBills(db, r, m, clock, i);
    }
    AllocationsOnSameLines(db, after.bills);
    FrameKeepsMoney(db, after);
  }

  lemma RefreshKeepsMoney(db: Db, today: int)
    requires Inv(db)
    ensures MoneyOk(Enforcement.Refresh(db, today))
  {
    forall i | 0 <= i < |db.allocations| ensures AllocationOk(db, db.allocations[i]) {}
    FrameKeepsMoney(db, Enforcement.Refresh(db, today));
  }

  // ---- money: posting and reversing ----

  function RowsOf(db: Db, t: Tender, today: int): seq<Allocation>
    requires t.bill < |db.bills|
  {
    AllRows(db.bills[t.bill].lines, db.payments + [NewPayment(db, t, today)], db.allocations, t.amount, |db.payments|)
  }

  /** A payment's rows add up to what it applied, and lie on its own bill's lines. */
  lemma RowsOfPayment(db: Db, t: Tender, today: int)
    requires t.bill < |db.bills| && LinesOk(db.bills[t.bill].lines) && t.amount > 0
    ensures Sum(RowsOf(db, t, today), AmountIn) == AppliedOf(db, t, today)
    ensures 0 <= AppliedOf(db, t, today) <= t.amount
    ensures forall a | a in RowsOf(db, t, today) ::
              a.amount > 0 && a.payment == |db.payments| && HasLine(db.bills[t.bill].lines, a.line)
  {
    var lines := db.bills[t.bill].lines;
    WalkIsCreationOrder(lines);
    var outs := Outs(lines, db.payments + [NewPayment(db, t, today)], db.allocations);
    RowsTotal(Ids(lines), outs, t.amount, |db.payments|, |lines|);
    OwedRises(outs, 0, |lines|);
    forall a | a in RowsOf(db, t, today)
      ensures a.amount > 0 && a.payment == |db.payments| && HasLine(lines, a.line) {
      RowsShape(Ids(lines), outs, t.amount, |db.payments|, |lines|, a);
      var j :| 0 <= j < |lines| && Ids(lines)[j] == a.line;
      assert lines[j].id == a.line;
    }
  }

  function OnBill(payments: seq<Payment>, bill: nat): Allocation -> int {
    (a: Allocation) => if IsConfirmed(payments, a.payment) && payments[a.payment].bill == bill then a.amount else 0
  }

  function OfPayment(p: nat): Allocation -> int {
    (a: Allocation) => if a.payment == p then a.amount else 0
  }

  lemma PaidOnAfterPost(db: Db, t: Tender, today: int, b: nat)
    requires PaymentsOk(db) && t.bill < |db.bills| && LinesOk(db.bills[t.bill].lines) && t.amount > 0
    ensures PaidOn(db.payments + [NewPayment(db, t, today)], db.allocations + RowsOf(db, t, today), b)
            == PaidOn(db.payments, db.allocations, b) + if b == t.bill then AppliedOf(db, t, today) else 0
  {
    var payments, rows := db.payments + [NewPayment(db, t, today)], RowsOf(db, t, today);
    RowsOfPayment(db, t, today);
    SumConcat(db.allocations, rows, OnBill(payments, b));
    forall i | 0 <= i < |db.allocations| ensures db.allocations[i].payment < |db.payments| {
      assert AllocationOk(db, db.allocations[i]);
    }
    SumSame(db.allocations, OnBill(payments, b), OnBill(db.payments, b));
    if b == t.bill { SumSame(rows, OnBill(payments, b), AmountIn); } else { SumZero(rows, OnBill(payments, b)); }
    assert PaidOn(db.payments, db.allocations, b) == Sum(db.allocations, OnBill(db.payments, b)) by {
      SumSame(db.allocations, OnBill(db.payments, b), (a: Allocation) =>
        if IsConfirmed(db.payments, a.payment) && db.payments[a.payment].bill == b then a.amount else 0);
    }
    SumSame(db.allocations + rows, OnBill(payments, b), (a: Allocation) =>
      if IsConfirmed(payments, a.payment) && payments[a.payment].bill == b then a.amount else 0);
  }

  lemma AppliedIs(allocations: seq<Allocation>, p: nat)
    ensures Applied(allocations, p) == Sum(allocations, OfPayment(p))
  {
    SumSame(allocations, OfPayment(p), (a: Allocation) => if a.payment == p then a.amount else 0);
  }

  lemma AppliedAfterPost(db: Db, t: Tender, today: int, p: nat)
    requires PaymentsOk(db) && t.bill < |db.bills| && LinesOk(db.bills[t.bill].lines) && t.amount > 0
    requires p <= |db.payments|
    ensures Applied(db.allocations + RowsOf(db, t, today), p)
            == if p == |db.payments| then AppliedOf(db, t, today) else Applied(db.allocations, p)
  {
    var rows := RowsOf(db, t, today);
    RowsOfPayment(db, t, today);
    AppliedIs(db.allocations + rows, p);
    AppliedIs(db.allocations, p);
    SumConcat(db.allocations, rows, OfPayment(p));
    if p == |db.payments| {
      forall i | 0 <= i < |db.allocations| ensures db.allocations[i].payment < |db.payments| {
        assert AllocationOk(db, db.allocations[i]);
      }
      SumZero(db.allocations, OfPayment(p));
      SumSame(rows, OfPayment(p), AmountIn);
    } else {
      SumZero(rows, OfPayment(p));
    }
  }

  lemma PostKeepsPayments(db: Db, t: Tender, today: int)
    requires Inv(db) && Callable(db, PostPayment(t))
    ensures PaymentsOk(PostAccepted(db, t, today))
  {
    hide PaidOk, Balanced, Applied, AppliedOf, AssessmentsOk, CreditOk;
    var after := PostAccepted(db, t, today);
    var rows := RowsOf(db, t, today);
    assert BillOk(db.bills[t.bill]);
    RowsOfPayment(db, t, today);
    assert after.bills[t.bill].lines == db.bills[t.bill].lines;
    forall p | 0 <= p < |after.payments| ensures PaymentOk(after, p) {
      AppliedAfterPost(db, t, today, p);
      if p < |db.payments| { assert PaymentOk(db, p); }
    }
    forall i | 0 <= i < |after.allocations| ensures AllocationOk(after, after.allocations[i]) {
      if i < |db.allocations| {
        assert AllocationOk(db, db.allocations[i]);
      } else {
        assert after.allocations[i] == rows[i - |db.allocations|];
      }
    }
  }

  lemma PostKeepsCredit(db: Db, t: Tender, today: int, y: nat)
    requires Inv(db) && Callable(db, PostPayment(t)) && y < |db.credit|
    ensures PostAccepted(db, t, today).credit[y] == Unallocated(PostAccepted(db, t, today), y)
  {
    hide PaidOk, Balanced, Applied, AllRows, AppliedOf, AssessmentsOk;
    var after := PostAccepted(db, t, today);
    assert BillOk(db.bills[t.bill]);
    forall i | 0 <= i < |db.payments|
      ensures LeftoverFor(after.bills, after.allocations, y, db.payments[i]) == LeftoverFor(db.bills, db.allocations, y, db.payments[i]) {
      assert PaymentOk(db, i);
      AppliedAfterPost(db, t, today, i);
    }
    SumPush(db.payments, NewPayment(db, t, today), (p: Payment) => LeftoverFor(after.bills, after.allocations, y, p));
    SumSame(db.payments, (p: Payment) => LeftoverFor(after.bills, after.allocations, y, p),
            (p: Payment) => LeftoverFor(db.bills, db.allocations, y, p));
    AppliedAfterPost(db, t, today, |db.payments|);
  }

  lemma PostKeepsBalance(db: Db, t: Tender, today: int)
    requires Balanced(db) && Callable(db, PostPayment(t))
    ensures Balanced(PostAccepted(db, t, today))
  {
    hide AppliedOf, AllRows;
    var applied := AppliedOf(db, t, today);
    SumPush(db.payments, NewPayment(db, t, today), ConfirmedAmount);
    SumUpdate(db.bills, t.bill, Credited(db.bills[t.bill], applied, today), PaidOf);
    var payer := db.bills[t.bill].payer;
    SumUpdate(db.credit, payer, db.credit[payer] + (t.amount - applied), Itself);
  }

  lemma PostKeepsMoney(db: Db, t: Tender, today: int)
    requires Inv(db) && Callable(db, PostPayment(t))
    ensures MoneyOk(PostAccepted(db, t, today))
  {
    var after := PostAccepted(db, t, today);
    assert BillOk(db.bills[t.bill]);
    PostKeepsPayments(db, t, today);
    PostKeepsBalance(db, t, today);
    forall b | 0 <= b < |after.bills| ensures after.bills[b].paid == PaidOn(after.payments, after.allocations, b) {
      PaidOnAfterPost(db, t, today, b);
    }
    forall y | 0 <= y < |after.credit| ensures after.credit[y] == Unallocated(after, y) {
      PostKeepsCredit(db, t, today, y);
    }
  }

  /** What a confirmed payment applied is part of what its bill counts as paid, so the floor at zero in a reversal
      never takes effect. */
  lemma ReversalNeverFloors(db: Db, p: nat)
    requires Inv(db) && Callable(db, ReversePayment(p)) && db.payments[p].status == Confirmed
    ensures 0 <= Applied(db.allocations, p) <= db.bills[db.payments[p].bill].paid
  {
    assert PaymentOk(db, p);
    var b := db.payments[p].bill;
    AppliedIs(db.allocations, p);
    forall i | 0 <= i < |db.allocations| ensures db.allocations[i].amount > 0 {
      assert AllocationOk(db, db.allocations[i]);
    }
    SumNonNegative(db.allocations, OfPayment(p));
    SumAtMost(db.allocations, OfPayment(p), (a: Allocation) =>
      if IsConfirmed(db.payments, a.payment) && db.payments[a.payment].bill == b then a.amount else 0);
  }

  lemma PaidOnAfterReverse(db: Db, p: nat, b: nat)
    requires PaymentsOk(db) && p < |db.payments| && db.payments[p].status == Confirmed
    ensures PaidOn(db.payments[p := db.payments[p].(status := Reversed)], db.allocations, b)
            == PaidOn(db.payments, db.allocations, b) - if b == db.payments[p].bill then Applied(db.allocations, p) else 0
  {
    var payments := db.payments[p := db.payments[p].(status := Reversed)];
    var f := (a: Allocation) => if IsConfirmed(db.payments, a.payment) && db.payments[a.payment].bill == b then a.amount else 0;
    var g := (a: Allocation) => if IsConfirmed(payments, a.payment) && payments[a.payment].bill == b then a.amount else 0;
    AppliedIs(db.allocations, p);
    if b == db.payments[p].bill {
      SumAdd(db.allocations, g, OfPayment(p), f);
    } else {
      SumSame(db.allocations, f, g);
    }
  }

  lemma ReverseKeepsCredit(db: Db, p: nat, today: int, y: nat)
    requires Inv(db) && Callable(db, ReversePayment(p)) && db.payments[p].status == Confirmed && y < |db.credit|
    ensures ReverseConfirmed(db, p, today).credit[y] == Unallocated(ReverseConfirmed(db, p, today), y)
  {
    hide PaidOk, Balanced, Applied;
    var after := ReverseConfirmed(db, p, today);
    var f := (q: Payment) => LeftoverFor(db.bills, db.allocations, y, q);
    var g := (q: Payment) => LeftoverFor(after.bills, after.allocations, y, q);
    assert PaymentOk(db, p);
    SumUpdate(db.payments, p, after.payments[p], g);
    SumSame(db.payments, f, g);
  }

  lemma ReverseKeepsMoney(db: Db, p: nat, today: int)
    requires Inv(db) && Callable(db, ReversePayment(p)) && db.payments[p].status == Confirmed
    ensures MoneyOk(ReverseConfirmed(db, p, today))
  {
    hide Applied, AssessmentsOk, PaidOn;
    var after := ReverseConfirmed(db, p, today);
    var b := db.payments[p].bill;
    assert PaymentOk(db, p);
    ReversalNeverFloors(db, p);
    forall q | 0 <= q < |after.payments| ensures PaymentOk(after, q) {
      assert PaymentOk(db, q);
    }
    forall i | 0 <= i < |db.allocations| ensures AllocationOk(after, db.allocations[i]) {
      assert AllocationOk(db, db.allocations[i]);
    }
    forall c | 0 <= c < |after.bills| ensures after.bills[c].paid == PaidOn(after.payments, after.allocations, c) {
      PaidOnAfterReverse(db, p, c);
    }
    forall y | 0 <= y < |after.credit| ensures after.credit[y] == Unallocated(after, y) {
      ReverseKeepsCredit(db, p, today, y);
    }
    SumUpdate(db.payments, p, after.payments[p], ConfirmedAmount);
    SumUpdate(db.bills, b, after.bills[b], PaidOf);
    var payer := db.bills[b].payer;
    SumUpdate(db.credit, payer, after.credit[payer], Itself);
  }

  // ---- every run ----

  lemma PostKeepsInv(db: Db, t: Tender, today: int)
    requires Inv(db) && Callable(db, PostPayment(t)) && !Terminal(db.bills[t.bill].status)
    ensures Inv(PostAccepted(db, t, today))
  {
    PostKeepsRows(db, t, today);
    PostKeepsMoney(db, t, today);
  }

  lemma ReverseKeepsInv(db: Db, p: nat, today: int)
    requires Inv(db) && Callable(db, ReversePayment(p)) && db.payments[p].status == Confirmed
    ensures Inv(ReverseConfirmed(db, p, today))
  {
    ReverseKeepsRows(db, p, today);
    ReverseKeepsMoney(db, p, today);
  }

  lemma IssueKeepsInv(db: Db, r: IssueRequest, clock: Clock)
    requires Inv(db) && QueriedOn(r, db) && InTable(r.drafts, |db.assessments|) && InTable(r.openBills, |db.bills|)
    ensures Inv(Kept(db, Issue(db, r, clock)))
  {
    if Prepare(db, r, clock).Ok? {
      var m := Prepare(db, r, clock).value;
      PreparedTableOk(db, r, clock);
      IssueKeepsRows(db, r, m, clock);
      IssueKeepsMoney(db, r, m, clock);
    }
  }

  lemma LineEditKeepsInv(db: Db, m: Move)
    requires Inv(db) && Callable(db, m.step)
    requires m.step.AddBillLine? || m.step.UpdateBillLine? || m.step.DeleteBillLine?
    ensures Inv(Apply(db, m))
  {
    var day := m.clock.day;
    match m.step
    case AddBillLine(b, o) =>
      if AddLine(db, b, o, day).Ok? { AddKeepsRows(db, b, o, day); AddKeepsMoney(db, b, o, day); }
    case UpdateBillLine(b, j, amount) =>
      if UpdateLine(db, b, j, amount, day).Ok? { UpdateKeepsRows(db, b, j, amount, day); UpdateKeepsMoney(db, b, j, amount, day); }
    case DeleteBillLine(b, j) =>
      if DeleteLine(db, b, j, day).Ok? { DeleteKeepsRows(db, b, j, day); DeleteKeepsMoney(db, b, j, day); }
  }

  lemma DebtStepKeepsInv(db: Db, m: Move)
    requires Inv(db) && Callable(db, m.step)
    requires m.step.RefreshDebt? || m.step.EscalateDebt?
    ensures Inv(Apply(db, m))
  {
    match m.step
    case RefreshDebt =>
      RefreshKeepsRows(db, m.clock.day);
      RefreshKeepsMoney(db, m.clock.day);
    case EscalateDebt(b) =>
      if Enforcement.Escalate(db, b, m.clock.day).Ok? {
        EscalateKeepsRows(db, b, m.clock.day);
        EditKeepsMoney(db, Enforcement.Escalate(db, b, m.clock.day).value, b);
      }
  }

  lemma MoneyStepKeepsInv(db: Db, m: Move)
    requires Inv(db) && Callable(db, m.step)
    requires m.step.PostPayment? || m.step.ReversePayment?
    ensures Inv(Apply(db, m))
  {
    match m.step
    case PostPayment(t) => if Post(db, t, m.clock.day).Ok? { PostKeepsInv(db, t, m.clock.day); }
    case ReversePayment(p) => if Reverse(db, p, m.clock.day).Ok? { ReverseKeepsInv(db, p, m.clock.day); }
  }

  /** Every service, accepted or refused, keeps the invariant. */
  lemma StepKeepsInv(db: Db, m: Move)
    requires Inv(db)
    ensures Inv(Apply(db, m))
  {
    if Callable(db, m.step) {
      match m.step
      case DraftAssessment(payer, o) => DraftKeepsInv(db, payer, o);
      case IssueBill(r) => QueriedInTable(r, db); IssueKeepsInv(db, r, m.clock);
      case AddBillLine(_, _) => LineEditKeepsInv(db, m);
      case UpdateBillLine(_, _, _) => LineEditKeepsInv(db, m);
      case DeleteBillLine(_, _) => LineEditKeepsInv(db, m);
      case PostPayment(_) => MoneyStepKeepsInv(db, m);
      case ReversePayment(_) => MoneyStepKeepsInv(db, m);
      case RefreshDebt => DebtStepKeepsInv(db, m);
      case EscalateDebt(_) => DebtStepKeepsInv(db, m);
    }
  }

  lemma DraftKeepsInv(db: Db, payer: nat, o: Order)
    requires Inv(db)
    ensures Inv(Kept(db, CreateDraft(db, payer, o)))
  {
    if CreateDraft(db, payer, o).Ok? {
      PricesWithinBounds(o);
      var after := CreateDraft(db, payer, o).value;
      forall b | 0 <= b < |db.bills| ensures BillLinked(after, b) {
        assert BillLinked(db, b);
        forall i | 0 <= i < |db.bills[b].lines| ensures LineLinked(after, b, after.bills[b].lines[i]) {
          assert LineLinked(db, b, db.bills[b].lines[i]);
        }
      }
      AllocationsOnSameLines(db, after.bills);
      FrameKeepsMoney(db, after);
    }
  }

  lemma {:induction false} EmptyBalances(payers: nat)
    ensures Sum(seq(payers, _ => 0), Itself) == 0
  {
    SumZero(seq(payers, _ => 0), Itself);
  }

  /** Every run of the services, from an empty ledger, keeps every stored copy of the money in agreement. */
  lemma {:induction false} EveryRunKeepsInv(payers: nat, moves: seq<Move>)
    ensures Inv(Run(Empty(payers), moves))
  {
    if moves == [] {
      EmptyBalances(payers);
    } else {
      EveryRunKeepsInv(payers, moves[..|moves| - 1]);
      StepKeepsInv(Run(Empty(payers), moves[..|moves| - 1]), moves[|moves| - 1]);
    }
  }
}
