/** Debt cases over whole runs of the ledger. */
module DebtLaws {
  import opened Prelude
  import opened Sums
  import opened Tables
  import opened Revenue
  import opened Billing
  import opened Payments
  import opened Ledger
  import opened Enforcement
  import LineLaws

  /** One step of a case: unchanged in stage, one rung up the ladder, or straight to CLOSED; a closed case never
      changes at all. */
  ghost predicate CaseMoves(c: DebtCase, d: DebtCase) {
    && (c.stage == Closed ==> d == c)
    && (d.stage == c.stage || d.stage == Closed || Rung(d.stage) == Rung(c.stage) + 1)
    && d.reminders >= c.reminders
  }

  ghost predicate CaseKept(b: Bill, after: Bill) {
    b.debtCase.Some? ==> after.debtCase.Some? && CaseMoves(b.debtCase.value, after.debtCase.value)
  }

  lemma RecomputeKeepsCase(b: Bill, today: int)
    ensures Recompute(b, today).debtCase == b.debtCase
  {
  }

  lemma CloseMovesCase(b: Bill, after: Bill, today: int)
    requires after.debtCase == b.debtCase
    ensures CaseKept(b, CloseCase(after, today))
  {
  }

  lemma EscalateMovesCase(c: DebtCase, today: int)
    requires EscalateCase(c, today).Ok?
    ensures CaseMoves(c, EscalateCase(c, today).value) && Rung(EscalateCase(c, today).value.stage) == Rung(c.stage) + 1
    ensures EscalateCase(c, today).value.stage == Closed ==> EscalateCase(c, today).value.closedOn == Some(today)
  {
  }

  /** Escalation is refused exactly on a closed case. */
  lemma EscalateRefusedIff(c: DebtCase, today: int)
    ensures EscalateCase(c, today).Err? <==> c.stage == Closed
  {
    assert LADDER[Rung(c.stage)] == c.stage;
  }

  lemma RefreshMovesCase(b: Bill, today: int)
    ensures CaseKept(b, RefreshBill(b, today))
  {
  }

  lemma IssueMovesCase(db: Db, r: IssueRequest, m: Merge, clock: Clock, i: nat)
    requires RowsOk(db) && InTable(r.openBills, |db.bills|) && InTable(m.kept, |m.table|) && i < |db.bills|
    ensures CaseKept(db.bills[i], IssueMerged(db, r, m, clock).bills[i])
  {
    hide RowsOk;
    IssueLeavesOldBills(db, r, m, clock, i);
    var b := db.bills[i];
    CloseMovesCase(b, b.(status := Superseded, successor := Some(|db.bills|), updatedOn := clock.day), clock.day);
  }

  lemma PostMovesCase(db: Db, t: Tender, today: int, i: nat)
    requires Callable(db, PostPayment(t)) && i < |db.bills|
    ensures CaseKept(db.bills[i], PostAccepted(db, t, today).bills[i])
  {
    var b := db.bills[t.bill];
    var paid := b.(paid := b.paid + AppliedOf(db, t, today));
    RecomputeKeepsCase(paid, today);
    CloseMovesCase(b, Recompute(paid, today), today);
  }

  lemma EditMovesCase(db: Db, m: Move, i: nat)
    requires Callable(db, m.step) && i < |db.bills|
    requires m.step.DraftAssessment? || m.step.AddBillLine? || m.step.UpdateBillLine? || m.step.DeleteBillLine? || m.step.ReversePayment?
    ensures i < |Apply(db, m).bills| && Apply(db, m).bills[i].debtCase == db.bills[i].debtCase
  {
    hide MergeTarget, NextPosition, Price, ReplaceLine, Applied;
  }

  lemma StepMovesCase(db: Db, m: Move, i: nat)
    requires Inv(db) && i < |db.bills|
    ensures i < |Apply(db, m).bills| && CaseKept(db.bills[i], Apply(db, m).bills[i])
  {
    if Callable(db, m.step) {
      match m.step
      case IssueBill(r) =>
        QueriedInTable(r, db);
        if Prepare(db, r, m.clock).Ok? { IssueMovesCase(db, r, Prepare(db, r, m.clock).value, m.clock, i); }
      case PostPayment(t) => if Post(db, t, m.clock.day).Ok? { PostMovesCase(db, t, m.clock.day, i); }
      case RefreshDebt => RefreshMovesCase(db.bills[i], m.clock.day);
      case EscalateDebt(b) =>
        if Escalate(db, b, m.clock.day).Ok? { EscalateMovesCase(db.bills[b].debtCase.value, m.clock.day); }
      case _ => EditMovesCase(db, m, i);
    }
  }

  /** Over any run a case only climbs the ladder, never reopens once closed, and is dated closed exactly when it is
      closed; no superseded bill has an open case. */
  lemma {:induction false} CasesOnlyClimb(db: Db, moves: seq<Move>, i: nat)
    requires Inv(db) && i < |db.bills|
    ensures Inv(Run(db, moves)) && i < |Run(db, moves).bills|
    ensures var b, after := db.bills[i], Run(db, moves).bills[i];
            && CaseOk(after)
            && (b.debtCase.Some? ==>
                  && after.debtCase.Some? && Rung(b.debtCase.value.stage) <= Rung(after.debtCase.value.stage)
                  && (b.debtCase.value.stage == Closed ==> after.debtCase == b.debtCase))
  {
    if moves != [] {
      var n := |moves| - 1;
      hide Apply;
      CasesOnlyClimb(db, moves[..n], i);
      StepKeepsInv(Run(db, moves[..n]), moves[n]);
      StepMovesCase(Run(db, moves[..n]), moves[n], i);
    }
    assert BillOk(Run(db, moves).bills[i]);
  }

  // ---- ageing ----

  lemma RefreshTwice(b: Bill, today: int)
    ensures RefreshBill(RefreshBill(b, today), today) == RefreshBill(b, today)
    ensures !Opens(RefreshBill(b, today), today) && !Rebuckets(RefreshBill(b, today), today)
  {
  }

  /** A second refresh on the same day opens nothing, moves nothing and changes nothing. */
  lemma SecondRefreshDoesNothing(db: Db, today: int)
    ensures Refresh(Refresh(db, today), today) == Refresh(db, today)
    ensures Count(Refresh(db, today).bills, (b: Bill) => Opens(b, today)) == 0
    ensures Count(Refresh(db, today).bills, (b: Bill) => Rebuckets(b, today)) == 0
  {
    hide RefreshBill, Opens, Rebuckets;
    var bills := Refresh(db, today).bills;
    forall i | 0 <= i < |bills|
      ensures RefreshBill(bills[i], today) == bills[i] && !Opens(bills[i], today) && !Rebuckets(bills[i], today) {
      RefreshTwice(db.bills[i], today);
    }
    SumZero(bills, (b: Bill) => if ((b: Bill) => Opens(b, today))(b) then 1 else 0);
    SumZero(bills, (b: Bill) => if ((b: Bill) => Rebuckets(b, today))(b) then 1 else 0);
  }

  /** After a refresh every overdue bill is marked so and has a case; an open case sits in the bucket of its age. */
  lemma RefreshLeavesEveryOverdueBillACase(db: Db, today: int, i: nat)
    requires i < |db.bills| && Ageing(db.bills[i], today)
    ensures var b := Refresh(db, today).bills[i];
            && b.status == Overdue && b.debtCase.Some?
            && (b.debtCase.value.stage != Closed ==> b.debtCase.value.bucket == BucketFor(today - b.dueOn))
            && (db.bills[i].debtCase.None? ==> b.debtCase.value.stage == FirstNotice)
  {
  }

  /** The ladder, rung by rung: NONE, FIRST_NOTICE, FINAL_NOTICE, ENFORCEMENT, LEGAL, CLOSED. A step counts a reminder, and the
      last one dates the closing. */
  lemma EscalationClimbs(c: DebtCase, today: int)
    ensures match c.stage
            case NoNotice => EscalateCase(c, today) == Ok(DebtCase(c.bucket, FirstNotice, c.reminders + 1, c.closedOn))
            case FirstNotice => EscalateCase(c, today) == Ok(DebtCase(c.bucket, FinalNotice, c.reminders + 1, c.closedOn))
            case FinalNotice => EscalateCase(c, today) == Ok(DebtCase(c.bucket, Enforced, c.reminders + 1, c.closedOn))
            case Enforced => EscalateCase(c, today) == Ok(DebtCase(c.bucket, Legal, c.reminders + 1, c.closedOn))
            case Legal => EscalateCase(c, today) == Ok(DebtCase(c.bucket, Closed, c.reminders + 1, Some(today)))
            case Closed => EscalateCase(c, today) == Err(AlreadyAtFinalStage)
  {
    assert Rung(c.stage) < |LADDER| && LADDER[Rung(c.stage)] == c.stage;
  }

  /** The bucket of a debt: up to 30 days late, up to 60, up to 90, or more. */
  ghost predicate InBucket(b: Bucket, days: int) {
    match b
    case UpTo30 => days <= 30
    case UpTo60 => 30 < days <= 60
    case UpTo90 => 60 < days <= 90
    case Over90 => 90 < days
  }

  /** Ageing one bill, on any ledger: a bill that is ISSUED, PART_PAID or OVERDUE past its due day ends OVERDUE with a case in
      the bucket of its lateness, a new one at first notice and a closed one left alone; any other bill is left alone.
      It counts as opened without a case before, and as updated when an open case changes bucket. */
  lemma AgeingIs(db: Db, clock: Clock, i: nat) returns (bucket: Bucket)
    requires i < |db.bills|
    ensures InBucket(bucket, clock.day - db.bills[i].dueOn)
    ensures var after := Apply(db, Move(RefreshDebt, clock));
            var b, today := db.bills[i], clock.day;
            var late := (b.status == BillStatus.Issued || b.status == PartPaid || b.status == Overdue) && b.dueOn < today;
            && after == db.(bills := after.bills) && |after.bills| == |db.bills|
            && (!late ==> after.bills[i] == b)
            && (late ==>
                  after.bills[i] == b.(
                    status := Overdue, updatedOn := if b.status == Overdue then b.updatedOn else today,
                    debtCase := Some(match b.debtCase
                                     case None => DebtCase(bucket, FirstNotice, 0, None)
                                     case Some(c) => if c.stage == Closed then c else c.(bucket := bucket))))
            && (Opens(b, today) <==> late && b.debtCase.None?)
            && (Rebuckets(b, today) <==>
                  late && b.debtCase.Some? && b.debtCase.value.stage != Closed && !InBucket(b.debtCase.value.bucket, today - b.dueOn))
  {
    bucket := BucketFor(clock.day - db.bills[i].dueOn);
  }

  // ---- "closes the moment its bill is fully paid" ----

  predicate OpenCase(b: Bill) {
    b.debtCase.Some? && b.debtCase.value.stage != Closed
  }

  /** Paying a bill off does close its case. */
  lemma PayingOffClosesCase(db: Db, t: Tender, today: int)
    requires Callable(db, PostPayment(t))
    ensures PostAccepted(db, t, today).bills[t.bill].status == Paid ==> !OpenCase(PostAccepted(db, t, today).bills[t.bill])
  {
  }

  /** A reversal never leaves a paid bill with an open case it did not have. */
  lemma ReversalOpensNoPaidCase(db: Db, p: nat, today: int)
    requires Inv(db) && Callable(db, ReversePayment(p)) && db.payments[p].status == Confirmed
    requires var b := db.bills[db.payments[p].bill]; b.status == Paid ==> !OpenCase(b)
    ensures var b := ReverseConfirmed(db, p, today).bills[db.payments[p].bill]; b.status == Paid ==> !OpenCase(b)
  {
    hide MoneyOk, Applied;
    ReversalNeverFloors(db, p);
    assert BillOk(db.bills[db.payments[p].bill]);
  }

  /** But a bill can also become paid when its lines change, and then nothing closes its case. Lowering a line leaves a paid
      bill with an open case exactly when the bill was live with an open case and what is already paid covers its new,
      positive total. */
  lemma UpdateLeavesPaidBillWithOpenCaseIff(db: Db, b: nat, j: nat, amount: int, today: int)
    requires Inv(db) && Callable(db, UpdateBillLine(b, j, amount)) && UpdateLine(db, b, j, amount, today).Ok?
    ensures var bill, after := db.bills[b], UpdateLine(db, b, j, amount, today).value.bills[b];
            after.status == Paid && OpenCase(after)
            <==> !Terminal(bill.status) && OpenCase(bill) && bill.paid >= bill.total + amount - bill.lines[j].amount > 0
  {
    hide MoneyOk, LinksOk;
    var bill := db.bills[b];
    assert BillOk(bill);
    SumUpdate(bill.lines, j, Edited(bill.lines[j], amount), AmountOf);
  }

  /** So does deleting a line, under the same condition on the total it leaves. */
  lemma DeleteLeavesPaidBillWithOpenCaseIff(db: Db, b: nat, j: nat, today: int)
    requires Inv(db) && Callable(db, DeleteBillLine(b, j)) && DeleteLine(db, b, j, today).Ok?
    ensures var bill, after := db.bills[b], DeleteLine(db, b, j, today).value.bills[b];
            after.status == Paid && OpenCase(after)
            <==> !Terminal(bill.status) && OpenCase(bill) && bill.paid >= bill.total - bill.lines[j].amount > 0
  {
    hide MoneyOk, LinksOk, HasAllocations;
    var bill := db.bills[b];
    assert BillOk(bill);
    SumRemove(bill.lines, j, AmountOf);
  }

  /** And adding one, where the line it folds into had run ahead of its assessment by more than the price. */
  lemma AddLeavesPaidBillWithOpenCaseIff(db: Db, b: nat, o: Order, today: int)
    requires Inv(db) && b < |db.bills| && AddLine(db, b, o, today).Ok?
    ensures var bill, after := db.bills[b], AddLine(db, b, o, today).value.bills[b];
            after.status == Paid && OpenCase(after)
            <==> !Terminal(bill.status) && OpenCase(bill)
                 && bill.paid >= bill.total + Price(o).value.amount + LineLaws.Drift(db, MergeTarget(db, b, o)) > 0
  {
    hide RowsOk, MoneyOk, MergeTarget, NextPosition, ReplaceLine, Sum;
    MergeTargetIsOnBill(db, b, o);
    LineLaws.MergeTargetCites(db, b, o);
    var added := NewAssessment(db.bills[b].payer, o, Price(o).value);
    match MergeTarget(db, b, o)
    case Some(l) => LineLaws.AddToLineRaisesTotal(db, b, l, added, today);
    case None => LineLaws.AppendRaisesTotal(db, b, added, today);
  }
}
