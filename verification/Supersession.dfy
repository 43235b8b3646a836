/** The tree of superseded bills over whole runs. */
module Supersession {
  import opened Prelude
  import opened Sums
  import opened Tables
  import opened Revenue
  import opened Billing
  import opened Payments
  import opened Ledger
  import opened PaymentLaws
  import opened Consolidation
  import Enforcement

  // ---- superseded is forever ----

  /** Bill `i` is still superseded by the same bill, and no payment to it has been added. */
  ghost predicate StaysSuperseded(db: Db, after: Db, i: nat)
    requires i < |db.bills|
  {
    && i < |after.bills| && after.bills[i].status == Superseded && after.bills[i].successor == db.bills[i].successor
    && |after.payments| >= |db.payments|
    && forall p | |db.payments| <= p < |after.payments| :: after.payments[p].bill != i
  }

  lemma IssueLeavesSuperseded(db: Db, r: IssueRequest, m: Merge, clock: Clock, i: nat)
    requires Inv(db) && QueriedOn(r, db) && InTable(r.openBills, |db.bills|) && InTable(m.kept, |m.table|)
    requires i < |db.bills| && db.bills[i].status == Superseded
    ensures StaysSuperseded(db, IssueMerged(db, r, m, clock), i)
  {
    IssueLeavesOldBills(db, r, m, clock, i);
    assert i in r.openBills <==> IsOpenBillOf(db, r.payer, i);
  }

  lemma StepLeavesSuperseded(db: Db, m: Move, i: nat)
    requires Inv(db) && i < |db.bills| && db.bills[i].status == Superseded
    ensures StaysSuperseded(db, Apply(db, m), i)
  {
    if Callable(db, m.step) && m.step.IssueBill? {
      QueriedInTable(m.step.request, db);
      if Prepare(db, m.step.request, m.clock).Ok? {
        IssueLeavesSuperseded(db, m.step.request, Prepare(db, m.step.request, m.clock).value, m.clock, i);
      }
    } else if Callable(db, m.step) {
      NonIssueLeavesSuperseded(db, m, i);
    }
  }

  lemma NonIssueLeavesSuperseded(db: Db, m: Move, i: nat)
    requires i < |db.bills| && db.bills[i].status == Superseded && Callable(db, m.step) && !m.step.IssueBill?
    ensures StaysSuperseded(db, Apply(db, m), i)
  {
    match m.step
    case RefreshDebt => assert Enforcement.Refresh(db, m.clock.day).bills[i] == db.bills[i];
    case _ =>
  }

  /** Whatever happens next, a superseded bill stays superseded by the same later bill of the same payer and takes no
      further payment. */
  lemma {:induction false} SupersededForever(db: Db, moves: seq<Move>, i: nat)
    requires Inv(db) && i < |db.bills| && db.bills[i].status == Superseded
    ensures Inv(Run(db, moves)) && StaysSuperseded(db, Run(db, moves), i)
    ensures var bills := Run(db, moves).bills;
            db.bills[i].successor.Some? && i < db.bills[i].successor.value < |bills|
            && bills[db.bills[i].successor.value].payer == bills[i].payer
  {
    hide PaymentsOk, PaidOk, CreditOk, Balanced;
    if moves != [] {
      var n := |moves| - 1;
      SupersededForever(db, moves[..n], i);
      StepKeepsInv(Run(db, moves[..n]), moves[n]);
      StepLeavesSuperseded(Run(db, moves[..n]), moves[n], i);
    }
    assert BillOk(db.bills[i]);
    assert BillLinked(Run(db, moves), i);
  }

  /** Every reachable supersession relation is a forest with later bills as parents, so the history recursion ends. */
  lemma ReachableBillsAreAForest(payers: nat, moves: seq<Move>)
    ensures Forest(Run(Empty(payers), moves).bills)
  {
    EveryRunKeepsInv(payers, moves);
    var db := Run(Empty(payers), moves);
    forall i | 0 <= i < |db.bills| && db.bills[i].successor.Some? ensures i < db.bills[i].successor.value < |db.bills| {
      assert BillLinked(db, i);
    }
  }

  // ---- the tree law ----

  /** What a bill still owed when `b` superseded it. */
  function SweptInto(bills: seq<Bill>, b: nat): nat -> int {
    (p: nat) => if IsSupersededBy(bills, p, b) then bills[p].total - bills[p].paid else 0
  }

  /** The balances `b` swept from bills before `n`. */
  function SweptTotal(bills: seq<Bill>, b: nat, n: nat): int {
    Sum<nat>(UpTo(n), SweptInto(bills, b))
  }

  /** Each bill's arrears are the balances of the bills it superseded. */
  ghost predicate ArrearsLaw(bills: seq<Bill>) {
    forall b | 0 <= b < |bills| :: bills[b].arrears == SweptTotal(bills, b, b)
  }

  ghost predicate Covered(db: Db, lines: seq<Line>) {
    forall i | 0 <= i < |lines| :: PaidTo(db, lines[i].id) <= lines[i].amount
  }

  ghost predicate NoLineOverpaid(db: Db) {
    forall b | 0 <= b < |db.bills| :: Covered(db, db.bills[b].lines)
  }

  ghost predicate TidyInv(db: Db) {
    Inv(db) && ArrearsLaw(db.bills) && NoLineOverpaid(db)
  }

  /** Money paid on the bills below `b` that come before `n`. */
  function PaidUnder(bills: seq<Bill>, b: nat, n: nat): int
    requires n <= b < |bills|
    decreases b, n
  {
    if n == 0 then 0
    else PaidUnder(bills, b, n - 1)
         + if IsSupersededBy(bills, n - 1, b) then bills[n - 1].paid + PaidUnder(bills, n - 1, n - 1) else 0
  }

  lemma LinesBelowStep(bills: seq<Bill>, b: nat, n: nat)
    requires 0 < n <= b < |bills|
    ensures Sum(LinesBelow(bills, b, n), CurrentOf) == Sum(LinesBelow(bills, b, n - 1), CurrentOf)
            + if IsSupersededBy(bills, n - 1, b) then Sum(AllLines(bills, n - 1), CurrentOf) else 0
  {
    SumConcat(LinesBelow(bills, b, n - 1), if IsSupersededBy(bills, n - 1, b) then AllLines(bills, n - 1) else [], CurrentOf);
  }

  lemma TreeUnderStep(bills: seq<Bill>, b: nat, n: nat)
    requires 0 < n <= b < |bills|
    requires Sum(LinesBelow(bills, b, n - 1), CurrentOf) == SweptTotal(bills, b, n - 1) + PaidUnder(bills, b, n - 1)
    requires IsSupersededBy(bills, n - 1, b) ==>
               Sum(AllLines(bills, n - 1), CurrentOf) == bills[n - 1].total + PaidUnder(bills, n - 1, n - 1)
    ensures Sum(LinesBelow(bills, b, n), CurrentOf) == SweptTotal(bills, b, n) + PaidUnder(bills, b, n)
  {
    SumPush<nat>(UpTo(n - 1), n - 1, SweptInto(bills, b));
    LinesBelowStep(bills, b, n);
  }

  lemma {:induction false} TreeUnder(bills: seq<Bill>, b: nat, n: nat)
    requires n <= b < |bills| && BillsOk(bills) && ArrearsLaw(bills)
    ensures Sum(LinesBelow(bills, b, n), CurrentOf) == SweptTotal(bills, b, n) + PaidUnder(bills, b, n)
    decreases b, 0, n
  {
    if n > 0 {
      TreeUnder(bills, b, n - 1);
      TreeTotal(bills, n - 1);
      TreeUnderStep(bills, b, n);
    }
  }

  /** Over a bill's whole history each charge counts once: the current amounts of all its lines, however deep, are its
      total plus everything paid on the bills below it. */
  lemma {:induction false} TreeTotal(bills: seq<Bill>, b: nat)
    requires b < |bills| && BillsOk(bills) && ArrearsLaw(bills)
    ensures Sum(AllLines(bills, b), CurrentOf) == bills[b].total + PaidUnder(bills, b, b)
    decreases b, 1, 0
  {
    var lines := bills[b].lines;
    assert BillOk(bills[b]);
    WalkIsCreationOrder(lines);
    TreeUnder(bills, b, b);
    SumConcat(lines, LinesBelow(bills, b, b), CurrentOf);
    SumAdd(lines, CurrentOf, ArrearsOf, AmountOf);
  }

  // ---- steps that keep the tree law ----

  /** Steps that leave settled history alone: no edit or reversal on a superseded bill, no line lowered below what is
      paid on it, no line with carried arrears deleted, and no charge merged into a line whose assessment has fallen
      below the line's own charge. */
  ghost predicate Tidy(db: Db, s: Step) {
    Callable(db, s) ==>
      match s
      case AddBillLine(b, o) =>
        db.bills[b].status != Superseded
        && var l := MergeTarget(db, b, o);
           l.Some? ==> l.value.current <= db.assessments[l.value.assessment].amount
      case UpdateBillLine(b, j, amount) =>
        db.bills[b].status != Superseded && PaidTo(db, db.bills[b].lines[j].id) <= amount
      case DeleteBillLine(b, j) => db.bills[b].status != Superseded && db.bills[b].lines[j].arrears == 0
      case ReversePayment(p) => db.bills[db.payments[p].bill].status != Superseded
      case _ => true
  }

  ghost predicate TidyRun(db: Db, moves: seq<Move>) {
    moves == [] || (TidyRun(db, moves[..|moves| - 1]) && Tidy(Run(db, moves[..|moves| - 1]), moves[|moves| - 1].step))
  }

  /** Changing only bills that nothing supersedes, and no bill's arrears, keeps the law. */
  lemma FrameKeepsArrearsLaw(bills: seq<Bill>, after: seq<Bill>)
    requires ArrearsLaw(bills) && |after| == |bills|
    requires forall i | 0 <= i < |bills| :: after[i].arrears == bills[i].arrears && after[i].successor == bills[i].successor
    requires forall i | 0 <= i < |bills| && bills[i].successor.Some? :: after[i].total == bills[i].total && after[i].paid == bills[i].paid
    ensures ArrearsLaw(after)
  {
    forall b | 0 <= b < |after| ensures after[b].arrears == SweptTotal(after, b, b) {
      SumSame<nat>(UpTo(b), SweptInto(bills, b), SweptInto(after, b));
    }
  }

  /** Editing one bill that is not superseded, keeping its arrears and covering its lines, is tidy. */
  lemma EditStaysTidy(db: Db, after: Db, b: nat)
    requires TidyInv(db) && b < |db.bills| == |after.bills| && db.bills[b].status != Superseded
    requires forall i | 0 <= i < |db.bills| && i != b :: after.bills[i] == db.bills[i]
    requires after.bills[b].arrears == db.bills[b].arrears && after.bills[b].successor == db.bills[b].successor
    requires forall i, j | 0 <= i < |db.bills| && i != b && 0 <= j < |db.bills[i].lines| ::
               PaidTo(after, db.bills[i].lines[j].id) <= PaidTo(db, db.bills[i].lines[j].id)
    requires Covered(after, after.bills[b].lines)
    ensures ArrearsLaw(after.bills) && NoLineOverpaid(after)
  {
    assert BillOk(db.bills[b]);
    FrameKeepsArrearsLaw(db.bills, after.bills);
    forall i | 0 <= i < |after.bills| ensures Covered(after, after.bills[i].lines) {
      assert Covered(db, db.bills[i].lines);
    }
  }

  lemma ReplacedArrears(lines: seq<Line>, l: Line)
    requires forall i | 0 <= i < |lines| && lines[i].id == l.id :: lines[i].arrears == l.arrears
    ensures Sum(ReplaceLine(lines, l), ArrearsOf) == Sum(lines, ArrearsOf)
  {
    SumAlong(lines, ReplaceLine(lines, l), ArrearsOf, ArrearsOf);
  }

  lemma SameIdSameLine(lines: seq<Line>, l: Line)
    requires Ordered(lines) && l in lines
    ensures forall i | 0 <= i < |lines| && lines[i].id == l.id :: lines[i] == l
  {
    var j :| 0 <= j < |lines| && lines[j] == l;
    forall i | 0 <= i < |lines| && i != j ensures lines[i].id != l.id {
      if i < j { assert lines[i].id < lines[j].id; } else { assert lines[j].id < lines[i].id; }
    }
  }

  /** A line id not handed out yet has nothing paid on it. */
  lemma FreshLineUnpaid(db: Db, id: nat)
    requires Inv(db) && id >= |db.lineBill|
    ensures PaidTo(db, id) == 0
  {
    forall i | 0 <= i < |db.allocations| ensures db.allocations[i].line < |db.lineBill| {
      var a := db.allocations[i];
      assert AllocationOk(db, a);
      var c := db.payments[a.payment].bill;
      var j :| 0 <= j < |db.bills[c].lines| && db.bills[c].lines[j].id == a.line;
      assert BillLinked(db, c) && LineLinked(db, c, db.bills[c].lines[j]);
    }
    LinePaidIs(db.payments, db.allocations, id);
    SumZero(db.allocations, OnLineIn(db.payments, id));
  }

  lemma AddStaysTidy(db: Db, b: nat, o: Order, today: int)
    requires TidyInv(db) && b < |db.bills| && Tidy(db, AddBillLine(b, o)) && AddLine(db, b, o, today).Ok?
    ensures ArrearsLaw(AddLine(db, b, o, today).value.bills)
    ensures NoLineOverpaid(AddLine(db, b, o, today).value)
  {
    PricesWithinBounds(o);
    assert BillOk(db.bills[b]);
    MergeTargetIsOnBill(db, b, o);
    var added := NewAssessment(db.bills[b].payer, o, Price(o).value);
    match MergeTarget(db, b, o)
    case Some(l) => AddToLineStaysTidy(db, b, l, added, today);
    case None => AppendStaysTidy(db, b, added, today);
  }

  lemma AddToLineStaysTidy(db: Db, b: nat, l: Line, added: Assessment, today: int)
    requires TidyInv(db) && b < |db.bills| && l in db.bills[b].lines && l.assessment < |db.assessments|
    requires db.bills[b].status != Superseded && added.amount >= 0 && l.current <= db.assessments[l.assessment].amount
    ensures ArrearsLaw(AddToLine(db, b, l, added, today).bills)
    ensures NoLineOverpaid(AddToLine(db, b, l, added, today))
  {
    var after := AddToLine(db, b, l, added, today);
    var lines := db.bills[b].lines;
    assert BillOk(db.bills[b]) && Covered(db, lines);
    var j :| 0 <= j < |lines| && lines[j] == l;
    assert LineOk(lines[j]);
    SameIdSameLine(lines, l);
    ReplacedArrears(lines, Merged(l, Absorb(db.assessments[l.assessment], added)));
    EditStaysTidy(db, after, b);
  }

  lemma AppendStaysTidy(db: Db, b: nat, added: Assessment, today: int)
    requires TidyInv(db) && b < |db.bills| && db.bills[b].status != Superseded && added.amount >= 0
    ensures ArrearsLaw(AppendLine(db, b, added, today).bills)
    ensures NoLineOverpaid(AppendLine(db, b, added, today))
  {
    var after := AppendLine(db, b, added, today);
    var lines := db.bills[b].lines;
    assert BillOk(db.bills[b]) && Covered(db, lines);
    SumPush(lines, after.bills[b].lines[|lines|], ArrearsOf);
    FreshLineUnpaid(db, |db.lineBill|);
    EditStaysTidy(db, after, b);
  }

  lemma UpdateStaysTidy(db: Db, b: nat, j: nat, amount: int, today: int)
    requires TidyInv(db) && Callable(db, UpdateBillLine(b, j, amount)) && Tidy(db, UpdateBillLine(b, j, amount))
    requires UpdateLine(db, b, j, amount, today).Ok?
    ensures ArrearsLaw(UpdateLine(db, b, j, amount, today).value.bills)
    ensures NoLineOverpaid(UpdateLine(db, b, j, amount, today).value)
  {
    var lines := db.bills[b].lines;
    assert BillOk(db.bills[b]) && Covered(db, lines);
    SumUpdate(lines, j, Edited(lines[j], amount), ArrearsOf);
    EditStaysTidy(db, UpdateLine(db, b, j, amount, today).value, b);
  }

  lemma DeleteFrames(db: Db, b: nat, j: nat, today: int)
    requires Inv(db) && Callable(db, DeleteBillLine(b, j)) && DeleteLine(db, b, j, today).Ok?
    requires db.bills[b].lines[j].arrears == 0
    ensures var bill, after := db.bills[b], DeleteLine(db, b, j, today).value.bills[b];
            && after.arrears == bill.arrears && after.successor == bill.successor
            && after.lines == bill.lines[..j] + bill.lines[j + 1..]
  {
    hide MoneyOk;
    assert BillOk(db.bills[b]);
    SumRemove(db.bills[b].lines, j, ArrearsOf);
  }

  lemma DeleteStaysTidy(db: Db, b: nat, j: nat, today: int)
    requires TidyInv(db) && Callable(db, DeleteBillLine(b, j)) && Tidy(db, DeleteBillLine(b, j))
    requires DeleteLine(db, b, j, today).Ok?
    ensures ArrearsLaw(DeleteLine(db, b, j, today).value.bills)
    ensures NoLineOverpaid(DeleteLine(db, b, j, today).value)
  {
    hide Inv, Recompute, ArrearsLaw, MergeTarget;
    var after := DeleteLine(db, b, j, today).value;
    var lines := db.bills[b].lines;
    assert Covered(db, lines);
    DeleteFrames(db, b, j, today);
    forall i | 0 <= i < |lines| - 1 ensures PaidTo(after, after.bills[b].lines[i].id) <= after.bills[b].lines[i].amount {
      assert after.bills[b].lines[i] == lines[if i < j then i else i + 1];
    }
    EditStaysTidy(db, after, b);
  }

  lemma PostCovers(db: Db, t: Tender, today: int)
    requires TidyInv(db) && Callable(db, PostPayment(t))
    ensures Covered(PostAccepted(db, t, today), PostAccepted(db, t, today).bills[t.bill].lines)
  {
    var after := PostAccepted(db, t, today);
    OutsAfterPost(db, t, today);
    assert Covered(db, db.bills[t.bill].lines);
    forall i | 0 <= i < |after.bills[t.bill].lines|
      ensures PaidTo(after, after.bills[t.bill].lines[i].id) <= after.bills[t.bill].lines[i].amount {
      assert OutsOn(db, t.bill)[i] >= 0;
      PostNeverOverpaysALine(db, t, today, i);
      assert OutsOn(after, t.bill)[i] >= 0;
    }
  }

  lemma PostLeavesOtherBills(db: Db, t: Tender, today: int, c: nat, i: nat)
    requires Inv(db) && Callable(db, PostPayment(t)) && c < |db.bills| && c != t.bill && i < |db.bills[c].lines|
    ensures PaidTo(PostAccepted(db, t, today), db.bills[c].lines[i].id) == PaidTo(db, db.bills[c].lines[i].id)
  {
    PostPaysOldestFirst(db, t, today, db.bills[c].lines[i].id);
    LineOnOneBill(db, c, i, t.bill);
  }

  lemma PostStaysTidy(db: Db, t: Tender, today: int, after: Db)
    requires Callable(db, PostPayment(t)) && !Terminal(db.bills[t.bill].status) && after == PostAccepted(db, t, today)
    requires TidyInv(db)
    ensures ArrearsLaw(after.bills) && NoLineOverpaid(after)
  {
    hide ArrearsLaw, Covered, NoLineOverpaid, LinePaid, Recompute, Enforcement.CloseCase;
    PostCovers(db, t, today);
    PostFrames(db, t, today);
    forall c, i | 0 <= c < |db.bills| && c != t.bill && 0 <= i < |db.bills[c].lines|
      ensures PaidTo(after, db.bills[c].lines[i].id) <= PaidTo(db, db.bills[c].lines[i].id) {
      PostLeavesOtherBills(db, t, today, c, i);
    }
    EditStaysTidy(db, after, t.bill);
  }

  lemma PostFrames(db: Db, t: Tender, today: int)
    requires Inv(db) && Callable(db, PostPayment(t))
    ensures PostAccepted(db, t, today).bills[t.bill].arrears == db.bills[t.bill].arrears
    ensures PostAccepted(db, t, today).bills[t.bill].successor == db.bills[t.bill].successor
  {
    assert BillOk(db.bills[t.bill]);
  }

  lemma LineOnOneBill(db: Db, c: nat, i: nat, b: nat)
    requires Inv(db) && c < |db.bills| && i < |db.bills[c].lines| && b < |db.bills| && b != c
    ensures !HasLine(db.bills[b].lines, db.bills[c].lines[i].id)
  {
    assert BillLinked(db, c) && LineLinked(db, c, db.bills[c].lines[i]);
    forall k | 0 <= k < |db.bills[b].lines| ensures db.bills[b].lines[k].id != db.bills[c].lines[i].id {
      assert BillLinked(db, b);
      assert LineLinked(db, b, db.bills[b].lines[k]);
    }
  }

  lemma ReverseFrames(db: Db, p: nat, today: int)
    requires Inv(db) && Callable(db, ReversePayment(p))
    ensures var bill, after := db.bills[db.payments[p].bill], ReverseConfirmed(db, p, today).bills[db.payments[p].bill];
            after.arrears == bill.arrears && after.successor == bill.successor && after.lines == bill.lines
  {
    assert BillOk(db.bills[db.payments[p].bill]);
  }

  lemma ReversalLowersLines(db: Db, p: nat, today: int)
    requires Inv(db) && Callable(db, ReversePayment(p)) && db.payments[p].status == Confirmed
    ensures forall id: nat :: PaidTo(ReverseConfirmed(db, p, today), id) <= PaidTo(db, id)
  {
    forall id: nat ensures PaidTo(ReverseConfirmed(db, p, today), id) <= PaidTo(db, id) {
      ReversalLowersLine(db, p, today, id);
    }
  }

  lemma ReverseStaysTidy(db: Db, p: nat, today: int)
    requires TidyInv(db) && Callable(db, ReversePayment(p)) && Tidy(db, ReversePayment(p)) && db.payments[p].status == Confirmed
    ensures ArrearsLaw(ReverseConfirmed(db, p, today).bills)
    ensures NoLineOverpaid(ReverseConfirmed(db, p, today))
  {
    hide Inv, PaidTo, ArrearsLaw;
    var after := ReverseConfirmed(db, p, today);
    var b := db.payments[p].bill;
    assert Covered(db, db.bills[b].lines);
    ReversalLowersLines(db, p, today);
    ReverseFrames(db, p, today);
    EditStaysTidy(db, after, b);
  }

  lemma ReversalLowersLine(db: Db, p: nat, today: int, id: nat)
    requires Inv(db) && Callable(db, ReversePayment(p)) && db.payments[p].status == Confirmed
    ensures PaidTo(ReverseConfirmed(db, p, today), id) <= PaidTo(db, id)
  {
    ReversalIsExact(db, p, today, id);
    forall i | 0 <= i < |db.allocations| ensures db.allocations[i].amount > 0 {
      assert AllocationOk(db, db.allocations[i]);
    }
    SumNonNegative(db.allocations, (a: Allocation) => if a.line == id && a.payment == p then a.amount else 0);
  }

  lemma RefreshFrames(b: Bill, today: int)
    ensures var after := Enforcement.RefreshBill(b, today);
            && after.arrears == b.arrears && after.successor == b.successor && after.lines == b.lines
            && after.total == b.total && after.paid == b.paid
  {
  }

  lemma RefreshStaysTidy(db: Db, today: int)
    requires TidyInv(db)
    ensures ArrearsLaw(Enforcement.Refresh(db, today).bills) && NoLineOverpaid(Enforcement.Refresh(db, today))
  {
    var after := Enforcement.Refresh(db, today);
    forall b | 0 <= b < |db.bills|
      ensures after.bills[b].arrears == db.bills[b].arrears && after.bills[b].successor == db.bills[b].successor
              && after.bills[b].lines == db.bills[b].lines && after.bills[b].total == db.bills[b].total
              && after.bills[b].paid == db.bills[b].paid {
      RefreshFrames(db.bills[b], today);
    }
    FrameKeepsArrearsLaw(db.bills, after.bills);
    forall b | 0 <= b < |after.bills| ensures Covered(after, after.bills[b].lines) {
      assert Covered(db, db.bills[b].lines);
    }
  }

  lemma EscalateFrames(db: Db, b: nat, today: int)
    requires Callable(db, EscalateDebt(b)) && Enforcement.Escalate(db, b, today).Ok?
    ensures var after := Enforcement.Escalate(db, b, today).value;
            after == db.(bills := db.bills[b := db.bills[b].(debtCase := after.bills[b].debtCase)])
  {
  }

  lemma CaseEditStaysTidy(db: Db, b: nat, debtCase: Option<DebtCase>)
    requires TidyInv(db) && b < |db.bills|
    ensures ArrearsLaw(db.bills[b := db.bills[b].(debtCase := debtCase)])
    ensures NoLineOverpaid(db.(bills := db.bills[b := db.bills[b].(debtCase := debtCase)]))
  {
    var after := db.(bills := db.bills[b := db.bills[b].(debtCase := debtCase)]);
    FrameKeepsArrearsLaw(db.bills, after.bills);
    forall i | 0 <= i < |after.bills| ensures Covered(after, after.bills[i].lines) {
      assert Covered(db, db.bills[i].lines);
    }
  }

  lemma EscalateStaysTidy(db: Db, b: nat, today: int, after: Db)
    requires Callable(db, EscalateDebt(b)) && Enforcement.Escalate(db, b, today) == Ok(after)
    requires TidyInv(db)
    ensures ArrearsLaw(after.bills) && NoLineOverpaid(after)
  {
    hide TidyInv, ArrearsLaw, NoLineOverpaid;
    EscalateFrames(db, b, today);
    CaseEditStaysTidy(db, b, after.bills[b].debtCase);
  }

  // ---- issuing keeps the tree law ----

  lemma SweptIntoOld(db: Db, r: IssueRequest, m: Merge, clock: Clock, b: nat, p: nat)
    requires Inv(db) && QueriedOn(r, db) && InTable(r.openBills, |db.bills|) && InTable(m.kept, |m.table|)
    requires p < b < |db.bills|
    ensures SweptInto(IssueMerged(db, r, m, clock).bills, b)(p) == SweptInto(db.bills, b)(p)
  {
    IssueLeavesOldBills(db, r, m, clock, p);
    assert p in r.openBills <==> IsOpenBillOf(db, r.payer, p);
    assert BillOk(db.bills[p]);
  }

  lemma IssueArrearsOfOldBill(db: Db, r: IssueRequest, m: Merge, clock: Clock, b: nat)
    requires Inv(db) && QueriedOn(r, db) && InTable(r.openBills, |db.bills|) && InTable(m.kept, |m.table|)
    requires ArrearsLaw(db.bills) && b < |db.bills|
    ensures var after := IssueMerged(db, r, m, clock).bills; after[b].arrears == SweptTotal(after, b, b)
  {
    var after := IssueMerged(db, r, m, clock).bills;
    forall p | p in UpTo(b) ensures SweptInto(after, b)(p) == SweptInto(db.bills, b)(p) {
      SweptIntoOld(db, r, m, clock, b, p);
    }
    SumSame<nat>(UpTo(b), SweptInto(db.bills, b), SweptInto(after, b));
    IssueLeavesOldBills(db, r, m, clock, b);
  }

  lemma NoneOverpaidInPrior(db: Db, order: seq<nat>)
    requires Inv(db) && NoLineOverpaid(db) && InTable(order, |db.bills|)
    ensures forall l | l in PriorLines(db.bills, order) :: PaidTo(db, l.id) <= l.amount
  {
    if order != [] {
      NoneOverpaidInPrior(db, order[..|order| - 1]);
      var b := order[|order| - 1];
      assert BillOk(db.bills[b]);
      WalkIsCreationOrder(db.bills[b].lines);
    }
  }

  lemma SweptIntoNew(db: Db, r: IssueRequest, m: Merge, clock: Clock, p: nat)
    requires Rolls(db, r, m) && p < |db.bills|
    ensures SweptInto(IssueMerged(db, r, m, clock).bills, |db.bills|)(p) == OnlyIn(r.openBills, BalanceAt(db.bills))(p)
  {
    IssueLeavesOldBills(db, r, m, clock, p);
    assert BillLinked(db, p);
  }

  lemma NewBillCarriesSwept(db: Db, r: IssueRequest, m: Merge)
    requires Rolls(db, r, m) && NoLineOverpaid(db)
    ensures Sum(NewLines(db, r, m), ArrearsOf) == Sum<nat>(UpTo(|db.bills|), OnlyIn(r.openBills, BalanceAt(db.bills)))
  {
    NewBillAddsUp(db, r, m);
    SweptBalances(db, r);
    NoneOverpaidInPrior(db, r.openBills);
    SumZero(PriorOf(db, r), OverpaidOn(db));
    SumAnyOrder(r.openBills, |db.bills|, BalanceAt(db.bills));
  }

  lemma IssueArrearsOfNewBill(db: Db, r: IssueRequest, m: Merge, clock: Clock)
    requires Rolls(db, r, m) && NoLineOverpaid(db)
    ensures var after := IssueMerged(db, r, m, clock).bills;
            after[|db.bills|].arrears == SweptTotal(after, |db.bills|, |db.bills|)
  {
    hide Inv, NoLineOverpaid, SweptInto, NewLines, BalanceAt, OnlyIn;
    var n := |db.bills|;
    var after := IssueMerged(db, r, m, clock).bills;
    NewBillCarriesSwept(db, r, m);
    forall p | p in UpTo(n) ensures SweptInto(after, n)(p) == OnlyIn(r.openBills, BalanceAt(db.bills))(p) {
      SweptIntoNew(db, r, m, clock, p);
    }
    SumSame<nat>(UpTo(n), SweptInto(after, n), OnlyIn(r.openBills, BalanceAt(db.bills)));
  }

  lemma PlainIssueArrears(db: Db, r: IssueRequest, m: Merge, clock: Clock)
    requires Inv(db) && InTable(r.openBills, |db.bills|) && InTable(m.kept, |m.table|) && !r.rollArrears
    ensures var after := IssueMerged(db, r, m, clock).bills;
            after[|db.bills|].arrears == SweptTotal(after, |db.bills|, |db.bills|)
  {
    var n := |db.bills|;
    var after := IssueMerged(db, r, m, clock).bills;
    FreshSums(m.table, m.kept, |db.lineBill|);
    forall p | p in UpTo(n) ensures SweptInto(after, n)(p) == 0 {
      assert after[p] == db.bills[p];
      assert BillLinked(db, p);
    }
    SumZero<nat>(UpTo(n), SweptInto(after, n));
  }

  lemma NewLinesCovered(db: Db, r: IssueRequest, m: Merge)
    requires Inv(db) && InTable(r.openBills, |db.bills|) && InTable(m.kept, |m.table|)
    requires |m.table| >= |db.assessments| && AssessmentsOk(m.table)
    ensures Covered(db, NewLines(db, r, m))
  {
    NewLinesNumbered(db, r, m);
    var lines := NewLines(db, r, m);
    forall i | 0 <= i < |lines| ensures PaidTo(db, lines[i].id) <= lines[i].amount {
      assert LineOk(lines[i]);
      FreshLineUnpaid(db, lines[i].id);
    }
  }

  lemma IssueOverpaysNone(db: Db, r: IssueRequest, m: Merge, clock: Clock)
    requires Inv(db) && NoLineOverpaid(db) && InTable(r.openBills, |db.bills|) && InTable(m.kept, |m.table|)
    requires |m.table| >= |db.assessments| && AssessmentsOk(m.table)
    ensures NoLineOverpaid(IssueMerged(db, r, m, clock))
  {
    var after := IssueMerged(db, r, m, clock);
    NewLinesCovered(db, r, m);
    forall b | 0 <= b < |after.bills| ensures Covered(after, after.bills[b].lines) {
      if b < |db.bills| {
        IssueLeavesOldBills(db, r, m, clock, b);
        assert Covered(db, db.bills[b].lines);
      }
    }
  }

  lemma IssueKeepsArrearsLaw(db: Db, r: IssueRequest, m: Merge, clock: Clock)
    requires TidyInv(db) && QueriedOn(r, db) && InTable(r.openBills, |db.bills|) && InTable(m.kept, |m.table|)
    requires r.rollArrears ==> Rolls(db, r, m)
    ensures ArrearsLaw(IssueMerged(db, r, m, clock).bills)
  {
    hide Inv, Rolls, NoLineOverpaid, SweptTotal, NewLines, Supersede, Recompute, Mark;
    var after := IssueMerged(db, r, m, clock).bills;
    forall b | 0 <= b < |after| ensures after[b].arrears == SweptTotal(after, b, b) {
      if b < |db.bills| {
        IssueArrearsOfOldBill(db, r, m, clock, b);
      } else if r.rollArrears {
        IssueArrearsOfNewBill(db, r, m, clock);
      } else {
        PlainIssueArrears(db, r, m, clock);
      }
    }
  }

  lemma IssueStaysTidy(db: Db, r: IssueRequest, clock: Clock)
    requires TidyInv(db) && QueriedOn(r, db) && InTable(r.drafts, |db.assessments|) && InTable(r.openBills, |db.bills|)
    requires Prepare(db, r, clock).Ok?
    ensures ArrearsLaw(IssueMerged(db, r, Prepare(db, r, clock).value, clock).bills)
    ensures NoLineOverpaid(IssueMerged(db, r, Prepare(db, r, clock).value, clock))
  {
    PreparedTableOk(db, r, clock);
    if r.rollArrears { PreparedRolls(db, r, clock); }
    IssueOverpaysNone(db, r, Prepare(db, r, clock).value, clock);
    IssueKeepsArrearsLaw(db, r, Prepare(db, r, clock).value, clock);
  }

  // ---- every tidy run ----

  lemma TidyEditKeeps(db: Db, m: Move)
    requires TidyInv(db) && Tidy(db, m.step) && Callable(db, m.step)
    requires m.step.AddBillLine? || m.step.UpdateBillLine? || m.step.DeleteBillLine?
    ensures ArrearsLaw(Apply(db, m).bills) && NoLineOverpaid(Apply(db, m))
  {
    var day := m.clock.day;
    match m.step
    case AddBillLine(b, o) => if AddLine(db, b, o, day).Ok? { AddStaysTidy(db, b, o, day); }
    case UpdateBillLine(b, j, amount) => if UpdateLine(db, b, j, amount, day).Ok? { UpdateStaysTidy(db, b, j, amount, day); }
    case DeleteBillLine(b, j) => if DeleteLine(db, b, j, day).Ok? { DeleteStaysTidy(db, b, j, day); }
  }

  lemma TidyMoneyKeeps(db: Db, m: Move)
    requires TidyInv(db) && Tidy(db, m.step) && Callable(db, m.step)
    requires m.step.PostPayment? || m.step.ReversePayment?
    ensures ArrearsLaw(Apply(db, m).bills) && NoLineOverpaid(Apply(db, m))
  {
    match m.step
    case PostPayment(t) => if Post(db, t, m.clock.day).Ok? { PostStaysTidy(db, t, m.clock.day, PostAccepted(db, t, m.clock.day)); }
    case ReversePayment(p) => if Reverse(db, p, m.clock.day).Ok? { ReverseStaysTidy(db, p, m.clock.day); }
  }

  lemma TidyIssueKeeps(db: Db, r: IssueRequest, clock: Clock)
    requires TidyInv(db) && QueriedOn(r, db) && InTable(r.drafts, |db.assessments|) && InTable(r.openBills, |db.bills|)
    ensures ArrearsLaw(Kept(db, Issue(db, r, clock)).bills) && NoLineOverpaid(Kept(db, Issue(db, r, clock)))
  {
    if Prepare(db, r, clock).Ok? { IssueStaysTidy(db, r, clock); }
  }

  lemma TidyDraftKeeps(db: Db, payer: nat, o: Order)
    requires TidyInv(db)
    ensures ArrearsLaw(Kept(db, CreateDraft(db, payer, o)).bills) && NoLineOverpaid(Kept(db, CreateDraft(db, payer, o)))
  {
    var after := Kept(db, CreateDraft(db, payer, o));
    forall b | 0 <= b < |after.bills| ensures Covered(after, after.bills[b].lines) {
      assert Covered(db, db.bills[b].lines);
    }
  }

  lemma TidyStepKeeps(db: Db, m: Move)
    requires TidyInv(db) && Tidy(db, m.step)
    ensures TidyInv(Apply(db, m))
  {
    StepKeepsInv(db, m);
    if Callable(db, m.step) {
      match m.step
      case DraftAssessment(payer, o) => TidyDraftKeeps(db, payer, o);
      case IssueBill(r) => QueriedInTable(r, db); TidyIssueKeeps(db, r, m.clock);
      case AddBillLine(_, _) => TidyEditKeeps(db, m);
      case UpdateBillLine(_, _, _) => TidyEditKeeps(db, m);
      case DeleteBillLine(_, _) => TidyEditKeeps(db, m);
      case PostPayment(_) => TidyMoneyKeeps(db, m);
      case ReversePayment(_) => TidyMoneyKeeps(db, m);
      case RefreshDebt => RefreshStaysTidy(db, m.clock.day);
      case EscalateDebt(b) => if Enforcement.Escalate(db, b, m.clock.day).Ok? { EscalateStaysTidy(db, b, m.clock.day, Apply(db, m)); }
    }
  }

  lemma {:induction false} TidyRunsKeep(payers: nat, moves: seq<Move>)
    requires TidyRun(Empty(payers), moves)
    ensures TidyInv(Run(Empty(payers), moves))
  {
    if moves == [] {
      EmptyBalances(payers);
    } else {
      TidyRunsKeep(payers, moves[..|moves| - 1]);
      TidyStepKeeps(Run(Empty(payers), moves[..|moves| - 1]), moves[|moves| - 1]);
    }
  }

  /** The tree law on every tidy run, for trees of any depth and branching. */
  lemma EachChargeCountsOnce(payers: nat, moves: seq<Move>, b: nat)
    requires TidyRun(Empty(payers), moves) && b < |Run(Empty(payers), moves).bills|
    ensures var bills := Run(Empty(payers), moves).bills;
            Sum(AllLines(bills, b), CurrentOf) == bills[b].total + PaidUnder(bills, b, b)
  {
    TidyRunsKeep(payers, moves);
    TreeTotal(Run(Empty(payers), moves).bills, b);
  }

  lemma SweptRises(bills: seq<Bill>, q: nat, s: nat, applied: int, after: seq<Bill>)
    requires q < s < |bills| && IsSupersededBy(bills, q, s)
    requires |after| == |bills| && forall i | 0 <= i < |bills| && i != q :: after[i] == bills[i]
    requires after[q].successor == bills[q].successor && after[q].total == bills[q].total && after[q].paid == bills[q].paid - applied
    ensures SweptTotal(after, s, s) == SweptTotal(bills, s, s) + applied
  {
    var extra := (k: nat) => if k == q then applied else 0;
    SumPick<nat>(UpTo(s), q, extra);
    SumAdd<nat>(UpTo(s), SweptInto(bills, s), extra, SweptInto(after, s));
  }

  /** Reversing a payment on a superseded bill does not reach its successor: the successor's arrears still match the
      balances it swept exactly when the payment had applied nothing. */
  lemma ReversalOnSupersededBreaksLawIff(db: Db, p: nat, today: int)
    requires TidyInv(db) && Callable(db, ReversePayment(p)) && db.payments[p].status == Confirmed
    requires db.bills[db.payments[p].bill].status == Superseded
    ensures db.bills[db.payments[p].bill].successor.Some?
    ensures var after, s := ReverseConfirmed(db, p, today).bills, db.bills[db.payments[p].bill].successor.value;
            s < |after| && (after[s].arrears == SweptTotal(after, s, s) <==> Applied(db.allocations, p) == 0)
  {
    var q := db.payments[p].bill;
    assert BillOk(db.bills[q]) && BillLinked(db, q);
    ReversalNeverFloors(db, p);
    SweptRises(db.bills, q, db.bills[q].successor.value, Applied(db.allocations, p), ReverseConfirmed(db, p, today).bills);
  }
}
