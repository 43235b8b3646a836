/** Short runs, from an empty ledger with one payer, in which the code departs from what it is documented to do. */
module FailingRuns {
  import opened Prelude
  import opened Sums
  import opened Tables
  import opened Revenue
  import opened Billing
  import opened Payments
  import opened Fifo
  import opened Ledger
  import opened Supersession
  import opened Channels
  import LineLaws
  import DebtLaws
  import DeliveryLaws
  import Reconciliation

  const DAY := Clock(1, 2026)

  // ---- single moves ----

  /** A bill for one order, due on day 30. */
  function Issuing(o: Order): Move {
    Move(IssueBill(IssueRequest(0, Some(30), 0, [o], false, [], false, [], false)), DAY)
  }

  /** A consolidation of bill 0. */
  const ROLLING: Move := Move(IssueBill(IssueRequest(0, Some(30), 0, [], false, [], true, [0], false)), DAY)

  function IssuedOne(o: Order, q: Quote): Db {
    Db([Bill(0, [Line(0, 0, q.amount, q.amount, 0, 0)], q.amount, 0, 0, BillStatus.Issued, 30, 2026, 1, None, None)],
       [NewAssessment(0, o, q).(status := AssessmentStatus.Billed)], [], [], [0], [0])
  }

  lemma OneLineSums(l: Line)
    ensures Sum([l], AmountOf) == l.amount && Sum([l], ArrearsOf) == l.arrears && Walk([l]) == [l]
  {
    assert [l][..0] == [];
  }

  lemma PreparesOne(o: Order, q: Quote)
    requires Price(o) == Ok(q)
    ensures QueriedOn(Issuing(o).step.request, Empty(1))
    ensures Prepare(Empty(1), Issuing(o).step.request, DAY) == Ok(Merge([0], [], [NewAssessment(0, o, q)]))
  {
    hide Price;
    var db, r := Empty(1), Issuing(o).step.request;
    var table := [NewAssessment(0, o, q)];
    assert [o][..0] == [] && [0][..0] == [];
    assert PriceAll(0, []) == Ok([]);
    assert [] + table == table;
    assert PriceAll(0, [o]) == Ok(table);
    assert Refs(db, r, 1) == [0];
    assert MergeAll([], table) == Merge([], [], table);
    assert MergeAll([0], table) == Merge([0], [], table);
    assert db.assessments + table == table;
  }

  lemma IssuesOne(o: Order, q: Quote)
    requires Price(o) == Ok(q)
    ensures Apply(Empty(1), Issuing(o)) == IssuedOne(o, q)
  {
    hide Price, Prepare, QueriedOn;
    var db, r, m := Empty(1), Issuing(o).step.request, Merge([0], [], [NewAssessment(0, o, q)]);
    PreparesOne(o, q);
    var l := Line(0, 0, q.amount, q.amount, 0, 0);
    assert NewLines(db, r, m) == [l];
    OneLineSums(l);
    assert seq(|[l]|, _ => 0) == [0];
    assert IssueMerged(db, r, m, DAY).assessments == IssuedOne(o, q).assessments;
    assert IssueMerged(db, r, m, DAY).bills == IssuedOne(o, q).bills;
  }

  /** A payment to a bill of one line. */
  lemma PostsOnOneLine(db: Db, t: Tender, today: int, l: Line, paid: int)
    requires t.bill < |db.bills| && db.bills[t.bill].lines == [l] && t.amount > 0
    requires LinePaid(db.payments + [NewPayment(db, t, today)], db.allocations, l.id) == paid
    ensures AppliedOf(db, t, today) == Min(t.amount, Pos(l.amount - paid))
    ensures AllRows([l], db.payments + [NewPayment(db, t, today)], db.allocations, t.amount, |db.payments|)
            == if l.amount > paid then [Allocation(|db.payments|, l.id, Min(t.amount, l.amount - paid))] else []
  {
    hide LinePaid;
    OneLineSums(l);
    var payments := db.payments + [NewPayment(db, t, today)];
    var outs := Outs([l], payments, db.allocations);
    assert outs == [l.amount - paid] && Ids([l]) == [l.id];
    OwedStep(outs, 0);
    assert Owed(outs, 0) == 0;
    assert Rows(Ids([l]), outs, t.amount, |db.payments|, 0) == [];
  }

  const ITEM := ItemRates(1, [], [RateRow(100, 0, None)])
  const CHARGE := Order(ITEM, 1, None, None, None)
  const BILLED := Assessment(0, 1, None, None, 1, 100, AssessmentStatus.Billed)
  const PRIOR := Line(0, 0, 100, 100, 0, 0)

  lemma PriceOfCharge()
    ensures Price(CHARGE) == Ok(Quote(None, None, 1, 100))
  {
    assert OpenRow(ITEM.schedule[..0]) == None;
  }

  const AFTER_ISSUE := Db(
    [Bill(0, [PRIOR], 100, 0, 0, BillStatus.Issued, 30, 2026, 1, None, None)], [BILLED], [], [], [0], [0])

  lemma IssuesCharge()
    ensures Apply(Empty(1), Issuing(CHARGE)) == AFTER_ISSUE
  {
    hide Apply;
    PriceOfCharge();
    IssuesOne(CHARGE, Quote(None, None, 1, 100));
  }

  /** One open bill of the one charge, nothing carried yet, `n` of it still owed. */
  ghost predicate Rollable(db: Db, n: int) {
    && |db.bills| == 1 && db.bills[0].lines == [PRIOR] && db.bills[0].payer == 0 && Collectable(db.bills[0].status)
    && db.bills[0].debtCase.None? && db.assessments == [BILLED] && |db.credit| == 1 && db.lineBill == [0]
    && Outstanding(db, PRIOR) == n > 0
  }

  function RolledLine(n: int): Line {
    Line(1, 0, n, 0, n, 0)
  }

  function RolledOne(db: Db, n: int): Db
    requires |db.bills| == 1
  {
    db.(bills := [db.bills[0].(status := Superseded, successor := Some(1), updatedOn := 1),
                  Bill(0, [RolledLine(n)], n, 0, n, BillStatus.Issued, 30, 2026, 1, None, None)],
        lineBill := [0, 1])
  }

  const NO_DRAFTS := Merge([], [], [BILLED])

  lemma RollCarries(db: Db, n: int)
    requires Rollable(db, n)
    ensures PriorLines(db.bills, [0]) == [PRIOR]
    ensures CarryAll(db, [PRIOR]) == Carry([1], map[1 := n], map[1 := 0])
  {
    hide LinePaid;
    OneLineSums(PRIOR);
    assert [0][..0] == [] && [PRIOR][..0] == [];
    assert PriorLines(db.bills, [0]) == [] + [PRIOR];
    assert CarryAll(db, []) == Carry([], map[], map[]);
  }

  lemma RollPlaces(db: Db, n: int)
    requires Rollable(db, n)
    ensures NewLines(db, ROLLING.step.request, NO_DRAFTS) == [RolledLine(n)]
  {
    hide CarryAll, PriorLines, LinePaid;
    RollCarries(db, n);
    var c := Carry([1], map[1 := n], map[1 := 0]);
    assert FreshLines([BILLED], [], 1) == [];
    assert Place([BILLED], [], c, 1, 0) == [];
    assert PlaceOne([BILLED], [], [], c, 1, 1) == [RolledLine(n)];
    assert Place([BILLED], [], c, 1, 1) == [RolledLine(n)];
  }

  lemma RollPrepared(db: Db, n: int)
    requires Rollable(db, n)
    ensures QueriedOn(ROLLING.step.request, db)
    ensures Prepare(db, ROLLING.step.request, DAY) == Ok(NO_DRAFTS)
  {
    hide LinePaid;
    var r := ROLLING.step.request;
    assert forall id: nat :: id in r.openBills <==> IsOpenBillOf(db, 0, id);
    assert Refs(db, r, 0) == [];
    assert [BILLED] + [] == [BILLED];
  }

  lemma RollsOne(db: Db, n: int)
    requires Rollable(db, n)
    ensures Apply(db, ROLLING) == RolledOne(db, n)
  {
    hide Prepare, NewLines, QueriedOn, LinePaid;
    var r := ROLLING.step.request;
    RollPrepared(db, n);
    RollPlaces(db, n);
    OneLineSums(RolledLine(n));
    assert seq(|[RolledLine(n)]|, _ => 1) == [1];
    var after := IssueMerged(db, r, NO_DRAFTS, DAY);
    assert SupersedeAll(db.bills, [0], 1, 1) == [RolledOne(db, n).bills[0]];
    assert after.bills == RolledOne(db, n).bills;
    assert after.assessments == db.assessments && after.lineBill == [0, 1];
  }

  // ---- adding a charge to carried arrears bills the old charge again ----

  /** Bill a charge of 100, consolidate, then add the same charge again. */
  const OVERCHARGING: seq<Move> := [Issuing(CHARGE), ROLLING, Move(AddBillLine(1, CHARGE), DAY)]

  const AFTER_ROLL := RolledOne(AFTER_ISSUE, 100)

  lemma ThirdMove()
    ensures Apply(AFTER_ROLL, OVERCHARGING[2]).bills[1].total == 300
  {
    var db := AFTER_ROLL;
    var l := Line(1, 0, 100, 0, 100, 0);
    PriceOfCharge();
    OneLineSums(l);
    assert [l][..0] == [];
    assert MergeTarget(db, 1, CHARGE) == Some(l);
    var added := NewAssessment(0, CHARGE, Quote(None, None, 1, 100));
    var l' := Line(1, 0, 300, 200, 100, 0);
    assert ReplaceLine([l], l') == [l'];
    OneLineSums(l');
    assert AddLine(db, 1, CHARGE, 1) == Ok(AddToLine(db, 1, l, added, 1));
  }

  /** A consolidated line with only arrears still cites the assessment it came from. Adding a charge of 100 to a bill of
      100 in arrears therefore bills 300, not 200: the old charge is counted as arrears and again as current. */
  lemma AddingToArrearsOvercharges()
    ensures |Run(Empty(1), OVERCHARGING).bills| == 2
    ensures Run(Empty(1), OVERCHARGING[..2]).bills[1].total == 100 && Price(CHARGE).value.amount == 100
    ensures Run(Empty(1), OVERCHARGING).bills[1].total == 300
  {
    hide Apply, MergeTarget;
    IssuesCharge();
    assert LinePaid([], [], 0) == 0;
    RollsOne(AFTER_ISSUE, 100);
    ThirdMove();
    PriceOfCharge();
    RunOfThree(OVERCHARGING, AFTER_ISSUE, AFTER_ROLL);
    AddKeepsBillCount();
  }

  lemma RunOfThree(moves: seq<Move>, first: Db, second: Db)
    requires |moves| == 3 && Apply(Empty(1), moves[0]) == first && Apply(first, moves[1]) == second
    ensures Run(Empty(1), moves[..1]) == first && Run(Empty(1), moves[..2]) == second
    ensures Run(Empty(1), moves) == Apply(second, moves[2])
  {
    hide Apply;
    assert moves[..3] == moves && moves[..3][..2] == moves[..2] && moves[..2][..1] == moves[..1] && moves[..1][..0] == [];
  }

  lemma AddKeepsBillCount()
    ensures |Apply(AFTER_ROLL, OVERCHARGING[2]).bills| == 2
  {
  }

  // ---- a payment of 60 ----

  /** 60 through the bank's teller channel, under a reference, and 60 more without one. */
  const SLIP := Tender(0, Otc, "T1", 60)
  const MORE := Tender(0, Otc, "", 60)

  function Paying(t: Tender): Move {
    Move(PostPayment(t), DAY)
  }

  const SLIP_PAYMENT := Payment(0, 0, Otc, "T1", 60, Confirmed, 1)
  const MORE_PAYMENT := Payment(1, 0, Otc, "", 60, Confirmed, 1)

  const AFTER_SLIP := AFTER_ISSUE.(
    bills := [AFTER_ISSUE.bills[0].(paid := 60, status := PartPaid)],
    payments := [SLIP_PAYMENT], allocations := [Allocation(0, 0, 60)])

  lemma PaysSlip()
    ensures Apply(AFTER_ISSUE, Paying(SLIP)) == AFTER_SLIP
  {
    hide AllRows, AppliedOf, LinePaid;
    assert LinePaid([SLIP_PAYMENT], [], 0) == 0 by { NothingPaid([SLIP_PAYMENT]); }
    assert [] + [SLIP_PAYMENT] == [SLIP_PAYMENT] && [] + [Allocation(0, 0, 60)] == [Allocation(0, 0, 60)];
    PostsOnOneLine(AFTER_ISSUE, SLIP, 1, PRIOR, 0);
    OneLineSums(PRIOR);
    assert PostAccepted(AFTER_ISSUE, SLIP, 1).bills == AFTER_SLIP.bills;
    assert PostAccepted(AFTER_ISSUE, SLIP, 1) == AFTER_SLIP;
  }

  lemma NothingPaid(payments: seq<Payment>)
    ensures LinePaid(payments, [], 0) == 0
  {
  }

  lemma SlipPaid(payments: seq<Payment>)
    requires payments != []
    ensures LinePaid(payments, [Allocation(0, 0, 60)], 0) == if payments[0].status == Confirmed then 60 else 0
  {
    assert [Allocation(0, 0, 60)][..0] == [];
  }

  // ---- a reversal is not as if the payment had never landed ----

  const AFTER_MORE := AFTER_SLIP.(
    bills := [AFTER_ISSUE.bills[0].(paid := 100, status := BillStatus.Paid)],
    payments := [SLIP_PAYMENT, MORE_PAYMENT], allocations := [Allocation(0, 0, 60), Allocation(1, 0, 40)], credit := [20])

  lemma PaysMore()
    ensures Apply(AFTER_SLIP, Paying(MORE)) == AFTER_MORE
  {
    hide AllRows, AppliedOf, LinePaid;
    SlipPaid([SLIP_PAYMENT, MORE_PAYMENT]);
    assert AFTER_SLIP.payments + [NewPayment(AFTER_SLIP, MORE, 1)] == [SLIP_PAYMENT, MORE_PAYMENT];
    PostsOnOneLine(AFTER_SLIP, MORE, 1, PRIOR, 60);
    OneLineSums(PRIOR);
    assert PostAccepted(AFTER_SLIP, MORE, 1).bills == AFTER_MORE.bills;
    assert PostAccepted(AFTER_SLIP, MORE, 1) == AFTER_MORE;
  }

  lemma PaysMoreAlone()
    ensures Apply(AFTER_ISSUE, Paying(MORE)).bills[0].paid == 60 && Apply(AFTER_ISSUE, Paying(MORE)).credit == [0]
  {
    hide AllRows, AppliedOf, LinePaid;
    var p := Payment(0, 0, Otc, "", 60, Confirmed, 1);
    assert LinePaid([p], [], 0) == 0 by { NothingPaid([p]); }
    assert [] + [p] == [p];
    PostsOnOneLine(AFTER_ISSUE, MORE, 1, PRIOR, 0);
    OneLineSums(PRIOR);
  }

  lemma AppliedBySlip()
    ensures Applied(AFTER_SLIP.allocations, 0) == 60 && Applied(AFTER_MORE.allocations, 0) == 60
  {
    assert AFTER_SLIP.allocations[..0] == [] && AFTER_MORE.allocations[..1] == AFTER_SLIP.allocations;
  }

  /** On a bill of 100, pay 60, pay 60 more and reverse the first: 40 is paid and 20 in credit. Without the first payment
      60 would be paid and nothing in credit. */
  lemma ReversalLeavesCreditBehind()
    ensures var after := Run(Empty(1), [Issuing(CHARGE), Paying(SLIP), Paying(MORE), Move(ReversePayment(0), DAY)]);
            |after.bills| == 1 && after.bills[0].paid == 40 && after.credit == [20]
    ensures var without := Run(Empty(1), [Issuing(CHARGE), Paying(MORE)]);
            |without.bills| == 1 && without.bills[0].paid == 60 && without.credit == [0]
  {
    hide Apply;
    var moves := [Issuing(CHARGE), Paying(SLIP), Paying(MORE), Move(ReversePayment(0), DAY)];
    IssuesCharge();
    PaysSlip();
    PaysMore();
    RunOfThree(moves[..3], AFTER_ISSUE, AFTER_SLIP);
    ReversesSlipAfterMore();
    PaysMoreAlone();
    PostKeepsOneBill();
    var short := [Issuing(CHARGE), Paying(MORE)];
    assert short[..1] == [Issuing(CHARGE)] && short[..1][..0] == [];
    assert Run(Empty(1), short[..1]) == AFTER_ISSUE;
  }

  lemma ReversesSlipAfterMore()
    ensures var after := Apply(AFTER_MORE, Move(ReversePayment(0), DAY));
            |after.bills| == 1 && after.bills[0].paid == 40 && after.credit == [20]
  {
    hide Applied;
    AppliedBySlip();
  }

  lemma PostKeepsOneBill()
    ensures |Apply(AFTER_ISSUE, Paying(MORE)).bills| == 1
  {
    hide AllRows, AppliedOf;
  }

  // ---- a reversal on a superseded bill does not reach its successor ----

  const AFTER_SLIP_ROLL := RolledOne(AFTER_SLIP, 40)

  lemma RollsAfterSlip()
    ensures Apply(AFTER_SLIP, ROLLING) == AFTER_SLIP_ROLL
  {
    hide Apply, LinePaid;
    SlipPaid([SLIP_PAYMENT]);
    RollsOne(AFTER_SLIP, 40);
  }

  lemma OneSwept(bills: seq<Bill>)
    requires |bills| == 2 && bills[0].successor == Some(1)
    ensures SweptTotal(bills, 1, 1) == bills[0].total - bills[0].paid
  {
    assert UpTo(0) == [] && UpTo(1) == [0];
    SumPush<nat>([], 0, SweptInto(bills, 1));
    assert [] + [0] == [0];
  }

  /** Pay 60 of 100, consolidate the other 40, then reverse the payment: the old bill is owed 100 again, the new one still
      carries 40. Up to the reversal the run is tidy. */
  lemma ReversalMissesTheSuccessor()
    ensures var moves := [Issuing(CHARGE), Paying(SLIP), ROLLING];
            && TidyInv(Run(Empty(1), moves))
            && Applied(Run(Empty(1), moves).allocations, 0) == 60
            && var after := Apply(Run(Empty(1), moves), Move(ReversePayment(0), DAY)).bills;
               |after| == 2 && after[1].arrears == 40 && SweptTotal(after, 1, 1) == 100
  {
    hide Apply, Applied;
    var moves := [Issuing(CHARGE), Paying(SLIP), ROLLING];
    IssuesCharge();
    PaysSlip();
    RollsAfterSlip();
    RunOfThree(moves, AFTER_ISSUE, AFTER_SLIP);
    AppliedBySlip();
    ReversesSlipAfterRoll();
    FirstThreeAreTidy(moves);
    TidyRunsKeep(1, moves);
  }

  lemma ReversesSlipAfterRoll()
    ensures var after := Apply(AFTER_SLIP_ROLL, Move(ReversePayment(0), DAY)).bills;
            |after| == 2 && after[1].arrears == 40 && SweptTotal(after, 1, 1) == 100
  {
    hide Applied, SweptTotal;
    AppliedBySlip();
    OneLineSums(PRIOR);
    OneSwept(Apply(AFTER_SLIP_ROLL, Move(ReversePayment(0), DAY)).bills);
  }

  lemma FirstThreeAreTidy(moves: seq<Move>)
    requires moves == [Issuing(CHARGE), Paying(SLIP), ROLLING]
    ensures TidyRun(Empty(1), moves)
  {
    hide Run, Callable;
    assert moves[..2][..1] == moves[..1] && moves[..1][..0] == [];
    assert TidyRun(Empty(1), moves[..1][..0]);
    assert TidyRun(Empty(1), moves[..1]);
    assert TidyRun(Empty(1), moves[..2]);
  }

  // ---- a paid bill keeps its debt case ----

  const LATER := Clock(40, 2026)

  const AFTER_AGEING := AFTER_SLIP.(
    bills := [AFTER_SLIP.bills[0].(status := Overdue, updatedOn := 40, debtCase := Some(DebtCase(UpTo30, FirstNotice, 0, None)))])

  /** Pay 60 of 100, age the bill ten days past its due date, then lower its line to 60: the bill is PAID and its case is
      still open. */
  lemma LoweringALineLeavesTheCaseOpen()
    ensures var after := Run(Empty(1), [Issuing(CHARGE), Paying(SLIP), Move(RefreshDebt, LATER), Move(UpdateBillLine(0, 0, 60), LATER)]);
            |after.bills| == 1 && after.bills[0].status == BillStatus.Paid && DebtLaws.OpenCase(after.bills[0])
  {
    hide Apply;
    var moves := [Issuing(CHARGE), Paying(SLIP), Move(RefreshDebt, LATER), Move(UpdateBillLine(0, 0, 60), LATER)];
    IssuesCharge();
    PaysSlip();
    RunOfThree(moves[..3], AFTER_ISSUE, AFTER_SLIP);
    AgesAndLowers();
  }

  lemma AgesAndLowers()
    ensures Apply(AFTER_SLIP, Move(RefreshDebt, LATER)) == AFTER_AGEING
    ensures var after := Apply(AFTER_AGEING, Move(UpdateBillLine(0, 0, 60), LATER));
            |after.bills| == 1 && after.bills[0].status == BillStatus.Paid && DebtLaws.OpenCase(after.bills[0])
  {
    assert Apply(AFTER_SLIP, Move(RefreshDebt, LATER)).bills == AFTER_AGEING.bills;
    var l := Edited(PRIOR, 60);
    assert [PRIOR][0 := l] == [l];
    OneLineSums(l);
  }

  // ---- an order that leaves two lines for one charge ----

  /** An item with a RANGE band and a TIERED one; the order is for the first, and also sends a tier of the second. */
  const RANGED: BandRow := RateBand(5, 1, "Beer parlor", Range, None, Some(10), Some(20), [], 0, None)
  const SMALL := RateTier(9, 6, "Small", 10)
  const TIERED: BandRow := RateBand(6, 1, "Hotel", Tiered, None, None, None, [SMALL, RateTier(10, 6, "Large", 20)], 0, None)
  const STRAY_TIER := Order(ItemRates(1, [RANGED, TIERED], []), 1, Some(RANGED), Some(SMALL), Some(15))

  lemma PriceOfStrayTier()
    ensures Price(STRAY_TIER) == Ok(Quote(Some(5), None, 1, 15))
  {
    assert STRAY_TIER.item.bands[0].to.None?;
  }

  /** Billed once and added once, it is on two lines with the same item, band and tier. */
  lemma StrayTierDuplicates()
    ensures var after := Run(Empty(1), [Issuing(STRAY_TIER), Move(AddBillLine(0, STRAY_TIER), DAY)]);
            && |after.bills| == 1 && |after.bills[0].lines| == 2
            && LineLaws.KeyOfLine(after.assessments, after.bills[0].lines[0]) == Some(Key(1, Some(5), None))
            && LineLaws.KeyOfLine(after.assessments, after.bills[0].lines[1]) == Some(Key(1, Some(5), None))
  {
    hide Apply, Price;
    var moves := [Issuing(STRAY_TIER), Move(AddBillLine(0, STRAY_TIER), DAY)];
    PriceOfStrayTier();
    IssuesOne(STRAY_TIER, Quote(Some(5), None, 1, 15));
    assert moves[..1] == [Issuing(STRAY_TIER)] && moves[..1][..0] == [];
    assert Run(Empty(1), moves[..1]) == IssuedOne(STRAY_TIER, Quote(Some(5), None, 1, 15));
    AddsStrayTier();
  }

  lemma AddsStrayTier()
    ensures var after := Apply(IssuedOne(STRAY_TIER, Quote(Some(5), None, 1, 15)), Move(AddBillLine(0, STRAY_TIER), DAY));
            && |after.bills| == 1 && |after.bills[0].lines| == 2
            && LineLaws.KeyOfLine(after.assessments, after.bills[0].lines[0]) == Some(Key(1, Some(5), None))
            && LineLaws.KeyOfLine(after.assessments, after.bills[0].lines[1]) == Some(Key(1, Some(5), None))
  {
    hide Price, Sum, Walk, AppendLine, MergeTarget;
    PriceOfStrayTier();
    var db := IssuedOne(STRAY_TIER, Quote(Some(5), None, 1, 15));
    var added := NewAssessment(0, STRAY_TIER, Quote(Some(5), None, 1, 15));
    NoTargetForStrayTier();
    LineLaws.AppendedAre(db, 0, added, 1);
    assert AppendLine(db, 0, added, 1).bills == [AppendLine(db, 0, added, 1).bills[0]] by { AppendKeepsOneBill(db, added); }
  }

  lemma AppendKeepsOneBill(db: Db, added: Assessment)
    requires |db.bills| == 1
    ensures |AppendLine(db, 0, added, 1).bills| == 1
  {
    hide Sum;
  }

  lemma NoTargetForStrayTier()
    ensures MergeTarget(IssuedOne(STRAY_TIER, Quote(Some(5), None, 1, 15)), 0, STRAY_TIER).None?
  {
    hide Price, Walk, Sum, MatchingLine;
    var db := IssuedOne(STRAY_TIER, Quote(Some(5), None, 1, 15));
    OneLineSums(db.bills[0].lines[0]);
    OneLineWithoutKey(db.assessments, db.bills[0].lines[0], Key(1, Some(5), Some(9)));
  }

  lemma OneLineWithoutKey(table: seq<Assessment>, l: Line, key: Key)
    requires !Carries(table, l, key)
    ensures MatchingLine(table, [l], key).None?
  {
    assert [l][..0] == [];
  }

  // ---- positions ----

  /** The second line of a bill gets the first one's position. */
  lemma SecondLineSharesThePosition()
    ensures PRIOR.position == 0 && NextPosition([PRIOR]) == 0
  {
    assert [PRIOR][..0] == [] && MaxPosition([]) == None;
    assert MaxPosition([PRIOR]) == Some(0);
  }

  // ---- references used by hand ----

  function Home(payer: nat): nat { 0 }

  /** A charge billed, and a slip of 60 entered by hand. */
  const BY_HAND: seq<DeliveryLaws.Arrival> := [
    DeliveryLaws.Arrival(DeliveryLaws.Service(Issuing(CHARGE).step), DAY),
    DeliveryLaws.Arrival(DeliveryLaws.Service(PostPayment(SLIP)), DAY)]

  lemma EnteredByHand()
    ensures DeliveryLaws.Run(DeliveryLaws.Start(1, Home), BY_HAND) == Inbox(AFTER_SLIP, [], [], Home)
  {
    hide Apply;
    IssuesCharge();
    PaysSlip();
    assert Payable(Empty(1)) && Payable(AFTER_ISSUE);
    assert BY_HAND[..1][..0] == [];
    assert BY_HAND[..1][0] == BY_HAND[0];
    assert DeliveryLaws.Run(DeliveryLaws.Start(1, Home), BY_HAND[..1]) == Inbox(AFTER_ISSUE, [], [], Home);
  }

  /** When the bank then sends the same reference, the webhook crashes and nothing records that it came. */
  lemma WebhookLeavesNoRow()
    ensures var g := DeliveryLaws.Run(DeliveryLaws.Start(1, Home), BY_HAND);
            Payable(g.db) && g.feed == [] && Webhook(g, Otc, Notice("T1", 60, 0), 1) == (g, Crashed)
  {
    EnteredByHand();
    assert AFTER_SLIP.payments[0].ref == "T1";
  }

  /** In a teller file it leaves one unmatched row, and the next row, a payment of 10, is not looked at. */
  lemma TellerFileStops()
    ensures var g := DeliveryLaws.Run(DeliveryLaws.Start(1, Home), BY_HAND);
            && Payable(g.db)
            && var f := Settle(g, [Notice("T1", 60, 0), Notice("T2", 10, 0)], 1);
               f.stopped && f.posted == 0 && f.inbox == g.(feed := [FeedRow(Otc, "T1", 60, 1, Unmatched, None)])
  {
    EnteredByHand();
    var g := Inbox(AFTER_SLIP, [], [], Home);
    var rows := [Notice("T1", 60, 0), Notice("T2", 10, 0)];
    assert AFTER_SLIP.payments[0].ref == "T1";
    assert rows[..1] == [rows[0]] && rows[..1][..0] == [];
    assert [] + [FeedRow(Otc, "T1", 60, 1, Unmatched, None)] == [FeedRow(Otc, "T1", 60, 1, Unmatched, None)];
    assert OtcRow(g, rows[0], 1) == (g.(feed := [FeedRow(Otc, "T1", 60, 1, Unmatched, None)]), Crashed);
    assert Settle(g, [], 1) == File(g, 0, 0, [], false);
    assert Settle(g, rows[..1], 1).stopped;
  }

  // ---- a balanced run whose totals differ ----

  /** With no feed at all the day is BALANCED, though the platform took 60 and the bank shows nothing. */
  lemma BalancedWithoutTheBank()
    ensures var g := DeliveryLaws.Run(DeliveryLaws.Start(1, Home), BY_HAND);
            var run := Reconciliation.RunOn(g.db.payments, g.feed, Otc, 1);
            run.status == Reconciliation.Balanced && run.platform == 60 && run.bank == 0
  {
    hide DeliveryLaws.Run;
    EnteredByHand();
    SlipAlone();
  }

  lemma SlipAlone()
    ensures Reconciliation.RunOn([SLIP_PAYMENT], [], Otc, 1) == Reconciliation.Run(60, 0, Reconciliation.Balanced, [])
  {
    assert [SLIP_PAYMENT][..0] == [];
    assert Sum([], Reconciliation.TakingsOf(Otc, 1)) == 0;
  }

  // ---- an exception that names a payment ----

  const AFTER_RETURN := AFTER_SLIP.(
    bills := AFTER_ISSUE.bills, payments := [SLIP_PAYMENT.(status := Reversed)])

  lemma ReversesSlip()
    ensures Apply(AFTER_SLIP, Move(ReversePayment(0), DAY)) == AFTER_RETURN
  {
    hide Applied;
    AppliedBySlip();
    OneLineSums(PRIOR);
    assert Apply(AFTER_SLIP, Move(ReversePayment(0), DAY)).bills == AFTER_RETURN.bills;
    assert Apply(AFTER_SLIP, Move(ReversePayment(0), DAY)).credit == [0];
  }

  const MATCHED_ROW := FeedRow(Otc, "T1", 60, 1, Matched, Some(0))

  /** The bank's 60 is posted and then reversed: the day's run makes its row an exception, still naming the payment. */
  lemma ExceptionNamesAReversedPayment()
    ensures var g := DeliveryLaws.Run(DeliveryLaws.Start(1, Home), [
                       DeliveryLaws.Arrival(DeliveryLaws.Service(Issuing(CHARGE).step), DAY),
                       DeliveryLaws.Arrival(DeliveryLaws.FromBank(Otc, Notice("T1", 60, 0)), DAY),
                       DeliveryLaws.Arrival(DeliveryLaws.Service(ReversePayment(0)), DAY)]);
            && g.feed == [MATCHED_ROW] && g.db.payments == [SLIP_PAYMENT.(status := Reversed)]
            && Reconciliation.Rewritten(g.db.payments, MATCHED_ROW, Otc, 1) == MATCHED_ROW.(status := Exception)
  {
    hide Apply;
    var arrivals := [
      DeliveryLaws.Arrival(DeliveryLaws.Service(Issuing(CHARGE).step), DAY),
      DeliveryLaws.Arrival(DeliveryLaws.FromBank(Otc, Notice("T1", 60, 0)), DAY),
      DeliveryLaws.Arrival(DeliveryLaws.Service(ReversePayment(0)), DAY)];
    IssuesCharge();
    ReversesSlip();
    WebhookPosts();
    assert Payable(Empty(1)) && Payable(AFTER_SLIP);
    assert arrivals[..2][..1] == arrivals[..1] && arrivals[..1][..0] == [];
    assert DeliveryLaws.Run(DeliveryLaws.Start(1, Home), arrivals[..1]) == Inbox(AFTER_ISSUE, [], [], Home);
    assert DeliveryLaws.Run(DeliveryLaws.Start(1, Home), arrivals[..2]) == Inbox(AFTER_SLIP, [MATCHED_ROW], [], Home);
    ReversedMatchesNothing();
  }

  lemma ReversedMatchesNothing()
    ensures Reconciliation.Rewritten([SLIP_PAYMENT.(status := Reversed)], MATCHED_ROW, Otc, 1) == MATCHED_ROW.(status := Exception)
  {
  }

  lemma WebhookPosts()
    ensures Payable(AFTER_ISSUE)
    ensures Webhook(Inbox(AFTER_ISSUE, [], [], Home), Otc, Notice("T1", 60, 0), 1) == (Inbox(AFTER_SLIP, [MATCHED_ROW], [], Home), Posted(0))
  {
    hide PostAccepted;
    PostsSlip();
    assert [] + [MATCHED_ROW] == [MATCHED_ROW];
  }

  lemma PostsSlip()
    ensures PostAccepted(AFTER_ISSUE, SLIP, 1) == AFTER_SLIP
  {
    hide PostAccepted;
    PaysSlip();
  }
}
