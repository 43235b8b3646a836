/** RANGE charges over whole runs: what an issue bills lies between the band's bounds for each unit. */
module Ranges {
  import opened Prelude
  import opened Sums
  import opened Tables
  import opened Revenue
  import opened Billing
  import opened Ledger
  import opened IssueLaws
  import Agreement
  import LineLaws

  /** `band` is a RANGE band with these bounds; a band's row never changes once opened. */
  predicate OrderFits(o: Order, band: nat, lo: nat, hi: nat) {
    o.band.Some? && o.band.value.id == band ==>
      o.band.value.mode == Range && o.band.value.min == Some(lo) && o.band.value.max == Some(hi)
  }

  ghost predicate StepFits(s: Step, band: nat, lo: nat, hi: nat) {
    match s
    case DraftAssessment(_, o) => OrderFits(o, band, lo, hi)
    case IssueBill(r) => forall i | 0 <= i < |r.orders| :: OrderFits(r.orders[i], band, lo, hi)
    case AddBillLine(_, o) => OrderFits(o, band, lo, hi)
    case _ => true
  }

  /** Every charge still in draft is within the bounds; one already billed may have been overridden on its line. */
  ghost predicate DraftsInRange(table: seq<Assessment>, band: nat, lo: nat, hi: nat) {
    forall i | 0 <= i < |table| && table[i].status == AssessmentStatus.Draft :: InRange(table[i], band, lo, hi)
  }

  predicate OffDraft(table: seq<Assessment>, a: nat) {
    a < |table| && table[a].status != AssessmentStatus.Draft
  }

  ghost predicate LinesOff(lines: seq<Line>, table: seq<Assessment>) {
    forall i | 0 <= i < |lines| :: OffDraft(table, lines[i].assessment)
  }

  /** No line cites a draft. */
  ghost predicate BillsOff(bills: seq<Bill>, table: seq<Assessment>) {
    forall b | 0 <= b < |bills| :: LinesOff(bills[b].lines, table)
  }

  ghost predicate StayOff(table: seq<Assessment>, after: seq<Assessment>) {
    forall a: nat | OffDraft(table, a) :: OffDraft(after, a)
  }

  ghost predicate RangeInv(db: Db, band: nat, lo: nat, hi: nat) {
    BillsOff(db.bills, db.assessments) && DraftsInRange(db.assessments, band, lo, hi)
  }

  lemma PricedInRange(payer: nat, o: Order, band: nat, lo: nat, hi: nat)
    requires OrderFits(o, band, lo, hi) && Price(o).Ok?
    ensures InRange(NewAssessment(payer, o, Price(o).value), band, lo, hi)
  {
    PricesWithinBounds(o);
  }

  lemma {:induction false} AllPricedInRange(payer: nat, orders: seq<Order>, band: nat, lo: nat, hi: nat)
    requires PriceAll(payer, orders).Ok? && forall i | 0 <= i < |orders| :: OrderFits(orders[i], band, lo, hi)
    ensures forall i | 0 <= i < |PriceAll(payer, orders).value| :: InRange(PriceAll(payer, orders).value[i], band, lo, hi)
  {
    if orders != [] {
      hide OrderFits, Price, InRange;
      var n := |orders| - 1;
      AllPricedInRange(payer, orders[..n], band, lo, hi);
      PricedInRange(payer, orders[n], band, lo, hi);
    }
  }

  /** Lines that were there before, on a table where nothing goes back to draft. */
  lemma SameLinesOff(lines: seq<Line>, table: seq<Assessment>, after: seq<Assessment>)
    requires LinesOff(lines, table) && StayOff(table, after)
    ensures LinesOff(lines, after)
  {
  }

  /** A line edit: one bill's lines change, its new lines cite no draft. */
  lemma EditedBillsOff(bills: seq<Bill>, table: seq<Assessment>, after: seq<Bill>, after': seq<Assessment>, b: nat)
    requires BillsOff(bills, table) && StayOff(table, after') && b < |bills| == |after|
    requires forall c | 0 <= c < |bills| && c != b :: after[c].lines == bills[c].lines
    requires LinesOff(after[b].lines, after')
    ensures BillsOff(after, after')
  {
    forall c | 0 <= c < |after| ensures LinesOff(after[c].lines, after') {
      if c != b { SameLinesOff(bills[c].lines, table, after'); }
    }
  }

  lemma AddKeepsRangeInv(db: Db, b: nat, o: Order, today: int, band: nat, lo: nat, hi: nat)
    requires Inv(db) && RangeInv(db, band, lo, hi) && OrderFits(o, band, lo, hi) && b < |db.bills| && AddLine(db, b, o, today).Ok?
    ensures RangeInv(AddLine(db, b, o, today).value, band, lo, hi)
  {
    hide Inv, Price, MergeTarget, NextPosition, Sum, DeriveStatus, InRange;
    MergeTargetIsOnBill(db, b, o) by { assert RowsOk(db) by { InvRows(db); } }
    LineLaws.MergeTargetCites(db, b, o);
    PricedInRange(db.bills[b].payer, o, band, lo, hi);
    var after := AddLine(db, b, o, today).value;
    assert LinesOff(db.bills[b].lines, db.assessments);
    match MergeTarget(db, b, o)
    case Some(l) =>
      var j :| 0 <= j < |db.bills[b].lines| && db.bills[b].lines[j] == l;
      assert OffDraft(db.assessments, l.assessment);
      EditedBillsOff(db.bills, db.assessments, after.bills, after.assessments, b);
    case None => EditedBillsOff(db.bills, db.assessments, after.bills, after.assessments, b);
  }

  lemma InvRows(db: Db)
    requires Inv(db)
    ensures RowsOk(db)
  {
  }

  lemma UpdateKeepsRangeInv(db: Db, b: nat, j: nat, amount: int, today: int, band: nat, lo: nat, hi: nat)
    requires RangeInv(db, band, lo, hi) && Callable(db, UpdateBillLine(b, j, amount)) && UpdateLine(db, b, j, amount, today).Ok?
    ensures RangeInv(UpdateLine(db, b, j, amount, today).value, band, lo, hi)
  {
    hide Sum, DeriveStatus, InRange;
    var after := UpdateLine(db, b, j, amount, today).value;
    assert LinesOff(db.bills[b].lines, db.assessments);
    assert OffDraft(db.assessments, db.bills[b].lines[j].assessment);
    EditedBillsOff(db.bills, db.assessments, after.bills, after.assessments, b);
  }

  lemma DeleteKeepsRangeInv(db: Db, b: nat, j: nat, today: int, band: nat, lo: nat, hi: nat)
    requires RangeInv(db, band, lo, hi) && Callable(db, DeleteBillLine(b, j)) && DeleteLine(db, b, j, today).Ok?
    ensures RangeInv(DeleteLine(db, b, j, today).value, band, lo, hi)
  {
    hide Sum, DeriveStatus, InRange, HasAllocations;
    var after := DeleteLine(db, b, j, today).value;
    assert LinesOff(db.bills[b].lines, db.assessments);
    EditedBillsOff(db.bills, db.assessments, after.bills, after.assessments, b);
  }

  // ---- issuing ----

  lemma {:induction false} CarryOff(db: Db, lines: seq<Line>)
    requires LinesOff(lines, db.assessments)
    ensures forall item | item in CarryAll(db, lines).citing :: OffDraft(db.assessments, CarryAll(db, lines).citing[item])
  {
    if lines != [] {
      hide LinePaid;
      CarryOff(db, lines[..|lines| - 1]);
      assert OffDraft(db.assessments, lines[|lines| - 1].assessment);
    }
  }

  lemma {:induction false} PlaceOff(table: seq<Assessment>, charged: seq<Line>, c: Carry, next: nat, k: nat, after: seq<Assessment>)
    requires k <= |c.items| && LinesOff(charged, after)
    requires forall i | 0 <= i < |c.items| :: c.items[i] in c.citing
    requires forall item | item in c.citing :: OffDraft(after, c.citing[item])
    ensures LinesOff(Place(table, charged, c, next, k), after)
  {
    if k > 0 {
      hide LineFor, OffDraft;
      PlaceOff(table, charged, c, next, k - 1, after);
    }
  }

  lemma {:induction false} PriorOff(bills: seq<Bill>, order: seq<nat>, table: seq<Assessment>)
    requires BillsOff(bills, table) && InTable(order, |bills|) && BillsOk(bills)
    ensures LinesOff(PriorLines(bills, order), table)
  {
    if order != [] {
      hide OffDraft;
      PriorOff(bills, order[..|order| - 1], table);
      var b := order[|order| - 1];
      assert BillOk(bills[b]) && LinesOff(bills[b].lines, table);
      WalkIsCreationOrder(bills[b].lines);
    }
  }

  lemma NewLinesOff(db: Db, r: IssueRequest, m: Merge, after: seq<Assessment>)
    requires Inv(db) && BillsOff(db.bills, db.assessments) && StayOff(db.assessments, after)
    requires InTable(r.openBills, |db.bills|) && InTable(m.kept, |m.table|)
    requires forall i | 0 <= i < |m.kept| :: OffDraft(after, m.kept[i])
    ensures LinesOff(NewLines(db, r, m), after)
  {
    hide OffDraft, MoneyOk;
    var charged := FreshLines(m.table, m.kept, |db.lineBill|);
    assert LinesOff(charged, after);
    if r.rollArrears {
      var prior := PriorLines(db.bills, r.openBills);
      PriorOff(db.bills, r.openBills, db.assessments);
      CarryOff(db, prior);
      PriorLinesLinked(db, r.openBills);
      CarriesOk(db, prior);
      PlaceOff(m.table, charged, CarryAll(db, prior), |db.lineBill|, |CarryAll(db, prior).items|, after);
    }
  }

  lemma IssuedTable(db: Db, r: IssueRequest, refs: seq<nat>, table: seq<Assessment>, clock: Clock, band: nat, lo: nat, hi: nat)
    requires DraftsInRange(table, band, lo, hi) && InTable(r.openBills, |db.bills|)
    requires InTable(refs, |table|) && NoRepeats(refs)
    requires forall i | 0 <= i < |refs| :: table[refs[i]].status == AssessmentStatus.Draft
    ensures var m, after := MergeAll(refs, table), IssueMerged(db, r, MergeAll(refs, table), clock).assessments;
            && StayOff(table, after) && DraftsInRange(after, band, lo, hi)
            && forall i | 0 <= i < |m.kept| :: OffDraft(after, m.kept[i]) && InRange(after[m.kept[i]], band, lo, hi)
  {
    hide MergeAll, InRange, NewLines, IssueMerged;
    var m, after := MergeAll(refs, table), IssueMerged(db, r, MergeAll(refs, table), clock).assessments;
    IssuedTableIs(db, r, m, clock);
    MergeIsSound(refs, table);
    MergeKeepsRange(refs, table, band, lo, hi);
    forall id | 0 <= id < |table|
      ensures id in m.kept ==> after[id].status == AssessmentStatus.Billed
      ensures id in refs ==> after[id].status != AssessmentStatus.Draft
      ensures id !in refs ==> after[id] == table[id] {
      IssueSettlesAssessments(db, r, refs, table, clock, id);
    }
    forall i | 0 <= i < |m.kept| ensures OffDraft(after, m.kept[i]) && InRange(after[m.kept[i]], band, lo, hi) {
      assert m.kept[i] in refs;
      var j :| 0 <= j < |refs| && refs[j] == m.kept[i];
      RangeIgnoresStatus(m.table[m.kept[i]], after[m.kept[i]], band, lo, hi);
    }
  }

  lemma RangeIgnoresStatus(a: Assessment, b: Assessment, band: nat, lo: nat, hi: nat)
    requires InRange(a, band, lo, hi) && a.(status := b.status) == b
    ensures InRange(b, band, lo, hi)
  {
  }

  lemma IssuedTableIs(db: Db, r: IssueRequest, m: Merge, clock: Clock)
    requires InTable(r.openBills, |db.bills|) && InTable(m.kept, |m.table|)
    ensures var after := IssueMerged(db, r, m, clock).assessments;
            && |after| == |m.table|
            && forall i | 0 <= i < |after| :: m.table[i].(status := after[i].status) == after[i]
  {
    hide NewLines;
  }

  lemma RefsAreDrafts(db: Db, r: IssueRequest, priced: seq<Assessment>)
    requires QueriedOn(r, db) && forall i | 0 <= i < |priced| :: priced[i].status == AssessmentStatus.Draft
    ensures var refs, table := Refs(db, r, |priced|), db.assessments + priced;
            InTable(refs, |table|) && forall i | 0 <= i < |refs| :: table[refs[i]].status == AssessmentStatus.Draft
  {
    QueriedInTable(r, db);
    var refs, table := Refs(db, r, |priced|), db.assessments + priced;
    forall i | 0 <= i < |refs| ensures refs[i] < |table| && table[refs[i]].status == AssessmentStatus.Draft {
      if i >= |priced| { assert refs[i] == r.drafts[i - |priced|] && refs[i] in r.drafts; }
    }
  }

  lemma {:induction false} PricedAreDrafts(payer: nat, orders: seq<Order>)
    requires PriceAll(payer, orders).Ok?
    ensures forall i | 0 <= i < |PriceAll(payer, orders).value| :: PriceAll(payer, orders).value[i].status == AssessmentStatus.Draft
  {
    if orders != [] {
      hide Price;
      PricedAreDrafts(payer, orders[..|orders| - 1]);
    }
  }

  lemma IssueKeepsRangeInv(db: Db, r: IssueRequest, clock: Clock, band: nat, lo: nat, hi: nat)
    requires Inv(db) && RangeInv(db, band, lo, hi) && QueriedOn(r, db) && StepFits(IssueBill(r), band, lo, hi)
    requires InTable(r.drafts, |db.assessments|) && InTable(r.openBills, |db.bills|) && Prepare(db, r, clock).Ok?
    ensures var m := Prepare(db, r, clock).value;
            var after := IssueMerged(db, r, m, clock);
            && RangeInv(after, band, lo, hi)
            && forall i | 0 <= i < |m.kept| :: OffDraft(after.assessments, m.kept[i]) && InRange(after.assessments[m.kept[i]], band, lo, hi)
  {
    hide PriceAll, MergeAll, InRange, OrderFits, NewLines, IssueMerged, OffDraft, Inv;
    var priced := PriceAll(r.payer, r.orders).value;
    var refs, table := Refs(db, r, |priced|), db.assessments + priced;
    var m := MergeAll(refs, table);
    AllPricedInRange(r.payer, r.orders, band, lo, hi);
    PricedAreDrafts(r.payer, r.orders);
    RefsAreUnbilled(db, r, |priced|);
    RefsAreDrafts(db, r, priced);
    IssuedTable(db, r, refs, table, clock, band, lo, hi);
    var after := IssueMerged(db, r, m, clock);
    LongerStaysOff(db.assessments, table, after.assessments);
    NewLinesOff(db, r, m, after.assessments);
    IssuedBillsOff(db, r, m, clock);
  }

  lemma LongerStaysOff(short: seq<Assessment>, long: seq<Assessment>, after: seq<Assessment>)
    requires short <= long && StayOff(long, after)
    ensures StayOff(short, after)
  {
    forall a: nat | OffDraft(short, a) ensures OffDraft(after, a) { assert OffDraft(long, a); }
  }

  lemma IssuedBillsOff(db: Db, r: IssueRequest, m: Merge, clock: Clock)
    requires Inv(db) && BillsOff(db.bills, db.assessments) && InTable(r.openBills, |db.bills|) && InTable(m.kept, |m.table|)
    requires StayOff(db.assessments, IssueMerged(db, r, m, clock).assessments)
    requires LinesOff(NewLines(db, r, m), IssueMerged(db, r, m, clock).assessments)
    ensures BillsOff(IssueMerged(db, r, m, clock).bills, IssueMerged(db, r, m, clock).assessments)
  {
    hide NewLines, OffDraft, Sum, DeriveStatus, MoneyOk, LinesOff, Mark;
    var after := IssueMerged(db, r, m, clock);
    forall b | 0 <= b < |after.bills| ensures LinesOff(after.bills[b].lines, after.assessments) {
      if b < |db.bills| {
        IssueLeavesOldBills(db, r, m, clock, b);
        SameLinesOff(db.bills[b].lines, db.assessments, after.assessments);
      }
    }
  }

  // ---- runs ----

  lemma StepKeepsRangeInv(db: Db, m: Move, band: nat, lo: nat, hi: nat)
    requires Inv(db) && RangeInv(db, band, lo, hi) && StepFits(m.step, band, lo, hi)
    ensures RangeInv(Apply(db, m), band, lo, hi)
  {
    hide Inv, Prepare, IssueMerged, Price, AddLine, UpdateLine, DeleteLine, InRange;
    if Callable(db, m.step) {
      match m.step
      case IssueBill(r) =>
        QueriedInTable(r, db);
        if Prepare(db, r, m.clock).Ok? { IssueKeepsRangeInv(db, r, m.clock, band, lo, hi); }
      case AddBillLine(b, o) =>
        if AddLine(db, b, o, m.clock.day).Ok? { AddKeepsRangeInv(db, b, o, m.clock.day, band, lo, hi); }
      case UpdateBillLine(b, j, amount) =>
        if UpdateLine(db, b, j, amount, m.clock.day).Ok? { UpdateKeepsRangeInv(db, b, j, amount, m.clock.day, band, lo, hi); }
      case DeleteBillLine(b, j) =>
        if DeleteLine(db, b, j, m.clock.day).Ok? { DeleteKeepsRangeInv(db, b, j, m.clock.day, band, lo, hi); }
      case DraftAssessment(payer, o) =>
        if Price(o).Ok? { PricedInRange(payer, o, band, lo, hi); }
        Agreement.OtherStepsLeaveLines(db, m);
        SameBillsOff(db, Apply(db, m));
      case _ =>
        Agreement.OtherStepsLeaveLines(db, m);
        SameBillsOff(db, Apply(db, m));
    }
  }

  lemma SameBillsOff(db: Db, after: Db)
    requires BillsOff(db.bills, db.assessments) && |after.bills| == |db.bills| && db.assessments <= after.assessments
    requires forall b | 0 <= b < |db.bills| :: after.bills[b].lines == db.bills[b].lines
    ensures BillsOff(after.bills, after.assessments)
  {
    forall b | 0 <= b < |after.bills| ensures LinesOff(after.bills[b].lines, after.assessments) {
      assert LinesOff(db.bills[b].lines, db.assessments);
      SameLinesOff(db.bills[b].lines, db.assessments, after.assessments);
    }
  }

  lemma {:induction false} DraftsStayInRange(payers: nat, moves: seq<Move>, band: nat, lo: nat, hi: nat)
    requires forall i | 0 <= i < |moves| :: StepFits(moves[i].step, band, lo, hi)
    ensures RangeInv(Run(Empty(payers), moves), band, lo, hi)
  {
    if moves != [] {
      hide Apply, RangeInv;
      var n := |moves| - 1;
      DraftsStayInRange(payers, moves[..n], band, lo, hi);
      EveryRunKeepsInv(payers, moves[..n]);
      StepKeepsRangeInv(Run(Empty(payers), moves[..n]), moves[n], band, lo, hi);
    }
  }

  /** After any run, line overrides and consolidations included, whatever an issue bills on a RANGE band is charged between
      the band's bounds for each unit, however many drafts and entries were merged into it. */
  lemma IssuedChargesAreInRange(payers: nat, moves: seq<Move>, r: IssueRequest, clock: Clock, band: nat, lo: nat, hi: nat, k: nat)
    requires forall i | 0 <= i < |moves| :: StepFits(moves[i].step, band, lo, hi)
    requires StepFits(IssueBill(r), band, lo, hi)
    requires var db := Run(Empty(payers), moves);
             && QueriedOn(r, db) && InTable(r.drafts, |db.assessments|) && InTable(r.openBills, |db.bills|)
             && Prepare(db, r, clock).Ok? && k in Prepare(db, r, clock).value.kept
    ensures var after := Apply(Run(Empty(payers), moves), Move(IssueBill(r), clock)).assessments;
            k < |after| && InRange(after[k], band, lo, hi)
  {
    hide Prepare, IssueMerged, InRange, RangeInv, Inv;
    var db := Run(Empty(payers), moves);
    DraftsStayInRange(payers, moves, band, lo, hi);
    EveryRunKeepsInv(payers, moves);
    IssueKeepsRangeInv(db, r, clock, band, lo, hi);
    var kept := Prepare(db, r, clock).value.kept;
    var i :| 0 <= i < |kept| && kept[i] == k;
  }
}
