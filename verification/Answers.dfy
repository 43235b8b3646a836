/** What each service of the ledger answers, in terms of the rows and the request alone: when it refuses, and what an
    accepted call writes. */
module Answers {
  import opened Prelude
  import opened Sums
  import opened Tables
  import opened Revenue
  import opened Billing
  import opened Payments
  import opened Ledger
  import opened IssueLaws
  import Consolidation
  import LineLaws
  import Ranges

  // ---- the status of a bill ----

  /** What a recompute leaves in the status: CANCELLED and SUPERSEDED as they are, otherwise PAID, OVERDUE, PART_PAID or ISSUED
      by what the lines add up to, what is paid, and the due day. */
  lemma RecomputedStatusIs(b: Bill, today: int)
    ensures var after := Recompute(b, today);
            var covered := b.paid >= after.total > 0;
            && after.total == Sum(b.lines, (l: Line) => l.amount) && after.arrears == Sum(b.lines, (l: Line) => l.arrears)
            && after.status == (
                 if b.status == Cancelled || b.status == Superseded then b.status
                 else if covered then BillStatus.Paid
                 else if b.dueOn < today then Overdue
                 else if b.paid > 0 then PartPaid
                 else BillStatus.Issued)
            && after == b.(total := after.total, arrears := after.arrears, status := after.status, updatedOn := today)
  {
    SumSame(b.lines, AmountOf, (l: Line) => l.amount);
    SumSame(b.lines, ArrearsOf, (l: Line) => l.arrears);
  }

  /** An open case closed on a day; a closed one and no case as they are. */
  function ClosedOn(c: Option<DebtCase>, day: int): Option<DebtCase> {
    if c.Some? && c.value.stage != Closed then Some(DebtCase(c.value.bucket, Closed, c.value.reminders, Some(day))) else c
  }

  // ---- payments ----

  /** A payment is made exactly when its bill is neither superseded nor cancelled and its reference, if it has one, funds no
      payment of its channel yet. The refusal says which. */
  lemma PaymentAcceptedIff(db: Db, t: Tender, clock: Clock)
    requires Callable(db, PostPayment(t))
    ensures var after, status := Apply(db, Move(PostPayment(t), clock)), db.bills[t.bill].status;
            var dead := status == Superseded || status == Cancelled;
            var used := t.ref != "" && exists i :: 0 <= i < |db.payments| && db.payments[i].channel == t.channel && db.payments[i].ref == t.ref;
            && (!dead && !used ==>
                  after.payments == db.payments + [Payment(|db.payments|, t.bill, t.channel, t.ref, t.amount, Confirmed, clock.day)])
            && (dead || used ==> after == db)
            && (Post(db, t, clock.day) == Err(PaymentRejected) <==> dead)
            && (Post(db, t, clock.day) == Err(DuplicateReference) <==> !dead && used)
            && (Post(db, t, clock.day).Ok? <==> !dead && !used)
  {
    hide AppliedOf, Fifo.AllRows;
  }

  /** An accepted payment changes one bill: its amount paid, status and day of last write, and, when that leaves it PAID, its
      debt case, closed that day. */
  lemma PaymentTouchesItsBill(db: Db, t: Tender, clock: Clock, c: nat)
    requires Callable(db, PostPayment(t)) && Post(db, t, clock.day).Ok? && c < |db.bills|
    ensures var b, after := db.bills[c], Apply(db, Move(PostPayment(t), clock)).bills;
            && |after| == |db.bills|
            && (c != t.bill ==> after[c] == b)
            && (c == t.bill ==>
                  && after[c].updatedOn == clock.day
                  && after[c].debtCase == (if after[c].status == BillStatus.Paid then ClosedOn(b.debtCase, clock.day) else b.debtCase)
                  && after[c].lines == b.lines && after[c].payer == b.payer && after[c].dueOn == b.dueOn
                  && after[c].year == b.year && after[c].successor == b.successor)
  {
    hide AppliedOf, Fifo.AllRows, Sum, DeriveStatus;
  }

  /** A reversal is refused exactly when the payment is not confirmed. An accepted one leaves its bill's case alone. */
  lemma ReversalAcceptedIff(db: Db, p: nat, clock: Clock)
    requires Callable(db, ReversePayment(p))
    ensures var after := Apply(db, Move(ReversePayment(p), clock));
            && (db.payments[p].status == Confirmed ==>
                  && after.payments == db.payments[p := db.payments[p].(status := Reversed)]
                  && |after.bills| == |db.bills|
                  && after.bills[db.payments[p].bill].debtCase == db.bills[db.payments[p].bill].debtCase)
            && (db.payments[p].status != Confirmed ==> after == db && Reverse(db, p, clock.day) == Err(PaymentRejected))
  {
    hide Applied, Sum, DeriveStatus;
  }

  // ---- assessments ----

  /** Some band of the item is open. */
  ghost predicate Banded(o: Order) {
    exists i :: 0 <= i < |o.item.bands| && o.item.bands[i].to.None?
  }

  /** The row an order is filed under: the band it was priced by, and the tier unless the band is a RANGE one. */
  ghost predicate FiledAs(a: Assessment, payer: nat, o: Order) {
    && a.payer == payer && a.item == o.item.id && a.quantity == o.quantity
    && (exists unit: nat :: UnitCosts(o, unit) && a.amount == unit * o.quantity)
    && (if Banded(o) then
          && o.band.Some? && a.band == Some(o.band.value.id)
          && a.tier == (if o.band.value.mode == Range || o.tier.None? then None else Some(o.tier.value.id))
        else a.band == None && a.tier == None)
  }

  lemma FiledAsPriced(payer: nat, o: Order)
    requires Price(o).Ok?
    ensures FiledAs(NewAssessment(payer, o, Price(o).value), payer, o)
  {
    var unit := PriceIsUnitTimesQuantity(o);
  }

  /** A draft is created exactly for an acceptable order, and stores what the order is priced at. */
  lemma DraftAcceptedIff(db: Db, payer: nat, o: Order, clock: Clock)
    requires Callable(db, DraftAssessment(payer, o))
    ensures var after, n := Apply(db, Move(DraftAssessment(payer, o), clock)), |db.assessments|;
            && (Acceptable(o) ==>
                  && |after.assessments| == n + 1 && after == db.(assessments := db.assessments + [after.assessments[n]])
                  && FiledAs(after.assessments[n], payer, o) && after.assessments[n].status == AssessmentStatus.Draft)
            && (!Acceptable(o) ==> after == db && CreateDraft(db, payer, o) == Err(BillingError))
  {
    hide Price, Acceptable, FiledAs;
    PricedIff(o);
    if Price(o).Ok? {
      FiledAsPriced(payer, o);
      DraftIsNew(payer, o);
    }
  }

  lemma DraftIsNew(payer: nat, o: Order)
    requires Price(o).Ok?
    ensures NewAssessment(payer, o, Price(o).value).status == AssessmentStatus.Draft
  {
  }

  // ---- adding a line ----

  /** The line's charge is for the item, band and tier the order names. */
  ghost predicate Fits(db: Db, l: Line, o: Order) {
    && l.assessment < |db.assessments|
    && db.assessments[l.assessment].item == o.item.id
    && db.assessments[l.assessment].band == (if o.band.Some? then Some(o.band.value.id) else None)
    && db.assessments[l.assessment].tier == (if o.tier.Some? then Some(o.tier.value.id) else None)
  }

  /** Adding folds the charge into the first line that fits, if there is one: the line's current charge becomes its grown
      assessment's amount, and the assessment made for the charge is cancelled. */
  lemma AddFolds(db: Db, b: nat, o: Order, today: int, j: nat)
    requires Inv(db) && b < |db.bills| && AddLine(db, b, o, today).Ok?
    requires j < |db.bills[b].lines| && Fits(db, db.bills[b].lines[j], o)
    requires forall i | 0 <= i < j :: !Fits(db, db.bills[b].lines[i], o)
    ensures var l, after, n := db.bills[b].lines[j], AddLine(db, b, o, today).value, |db.assessments|;
            && |after.bills| == |db.bills| && |after.assessments| == n + 1
            && FiledAs(after.assessments[n], db.bills[b].payer, o) && after.assessments[n].status == AssessmentStatus.Voided
            && var kept := db.assessments[l.assessment];
               var grown := kept.amount + after.assessments[n].amount;
               && after.bills[b].lines == db.bills[b].lines[j := l.(current := grown, amount := grown + l.arrears)]
               && after.assessments[..n]
                  == db.assessments[l.assessment := kept.(quantity := kept.quantity + o.quantity, amount := grown)]
               && after.lineBill == db.lineBill
  {
    hide Price, Sum, DeriveStatus, FiledAs, MatchingLine, NextPosition, Inv, Fits;
    var lines, key := db.bills[b].lines, LineLaws.AskedKey(o);
    var added := NewAssessment(db.bills[b].payer, o, Price(o).value);
    AddedIsFiled(db, b, o);
    LinesInOrder(db, b);
    CarriesFits(db, lines, o);
    LineLaws.MatchingIsFirst(db.assessments, lines, key, j);
    LineLaws.ReplaceIsUpdate(lines, j, Merged(lines[j], Absorb(db.assessments[lines[j].assessment], added)));
    var after := AddLine(db, b, o, today).value;
    assert after == AddToLine(db, b, lines[j], added, today);
  }

  /** With no such line the charge gets one of its own, behind all others, on its assessment, now billed. */
  lemma AddAppends(db: Db, b: nat, o: Order, today: int)
    requires Inv(db) && b < |db.bills| && AddLine(db, b, o, today).Ok?
    requires forall i | 0 <= i < |db.bills[b].lines| :: !Fits(db, db.bills[b].lines[i], o)
    ensures var lines, after, n := db.bills[b].lines, AddLine(db, b, o, today).value, |db.assessments|;
            && |after.bills| == |db.bills| && |after.assessments| == n + 1 && after.assessments[..n] == db.assessments
            && FiledAs(after.assessments[n], db.bills[b].payer, o) && after.assessments[n].status == AssessmentStatus.Billed
            && |after.bills[b].lines| == |lines| + 1 && after.bills[b].lines[..|lines|] == lines
            && var added := after.bills[b].lines[|lines|];
               && added.assessment == n && added.arrears == 0
               && added.amount == added.current == after.assessments[n].amount
               && (forall i | 0 <= i < |lines| :: lines[i].position <= added.position && lines[i].id < added.id)
               && after.lineBill == db.lineBill + [b]
  {
    hide Price, Sum, DeriveStatus, FiledAs, MatchingLine, NextPosition, Inv, Fits, Recompute;
    var lines, key := db.bills[b].lines, LineLaws.AskedKey(o);
    var added := NewAssessment(db.bills[b].payer, o, Price(o).value);
    AddedIsFiled(db, b, o);
    LinesInOrder(db, b);
    CarriesFits(db, lines, o);
    if MatchingLine(db.assessments, lines, key).Some? {
      var j := LineLaws.FirstMatching(db.assessments, lines, key);
    }
    NextPositionIsLast(lines);
    LineLaws.AppendedAre(db, b, added, today);
  }

  lemma LinesInOrder(db: Db, b: nat)
    requires Inv(db) && b < |db.bills|
    ensures Ordered(db.bills[b].lines) && Walk(db.bills[b].lines) == db.bills[b].lines
    ensures forall i | 0 <= i < |db.bills[b].lines| :: db.bills[b].lines[i].id < |db.lineBill|
  {
    assert BillOk(db.bills[b]) && BillLinked(db, b);
    WalkIsCreationOrder(db.bills[b].lines);
    assert forall i | 0 <= i < |db.bills[b].lines| :: LineLinked(db, b, db.bills[b].lines[i]);
  }

  lemma AddedIsFiled(db: Db, b: nat, o: Order)
    requires b < |db.bills| && Price(o).Ok?
    ensures var added := NewAssessment(db.bills[b].payer, o, Price(o).value);
            && added.quantity == o.quantity
            && FiledAs(added.(status := AssessmentStatus.Billed), db.bills[b].payer, o)
            && FiledAs(added.(status := AssessmentStatus.Voided), db.bills[b].payer, o)
  {
    hide Price, FiledAs;
    var added := NewAssessment(db.bills[b].payer, o, Price(o).value);
    FiledAsPriced(db.bills[b].payer, o);
    PriceKeepsQuantity(o);
    FiledWhateverStatus(added, AssessmentStatus.Billed, db.bills[b].payer, o);
    FiledWhateverStatus(added, AssessmentStatus.Voided, db.bills[b].payer, o);
  }

  lemma FiledWhateverStatus(a: Assessment, status: AssessmentStatus, payer: nat, o: Order)
    requires FiledAs(a, payer, o)
    ensures FiledAs(a.(status := status), payer, o)
  {
    var unit: nat :| UnitCosts(o, unit) && a.amount == unit * o.quantity;
    assert UnitCosts(o, unit) && a.(status := status).amount == unit * o.quantity;
  }

  lemma CarriesFits(db: Db, lines: seq<Line>, o: Order)
    ensures forall i | 0 <= i < |lines| :: Carries(db.assessments, lines[i], LineLaws.AskedKey(o)) <==> Fits(db, lines[i], o)
  {
  }

  lemma PriceKeepsQuantity(o: Order)
    requires Price(o).Ok?
    ensures Price(o).value.quantity == o.quantity
  {
  }

  /** Adding is refused exactly for an order that is not acceptable. */
  lemma AddAcceptedIff(db: Db, b: nat, o: Order, clock: Clock)
    requires Callable(db, AddBillLine(b, o))
    ensures AddLine(db, b, o, clock.day).Ok? <==> Acceptable(o)
    ensures !Acceptable(o) ==>
              Apply(db, Move(AddBillLine(b, o), clock)) == db && AddLine(db, b, o, clock.day) == Err(BillingError)
  {
    hide Price, Acceptable, MergeTarget, AddToLine, AppendLine;
    PricedIff(o);
  }

  /** Adding leaves in draft exactly what was in draft. */
  lemma AddKeepsDrafts(db: Db, b: nat, o: Order, clock: Clock, id: nat)
    requires Callable(db, AddBillLine(b, o))
    ensures var after := Apply(db, Move(AddBillLine(b, o), clock)).assessments;
            id < |after| && after[id].status == AssessmentStatus.Draft
            <==> id < |db.assessments| && db.assessments[id].status == AssessmentStatus.Draft
  {
    hide Price, Sum, DeriveStatus, MergeTarget, NextPosition;
    LineLaws.MergeTargetCites(db, b, o);
  }

  // ---- an assessment leaves draft for good ----

  lemma StepLeavesOffDraft(db: Db, m: Move, id: nat)
    requires Inv(db) && id < |db.assessments| && db.assessments[id].status != AssessmentStatus.Draft
    ensures id < |Apply(db, m).assessments| && Apply(db, m).assessments[id].status != AssessmentStatus.Draft
  {
    if Callable(db, m.step) {
      hide Inv, Sum, DeriveStatus, Price, Issue, MergeTarget, NextPosition, AppliedOf, Fifo.AllRows;
      match m.step
      case IssueBill(r) =>
        QueriedInTable(r, db);
        if Issue(db, r, m.clock).Ok? { IssueTakesInTheDrafts(db, r, m.clock, id); }
      case AddBillLine(b, o) => AddKeepsDrafts(db, b, o, m.clock, id); AddOnlyAppends(db, b, o, m.clock);
      case _ =>
    }
  }

  lemma AddOnlyAppends(db: Db, b: nat, o: Order, clock: Clock)
    requires Callable(db, AddBillLine(b, o))
    ensures |Apply(db, Move(AddBillLine(b, o), clock)).assessments| >= |db.assessments|
  {
    hide Price, Sum, DeriveStatus, MergeTarget, NextPosition;
    LineLaws.MergeTargetCites(db, b, o);
  }

  lemma {:induction false} OffDraftForever(db: Db, moves: seq<Move>, id: nat)
    requires Inv(db) && id < |db.assessments| && db.assessments[id].status != AssessmentStatus.Draft
    ensures Inv(Run(db, moves))
    ensures id < |Run(db, moves).assessments| && Run(db, moves).assessments[id].status != AssessmentStatus.Draft
  {
    if moves != [] {
      hide Apply, Inv;
      var n := |moves| - 1;
      OffDraftForever(db, moves[..n], id);
      StepKeepsInv(Run(db, moves[..n]), moves[n]);
      StepLeavesOffDraft(Run(db, moves[..n]), moves[n], id);
    }
  }

  /** Whatever happens after a charge was added to a bill, no later issue takes in the assessment made for it. */
  lemma AddedChargeIsNeverBilledAgain(db: Db, b: nat, o: Order, clock: Clock, moves: seq<Move>, r: IssueRequest, later: Clock)
    requires Inv(db) && b < |db.bills| && AddLine(db, b, o, clock.day).Ok?
    requires var now := Run(AddLine(db, b, o, clock.day).value, moves);
             && Callable(now, IssueBill(r)) && InTable(r.drafts, |now.assessments|) && InTable(r.openBills, |now.bills|)
             && Issue(now, r, later).Ok?
    ensures var id, now := |db.assessments|, Run(AddLine(db, b, o, clock.day).value, moves);
            var after := Apply(now, Move(IssueBill(r), later));
            && id < |now.assessments| && id < |after.assessments| && after.assessments[id] == now.assessments[id]
            && now.assessments[id].status != AssessmentStatus.Draft
  {
    hide Inv, Apply, Issue, AddLine;
    var added, id := AddLine(db, b, o, clock.day).value, |db.assessments|;
    assert Apply(db, Move(AddBillLine(b, o), clock)) == added by { AddApplies(db, b, o, clock); }
    StepKeepsInv(db, Move(AddBillLine(b, o), clock));
    AddStoresOne(db, b, o, clock.day);
    OffDraftForever(added, moves, id);
    IssueTakesInTheDrafts(Run(added, moves), r, later, id);
  }

  lemma AddApplies(db: Db, b: nat, o: Order, clock: Clock)
    requires b < |db.bills| && AddLine(db, b, o, clock.day).Ok?
    ensures Callable(db, AddBillLine(b, o)) && Apply(db, Move(AddBillLine(b, o), clock)) == AddLine(db, b, o, clock.day).value
  {
    hide AddLine;
  }

  lemma AddStoresOne(db: Db, b: nat, o: Order, today: int)
    requires b < |db.bills| && AddLine(db, b, o, today).Ok?
    ensures var after := AddLine(db, b, o, today).value.assessments;
            |after| == |db.assessments| + 1 && after[|db.assessments|].status != AssessmentStatus.Draft
  {
    hide Price, Sum, DeriveStatus, MergeTarget, NextPosition;
    LineLaws.MergeTargetCites(db, b, o);
  }

  // ---- issuing ----

  /** The two queries of an issue: all of the payer's drafts, and all of the payer's bills that are ISSUED, PART_PAID or
      OVERDUE, each row once. */
  lemma QueriesReturn(r: IssueRequest, db: Db)
    ensures Callable(db, IssueBill(r)) <==>
      && r.payer < |db.credit|
      && (forall i, j | 0 <= i < j < |r.drafts| :: r.drafts[i] != r.drafts[j])
      && (forall id: nat :: id in r.drafts <==>
            id < |db.assessments| && db.assessments[id].payer == r.payer && db.assessments[id].status == AssessmentStatus.Draft)
      && (forall i, j | 0 <= i < j < |r.openBills| :: r.openBills[i] != r.openBills[j])
      && (forall b: nat :: b in r.openBills <==>
            && b < |db.bills| && db.bills[b].payer == r.payer
            && (db.bills[b].status == BillStatus.Issued || db.bills[b].status == PartPaid || db.bills[b].status == Overdue))
  {
    assert forall id: nat :: IsDraftOf(db, r.payer, id) <==>
      id < |db.assessments| && db.assessments[id].payer == r.payer && db.assessments[id].status == AssessmentStatus.Draft;
    assert forall b: nat :: IsOpenBillOf(db, r.payer, b) <==>
      && b < |db.bills| && db.bills[b].payer == r.payer
      && (db.bills[b].status == BillStatus.Issued || db.bills[b].status == PartPaid || db.bills[b].status == Overdue);
  }

  /** A bill of the payer and year that could still be added to. */
  ghost predicate Clashes(bills: seq<Bill>, payer: nat, year: int, b: nat) {
    b < |bills| && bills[b].payer == payer && bills[b].year == year && bills[b].status != Cancelled && bills[b].status != Superseded
  }

  lemma {:induction false} ClashIsFound(bills: seq<Bill>, payer: nat, year: int)
    ensures var found := OpenThisYear(bills, payer, year);
            && (found.Some? ==> Clashes(bills, payer, year, found.value) && forall b | 0 <= b < found.value :: !Clashes(bills, payer, year, b))
            && (found.None? ==> forall b: nat :: !Clashes(bills, payer, year, b))
  {
    if bills != [] {
      var n := |bills| - 1;
      ClashIsFound(bills[..n], payer, year);
      forall b | 0 <= b < n ensures Clashes(bills[..n], payer, year, b) == Clashes(bills, payer, year, b) {
        assert bills[..n][b] == bills[b];
      }
    }
  }

  lemma {:induction false} AllPricedIff(payer: nat, orders: seq<Order>)
    ensures PriceAll(payer, orders).Ok? <==> forall i | 0 <= i < |orders| :: Acceptable(orders[i])
    ensures PriceAll(payer, orders).Err? ==> PriceAll(payer, orders).error == BillingError
    ensures PriceAll(payer, orders).Ok? ==> |PriceAll(payer, orders).value| == |orders|
  {
    if orders != [] {
      hide Price, Acceptable;
      var n := |orders| - 1;
      AllPricedIff(payer, orders[..n]);
      PricedIff(orders[n]);
    }
  }

  lemma {:induction false} SomethingKept(refs: seq<nat>, table: seq<Assessment>)
    requires InTable(refs, |table|)
    ensures MergeAll(refs, table).kept == [] <==> refs == []
  {
    if refs != [] {
      SomethingKept(refs[..|refs| - 1], table);
    }
  }

  /** An issue is refused exactly for one of three reasons, looked at in this order: outside a consolidation and not forced,
      the payer already has a live bill this year, and the first such one is named; some entry is not acceptable; or there is
      nothing to bill, no entry, no draft asked for and there, and no consolidation. */
  lemma IssueRefusedIff(db: Db, r: IssueRequest, clock: Clock)
    requires Callable(db, IssueBill(r)) && InTable(r.drafts, |db.assessments|) && InTable(r.openBills, |db.bills|)
    ensures var duplicate := !r.rollArrears && !r.force && exists b :: Clashes(db.bills, r.payer, clock.year, b);
            var bad := exists i :: 0 <= i < |r.orders| && !Acceptable(r.orders[i]);
            var empty := r.orders == [] && !r.rollArrears
                         && !(r.allDrafts && exists id: nat :: id < |db.assessments| && db.assessments[id].payer == r.payer
                                                               && db.assessments[id].status == AssessmentStatus.Draft);
            var answer := Issue(db, r, clock);
            && (answer.Ok? <==> !duplicate && !bad && !empty)
            && (answer.Err? ==> Apply(db, Move(IssueBill(r), clock)) == db)
            && (duplicate ==> exists b: nat :: && answer == Err(DuplicateBill(b)) && Clashes(db.bills, r.payer, clock.year, b)
                                          && forall c | 0 <= c < b :: !Clashes(db.bills, r.payer, clock.year, c))
            && (!duplicate && (bad || empty) ==> answer == Err(BillingError))
  {
    hide PriceAll, MergeAll, OpenThisYear, IssueMerged, Acceptable, QueriedOn;
    ClashIsFound(db.bills, r.payer, clock.year);
    AllPricedIff(r.payer, r.orders);
    QueriesReturn(r, db);
    if PriceAll(r.payer, r.orders).Ok? {
      var priced := PriceAll(r.payer, r.orders).value;
      RefsAreUnbilled(db, r, |priced|);
      NothingTakenIn(db, r, |priced|);
      TakenInTable(db, r, |priced|);
      SomethingKept(Refs(db, r, |priced|), db.assessments + priced);
    }
  }

  lemma TakenInTable(db: Db, r: IssueRequest, priced: nat)
    requires InTable(r.drafts, |db.assessments|)
    ensures InTable(Refs(db, r, priced), |db.assessments| + priced)
  {
  }

  lemma NothingTakenIn(db: Db, r: IssueRequest, priced: nat)
    requires Callable(db, IssueBill(r))
    ensures Refs(db, r, priced) == [] <==>
              priced == 0 && !(r.allDrafts && exists id: nat :: id < |db.assessments| && db.assessments[id].payer == r.payer
                                                                && db.assessments[id].status == AssessmentStatus.Draft)
  {
    QueriesReturn(r, db);
    if r.drafts != [] { assert r.drafts[0] in r.drafts; }
  }

  function Charge(o: Order): int {
    if Price(o).Ok? then Price(o).value.amount else 0
  }

  function DraftAmount(payer: nat): Assessment -> int {
    (a: Assessment) => if a.payer == payer && a.status == AssessmentStatus.Draft then a.amount else 0
  }

  /** An accepted issue bills or cancels every draft the payer had, if all drafts are asked for, and touches no other
      assessment; those it creates for its entries end billed or cancelled too. */
  lemma IssueTakesInTheDrafts(db: Db, r: IssueRequest, clock: Clock, id: nat)
    requires Callable(db, IssueBill(r)) && InTable(r.drafts, |db.assessments|) && InTable(r.openBills, |db.bills|)
    requires Issue(db, r, clock).Ok?
    ensures var after := Apply(db, Move(IssueBill(r), clock)).assessments;
            && |after| == |db.assessments| + |r.orders|
            && (id < |db.assessments| ==>
                  if r.allDrafts && db.assessments[id].payer == r.payer && db.assessments[id].status == AssessmentStatus.Draft
                  then after[id].status == AssessmentStatus.Billed || after[id].status == AssessmentStatus.Voided
                  else after[id] == db.assessments[id])
            && (|db.assessments| <= id < |after| ==>
                  after[id].status == AssessmentStatus.Billed || after[id].status == AssessmentStatus.Voided)
  {
    hide PriceAll, MergeAll, Firsts, Issue, Apply, QueriedOn;
    Consolidation.IssueChargesWhatItTakesIn(db, r, clock, id);
    AllPricedIff(r.payer, r.orders);
    QueriesReturn(r, db);
    TakenInAre(db, r, |r.orders|, id);
  }

  lemma TakenInAre(db: Db, r: IssueRequest, priced: nat, id: nat)
    ensures id in Refs(db, r, priced) <==> |db.assessments| <= id < |db.assessments| + priced || (r.allDrafts && id in r.drafts)
  {
    var entries := seq(priced, i => |db.assessments| + i);
    if |db.assessments| <= id < |db.assessments| + priced { assert entries[id - |db.assessments|] == id; }
    assert id in Refs(db, r, priced) <==> id in entries || (r.allDrafts && id in r.drafts);
  }

  /** The new bill's current charges are the prices of the entries and, if all drafts are asked for, the payer's drafts. */
  lemma IssueChargesEntriesAndDrafts(db: Db, r: IssueRequest, clock: Clock)
    requires Callable(db, IssueBill(r)) && InTable(r.drafts, |db.assessments|) && InTable(r.openBills, |db.bills|)
    requires Issue(db, r, clock).Ok?
    ensures var after := Apply(db, Move(IssueBill(r), clock)).bills;
            && |after| == |db.bills| + 1
            && Sum(after[|db.bills|].lines, (l: Line) => l.current)
               == Sum(r.orders, Charge) + if r.allDrafts then Sum(db.assessments, DraftAmount(r.payer)) else 0
  {
    hide PriceAll, MergeAll, Firsts, Issue, Apply, Refs, Charge;
    Consolidation.IssueChargesWhatItTakesIn(db, r, clock, 0);
    AllPricedIff(r.payer, r.orders);
    var priced := PriceAll(r.payer, r.orders).value;
    TakenInAmounts(db, r, priced);
    EntriesAmount(r.payer, r.orders);
    SumSame(Apply(db, Move(IssueBill(r), clock)).bills[|db.bills|].lines, CurrentOf, (l: Line) => l.current);
  }

  function AmountIn(a: Assessment): int { a.amount }

  lemma {:induction false} EntriesAmount(payer: nat, orders: seq<Order>)
    requires PriceAll(payer, orders).Ok?
    ensures Sum(PriceAll(payer, orders).value, AmountIn) == Sum(orders, Charge)
  {
    if orders != [] {
      hide Price;
      var n := |orders| - 1;
      EntriesAmount(payer, orders[..n]);
      SumPush(PriceAll(payer, orders[..n]).value, NewAssessment(payer, orders[n], Price(orders[n]).value), AmountIn);
    }
  }

  lemma TakenInAmounts(db: Db, r: IssueRequest, priced: seq<Assessment>)
    requires Callable(db, IssueBill(r)) && InTable(r.drafts, |db.assessments|)
    ensures Sum(Refs(db, r, |priced|), AmountAt(db.assessments + priced))
            == Sum(priced, AmountIn) + if r.allDrafts then Sum(db.assessments, DraftAmount(r.payer)) else 0
  {
    var table := db.assessments + priced;
    var entries: seq<nat> := seq(|priced|, i => |db.assessments| + i);
    SumAlong<nat, Assessment>(entries, priced, AmountAt(table), AmountIn);
    if r.allDrafts {
      assert Refs(db, r, |priced|) == entries + r.drafts;
      SumConcat<nat>(entries, r.drafts, AmountAt(table));
      DraftsAmount(db, r, table);
    } else {
      assert Refs(db, r, |priced|) == entries;
    }
  }

  lemma DraftsAmount(db: Db, r: IssueRequest, table: seq<Assessment>)
    requires Callable(db, IssueBill(r)) && InTable(r.drafts, |db.assessments|) && db.assessments <= table
    ensures Sum(r.drafts, AmountAt(table)) == Sum(db.assessments, DraftAmount(r.payer))
  {
    var n := |db.assessments|;
    QueriesReturn(r, db);
    SumAnyOrder(r.drafts, n, AmountAt(table));
    SumByIndex(db.assessments, DraftAmount(r.payer));
    forall id: nat | id in UpTo(n) ensures OnlyIn(r.drafts, AmountAt(table))(id) == At(db.assessments, DraftAmount(r.payer))(id) {
      var i :| 0 <= i < n && UpTo(n)[i] == id;
      assert table[id] == db.assessments[id];
    }
    SumSame<nat>(UpTo(n), OnlyIn(r.drafts, AmountAt(table)), At(db.assessments, DraftAmount(r.payer)));
  }

  /** A consolidation supersedes exactly the payer's bills that are ISSUED, PART_PAID or OVERDUE, by the new bill, and closes
      their cases; without one no earlier bill changes. */
  lemma IssueSupersedes(db: Db, r: IssueRequest, clock: Clock, b: nat)
    requires Callable(db, IssueBill(r)) && InTable(r.drafts, |db.assessments|) && InTable(r.openBills, |db.bills|)
    requires Issue(db, r, clock).Ok? && b < |db.bills|
    ensures var bill, after := db.bills[b], Apply(db, Move(IssueBill(r), clock)).bills;
            && |after| == |db.bills| + 1
            && after[b] ==
                 if r.rollArrears && bill.payer == r.payer
                    && (bill.status == BillStatus.Issued || bill.status == PartPaid || bill.status == Overdue)
                 then bill.(status := Superseded, successor := Some(|db.bills|), updatedOn := clock.day,
                            debtCase := ClosedOn(bill.debtCase, clock.day))
                 else bill
  {
    hide Prepare, NewLines, Sum, DeriveStatus, Mark, QueriedOn;
    QueriesReturn(r, db);
  }

  /** The new bill is the payer's, of the year and day of the call, due when asked or after the days allowed, with nothing
      paid, no case and no successor; and its status is the rule's. */
  lemma IssuedBillIs(db: Db, r: IssueRequest, clock: Clock)
    requires Callable(db, IssueBill(r)) && InTable(r.drafts, |db.assessments|) && InTable(r.openBills, |db.bills|)
    requires Issue(db, r, clock).Ok?
    ensures var after := Apply(db, Move(IssueBill(r), clock)).bills;
            && |after| == |db.bills| + 1
            && var bill := after[|db.bills|];
               && bill.payer == r.payer && bill.year == clock.year && bill.updatedOn == clock.day && bill.paid == 0
               && bill.dueOn == (if r.dueOn.Some? then r.dueOn.value else clock.day + r.dueDays)
               && bill.successor == None && bill.debtCase == None
               && bill.status == if bill.dueOn < clock.day then Overdue else BillStatus.Issued
  {
    hide Prepare, NewLines, Sum, Mark, QueriedOn;
  }

  // ---- editing a line ----

  /** A line added behind others goes one position past the highest, or to 0 again while that is 0. */
  lemma NextPositionIs(lines: seq<Line>)
    ensures if forall i | 0 <= i < |lines| :: lines[i].position == 0 then NextPosition(lines) == 0
            else (exists i :: 0 <= i < |lines| && lines[i].position + 1 == NextPosition(lines))
                 && forall i | 0 <= i < |lines| :: lines[i].position < NextPosition(lines)
  {
    HighestPosition(lines);
  }

  lemma {:induction false} HighestPosition(lines: seq<Line>)
    ensures lines == [] <==> MaxPosition(lines) == None
    ensures MaxPosition(lines).Some? ==> exists i :: 0 <= i < |lines| && lines[i].position == MaxPosition(lines).value
    ensures MaxPosition(lines).Some? ==> forall i | 0 <= i < |lines| :: lines[i].position <= MaxPosition(lines).value
  {
    if lines != [] {
      HighestPosition(lines[..|lines| - 1]);
    }
  }

  /** An accepted edit sets the line's amount, keeps its arrears, gives the rest to its current charge and its assessment, and
      changes no other line or assessment. */
  lemma UpdateIs(db: Db, b: nat, j: nat, amount: int, clock: Clock)
    requires Callable(db, UpdateBillLine(b, j, amount)) && amount > 0 && amount >= db.bills[b].lines[j].arrears
    ensures var l, after := db.bills[b].lines[j], Apply(db, Move(UpdateBillLine(b, j, amount), clock));
            && |after.bills| == |db.bills|
            && after.bills[b].lines
               == db.bills[b].lines[j := Line(l.id, l.assessment, amount, amount - l.arrears, l.arrears, l.position)]
            && after.assessments == db.assessments[l.assessment := db.assessments[l.assessment].(amount := amount - l.arrears)]
            && forall c | 0 <= c < |db.bills| && c != b :: after.bills[c] == db.bills[c]
  {
    hide Sum, DeriveStatus;
  }

  // ---- deleting a line ----

  /** A deletion is refused exactly when some allocation, of whatever status, is on the line, or it is the bill's last. */
  lemma DeleteRefusedIff(db: Db, b: nat, j: nat, clock: Clock)
    requires Callable(db, DeleteBillLine(b, j))
    ensures var after := Apply(db, Move(DeleteBillLine(b, j), clock));
            var paidOn := exists i :: 0 <= i < |db.allocations| && db.allocations[i].line == db.bills[b].lines[j].id;
            && (DeleteLine(db, b, j, clock.day).Ok? <==> !paidOn && |db.bills[b].lines| > 1)
            && (paidOn || |db.bills[b].lines| == 1 ==> after == db && DeleteLine(db, b, j, clock.day) == Err(BillingError))
            && (!paidOn && |db.bills[b].lines| > 1 ==>
                  && |after.bills| == |db.bills|
                  && after.bills[b].lines == db.bills[b].lines[..j] + db.bills[b].lines[j + 1..])
  {
    hide Sum, DeriveStatus;
  }
}
