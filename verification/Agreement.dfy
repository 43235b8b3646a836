/** Lines and the assessments they bill. Without a consolidation every line is the only one on its assessment and shows
    its amount. */
module Agreement {
  import opened Sums
  import opened Tables
  import opened Revenue
  import opened Billing
  import opened Payments
  import opened Ledger
  import IssueLaws
  import LineLaws

  /** The line's current charge is its assessment's amount, and the assessment is billed. */
  ghost predicate OwnCharge(table: seq<Assessment>, l: Line) {
    && l.assessment < |table|
    && table[l.assessment].status == AssessmentStatus.Billed
    && table[l.assessment].amount == l.current
  }

  ghost predicate Holds(bills: seq<Bill>, b: nat, i: nat) {
    b < |bills| && i < |bills[b].lines|
  }

  function LineAt(bills: seq<Bill>, b: nat, i: nat): Line
    requires Holds(bills, b, i)
  {
    bills[b].lines[i]
  }

  /** Every line shows its own assessment's amount, and no assessment is on two lines. */
  ghost predicate Agreed(bills: seq<Bill>, table: seq<Assessment>) {
    && (forall b, i | Holds(bills, b, i) :: OwnCharge(table, LineAt(bills, b, i)))
    && (forall b, i, c, j | Holds(bills, b, i) && Holds(bills, c, j) && (b != c || i != j) ::
          LineAt(bills, b, i).assessment != LineAt(bills, c, j).assessment)
  }

  /** Any step but a consolidation. */
  predicate Plain(s: Step) {
    s.IssueBill? ==> !s.request.rollArrears
  }

  lemma SameLinesAgree(bills: seq<Bill>, table: seq<Assessment>, after: seq<Bill>, after': seq<Assessment>)
    requires Agreed(bills, table) && |after| == |bills| && table <= after'
    requires forall b | 0 <= b < |bills| :: after[b].lines == bills[b].lines
    ensures Agreed(after, after')
  {
    forall b, i | Holds(after, b, i) ensures OwnCharge(after', LineAt(after, b, i)) {
      assert Holds(bills, b, i) && OwnCharge(table, LineAt(bills, b, i));
    }
    forall b, i, c, j | Holds(after, b, i) && Holds(after, c, j) && (b != c || i != j)
      ensures LineAt(after, b, i).assessment != LineAt(after, c, j).assessment {
      assert Holds(bills, b, i) && Holds(bills, c, j);
    }
  }

  /** Changing one line together with its assessment. */
  lemma ChangedLineAgrees(bills: seq<Bill>, table: seq<Assessment>, after: seq<Bill>, after': seq<Assessment>, b: nat, k: nat)
    requires Agreed(bills, table) && Holds(bills, b, k) && |after| == |bills| && |after'| >= |table|
    requires forall c | 0 <= c < |bills| && c != b :: after[c].lines == bills[c].lines
    requires Holds(after, b, k) && after[b].lines == bills[b].lines[k := after[b].lines[k]]
    requires after[b].lines[k].assessment == bills[b].lines[k].assessment
    requires forall a | 0 <= a < |table| && a != bills[b].lines[k].assessment :: after'[a] == table[a]
    requires OwnCharge(after', after[b].lines[k])
    ensures Agreed(after, after')
  {
    forall c, i | Holds(after, c, i) ensures OwnCharge(after', LineAt(after, c, i)) {
      assert Holds(bills, c, i) && OwnCharge(table, LineAt(bills, c, i));
      if c != b || i != k {
        assert LineAt(bills, c, i).assessment != LineAt(bills, b, k).assessment;
      }
    }
    forall c, i, d, j | Holds(after, c, i) && Holds(after, d, j) && (c != d || i != j)
      ensures LineAt(after, c, i).assessment != LineAt(after, d, j).assessment {
      assert Holds(bills, c, i) && Holds(bills, d, j);
      assert LineAt(bills, c, i).assessment != LineAt(bills, d, j).assessment;
    }
  }

  lemma AddToLineAgrees(db: Db, b: nat, l: Line, added: Assessment, today: int)
    requires Inv(db) && Agreed(db.bills, db.assessments) && b < |db.bills| && l in db.bills[b].lines && l.assessment < |db.assessments|
    ensures Agreed(AddToLine(db, b, l, added, today).bills, AddToLine(db, b, l, added, today).assessments)
  {
    hide Sum, DeriveStatus, Agreed;
    assert BillOk(db.bills[b]);
    var k :| 0 <= k < |db.bills[b].lines| && db.bills[b].lines[k] == l;
    var after := AddToLine(db, b, l, added, today);
    LineLaws.ReplaceIsUpdate(db.bills[b].lines, k, Merged(l, Absorb(db.assessments[l.assessment], added)));
    AgreedHere(db, b, k);
    ChangedLineAgrees(db.bills, db.assessments, after.bills, after.assessments, b, k);
  }

  lemma AgreedHere(db: Db, b: nat, k: nat)
    requires Agreed(db.bills, db.assessments) && b < |db.bills| && k < |db.bills[b].lines|
    ensures OwnCharge(db.assessments, db.bills[b].lines[k])
  {
    assert Holds(db.bills, b, k) && LineAt(db.bills, b, k) == db.bills[b].lines[k];
  }

  /** A line more, on an assessment no line is on yet. */
  lemma NewLineAgrees(bills: seq<Bill>, table: seq<Assessment>, after: seq<Bill>, after': seq<Assessment>, b: nat, l: Line)
    requires Agreed(bills, table) && b < |bills| == |after| && table <= after'
    requires forall c | 0 <= c < |bills| && c != b :: after[c].lines == bills[c].lines
    requires after[b].lines == bills[b].lines + [l] && l.assessment >= |table| && OwnCharge(after', l)
    ensures Agreed(after, after')
  {
    forall c, i | Holds(after, c, i) ensures OwnCharge(after', LineAt(after, c, i)) {
      if Holds(bills, c, i) {
        assert OwnCharge(table, LineAt(bills, c, i)) && LineAt(after, c, i) == LineAt(bills, c, i);
      }
    }
    forall c, i, d, j | Holds(after, c, i) && Holds(after, d, j) && (c != d || i != j)
      ensures LineAt(after, c, i).assessment != LineAt(after, d, j).assessment {
      if Holds(bills, c, i) { assert OwnCharge(table, LineAt(bills, c, i)) && LineAt(after, c, i) == LineAt(bills, c, i); }
      if Holds(bills, d, j) { assert OwnCharge(table, LineAt(bills, d, j)) && LineAt(after, d, j) == LineAt(bills, d, j); }
    }
  }

  /** A line less, its assessment with it. */
  lemma DroppedLineAgrees(bills: seq<Bill>, table: seq<Assessment>, after: seq<Bill>, after': seq<Assessment>, b: nat, k: nat)
    requires Agreed(bills, table) && Holds(bills, b, k) && |after| == |bills| && |after'| == |table|
    requires forall c | 0 <= c < |bills| && c != b :: after[c].lines == bills[c].lines
    requires after[b].lines == bills[b].lines[..k] + bills[b].lines[k + 1..]
    requires forall a | 0 <= a < |table| && a != bills[b].lines[k].assessment :: after'[a] == table[a]
    ensures Agreed(after, after')
  {
    forall c, i | Holds(after, c, i) ensures OwnCharge(after', LineAt(after, c, i)) {
      var i' := Shifted(b, k, c, i);
      assert Holds(bills, c, i') && LineAt(after, c, i) == LineAt(bills, c, i');
      assert OwnCharge(table, LineAt(bills, c, i'));
      assert LineAt(bills, c, i').assessment != LineAt(bills, b, k).assessment;
    }
    forall c, i, d, j | Holds(after, c, i) && Holds(after, d, j) && (c != d || i != j)
      ensures LineAt(after, c, i).assessment != LineAt(after, d, j).assessment {
      var i', j' := Shifted(b, k, c, i), Shifted(b, k, d, j);
      assert Holds(bills, c, i') && LineAt(after, c, i) == LineAt(bills, c, i');
      assert Holds(bills, d, j') && LineAt(after, d, j) == LineAt(bills, d, j');
    }
  }

  /** Where line `i` of bill `c` was before line `k` of bill `b` went. */
  function Shifted(b: nat, k: nat, c: nat, i: nat): nat {
    if c == b && i >= k then i + 1 else i
  }

  lemma LineEditsAgree(db: Db, m: Move)
    requires Inv(db) && Agreed(db.bills, db.assessments) && Callable(db, m.step)
    requires m.step.AddBillLine? || m.step.UpdateBillLine? || m.step.DeleteBillLine?
    ensures Agreed(Apply(db, m).bills, Apply(db, m).assessments)
  {
    hide Agreed, Sum, DeriveStatus, Price, MergeTarget;
    var after := Apply(db, m);
    match m.step
    case AddBillLine(b, o) =>
      if Price(o).Ok? {
        MergeTargetIsOnBill(db, b, o);
        LineLaws.MergeTargetCites(db, b, o);
        var added := NewAssessment(db.bills[b].payer, o, Price(o).value);
        match MergeTarget(db, b, o)
        case Some(l) => AddToLineAgrees(db, b, l, added, m.clock.day);
        case None =>
          var l := after.bills[b].lines[|db.bills[b].lines|];
          NewLineAgrees(db.bills, db.assessments, after.bills, after.assessments, b, l);
      }
    case UpdateBillLine(b, k, amount) =>
      AgreedHere(db, b, k);
      if UpdateLine(db, b, k, amount, m.clock.day).Ok? {
        ChangedLineAgrees(db.bills, db.assessments, after.bills, after.assessments, b, k);
      }
    case DeleteBillLine(b, k) =>
      if DeleteLine(db, b, k, m.clock.day).Ok? {
        DroppedLineAgrees(db.bills, db.assessments, after.bills, after.assessments, b, k);
      }
  }

  /** A plain issue bills assessments that are on no line yet, each on one line. */
  lemma IssueAgrees(db: Db, r: IssueRequest, clock: Clock)
    requires Inv(db) && Agreed(db.bills, db.assessments) && QueriedOn(r, db) && !r.rollArrears
    requires InTable(r.drafts, |db.assessments|) && InTable(r.openBills, |db.bills|) && Prepare(db, r, clock).Ok?
    ensures var after := IssueMerged(db, r, Prepare(db, r, clock).value, clock);
            Agreed(after.bills, after.assessments)
  {
    hide Agreed, MergeAll, PriceAll, IssueMerged;
    var priced := PriceAll(r.payer, r.orders).value;
    var refs, table := Refs(db, r, |priced|), db.assessments + priced;
    IssueLaws.RefsAreUnbilled(db, r, |priced|);
    MergedIssueAgrees(db, r, refs, table, clock);
  }

  lemma MergedIssueAgrees(db: Db, r: IssueRequest, refs: seq<nat>, table: seq<Assessment>, clock: Clock)
    requires Agreed(db.bills, db.assessments) && !r.rollArrears && InTable(r.openBills, |db.bills|)
    requires db.assessments <= table && InTable(refs, |table|) && NoRepeats(refs)
    requires forall id | id in refs :: id >= |db.assessments| || db.assessments[id].status == AssessmentStatus.Draft
    ensures var after := IssueMerged(db, r, MergeAll(refs, table), clock);
            Agreed(after.bills, after.assessments)
  {
    hide MergeAll, Sum, DeriveStatus, IssueMerged;
    var m := MergeAll(refs, table);
    var after := IssueMerged(db, r, m, clock);
    IssueLaws.MergeIsSound(refs, table);
    IssuedLines(db, r, m, clock);
    forall b, i | Holds(db.bills, b, i)
      ensures OwnCharge(after.assessments, LineAt(db.bills, b, i)) && LineAt(db.bills, b, i).assessment !in m.kept {
      assert OwnCharge(db.assessments, LineAt(db.bills, b, i));
      IssueLaws.IssueSettlesAssessments(db, r, refs, table, clock, LineAt(db.bills, b, i).assessment);
    }
    forall i, j | 0 <= i < |m.kept| && 0 <= j < |m.kept| && i != j ensures m.kept[i] != m.kept[j] {
      KeptOnce(m, refs, table, i, j);
    }
    IssuedAgrees(db.bills, db.assessments, after.bills, after.assessments, m.kept);
  }

  lemma IssuedLines(db: Db, r: IssueRequest, m: Merge, clock: Clock)
    requires !r.rollArrears && InTable(r.openBills, |db.bills|) && InTable(m.kept, |m.table|)
    ensures var after := IssueMerged(db, r, m, clock);
            && |after.bills| == |db.bills| + 1 && after.bills[..|db.bills|] == db.bills
            && |after.assessments| == |m.table|
            && |after.bills[|db.bills|].lines| == |m.kept|
            && forall i | 0 <= i < |m.kept| ::
                 after.bills[|db.bills|].lines[i].assessment == m.kept[i] && OwnCharge(after.assessments, after.bills[|db.bills|].lines[i])
  {
    hide Sum, DeriveStatus;
    assert forall i | 0 <= i < |m.kept| :: m.kept[i] in m.kept;
  }

  /** One bill more, its lines on distinct assessments that no earlier line is on. */
  lemma IssuedAgrees(bills: seq<Bill>, table: seq<Assessment>, after: seq<Bill>, after': seq<Assessment>, kept: seq<nat>)
    requires Agreed(bills, table) && |after| == |bills| + 1 && after[..|bills|] == bills
    requires |after[|bills|].lines| == |kept|
    requires forall i | 0 <= i < |kept| ::
               after[|bills|].lines[i].assessment == kept[i] && OwnCharge(after', after[|bills|].lines[i])
    requires forall i, j | 0 <= i < |kept| && 0 <= j < |kept| && i != j :: kept[i] != kept[j]
    requires forall b, i | Holds(bills, b, i) :: OwnCharge(after', LineAt(bills, b, i)) && LineAt(bills, b, i).assessment !in kept
    ensures Agreed(after, after')
  {
    hide OwnCharge;
    var n := |bills|;
    forall b: nat, i: nat | Holds(after, b, i)
      ensures OwnCharge(after', LineAt(after, b, i))
      ensures b < n ==> Holds(bills, b, i) && LineAt(after, b, i) == LineAt(bills, b, i)
      ensures b == n ==> LineAt(after, b, i).assessment == kept[i] {
      if b < n {
        assert after[..n][b] == bills[b];
        assert Holds(bills, b, i);
      } else {
        assert b == n && LineAt(after, b, i) == after[n].lines[i];
      }
    }
    forall b: nat, i: nat, c: nat, j: nat | Holds(after, b, i) && Holds(after, c, j) && (b != c || i != j)
      ensures LineAt(after, b, i).assessment != LineAt(after, c, j).assessment {
      if b < n && c < n {
        assert LineAt(bills, b, i).assessment != LineAt(bills, c, j).assessment;
      } else if b < n {
        assert kept[j] in kept;
      } else if c < n {
        assert kept[i] in kept;
      }
    }
  }

  lemma KeptOnce(m: Merge, refs: seq<nat>, table: seq<Assessment>, i: nat, j: nat)
    requires InTable(m.kept, |table|) && InTable(refs, |table|) && IssueLaws.KeysCovered(m, refs, table)
    requires i < |m.kept| && j < |m.kept| && i != j
    ensures m.kept[i] != m.kept[j]
  {
    if i < j { assert KeyOf(table[m.kept[i]]) != KeyOf(table[m.kept[j]]); } else { assert KeyOf(table[m.kept[j]]) != KeyOf(table[m.kept[i]]); }
  }

  lemma OtherStepsLeaveLines(db: Db, m: Move)
    requires m.step.DraftAssessment? || m.step.PostPayment? || m.step.ReversePayment? || m.step.RefreshDebt? || m.step.EscalateDebt?
    ensures var after := Apply(db, m);
            && |after.bills| == |db.bills| && db.assessments <= after.assessments
            && forall b | 0 <= b < |db.bills| :: after.bills[b].lines == db.bills[b].lines
  {
    hide Sum, Price, DeriveStatus, AppliedOf, Fifo.AllRows;
  }

  lemma PlainStepAgrees(db: Db, m: Move)
    requires Inv(db) && Agreed(db.bills, db.assessments) && Plain(m.step)
    ensures Agreed(Apply(db, m).bills, Apply(db, m).assessments)
  {
    hide Agreed, Inv, Prepare, IssueMerged;
    if Callable(db, m.step) {
      match m.step
      case IssueBill(r) =>
        QueriedInTable(r, db);
        if Prepare(db, r, m.clock).Ok? { IssueAgrees(db, r, m.clock); }
      case AddBillLine(_, _) => LineEditsAgree(db, m);
      case UpdateBillLine(_, _, _) => LineEditsAgree(db, m);
      case DeleteBillLine(_, _) => LineEditsAgree(db, m);
      case _ =>
        OtherStepsLeaveLines(db, m);
        SameLinesAgree(db.bills, db.assessments, Apply(db, m).bills, Apply(db, m).assessments);
    }
  }

  lemma {:induction false} PlainRunsAgree(payers: nat, moves: seq<Move>)
    requires forall i | 0 <= i < |moves| :: Plain(moves[i].step)
    ensures Agreed(Run(Empty(payers), moves).bills, Run(Empty(payers), moves).assessments)
  {
    if moves != [] {
      hide Apply;
      var n := |moves| - 1;
      PlainRunsAgree(payers, moves[..n]);
      EveryRunKeepsInv(payers, moves[..n]);
      PlainStepAgrees(Run(Empty(payers), moves[..n]), moves[n]);
    }
  }

  function ChargeOf(table: seq<Assessment>): Line -> int {
    (l: Line) => if l.assessment < |table| then table[l.assessment].amount else 0
  }

  /** On any run without a consolidation every bill's total is what its own assessments charge, and adding a charge raises
      it by exactly its price, merged or appended. */
  lemma TotalsAreTheAssessments(payers: nat, moves: seq<Move>, b: nat)
    requires forall i | 0 <= i < |moves| :: Plain(moves[i].step)
    requires b < |Run(Empty(payers), moves).bills|
    ensures var db := Run(Empty(payers), moves);
            && db.bills[b].total == db.bills[b].arrears + Sum(db.bills[b].lines, ChargeOf(db.assessments))
            && forall o: Order, today: int | AddLine(db, b, o, today).Ok? ::
                 AddLine(db, b, o, today).value.bills[b].total == db.bills[b].total + Price(o).value.amount
  {
    hide MergeTarget, Agreed;
    PlainRunsAgree(payers, moves);
    EveryRunKeepsInv(payers, moves);
    var db := Run(Empty(payers), moves);
    TotalIsCharges(db, b);
    forall o: Order, today: int | AddLine(db, b, o, today).Ok?
      ensures AddLine(db, b, o, today).value.bills[b].total == db.bills[b].total + Price(o).value.amount {
      TargetAgrees(db, b, o);
      LineLaws.AddRaisesTotalByPriceIff(db, b, o, today);
    }
  }

  lemma TotalIsCharges(db: Db, b: nat)
    requires Inv(db) && Agreed(db.bills, db.assessments) && b < |db.bills|
    ensures db.bills[b].total == db.bills[b].arrears + Sum(db.bills[b].lines, ChargeOf(db.assessments))
  {
    var lines := db.bills[b].lines;
    assert BillOk(db.bills[b]);
    forall i | 0 <= i < |lines| ensures AmountOf(lines[i]) == ArrearsOf(lines[i]) + ChargeOf(db.assessments)(lines[i]) {
      AgreedHere(db, b, i);
    }
    SumAdd(lines, ArrearsOf, ChargeOf(db.assessments), AmountOf);
  }

  lemma TargetAgrees(db: Db, b: nat, o: Order)
    requires Inv(db) && Agreed(db.bills, db.assessments) && b < |db.bills|
    ensures MergeTarget(db, b, o).Some? ==>
              var l := MergeTarget(db, b, o).value;
              l.assessment < |db.assessments| && l.current == db.assessments[l.assessment].amount
  {
    hide MergeTarget, Agreed;
    MergeTargetIsOnBill(db, b, o);
    if MergeTarget(db, b, o).Some? {
      var k :| 0 <= k < |db.bills[b].lines| && db.bills[b].lines[k] == MergeTarget(db, b, o).value;
      AgreedHere(db, b, k);
    }
  }
}
