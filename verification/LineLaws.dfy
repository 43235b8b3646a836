/** What editing a bill's lines does to its total and its lines' identity. */
module LineLaws {
  import opened Prelude
  import opened Sums
  import opened Tables
  import opened Revenue
  import opened Billing
  import opened Ledger

  lemma ReplaceIsUpdate(lines: seq<Line>, j: nat, l: Line)
    requires Ordered(lines) && j < |lines| && l.id == lines[j].id
    ensures ReplaceLine(lines, l) == lines[j := l]
  {
    forall i | 0 <= i < |lines| && i != j ensures lines[i].id != l.id {
      if i < j { assert lines[i].id < lines[j].id; } else { assert lines[j].id < lines[i].id; }
    }
  }

  /** By how much the charge folded into a line exceeds the price: what the line's assessment already differed by. */
  function Drift(db: Db, l: Option<Line>): int {
    if l.Some? && l.value.assessment < |db.assessments| then db.assessments[l.value.assessment].amount - l.value.current else 0
  }

  lemma AddToLineRaisesTotal(db: Db, b: nat, l: Line, added: Assessment, today: int)
    requires Inv(db) && b < |db.bills| && l in db.bills[b].lines && l.assessment < |db.assessments|
    ensures AddToLine(db, b, l, added, today).bills[b].total == db.bills[b].total + added.amount + Drift(db, Some(l))
  {
    hide MoneyOk, LinksOk;
    var lines := db.bills[b].lines;
    assert BillOk(db.bills[b]);
    var j :| 0 <= j < |lines| && lines[j] == l;
    assert LineOk(lines[j]);
    var l' := Merged(l, Absorb(db.assessments[l.assessment], added));
    ReplaceIsUpdate(lines, j, l');
    SumUpdate(lines, j, l', AmountOf);
  }

  lemma AppendRaisesTotal(db: Db, b: nat, added: Assessment, today: int)
    requires Inv(db) && b < |db.bills|
    ensures AppendLine(db, b, added, today).bills[b].total == db.bills[b].total + added.amount
  {
    hide MoneyOk, LinksOk;
    assert BillOk(db.bills[b]);
    SumPush(db.bills[b].lines, AppendLine(db, b, added, today).bills[b].lines[|db.bills[b].lines|], AmountOf);
  }

  /** Adding a charge raises the bill's total by exactly its price if and only if it gets a line of its own or the line
      it folds into still shows its assessment's amount as its current charge. */
  lemma AddRaisesTotalByPriceIff(db: Db, b: nat, o: Order, today: int)
    requires Inv(db) && b < |db.bills| && AddLine(db, b, o, today).Ok?
    ensures AddLine(db, b, o, today).value.bills[b].total == db.bills[b].total + Price(o).value.amount
            <==> MergeTarget(db, b, o).None?
                 || MergeTarget(db, b, o).value.current == db.assessments[MergeTarget(db, b, o).value.assessment].amount
  {
    hide RowsOk, MoneyOk, Recompute, MergeTarget;
    MergeTargetIsOnBill(db, b, o);
    var added := NewAssessment(db.bills[b].payer, o, Price(o).value);
    match MergeTarget(db, b, o)
    case Some(l) => MergeTargetCites(db, b, o); AddToLineRaisesTotal(db, b, l, added, today);
    case None => AppendRaisesTotal(db, b, added, today);
  }

  lemma MergeTargetCites(db: Db, b: nat, o: Order)
    requires b < |db.bills|
    ensures MergeTarget(db, b, o).Some? ==> MergeTarget(db, b, o).value.assessment < |db.assessments|
  {
  }

  // ---- no two lines for the same charge ----

  function KeyOfLine(table: seq<Assessment>, l: Line): Option<Key> {
    if l.assessment < |table| then Some(KeyOf(table[l.assessment])) else None
  }

  /** No two lines of the bill price the same item, band and tier. */
  ghost predicate KeysDistinct(table: seq<Assessment>, lines: seq<Line>) {
    forall i, j | 0 <= i < j < |lines| :: KeyOfLine(table, lines[i]) != KeyOfLine(table, lines[j])
  }

  ghost predicate ShowsKey(table: seq<Assessment>, lines: seq<Line>, key: Key) {
    exists i :: 0 <= i < |lines| && KeyOfLine(table, lines[i]) == Some(key)
  }

  function PricedKey(o: Order): Key
    requires Price(o).Ok?
  {
    Key(o.item.id, Price(o).value.band, Price(o).value.tier)
  }

  function AskedKey(o: Order): Key {
    Key(o.item.id, CallerBand(o), CallerTier(o))
  }

  lemma TargetIffKeyShown(db: Db, b: nat, o: Order)
    requires Inv(db) && b < |db.bills|
    ensures MergeTarget(db, b, o).Some? <==> ShowsKey(db.assessments, db.bills[b].lines, AskedKey(o))
  {
    hide MoneyOk;
    var lines := db.bills[b].lines;
    assert BillOk(db.bills[b]) && BillLinked(db, b);
    WalkIsCreationOrder(lines);
    if MergeTarget(db, b, o).Some? {
      var i :| 0 <= i < |lines| && lines[i] == MergeTarget(db, b, o).value;
      assert KeyOfLine(db.assessments, lines[i]) == Some(AskedKey(o));
    } else {
      forall i | 0 <= i < |lines| ensures KeyOfLine(db.assessments, lines[i]) != Some(AskedKey(o)) {
        assert lines[i] in lines;
      }
    }
  }

  lemma AppendKeepsKeysDistinctIff(db: Db, b: nat, added: Assessment, today: int)
    requires Inv(db) && b < |db.bills| && KeysDistinct(db.assessments, db.bills[b].lines)
    ensures KeysDistinct(AppendLine(db, b, added, today).assessments, AppendLine(db, b, added, today).bills[b].lines)
            <==> !ShowsKey(db.assessments, db.bills[b].lines, KeyOf(added))
  {
    hide MoneyOk, Recompute;
    var after := AppendLine(db, b, added, today);
    var lines, lines' := db.bills[b].lines, AppendedLines(db, b, added);
    AppendedAre(db, b, added, today);
    assert BillLinked(db, b);
    var n := |lines|;
    forall i | 0 <= i < n ensures KeyOfLine(after.assessments, lines'[i]) == KeyOfLine(db.assessments, lines[i]) {
      assert LineLinked(db, b, lines[i]);
    }
    assert KeyOfLine(after.assessments, lines'[n]) == Some(KeyOf(added));
    if ShowsKey(db.assessments, lines, KeyOf(added)) {
      var i :| 0 <= i < n && KeyOfLine(db.assessments, lines[i]) == Some(KeyOf(added));
      assert KeyOfLine(after.assessments, lines'[i]) == KeyOfLine(after.assessments, lines'[n]);
    }
  }

  function AppendedLines(db: Db, b: nat, added: Assessment): seq<Line>
    requires b < |db.bills|
  {
    db.bills[b].lines + [Line(|db.lineBill|, |db.assessments|, added.amount, added.amount, 0, NextPosition(db.bills[b].lines))]
  }

  lemma AppendedAre(db: Db, b: nat, added: Assessment, today: int)
    requires b < |db.bills|
    ensures AppendLine(db, b, added, today).bills[b].lines == AppendedLines(db, b, added)
    ensures AppendLine(db, b, added, today).assessments == db.assessments + [added.(status := AssessmentStatus.Billed)]
  {
  }

  /** `add_bill_line` looks for a line by the band and tier its caller passed, but files the charge under those it was
      priced by. A bill with no duplicate line stays so exactly when a line was found to fold into or none shows the
      priced key; in particular whenever the caller names just the band and tier the price uses. */
  lemma AddLeavesNoDuplicateIff(db: Db, b: nat, o: Order, today: int)
    requires Inv(db) && b < |db.bills| && AddLine(db, b, o, today).Ok? && KeysDistinct(db.assessments, db.bills[b].lines)
    ensures var after := AddLine(db, b, o, today).value;
            KeysDistinct(after.assessments, after.bills[b].lines)
            <==> ShowsKey(db.assessments, db.bills[b].lines, AskedKey(o)) || !ShowsKey(db.assessments, db.bills[b].lines, PricedKey(o))
    ensures AskedKey(o) == PricedKey(o) ==>
              KeysDistinct(AddLine(db, b, o, today).value.assessments, AddLine(db, b, o, today).value.bills[b].lines)
  {
    hide RowsOk, MoneyOk, Recompute, MergeTarget, KeysDistinct, ShowsKey;
    TargetIffKeyShown(db, b, o);
    MergeTargetIsOnBill(db, b, o);
    MergeTargetCites(db, b, o);
    var added := NewAssessment(db.bills[b].payer, o, Price(o).value);
    match MergeTarget(db, b, o)
    case Some(l) => AddToLineKeepsKeys(db, b, l, added, today);
    case None => AppendKeepsKeysDistinctIff(db, b, added, today);
  }

  lemma AddToLineKeepsKeys(db: Db, b: nat, l: Line, added: Assessment, today: int)
    requires Inv(db) && b < |db.bills| && l in db.bills[b].lines && l.assessment < |db.assessments|
    requires KeysDistinct(db.assessments, db.bills[b].lines)
    ensures KeysDistinct(AddToLine(db, b, l, added, today).assessments, AddToLine(db, b, l, added, today).bills[b].lines)
  {
    hide MoneyOk;
    var lines := db.bills[b].lines;
    assert BillOk(db.bills[b]) && BillLinked(db, b);
    var j :| 0 <= j < |lines| && lines[j] == l;
    ReplaceIsUpdate(lines, j, Merged(l, Absorb(db.assessments[l.assessment], added)));
    var after := AddToLine(db, b, l, added, today);
    forall i | 0 <= i < |lines| ensures KeyOfLine(after.assessments, after.bills[b].lines[i]) == KeyOfLine(db.assessments, lines[i]) {
      assert LineLinked(db, b, lines[i]);
    }
  }

  // ---- adding in parts ----

  /** Two charges of the same kind, merged, are one charge of the combined quantity. */
  lemma MergedChargesAreOneCharge(payer: nat, o: Order, q1: int, q2: int)
    requires Price(o.(quantity := q1)).Ok? && Price(o.(quantity := q2)).Ok?
    ensures Price(o.(quantity := q1 + q2)).Ok?
    ensures var o1, o2, both := o.(quantity := q1), o.(quantity := q2), o.(quantity := q1 + q2);
            Absorb(NewAssessment(payer, o1, Price(o1).value), NewAssessment(payer, o2, Price(o2).value))
            == NewAssessment(payer, both, Price(both).value)
  {
    if BandsActive(o.item) {
      var b := o.band.value;
      match b.mode
      case Flat => Distributes(b.flat.value, q1, q2);
      case Range => Distributes(o.override.value, q1, q2);
      case Tiered => Distributes(o.tier.value.amount, q1, q2);
    } else {
      Distributes(o.item.schedule[OpenRow(o.item.schedule).value].amount, q1, q2);
    }
  }

  lemma Distributes(unit: int, q1: int, q2: int)
    ensures unit * (q1 + q2) == unit * q1 + unit * q2
  {
  }

  lemma {:induction false} MatchingIsFirst(table: seq<Assessment>, lines: seq<Line>, key: Key, j: nat)
    requires j < |lines| && Carries(table, lines[j], key) && forall i | 0 <= i < j :: !Carries(table, lines[i], key)
    ensures MatchingLine(table, lines, key) == Some(lines[j])
  {
    var n := |lines| - 1;
    if j < n {
      MatchingIsFirst(table, lines[..n], key, j);
    }
  }

  lemma {:induction false} FirstMatching(table: seq<Assessment>, lines: seq<Line>, key: Key) returns (j: nat)
    requires MatchingLine(table, lines, key).Some?
    ensures j < |lines| && lines[j] == MatchingLine(table, lines, key).value && Carries(table, lines[j], key)
    ensures forall i | 0 <= i < j :: !Carries(table, lines[i], key)
  {
    var n := |lines| - 1;
    if MatchingLine(table, lines[..n], key).Some? {
      j := FirstMatching(table, lines[..n], key);
    } else {
      j := n;
      forall i | 0 <= i < n ensures !Carries(table, lines[i], key) { assert lines[i] in lines[..n]; }
    }
  }

  /** Only the last recompute of a day counts. */
  lemma RecomputeTwice(bills: seq<Bill>, b: nat, first: seq<Line>, last: seq<Line>, today: int)
    requires b < |bills|
    ensures var once := bills[b := Recompute(bills[b].(lines := first), today)];
            once[b := Recompute(once[b].(lines := last), today)] == bills[b := Recompute(bills[b].(lines := last), today)]
  {
  }

  lemma AddInPartsOnALine(db: Db, b: nat, key: Key, a1: Assessment, a2: Assessment, today: int)
    requires Inv(db) && b < |db.bills| && MatchingLine(db.assessments, db.bills[b].lines, key).Some?
    ensures var l := MatchingLine(db.assessments, db.bills[b].lines, key).value;
            && l.assessment < |db.assessments|
            && var d1 := AddToLine(db, b, l, a1, today);
               && MatchingLine(d1.assessments, d1.bills[b].lines, key).Some?
               && var l' := MatchingLine(d1.assessments, d1.bills[b].lines, key).value;
                  && l'.assessment < |d1.assessments|
                  && AddToLine(d1, b, l', a2, today).bills == AddToLine(db, b, l, Absorb(a1, a2), today).bills
  {
    hide MatchingLine, Sum, DeriveStatus;
    assert BillOk(db.bills[b]) && BillLinked(db, b);
    var lines := db.bills[b].lines;
    var j := FirstMatching(db.assessments, lines, key);
    var l := lines[j];
    var grown := Absorb(db.assessments[l.assessment], a1);
    var d1 := AddToLine(db, b, l, a1, today);
    ReplaceIsUpdate(lines, j, Merged(l, grown));
    forall i | 0 <= i < |lines| ensures Carries(d1.assessments, d1.bills[b].lines[i], key) == Carries(db.assessments, lines[i], key) {
      assert LineLinked(db, b, lines[i]);
    }
    MatchingIsFirst(d1.assessments, d1.bills[b].lines, key, j);
    var l' := d1.bills[b].lines[j];
    var grown' := Absorb(grown, a2);
    AddToLineKeepsOrder(db, b, l, a1, today);
    ReplaceIsUpdate(d1.bills[b].lines, j, Merged(l', grown'));
    ReplaceIsUpdate(lines, j, Merged(l, grown'));
    RecomputeTwice(db.bills, b, lines[j := l'], lines[j := Merged(l, grown')], today);
    assert lines[j := l'][j := Merged(l', grown')] == lines[j := Merged(l, grown')];
  }

  lemma AddToLineKeepsOrder(db: Db, b: nat, l: Line, added: Assessment, today: int)
    requires Inv(db) && b < |db.bills| && l in db.bills[b].lines && l.assessment < |db.assessments|
    ensures Ordered(AddToLine(db, b, l, added, today).bills[b].lines)
  {
    hide Sum, DeriveStatus;
    assert BillOk(db.bills[b]);
    var j :| 0 <= j < |db.bills[b].lines| && db.bills[b].lines[j] == l;
    ReplaceIsUpdate(db.bills[b].lines, j, Merged(l, Absorb(db.assessments[l.assessment], added)));
  }

  lemma AddInPartsOnANewLine(db: Db, b: nat, a1: Assessment, a2: Assessment, today: int)
    requires Inv(db) && b < |db.bills| && MatchingLine(db.assessments, db.bills[b].lines, KeyOf(a1)).None?
    ensures var d1 := AppendLine(db, b, a1, today);
            && MatchingLine(d1.assessments, d1.bills[b].lines, KeyOf(a1)).Some?
            && var l := MatchingLine(d1.assessments, d1.bills[b].lines, KeyOf(a1)).value;
               && l.assessment < |d1.assessments|
               && AddToLine(d1, b, l, a2, today).bills == AppendLine(db, b, Absorb(a1, a2), today).bills
  {
    hide MatchingLine, Sum, DeriveStatus, NextPosition;
    var lines, n := db.bills[b].lines, |db.bills[b].lines|;
    assert BillOk(db.bills[b]) && BillLinked(db, b);
    var d1 := AppendLine(db, b, a1, today);
    forall i | 0 <= i < n ensures !Carries(d1.assessments, d1.bills[b].lines[i], KeyOf(a1)) {
      assert LineLinked(db, b, lines[i]) && lines[i] in lines;
    }
    MatchingIsFirst(d1.assessments, d1.bills[b].lines, KeyOf(a1), n);
    var l := d1.bills[b].lines[n];
    var l' := Merged(l, Absorb(a1, a2));
    AppendKeepsOrder(db, b, a1, today);
    ReplaceIsUpdate(d1.bills[b].lines, n, l');
    RecomputeTwice(db.bills, b, lines + [l], lines + [l'], today);
    assert (lines + [l])[n := l'] == lines + [l'];
  }

  /** Adding a charge to a bill in two parts leaves the bill as adding it all at once does, so long as the caller names the
      band and tier the price uses. */
  lemma AddingInPartsIsAddingAtOnce(db: Db, b: nat, o: Order, q1: int, q2: int, today: int)
    requires Inv(db) && b < |db.bills|
    requires Price(o.(quantity := q1)).Ok? && Price(o.(quantity := q2)).Ok? && AskedKey(o) == PricedKey(o.(quantity := q1))
    ensures AddLine(db, b, o.(quantity := q1), today).Ok? && AddLine(db, b, o.(quantity := q1 + q2), today).Ok?
    ensures var d1 := AddLine(db, b, o.(quantity := q1), today).value;
            && |d1.bills| == |db.bills|
            && AddLine(d1, b, o.(quantity := q2), today).Ok?
            && AddLine(d1, b, o.(quantity := q2), today).value.bills == AddLine(db, b, o.(quantity := q1 + q2), today).value.bills
  {
    hide MatchingLine, Sum, DeriveStatus, AddToLine, AppendLine, Price;
    var payer := db.bills[b].payer;
    var o1, o2, both := o.(quantity := q1), o.(quantity := q2), o.(quantity := q1 + q2);
    MergedChargesAreOneCharge(payer, o, q1, q2);
    var a1, a2 := NewAssessment(payer, o1, Price(o1).value), NewAssessment(payer, o2, Price(o2).value);
    PricesWithinBounds(o1);
    var key := AskedKey(o);
    assert KeyOf(a1) == key;
    assert BillOk(db.bills[b]);
    WalkIsCreationOrder(db.bills[b].lines);
    if MatchingLine(db.assessments, db.bills[b].lines, key).Some? {
      AddInPartsOnALine(db, b, key, a1, a2, today);
      var l := MatchingLine(db.assessments, db.bills[b].lines, key).value;
      AddToLineKeepsOrder(db, b, l, a1, today);
      AddKeepsPayer(db, b, o1, today);
      WalkIsCreationOrder(AddToLine(db, b, l, a1, today).bills[b].lines);
    } else {
      AddInPartsOnANewLine(db, b, a1, a2, today);
      AddKeepsPayer(db, b, o1, today);
      AppendKeepsOrder(db, b, a1, today);
      WalkIsCreationOrder(AppendLine(db, b, a1, today).bills[b].lines);
    }
  }

  lemma AppendKeepsOrder(db: Db, b: nat, added: Assessment, today: int)
    requires Inv(db) && b < |db.bills|
    ensures Ordered(AppendLine(db, b, added, today).bills[b].lines)
  {
    hide Sum, DeriveStatus, NextPosition;
    var lines := db.bills[b].lines;
    assert BillOk(db.bills[b]) && BillLinked(db, b);
    NextPositionIsLast(lines);
    forall i | 0 <= i < |lines| ensures lines[i].id < |db.lineBill| { assert LineLinked(db, b, lines[i]); }
  }

  lemma AddKeepsPayer(db: Db, b: nat, o: Order, today: int)
    requires b < |db.bills| && AddLine(db, b, o, today).Ok?
    ensures var after := AddLine(db, b, o, today).value;
            |after.bills| == |db.bills| && after.bills[b].payer == db.bills[b].payer
  {
    hide Price, MergeTarget, Sum, DeriveStatus, NextPosition;
    MergeTargetCites(db, b, o);
  }

  // ---- replacing and deleting ----

  /** An edit is refused exactly when it would empty the line or cut into its arrears; otherwise the bill's total moves by
      the difference, its arrears and everyone's payments stay, and the line ends up paid past its amount exactly when
      more was paid on it than its new amount. */
  lemma UpdateMovesTotalByDifference(db: Db, b: nat, j: nat, amount: int, today: int)
    requires Inv(db) && Callable(db, UpdateBillLine(b, j, amount))
    ensures UpdateLine(db, b, j, amount, today).Err? <==> amount <= 0 || amount < db.bills[b].lines[j].arrears
    ensures UpdateLine(db, b, j, amount, today).Ok? ==>
              var l, after := db.bills[b].lines[j], UpdateLine(db, b, j, amount, today).value;
              && after.bills[b].total == db.bills[b].total + amount - l.amount
              && after.bills[b].arrears == db.bills[b].arrears && after.bills[b].paid == db.bills[b].paid
              && |after.bills[b].lines| == |db.bills[b].lines| && after.bills[b].lines[j].id == l.id
              && (Outstanding(after, after.bills[b].lines[j]) < 0 <==> LinePaid(db.payments, db.allocations, l.id) > amount)
  {
    if amount > 0 && amount >= db.bills[b].lines[j].arrears {
      hide LinePaid, DeriveStatus;
      var bill := db.bills[b];
      assert BillOk(bill);
      SumUpdate(bill.lines, j, Edited(bill.lines[j], amount), AmountOf);
      SumUpdate(bill.lines, j, Edited(bill.lines[j], amount), ArrearsOf);
    }
  }

  /** A deleted line takes its whole amount off the bill, arrears included, and nothing anyone paid: a line with
      allocations, even reversed ones, or a bill's last line is not deleted. */
  lemma DeleteTakesItsAmountOff(db: Db, b: nat, j: nat, today: int)
    requires Inv(db) && Callable(db, DeleteBillLine(b, j)) && DeleteLine(db, b, j, today).Ok?
    ensures var l, after := db.bills[b].lines[j], DeleteLine(db, b, j, today).value;
            && after.bills[b].total == db.bills[b].total - l.amount
            && after.bills[b].arrears == db.bills[b].arrears - l.arrears
            && after.bills[b].lines != [] && after.bills[b].paid == db.bills[b].paid
            && LinePaid(db.payments, db.allocations, l.id) == 0
            && after.assessments[l.assessment].status == AssessmentStatus.Voided
  {
    hide DeriveStatus;
    var bill, l := db.bills[b], db.bills[b].lines[j];
    assert BillOk(bill);
    SumRemove(bill.lines, j, AmountOf);
    SumRemove(bill.lines, j, ArrearsOf);
    SumZero(db.allocations, (a: Allocation) => if a.line == l.id && IsConfirmed(db.payments, a.payment) then a.amount else 0);
  }
}
