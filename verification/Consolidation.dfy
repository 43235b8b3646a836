/** Rolling arrears: what the new bill carries, item by item, and what it does to the payer's debt. */
module Consolidation {
  import opened Prelude
  import opened Sums
  import opened Tables
  import opened Billing
  import opened Ledger
  import opened PaymentLaws
  import opened IssueLaws

  /** What a line still owes, never below zero. */
  function OwedOn(db: Db): Line -> int {
    (l: Line) => Pos(Outstanding(db, l))
  }

  function OwedForItem(db: Db, item: nat): Line -> int {
    (l: Line) => if ItemOf(db.assessments, l) == item then Pos(Outstanding(db, l)) else 0
  }

  // ---- gathering ----

  /** The dictionary holds, for every item, the positive balances of that item's lines. */
  lemma {:induction false} CarryGathersEachItem(db: Db, lines: seq<Line>, item: nat)
    ensures Carried(CarryAll(db, lines), item) == Sum(lines, OwedForItem(db, item))
  {
    if lines != [] {
      CarryGathersEachItem(db, lines[..|lines| - 1], item);
    }
  }

  function CarriedBy(c: Carry): nat -> int {
    (item: nat) => Carried(c, item)
  }

  lemma CarryOneTotals(c: Carry, item: nat, assessment: nat, outstanding: int)
    requires NoRepeats(c.items) && forall i :: i in c.items <==> i in c.amounts
    ensures Sum(CarryOne(c, item, assessment, outstanding).items, CarriedBy(CarryOne(c, item, assessment, outstanding)))
            == Sum(c.items, CarriedBy(c)) + Pos(outstanding)
  {
    var r := CarryOne(c, item, assessment, outstanding);
    if outstanding > 0 {
      if item in c.amounts {
        var i :| 0 <= i < |c.items| && c.items[i] == item;
        var extra := (k: nat) => if k == item then outstanding else 0;
        SumPick(c.items, i, extra);
        SumAdd(c.items, CarriedBy(c), extra, CarriedBy(r));
      } else {
        SumPush(c.items, item, CarriedBy(r));
        assert item !in c.items;
        SumSame(c.items, CarriedBy(c), CarriedBy(r));
      }
    }
  }

  lemma {:induction false} CarryTotals(db: Db, lines: seq<Line>)
    requires forall i | 0 <= i < |lines| :: lines[i].assessment < |db.assessments|
    ensures Sum(CarryAll(db, lines).items, CarriedBy(CarryAll(db, lines))) == Sum(lines, OwedOn(db))
  {
    if lines != [] {
      var n := |lines| - 1;
      CarryTotals(db, lines[..n]);
      CarriesOk(db, lines[..n]);
      CarryOneTotals(CarryAll(db, lines[..n]), ItemOf(db.assessments, lines[n]), lines[n].assessment, Outstanding(db, lines[n]));
    }
  }

  lemma {:induction false} CarryCitesItem(db: Db, lines: seq<Line>, item: nat)
    requires forall i | 0 <= i < |lines| :: lines[i].assessment < |db.assessments|
    requires item in CarryAll(db, lines).citing
    ensures CarryAll(db, lines).citing[item] < |db.assessments|
    ensures db.assessments[CarryAll(db, lines).citing[item]].item == item
  {
    var n := |lines| - 1;
    if item in CarryAll(db, lines[..n]).citing {
      CarryCitesItem(db, lines[..n], item);
    }
  }

  // ---- placing ----

  function ArrearsForItem(table: seq<Assessment>, item: nat): Line -> int {
    (l: Line) => if ItemOf(table, l) == item then l.arrears else 0
  }

  /** At most one line of the item carries arrears. */
  ghost predicate OnOneLine(table: seq<Assessment>, lines: seq<Line>, item: nat) {
    forall i, j | 0 <= i < j < |lines| && ItemOf(table, lines[i]) == item && ItemOf(table, lines[j]) == item ::
      lines[i].arrears == 0 || lines[j].arrears == 0
  }

  ghost predicate NoArrears(table: seq<Assessment>, lines: seq<Line>, item: nat) {
    forall i | 0 <= i < |lines| && ItemOf(table, lines[i]) == item :: lines[i].arrears == 0
  }

  /** The carry cites, for each item, an assessment of that item. */
  ghost predicate Cites(table: seq<Assessment>, c: Carry) {
    forall i | 0 <= i < |c.items| ::
      c.items[i] in c.citing && c.citing[c.items[i]] < |table| && table[c.citing[c.items[i]]].item == c.items[i]
  }

  lemma PlaceOneSums(table: seq<Assessment>, charged: seq<Line>, lines: seq<Line>, c: Carry, next: nat, item: nat)
    requires |lines| >= |charged|
    ensures Sum(PlaceOne(table, charged, lines, c, next, item), ArrearsOf) == Sum(lines, ArrearsOf) + Carried(c, item)
    ensures Sum(PlaceOne(table, charged, lines, c, next, item), CurrentOf) == Sum(lines, CurrentOf)
  {
    var r := PlaceOne(table, charged, lines, c, next, item);
    match LineFor(table, charged, item)
    case Some(j) =>
      SumUpdate(lines, j, r[j], ArrearsOf);
      SumUpdate(lines, j, r[j], CurrentOf);
    case None =>
      SumPush(lines, r[|lines|], ArrearsOf);
      SumPush(lines, r[|lines|], CurrentOf);
  }

  lemma {:induction false} PlaceSums(table: seq<Assessment>, charged: seq<Line>, c: Carry, next: nat, k: nat)
    requires k <= |c.items|
    ensures Sum(Place(table, charged, c, next, k), ArrearsOf) == Sum(charged, ArrearsOf) + Sum(c.items[..k], CarriedBy(c))
    ensures Sum(Place(table, charged, c, next, k), CurrentOf) == Sum(charged, CurrentOf)
  {
    if k > 0 {
      PlaceSums(table, charged, c, next, k - 1);
      PlaceOneSums(table, charged, Place(table, charged, c, next, k - 1), c, next, c.items[k - 1]);
      assert c.items[..k] == c.items[..k - 1] + [c.items[k - 1]];
      SumPush(c.items[..k - 1], c.items[k - 1], CarriedBy(c));
    }
  }

  /** The charged lines keep their places and assessments. */
  ghost predicate StartsWith(lines: seq<Line>, charged: seq<Line>) {
    |lines| >= |charged| && forall i | 0 <= i < |charged| :: lines[i].assessment == charged[i].assessment
  }

  /** How `lines` stand for item `x` once the items `done` are placed: an item placed carries its whole arrears, on one
      line; the others carry none. */
  ghost predicate Placed(table: seq<Assessment>, charged: seq<Line>, lines: seq<Line>, c: Carry, done: seq<nat>, x: nat) {
    && StartsWith(lines, charged) && OnOneLine(table, lines, x)
    && (x !in done ==> NoArrears(table, lines, x))
    && Sum(lines, ArrearsForItem(table, x)) == if x in done then Carried(c, x) else 0
  }

  lemma PlaceOneIsPlaced(table: seq<Assessment>, charged: seq<Line>, lines: seq<Line>, c: Carry, next: nat, done: seq<nat>, item: nat, x: nat)
    requires |lines| >= |charged|
    requires item in c.citing && c.citing[item] < |table| && table[c.citing[item]].item == item && item !in done
    requires Placed(table, charged, lines, c, done, x) && Placed(table, charged, lines, c, done, item)
    ensures Placed(table, charged, PlaceOne(table, charged, lines, c, next, item), c, done + [item], x)
  {
    var r := PlaceOne(table, charged, lines, c, next, item);
    match LineFor(table, charged, item)
    case Some(j) =>
      assert ItemOf(table, lines[j]) == item;
      SumUpdate(lines, j, r[j], ArrearsForItem(table, x));
    case None =>
      SumPush(lines, r[|lines|], ArrearsForItem(table, x));
  }

  lemma {:induction false} PlacePutsEachItemOnOneLine(table: seq<Assessment>, charged: seq<Line>, c: Carry, next: nat, k: nat, x: nat)
    requires k <= |c.items| && NoRepeats(c.items) && Cites(table, c)
    requires forall i | 0 <= i < |charged| :: charged[i].arrears == 0
    ensures Placed(table, charged, Place(table, charged, c, next, k), c, c.items[..k], x)
  {
    if k == 0 {
      SumZero(charged, ArrearsForItem(table, x));
    } else {
      hide Placed, PlaceOne;
      var item := c.items[k - 1];
      PlacePutsEachItemOnOneLine(table, charged, c, next, k - 1, x);
      PlacePutsEachItemOnOneLine(table, charged, c, next, k - 1, item);
      assert c.items[..k] == c.items[..k - 1] + [item];
      assert item !in c.items[..k - 1];
      PlaceOneIsPlaced(table, charged, Place(table, charged, c, next, k - 1), c, next, c.items[..k - 1], item, x);
    }
  }

  // ---- the new bill ----

  function PriorOf(db: Db, r: IssueRequest): seq<Line>
    requires InTable(r.openBills, |db.bills|)
  {
    PriorLines(db.bills, r.openBills)
  }

  ghost predicate Rolls(db: Db, r: IssueRequest, m: Merge) {
    && Inv(db) && QueriedOn(r, db) && InTable(r.openBills, |db.bills|) && r.rollArrears
    && InTable(m.kept, |m.table|) && |m.table| >= |db.assessments|
    && forall i | 0 <= i < |db.assessments| :: m.table[i].item == db.assessments[i].item
  }

  lemma PreparedRolls(db: Db, r: IssueRequest, clock: Clock)
    requires Inv(db) && QueriedOn(r, db) && r.rollArrears
    requires InTable(r.drafts, |db.assessments|) && InTable(r.openBills, |db.bills|) && Prepare(db, r, clock).Ok?
    ensures Rolls(db, r, Prepare(db, r, clock).value)
  {
    var priced := PriceAll(r.payer, r.orders).value;
    var table := db.assessments + priced;
    MergeIsSound(Refs(db, r, |priced|), table);
    var m := Prepare(db, r, clock).value;
    forall i | 0 <= i < |db.assessments| ensures m.table[i].item == db.assessments[i].item {
      assert m.table[i].(quantity := 0, amount := 0) == table[i].(quantity := 0, amount := 0);
    }
  }

  /** Item by item the new bill carries exactly what the payer's open bills still owe on that item, counting no line
      below zero, and carries it on at most one line. */
  lemma ArrearsCarriedItemByItem(db: Db, r: IssueRequest, m: Merge, item: nat)
    requires Rolls(db, r, m)
    ensures OnOneLine(m.table, NewLines(db, r, m), item)
    ensures Sum(NewLines(db, r, m), ArrearsForItem(m.table, item)) == Sum(PriorOf(db, r), OwedForItem(db, item))
  {
    var prior := PriorOf(db, r);
    var c := CarryAll(db, prior);
    var charged := FreshLines(m.table, m.kept, |db.lineBill|);
    PriorLinesLinked(db, r.openBills);
    CarriesOk(db, prior);
    CarryGathersEachItem(db, prior, item);
    forall i | 0 <= i < |c.items|
      ensures c.items[i] in c.citing && c.citing[c.items[i]] < |m.table| && m.table[c.citing[c.items[i]]].item == c.items[i] {
      CarryCitesItem(db, prior, c.items[i]);
    }
    PlacePutsEachItemOnOneLine(m.table, charged, c, |db.lineBill|, |c.items|, item);
    assert c.items[..|c.items|] == c.items;
  }

  // ---- the new bill, line by line ----

  lemma {:induction false} LineForIsFirst(table: seq<Assessment>, lines: seq<Line>, item: nat, i: nat)
    requires i < |lines|
    ensures LineFor(table, lines, item) == Some(i) <==>
              ItemOf(table, lines[i]) == item && forall j | 0 <= j < i :: ItemOf(table, lines[j]) != item
  {
    var n := |lines| - 1;
    hide ItemOf;
    if i < n {
      LineForIsFirst(table, lines[..n], item, i);
    } else {
      forall j | 0 <= j < n ensures lines[j] in lines[..n] { assert lines[..n][j] == lines[j]; }
      if LineFor(table, lines[..n], item).Some? {
        var k := LineFor(table, lines[..n], item).value;
        assert ItemOf(table, lines[k]) == item;
      }
    }
  }

  /** The arrears of an item placed are all on its first charged line, if it has one. */
  lemma {:induction false} PlaceOnCharged(table: seq<Assessment>, charged: seq<Line>, c: Carry, next: nat, k: nat, i: nat)
    requires k <= |c.items| && NoRepeats(c.items) && i < |charged|
    ensures var item := ItemOf(table, charged[i]);
            Place(table, charged, c, next, k)[i]
            == if LineFor(table, charged, item) == Some(i) && item in c.items[..k] then AddArrears(charged[i], Carried(c, item)) else charged[i]
  {
    if k > 0 {
      hide ItemOf, AddArrears, LineFor;
      PlaceOnCharged(table, charged, c, next, k - 1, i);
      assert c.items[..k] == c.items[..k - 1] + [c.items[k - 1]];
      assert c.items[k - 1] !in c.items[..k - 1];
    }
  }

  /** Every other line is for one placed item that has no charged line. */
  lemma {:induction false} PlaceBehind(table: seq<Assessment>, charged: seq<Line>, c: Carry, next: nat, k: nat, i: nat) returns (j: nat)
    requires k <= |c.items| && |charged| <= i < |Place(table, charged, c, next, k)|
    ensures j < k && LineFor(table, charged, c.items[j]).None?
    ensures var extra := Carried(c, c.items[j]);
            Place(table, charged, c, next, k)[i]
            == Line(next + i, if c.items[j] in c.citing then c.citing[c.items[j]] else 0, extra, 0, extra, i)
  {
    hide LineFor, Carried;
    var before := Place(table, charged, c, next, k - 1);
    if i < |before| {
      j := PlaceBehind(table, charged, c, next, k - 1, i);
    } else {
      j := k - 1;
    }
  }

  /** A line of the item that still owes something. */
  ghost predicate OwesOn(db: Db, l: Line, item: nat) {
    ItemOf(db.assessments, l) == item && l.amount - LinePaid(db.payments, db.allocations, l.id) > 0
  }

  /** The assessment cited for an item is that of its last line, in the order met, that still owes something. */
  lemma {:induction false} CarryCitesLast(db: Db, lines: seq<Line>, item: nat) returns (p: nat)
    requires item in CarryAll(db, lines).citing
    ensures p < |lines| && OwesOn(db, lines[p], item) && CarryAll(db, lines).citing[item] == lines[p].assessment
    ensures forall q | p < q < |lines| :: !OwesOn(db, lines[q], item)
  {
    hide LinePaid, ItemOf;
    var n := |lines| - 1;
    if OwesOn(db, lines[n], item) {
      p := n;
    } else {
      p := CarryCitesLast(db, lines[..n], item);
    }
  }

  /** The new bill's first lines are the merged charges in order; the first of each item also carries what all open bills
      owe on the item. */
  lemma ChargedLineIs(db: Db, r: IssueRequest, m: Merge, i: nat)
    requires Rolls(db, r, m) && i < |m.kept|
    ensures i < |NewLines(db, r, m)|
    ensures var a := m.kept[i];
            var item, current := m.table[a].item, m.table[a].amount;
            var carried := if forall j | 0 <= j < i :: m.table[m.kept[j]].item != item then Sum(PriorOf(db, r), OwedForItem(db, item)) else 0;
            NewLines(db, r, m)[i] == Line(|db.lineBill| + i, a, current + carried, current, carried, i)
  {
    hide CarryAll, LineFor, LinePaid;
    var prior := PriorOf(db, r);
    var c, charged := CarryAll(db, prior), FreshLines(m.table, m.kept, |db.lineBill|);
    var item := m.table[m.kept[i]].item;
    PriorLinesLinked(db, r.openBills);
    CarriesOk(db, prior);
    CarryGathersEachItem(db, prior, item);
    PlaceOnCharged(m.table, charged, c, |db.lineBill|, |c.items|, i);
    LineForIsFirst(m.table, charged, item, i);
    assert c.items[..|c.items|] == c.items;
    assert forall j | 0 <= j < |charged| :: ItemOf(m.table, charged[j]) == m.table[m.kept[j]].item;
  }

  /** Its other lines are for items it does not charge: all that is owed on the item, as arrears, citing the assessment of the
      last line met that owes on it. */
  lemma ArrearsLineIs(db: Db, r: IssueRequest, m: Merge, i: nat) returns (item: nat, p: nat)
    requires Rolls(db, r, m) && |m.kept| <= i < |NewLines(db, r, m)|
    ensures forall j | 0 <= j < |m.kept| :: m.table[m.kept[j]].item != item
    ensures p < |PriorOf(db, r)| && OwesOn(db, PriorOf(db, r)[p], item)
    ensures forall q | p < q < |PriorOf(db, r)| :: !OwesOn(db, PriorOf(db, r)[q], item)
    ensures var carried := Sum(PriorOf(db, r), OwedForItem(db, item));
            carried > 0 && NewLines(db, r, m)[i] == Line(|db.lineBill| + i, PriorOf(db, r)[p].assessment, carried, 0, carried, i)
  {
    hide CarryAll, LineFor, LinePaid, OwesOn;
    var prior := PriorOf(db, r);
    var c, charged := CarryAll(db, prior), FreshLines(m.table, m.kept, |db.lineBill|);
    PriorLinesLinked(db, r.openBills);
    CarriesOk(db, prior);
    var k := PlaceBehind(m.table, charged, c, |db.lineBill|, |c.items|, i);
    item := c.items[k];
    CarryGathersEachItem(db, prior, item);
    p := CarryCitesLast(db, prior, item);
    forall j | 0 <= j < |m.kept| ensures m.table[m.kept[j]].item != item {
      assert ItemOf(m.table, charged[j]) == m.table[m.kept[j]].item && charged[j] in charged;
    }
  }

  lemma {:induction false} FreshSums(table: seq<Assessment>, kept: seq<nat>, next: nat)
    requires InTable(kept, |table|)
    ensures Sum(FreshLines(table, kept, next), CurrentOf) == Sum(kept, AmountAt(table))
    ensures Sum(FreshLines(table, kept, next), ArrearsOf) == 0
  {
    if kept != [] {
      var n := |kept| - 1;
      FreshSums(table, kept[..n], next);
      assert FreshLines(table, kept, next)[..n] == FreshLines(table, kept[..n], next);
    }
  }

  lemma NewLinesCurrent(db: Db, r: IssueRequest, m: Merge)
    requires InTable(r.openBills, |db.bills|) && InTable(m.kept, |m.table|)
    ensures Sum(NewLines(db, r, m), CurrentOf) == Sum(m.kept, AmountAt(m.table))
  {
    FreshSums(m.table, m.kept, |db.lineBill|);
    if r.rollArrears {
      var c := CarryAll(db, PriorOf(db, r));
      PlaceSums(m.table, FreshLines(m.table, m.kept, |db.lineBill|), c, |db.lineBill|, |c.items|);
    }
  }

  /** An accepted issue, consolidation or not: of the drafts and entries it takes in, the first of each key ends BILLED and
      the others CANCELLED, no other assessment changes, and the new bill's current charges are their amounts in all. */
  lemma IssueChargesWhatItTakesIn(db: Db, r: IssueRequest, clock: Clock, id: nat)
    requires Callable(db, IssueBill(r)) && InTable(r.drafts, |db.assessments|) && InTable(r.openBills, |db.bills|)
    requires Issue(db, r, clock).Ok?
    ensures PriceAll(r.payer, r.orders).Ok?
    ensures var priced := PriceAll(r.payer, r.orders).value;
            var refs, table := Refs(db, r, |priced|), db.assessments + priced;
            var after := Apply(db, Move(IssueBill(r), clock));
            && InTable(refs, |table|) && |after.bills| == |db.bills| + 1 && |after.assessments| == |table|
            && Sum(after.bills[|db.bills|].lines, CurrentOf) == Sum(refs, AmountAt(table))
            && (id < |table| ==>
                  if id !in refs then after.assessments[id] == table[id]
                  else after.assessments[id].status
                       == if id in Firsts(refs, table) then AssessmentStatus.Billed else AssessmentStatus.Voided)
  {
    hide PriceAll, MergeAll, Firsts, NewLines;
    var priced := PriceAll(r.payer, r.orders).value;
    var refs, table := Refs(db, r, |priced|), db.assessments + priced;
    var m := MergeAll(refs, table);
    RefsAreUnbilled(db, r, |priced|);
    MergeConserves(refs, table);
    MergeKeepsFirsts(refs, table);
    NewLinesCurrent(db, r, m);
    if id < |table| { IssueSettlesAssessments(db, r, refs, table, clock, id); }
  }

  /** The new bill's arrears are all that the open bills' lines owe; its current charges are the merged amounts. */
  lemma NewBillAddsUp(db: Db, r: IssueRequest, m: Merge)
    requires Rolls(db, r, m)
    ensures Sum(NewLines(db, r, m), ArrearsOf) == Sum(PriorOf(db, r), OwedOn(db))
    ensures Sum(NewLines(db, r, m), CurrentOf) == Sum(m.kept, AmountAt(m.table))
    ensures Sum(NewLines(db, r, m), AmountOf) == Sum(NewLines(db, r, m), CurrentOf) + Sum(NewLines(db, r, m), ArrearsOf)
  {
    var prior := PriorOf(db, r);
    var c := CarryAll(db, prior);
    PriorLinesLinked(db, r.openBills);
    CarryTotals(db, prior);
    CarriesOk(db, prior);
    FreshSums(m.table, m.kept, |db.lineBill|);
    PlaceSums(m.table, FreshLines(m.table, m.kept, |db.lineBill|), c, |db.lineBill|, |c.items|);
    assert c.items[..|c.items|] == c.items;
    var charged := FreshLines(m.table, m.kept, |db.lineBill|);
    PlaceAdds(m.table, charged, c, |db.lineBill|, |c.items|);
    var lines := NewLines(db, r, m);
    SumAdd(lines, CurrentOf, ArrearsOf, AmountOf);
  }

  lemma {:induction false} PlaceAdds(table: seq<Assessment>, charged: seq<Line>, c: Carry, next: nat, k: nat)
    requires k <= |c.items| && forall l | l in charged :: l.amount == l.current + l.arrears
    ensures forall l | l in Place(table, charged, c, next, k) :: l.amount == l.current + l.arrears
  {
    if k > 0 {
      PlaceAdds(table, charged, c, next, k - 1);
    }
  }

  // ---- the payer's debt ----

  /** A bill's open balance; terminal bills are not collected on. */
  function Debt(payer: nat): Bill -> int {
    (b: Bill) => if b.payer == payer && !Terminal(b.status) then b.total - b.paid else 0
  }

  /** By how much a line has been paid past its amount. */
  function OverpaidOn(db: Db): Line -> int {
    (l: Line) => Pos(-Outstanding(db, l))
  }

  function BalanceAt(bills: seq<Bill>): nat -> int {
    (b: nat) => if b < |bills| then bills[b].total - bills[b].paid else 0
  }

  function OutstandingOn(db: Db): Line -> int {
    (l: Line) => Outstanding(db, l)
  }

  lemma BalanceIsOutstanding(db: Db, b: nat)
    requires Inv(db) && b < |db.bills|
    ensures db.bills[b].total - db.bills[b].paid == Sum(db.bills[b].lines, OutstandingOn(db))
  {
    assert BillOk(db.bills[b]);
    PaidIsSumOverOwnLines(db, b);
    SumAdd(db.bills[b].lines, OutstandingOn(db), LinePaidOf(db), AmountOf);
  }

  lemma {:induction false} PriorOutstanding(db: Db, order: seq<nat>)
    requires Inv(db) && InTable(order, |db.bills|)
    ensures Sum(order, BalanceAt(db.bills)) == Sum(PriorLines(db.bills, order), OutstandingOn(db))
  {
    if order != [] {
      var n := |order| - 1;
      PriorOutstanding(db, order[..n]);
      BalanceIsOutstanding(db, order[n]);
      assert BillOk(db.bills[order[n]]);
      WalkIsCreationOrder(db.bills[order[n]].lines);
      SumConcat(PriorLines(db.bills, order[..n]), Walk(db.bills[order[n]].lines), OutstandingOn(db));
    }
  }

  /** What the swept bills owe is what the new bill carries, less what was paid past their lines. */
  lemma SweptBalances(db: Db, r: IssueRequest)
    requires Inv(db) && InTable(r.openBills, |db.bills|)
    ensures Sum(r.openBills, BalanceAt(db.bills)) == Sum(PriorOf(db, r), OwedOn(db)) - Sum(PriorOf(db, r), OverpaidOn(db))
  {
    PriorOutstanding(db, r.openBills);
    SumAdd(PriorOf(db, r), OutstandingOn(db), OverpaidOn(db), OwedOn(db));
  }

  function SweptDebt(db: Db, r: IssueRequest): nat -> int {
    OnlyIn(r.openBills, BalanceAt(db.bills))
  }

  lemma SweptBillOwesNothing(b: Bill, successor: nat, today: int, payer: nat)
    ensures Debt(payer)(Supersede(b, successor, today)) == 0
  {
  }

  lemma SweptOrNot(db: Db, r: IssueRequest, successor: nat, today: int, b: nat)
    requires QueriedOn(r, db) && InTable(r.openBills, |db.bills|) && b < |db.bills|
    ensures At(db.bills, Debt(r.payer))(b)
            == At(SupersedeAll(db.bills, r.openBills, successor, today), Debt(r.payer))(b) + SweptDebt(db, r)(b)
  {
    assert b in r.openBills <==> IsOpenBillOf(db, r.payer, b);
    SweptBillOwesNothing(db.bills[b], successor, today, r.payer);
  }

  /** Superseding takes the swept bills' balances, and no others, out of the payer's debt. */
  lemma DebtWithoutSwept(db: Db, r: IssueRequest, successor: nat, today: int)
    requires QueriedOn(r, db) && InTable(r.openBills, |db.bills|)
    ensures Sum(SupersedeAll(db.bills, r.openBills, successor, today), Debt(r.payer))
            == Sum(db.bills, Debt(r.payer)) - Sum(r.openBills, BalanceAt(db.bills))
  {
    var n, bills' := |db.bills|, SupersedeAll(db.bills, r.openBills, successor, today);
    SumByIndex(db.bills, Debt(r.payer));
    SumByIndex(bills', Debt(r.payer));
    SumAnyOrder(r.openBills, n, BalanceAt(db.bills));
    forall b | b in UpTo(n)
      ensures At(db.bills, Debt(r.payer))(b) == At(bills', Debt(r.payer))(b) + SweptDebt(db, r)(b) {
      SweptOrNot(db, r, successor, today, b);
    }
    SumAdd<nat>(UpTo(n), At(bills', Debt(r.payer)), SweptDebt(db, r), At(db.bills, Debt(r.payer)));
  }

  lemma NewBillDebt(r: IssueRequest, lines: seq<Line>, clock: Clock)
    ensures Debt(r.payer)(Recompute(NewBill(r, lines, clock), clock.day)) == Sum(lines, AmountOf)
  {
  }

  /** Consolidation neither creates nor loses debt: the payer's debt grows by the new charges plus whatever had been paid
      past a swept line. */
  lemma ConsolidationConservesDebt(db: Db, r: IssueRequest, m: Merge, clock: Clock)
    requires Rolls(db, r, m)
    ensures Sum(IssueMerged(db, r, m, clock).bills, Debt(r.payer))
            == Sum(db.bills, Debt(r.payer)) + Sum(m.kept, AmountAt(m.table)) + Sum(PriorOf(db, r), OverpaidOn(db))
  {
    var swept := SupersedeAll(db.bills, r.openBills, |db.bills|, clock.day);
    var bill := Recompute(NewBill(r, NewLines(db, r, m), clock), clock.day);
    SumPush(swept, bill, Debt(r.payer));
    DebtWithoutSwept(db, r, |db.bills|, clock.day);
    NewBillAddsUp(db, r, m);
    NewBillDebt(r, NewLines(db, r, m), clock);
    SweptBalances(db, r);
  }

  /** So the debt grows by exactly the new charges if and only if no swept line was overpaid. */
  lemma DebtGrowsByNewChargesIff(db: Db, r: IssueRequest, m: Merge, clock: Clock)
    requires Rolls(db, r, m)
    ensures Sum(IssueMerged(db, r, m, clock).bills, Debt(r.payer)) == Sum(db.bills, Debt(r.payer)) + Sum(m.kept, AmountAt(m.table))
            <==> forall l | l in PriorOf(db, r) :: LinePaid(db.payments, db.allocations, l.id) <= l.amount
  {
    ConsolidationConservesDebt(db, r, m, clock);
    if forall l | l in PriorOf(db, r) :: LinePaid(db.payments, db.allocations, l.id) <= l.amount {
      SumZero(PriorOf(db, r), OverpaidOn(db));
    } else {
      var l :| l in PriorOf(db, r) && LinePaid(db.payments, db.allocations, l.id) > l.amount;
      SumPositive(PriorOf(db, r), OverpaidOn(db), l);
    }
  }

  lemma {:induction false} SumPositive(s: seq<Line>, f: Line -> int, x: Line)
    requires (forall l | l in s :: f(l) >= 0) && x in s && f(x) > 0
    ensures Sum(s, f) > 0
  {
    var init := s[..|s| - 1];
    if s[|s| - 1] == x {
      SumNonNegative(init, f);
    } else {
      SumPositive(init, f, x);
    }
  }
}
