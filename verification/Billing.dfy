/** Issuing bills, consolidating arrears and editing lines. */
module Billing {
  import opened Prelude
  import opened Sums
  import opened Tables
  import opened Revenue
  import Enforcement

  datatype Clock = Clock(day: int, year: int)

  function DeriveStatus(total: int, paid: int, dueOn: int, today: int): BillStatus {
    if paid >= total && total > 0 then Paid
    else if dueOn < today then Overdue
    else if paid > 0 then PartPaid
    else Issued
  }

  /** `recompute_bill`: totals from the lines, status unless terminal. */
  function Recompute(b: Bill, today: int): Bill {
    var total := Sum(b.lines, AmountOf);
    b.(total := total,
       arrears := Sum(b.lines, ArrearsOf),
       status := if Terminal(b.status) then b.status else DeriveStatus(total, b.paid, b.dueOn, today),
       updatedOn := today)
  }

  predicate InTable(ids: seq<nat>, n: nat) {
    forall i | 0 <= i < |ids| :: ids[i] < n
  }

  /** The item a line is for. A line's assessment always exists, so the default is never taken. */
  function ItemOf(table: seq<Assessment>, l: Line): nat {
    if l.assessment < |table| then table[l.assessment].item else 0
  }

  // ---- assessments ----

  function NewAssessment(payer: nat, o: Order, q: Quote): Assessment {
    Assessment(payer, o.item.id, q.band, q.tier, q.quantity, q.amount, AssessmentStatus.Draft)
  }

  function CreateDraft(db: Db, payer: nat, o: Order): Result<Db, Fault> {
    match Price(o)
    case Ok(q) => Ok(db.(assessments := db.assessments + [NewAssessment(payer, o, q)]))
    case Err(e) => Err(e)
  }

  function PriceAll(payer: nat, orders: seq<Order>): Result<seq<Assessment>, Fault> {
    if orders == [] then Ok([])
    else
      match PriceAll(payer, orders[..|orders| - 1])
      case Err(e) => Err(e)
      case Ok(earlier) =>
        match Price(orders[|orders| - 1])
        case Err(e) => Err(e)
        case Ok(q) => Ok(earlier + [NewAssessment(payer, orders[|orders| - 1], q)])
  }

  // ---- merging assessments that price the same thing ----

  datatype Key = Key(item: nat, band: Option<nat>, tier: Option<nat>)

  function KeyOf(a: Assessment): Key {
    Key(a.item, a.band, a.tier)
  }

  function Absorb(kept: Assessment, a: Assessment): Assessment {
    kept.(quantity := kept.quantity + a.quantity, amount := kept.amount + a.amount)
  }

  /** The first of `ids` that carries `key`. */
  function FindKey(ids: seq<nat>, table: seq<Assessment>, key: Key): (r: Option<nat>)
    requires InTable(ids, |table|)
    ensures r.Some? ==> r.value in ids && KeyOf(table[r.value]) == key
    ensures r.None? ==> forall id | id in ids :: KeyOf(table[id]) != key
  {
    if ids == [] then None
    else
      var r := FindKey(ids[..|ids| - 1], table, key);
      if r.Some? then r else if KeyOf(table[ids[|ids| - 1]]) == key then Some(ids[|ids| - 1]) else None
  }

  /** Ids kept and dropped so far, and the assessment table with the kept rows grown. */
  datatype Merge = Merge(kept: seq<nat>, dropped: seq<nat>, table: seq<Assessment>)

  function MergeOne(m: Merge, id: nat): (r: Merge)
    requires id < |m.table| && InTable(m.kept, |m.table|)
    ensures |r.table| == |m.table| && InTable(r.kept, |r.table|)
  {
    match FindKey(m.kept, m.table, KeyOf(m.table[id]))
    case None => Merge(m.kept + [id], m.dropped, m.table)
    case Some(k) => Merge(m.kept, m.dropped + [id], m.table[k := Absorb(m.table[k], m.table[id])])
  }

  function MergeAll(refs: seq<nat>, table: seq<Assessment>): (m: Merge)
    requires InTable(refs, |table|)
    ensures |m.table| == |table| && InTable(m.kept, |table|)
  {
    if refs == [] then Merge([], [], table)
    else MergeOne(MergeAll(refs[..|refs| - 1], table), refs[|refs| - 1])
  }

  function Mark(table: seq<Assessment>, ids: seq<nat>, status: AssessmentStatus): seq<Assessment> {
    seq(|table|, i requires 0 <= i < |table| => if i in ids then table[i].(status := status) else table[i])
  }

  // ---- the new bill's lines ----

  function FreshLines(table: seq<Assessment>, kept: seq<nat>, next: nat): seq<Line>
    requires InTable(kept, |table|)
  {
    seq(|kept|, i requires 0 <= i < |kept| =>
      Line(next + i, kept[i], table[kept[i]].amount, table[kept[i]].amount, 0, i))
  }

  /** All lines of the bills being consolidated, bill by bill. */
  function PriorLines(bills: seq<Bill>, order: seq<nat>): seq<Line>
    requires InTable(order, |bills|)
  {
    if order == [] then []
    else PriorLines(bills, order[..|order| - 1]) + Walk(bills[order[|order| - 1]].lines)
  }

  /** `arrears_by_item` and `representative_assessment`, with the order in which items were first met. */
  datatype Carry = Carry(items: seq<nat>, amounts: map<nat, int>, citing: map<nat, nat>)

  function Carried(c: Carry, item: nat): int {
    if item in c.amounts then c.amounts[item] else 0
  }

  function CarryOne(c: Carry, item: nat, assessment: nat, outstanding: int): Carry {
    if outstanding <= 0 then c
    else Carry(
      if item in c.amounts then c.items else c.items + [item],
      c.amounts[item := Carried(c, item) + outstanding],
      c.citing[item := assessment])
  }

  function CarryAll(db: Db, lines: seq<Line>): Carry {
    if lines == [] then Carry([], map[], map[])
    else
      var l := lines[|lines| - 1];
      CarryOne(CarryAll(db, lines[..|lines| - 1]), ItemOf(db.assessments, l), l.assessment, Outstanding(db, l))
  }

  /** The first line for `item`. */
  function LineFor(table: seq<Assessment>, lines: seq<Line>, item: nat): (r: Option<nat>)
    ensures r.Some? ==> r.value < |lines| && ItemOf(table, lines[r.value]) == item
    ensures r.None? ==> forall l | l in lines :: ItemOf(table, l) != item
  {
    if lines == [] then None
    else
      var r := LineFor(table, lines[..|lines| - 1], item);
      if r.Some? then r else if ItemOf(table, lines[|lines| - 1]) == item then Some(|lines| - 1) else None
  }

  function AddArrears(l: Line, extra: int): Line {
    l.(arrears := l.arrears + extra, amount := l.current + (l.arrears + extra))
  }

  /** One item's arrears join its first charged line, or get a line of their own citing the last assessment
      seen for the item. */
  function PlaceOne(table: seq<Assessment>, charged: seq<Line>, lines: seq<Line>, c: Carry, next: nat, item: nat): (r: seq<Line>)
    requires |lines| >= |charged|
    ensures |r| >= |lines|
  {
    var extra := Carried(c, item);
    match LineFor(table, charged, item)
    case Some(j) => lines[j := AddArrears(lines[j], extra)]
    case None =>
      lines + [Line(next + |lines|, if item in c.citing then c.citing[item] else 0, extra, 0, extra, |lines|)]
  }

  /** The bill's lines once the arrears of the first `k` items are placed. */
  function Place(table: seq<Assessment>, charged: seq<Line>, c: Carry, next: nat, k: nat): (lines: seq<Line>)
    requires k <= |c.items|
    ensures |lines| >= |charged|
  {
    if k == 0 then charged else PlaceOne(table, charged, Place(table, charged, c, next, k - 1), c, next, c.items[k - 1])
  }

  function Supersede(b: Bill, successor: nat, today: int): Bill {
    Enforcement.CloseCase(b.(status := Superseded, successor := Some(successor), updatedOn := today), today)
  }

  function SupersedeAll(bills: seq<Bill>, order: seq<nat>, successor: nat, today: int): seq<Bill> {
    seq(|bills|, i requires 0 <= i < |bills| => if i in order then Supersede(bills[i], successor, today) else bills[i])
  }

  // ---- issue_bill ----

  /** `drafts` and `openBills` are the rows of two unordered queries, in whatever order the database returns them. */
  datatype IssueRequest = IssueRequest(
    payer: nat, dueOn: Option<int>, dueDays: int, orders: seq<Order>, allDrafts: bool, drafts: seq<nat>,
    rollArrears: bool, openBills: seq<nat>, force: bool)

  predicate NoRepeats(ids: seq<nat>) {
    forall i, j | 0 <= i < j < |ids| :: ids[i] != ids[j]
  }

  predicate IsDraftOf(db: Db, payer: nat, id: nat) {
    id < |db.assessments| && db.assessments[id].payer == payer && db.assessments[id].status == AssessmentStatus.Draft
  }

  predicate IsOpenBillOf(db: Db, payer: nat, id: nat) {
    id < |db.bills| && db.bills[id].payer == payer && Collectable(db.bills[id].status)
  }

  /** The request's row lists are what the two queries return on `db`. */
  ghost predicate QueriedOn(r: IssueRequest, db: Db) {
    && r.payer < |db.credit|
    && NoRepeats(r.drafts) && (forall id: nat :: id in r.drafts <==> IsDraftOf(db, r.payer, id))
    && NoRepeats(r.openBills) && (forall id: nat :: id in r.openBills <==> IsOpenBillOf(db, r.payer, id))
  }

  /** Row lists the database returned are row ids. */
  lemma QueriedInTable(r: IssueRequest, db: Db)
    requires QueriedOn(r, db)
    ensures InTable(r.drafts, |db.assessments|) && InTable(r.openBills, |db.bills|)
  {
    forall i | 0 <= i < |r.drafts| ensures r.drafts[i] < |db.assessments| {
      assert r.drafts[i] in r.drafts;
    }
    forall i | 0 <= i < |r.openBills| ensures r.openBills[i] < |db.bills| {
      assert r.openBills[i] in r.openBills;
    }
  }

  /** `existing`: the payer's first non-terminal bill of the year. */
  function OpenThisYear(bills: seq<Bill>, payer: nat, year: int): Option<nat> {
    if bills == [] then None
    else
      var r := OpenThisYear(bills[..|bills| - 1], payer, year);
      var last := bills[|bills| - 1];
      if r.Some? then r
      else if last.payer == payer && last.year == year && !Terminal(last.status) then Some(|bills| - 1) else None
  }

  function Refs(db: Db, r: IssueRequest, priced: nat): seq<nat> {
    var rows := |db.assessments|;
    seq(priced, i => rows + i) + (if r.allDrafts then r.drafts else [])
  }

  function NewLines(db: Db, r: IssueRequest, m: Merge): seq<Line>
    requires InTable(r.openBills, |db.bills|) && InTable(m.kept, |m.table|)
  {
    var charged := FreshLines(m.table, m.kept, |db.lineBill|);
    if r.rollArrears then
      var c := CarryAll(db, PriorLines(db.bills, r.openBills));
      Place(m.table, charged, c, |db.lineBill|, |c.items|)
    else charged
  }

  function NewBill(r: IssueRequest, lines: seq<Line>, clock: Clock): Bill {
    var dueOn := if r.dueOn.Some? then r.dueOn.value else clock.day + r.dueDays;
    Bill(r.payer, lines, 0, 0, 0, BillStatus.Issued, dueOn, clock.year, clock.day, None, None)
  }

  /** The whole write of one successful issue. */
  function IssueMerged(db: Db, r: IssueRequest, m: Merge, clock: Clock): Db
    requires InTable(r.openBills, |db.bills|) && InTable(m.kept, |m.table|)
  {
    var n := |db.bills|;
    var lines := NewLines(db, r, m);
    db.(bills := (if r.rollArrears then SupersedeAll(db.bills, r.openBills, n, clock.day) else db.bills)
                 + [Recompute(NewBill(r, lines, clock), clock.day)],
        assessments := Mark(Mark(m.table, m.dropped, AssessmentStatus.Voided), m.kept, AssessmentStatus.Billed),
        lineBill := db.lineBill + seq(|lines|, _ => n))
  }

  /** Everything in an issue that can fail: the duplicate check, pricing, merging, and having something to bill. */
  function Prepare(db: Db, r: IssueRequest, clock: Clock): (m: Result<Merge, Fault>)
    requires InTable(r.drafts, |db.assessments|)
    ensures m.Ok? ==> InTable(m.value.kept, |m.value.table|)
  {
    var existing := OpenThisYear(db.bills, r.payer, clock.year);
    if !r.rollArrears && existing.Some? && !r.force then Err(DuplicateBill(existing.value))
    else
      match PriceAll(r.payer, r.orders)
      case Err(e) => Err(e)
      case Ok(priced) =>
        var m := MergeAll(Refs(db, r, |priced|), db.assessments + priced);
        if m.kept == [] && !r.rollArrears then Err(BillingError) else Ok(m)
  }

  function Issue(db: Db, r: IssueRequest, clock: Clock): Result<Db, Fault>
    requires InTable(r.drafts, |db.assessments|) && InTable(r.openBills, |db.bills|)
  {
    match Prepare(db, r, clock)
    case Err(e) => Err(e)
    case Ok(m) => Ok(IssueMerged(db, r, m, clock))
  }

  // ---- line edits ----

  predicate Carries(table: seq<Assessment>, l: Line, key: Key) {
    l.assessment < |table| && KeyOf(table[l.assessment]) == key
  }

  /** The first line, in walk order, whose assessment carries `key`. */
  function MatchingLine(table: seq<Assessment>, walk: seq<Line>, key: Key): (r: Option<Line>)
    ensures r.Some? ==> r.value in walk && Carries(table, r.value, key)
    ensures r.None? ==> forall l | l in walk :: !Carries(table, l, key)
  {
    if walk == [] then None
    else
      var r := MatchingLine(table, walk[..|walk| - 1], key);
      var last := walk[|walk| - 1];
      if r.Some? then r else if Carries(table, last, key) then Some(last) else None
  }

  function MaxPosition(lines: seq<Line>): Option<nat> {
    if lines == [] then None
    else
      var r := MaxPosition(lines[..|lines| - 1]);
      var p := lines[|lines| - 1].position;
      if r.Some? && r.value >= p then r else Some(p)
  }

  /** `(Max("position") or -1) + 1`: a maximum of zero counts as none. */
  function NextPosition(lines: seq<Line>): nat {
    match MaxPosition(lines)
    case None => 0
    case Some(p) => if p == 0 then 0 else p + 1
  }

  function ReplaceLine(lines: seq<Line>, l: Line): seq<Line> {
    seq(|lines|, i requires 0 <= i < |lines| => if lines[i].id == l.id then l else lines[i])
  }

  /** The line `add_bill_line` folds a new charge into: looked up by the band and tier the caller passed. */
  function MergeTarget(db: Db, b: nat, o: Order): Option<Line>
    requires b < |db.bills|
  {
    MatchingLine(db.assessments, Walk(db.bills[b].lines), Key(o.item.id, CallerBand(o), CallerTier(o)))
  }

  function Merged(l: Line, a: Assessment): Line {
    l.(current := a.amount, amount := a.amount + l.arrears)
  }

  /** The charge folds into `l`: its assessment grows, the line's current amount becomes the assessment's, and the
      assessment just created is cancelled. */
  function AddToLine(db: Db, b: nat, l: Line, added: Assessment, today: int): Db
    requires b < |db.bills| && l.assessment < |db.assessments|
  {
    var bill := db.bills[b];
    var grown := Absorb(db.assessments[l.assessment], added);
    db.(bills := db.bills[b := Recompute(bill.(lines := ReplaceLine(bill.lines, Merged(l, grown))), today)],
        assessments := db.assessments[l.assessment := grown] + [added.(status := AssessmentStatus.Voided)])
  }

  function AppendLine(db: Db, b: nat, added: Assessment, today: int): Db
    requires b < |db.bills|
  {
    var bill := db.bills[b];
    var l := Line(|db.lineBill|, |db.assessments|, added.amount, added.amount, 0, NextPosition(bill.lines));
    db.(bills := db.bills[b := Recompute(bill.(lines := bill.lines + [l]), today)],
        assessments := db.assessments + [added.(status := AssessmentStatus.Billed)],
        lineBill := db.lineBill + [b])
  }

  function AddLine(db: Db, b: nat, o: Order, today: int): Result<Db, Fault>
    requires b < |db.bills|
  {
    match Price(o)
    case Err(e) => Err(e)
    case Ok(q) =>
      var added := NewAssessment(db.bills[b].payer, o, q);
      match MergeTarget(db, b, o)
      case Some(l) => Ok(AddToLine(db, b, l, added, today))
      case None => Ok(AppendLine(db, b, added, today))
  }

  function Edited(l: Line, amount: int): Line {
    l.(current := amount - l.arrears, amount := amount)
  }

  function UpdateLine(db: Db, b: nat, j: nat, amount: int, today: int): Result<Db, Fault>
    requires b < |db.bills| && j < |db.bills[b].lines| && db.bills[b].lines[j].assessment < |db.assessments|
  {
    var bill := db.bills[b];
    var l := bill.lines[j];
    if amount <= 0 || amount < l.arrears then Err(BillingError)
    else Ok(db.(
      bills := db.bills[b := Recompute(bill.(lines := bill.lines[j := Edited(l, amount)]), today)],
      assessments := db.assessments[l.assessment := db.assessments[l.assessment].(amount := amount - l.arrears)]))
  }

  predicate HasAllocations(db: Db, line: nat) {
    exists i :: 0 <= i < |db.allocations| && db.allocations[i].line == line
  }

  function DeleteLine(db: Db, b: nat, j: nat, today: int): Result<Db, Fault>
    requires b < |db.bills| && j < |db.bills[b].lines| && db.bills[b].lines[j].assessment < |db.assessments|
  {
    var bill := db.bills[b];
    var l := bill.lines[j];
    if HasAllocations(db, l.id) || |bill.lines| <= 1 then Err(BillingError)
    else Ok(db.(
      bills := db.bills[b := Recompute(bill.(lines := bill.lines[..j] + bill.lines[j + 1..]), today)],
      assessments := db.assessments[l.assessment := db.assessments[l.assessment].(status := AssessmentStatus.Voided)]))
  }

  // ---- the bill's whole history (Bill.all_arrears_lines) ----

  /** Bills are superseded only by later ones. */
  ghost predicate Forest(bills: seq<Bill>) {
    forall i | 0 <= i < |bills| && bills[i].successor.Some? :: i < bills[i].successor.value < |bills|
  }

  predicate IsSupersededBy(bills: seq<Bill>, p: nat, b: nat) {
    p < |bills| && bills[p].successor == Some(b)
  }

  /** A bill's own lines, then those of every bill it directly or indirectly superseded. */
  function AllLines(bills: seq<Bill>, b: nat): seq<Line>
    requires b < |bills|
    decreases b, 1, 0
  {
    Walk(bills[b].lines) + LinesBelow(bills, b, b)
  }

  /** The lines of the subtrees hanging off `b` at bills before `n`. */
  function LinesBelow(bills: seq<Bill>, b: nat, n: nat): seq<Line>
    requires n <= b < |bills|
    decreases b, 0, n
  {
    if n == 0 then []
    else LinesBelow(bills, b, n - 1) + (if IsSupersededBy(bills, n - 1, b) then AllLines(bills, n - 1) else [])
  }

  /** `supersedes.all()` scans the whole table; with successors always later, only bills before `b` qualify, so the
      recursion ends. */
  method AllArrearsLines(store: Store, b: nat) returns (lines: seq<Line>)
    requires b < |store.bills| && Forest(store.bills)
    ensures lines == AllLines(store.bills, b)
    decreases b
  {
    lines := Walk(store.bills[b].lines);
    var p := 0;
    while p < |store.bills|
      invariant p <= |store.bills|
      invariant lines == Walk(store.bills[b].lines) + LinesBelow(store.bills, b, if p <= b then p else b)
    {
      if store.bills[p].successor == Some(b) {
        var below := AllArrearsLines(store, p);
        lines := lines + below;
      }
      p := p + 1;
    }
  }
}
