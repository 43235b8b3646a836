/** The billing services as they run: loops and in-place writes, each computing its rule in Billing.
    A service that can fail writes nothing until it can no longer fail, as its transaction would. */
module BillingServices {
  import opened Prelude
  import opened Sums
  import opened Tables
  import opened Revenue
  import opened Billing
  import Enforcement

  method CreateDraftAssessment(store: Store, payer: nat, o: Order) returns (r: Result<nat, Fault>)
    modifies store
    ensures match CreateDraft(old(store.Rows()), payer, o)
            case Ok(db) => store.Rows() == db && r == Ok(|db.assessments| - 1)
            case Err(e) => store.Rows() == old(store.Rows()) && r == Err(e)
  {
    match Price(o)
    case Err(e) => return Err(e);
    case Ok(q) =>
      store.assessments := store.assessments + [NewAssessment(payer, o, q)];
      return Ok(|store.assessments| - 1);
  }

  method RecomputeBill(store: Store, b: nat, today: int)
    requires b < |store.bills|
    modifies store`bills
    ensures store.bills == old(store.bills)[b := Recompute(old(store.bills)[b], today)]
  {
    var bill := store.bills[b];
    bill := bill.(arrears := Sum(bill.lines, ArrearsOf), total := Sum(bill.lines, AmountOf), updatedOn := today);
    if !Terminal(bill.status) {
      if bill.paid >= bill.total && bill.total > 0 {
        bill := bill.(status := Paid);
      } else if bill.dueOn < today {
        bill := bill.(status := Overdue);
      } else if bill.paid > 0 {
        bill := bill.(status := PartPaid);
      } else {
        bill := bill.(status := BillStatus.Issued);
      }
    }
    store.bills := store.bills[b := bill];
  }

  method PriceEntries(payer: nat, orders: seq<Order>) returns (r: Result<seq<Assessment>, Fault>)
    ensures r == PriceAll(payer, orders)
  {
    var priced: seq<Assessment> := [];
    var i := 0;
    while i < |orders|
      invariant i <= |orders| && PriceAll(payer, orders[..i]) == Ok(priced)
    {
      assert orders[..i + 1][..i] == orders[..i];
      var p := Price(orders[i]);
      if p.Err? {
        FailureStays(payer, orders, i + 1);
        return Err(p.error);
      }
      priced := priced + [NewAssessment(payer, orders[i], p.value)];
      i := i + 1;
    }
    assert orders[..i] == orders;
    r := Ok(priced);
  }

  /** The first bad entry decides the outcome, whatever follows it. */
  lemma {:induction false} FailureStays(payer: nat, orders: seq<Order>, i: nat)
    requires i <= |orders| && PriceAll(payer, orders[..i]).Err?
    ensures PriceAll(payer, orders) == PriceAll(payer, orders[..i])
    decreases |orders| - i
  {
    if i == |orders| {
      assert orders[..i] == orders;
    } else {
      assert orders[..i + 1][..i] == orders[..i];
      FailureStays(payer, orders, i + 1);
    }
  }

  lemma {:induction false} KeysUnmoved(ids: seq<nat>, t: seq<Assessment>, u: seq<Assessment>, key: Key)
    requires |t| == |u| && InTable(ids, |t|) && forall i | 0 <= i < |t| :: KeyOf(t[i]) == KeyOf(u[i])
    ensures FindKey(ids, t, key) == FindKey(ids, u, key)
  {
    if ids != [] {
      KeysUnmoved(ids[..|ids| - 1], t, u, key);
    }
  }

  /** The dictionary holds, for every key met, the row kept for it. */
  ghost predicate Agrees(merged: map<Key, nat>, kept: seq<nat>, table: seq<Assessment>)
    requires InTable(kept, |table|)
  {
    forall key :: FindKey(kept, table, key) == if key in merged then Some(merged[key]) else None
  }

  lemma AgreesPush(merged: map<Key, nat>, kept: seq<nat>, table: seq<Assessment>, id: nat)
    requires InTable(kept, |table|) && id < |table| && Agrees(merged, kept, table) && KeyOf(table[id]) !in merged
    ensures InTable(kept + [id], |table|) && Agrees(merged[KeyOf(table[id]) := id], kept + [id], table)
  {
    assert (kept + [id])[..|kept|] == kept;
    forall key ensures FindKey(kept + [id], table, key)
                       == if key in merged[KeyOf(table[id]) := id] then Some(merged[KeyOf(table[id]) := id][key]) else None {
      assert FindKey(kept, table, key) == if key in merged then Some(merged[key]) else None;
    }
  }

  /** The merge loop, with its dictionary from key to kept row. */
  method MergeAssessments(refs: seq<nat>, assessments: seq<Assessment>) returns (m: Merge)
    requires InTable(refs, |assessments|)
    ensures m == MergeAll(refs, assessments)
  {
    var merged: map<Key, nat> := map[];
    m := Merge([], [], assessments);
    var i := 0;
    while i < |refs|
      invariant i <= |refs| && m == MergeAll(refs[..i], assessments)
      invariant Agrees(merged, m.kept, m.table)
    {
      assert refs[..i + 1][..i] == refs[..i];
      var id := refs[i];
      ghost var before := m;
      m, merged := MergeNext(m, merged, id);
      i := i + 1;
    }
    assert refs[..i] == refs;
  }

  method MergeNext(m: Merge, merged: map<Key, nat>, id: nat) returns (r: Merge, merged': map<Key, nat>)
    requires id < |m.table| && InTable(m.kept, |m.table|) && Agrees(merged, m.kept, m.table)
    ensures r == MergeOne(m, id) && Agrees(merged', r.kept, r.table)
  {
    var key := KeyOf(m.table[id]);
    assert FindKey(m.kept, m.table, key) == if key in merged then Some(merged[key]) else None;
    if key !in merged {
      AgreesPush(merged, m.kept, m.table, id);
      return Merge(m.kept + [id], m.dropped, m.table), merged[key := id];
    }
    var k := merged[key];
    var grown := m.table[k := Absorb(m.table[k], m.table[id])];
    forall other ensures FindKey(m.kept, grown, other) == FindKey(m.kept, m.table, other) {
      KeysUnmoved(m.kept, m.table, grown, other);
    }
    return Merge(m.kept, m.dropped + [id], grown), merged;
  }

  /** The inner consolidation loop: one prior bill's lines join what `earlier` lines already gave. */
  method GatherArrears(store: Store, ghost db: Db, ghost earlier: seq<Line>, lines: seq<Line>, gathered: Carry) returns (c: Carry)
    requires db == store.Rows().(bills := db.bills)
    requires forall l | l in lines :: l.assessment < |store.assessments|
    requires gathered == CarryAll(db, earlier)
    ensures c == CarryAll(db, earlier + lines)
  {
    hide Sum, LinePaid, Walk;
    c := gathered;
    var j := 0;
    assert earlier + lines[..0] == earlier;
    while j < |lines|
      invariant j <= |lines|
      invariant c == CarryAll(db, earlier + lines[..j])
    {
      ghost var seen := earlier + lines[..j + 1];
      assert seen[..|seen| - 1] == earlier + lines[..j] && seen[|seen| - 1] == lines[j];
      var l := lines[j];
      var outstanding := l.amount - LinePaid(store.payments, store.allocations, l.id);
      if outstanding > 0 {
        var item := store.assessments[l.assessment].item;
        if item in c.amounts {
          c := c.(amounts := c.amounts[item := c.amounts[item] + outstanding]);
        } else {
          c := c.(items := c.items + [item], amounts := c.amounts[item := outstanding]);
        }
        c := c.(citing := c.citing[item := l.assessment]);
      }
      j := j + 1;
    }
    assert lines[..j] == lines;
  }

  lemma SupersedeNext(bills: seq<Bill>, order: seq<nat>, i: nat, successor: nat, today: int)
    requires i < |order| && InTable(order, |bills|) && NoRepeats(order)
    ensures SupersedeAll(bills, order[..i], successor, today)[order[i]] == bills[order[i]]
    ensures SupersedeAll(bills, order[..i + 1], successor, today)
            == SupersedeAll(bills, order[..i], successor, today)[order[i] := Supersede(bills[order[i]], successor, today)]
  {
    assert order[..i + 1] == order[..i] + [order[i]];
    assert order[i] !in order[..i];
  }

  /** One prior bill: superseded, and its case closed. */
  method SupersedePrior(store: Store, id: nat, successor: nat, today: int)
    requires id < |store.bills|
    modifies store
    ensures store.Rows() == old(store.Rows()).(bills := old(store.bills)[id := Supersede(old(store.bills)[id], successor, today)])
    ensures store.bills[id].lines == old(store.bills)[id].lines
  {
    store.bills := store.bills[id := store.bills[id].(status := Superseded, successor := Some(successor), updatedOn := today)];
    Enforcement.CloseDebtCaseForBill(store, id, today);
  }

  lemma PriorLinesNext(bills: seq<Bill>, order: seq<nat>, i: nat)
    requires i < |order| && InTable(order, |bills|)
    ensures PriorLines(bills, order[..i + 1]) == PriorLines(bills, order[..i]) + Walk(bills[order[i]].lines)
  {
    assert order[..i + 1][..i] == order[..i];
  }

  lemma NothingRolledYet(db: Db, successor: nat, today: int)
    ensures SupersedeAll(db.bills, [], successor, today) == db.bills
    ensures CarryAll(db, PriorLines(db.bills, [])) == Carry([], map[], map[])
  {
  }

  /** The consolidation loop: each prior bill is superseded and its case closed, then its lines' positive balances
      are gathered by item. */
  method RollArrears(store: Store, order: seq<nat>, successor: nat, today: int) returns (c: Carry)
    requires InTable(order, |store.bills|) && NoRepeats(order)
    requires forall b, l | b in store.bills && l in b.lines :: l.assessment < |store.assessments|
    modifies store
    ensures store.Rows() == old(store.Rows()).(bills := SupersedeAll(old(store.bills), order, successor, today))
    ensures c == CarryAll(old(store.Rows()), PriorLines(old(store.bills), order))
  {
    hide Supersede, CarryAll, Walk, PriorLines;
    ghost var db := store.Rows();
    c := Carry([], map[], map[]);
    var i := 0;
    NothingRolledYet(db, successor, today);
    assert order[..0] == [];
    while i < |order|
      invariant i <= |order|
      invariant store.Rows() == db.(bills := SupersedeAll(db.bills, order[..i], successor, today))
      invariant c == CarryAll(db, PriorLines(db.bills, order[..i]))
    {
      hide SupersedeAll;
      var id := order[i];
      SupersedeNext(db.bills, order, i, successor, today);
      SupersedePrior(store, id, successor, today);
      PriorLinesNext(db.bills, order, i);
      WalkMembers(db.bills[id].lines);
      assert db.bills[id] in db.bills;
      c := GatherArrears(store, db, PriorLines(db.bills, order[..i]), Walk(store.bills[id].lines), c);
      i := i + 1;
    }
    assert order[..i] == order;
  }

  lemma WalkMembers(lines: seq<Line>)
    ensures forall l | l in Walk(lines) :: l in lines
  {
    WalkSorts(lines);
    forall l | l in Walk(lines) ensures l in lines {
      assert l in multiset(Walk(lines));
    }
  }

  /** The arrears loop. */
  method PlaceArrears(assessments: seq<Assessment>, charged: seq<Line>, c: Carry, next: nat) returns (lines: seq<Line>)
    requires forall item | item in c.items :: item in c.amounts && item in c.citing
    ensures lines == Place(assessments, charged, c, next, |c.items|)
  {
    lines := charged;
    var k := 0;
    while k < |c.items|
      invariant k <= |c.items| && lines == Place(assessments, charged, c, next, k)
    {
      var item := c.items[k];
      var existing := LineFor(assessments, charged, item);
      if existing.Some? {
        var l := lines[existing.value];
        l := l.(arrears := l.arrears + c.amounts[item]);
        l := l.(amount := l.current + l.arrears);
        lines := lines[existing.value := l];
      } else {
        lines := lines + [Line(next + |lines|, c.citing[item], c.amounts[item], 0, c.amounts[item], |lines|)];
      }
      k := k + 1;
    }
  }

  lemma {:induction false} CarryCites(db: Db, lines: seq<Line>)
    ensures forall item | item in CarryAll(db, lines).items :: item in CarryAll(db, lines).amounts && item in CarryAll(db, lines).citing
  {
    if lines != [] {
      CarryCites(db, lines[..|lines| - 1]);
    }
  }

  /** The new bill's lines: one a kept assessment, then the arrears of the bills swept up. */
  method BuildLines(store: Store, r: IssueRequest, m: Merge, today: int) returns (lines: seq<Line>)
    requires InTable(r.openBills, |store.bills|) && NoRepeats(r.openBills) && InTable(m.kept, |m.table|)
    requires forall b, l | b in store.bills && l in b.lines :: l.assessment < |store.assessments|
    modifies store
    ensures lines == NewLines(old(store.Rows()), r, m)
    ensures store.Rows() == old(store.Rows()).(bills :=
              if r.rollArrears then SupersedeAll(old(store.bills), r.openBills, |old(store.bills)|, today) else old(store.bills))
  {
    hide SupersedeAll, PriorLines, CarryAll, Place, FreshLines;
    var next := |store.lineBill|;
    lines := FreshLines(m.table, m.kept, next);
    if r.rollArrears {
      CarryCites(store.Rows(), PriorLines(store.bills, r.openBills));
      var c := RollArrears(store, r.openBills, |store.bills|, today);
      lines := PlaceArrears(m.table, lines, c, next);
    }
  }

  /** The second half of `issue_bill`, from the new bill's row on. */
  method WriteBill(store: Store, r: IssueRequest, m: Merge, clock: Clock) returns (n: nat)
    requires InTable(r.openBills, |store.bills|) && NoRepeats(r.openBills) && InTable(m.kept, |m.table|)
    requires forall b, l | b in store.bills && l in b.lines :: l.assessment < |store.assessments|
    modifies store
    ensures store.Rows() == IssueMerged(old(store.Rows()), r, m, clock) && n == |old(store.bills)|
  {
    hide NewLines, Recompute, NewBill;
    n := |store.bills|;
    var lines := BuildLines(store, r, m, clock.day);
    store.bills := store.bills + [NewBill(r, lines, clock)];
    store.assessments := Mark(Mark(m.table, m.dropped, AssessmentStatus.Voided), m.kept, AssessmentStatus.Billed);
    store.lineBill := store.lineBill + seq(|lines|, _ => n);
    RecomputeBill(store, n, clock.day);
  }

  /** The first half of `issue_bill`: every check and the merge loop. */
  method PrepareBill(store: Store, r: IssueRequest, clock: Clock) returns (m: Result<Merge, Fault>)
    requires InTable(r.drafts, |store.assessments|)
    ensures m == Prepare(store.Rows(), r, clock)
  {
    if !r.rollArrears {
      var existing := OpenThisYear(store.bills, r.payer, clock.year);
      if existing.Some? && !r.force {
        return Err(DuplicateBill(existing.value));
      }
    }
    var priced := PriceEntries(r.payer, r.orders);
    if priced.Err? {
      return Err(priced.error);
    }
    var merged := MergeAssessments(Refs(store.Rows(), r, |priced.value|), store.assessments + priced.value);
    if merged.kept == [] && !r.rollArrears {
      return Err(BillingError);
    }
    m := Ok(merged);
  }

  method IssueBill(store: Store, r: IssueRequest, clock: Clock) returns (result: Result<nat, Fault>)
    requires InTable(r.drafts, |store.assessments|) && InTable(r.openBills, |store.bills|) && NoRepeats(r.openBills)
    requires forall b, l | b in store.bills && l in b.lines :: l.assessment < |store.assessments|
    modifies store
    ensures match Issue(old(store.Rows()), r, clock)
            case Ok(db) => store.Rows() == db && result == Ok(|old(store.bills)|)
            case Err(e) => store.Rows() == old(store.Rows()) && result == Err(e)
  {
    var m := PrepareBill(store, r, clock);
    if m.Err? {
      return Err(m.error);
    }
    var n := WriteBill(store, r, m.value, clock);
    result := Ok(n);
  }

  lemma ReplacedLineIsThere(lines: seq<Line>, l: Line, l': Line)
    requires l in lines && l'.id == l.id
    ensures l' in ReplaceLine(lines, l')
  {
    var j :| 0 <= j < |lines| && lines[j] == l;
    assert ReplaceLine(lines, l')[j] == l';
  }

  /** Returns the line the charge ended on: the one it was merged into, or a new one. */
  method AddBillLine(store: Store, b: nat, o: Order, today: int) returns (r: Result<Line, Fault>)
    requires b < |store.bills|
    modifies store
    ensures match AddLine(old(store.Rows()), b, o, today)
            case Ok(db) =>
              && store.Rows() == db && r.Ok? && r.value in db.bills[b].lines
              && var target := MergeTarget(old(store.Rows()), b, o);
                 r.value.id == if target.Some? then target.value.id else |old(store.lineBill)|
            case Err(e) => store.Rows() == old(store.Rows()) && r == Err(e)
  {
    hide Sum, LinePaid, Walk, MatchingLine, Recompute, NextPosition;
    var price := Price(o);
    if price.Err? {
      return Err(price.error);
    }
    var bill := store.bills[b];
    var added := NewAssessment(bill.payer, o, price.value);
    var existing := MatchingLine(store.assessments, Walk(bill.lines), Key(o.item.id, CallerBand(o), CallerTier(o)));
    if existing.Some? {
      var l := existing.value;
      var grown := store.assessments[l.assessment];
      grown := grown.(quantity := grown.quantity + added.quantity, amount := grown.amount + added.amount);
      store.assessments := store.assessments[l.assessment := grown] + [added.(status := AssessmentStatus.Voided)];
      var l' := l.(current := grown.amount, amount := grown.amount + l.arrears);
      WalkMembers(bill.lines);
      ReplacedLineIsThere(bill.lines, l, l');
      store.bills := store.bills[b := bill.(lines := ReplaceLine(bill.lines, l'))];
      r := Ok(l');
    } else {
      var l := Line(|store.lineBill|, |store.assessments|, added.amount, added.amount, 0, NextPosition(bill.lines));
      store.assessments := store.assessments + [added.(status := AssessmentStatus.Billed)];
      store.bills := store.bills[b := bill.(lines := bill.lines + [l])];
      store.lineBill := store.lineBill + [b];
      r := Ok(l);
    }
    RecomputeKeepsLines(store.bills[b], today);
    RecomputeBill(store, b, today);
  }

  lemma RecomputeKeepsLines(b: Bill, today: int)
    ensures Recompute(b, today).lines == b.lines
  {
  }

  /** Returns the edited line. */
  method UpdateBillLine(store: Store, b: nat, j: nat, amount: int, today: int) returns (r: Result<Line, Fault>)
    requires b < |store.bills| && j < |store.bills[b].lines| && store.bills[b].lines[j].assessment < |store.assessments|
    modifies store
    ensures match UpdateLine(old(store.Rows()), b, j, amount, today)
            case Ok(db) => store.Rows() == db && j < |db.bills[b].lines| && r == Ok(db.bills[b].lines[j])
            case Err(e) => store.Rows() == old(store.Rows()) && r == Err(e)
  {
    var l := store.bills[b].lines[j];
    if amount <= 0 || amount < l.arrears {
      return Err(BillingError);
    }
    l := l.(current := amount - l.arrears, amount := amount);
    store.bills := store.bills[b := store.bills[b].(lines := store.bills[b].lines[j := l])];
    store.assessments := store.assessments[l.assessment := store.assessments[l.assessment].(amount := l.current)];
    RecomputeBill(store, b, today);
    r := Ok(l);
  }

  method DeleteBillLine(store: Store, b: nat, j: nat, today: int) returns (r: Result<nat, Fault>)
    requires b < |store.bills| && j < |store.bills[b].lines| && store.bills[b].lines[j].assessment < |store.assessments|
    modifies store
    ensures match DeleteLine(old(store.Rows()), b, j, today)
            case Ok(db) => store.Rows() == db && r == Ok(b)
            case Err(e) => store.Rows() == old(store.Rows()) && r == Err(e)
  {
    var l := store.bills[b].lines[j];
    if HasAllocations(store.Rows(), l.id) || |store.bills[b].lines| <= 1 {
      return Err(BillingError);
    }
    store.assessments :=
      store.assessments[l.assessment := store.assessments[l.assessment].(status := AssessmentStatus.Voided)];
    store.bills := store.bills[b := store.bills[b].(lines := store.bills[b].lines[..j] + store.bills[b].lines[j + 1..])];
    RecomputeBill(store, b, today);
    r := Ok(b);
  }
}
