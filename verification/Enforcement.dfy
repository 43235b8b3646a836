/** Debt ageing and the enforcement ladder. */
module Enforcement {
  import opened Prelude
  import opened Sums
  import opened Tables

  const LADDER: seq<Stage> := [NoNotice, FirstNotice, FinalNotice, Enforced, Legal, Closed]

  function BucketFor(days: int): Bucket {
    if days <= 30 then UpTo30 else if days <= 60 then UpTo60 else if days <= 90 then UpTo90 else Over90
  }

  /** `ladder.index(stage)`. */
  function Rung(stage: Stage): (i: nat)
    ensures i < |LADDER| && LADDER[i] == stage
  {
    match stage
    case NoNotice => 0
    case FirstNotice => 1
    case FinalNotice => 2
    case Enforced => 3
    case Legal => 4
    case Closed => 5
  }

  /** `close_debt_case_for_bill` on one bill row. */
  function CloseCase(b: Bill, today: int): Bill {
    match b.debtCase
    case Some(c) =>
      if c.stage == Closed then b else b.(debtCase := Some(c.(stage := Closed, closedOn := Some(today))))
    case None => b
  }

  predicate Ageing(b: Bill, today: int) {
    Collectable(b.status) && b.dueOn < today
  }

  predicate Opens(b: Bill, today: int) {
    Ageing(b, today) && b.debtCase.None?
  }

  predicate Rebuckets(b: Bill, today: int) {
    && Ageing(b, today) && b.debtCase.Some?
    && b.debtCase.value.bucket != BucketFor(today - b.dueOn) && b.debtCase.value.stage != Closed
  }

  function RefreshBill(b: Bill, today: int): Bill {
    if !Ageing(b, today) then b else
    var b1 := if b.status != Overdue then b.(status := Overdue, updatedOn := today) else b;
    if Opens(b, today) then
      b1.(debtCase := Some(DebtCase(BucketFor(today - b.dueOn), FirstNotice, 0, None)))
    else if Rebuckets(b, today) then
      b1.(debtCase := Some(b.debtCase.value.(bucket := BucketFor(today - b.dueOn))))
    else b1
  }

  function Refresh(db: Db, today: int): Db {
    db.(bills := seq(|db.bills|, i requires 0 <= i < |db.bills| => RefreshBill(db.bills[i], today)))
  }

  function Count(bills: seq<Bill>, p: Bill -> bool): int {
    Sum(bills, (b: Bill) => if p(b) then 1 else 0)
  }

  function EscalateCase(c: DebtCase, today: int): Result<DebtCase, Fault> {
    var i := Rung(c.stage);
    if i >= |LADDER| - 1 then Err(AlreadyAtFinalStage)
    else
      var next := LADDER[i + 1];
      Ok(c.(stage := next, reminders := c.reminders + 1, closedOn := if next == Closed then Some(today) else c.closedOn))
  }

  function Escalate(db: Db, bill: nat, today: int): Result<Db, Fault>
    requires bill < |db.bills| && db.bills[bill].debtCase.Some?
  {
    match EscalateCase(db.bills[bill].debtCase.value, today)
    case Ok(c) => Ok(db.(bills := db.bills[bill := db.bills[bill].(debtCase := Some(c))]))
    case Err(e) => Err(e)
  }

  // ---- services ----

  method CloseDebtCaseForBill(store: Store, bill: nat, today: int)
    requires bill < |store.bills|
    modifies store
    ensures store.Rows() == old(store.Rows()).(bills := old(store.bills)[bill := CloseCase(old(store.bills)[bill], today)])
  {
    var b := store.bills[bill];
    if b.debtCase.Some? && b.debtCase.value.stage != Closed {
      b := b.(debtCase := Some(b.debtCase.value.(stage := Closed, closedOn := Some(today))));
    }
    store.bills := store.bills[bill := b];
  }

  /** The body of the ageing loop, for one bill row. */
  method RefreshOne(b: Bill, today: int) returns (r: Bill, opens: bool, rebuckets: bool)
    ensures r == RefreshBill(b, today) && opens == Opens(b, today) && rebuckets == Rebuckets(b, today)
  {
    r, opens, rebuckets := b, false, false;
    if Collectable(b.status) && b.dueOn < today {
      if r.status != Overdue {
        r := r.(status := Overdue, updatedOn := today);
      }
      var bucket := BucketFor(today - b.dueOn);
      if r.debtCase.None? {
        r := r.(debtCase := Some(DebtCase(bucket, FirstNotice, 0, None)));
        opens := true;
      } else if r.debtCase.value.bucket != bucket && r.debtCase.value.stage != Closed {
        r := r.(debtCase := Some(r.debtCase.value.(bucket := bucket)));
        rebuckets := true;
      }
    }
  }

  lemma CountNext(bills: seq<Bill>, i: nat, p: Bill -> bool)
    requires i < |bills|
    ensures Count(bills[..i + 1], p) == Count(bills[..i], p) + if p(bills[i]) then 1 else 0
  {
    assert bills[..i + 1] == bills[..i] + [bills[i]];
    SumPush(bills[..i], bills[i], (b: Bill) => if p(b) then 1 else 0);
  }

  method RefreshDebt(store: Store, today: int) returns (newCases: int, rebucketed: int)
    modifies store
    ensures store.Rows() == Refresh(old(store.Rows()), today)
    ensures newCases == Count(old(store.bills), (b: Bill) => Opens(b, today))
    ensures rebucketed == Count(old(store.bills), (b: Bill) => Rebuckets(b, today))
  {
    ghost var before := store.bills;
    ghost var isNew := (b: Bill) => Opens(b, today);
    ghost var isMoved := (b: Bill) => Rebuckets(b, today);
    newCases, rebucketed := 0, 0;
    var i := 0;
    while i < |store.bills|
      invariant i <= |store.bills| == |before|
      invariant store.Rows() == old(store.Rows()).(bills := store.bills)
      invariant forall k | 0 <= k < i :: store.bills[k] == RefreshBill(before[k], today)
      invariant forall k | i <= k < |before| :: store.bills[k] == before[k]
      invariant newCases == Count(before[..i], isNew) && rebucketed == Count(before[..i], isMoved)
    {
      hide Count, RefreshBill, Opens, Rebuckets;
      var b, opens, moves := RefreshOne(store.bills[i], today);
      store.bills := store.bills[i := b];
      CountNext(before, i, isNew);
      CountNext(before, i, isMoved);
      newCases := newCases + if opens then 1 else 0;
      rebucketed := rebucketed + if moves then 1 else 0;
      i := i + 1;
    }
    assert before[..i] == before;
  }

  method EscalateDebt(store: Store, bill: nat, today: int) returns (r: Result<Stage, Fault>)
    requires bill < |store.bills| && store.bills[bill].debtCase.Some?
    modifies store
    ensures match Escalate(old(store.Rows()), bill, today)
            case Ok(db) => store.Rows() == db && r == Ok(db.bills[bill].debtCase.value.stage)
            case Err(e) => store.Rows() == old(store.Rows()) && r == Err(e)
  {
    var c := store.bills[bill].debtCase.value;
    var i := Rung(c.stage);
    if i >= |LADDER| - 1 {
      return Err(AlreadyAtFinalStage);
    }
    c := c.(stage := LADDER[i + 1], reminders := c.reminders + 1);
    if c.stage == Closed {
      c := c.(closedOn := Some(today));
    }
    store.bills := store.bills[bill := store.bills[bill].(debtCase := Some(c))];
    r := Ok(c.stage);
  }
}
