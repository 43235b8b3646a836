/** A bill's whole history holds the lines of every bill that reached it by consolidation, each once. */
module History {
  import opened Prelude
  import opened Sums
  import opened Tables
  import opened Billing
  import Ledger

  /** Following successors from bill `c` one comes to bill `b`. */
  ghost predicate Reaches(bills: seq<Bill>, c: nat, b: nat)
    decreases if c < |bills| then |bills| - c else 0
  {
    c == b || (c < |bills| && bills[c].successor.Some? && bills[c].successor.value > c && Reaches(bills, bills[c].successor.value, b))
  }

  /** It comes to `b` through one of its children before `n`. */
  ghost predicate Through(bills: seq<Bill>, c: nat, b: nat, n: nat) {
    exists p :: 0 <= p < n && IsSupersededBy(bills, p, b) && Reaches(bills, c, p)
  }

  lemma {:induction false} ReachesForward(bills: seq<Bill>, c: nat, b: nat)
    requires Reaches(bills, c, b)
    ensures c <= b
    decreases if c < |bills| then |bills| - c else 0
  {
    if c != b { ReachesForward(bills, bills[c].successor.value, b); }
  }

  /** To come to `b` from elsewhere is to come through one of its children, all of them earlier. */
  lemma {:induction false} ReachesThroughAChild(bills: seq<Bill>, c: nat, b: nat)
    requires Forest(bills) && c != b
    ensures Reaches(bills, c, b) <==> Through(bills, c, b, b)
    decreases if c < |bills| then |bills| - c else 0
  {
    if Reaches(bills, c, b) {
      var s := bills[c].successor.value;
      ReachesForward(bills, s, b);
      if s == b {
        assert IsSupersededBy(bills, c, b) && Reaches(bills, c, c);
      } else {
        ReachesThroughAChild(bills, s, b);
        var p :| 0 <= p < b && IsSupersededBy(bills, p, b) && Reaches(bills, s, p);
        assert Reaches(bills, c, p);
      }
    }
    if Through(bills, c, b, b) {
      var p :| 0 <= p < b && IsSupersededBy(bills, p, b) && Reaches(bills, c, p);
      ChildReaches(bills, c, p, b);
    }
  }

  lemma {:induction false} ChildReaches(bills: seq<Bill>, c: nat, p: nat, b: nat)
    requires Forest(bills) && IsSupersededBy(bills, p, b) && Reaches(bills, c, p)
    ensures Reaches(bills, c, b)
    decreases if c < |bills| then |bills| - c else 0
  {
    if c != p { ChildReaches(bills, bills[c].successor.value, p, b); }
  }

  /** There is one way to come to `b`: two children of it are not on one path. */
  lemma {:induction false} OneChildOnly(bills: seq<Bill>, c: nat, p: nat, q: nat, b: nat)
    requires Forest(bills) && IsSupersededBy(bills, p, b) && IsSupersededBy(bills, q, b)
    requires Reaches(bills, c, p) && Reaches(bills, c, q)
    ensures p == q
    decreases if c < |bills| then |bills| - c else 0
  {
    ReachesForward(bills, c, p);
    ReachesForward(bills, c, q);
    if c == p {
      if c != q { ReachesForward(bills, b, q); }
    } else if c == q {
      ReachesForward(bills, b, p);
    } else {
      OneChildOnly(bills, bills[c].successor.value, p, q, b);
    }
  }

  function LinesOf(bills: seq<Bill>, f: Line -> int): nat -> int {
    (c: nat) => if c < |bills| then Sum(bills[c].lines, f) else 0
  }

  /** What `f` comes to on the lines of the bills that reach `b`. */
  ghost function OnReaching(bills: seq<Bill>, b: nat, f: Line -> int): nat -> int {
    (c: nat) => if Reaches(bills, c, b) then LinesOf(bills, f)(c) else 0
  }

  ghost function OnThrough(bills: seq<Bill>, b: nat, n: nat, f: Line -> int): nat -> int {
    (c: nat) => if Through(bills, c, b, n) then LinesOf(bills, f)(c) else 0
  }

  lemma WalkSums(lines: seq<Line>, f: Line -> int)
    requires Ledger.LinesOk(lines)
    ensures Sum(Walk(lines), f) == Sum(lines, f)
  {
    WalkIsCreationOrder(lines);
  }

  lemma {:induction false} BelowSums(bills: seq<Bill>, b: nat, n: nat, f: Line -> int)
    requires Forest(bills) && Ledger.BillsOk(bills) && n <= b < |bills|
    ensures Sum(LinesBelow(bills, b, n), f) == Sum<nat>(UpTo(|bills|), OnThrough(bills, b, n, f))
    decreases b, 0, n
  {
    hide Ledger.BillsOk, OnThrough, OnReaching, Forest, AllLines, Sum;
    if n == 0 {
      NothingThrough(bills, b, f);
      SumZero(LinesBelow(bills, b, n), f);
    } else {
      BelowSums(bills, b, n - 1, f);
      ChildAdds(bills, b, n, f);
      var hanging := if IsSupersededBy(bills, n - 1, b) then AllLines(bills, n - 1) else [];
      SumConcat(LinesBelow(bills, b, n - 1), hanging, f);
      if IsSupersededBy(bills, n - 1, b) { HistorySums(bills, n - 1, f); } else { SumZero(hanging, f); }
    }
  }

  lemma NothingThrough(bills: seq<Bill>, b: nat, f: Line -> int)
    ensures Sum<nat>(UpTo(|bills|), OnThrough(bills, b, 0, f)) == 0
  {
    hide Reaches, LinesOf;
    forall c: nat | c in UpTo(|bills|) ensures OnThrough(bills, b, 0, f)(c) == 0 {
      assert !Through(bills, c, b, 0);
    }
    SumZero<nat>(UpTo(|bills|), OnThrough(bills, b, 0, f));
  }

  /** One child more brings in the bills that reach it, and none that came through another. */
  lemma ChildAdds(bills: seq<Bill>, b: nat, n: nat, f: Line -> int)
    requires Forest(bills) && 0 < n
    ensures Sum<nat>(UpTo(|bills|), OnThrough(bills, b, n, f))
            == Sum<nat>(UpTo(|bills|), OnThrough(bills, b, n - 1, f))
               + if IsSupersededBy(bills, n - 1, b) then Sum<nat>(UpTo(|bills|), OnReaching(bills, n - 1, f)) else 0
  {
    hide Reaches, Through, LinesOf, Forest;
    forall c: nat | c in UpTo(|bills|)
      ensures OnThrough(bills, b, n, f)(c)
              == OnThrough(bills, b, n - 1, f)(c) + if IsSupersededBy(bills, n - 1, b) then OnReaching(bills, n - 1, f)(c) else 0 {
      ThroughStep(bills, c, b, n);
    }
    if IsSupersededBy(bills, n - 1, b) {
      SumAdd<nat>(UpTo(|bills|), OnThrough(bills, b, n - 1, f), OnReaching(bills, n - 1, f), OnThrough(bills, b, n, f));
    } else {
      SumSame<nat>(UpTo(|bills|), OnThrough(bills, b, n, f), OnThrough(bills, b, n - 1, f));
    }
  }

  lemma ThroughStep(bills: seq<Bill>, c: nat, b: nat, n: nat)
    requires Forest(bills) && 0 < n
    ensures Through(bills, c, b, n) <==>
              Through(bills, c, b, n - 1) || (IsSupersededBy(bills, n - 1, b) && Reaches(bills, c, n - 1))
    ensures !(Through(bills, c, b, n - 1) && IsSupersededBy(bills, n - 1, b) && Reaches(bills, c, n - 1))
  {
    hide Reaches;
    if Through(bills, c, b, n - 1) && IsSupersededBy(bills, n - 1, b) && Reaches(bills, c, n - 1) {
      var p :| 0 <= p < n - 1 && IsSupersededBy(bills, p, b) && Reaches(bills, c, p);
      OneChildOnly(bills, c, p, n - 1, b);
    }
  }

  lemma {:induction false} HistorySums(bills: seq<Bill>, b: nat, f: Line -> int)
    requires Forest(bills) && Ledger.BillsOk(bills) && b < |bills|
    ensures Sum(AllLines(bills, b), f) == Sum<nat>(UpTo(|bills|), OnReaching(bills, b, f))
    decreases b, 1, 0
  {
    hide Reaches;
    BelowSums(bills, b, b, f);
    assert Ledger.BillOk(bills[b]);
    WalkSums(bills[b].lines, f);
    SumConcat(Walk(bills[b].lines), LinesBelow(bills, b, b), f);
    var own := OnlyAt(b, LinesOf(bills, f));
    assert UpTo(|bills|)[b] == b;
    SumPick<nat>(UpTo(|bills|), b, own);
    forall c: nat | c in UpTo(|bills|) ensures OnReaching(bills, b, f)(c) == own(c) + OnThrough(bills, b, b, f)(c) {
      if c == b { NotThroughItself(bills, b); SelfReaches(bills, b); } else { ReachesThroughAChild(bills, c, b); }
    }
    SumAdd<nat>(UpTo(|bills|), own, OnThrough(bills, b, b, f), OnReaching(bills, b, f));
  }

  lemma SelfReaches(bills: seq<Bill>, b: nat)
    ensures Reaches(bills, b, b)
  {
  }

  lemma NotThroughItself(bills: seq<Bill>, b: nat)
    ensures !Through(bills, b, b, b)
  {
    hide Reaches;
    if Through(bills, b, b, b) {
      var p :| 0 <= p < b && IsSupersededBy(bills, p, b) && Reaches(bills, b, p);
      ReachesForward(bills, b, p);
    }
  }

  /** On every reachable ledger, whatever one adds up over a bill's history is added up once over the lines of each bill that
      reached it through any number of consolidations, itself included, and over no other line. */
  lemma HistoryIsEveryLineOnce(payers: nat, moves: seq<Ledger.Move>, b: nat, f: Line -> int)
    requires b < |Ledger.Run(Empty(payers), moves).bills|
    ensures var bills := Ledger.Run(Empty(payers), moves).bills;
            Sum(AllLines(bills, b), f) == Sum<nat>(UpTo(|bills|), OnReaching(bills, b, f))
  {
    hide Ledger.MoneyOk, Ledger.Run;
    Ledger.EveryRunKeepsInv(payers, moves);
    var db := Ledger.Run(Empty(payers), moves);
    forall i | 0 <= i < |db.bills| && db.bills[i].successor.Some? ensures i < db.bills[i].successor.value < |db.bills| {
      assert Ledger.BillLinked(db, i);
    }
    HistorySums(db.bills, b, f);
  }
}
