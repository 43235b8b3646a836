/** The rows the billing and payment services read and write.
    A row's id is its index in its table: ids are handed out in order and, lines apart, rows are never removed.
    Amounts are integers in a unit small enough for price times quantity to be exact. */
module Tables {
  import opened Prelude
  import opened Sums

  datatype AssessmentStatus = Draft | Approved | Billed | Voided

  datatype Assessment = Assessment(
    payer: nat, item: nat, band: Option<nat>, tier: Option<nat>,
    quantity: int, amount: int, status: AssessmentStatus)

  datatype BillStatus = Issued | PartPaid | Paid | Overdue | Cancelled | Superseded

  /** `amount` is `line_amount`: what was charged this cycle plus what was carried over. */
  datatype Line = Line(id: nat, assessment: nat, amount: int, current: int, arrears: int, position: nat)

  datatype Bucket = UpTo30 | UpTo60 | UpTo90 | Over90

  datatype Stage = NoNotice | FirstNotice | FinalNotice | Enforced | Legal | Closed

  datatype DebtCase = DebtCase(bucket: Bucket, stage: Stage, reminders: nat, closedOn: Option<int>)

  /** `updatedOn` is the day of the last write that went through `updated_at`;
      `successor` is `superseded_by`. */
  datatype Bill = Bill(
    payer: nat, lines: seq<Line>, total: int, paid: int, arrears: int, status: BillStatus,
    dueOn: int, year: int, updatedOn: int, successor: Option<nat>, debtCase: Option<DebtCase>)

  datatype PaymentStatus = Pending | Confirmed | Failed | Reversed

  datatype Channel = PosTerminal | Otc | IbMb | Ussd | FirstMonie | Cash

  datatype Payment = Payment(
    id: nat, bill: nat, channel: Channel, ref: string, amount: int, status: PaymentStatus, postedOn: int)

  datatype Allocation = Allocation(payment: nat, line: nat, amount: int)

  datatype MatchStatus = Unmatched | Matched | Exception

  /** One row of the bank's feed. */
  datatype FeedRow = FeedRow(
    channel: Channel, ref: string, amount: int, receivedOn: int, status: MatchStatus, matched: Option<nat>)

  /** `credit[y]` is payer y's credit balance; `lineBill[i]` is the bill that line i was created on,
      so the next line id is its length. */
  datatype Db = Db(
    bills: seq<Bill>, assessments: seq<Assessment>, payments: seq<Payment>,
    allocations: seq<Allocation>, credit: seq<int>, lineBill: seq<nat>)

  /** The database the services write to, one field a table. */
  class Store {
    var bills: seq<Bill>
    var assessments: seq<Assessment>
    var payments: seq<Payment>
    var allocations: seq<Allocation>
    var credit: seq<int>
    var lineBill: seq<nat>

    constructor (payers: nat)
      ensures Rows() == Empty(payers)
    {
      bills, assessments, payments, allocations := [], [], [], [];
      credit, lineBill := seq(payers, _ => 0), [];
    }

    function Rows(): Db
      reads this
    {
      Db(bills, assessments, payments, allocations, credit, lineBill)
    }

    /** Rolls the tables back to a savepoint. */
    method Restore(db: Db)
      modifies this
      ensures Rows() == db
    {
      bills, assessments, payments := db.bills, db.assessments, db.payments;
      allocations, credit, lineBill := db.allocations, db.credit, db.lineBill;
    }
  }

  function Empty(payers: nat): Db {
    Db([], [], [], [], seq(payers, _ => 0), [])
  }

  predicate Terminal(s: BillStatus) {
    s == Cancelled || s == Superseded
  }

  /** The statuses a consolidation sweeps up and debt ageing looks at. */
  predicate Collectable(s: BillStatus) {
    s == Issued || s == PartPaid || s == Overdue
  }

  function AmountOf(l: Line): int { l.amount }

  function CurrentOf(l: Line): int { l.current }

  function ArrearsOf(l: Line): int { l.arrears }

  function PaidOf(b: Bill): int { b.paid }

  function Itself(x: int): int { x }

  // ---- what has been paid ----

  predicate IsConfirmed(payments: seq<Payment>, p: nat) {
    p < |payments| && payments[p].status == Confirmed
  }

  /** `BillLine.paid_amount`: allocations to the line from confirmed payments. */
  function LinePaid(payments: seq<Payment>, allocations: seq<Allocation>, line: nat): int {
    Sum(allocations, (a: Allocation) => if a.line == line && IsConfirmed(payments, a.payment) then a.amount else 0)
  }

  /** Everything allocated by one payment, whatever its status. */
  function Applied(allocations: seq<Allocation>, payment: nat): int {
    Sum(allocations, (a: Allocation) => if a.payment == payment then a.amount else 0)
  }

  /** Everything confirmed payments to `bill` have put on lines. */
  function PaidOn(payments: seq<Payment>, allocations: seq<Allocation>, bill: nat): int {
    Sum(allocations, (a: Allocation) =>
      if IsConfirmed(payments, a.payment) && payments[a.payment].bill == bill then a.amount else 0)
  }

  function Outstanding(db: Db, l: Line): int {
    l.amount - LinePaid(db.payments, db.allocations, l.id)
  }

  // ---- the order in which a bill's lines are read ----

  predicate Before(l: Line, m: Line) {
    l.position < m.position || (l.position == m.position && l.id < m.id)
  }

  function Insert(s: seq<Line>, l: Line): seq<Line> {
    if s == [] || Before(s[|s| - 1], l) then s + [l]
    else Insert(s[..|s| - 1], l) + [s[|s| - 1]]
  }

  /** A bill's lines in the model's default ordering, by position and then id. */
  function Walk(lines: seq<Line>): seq<Line> {
    if lines == [] then [] else Insert(Walk(lines[..|lines| - 1]), lines[|lines| - 1])
  }

  ghost predicate Ordered(lines: seq<Line>) {
    forall i, j | 0 <= i < j < |lines| :: lines[i].id < lines[j].id && lines[i].position <= lines[j].position
  }

  lemma {:induction false} InsertKeeps(s: seq<Line>, l: Line)
    ensures multiset(Insert(s, l)) == multiset(s) + multiset{l}
  {
    if s == [] || Before(s[|s| - 1], l) {
    } else {
      var n := |s| - 1;
      InsertKeeps(s[..n], l);
      assert s == s[..n] + [s[n]];
    }
  }

  lemma {:induction false} InsertSorts(s: seq<Line>, l: Line)
    requires forall i, j | 0 <= i < j < |s| :: !Before(s[j], s[i])
    ensures forall i, j | 0 <= i < j < |Insert(s, l)| :: !Before(Insert(s, l)[j], Insert(s, l)[i])
  {
    if s == [] || Before(s[|s| - 1], l) {
    } else {
      var n := |s| - 1;
      InsertSorts(s[..n], l);
      InsertKeeps(s[..n], l);
      var t := Insert(s[..n], l);
      forall i | 0 <= i < |t| ensures !Before(s[n], t[i]) {
        assert t[i] in multiset(t);
        if t[i] != l {
          assert t[i] in s[..n];
          var j :| 0 <= j < n && s[j] == t[i];
        }
      }
      assert Insert(s, l) == t + [s[n]];
    }
  }

  /** The query really sorts: the same rows, by position and, where positions are equal, by id. */
  lemma {:induction false} WalkSorts(lines: seq<Line>)
    ensures multiset(Walk(lines)) == multiset(lines)
    ensures forall i, j | 0 <= i < j < |Walk(lines)| ::
              var l, m := Walk(lines)[i], Walk(lines)[j];
              l.position < m.position || (l.position == m.position && l.id <= m.id)
    ensures forall i, j | 0 <= i < j < |Walk(lines)| :: !Before(Walk(lines)[j], Walk(lines)[i])
  {
    if lines != [] {
      var n := |lines| - 1;
      WalkSorts(lines[..n]);
      InsertSorts(Walk(lines[..n]), lines[n]);
      InsertKeeps(Walk(lines[..n]), lines[n]);
      assert lines == lines[..n] + [lines[n]];
    }
  }

  /** While positions never fall from one line to the next, the walk is creation order,
      even where positions collide. */
  lemma {:induction false} WalkIsCreationOrder(lines: seq<Line>)
    requires Ordered(lines)
    ensures Walk(lines) == lines
  {
    if lines != [] {
      var n := |lines| - 1;
      assert Ordered(lines[..n]) by {
        forall i, j | 0 <= i < j < n ensures lines[..n][i].id < lines[..n][j].id && lines[..n][i].position <= lines[..n][j].position {
          assert lines[i].id < lines[j].id && lines[i].position <= lines[j].position;
        }
      }
      WalkIsCreationOrder(lines[..n]);
      assert n > 0 ==> Before(lines[n - 1], lines[n]);
      assert lines == lines[..n] + [lines[n]];
    }
  }
}
