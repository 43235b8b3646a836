/** What issuing a bill does: merging loses no charge, and consolidating arrears neither creates nor loses debt. */
module IssueLaws {
  import opened Prelude
  import opened Sums
  import opened Tables
  import opened Billing

  // ---- merging ----

  function AmountAt(table: seq<Assessment>): nat -> int {
    (id: nat) => if id < |table| then table[id].amount else 0
  }

  function QuantityAt(table: seq<Assessment>): nat -> int {
    (id: nat) => if id < |table| then table[id].quantity else 0
  }

  /** The rows of one key, by what `of` reads from a row. */
  function OfKey(table: seq<Assessment>, key: Key, of: nat -> int): nat -> int {
    (id: nat) => if id < |table| && KeyOf(table[id]) == key then of(id) else 0
  }

  /** The refs that meet a key for the first time, in order. */
  function Firsts(refs: seq<nat>, table: seq<Assessment>): seq<nat>
    requires InTable(refs, |table|)
  {
    if refs == [] then []
    else
      var init, id := refs[..|refs| - 1], refs[|refs| - 1];
      if exists j :: 0 <= j < |init| && KeyOf(table[init[j]]) == KeyOf(table[id]) then Firsts(init, table)
      else Firsts(init, table) + [id]
  }

  /** Merging rewrites only quantity and amount, and only on rows kept. */
  ghost predicate TouchesKept(m: Merge, table: seq<Assessment>) {
    && |m.table| == |table| && InTable(m.kept, |table|)
    && (forall i | 0 <= i < |table| :: m.table[i].(quantity := 0, amount := 0) == table[i].(quantity := 0, amount := 0))
    && (forall i | 0 <= i < |table| && i !in m.kept :: m.table[i] == table[i])
  }

  /** Kept rows are some of the refs and carry distinct keys; every ref's key has a kept row. */
  ghost predicate KeysCovered(m: Merge, refs: seq<nat>, table: seq<Assessment>)
    requires InTable(m.kept, |table|) && InTable(refs, |table|)
  {
    && (forall i | 0 <= i < |m.kept| :: m.kept[i] in refs)
    && (forall i, j | 0 <= i < j < |m.kept| :: KeyOf(table[m.kept[i]]) != KeyOf(table[m.kept[j]]))
    && (forall i | 0 <= i < |refs| :: HasKey(m.kept, table, KeyOf(table[refs[i]])))
  }

  ghost predicate HasKey(ids: seq<nat>, table: seq<Assessment>, key: Key) {
    exists i :: 0 <= i < |ids| && ids[i] < |table| && KeyOf(table[ids[i]]) == key
  }

  lemma TouchStep(m: Merge, table: seq<Assessment>, id: nat)
    requires TouchesKept(m, table) && id < |table|
    ensures TouchesKept(MergeOne(m, id), table)
    ensures FindKey(m.kept, m.table, KeyOf(m.table[id])).Some? <==> HasKey(m.kept, table, KeyOf(table[id]))
  {
    var r := FindKey(m.kept, m.table, KeyOf(m.table[id]));
    forall k | k in m.kept ensures k < |table| && KeyOf(m.table[k]) == KeyOf(table[k]) {
      var i :| 0 <= i < |m.kept| && m.kept[i] == k;
      assert m.table[k].(quantity := 0, amount := 0) == table[k].(quantity := 0, amount := 0);
    }
    assert m.table[id].(quantity := 0, amount := 0) == table[id].(quantity := 0, amount := 0);
  }

  lemma KeysStep(m: Merge, refs: seq<nat>, table: seq<Assessment>, id: nat)
    requires TouchesKept(m, table) && InTable(refs, |table|) && KeysCovered(m, refs, table) && id < |table|
    ensures InTable(MergeOne(m, id).kept, |table|) && KeysCovered(MergeOne(m, id), refs + [id], table)
  {
    TouchStep(m, table, id);
    var m', refs' := MergeOne(m, id), refs + [id];
    assert m.kept <= m'.kept;
    forall i | 0 <= i < |refs'| ensures HasKey(m'.kept, table, KeyOf(table[refs'[i]])) {
      if i < |refs| {
        assert refs'[i] == refs[i] && HasKey(m.kept, table, KeyOf(table[refs[i]]));
        var j :| 0 <= j < |m.kept| && KeyOf(table[m.kept[j]]) == KeyOf(table[refs[i]]);
        assert m'.kept[j] == m.kept[j];
      } else if |m'.kept| > |m.kept| {
        assert m'.kept[|m.kept|] == id;
      }
    }
    if |m'.kept| > |m.kept| {
      assert forall i | 0 <= i < |m.kept| :: KeyOf(table[m.kept[i]]) != KeyOf(table[id]);
    }
  }

  lemma {:induction false} MergeIsSound(refs: seq<nat>, table: seq<Assessment>)
    requires InTable(refs, |table|)
    ensures TouchesKept(MergeAll(refs, table), table) && KeysCovered(MergeAll(refs, table), refs, table)
  {
    if refs != [] {
      var init, id := refs[..|refs| - 1], refs[|refs| - 1];
      MergeIsSound(init, table);
      TouchStep(MergeAll(init, table), table, id);
      KeysStep(MergeAll(init, table), init, table, id);
      assert init + [id] == refs;
    }
  }

  /** The rows kept are the first of their key, in the order they were met. */
  lemma {:induction false} MergeKeepsFirsts(refs: seq<nat>, table: seq<Assessment>)
    requires InTable(refs, |table|)
    ensures MergeAll(refs, table).kept == Firsts(refs, table)
  {
    if refs != [] {
      var init, id := refs[..|refs| - 1], refs[|refs| - 1];
      var m0 := MergeAll(init, table);
      MergeKeepsFirsts(init, table);
      MergeIsSound(init, table);
      TouchStep(m0, table, id);
      if HasKey(m0.kept, table, KeyOf(table[id])) {
        var i :| 0 <= i < |m0.kept| && KeyOf(table[m0.kept[i]]) == KeyOf(table[id]);
        var j :| 0 <= j < |init| && init[j] == m0.kept[i];
        assert KeyOf(table[init[j]]) == KeyOf(table[id]);
      } else {
        forall j | 0 <= j < |init| ensures KeyOf(table[init[j]]) != KeyOf(table[id]) {
          assert HasKey(m0.kept, table, KeyOf(table[init[j]]));
        }
      }
    }
  }

  lemma PartitionStep(m: Merge, refs: seq<nat>, id: nat)
    requires id < |m.table| && InTable(m.kept, |m.table|)
    requires multiset(m.kept) + multiset(m.dropped) == multiset(refs)
    ensures multiset(MergeOne(m, id).kept) + multiset(MergeOne(m, id).dropped) == multiset(refs + [id])
  {
  }

  /** Every ref ends kept or dropped, once. */
  lemma {:induction false} MergePartitions(refs: seq<nat>, table: seq<Assessment>)
    requires InTable(refs, |table|)
    ensures multiset(MergeAll(refs, table).kept) + multiset(MergeAll(refs, table).dropped) == multiset(refs)
  {
    if refs != [] {
      var init, id := refs[..|refs| - 1], refs[|refs| - 1];
      MergePartitions(init, table);
      assert refs == init + [id];
      PartitionStep(MergeAll(init, table), init, id);
    }
  }

  /** What row `k` must hold: the whole amount and quantity its key was asked for. */
  ghost predicate HoldsKey(m: Merge, refs: seq<nat>, table: seq<Assessment>, k: nat)
    requires k < |table| == |m.table|
  {
    && m.table[k].amount == Sum(refs, OfKey(table, KeyOf(table[k]), AmountAt(table)))
    && m.table[k].quantity == Sum(refs, OfKey(table, KeyOf(table[k]), QuantityAt(table)))
  }

  lemma OfKeyStep(refs: seq<nat>, table: seq<Assessment>, key: Key, of: nat -> int, id: nat)
    requires id < |table|
    ensures Sum(refs + [id], OfKey(table, key, of)) == Sum(refs, OfKey(table, key, of)) + if KeyOf(table[id]) == key then of(id) else 0
  {
    SumPush(refs, id, OfKey(table, key, of));
  }

  lemma HoldStep(m: Merge, refs: seq<nat>, table: seq<Assessment>, id: nat, k: nat)
    requires InTable(refs, |table|) && TouchesKept(m, table) && KeysCovered(m, refs, table)
    requires id < |table| && id !in refs && k in MergeOne(m, id).kept && k < |table|
    requires k in m.kept ==> HoldsKey(m, refs, table, k)
    ensures HoldsKey(MergeOne(m, id), refs + [id], table, k)
  {
    hide Sum;
    TouchStep(m, table, id);
    var key := KeyOf(table[k]);
    OfKeyStep(refs, table, key, AmountAt(table), id);
    OfKeyStep(refs, table, key, QuantityAt(table), id);
    assert id !in m.kept by { assert forall i | 0 <= i < |m.kept| :: m.kept[i] in refs; }
    assert m.table[id] == table[id];
    if k in m.kept {
      var i :| 0 <= i < |m.kept| && m.kept[i] == k;
      var r := FindKey(m.kept, m.table, KeyOf(m.table[id]));
      if r.Some? {
        var j :| 0 <= j < |m.kept| && m.kept[j] == r.value;
        assert m.table[r.value].(quantity := 0, amount := 0) == table[r.value].(quantity := 0, amount := 0);
        if i < j { assert KeyOf(table[m.kept[i]]) != KeyOf(table[m.kept[j]]); }
        if j < i { assert KeyOf(table[m.kept[j]]) != KeyOf(table[m.kept[i]]); }
      } else {
        assert !HasKey(m.kept, table, KeyOf(table[id]));
      }
    } else {
      forall i | 0 <= i < |refs| ensures KeyOf(table[refs[i]]) != key {
        assert HasKey(m.kept, table, KeyOf(table[refs[i]]));
      }
      SumZero(refs, OfKey(table, key, AmountAt(table)));
      SumZero(refs, OfKey(table, key, QuantityAt(table)));
    }
  }

  lemma MemberInTable(ids: seq<nat>, n: nat, k: nat)
    requires InTable(ids, n) && k in ids
    ensures k < n
  {
  }

  /** Each kept row holds the whole amount and quantity asked for under its key. */
  lemma {:induction false} MergeTotalsEachKey(refs: seq<nat>, table: seq<Assessment>, k: nat)
    requires InTable(refs, |table|) && NoRepeats(refs) && k in MergeAll(refs, table).kept
    ensures k < |table| && HoldsKey(MergeAll(refs, table), refs, table, k)
  {
    var init, id := refs[..|refs| - 1], refs[|refs| - 1];
    MemberInTable(MergeAll(refs, table).kept, |table|, k);
    if k in MergeAll(init, table).kept {
      MergeTotalsEachKey(init, table, k);
    }
    assert init + [id] == refs && id !in init;
    MergeIsSound(init, table);
    HoldStep(MergeAll(init, table), init, table, id, k);
  }

  function KeyedShare(kept: seq<nat>, table: seq<Assessment>, of: nat -> int): (nat, nat) -> int {
    (k: nat, id: nat) => if k < |table| && id < |table| && KeyOf(table[id]) == KeyOf(table[k]) then of(id) else 0
  }

  lemma {:induction false} EachRefHasOneKept(kept: seq<nat>, table: seq<Assessment>, id: nat, i: nat, n: int)
    requires InTable(kept, |table|) && id < |table|
    requires forall i, j | 0 <= i < j < |kept| :: KeyOf(table[kept[i]]) != KeyOf(table[kept[j]])
    requires i < |kept| && KeyOf(table[kept[i]]) == KeyOf(table[id])
    ensures Sum(kept, (k: nat) => if k < |table| && KeyOf(table[id]) == KeyOf(table[k]) then n else 0) == n
  {
    forall j | 0 <= j < |kept| && j != i ensures KeyOf(table[kept[j]]) != KeyOf(table[id]) {
      if j < i { assert KeyOf(table[kept[j]]) != KeyOf(table[kept[i]]); } else { assert KeyOf(table[kept[i]]) != KeyOf(table[kept[j]]); }
    }
    SumPick(kept, i, (k: nat) => if k < |table| && KeyOf(table[id]) == KeyOf(table[k]) then n else 0);
  }

  /** The merge loop conserves the total amount (and, the same way, quantity): what the kept rows hold is what was
      asked for. */
  lemma MergeConserves(refs: seq<nat>, table: seq<Assessment>)
    requires InTable(refs, |table|) && NoRepeats(refs)
    ensures Sum(MergeAll(refs, table).kept, AmountAt(MergeAll(refs, table).table)) == Sum(refs, AmountAt(table))
    ensures Sum(MergeAll(refs, table).kept, QuantityAt(MergeAll(refs, table).table)) == Sum(refs, QuantityAt(table))
  {
    var m := MergeAll(refs, table);
    forall k | k in m.kept
      ensures AmountAt(m.table)(k) == Sum(refs, Row(KeyedShare(m.kept, table, AmountAt(table)), k))
      ensures QuantityAt(m.table)(k) == Sum(refs, Row(KeyedShare(m.kept, table, QuantityAt(table)), k))
    {
      MergeTotalsEachKey(refs, table, k);
      SumSame(refs, OfKey(table, KeyOf(table[k]), AmountAt(table)), Row(KeyedShare(m.kept, table, AmountAt(table)), k));
      SumSame(refs, OfKey(table, KeyOf(table[k]), QuantityAt(table)), Row(KeyedShare(m.kept, table, QuantityAt(table)), k));
    }
    MergeSpreads(refs, table, AmountAt(table));
    MergeSpreads(refs, table, QuantityAt(table));
    SumSwap(m.kept, refs, KeyedShare(m.kept, table, AmountAt(table)), AmountAt(m.table), AmountAt(table));
    SumSwap(m.kept, refs, KeyedShare(m.kept, table, QuantityAt(table)), QuantityAt(m.table), QuantityAt(table));
  }

  lemma MergeSpreads(refs: seq<nat>, table: seq<Assessment>, of: nat -> int)
    requires InTable(refs, |table|)
    ensures forall id | id in refs :: of(id) == Sum(MergeAll(refs, table).kept, Column(KeyedShare(MergeAll(refs, table).kept, table, of), id))
  {
    MergeIsSound(refs, table);
    forall id | id in refs ensures of(id) == Sum(MergeAll(refs, table).kept, Column(KeyedShare(MergeAll(refs, table).kept, table, of), id)) {
      SpreadOne(MergeAll(refs, table), refs, table, of, id);
    }
  }

  lemma SpreadOne(m: Merge, refs: seq<nat>, table: seq<Assessment>, of: nat -> int, id: nat)
    requires InTable(m.kept, |table|) && InTable(refs, |table|) && KeysCovered(m, refs, table) && id in refs
    ensures of(id) == Sum(m.kept, Column(KeyedShare(m.kept, table, of), id))
  {
    MemberInTable(refs, |table|, id);
    var r :| 0 <= r < |refs| && refs[r] == id;
    assert HasKey(m.kept, table, KeyOf(table[refs[r]]));
    var i :| 0 <= i < |m.kept| && KeyOf(table[m.kept[i]]) == KeyOf(table[refs[r]]);
    EachRefHasOneKept(m.kept, table, id, i, of(id));
    SumSame(m.kept, Column(KeyedShare(m.kept, table, of), id),
            (k: nat) => if k < |table| && KeyOf(table[id]) == KeyOf(table[k]) then of(id) else 0);
  }

  /** A row on `band` is charged between `lo` and `hi` for each unit. */
  predicate InRange(a: Assessment, band: nat, lo: nat, hi: nat) {
    a.band == Some(band) ==> lo * a.quantity <= a.amount <= hi * a.quantity
  }

  lemma AbsorbKeepsRange(kept: Assessment, a: Assessment, band: nat, lo: nat, hi: nat)
    requires InRange(kept, band, lo, hi) && InRange(a, band, lo, hi) && kept.band == a.band
    ensures InRange(Absorb(kept, a), band, lo, hi)
  {
    assert lo * (kept.quantity + a.quantity) == lo * kept.quantity + lo * a.quantity;
    assert hi * (kept.quantity + a.quantity) == hi * kept.quantity + hi * a.quantity;
  }

  /** Where every merged row is within a RANGE band's bounds, merging takes no row out of them, whatever other rows of the
      band hold. */
  lemma {:induction false} MergeKeepsRange(refs: seq<nat>, table: seq<Assessment>, band: nat, lo: nat, hi: nat)
    requires InTable(refs, |table|) && forall i | 0 <= i < |refs| :: InRange(table[refs[i]], band, lo, hi)
    ensures forall i | 0 <= i < |table| && InRange(table[i], band, lo, hi) :: InRange(MergeAll(refs, table).table[i], band, lo, hi)
  {
    if refs != [] {
      hide InRange;
      var init, id := refs[..|refs| - 1], refs[|refs| - 1];
      MergeKeepsRange(init, table, band, lo, hi);
      MergeIsSound(init, table);
      var m := MergeAll(init, table);
      var r := FindKey(m.kept, m.table, KeyOf(m.table[id]));
      if r.Some? {
        var i :| 0 <= i < |m.kept| && m.kept[i] == r.value;
        var j :| 0 <= j < |init| && init[j] == m.kept[i];
        assert InRange(table[refs[j]], band, lo, hi) && InRange(table[refs[|init|]], band, lo, hi);
        AbsorbKeepsRange(m.table[r.value], m.table[id], band, lo, hi);
      }
    }
  }

  /** What an issue takes in, once each, is drafts and the entries just priced. */
  lemma RefsAreUnbilled(db: Db, r: IssueRequest, priced: nat)
    requires QueriedOn(r, db)
    ensures NoRepeats(Refs(db, r, priced))
    ensures forall id | id in Refs(db, r, priced) :: id >= |db.assessments| || db.assessments[id].status == AssessmentStatus.Draft
  {
    QueriedInTable(r, db);
    var refs := Refs(db, r, priced);
    forall i | 0 <= i < |refs| ensures i >= priced ==> refs[i] in r.drafts {
    }
  }

  /** After an issue every assessment it took in is BILLED or CANCELLED, never both, and no other changes. */
  lemma IssueSettlesAssessments(db: Db, r: IssueRequest, refs: seq<nat>, table: seq<Assessment>, clock: Clock, id: nat)
    requires InTable(refs, |table|) && NoRepeats(refs) && id < |table| && InTable(r.openBills, |db.bills|)
    ensures var m := MergeAll(refs, table);
            var after := IssueMerged(db, r, m, clock).assessments[id];
            && (id in m.kept ==> id !in m.dropped && after.status == AssessmentStatus.Billed)
            && (id in m.dropped ==> id !in m.kept && after.status == AssessmentStatus.Voided)
            && (id in refs <==> id in m.kept || id in m.dropped)
            && (id !in refs ==> after == table[id])
  {
    var m := MergeAll(refs, table);
    MergePartitions(refs, table);
    MergeIsSound(refs, table);
    assert id in refs <==> id in multiset(m.kept) + multiset(m.dropped);
    assert id in m.kept <==> id in multiset(m.kept);
    assert id in m.dropped <==> id in multiset(m.dropped);
    OnceOnly(refs, id);
  }

  lemma {:induction false} OnceOnly(ids: seq<nat>, id: nat)
    requires NoRepeats(ids)
    ensures multiset(ids)[id] <= 1
  {
    if ids != [] {
      var n := |ids| - 1;
      OnceOnly(ids[..n], id);
      assert ids == ids[..n] + [ids[n]];
      assert ids[n] !in ids[..n];
    }
  }
}
