/** Rate history of a revenue item, its bands, and the pricing of one assessment. */
module Revenue {
  import opened Prelude

  datatype RateRow = RateRow(amount: nat, from: int, to: Option<int>)

  datatype RateMode = Flat | Range | Tiered

  datatype RateTier = RateTier(id: nat, band: nat, name: string, amount: nat)

  datatype RateBand = RateBand(
    id: nat, item: nat, name: string, mode: RateMode, flat: Option<nat>, min: Option<nat>, max: Option<nat>,
    tiers: seq<RateTier>, from: int, to: Option<int>)

  datatype ItemRates = ItemRates(id: nat, bands: seq<RateBand>, schedule: seq<RateRow>)

  /** The check constraint on the band table: which amount columns each mode fills. */
  predicate FieldsMatchMode(mode: RateMode, flat: Option<nat>, min: Option<nat>, max: Option<nat>) {
    match mode
    case Flat => flat.Some? && min.None? && max.None?
    case Range => flat.None? && min.Some? && max.Some?
    case Tiered => flat.None? && min.None? && max.None?
  }

  predicate BandFieldsOk(b: RateBand) {
    FieldsMatchMode(b.mode, b.flat, b.min, b.max)
  }

  type BandRow = b: RateBand | BandFieldsOk(b)
    witness RateBand(0, 0, "", Flat, Some(0), None, None, [], 0, None)

  // ---- pricing one assessment (create_draft_assessment) ----

  datatype Order = Order(
    item: ItemRates, quantity: int, band: Option<BandRow>, tier: Option<RateTier>, override: Option<nat>)

  /** What an assessment stores: the band and tier it was priced by, and the priced amount. */
  datatype Quote = Quote(band: Option<nat>, tier: Option<nat>, quantity: int, amount: int)

  predicate BandsActive(item: ItemRates) {
    exists i :: 0 <= i < |item.bands| && item.bands[i].to.None?
  }

  function CallerBand(o: Order): Option<nat> {
    if o.band.Some? then Some(o.band.value.id) else None
  }

  function CallerTier(o: Order): Option<nat> {
    if o.tier.Some? then Some(o.tier.value.id) else None
  }

  /** The first open row, or none. */
  function OpenRow(s: seq<RateRow>): (r: Option<nat>)
    ensures r.Some? ==> r.value < |s| && s[r.value].to.None?
    ensures r.None? ==> forall i | 0 <= i < |s| :: s[i].to.Some?
  {
    if s == [] then None
    else
      var r := OpenRow(s[..|s| - 1]);
      if r.Some? then r else if s[|s| - 1].to.None? then Some(|s| - 1) else None
  }

  function Price(o: Order): Result<Quote, Fault> {
    if o.quantity <= 0 then Err(BillingError)
    else if BandsActive(o.item) then
      if o.band.None? || o.band.value.item != o.item.id || o.band.value.to.Some? then Err(BillingError)
      else
        var b := o.band.value;
        match b.mode
        case Flat => Ok(Quote(Some(b.id), CallerTier(o), o.quantity, b.flat.value * o.quantity))
        case Range =>
          if o.override.None? || !(b.min.value <= o.override.value <= b.max.value) then Err(BillingError)
          else Ok(Quote(Some(b.id), None, o.quantity, o.override.value * o.quantity))
        case Tiered =>
          if o.tier.None? || o.tier.value.band != b.id then Err(BillingError)
          else Ok(Quote(Some(b.id), CallerTier(o), o.quantity, o.tier.value.amount * o.quantity))
    else
      var r := OpenRow(o.item.schedule);
      if r.None? then Err(BillingError)
      else Ok(Quote(None, None, o.quantity, o.item.schedule[r.value].amount * o.quantity))
  }

  lemma ProductNonNegative(a: nat, b: nat)
    ensures a * b >= 0
  {
  }

  /** A price is never negative, always for a positive quantity, and an assessment on a RANGE band
      is charged between the band's bounds for each unit. */
  lemma PricesWithinBounds(o: Order)
    requires Price(o).Ok?
    ensures Price(o).value.amount >= 0 && Price(o).value.quantity > 0
    ensures Price(o).value.band.Some? && o.band.value.mode == Range ==>
              o.band.value.min.value * o.quantity <= Price(o).value.amount <= o.band.value.max.value * o.quantity
  {
    if BandsActive(o.item) {
      var b := o.band.value;
      match b.mode
      case Flat => ProductNonNegative(b.flat.value, o.quantity);
      case Range =>
        ProductNonNegative(o.override.value, o.quantity);
        assert b.min.value * o.quantity <= o.override.value * o.quantity <= b.max.value * o.quantity;
      case Tiered => ProductNonNegative(o.tier.value.amount, o.quantity);
    } else {
      ProductNonNegative(o.item.schedule[OpenRow(o.item.schedule).value].amount, o.quantity);
    }
  }

  /** The key a priced assessment carries is the one its caller asked for, unless the caller named a band on an
      unbanded item or a tier on a RANGE band or an unbanded item. */
  lemma QuoteKeepsCallersKey(o: Order)
    requires Price(o).Ok?
    ensures (Price(o).value.band == CallerBand(o) && Price(o).value.tier == CallerTier(o))
            <==> if BandsActive(o.item) then o.band.value.mode == Range ==> o.tier.None?
                 else o.band.None? && o.tier.None?
  {
  }

  /** What an order must bring: a positive quantity and, where the item has an open band, an open band of that item with
      the amount or tier its mode asks for; without bands, an open rate. */
  ghost predicate Acceptable(o: Order) {
    && o.quantity > 0
    && if exists i :: 0 <= i < |o.item.bands| && o.item.bands[i].to.None?
       then
         && o.band.Some? && o.band.value.item == o.item.id && o.band.value.to.None?
         && (o.band.value.mode == Range ==>
               o.override.Some? && o.band.value.min.value <= o.override.value <= o.band.value.max.value)
         && (o.band.value.mode == Tiered ==> o.tier.Some? && o.tier.value.band == o.band.value.id)
       else exists i :: 0 <= i < |o.item.schedule| && o.item.schedule[i].to.None?
  }

  /** What a unit of an order costs: a FLAT band's amount, a RANGE band's chosen amount, the amount of the chosen tier, or the
      amount of an open rate with no open one before it. */
  ghost predicate UnitCosts(o: Order, unit: nat) {
    if exists i :: 0 <= i < |o.item.bands| && o.item.bands[i].to.None?
    then
      o.band.Some?
      && match o.band.value.mode
         case Flat => unit == o.band.value.flat.value
         case Range => o.override == Some(unit)
         case Tiered => o.tier.Some? && unit == o.tier.value.amount
    else
      exists i :: 0 <= i < |o.item.schedule| && o.item.schedule[i].to.None? && unit == o.item.schedule[i].amount
                  && forall j | 0 <= j < i :: o.item.schedule[j].to.Some?
  }

  /** An order is priced exactly when it brings that; any other is refused as a billing error. */
  lemma PricedIff(o: Order)
    ensures Price(o).Ok? <==> Acceptable(o)
    ensures Price(o).Err? ==> Price(o).error == BillingError
  {
  }

  lemma {:induction false} FirstOpenRow(s: seq<RateRow>)
    ensures OpenRow(s).Some? ==> forall j | 0 <= j < OpenRow(s).value :: s[j].to.Some?
  {
    if s != [] { FirstOpenRow(s[..|s| - 1]); }
  }

  /** And then it is charged what a unit costs times the quantity. */
  lemma PriceIsUnitTimesQuantity(o: Order) returns (unit: nat)
    requires Price(o).Ok?
    ensures UnitCosts(o, unit) && Price(o).value.amount == unit * o.quantity && Price(o).value.quantity == o.quantity
  {
    if exists i :: 0 <= i < |o.item.bands| && o.item.bands[i].to.None? {
      match o.band.value.mode
      case Flat => unit := o.band.value.flat.value;
      case Range => unit := o.override.value;
      case Tiered => unit := o.tier.value.amount;
    } else {
      var i := OpenRow(o.item.schedule).value;
      FirstOpenRow(o.item.schedule);
      unit := o.item.schedule[i].amount;
    }
  }

  lemma UnitIsUnique(o: Order, u: nat, v: nat)
    requires UnitCosts(o, u) && UnitCosts(o, v)
    ensures u == v
  {
    if !exists i :: 0 <= i < |o.item.bands| && o.item.bands[i].to.None? {
      var i :| 0 <= i < |o.item.schedule| && o.item.schedule[i].to.None? && u == o.item.schedule[i].amount
               && forall j | 0 <= j < i :: o.item.schedule[j].to.Some?;
      var k :| 0 <= k < |o.item.schedule| && o.item.schedule[k].to.None? && v == o.item.schedule[k].amount
               && forall j | 0 <= j < k :: o.item.schedule[j].to.Some?;
      assert !(i < k) && !(k < i);
    }
  }

  /** On an item without open bands, whose rates are a chain, the unit is the rate in force on any day from the last row's
      start on. */
  lemma UnbandedUnitIsTheRateInForce(o: Order, day: int, a: nat)
    requires !exists i :: 0 <= i < |o.item.bands| && o.item.bands[i].to.None?
    requires Price(o).Ok? && Chain(o.item.schedule) && o.item.schedule[|o.item.schedule| - 1].from <= day
    requires RateInForce(o.item.schedule, day, a)
    ensures Price(o).value.amount == a * o.quantity
  {
    var s := o.item.schedule;
    ChainOpensLast(s);
    var i :| 0 <= i < |s| && InForce(s[i].from, s[i].to, day) && s[i].amount == a;
    ChainHasNoOverlap(s, day, i, |s| - 1);
  }

  // ---- rate history ----

  predicate InForce(from: int, to: Option<int>, day: int) {
    from <= day && (to.None? || day < to.value)
  }

  function ChangeRow(s: seq<RateRow>, amount: nat, from: int): seq<RateRow> {
    var r := OpenRow(s);
    (if r.Some? then s[r.value := s[r.value].(to := Some(from))] else s) + [RateRow(amount, from, None)]
  }

  /** Each row ends where the next begins and only the last is open. */
  ghost predicate Chain(s: seq<RateRow>) {
    && (forall i | 0 <= i < |s| - 1 :: s[i].to == Some(s[i + 1].from) && s[i].from <= s[i + 1].from)
    && (s != [] ==> s[|s| - 1].to.None?)
  }

  ghost predicate RateInForce(s: seq<RateRow>, day: int, amount: nat) {
    exists i :: 0 <= i < |s| && InForce(s[i].from, s[i].to, day) && s[i].amount == amount
  }

  lemma ChainOpensLast(s: seq<RateRow>)
    requires Chain(s) && s != []
    ensures OpenRow(s) == Some(|s| - 1)
  {
    assert s[|s| - 1].to.None?;
    forall i | 0 <= i < |s| - 1 ensures s[i].to.Some? {
      assert s[i].to == Some(s[i + 1].from);
    }
  }

  /** A rate change keeps the rows in date order, each ending where the next begins, exactly when it does not start before
      the rate it replaces. */
  lemma ChangeKeepsChain(s: seq<RateRow>, amount: nat, from: int)
    requires Chain(s)
    ensures Chain(ChangeRow(s, amount, from)) <==> s == [] || s[|s| - 1].from <= from
  {
    var t := ChangeRow(s, amount, from);
    if s != [] {
      ChainOpensLast(s);
      var n := |s| - 1;
      assert t[n] == s[n].(to := Some(from)) && t[n + 1].from == from;
      if s[n].from <= from {
        forall i | 0 <= i < |t| - 1 ensures t[i].to == Some(t[i + 1].from) && t[i].from <= t[i + 1].from {
          if i < n { assert s[i].to == Some(s[i + 1].from); }
        }
      }
    }
  }

  lemma {:induction false} ChainStartsRise(s: seq<RateRow>, i: nat, j: nat)
    requires Chain(s) && i <= j < |s|
    ensures s[i].from <= s[j].from
  {
    if i < j {
      ChainStartsRise(s, i, j - 1);
      assert s[j - 1].to == Some(s[j].from);
    }
  }

  /** No overlap: on a chain at most one row is in force on any day. */
  lemma ChainHasNoOverlap(s: seq<RateRow>, day: int, i: nat, j: nat)
    requires Chain(s) && i < |s| && j < |s|
    requires InForce(s[i].from, s[i].to, day) && InForce(s[j].from, s[j].to, day)
    ensures i == j
  {
    if i < j {
      ChainStartsRise(s, i + 1, j);
    } else if j < i {
      ChainStartsRise(s, j + 1, i);
    }
  }

  /** No gap: from the first row's day on, some row of a chain is in force. */
  lemma {:induction false} ChainHasNoGap(s: seq<RateRow>, day: int, i: nat) returns (k: nat)
    requires Chain(s) && i < |s| && s[i].from <= day
    ensures i <= k < |s| && InForce(s[k].from, s[k].to, day)
    decreases |s| - i
  {
    k := i;
    if i < |s| - 1 && s[i + 1].from <= day {
      k := ChainHasNoGap(s, day, i + 1);
    }
  }

  /** No two rows are in force on the same day. */
  ghost predicate NoOverlap(s: seq<RateRow>) {
    forall day, i, j | 0 <= i < |s| && 0 <= j < |s| && InForce(s[i].from, s[i].to, day) && InForce(s[j].from, s[j].to, day) ::
      i == j
  }

  /** A change leaves two rates in force on some day exactly when it starts before the current rate and that rate had a
      predecessor that was ever in force. */
  lemma ChangeOverlapsIff(s: seq<RateRow>, amount: nat, from: int)
    requires Chain(s) && s != []
    ensures NoOverlap(ChangeRow(s, amount, from)) <==> s[|s| - 1].from <= from || s[0].from == s[|s| - 1].from
  {
    hide NoOverlap;
    if s[|s| - 1].from <= from {
      ChangeKeepsChain(s, amount, from);
      ChainIsNoOverlap(ChangeRow(s, amount, from));
    } else if s[0].from == s[|s| - 1].from {
      EmptyRowsDoNotOverlap(s, amount, from);
    } else {
      BackdatedOverlaps(s, amount, from);
    }
  }

  lemma ChainIsNoOverlap(s: seq<RateRow>)
    requires Chain(s)
    ensures NoOverlap(s)
  {
    forall day, i, j | 0 <= i < |s| && 0 <= j < |s| && InForce(s[i].from, s[i].to, day) && InForce(s[j].from, s[j].to, day)
      ensures i == j {
      ChainHasNoOverlap(s, day, i, j);
    }
  }

  lemma EmptyRowsDoNotOverlap(s: seq<RateRow>, amount: nat, from: int)
    requires Chain(s) && s != [] && from < s[|s| - 1].from == s[0].from
    ensures NoOverlap(ChangeRow(s, amount, from))
  {
    var t, n := ChangeRow(s, amount, from), |s| - 1;
    ChainOpensLast(s);
    forall day, i | 0 <= i < |t| && InForce(t[i].from, t[i].to, day) ensures i == n + 1 {
      if i <= n {
        ChainStartsRise(s, 0, i);
        ChainStartsRise(s, i, n);
        if i < n { ChainStartsRise(s, i + 1, n); }
      }
    }
  }

  lemma BackdatedOverlaps(s: seq<RateRow>, amount: nat, from: int)
    requires Chain(s) && s != [] && from < s[|s| - 1].from && s[0].from != s[|s| - 1].from
    ensures !NoOverlap(ChangeRow(s, amount, from))
  {
    var t, n := ChangeRow(s, amount, from), |s| - 1;
    ChainOpensLast(s);
    ChainStartsRise(s, 0, n);
    var day := if from < s[0].from then s[0].from else from;
    var k := ChainHasNoGap(s, day, 0);
    assert k < n && t[k] == s[k] && InForce(t[k].from, t[k].to, day);
    assert InForce(t[n + 1].from, t[n + 1].to, day);
  }

  const TWO_RATES: seq<RateRow> := [RateRow(100, 0, Some(10)), RateRow(200, 10, None)]

  /** Such a change: 100 up to day 10 and 200 since, then 300 from day 5 on. Day 7 has two prices. */
  lemma BackdatedChangeHasTwoPrices()
    ensures Chain(TWO_RATES)
    ensures RateInForce(ChangeRow(TWO_RATES, 300, 5), 7, 100) && RateInForce(ChangeRow(TWO_RATES, 300, 5), 7, 300)
  {
    ChainOpensLast(TWO_RATES);
    var t := ChangeRow(TWO_RATES, 300, 5);
    assert t[0] == RateRow(100, 0, Some(10)) && t[2] == RateRow(300, 5, None);
  }

  /** One change: earlier days keep their price; from its day on, on a chain, the new amount is the only price. */
  lemma ChangeSplitsHistory(s: seq<RateRow>, amount: nat, from: int, day: int, a: nat)
    requires day >= from ==> Chain(s) && (s == [] || s[|s| - 1].from <= from)
    ensures RateInForce(ChangeRow(s, amount, from), day, a)
            <==> if day < from then RateInForce(s, day, a) else a == amount
  {
    var t := ChangeRow(s, amount, from);
    var r := OpenRow(s);
    if day < from {
      forall i | 0 <= i < |s| ensures InForce(t[i].from, t[i].to, day) == InForce(s[i].from, s[i].to, day) && t[i].amount == s[i].amount {
        if r == Some(i) { assert t[i] == s[i].(to := Some(from)); } else { assert t[i] == s[i]; }
      }
      if RateInForce(s, day, a) {
        var i :| 0 <= i < |s| && InForce(s[i].from, s[i].to, day) && s[i].amount == a;
        assert InForce(t[i].from, t[i].to, day);
      }
    } else {
      ChangeKeepsChain(s, amount, from);
      assert InForce(t[|t| - 1].from, t[|t| - 1].to, day) && t[|t| - 1].amount == amount;
      if RateInForce(t, day, a) {
        var i :| 0 <= i < |t| && InForce(t[i].from, t[i].to, day) && t[i].amount == a;
        ChainHasNoOverlap(t, day, i, |t| - 1);
      }
    }
  }

  datatype RateChange = RateChange(amount: nat, from: int)

  function ChangeAll(s: seq<RateRow>, changes: seq<RateChange>): seq<RateRow> {
    if changes == [] then s
    else
      var last := changes[|changes| - 1];
      ChangeRow(ChangeAll(s, changes[..|changes| - 1]), last.amount, last.from)
  }

  /** The price in force on a past day survives every later change, whatever the changes. */
  lemma {:induction false} PastPricesSurvive(s: seq<RateRow>, changes: seq<RateChange>, day: int, a: nat)
    requires forall c | c in changes :: day < c.from
    ensures RateInForce(ChangeAll(s, changes), day, a) <==> RateInForce(s, day, a)
  {
    if changes != [] {
      var n := |changes| - 1;
      PastPricesSurvive(s, changes[..n], day, a);
      ChangeSplitsHistory(ChangeAll(s, changes[..n]), changes[n].amount, changes[n].from, day, a);
    }
  }

  ghost predicate DatesRise(changes: seq<RateChange>) {
    forall i | 0 <= i < |changes| - 1 :: changes[i].from <= changes[i + 1].from
  }

  /** `t` extends `s` by rows for `changes`; no stored amount or start day differs. */
  ghost predicate Extends(s: seq<RateRow>, changes: seq<RateChange>, t: seq<RateRow>) {
    && |t| == |s| + |changes|
    && (forall i | 0 <= i < |s| :: t[i].amount == s[i].amount && t[i].from == s[i].from)
    && (forall i | |s| <= i < |t| :: t[i].amount == changes[i - |s|].amount && t[i].from == changes[i - |s|].from)
  }

  lemma ChangeExtends(s: seq<RateRow>, changes: seq<RateChange>, t: seq<RateRow>)
    requires changes != []
    requires Extends(s, changes[..|changes| - 1], t)
    ensures Extends(s, changes, ChangeRow(t, changes[|changes| - 1].amount, changes[|changes| - 1].from))
  {
  }

  /** With non-decreasing dates an item's rows stay a chain ending in the last change, and no stored amount or
      start day is ever rewritten. */
  lemma {:induction false} RateHistoryIsAChain(s: seq<RateRow>, changes: seq<RateChange>)
    requires Chain(s) && DatesRise(changes)
    requires s != [] && changes != [] ==> s[|s| - 1].from <= changes[0].from
    ensures Chain(ChangeAll(s, changes)) && Extends(s, changes, ChangeAll(s, changes))
  {
    if changes != [] {
      var n := |changes| - 1;
      var before := changes[..n];
      assert DatesRise(before) by {
        forall i | 0 <= i < |before| - 1 ensures before[i].from <= before[i + 1].from {
          assert changes[i].from <= changes[i + 1].from;
        }
      }
      RateHistoryIsAChain(s, before);
      var t := ChangeAll(s, before);
      assert t != [] ==> t[|t| - 1].from <= changes[n].from by {
        if n > 0 {
          assert t[|t| - 1].from == before[n - 1].from;
          assert changes[n - 1].from <= changes[n - 1 + 1].from;
        }
      }
      ChangeKeepsChain(t, changes[n].amount, changes[n].from);
      ChangeExtends(s, changes, t);
    }
  }

  // ---- bands ----

  datatype TierSpec = TierSpec(name: string, amount: Option<nat>)

  datatype BandSpec = BandSpec(
    name: string, mode: Option<RateMode>, flat: Option<nat>, min: Option<nat>, max: Option<nat>, tiers: seq<TierSpec>)

  predicate Blank(c: char) {
    c == ' ' || c == '\t' || c == '\n' || c == '\r'
  }

  function Strip(s: string): string {
    if s == [] then s
    else if Blank(s[0]) then Strip(s[1..])
    else if Blank(s[|s| - 1]) then Strip(s[..|s| - 1])
    else s
  }

  ghost predicate LabelsDiffer(labels: seq<string>) {
    forall i, j | 0 <= i < j < |labels| :: Strip(labels[i]) != Strip(labels[j])
  }

  function TierLabels(spec: BandSpec): seq<string> {
    seq(|spec.tiers|, i requires 0 <= i < |spec.tiers| => spec.tiers[i].name)
  }

  function BandLabels(specs: seq<BandSpec>): seq<string> {
    seq(|specs|, i requires 0 <= i < |specs| => specs[i].name)
  }

  /** `len(set(labels)) == len(labels)` on stripped labels, walked once with the set of those seen. */
  method AllDistinct(labels: seq<string>) returns (distinct: bool)
    ensures distinct <==> LabelsDiffer(labels)
  {
    var seen: set<string> := {};
    var i := 0;
    while i < |labels|
      invariant i <= |labels|
      invariant LabelsDiffer(labels[..i])
      invariant forall l :: l in seen <==> exists k :: 0 <= k < i && Strip(labels[k]) == l
    {
      if Strip(labels[i]) in seen {
        var k :| 0 <= k < i && Strip(labels[k]) == Strip(labels[i]);
        return false;
      }
      seen := seen + {Strip(labels[i])};
      i := i + 1;
    }
    assert labels[..i] == labels;
    return true;
  }

  /** What `_validate_band_spec` demands, stated as what the band table must be able to hold. */
  ghost predicate SpecOk(spec: BandSpec) {
    && spec.mode.Some?
    && FieldsMatchMode(spec.mode.value, spec.flat, spec.min, spec.max)
    && (spec.mode.value == Range ==> spec.min.value <= spec.max.value)
    && (if spec.mode.value == Tiered
        then |spec.tiers| >= 2 && LabelsDiffer(TierLabels(spec))
             && forall t | t in spec.tiers :: t.amount.Some?
        else spec.tiers == [])
  }

  /** The three kinds of spec there are, and nothing else is one. */
  lemma SpecOkMeans(spec: BandSpec)
    ensures SpecOk(spec) <==>
      || (spec.mode == Some(Flat) && spec.flat.Some? && spec.min.None? && spec.max.None? && spec.tiers == [])
      || (spec.mode == Some(Range) && spec.flat.None? && spec.tiers == []
          && spec.min.Some? && spec.max.Some? && spec.min.value <= spec.max.value)
      || (spec.mode == Some(Tiered) && spec.flat.None? && spec.min.None? && spec.max.None? && |spec.tiers| >= 2
          && (forall i | 0 <= i < |spec.tiers| :: spec.tiers[i].amount.Some?)
          && (forall i, j | 0 <= i < j < |spec.tiers| :: Strip(spec.tiers[i].name) != Strip(spec.tiers[j].name)))
  {
    assert forall i | 0 <= i < |spec.tiers| :: TierLabels(spec)[i] == spec.tiers[i].name;
    assert (forall t | t in spec.tiers :: t.amount.Some?) <==> forall i | 0 <= i < |spec.tiers| :: spec.tiers[i].amount.Some?;
  }

  /** A spec is accepted exactly when the rows made from it satisfy the table's check constraint,
      its bounds are in order and its tiers are complete and distinct. */
  method ValidateBandSpec(spec: BandSpec) returns (ok: bool)
    ensures ok <==> SpecOk(spec)
  {
    if spec.mode.None? { return false; }
    match spec.mode.value {
    case Flat =>
      if spec.flat.None? { return false; }
      if spec.min.Some? || spec.max.Some? || spec.tiers != [] { return false; }
    case Range =>
      if spec.min.None? || spec.max.None? { return false; }
      if spec.min.value > spec.max.value { return false; }
      if spec.flat.Some? || spec.tiers != [] { return false; }
    case Tiered =>
      if |spec.tiers| < 2 { return false; }
      var distinct := AllDistinct(TierLabels(spec));
      if !distinct { return false; }
      if exists t | t in spec.tiers :: t.amount.None? { return false; }
      if spec.flat.Some? || spec.min.Some? || spec.max.Some? { return false; }
    }
    return true;
  }

  ghost predicate SpecsOk(specs: seq<BandSpec>) {
    LabelsDiffer(BandLabels(specs)) && forall i | 0 <= i < |specs| :: SpecOk(specs[i])
  }

  function CloseBand(b: RateBand, from: int): RateBand {
    if b.to.None? then b.(to := Some(from)) else b
  }

  /** The row opened for one spec: `id` from the database, its tiers numbered from `tierId`. */
  function OpenedTiers(spec: BandSpec, id: nat, tierId: nat): seq<RateTier> {
    seq(|spec.tiers|, j requires 0 <= j < |spec.tiers| =>
      RateTier(tierId + j, id, Strip(spec.tiers[j].name), if spec.tiers[j].amount.Some? then spec.tiers[j].amount.value else 0))
  }

  ghost predicate OpenedFrom(b: RateBand, spec: BandSpec, item: nat, from: int) {
    && b.item == item && b.name == Strip(spec.name) && Some(b.mode) == spec.mode
    && b.flat == spec.flat && b.min == spec.min && b.max == spec.max
    && |b.tiers| == |spec.tiers|
    && (forall j | 0 <= j < |b.tiers| ::
          b.tiers[j].band == b.id && b.tiers[j].name == Strip(spec.tiers[j].name) && Some(b.tiers[j].amount) == spec.tiers[j].amount)
    && b.from == from && b.to.None?
  }

  /** One amendment of an item's bands. */
  datatype BandChange = BandChange(specs: seq<BandSpec>, from: int)

  /** `after` is `before` with every open band closed and the amendment's set opened behind it. */
  ghost predicate Replaced(before: seq<RateBand>, after: seq<RateBand>, c: BandChange, item: nat) {
    && |after| == |before| + |c.specs|
    && (forall i | 0 <= i < |before| :: after[i] == CloseBand(before[i], c.from))
    && (forall i | 0 <= i < |c.specs| :: OpenedFrom(after[|before| + i], c.specs[i], item, c.from))
  }

  class RevenueItem {
    const id: nat
    var schedule: seq<RateRow>
    var bands: seq<RateBand>
    /** Next ids the band and tier tables hand out. */
    var nextBand: nat
    var nextTier: nat

    /** `create_revenue_item`: the item opens with one rate. */
    constructor (id: nat, amount: nat, today: int)
      ensures this.id == id && schedule == [RateRow(amount, today, None)] && bands == []
    {
      this.id := id;
      schedule, bands, nextBand, nextTier := [RateRow(amount, today, None)], [], 0, 0;
    }

    method ChangeRate(amount: nat, from: int)
      modifies this`schedule
      ensures schedule == ChangeRow(old(schedule), amount, from)
    {
      var current := OpenRow(schedule);
      if current.Some? {
        schedule := schedule[current.value := schedule[current.value].(to := Some(from))];
      }
      schedule := schedule + [RateRow(amount, from, None)];
    }

    /** Closes every open band and opens the replacement set, in order; a bad set changes nothing. */
    method ReplaceRateBands(specs: seq<BandSpec>, from: int) returns (r: Result<nat, Fault>)
      modifies this`bands, this`nextBand, this`nextTier
      ensures r == if SpecsOk(specs) then Ok(|specs|) else Err(BandingError)
      ensures r.Err? ==> bands == old(bands)
      ensures r.Ok? ==> Replaced(old(bands), bands, BandChange(specs, from), id)
    {
      var distinct := AllDistinct(BandLabels(specs));
      if !distinct { return Err(BandingError); }
      var i := 0;
      while i < |specs|
        invariant i <= |specs|
        invariant bands == old(bands)
        invariant forall k | 0 <= k < i :: SpecOk(specs[k])
      {
        var ok := ValidateBandSpec(specs[i]);
        if !ok { return Err(BandingError); }
        i := i + 1;
      }
      i := 0;
      while i < |bands|
        invariant i <= |bands| == |old(bands)|
        invariant forall k | 0 <= k < i :: bands[k] == CloseBand(old(bands)[k], from)
        invariant forall k | i <= k < |bands| :: bands[k] == old(bands)[k]
      {
        if bands[i].to.None? {
          bands := bands[i := bands[i].(to := Some(from))];
        }
        i := i + 1;
      }
      i := 0;
      while i < |specs|
        invariant i <= |specs| && |bands| == |old(bands)| + i
        invariant forall k | 0 <= k < |old(bands)| :: bands[k] == CloseBand(old(bands)[k], from)
        invariant forall k | 0 <= k < i :: OpenedFrom(bands[|old(bands)| + k], specs[k], id, from)
      {
        var spec := specs[i];
        assert SpecOk(spec);
        var band := RateBand(nextBand, id, Strip(spec.name), spec.mode.value, spec.flat, spec.min, spec.max,
                             OpenedTiers(spec, nextBand, nextTier), from, None);
        assert OpenedFrom(band, spec, id, from);
        bands, nextBand, nextTier := bands + [band], nextBand + 1, nextTier + |spec.tiers|;
        i := i + 1;
      }
      r := Ok(|specs|);
    }
  }

  lemma ReplacementOpensItsSet(before: seq<RateBand>, after: seq<RateBand>, c: BandChange, item: nat)
    requires Replaced(before, after, c, item)
    ensures forall i | 0 <= i < |after| :: after[i].to.None? <==> i >= |before|
    ensures forall i, day: int | 0 <= i < |after| && day < c.from ::
              InForce(after[i].from, after[i].to, day) <==> i < |before| && InForce(before[i].from, before[i].to, day)
  {
    forall i | |before| <= i < |after| ensures after[i].to.None? && after[i].from == c.from {
      assert OpenedFrom(after[|before| + (i - |before|)], c.specs[i - |before|], item, c.from);
    }
  }

  /** An item's bands before and after each of a list of amendments. */
  ghost predicate BandHistory(states: seq<seq<RateBand>>, changes: seq<BandChange>, item: nat) {
    && |states| == |changes| + 1
    && forall k | 0 <= k < |changes| :: Replaced(states[k], states[k + 1], changes[k], item)
  }

  /** `later` keeps every band of `first` but for closing some that were open. */
  ghost predicate OnlyClosed(first: seq<RateBand>, later: seq<RateBand>) {
    && |first| <= |later|
    && forall i | 0 <= i < |first| ::
         if first[i].to.Some? then later[i] == first[i] else later[i].(to := None) == first[i]
  }

  /** After any list of amendments the open bands are exactly the last set; no figure of an earlier band is ever rewritten
      and a closed band never changes; and on a day before all of them the bands in force are the ones that were. */
  lemma {:induction false} ReplacedBandsAreTheOpenOnes(states: seq<seq<RateBand>>, changes: seq<BandChange>, item: nat)
    requires BandHistory(states, changes, item)
    ensures var first, last, n := states[0], states[|changes|], |changes| - 1;
            && OnlyClosed(first, last)
            && (changes != [] ==>
                  && |last| == |states[n]| + |changes[n].specs|
                  && (forall i | 0 <= i < |last| :: last[i].to.None? <==> i >= |states[n]|)
                  && (forall i | 0 <= i < |changes[n].specs| :: OpenedFrom(last[|states[n]| + i], changes[n].specs[i], item, changes[n].from)))
            && (forall i, day: int | 0 <= i < |last| && (forall c | c in changes :: day < c.from) ::
                  InForce(last[i].from, last[i].to, day) <==> i < |first| && InForce(first[i].from, first[i].to, day))
  {
    if changes != [] {
      hide OpenedFrom, InForce;
      var n := |changes| - 1;
      assert BandHistory(states[..n + 1], changes[..n], item);
      ReplacedBandsAreTheOpenOnes(states[..n + 1], changes[..n], item);
      assert states[..n + 1][n] == states[n];
      assert changes[n] in changes && forall c | c in changes[..n] :: c in changes;
      ReplacementOpensItsSet(states[n], states[n + 1], changes[n], item);
    }
  }
}
