/** Deliveries arrive any number of times, in any order, between any other services. What they do to the ledger. */
module DeliveryLaws {
  import opened Prelude
  import opened Tables
  import opened Payments
  import opened Channels
  import Billing
  import Enforcement
  import Ledger

  // ---- the machine ----

  datatype Event =
    | FromBank(channel: Channel, notice: Notice)
    | FromTeller(notice: Notice)
    | FromAgent(client: string, agentWard: Option<nat>, tender: Tender)
    | Service(step: Ledger.Step)

  datatype Arrival = Arrival(event: Event, clock: Billing.Clock)

  ghost function Arrive(g: Inbox, a: Arrival): Inbox {
    if !Payable(g.db) then g
    else
      match a.event
      case FromBank(c, n) => Webhook(g, c, n, a.clock.day).0
      case FromTeller(n) => OtcRow(g, n, a.clock.day).0
      case FromAgent(client, w, t) => Replay(g, client, w, t, a.clock.day).0
      case Service(step) => g.(db := Ledger.Apply(g.db, Ledger.Move(step, a.clock)))
  }

  ghost function Run(g: Inbox, arrivals: seq<Arrival>): Inbox {
    if arrivals == [] then g else Arrive(Run(g, arrivals[..|arrivals| - 1]), arrivals[|arrivals| - 1])
  }

  function Start(payers: nat, ward: nat -> nat): Inbox {
    Inbox(Empty(payers), [], [], ward)
  }

  // ---- deliveries reach the ledger through post_payment alone ----

  function TenderIn(e: Event): Option<Tender> {
    match e
    case FromBank(c, n) => Some(TenderOf(c, n))
    case FromTeller(n) => Some(TenderOf(Otc, n))
    case FromAgent(_, _, t) => Some(t)
    case Service(_) => None
  }

  /** The ledger moves an arrival amounts to: its own service, one accepted payment, or nothing. */
  ghost function MovesOf(g: Inbox, a: Arrival): seq<Ledger.Move> {
    match TenderIn(a.event)
    case None => if Payable(g.db) then [Ledger.Move(a.event.step, a.clock)] else []
    case Some(t) =>
      if Arrive(g, a).db == g.db then [] else [Ledger.Move(Ledger.PostPayment(t), a.clock)]
  }

  ghost function LedgerMoves(g: Inbox, arrivals: seq<Arrival>): seq<Ledger.Move> {
    if arrivals == [] then []
    else
      var init := arrivals[..|arrivals| - 1];
      LedgerMoves(g, init) + MovesOf(Run(g, init), arrivals[|arrivals| - 1])
  }

  lemma ArrivalIsLedgerMoves(g: Inbox, a: Arrival)
    ensures Arrive(g, a).db == Ledger.Run(g.db, MovesOf(g, a))
    ensures |MovesOf(g, a)| <= 1
  {
    hide Post, HasRow, RecordOf;
    var moves := MovesOf(g, a);
    if |moves| == 1 {
      assert moves[..0] == [];
      assert Ledger.Run(g.db, moves) == Ledger.Apply(g.db, moves[0]);
    }
  }

  lemma {:induction false} RunsOneByOne(db: Db, moves: seq<Ledger.Move>, more: seq<Ledger.Move>)
    requires |more| <= 1
    ensures Ledger.Run(db, moves + more) == Ledger.Run(Ledger.Run(db, moves), more)
  {
    if more == [] {
      assert moves + more == moves;
    } else {
      assert (moves + more)[..|moves|] == moves && more[..0] == [];
    }
  }

  /** Whatever arrives, in whatever order, the ledger is one some run of the services reaches: every law of such runs
      holds behind the channels too. */
  lemma {:induction false} DeliveriesAreLedgerMoves(g: Inbox, arrivals: seq<Arrival>)
    ensures Run(g, arrivals).db == Ledger.Run(g.db, LedgerMoves(g, arrivals))
  {
    if arrivals != [] {
      hide Arrive, MovesOf;
      var n := |arrivals| - 1;
      DeliveriesAreLedgerMoves(g, arrivals[..n]);
      var h := Run(g, arrivals[..n]);
      ArrivalIsLedgerMoves(h, arrivals[n]);
      RunsOneByOne(g.db, LedgerMoves(g, arrivals[..n]), MovesOf(h, arrivals[n]));
    }
  }

  lemma InvIsPayable(db: Db)
    requires Ledger.Inv(db)
    ensures Payable(db)
  {
    forall b | 0 <= b < |db.bills| ensures db.bills[b].payer < |db.credit| {
      assert Ledger.BillLinked(db, b);
    }
  }

  lemma ReachableIsPayable(payers: nat, ward: nat -> nat, arrivals: seq<Arrival>)
    ensures Ledger.Inv(Run(Start(payers, ward), arrivals).db) && Payable(Run(Start(payers, ward), arrivals).db)
  {
    var g := Start(payers, ward);
    DeliveriesAreLedgerMoves(g, arrivals);
    Ledger.EveryRunKeepsInv(payers, LedgerMoves(g, arrivals));
    InvIsPayable(Run(g, arrivals).db);
  }

  // ---- replays ----

  /** What makes two deliveries the same: the channel and bank reference, or the client's id. */
  datatype Key = FeedKey(channel: Channel, ref: string) | ClientKey(client: string)

  function KeyOf(e: Event): Option<Key> {
    match e
    case FromBank(c, n) => Some(FeedKey(c, n.ref))
    case FromTeller(n) => Some(FeedKey(Otc, n.ref))
    case FromAgent(client, _, _) => Some(ClientKey(client))
    case Service(_) => None
  }

  predicate Recorded(g: Inbox, k: Key) {
    match k
    case FeedKey(c, ref) => HasRow(g.feed, c, ref)
    case ClientKey(client) => RecordOf(g.synced, client).Some?
  }

  lemma RowStays(feed: seq<FeedRow>, row: FeedRow, c: Channel, ref: string)
    ensures HasRow(feed + [row], c, ref) <==> HasRow(feed, c, ref) || (row.channel == c && row.ref == ref)
  {
    if HasRow(feed, c, ref) {
      var i :| 0 <= i < |feed| && feed[i].channel == c && feed[i].ref == ref;
      assert (feed + [row])[i] == feed[i];
    }
    if row.channel == c && row.ref == ref { assert (feed + [row])[|feed|] == row; }
  }

  lemma RecordStays(synced: seq<SyncRecord>, r: SyncRecord, client: string)
    ensures RecordOf(synced + [r], client).Some? <==> RecordOf(synced, client).Some? || r.client == client
  {
    if i :| 0 <= i < |synced| && synced[i].client == client { assert (synced + [r])[i] == synced[i]; }
    if r.client == client { assert (synced + [r])[|synced|] == r; }
  }

  /** What an arrival adds to the records: at most one row, of its own key, after the others. */
  lemma ArrivalRecords(g: Inbox, a: Arrival)
    ensures var after := Arrive(g, a);
            || (after.feed == g.feed && after.synced == g.synced)
            || (&& |after.feed| == |g.feed| + 1 && after.feed[..|g.feed|] == g.feed && after.synced == g.synced
                && KeyOf(a.event) == Some(FeedKey(after.feed[|g.feed|].channel, after.feed[|g.feed|].ref)))
            || (&& |after.synced| == |g.synced| + 1 && after.synced[..|g.synced|] == g.synced && after.feed == g.feed
                && KeyOf(a.event) == Some(ClientKey(after.synced[|g.synced|].client)))
  {
    hide Post, HasRow, RecordOf;
  }

  lemma RecordedForever(g: Inbox, a: Arrival, k: Key)
    ensures Recorded(Arrive(g, a), k) ==> Recorded(g, k) || KeyOf(a.event) == Some(k)
    ensures Recorded(g, k) ==> Recorded(Arrive(g, a), k)
  {
    hide Arrive, HasRow, RecordOf;
    ArrivalRecords(g, a);
    var after := Arrive(g, a);
    if |after.feed| > |g.feed| && k.FeedKey? {
      assert after.feed == g.feed + [after.feed[|g.feed|]];
      RowStays(g.feed, after.feed[|g.feed|], k.channel, k.ref);
    }
    if |after.synced| > |g.synced| && k.ClientKey? {
      assert after.synced == g.synced + [after.synced[|g.synced|]];
      RecordStays(g.synced, after.synced[|g.synced|], k.client);
    }
  }

  /** A delivery whose key is on record changes nothing at all. */
  lemma ReplayChangesNothing(g: Inbox, a: Arrival)
    requires KeyOf(a.event).Some? && Recorded(g, KeyOf(a.event).value)
    ensures Arrive(g, a) == g
  {
  }

  /** The arrivals that are not replays of something already on record. */
  ghost function Pruned(g: Inbox, arrivals: seq<Arrival>): seq<Arrival> {
    if arrivals == [] then []
    else
      var init, a := arrivals[..|arrivals| - 1], arrivals[|arrivals| - 1];
      if KeyOf(a.event).Some? && Recorded(Run(g, init), KeyOf(a.event).value) then Pruned(g, init)
      else Pruned(g, init) + [a]
  }

  /** Dropping every delivery that was on record when it arrived leaves the ledger, the feed and the sync records as they
      are, from any state and among any other services. */
  lemma {:induction false} ReplaysAddNothing(g: Inbox, arrivals: seq<Arrival>)
    ensures Run(g, Pruned(g, arrivals)) == Run(g, arrivals)
  {
    if arrivals != [] {
      hide Arrive, Recorded;
      var init, a := arrivals[..|arrivals| - 1], arrivals[|arrivals| - 1];
      ReplaysAddNothing(g, init);
      if KeyOf(a.event).Some? && Recorded(Run(g, init), KeyOf(a.event).value) {
        ReplayChangesNothing(Run(g, init), a);
      } else {
        assert (Pruned(g, init) + [a])[..|Pruned(g, init)|] == Pruned(g, init);
      }
    }
  }

  // ---- each key posts at most one payment ----

  ghost function Added(g: Inbox, a: Arrival): int {
    |Arrive(g, a).db.payments| - |g.db.payments|
  }

  /** Payments made by deliveries with key `k`. */
  ghost function AddedFor(g: Inbox, arrivals: seq<Arrival>, k: Key): int {
    if arrivals == [] then 0
    else
      var init, a := arrivals[..|arrivals| - 1], arrivals[|arrivals| - 1];
      AddedFor(g, init, k) + if KeyOf(a.event) == Some(k) then Added(Run(g, init), a) else 0
  }

  lemma PostAddsOne(db: Db, t: Tender, today: int)
    requires t.bill < |db.bills| && db.bills[t.bill].payer < |db.credit|
    ensures Post(db, t, today).Ok? ==> Post(db, t, today).value.payments == db.payments + [NewPayment(db, t, today)]
  {
  }

  lemma DeliveryAddsAtMostOne(g: Inbox, a: Arrival)
    requires KeyOf(a.event).Some?
    ensures 0 <= Added(g, a) <= 1
    ensures Added(g, a) == 1 ==> Recorded(Arrive(g, a), KeyOf(a.event).value) && !Recorded(g, KeyOf(a.event).value)
  {
    hide Post;
    if Payable(g.db) {
      var t := TenderIn(a.event).value;
      if t.bill < |g.db.bills| { PostAddsOne(g.db, t, a.clock.day); }
      match a.event
      case FromBank(c, n) => RowStays(g.feed, NewRow(c, n, a.clock.day).(status := Matched, matched := Some(|g.db.payments|)), c, n.ref);
      case FromTeller(n) => RowStays(g.feed, NewRow(Otc, n, a.clock.day).(status := Matched, matched := Some(|g.db.payments|)), Otc, n.ref);
      case FromAgent(client, w, t) => RecordStays(g.synced, SyncRecord(client, TrySync(g, w, t, a.clock.day).1), client);
    }
  }

  /** However often it is delivered, a bank reference or client id posts at most one payment over the whole run, and none
      once it is on record. */
  lemma {:induction false} EachKeyPostsAtMostOnce(g: Inbox, arrivals: seq<Arrival>, k: Key)
    ensures 0 <= AddedFor(g, arrivals, k) <= 1
    ensures Recorded(g, k) ==> AddedFor(g, arrivals, k) == 0 && Recorded(Run(g, arrivals), k)
    ensures AddedFor(g, arrivals, k) == 1 ==> Recorded(Run(g, arrivals), k)
  {
    if arrivals != [] {
      hide Arrive, Recorded, Added;
      var init, a := arrivals[..|arrivals| - 1], arrivals[|arrivals| - 1];
      EachKeyPostsAtMostOnce(g, init, k);
      RecordedForever(Run(g, init), a, k);
      if KeyOf(a.event) == Some(k) {
        DeliveryAddsAtMostOne(Run(g, init), a);
      }
    }
  }

  // ---- only the first delivery of each key counts ----

  /** The arrivals without any delivery whose key came earlier in the list on a well-formed one, recorded or not. */
  ghost function Firsts(arrivals: seq<Arrival>): seq<Arrival> {
    if arrivals == [] then []
    else
      var init, a := arrivals[..|arrivals| - 1], arrivals[|arrivals| - 1];
      if KeyOf(a.event).Some? && Delivered(init, KeyOf(a.event).value) then Firsts(init) else Firsts(init) + [a]
  }

  ghost predicate Delivered(arrivals: seq<Arrival>, k: Key) {
    exists i :: 0 <= i < |arrivals| && KeyOf(arrivals[i].event) == Some(k) && WellFormedEvent(arrivals[i].event)
  }

  /** The payment an arrival asks for outside the bank feeds: at a desk, or offline by an agent. */
  function ByHand(e: Event): Option<Tender> {
    match e
    case Service(PostPayment(t)) => Some(t)
    case FromAgent(_, _, t) => Some(t)
    case _ => None
  }

  /** No payment entered by hand carries this bank reference, unless it is blank. */
  ghost predicate NotByHand(arrivals: seq<Arrival>, c: Channel, ref: string) {
    forall i | 0 <= i < |arrivals| && ByHand(arrivals[i].event).Some? ::
      var t := ByHand(arrivals[i].event).value;
      ref == "" || t.channel != c || t.ref != ref
  }

  predicate WellFormedEvent(e: Event) {
    match e
    case FromBank(c, n) => WellFormed(c, n)
    case FromTeller(n) => WellFormed(Otc, n)
    case _ => true
  }

  predicate FeedEvent(e: Event) {
    WellFormedEvent(e) && KeyOf(e).Some? && KeyOf(e).value.FeedKey?
  }

  /** No bank reference that passed its adapter is also entered by hand. */
  ghost predicate Clean(arrivals: seq<Arrival>) {
    forall i | 0 <= i < |arrivals| && FeedEvent(arrivals[i].event) ::
      var k := KeyOf(arrivals[i].event).value;
      NotByHand(arrivals, k.channel, k.ref)
  }

  ghost predicate SameRefs(x: seq<Payment>, y: seq<Payment>) {
    |x| == |y| && forall i | 0 <= i < |x| :: x[i].channel == y[i].channel && x[i].ref == y[i].ref
  }

  lemma OtherServicesAddNoRef(db: Db, m: Ledger.Move)
    requires !m.step.PostPayment?
    ensures SameRefs(Ledger.Apply(db, m).payments, db.payments)
  {
    hide Billing.Recompute, Billing.MergeAll, Billing.SupersedeAll, Billing.NewLines, Billing.Prepare, Enforcement.RefreshBill;
  }

  lemma RefsAfterPost(payments: seq<Payment>, p: Payment, c: Channel, ref: string)
    requires RefUsed(payments + [p], c, ref)
    ensures RefUsed(payments, c, ref) || (p.channel == c && p.ref == ref)
  {
    var i :| 0 <= i < |payments + [p]| && (payments + [p])[i].channel == c && (payments + [p])[i].ref == ref;
    if i < |payments| { assert payments[i] == (payments + [p])[i]; }
  }

  /** A payment with this reference came through the feed, and so is on record. */
  ghost predicate OnlyFromFeed(g: Inbox, c: Channel, ref: string) {
    RefUsed(g.db.payments, c, ref) ==> HasRow(g.feed, c, ref)
  }

  lemma ServiceKeepsOnlyFromFeed(g: Inbox, m: Ledger.Move, c: Channel, ref: string)
    requires OnlyFromFeed(g, c, ref)
    requires m.step.PostPayment? ==> ref == "" || m.step.tender.channel != c || m.step.tender.ref != ref
    ensures OnlyFromFeed(g.(db := Ledger.Apply(g.db, m)), c, ref)
  {
    if m.step.PostPayment? {
      hide Post;
      var t := m.step.tender;
      if Ledger.Callable(g.db, m.step) && Post(g.db, t, m.clock.day).Ok? {
        PostAddsOne(g.db, t, m.clock.day);
        if RefUsed(Ledger.Apply(g.db, m).payments, c, ref) { RefsAfterPost(g.db.payments, NewPayment(g.db, t, m.clock.day), c, ref); }
      }
    } else {
      hide Ledger.Apply;
      OtherServicesAddNoRef(g.db, m);
    }
  }

  lemma DeliveryKeepsOnlyFromFeed(g: Inbox, a: Arrival, c: Channel, ref: string)
    requires OnlyFromFeed(g, c, ref) && KeyOf(a.event).Some?
    requires ByHand(a.event).Some? ==> ref == "" || ByHand(a.event).value.channel != c || ByHand(a.event).value.ref != ref
    ensures OnlyFromFeed(Arrive(g, a), c, ref)
  {
    RecordedForever(g, a, FeedKey(c, ref));
    var after, t, day := Arrive(g, a), TenderIn(a.event).value, a.clock.day;
    if after.db != g.db {
      hide Post, RefUsed;
      PostAddsOne(g.db, t, day);
      if RefUsed(after.db.payments, c, ref) && !RefUsed(g.db.payments, c, ref) {
        RefsAfterPost(g.db.payments, NewPayment(g.db, t, day), c, ref);
        DeliveryAddsAtMostOne(g, a);
      }
    }
  }

  lemma {:induction false} FeedFundsItsRefs(payers: nat, ward: nat -> nat, arrivals: seq<Arrival>, c: Channel, ref: string)
    requires NotByHand(arrivals, c, ref)
    ensures OnlyFromFeed(Run(Start(payers, ward), arrivals), c, ref)
  {
    if arrivals != [] {
      hide Arrive, OnlyFromFeed;
      var n := |arrivals| - 1;
      assert NotByHand(arrivals[..n], c, ref) by {
        forall i | 0 <= i < n && ByHand(arrivals[..n][i].event).Some?
          ensures var t := ByHand(arrivals[..n][i].event).value; ref == "" || t.channel != c || t.ref != ref {
          assert arrivals[..n][i] == arrivals[i];
        }
      }
      FeedFundsItsRefs(payers, ward, arrivals[..n], c, ref);
      ArrivalKeepsOnlyFromFeed(Run(Start(payers, ward), arrivals[..n]), arrivals[n], c, ref);
    } else {
      assert OnlyFromFeed(Start(payers, ward), c, ref);
    }
  }

  lemma ArrivalKeepsOnlyFromFeed(g: Inbox, a: Arrival, c: Channel, ref: string)
    requires OnlyFromFeed(g, c, ref)
    requires ByHand(a.event).Some? ==> ref == "" || ByHand(a.event).value.channel != c || ByHand(a.event).value.ref != ref
    ensures OnlyFromFeed(Arrive(g, a), c, ref)
  {
    hide OnlyFromFeed;
    match a.event
    case Service(step) => ServiceKeepsOnlyFromFeed(g, Ledger.Move(step, a.clock), c, ref);
    case _ => DeliveryKeepsOnlyFromFeed(g, a, c, ref);
  }

  /** Exactly when a bank's notice leaves a record behind: it was on record already, or it is well formed and no payment
      against a live bill used its reference by hand. */
  lemma WebhookRecordsIff(g: Inbox, c: Channel, n: Notice, today: int)
    requires Payable(g.db)
    ensures HasRow(Webhook(g, c, n, today).0.feed, c, n.ref) <==>
              || HasRow(g.feed, c, n.ref)
              || (WellFormed(c, n)
                  && !(n.bill < |g.db.bills| && !Terminal(g.db.bills[n.bill].status) && RefUsed(g.db.payments, c, n.ref)))
  {
    forall row: FeedRow | row.channel == c && row.ref == n.ref ensures HasRow(g.feed + [row], c, n.ref) { RowStays(g.feed, row, c, n.ref); }
  }

  /** A teller row leaves a record whenever it is well formed, even where posting it crashes. */
  lemma TellerRowRecordsIff(g: Inbox, n: Notice, today: int)
    requires Payable(g.db)
    ensures HasRow(OtcRow(g, n, today).0.feed, Otc, n.ref) <==> HasRow(g.feed, Otc, n.ref) || WellFormed(Otc, n)
  {
    forall row: FeedRow | row.channel == Otc && row.ref == n.ref ensures HasRow(g.feed + [row], Otc, n.ref) { RowStays(g.feed, row, Otc, n.ref); }
  }

  lemma FirstDeliveryRecords(g: Inbox, a: Arrival)
    requires Payable(g.db) && KeyOf(a.event).Some? && WellFormedEvent(a.event)
    requires KeyOf(a.event).value.FeedKey? ==> OnlyFromFeed(g, KeyOf(a.event).value.channel, KeyOf(a.event).value.ref)
    ensures Recorded(Arrive(g, a), KeyOf(a.event).value)
  {
    hide Webhook, OtcRow, WellFormed, RecordOf;
    match a.event
    case FromBank(c, n) => WebhookRecordsIff(g, c, n, a.clock.day);
    case FromTeller(n) => TellerRowRecordsIff(g, n, a.clock.day);
    case FromAgent(client, w, t) => RecordStays(g.synced, SyncRecord(client, TrySync(g, w, t, a.clock.day).1), client);
  }

  lemma CleanPrefix(arrivals: seq<Arrival>, n: nat)
    requires Clean(arrivals) && n <= |arrivals|
    ensures Clean(arrivals[..n])
    ensures forall i | 0 <= i < |arrivals| && FeedEvent(arrivals[i].event) ::
              NotByHand(arrivals[..n], KeyOf(arrivals[i].event).value.channel, KeyOf(arrivals[i].event).value.ref)
  {
    forall i | 0 <= i < |arrivals| && FeedEvent(arrivals[i].event)
      ensures NotByHand(arrivals[..n], KeyOf(arrivals[i].event).value.channel, KeyOf(arrivals[i].event).value.ref) {
      var k := KeyOf(arrivals[i].event).value;
      assert NotByHand(arrivals, k.channel, k.ref);
      forall j | 0 <= j < n && ByHand(arrivals[..n][j].event).Some?
        ensures var t := ByHand(arrivals[..n][j].event).value; k.ref == "" || t.channel != k.channel || t.ref != k.ref {
        assert arrivals[..n][j] == arrivals[j];
      }
    }
    forall i | 0 <= i < n ensures arrivals[..n][i] == arrivals[i] {
    }
  }

  lemma {:induction false} DeliveredIsRecorded(payers: nat, ward: nat -> nat, arrivals: seq<Arrival>, k: Key)
    requires Clean(arrivals) && Delivered(arrivals, k)
    ensures Recorded(Run(Start(payers, ward), arrivals), k)
  {
    hide Arrive, Recorded, NotByHand;
    var n := |arrivals| - 1;
    var g := Run(Start(payers, ward), arrivals[..n]);
    CleanPrefix(arrivals, n);
    if KeyOf(arrivals[n].event) == Some(k) && WellFormedEvent(arrivals[n].event) {
      ReachableIsPayable(payers, ward, arrivals[..n]);
      if k.FeedKey? { FeedFundsItsRefs(payers, ward, arrivals[..n], k.channel, k.ref); }
      FirstDeliveryRecords(g, arrivals[n]);
    } else {
      var i :| 0 <= i < |arrivals| && KeyOf(arrivals[i].event) == Some(k) && WellFormedEvent(arrivals[i].event);
      assert arrivals[..n][i] == arrivals[i];
      DeliveredIsRecorded(payers, ward, arrivals[..n], k);
      RecordedForever(g, arrivals[n], k);
    }
  }

  /** From an empty system, keeping just the first well-formed delivery of each bank reference and client id gives the same
      ledger, feed and records, whatever else happens in between, so long as bank references are not also entered by
      hand. */
  lemma {:induction false} OnlyFirstDeliveriesCount(payers: nat, ward: nat -> nat, arrivals: seq<Arrival>)
    requires Clean(arrivals)
    ensures Run(Start(payers, ward), Firsts(arrivals)) == Run(Start(payers, ward), arrivals)
  {
    if arrivals != [] {
      hide Arrive, Recorded, NotByHand;
      var init, a := arrivals[..|arrivals| - 1], arrivals[|arrivals| - 1];
      CleanPrefix(arrivals, |init|);
      OnlyFirstDeliveriesCount(payers, ward, init);
      if KeyOf(a.event).Some? && Delivered(init, KeyOf(a.event).value) {
        DeliveredIsRecorded(payers, ward, init, KeyOf(a.event).value);
        ReplayChangesNothing(Run(Start(payers, ward), init), a);
      } else {
        assert (Firsts(init) + [a])[..|Firsts(init)|] == Firsts(init);
      }
    }
  }

  // ---- what each delivery is answered ----

  /** What decides a well-formed notice, in the order it is looked at: the reference is on the feed; there is no such bill; the
      bill takes no payment; the reference funds a payment of the channel already. */
  datatype Standing = Seen | NoBill | Dead | Used | Clear

  ghost predicate Stands(g: Inbox, c: Channel, n: Notice, s: Standing) {
    var seen := exists i :: 0 <= i < |g.feed| && g.feed[i].channel == c && g.feed[i].ref == n.ref;
    var there := n.bill < |g.db.bills|;
    var dead := there && (g.db.bills[n.bill].status == Superseded || g.db.bills[n.bill].status == Cancelled);
    var used := n.ref != "" && exists i :: 0 <= i < |g.db.payments| && g.db.payments[i].channel == c && g.db.payments[i].ref == n.ref;
    match s
    case Seen => seen
    case NoBill => !seen && !there
    case Dead => !seen && dead
    case Used => !seen && there && !dead && used
    case Clear => !seen && there && !dead && !used
  }

  ghost predicate PostedAs(g: Inbox, after: Inbox, t: Tender, today: int) {
    after.db.payments == g.db.payments + [Payment(|g.db.payments|, t.bill, t.channel, t.ref, t.amount, Confirmed, today)]
  }

  lemma ReceiveAnswers(g: Inbox, c: Channel, n: Notice, today: int)
    requires Payable(g.db) && n.amount > 0
    ensures var (after, a), row := Receive(g, c, n, today), FeedRow(c, n.ref, n.amount, today, Unmatched, None);
            && (Stands(g, c, n, Seen) ==> a == Duplicate && after == g)
            && (Stands(g, c, n, NoBill) ==> a == AcceptedUnmatched && after == g.(feed := g.feed + [row.(status := Exception)]))
            && (Stands(g, c, n, Dead) ==> a == Refused && after == g.(feed := g.feed + [row.(status := Exception)]))
            && (Stands(g, c, n, Used) ==> a == Crashed && after == g.(feed := g.feed + [row]))
            && (Stands(g, c, n, Clear) ==>
                  && a == Posted(|g.db.payments|) && PostedAs(g, after, Tender(n.bill, c, n.ref, n.amount), today)
                  && after.feed == g.feed + [row.(status := Matched, matched := Some(|g.db.payments|))] && after.synced == g.synced)
  {
    hide PostAccepted;
    if n.bill < |g.db.bills| { PostAddsOne(g.db, TenderOf(c, n), today); }
  }

  lemma SomeStanding(g: Inbox, c: Channel, n: Notice) returns (s: Standing)
    ensures Stands(g, c, n, s) && forall u :: Stands(g, c, n, u) ==> u == s
  {
    s := if Stands(g, c, n, Seen) then Seen else if Stands(g, c, n, NoBill) then NoBill
         else if Stands(g, c, n, Dead) then Dead else if Stands(g, c, n, Used) then Used else Clear;
  }

  /** A webhook posts exactly a notice that is well formed, new on the feed, for a live bill, and under a reference no payment
      of the channel has; each other answer has its own condition, and says what it leaves behind. */
  lemma WebhookAnswers(g: Inbox, c: Channel, n: Notice, today: int)
    requires Payable(g.db)
    ensures var (after, a), row := Webhook(g, c, n, today), FeedRow(c, n.ref, n.amount, today, Unmatched, None);
            var ok := c != Cash && n.amount > 0;
            && (a == Malformed <==> !ok) && (a == Duplicate <==> ok && Stands(g, c, n, Seen))
            && (a == AcceptedUnmatched <==> ok && Stands(g, c, n, NoBill)) && (a == Refused <==> ok && Stands(g, c, n, Dead))
            && (a == Crashed <==> ok && Stands(g, c, n, Used)) && (a.Posted? <==> ok && Stands(g, c, n, Clear))
            && (a == Malformed || a == Duplicate || a == Crashed ==> after == g)
            && (a == AcceptedUnmatched || a == Refused ==> after == g.(feed := g.feed + [row.(status := Exception)]))
            && (a.Posted? ==>
                  && PostedAs(g, after, Tender(n.bill, c, n.ref, n.amount), today)
                  && after.feed == g.feed + [row.(status := Matched, matched := Some(|g.db.payments|))] && after.synced == g.synced)
  {
    hide Receive, Stands;
    if n.amount > 0 { ReceiveAnswers(g, c, n, today); }
    var s := SomeStanding(g, c, n);
  }

  /** A row of a teller file is answered the same way, but for a clash of references, which leaves its row unmatched. */
  lemma TellerRowAnswers(g: Inbox, n: Notice, today: int)
    requires Payable(g.db)
    ensures var (after, a), bank := OtcRow(g, n, today), Webhook(g, Otc, n, today);
            && a == bank.1
            && after == if a == Crashed then g.(feed := g.feed + [FeedRow(Otc, n.ref, n.amount, today, Unmatched, None)]) else bank.0
  {
    hide Receive, Stands;
    if n.amount > 0 { ReceiveAnswers(g, Otc, n, today); }
    var s := SomeStanding(g, Otc, n);
  }

  /** An offline payment whose client id is new is accepted exactly for a positive amount, on a live bill of a payer in the
      agent's own ward, under a reference no payment of the channel has; accepted or not it is recorded. One already recorded
      changes nothing and is answered as it was. */
  lemma SyncAnswers(g: Inbox, client: string, agentWard: Option<nat>, t: Tender, today: int)
    requires Payable(g.db)
    ensures var (after, outcome) := Replay(g, client, agentWard, t, today);
            var known := exists i :: 0 <= i < |g.synced| && g.synced[i].client == client;
            var takes := && t.amount > 0 && t.bill < |g.db.bills| && agentWard == Some(g.ward(g.db.bills[t.bill].payer))
                         && g.db.bills[t.bill].status != Superseded && g.db.bills[t.bill].status != Cancelled
                         && (t.ref == "" || forall i | 0 <= i < |g.db.payments| :: g.db.payments[i].channel != t.channel || g.db.payments[i].ref != t.ref);
            && (known ==> after == g && exists i :: 0 <= i < |g.synced| && g.synced[i] == SyncRecord(client, outcome))
            && (!known ==> after.synced == g.synced + [SyncRecord(client, outcome)] && after.feed == g.feed)
            && (!known && takes ==> outcome == Accepted(|g.db.payments|) && PostedAs(g, after, t, today))
            && (!known && !takes ==> outcome == Rejected && after.db == g.db)
  {
    hide PostAccepted;
    RecordIsThere(g.synced, client);
    if t.bill < |g.db.bills| { PostAddsOne(g.db, t, today); }
  }

  lemma {:induction false} RecordIsThere(synced: seq<SyncRecord>, client: string)
    ensures RecordOf(synced, client).Some? ==>
              exists i :: 0 <= i < |synced| && synced[i] == SyncRecord(client, RecordOf(synced, client).value)
  {
    if synced != [] {
      if synced[0].client == client {
        assert synced[0] == SyncRecord(client, RecordOf(synced, client).value);
      } else {
        RecordIsThere(synced[1..], client);
        if RecordOf(synced, client).Some? {
          var i :| 0 <= i < |synced[1..]| && synced[1..][i] == SyncRecord(client, RecordOf(synced, client).value);
          assert synced[i + 1] == SyncRecord(client, RecordOf(synced, client).value);
        }
      }
    }
  }

  // ---- every payment a delivery made is on exactly one record ----

  ghost predicate RowOk(g: Inbox, i: nat)
    requires i < |g.feed|
  {
    g.feed[i].status == Matched ==>
      && g.feed[i].matched.Some? && g.feed[i].matched.value < |g.db.payments|
      && var p := g.db.payments[g.feed[i].matched.value];
         && p.channel == g.feed[i].channel && p.ref == g.feed[i].ref
         && p.amount == g.feed[i].amount && p.postedOn == g.feed[i].receivedOn
  }

  function PaymentOf(r: SyncRecord): Option<nat> {
    match r.outcome
    case Accepted(p) => Some(p)
    case Rejected => None
  }

  function PaymentBehind(r: FeedRow): Option<nat> {
    if r.status == Matched then r.matched else None
  }

  /** The payments the records point at: feed rows first. */
  function Funded(g: Inbox): seq<Option<nat>> {
    seq(|g.feed| + |g.synced|, i requires 0 <= i < |g.feed| + |g.synced| =>
      if i < |g.feed| then PaymentBehind(g.feed[i]) else PaymentOf(g.synced[i - |g.feed|]))
  }

  ghost predicate DistinctBelow(x: seq<Option<nat>>, n: nat) {
    && (forall i | 0 <= i < |x| && x[i].Some? :: x[i].value < n)
    && (forall i, j | 0 <= i < j < |x| && x[i].Some? :: x[i] != x[j])
  }

  /** No two records share a payment, and each points at one that exists. */
  ghost predicate FundedOk(g: Inbox) {
    DistinctBelow(Funded(g), |g.db.payments|)
  }

  lemma NextIsDistinct(x: seq<Option<nat>>, at: nat, v: Option<nat>, n: nat, more: nat)
    requires at <= |x| && DistinctBelow(x, n) && n <= more && (v.Some? ==> v.value == n < more)
    ensures DistinctBelow(x[..at] + [v] + x[at..], more)
  {
  }

  ghost predicate KeysDiffer(g: Inbox) {
    && (forall i, j | 0 <= i < j < |g.feed| :: g.feed[i].channel != g.feed[j].channel || g.feed[i].ref != g.feed[j].ref)
    && (forall i, j | 0 <= i < j < |g.synced| :: g.synced[i].client != g.synced[j].client)
  }

  ghost predicate RecordsOk(g: Inbox) {
    KeysDiffer(g) && FundedOk(g) && forall i | 0 <= i < |g.feed| :: RowOk(g, i)
  }

  lemma FeedFunds(g: Inbox, row: FeedRow, db: Db)
    requires RecordsOk(g) && !HasRow(g.feed, row.channel, row.ref)
    requires |db.payments| >= |g.db.payments| && SameTenders(db.payments[..|g.db.payments|], g.db.payments)
    requires row.status == Matched ==>
               && row.matched == Some(|g.db.payments|) && |db.payments| > |g.db.payments|
               && var p := db.payments[|g.db.payments|];
                  p.channel == row.channel && p.ref == row.ref && p.amount == row.amount && p.postedOn == row.receivedOn
    ensures RecordsOk(g.(feed := g.feed + [row], db := db))
  {
    var after := g.(feed := g.feed + [row], db := db);
    var n := |g.feed|;
    forall i | 0 <= i < |after.feed| ensures RowOk(after, i) {
      if i < n {
        assert RowOk(g, i);
        if g.feed[i].status == Matched {
          assert db.payments[..|g.db.payments|][g.feed[i].matched.value] == db.payments[g.feed[i].matched.value];
        }
      }
    }
    NextIsDistinct(Funded(g), n, PaymentBehind(row), |g.db.payments|, |db.payments|);
    assert Funded(after) == Funded(g)[..n] + [PaymentBehind(row)] + Funded(g)[n..];
  }

  lemma SyncFunds(g: Inbox, r: SyncRecord, db: Db)
    requires RecordsOk(g) && RecordOf(g.synced, r.client).None?
    requires |db.payments| >= |g.db.payments| && SameTenders(db.payments[..|g.db.payments|], g.db.payments)
    requires r.outcome.Accepted? ==> r.outcome.payment == |g.db.payments| < |db.payments|
    ensures RecordsOk(g.(synced := g.synced + [r], db := db))
  {
    var after := g.(synced := g.synced + [r], db := db);
    forall i | 0 <= i < |after.feed| ensures RowOk(after, i) {
      assert RowOk(g, i);
      if g.feed[i].status == Matched {
        assert db.payments[..|g.db.payments|][g.feed[i].matched.value] == db.payments[g.feed[i].matched.value];
      }
    }
    var n := |Funded(g)|;
    NextIsDistinct(Funded(g), n, PaymentOf(r), |g.db.payments|, |db.payments|);
    assert Funded(after) == Funded(g)[..n] + [PaymentOf(r)] + Funded(g)[n..];
  }

  /** The same payments, statuses apart. */
  ghost predicate SameTenders(x: seq<Payment>, y: seq<Payment>) {
    |x| == |y| && forall i | 0 <= i < |x| ::
      x[i].channel == y[i].channel && x[i].ref == y[i].ref && x[i].amount == y[i].amount && x[i].postedOn == y[i].postedOn
  }

  lemma ServicesKeepTenders(db: Db, m: Ledger.Move)
    ensures |Ledger.Apply(db, m).payments| >= |db.payments|
    ensures SameTenders(Ledger.Apply(db, m).payments[..|db.payments|], db.payments)
  {
    hide Billing.Recompute, Billing.MergeAll, Billing.SupersedeAll, Billing.NewLines, Billing.Prepare, Enforcement.RefreshBill;
    hide Fifo.AllRows, AppliedOf, RefUsed;
  }

  lemma ServiceKeepsRecords(g: Inbox, db: Db)
    requires RecordsOk(g)
    requires |db.payments| >= |g.db.payments| && SameTenders(db.payments[..|g.db.payments|], g.db.payments)
    ensures RecordsOk(g.(db := db))
  {
    var after := g.(db := db);
    forall i | 0 <= i < |after.feed| ensures RowOk(after, i) {
      assert RowOk(g, i);
      if g.feed[i].status == Matched {
        assert db.payments[..|g.db.payments|][g.feed[i].matched.value] == db.payments[g.feed[i].matched.value];
      }
    }
    assert Funded(after) == Funded(g);
  }

  lemma ReceiveKeepsRecords(g: Inbox, c: Channel, n: Notice, today: int)
    requires RecordsOk(g) && Payable(g.db)
    ensures RecordsOk(Receive(g, c, n, today).0)
  {
    hide Post, RecordsOk, HasRow;
    if n.bill < |g.db.bills| { PostAddsOne(g.db, TenderOf(c, n), today); }
    var (after, a) := Receive(g, c, n, today);
    if a != Duplicate {
      FeedFunds(g, after.feed[|g.feed|], after.db);
      assert after == g.(feed := g.feed + [after.feed[|g.feed|]], db := after.db);
    }
  }

  lemma ReplayKeepsRecords(g: Inbox, client: string, w: Option<nat>, t: Tender, today: int)
    requires RecordsOk(g) && Payable(g.db)
    ensures RecordsOk(Replay(g, client, w, t, today).0)
  {
    hide Post, RecordsOk, RecordOf;
    if t.bill < |g.db.bills| { PostAddsOne(g.db, t, today); }
    if RecordOf(g.synced, client).None? {
      var (db, outcome) := TrySync(g, w, t, today);
      SyncFunds(g, SyncRecord(client, outcome), db);
    }
  }

  lemma ArrivalKeepsRecords(g: Inbox, a: Arrival)
    requires RecordsOk(g)
    ensures RecordsOk(Arrive(g, a))
  {
    hide RecordsOk, Receive, Replay, Ledger.Apply;
    if Payable(g.db) {
      match a.event
      case FromBank(c, n) => ReceiveKeepsRecords(g, c, n, a.clock.day);
      case FromTeller(n) => ReceiveKeepsRecords(g, Otc, n, a.clock.day);
      case FromAgent(client, w, t) => ReplayKeepsRecords(g, client, w, t, a.clock.day);
      case Service(step) =>
        ServicesKeepTenders(g.db, Ledger.Move(step, a.clock));
        ServiceKeepsRecords(g, Ledger.Apply(g.db, Ledger.Move(step, a.clock)));
    }
  }

  /** In every reachable system each key has one record, each matched feed row names a payment with its own channel,
      reference, amount and day, and no payment is behind two records. */
  lemma {:induction false} EveryPaymentHasOneRecord(payers: nat, ward: nat -> nat, arrivals: seq<Arrival>)
    ensures RecordsOk(Run(Start(payers, ward), arrivals))
  {
    if arrivals == [] {
      assert Funded(Start(payers, ward)) == [];
    } else {
      hide Arrive, RecordsOk;
      var n := |arrivals| - 1;
      EveryPaymentHasOneRecord(payers, ward, arrivals[..n]);
      ArrivalKeepsRecords(Run(Start(payers, ward), arrivals[..n]), arrivals[n]);
    }
  }

  /** A non-blank bank reference funds at most one payment of a channel. */
  ghost predicate RefsDiffer(payments: seq<Payment>) {
    forall i, j | 0 <= i < j < |payments| && payments[i].ref != "" ::
      payments[i].channel != payments[j].channel || payments[i].ref != payments[j].ref
  }

  lemma StepKeepsRefsDiffer(db: Db, m: Ledger.Move)
    requires RefsDiffer(db.payments)
    ensures RefsDiffer(Ledger.Apply(db, m).payments)
  {
    if m.step.PostPayment? {
      hide PostAccepted;
      var t := m.step.tender;
      if Ledger.Callable(db, m.step) { PostAddsOne(db, t, m.clock.day); }
    } else {
      hide Ledger.Apply;
      OtherServicesAddNoRef(db, m);
    }
  }

  /** However payments come in, by hand, by feed or offline, a reference funds one payment a channel. */
  lemma {:induction false} OneReferenceOnePayment(payers: nat, moves: seq<Ledger.Move>)
    ensures RefsDiffer(Ledger.Run(Empty(payers), moves).payments)
  {
    if moves != [] {
      OneReferenceOnePayment(payers, moves[..|moves| - 1]);
      StepKeepsRefsDiffer(Ledger.Run(Empty(payers), moves[..|moves| - 1]), moves[|moves| - 1]);
    }
  }

  // ---- teller files ----

  function RowArrivals(rows: seq<Notice>, clock: Billing.Clock): seq<Arrival> {
    seq(|rows|, i requires 0 <= i < |rows| => Arrival(FromTeller(rows[i]), clock))
  }

  /** How many rows the loop looks at: all of them, or up to the one that stops it. */
  function Handled(g: Inbox, rows: seq<Notice>, today: int): (h: nat)
    requires Payable(g.db)
    ensures h <= |rows| && (rows != [] ==> h > 0)
    ensures !Settle(g, rows, today).stopped ==> h == |rows|
  {
    if rows == [] then 0
    else
      var init := rows[..|rows| - 1];
      if Settle(g, init, today).stopped then Handled(g, init, today) else |rows|
  }

  /** One row more. */
  lemma SettleLast(g: Inbox, init: seq<Notice>, row: Notice, today: int)
    requires Payable(g.db)
    ensures var f := Settle(g, init, today);
            && Settle(g, init + [row], today)
               == (if f.stopped then f else CountRow(f, row, OtcRow(f.inbox, row, today).0, OtcRow(f.inbox, row, today).1))
            && Handled(g, init + [row], today) == if f.stopped then Handled(g, init, today) else |init| + 1
  {
    hide OtcRow, CountRow;
    assert (init + [row])[..|init|] == init;
  }

  lemma NoRows(g: Inbox, today: int)
    requires Payable(g.db)
    ensures Settle(g, [], today) == File(g, 0, 0, [], false) && Handled(g, [], today) == 0
  {
  }

  function Counted(f: File): nat {
    f.posted + f.duplicates + |f.exceptions| + if f.stopped then 1 else 0
  }

  lemma RowIsCounted(f: File, row: Notice, today: int)
    requires Payable(f.inbox.db) && !f.stopped
    ensures var (after, a) := OtcRow(f.inbox, row, today);
            var next := CountRow(f, row, after, a);
            && next.inbox == after && Counted(next) == Counted(f) + 1
            && |next.inbox.db.payments| - next.posted == |f.inbox.db.payments| - f.posted
  {
    hide Receive;
    PostedIsOnePayment(f.inbox, Otc, row, today);
  }

  /** How a row is tallied: a posted one as posted, one already on the feed as a duplicate, and a malformed one, one without a
      bill and one its bill refuses among the exceptions; a clash stops the file. */
  lemma RowIsTallied(f: File, row: Notice, today: int)
    requires Payable(f.inbox.db)
    ensures var (after, a) := OtcRow(f.inbox, row, today);
            var next := CountRow(f, row, after, a);
            && next.posted == f.posted + (if a.Posted? then 1 else 0)
            && next.duplicates == f.duplicates + (if a == Duplicate then 1 else 0)
            && next.exceptions == (if a == Malformed || a == AcceptedUnmatched || a == Refused then f.exceptions + [row] else f.exceptions)
            && (next.stopped <==> f.stopped || a == Crashed)
  {
    hide OtcRow;
  }

  /** A file is its rows delivered one by one, as far as it goes; every row looked at is counted exactly once, the one that
      stops it apart, and posted ones are the payments made. */
  lemma {:induction false} FileIsItsRows(g: Inbox, rows: seq<Notice>, clock: Billing.Clock)
    requires Payable(g.db)
    ensures var f, h := Settle(g, rows, clock.day), Handled(g, rows, clock.day);
            && f.inbox == Run(g, RowArrivals(rows[..h], clock))
            && Counted(f) == h
            && |f.inbox.db.payments| == |g.db.payments| + f.posted
  {
    hide Settle, Handled, OtcRow, CountRow, Counted, Run;
    if rows == [] {
      NoRows(g, clock.day);
      NoRowsRun(g, clock);
    } else {
      var n := |rows| - 1;
      var init, row := rows[..n], rows[n];
      assert rows == init + [row];
      FileIsItsRows(g, init, clock);
      SettleLast(g, init, row, clock.day);
      var f, h := Settle(g, init, clock.day), Handled(g, init, clock.day);
      if f.stopped {
        assert init[..h] == rows[..h];
      } else {
        assert init[..n] == init && rows[..|rows|] == rows;
        RunsRowByRow(g, rows, clock);
        RowIsCounted(f, row, clock.day);
      }
    }
  }

  lemma NoRowsRun(g: Inbox, clock: Billing.Clock)
    ensures Run(g, RowArrivals([], clock)) == g && Counted(File(g, 0, 0, [], false)) == 0
  {
  }

  lemma RunsRowByRow(g: Inbox, rows: seq<Notice>, clock: Billing.Clock)
    requires rows != []
    ensures var n, before := |rows| - 1, Run(g, RowArrivals(rows[..|rows| - 1], clock));
            Run(g, RowArrivals(rows, clock)) == if Payable(before.db) then OtcRow(before, rows[n], clock.day).0 else before
  {
    hide OtcRow, Payable;
    var n := |rows| - 1;
    assert RowArrivals(rows, clock)[..n] == RowArrivals(rows[..n], clock);
  }

  lemma PostedIsOnePayment(g: Inbox, c: Channel, n: Notice, today: int)
    requires Payable(g.db)
    ensures var (after, a) := Receive(g, c, n, today);
            |after.db.payments| == |g.db.payments| + if a.Posted? then 1 else 0
  {
    hide Post;
    if n.bill < |g.db.bills| { PostAddsOne(g.db, TenderOf(c, n), today); }
  }

  /** The malformed rows of a file. */
  function MalformedIn(rows: seq<Notice>): (r: seq<Notice>)
    ensures |r| <= |rows|
  {
    if rows == [] then []
    else MalformedIn(rows[..|rows| - 1]) + if WellFormed(Otc, rows[|rows| - 1]) then [] else [rows[|rows| - 1]]
  }

  lemma {:induction false} SkipsRecordedRows(g: Inbox, rows: seq<Notice>, today: int)
    requires Payable(g.db) && forall i | 0 <= i < |rows| && WellFormed(Otc, rows[i]) :: HasRow(g.feed, Otc, rows[i].ref)
    ensures Settle(g, rows, today) == File(g, 0, |rows| - |MalformedIn(rows)|, MalformedIn(rows), false)
  {
    if rows != [] {
      SkipsRecordedRows(g, rows[..|rows| - 1], today);
    }
  }

  lemma {:induction false} SettledRowsAreRecorded(g: Inbox, rows: seq<Notice>, clock: Billing.Clock, i: nat)
    requires Payable(g.db) && i < Handled(g, rows, clock.day) && WellFormed(Otc, rows[i])
    ensures HasRow(Settle(g, rows, clock.day).inbox.feed, Otc, rows[i].ref)
  {
    hide Receive;
    var n := |rows| - 1;
    var f := Settle(g, rows[..n], clock.day);
    if f.stopped {
      SettledRowsAreRecorded(g, rows[..n], clock, i);
    } else if i == n {
      TellerRowRecordsIff(f.inbox, rows[n], clock.day);
    } else {
      SettledRowsAreRecorded(g, rows[..n], clock, i);
      RecordedForever(f.inbox, Arrival(FromTeller(rows[n]), clock), FeedKey(Otc, rows[i].ref));
    }
  }

  /** One file after another, as one. */
  function Joined(f: File, more: File): File {
    File(more.inbox, f.posted + more.posted, f.duplicates + more.duplicates, f.exceptions + more.exceptions, more.stopped)
  }

  lemma CountsBehind(f: File, more: File, row: Notice, after: Inbox, a: Answer)
    ensures CountRow(Joined(f, more), row, after, a) == Joined(f, CountRow(more, row, after, a))
  {
  }

  lemma {:induction false} SettleJoins(g: Inbox, first: seq<Notice>, rest: seq<Notice>, today: int)
    requires Payable(g.db) && !Settle(g, first, today).stopped
    ensures var f := Settle(g, first, today);
            && Settle(g, first + rest, today) == Joined(f, Settle(f.inbox, rest, today))
            && Handled(g, first + rest, today) == |first| + Handled(f.inbox, rest, today)
  {
    hide Settle, Handled, OtcRow, CountRow;
    var f := Settle(g, first, today);
    if rest == [] {
      assert first + rest == first;
      NoRows(f.inbox, today);
    } else {
      var n := |rest| - 1;
      var init, row := rest[..n], rest[n];
      SettleJoins(g, first, init, today);
      assert rest == init + [row] && first + rest == (first + init) + [row];
      SettleLast(g, first + init, row, today);
      SettleLast(f.inbox, init, row, today);
      var more := Settle(f.inbox, init, today);
      CountsBehind(f, more, row, OtcRow(more.inbox, row, today).0, OtcRow(more.inbox, row, today).1);
    }
  }

  /** Re-sending a file, on any later day, skips every row already looked at, posting nothing for it, and goes on behind the
      row that had stopped it as a new file would; so every re-send gets further until the file is done. */
  lemma ResendingResumes(g: Inbox, rows: seq<Notice>, clock: Billing.Clock, later: int)
    requires Payable(g.db)
    ensures var f, h := Settle(g, rows, clock.day), Handled(g, rows, clock.day);
            && Settle(f.inbox, rows, later)
               == Joined(File(f.inbox, 0, h - |MalformedIn(rows[..h])|, MalformedIn(rows[..h]), false), Settle(f.inbox, rows[h..], later))
            && Handled(f.inbox, rows, later) == h + Handled(f.inbox, rows[h..], later)
            && (h < |rows| ==> Handled(f.inbox, rows, later) > h)
  {
    hide Settle, HasRow, Handled;
    var f, h := Settle(g, rows, clock.day), Handled(g, rows, clock.day);
    forall i | 0 <= i < h && WellFormed(Otc, rows[..h][i]) ensures HasRow(f.inbox.feed, Otc, rows[..h][i].ref) {
      SettledRowsAreRecorded(g, rows, clock, i);
    }
    SkipsRecordedRows(f.inbox, rows[..h], later);
    SettleJoins(f.inbox, rows[..h], rows[h..], later);
    assert rows[..h] + rows[h..] == rows;
  }

  /** In particular, re-sending a file that ran to its end posts nothing and changes nothing: its rows come back as
      duplicates, its malformed rows as exceptions again. */
  lemma ResendingAFilePostsNothing(g: Inbox, rows: seq<Notice>, clock: Billing.Clock, later: int)
    requires Payable(g.db) && !Settle(g, rows, clock.day).stopped
    ensures var f := Settle(g, rows, clock.day);
            Settle(f.inbox, rows, later) == File(f.inbox, 0, |rows| - |MalformedIn(rows)|, MalformedIn(rows), false)
  {
    hide Settle;
    ResendingResumes(g, rows, clock, later);
    assert rows[..|rows|] == rows && rows[|rows|..] == [];
    NoRows(Settle(g, rows, clock.day).inbox, later);
  }
}
