/** Bank notifications, teller files and offline payments: the records that make a re-sent delivery harmless. */
module Channels {
  import opened Prelude
  import opened Tables
  import opened Payments

  /** One notification: the bank's reference, the amount, and the bill the bill reference names, if there is one yet. */
  datatype Notice = Notice(ref: string, amount: int, bill: nat)

  datatype Outcome = Accepted(payment: nat) | Rejected

  /** One row of the offline queue's idempotency ledger. */
  datatype SyncRecord = SyncRecord(client: string, outcome: Outcome)

  /** `ward(y)` is payer y's ward. */
  datatype Inbox = Inbox(db: Db, feed: seq<FeedRow>, synced: seq<SyncRecord>, ward: nat -> nat)

  datatype Answer =
    | Posted(payment: nat)
    | Duplicate
    | AcceptedUnmatched   // no such bill
    | Refused             // the bill takes no payment
    | Malformed           // refused before anything is written
    | Crashed             // the reference already funds a payment of this channel

  predicate HasRow(feed: seq<FeedRow>, channel: Channel, ref: string) {
    exists i :: 0 <= i < |feed| && feed[i].channel == channel && feed[i].ref == ref
  }

  function RecordOf(synced: seq<SyncRecord>, client: string): (r: Option<Outcome>)
    ensures r.Some? <==> exists i :: 0 <= i < |synced| && synced[i].client == client
  {
    if synced == [] then None
    else if synced[0].client == client then Some(synced[0].outcome)
    else
      assert forall i | 1 <= i < |synced| :: synced[i] == synced[1..][i - 1];
      assert forall i | 0 <= i < |synced[1..]| :: synced[1..][i] == synced[i + 1];
      RecordOf(synced[1..], client)
  }

  /** Every bill belongs to a payer in the table. */
  predicate Payable(db: Db) {
    forall b | 0 <= b < |db.bills| :: db.bills[b].payer < |db.credit|
  }

  /** Cash has no adapter; every other channel takes positive amounts only. */
  predicate WellFormed(channel: Channel, n: Notice) {
    channel != Cash && n.amount > 0
  }

  function NewRow(channel: Channel, n: Notice, today: int): FeedRow {
    FeedRow(channel, n.ref, n.amount, today, Unmatched, None)
  }

  function TenderOf(channel: Channel, n: Notice): Tender {
    Tender(n.bill, channel, n.ref, n.amount)
  }

  /** What both feeds do with a well-formed notice: record it once, then try to post it. */
  function Receive(g: Inbox, channel: Channel, n: Notice, today: int): (Inbox, Answer)
    requires Payable(g.db)
  {
    var row := NewRow(channel, n, today);
    if HasRow(g.feed, channel, n.ref) then (g, Duplicate)
    else if n.bill >= |g.db.bills| then (g.(feed := g.feed + [row.(status := Exception)]), AcceptedUnmatched)
    else
      match Post(g.db, TenderOf(channel, n), today)
      case Ok(db) =>
        var p := |g.db.payments|;
        (g.(db := db, feed := g.feed + [row.(status := Matched, matched := Some(p))]), Posted(p))
      case Err(e) =>
        if e == PaymentRejected then (g.(feed := g.feed + [row.(status := Exception)]), Refused)
        else (g.(feed := g.feed + [row]), Crashed)
  }

  /** A webhook runs in a transaction of its own, so a crash takes the feed row back with it. */
  function Webhook(g: Inbox, channel: Channel, n: Notice, today: int): (Inbox, Answer)
    requires Payable(g.db)
  {
    if !WellFormed(channel, n) then (g, Malformed)
    else
      var (after, a) := Receive(g, channel, n, today);
      if a == Crashed then (g, Crashed) else (after, a)
  }

  function OtcRow(g: Inbox, n: Notice, today: int): (Inbox, Answer)
    requires Payable(g.db)
  {
    if !WellFormed(Otc, n) then (g, Malformed) else Receive(g, Otc, n, today)
  }

  /** The outcome of a queued payment that has no record yet, and the ledger it leaves. */
  function TrySync(g: Inbox, agentWard: Option<nat>, t: Tender, today: int): (Db, Outcome)
    requires Payable(g.db)
  {
    if t.amount <= 0 || t.bill >= |g.db.bills| || agentWard != Some(g.ward(g.db.bills[t.bill].payer)) then (g.db, Rejected)
    else
      match Post(g.db, t, today)
      case Ok(db) => (db, Accepted(|g.db.payments|))
      case Err(_) => (g.db, Rejected)
  }

  function Replay(g: Inbox, client: string, agentWard: Option<nat>, t: Tender, today: int): (Inbox, Outcome)
    requires Payable(g.db)
  {
    match RecordOf(g.synced, client)
    case Some(outcome) => (g, outcome)
    case None =>
      var (db, outcome) := TrySync(g, agentWard, t, today);
      (g.(db := db, synced := g.synced + [SyncRecord(client, outcome)]), outcome)
  }

  lemma PostKeepsPayable(db: Db, t: Tender, today: int)
    requires Payable(db) && t.bill < |db.bills|
    ensures Post(db, t, today).Ok? ==> Payable(Post(db, t, today).value)
  {
  }

  lemma ReceiveKeepsPayable(g: Inbox, channel: Channel, n: Notice, today: int)
    requires Payable(g.db)
    ensures Payable(Receive(g, channel, n, today).0.db)
  {
    hide Post;
    if n.bill < |g.db.bills| { PostKeepsPayable(g.db, TenderOf(channel, n), today); }
  }

  // ---- a teller file ----

  /** `stopped` when a row crashed: what came before it is kept, what comes after it is not looked at. */
  datatype File = File(inbox: Inbox, posted: nat, duplicates: nat, exceptions: seq<Notice>, stopped: bool)

  function CountRow(f: File, n: Notice, after: Inbox, a: Answer): File {
    match a
    case Posted(_) => f.(inbox := after, posted := f.posted + 1)
    case Duplicate => f.(inbox := after, duplicates := f.duplicates + 1)
    case Crashed => f.(inbox := after, stopped := true)
    case _ => f.(inbox := after, exceptions := f.exceptions + [n])
  }

  function Settle(g: Inbox, rows: seq<Notice>, today: int): (f: File)
    requires Payable(g.db)
    ensures Payable(f.inbox.db)
  {
    if rows == [] then File(g, 0, 0, [], false)
    else
      var f := Settle(g, rows[..|rows| - 1], today);
      if f.stopped then f
      else
        var n := rows[|rows| - 1];
        ReceiveKeepsPayable(f.inbox, Otc, n, today);
        var (after, a) := OtcRow(f.inbox, n, today);
        CountRow(f, n, after, a)
  }

  // ---- the endpoints ----

  class Gateway {
    const store: Store
    const ward: nat -> nat
    var feed: seq<FeedRow>
    var synced: seq<SyncRecord>

    constructor (store: Store, ward: nat -> nat)
      ensures this.store == store && this.ward == ward && feed == [] && synced == []
    {
      this.store, this.ward, feed, synced := store, ward, [], [];
    }

    function State(): Inbox
      reads this, store
    {
      Inbox(store.Rows(), feed, synced, ward)
    }

    method MarkLast(status: MatchStatus, matched: Option<nat>)
      requires feed != []
      modifies `feed
      ensures feed == old(feed)[|old(feed)| - 1 := old(feed)[|old(feed)| - 1].(status := status, matched := matched)]
    {
      feed := feed[|feed| - 1 := feed[|feed| - 1].(status := status, matched := matched)];
    }

    /** From the feed row on: post and match, or leave the row as an exception. */
    method ReceiveNotice(channel: Channel, n: Notice, today: int) returns (a: Answer)
      requires Payable(store.Rows()) && WellFormed(channel, n)
      modifies `feed, store
      ensures (State(), a) == Receive(old(State()), channel, n, today)
    {
      hide Post, RefUsed;
      ghost var rows := feed;
      if HasRow(feed, channel, n.ref) {
        return Duplicate;
      }
      feed := feed + [FeedRow(channel, n.ref, n.amount, today, Unmatched, None)];
      if n.bill >= |store.bills| {
        MarkLast(Exception, None);
        assert feed == rows + [NewRow(channel, n, today).(status := Exception)];
        return AcceptedUnmatched;
      }
      var r := PostPayment(store, Tender(n.bill, channel, n.ref, n.amount), today);
      match r
      case Err(e) =>
        if e == PaymentRejected {
          MarkLast(Exception, None);
          assert feed == rows + [NewRow(channel, n, today).(status := Exception)];
          a := Refused;
        } else {
          a := Crashed;
        }
      case Ok(p) =>
        MarkLast(Matched, Some(p));
        assert feed == rows + [NewRow(channel, n, today).(status := Matched, matched := Some(p))];
        a := Posted(p);
    }

    method ReceiveWebhook(channel: Channel, n: Notice, today: int) returns (a: Answer)
      requires Payable(store.Rows())
      modifies `feed, store
      ensures (State(), a) == Webhook(old(State()), channel, n, today)
    {
      hide Receive;
      if !WellFormed(channel, n) {
        return Malformed;
      }
      var savedFeed, savedRows := feed, store.Rows();
      a := ReceiveNotice(channel, n, today);
      if a == Crashed {
        feed := savedFeed;
        store.Restore(savedRows);
      }
    }

    method SettleOtc(rows: seq<Notice>, today: int) returns (posted: nat, duplicates: nat, exceptions: seq<Notice>, stopped: bool)
      requires Payable(store.Rows())
      modifies `feed, store
      ensures File(State(), posted, duplicates, exceptions, stopped) == Settle(old(State()), rows, today)
    {
      hide Receive;
      posted, duplicates, exceptions, stopped := 0, 0, [], false;
      ghost var start := State();
      var i := 0;
      while i < |rows| && !stopped
        invariant 0 <= i <= |rows|
        invariant Payable(store.Rows())
        invariant File(State(), posted, duplicates, exceptions, stopped) == Settle(start, rows[..i], today)
      {
        var n := rows[i];
        assert rows[..i + 1][..i] == rows[..i];
        i := i + 1;
        ReceiveKeepsPayable(State(), Otc, n, today);
        if !WellFormed(Otc, n) {
          exceptions := exceptions + [n];
        } else {
          var a := ReceiveNotice(Otc, n, today);
          match a
          case Posted(_) => posted := posted + 1;
          case Duplicate => duplicates := duplicates + 1;
          case Crashed => stopped := true;
          case _ => exceptions := exceptions + [n];
        }
      }
      StoppedFileStays(start, rows, i, today);
    }

    method ReplaySync(client: string, agentWard: Option<nat>, t: Tender, today: int) returns (outcome: Outcome)
      requires Payable(store.Rows())
      modifies `synced, store
      ensures (State(), outcome) == Replay(old(State()), client, agentWard, t, today)
    {
      hide Post, RefUsed;
      var existing := RecordOf(synced, client);
      if existing.Some? {
        return existing.value;
      }
      outcome := Rejected;
      if t.amount > 0 && t.bill < |store.bills| {
        var home := ward(store.bills[t.bill].payer);
        if agentWard == Some(home) {
          var r := PostPayment(store, t, today);
          if r.Ok? {
            outcome := Accepted(r.value);
          }
        }
      }
      synced := synced + [SyncRecord(client, outcome)];
    }
  }

  /** Rows after a crash change nothing. */
  lemma {:induction false} StoppedFileStays(g: Inbox, rows: seq<Notice>, i: nat, today: int)
    requires Payable(g.db) && i <= |rows| && (i < |rows| ==> Settle(g, rows[..i], today).stopped)
    ensures Settle(g, rows, today) == Settle(g, rows[..i], today)
  {
    if i == |rows| {
      assert rows[..i] == rows;
    } else {
      assert rows[..|rows| - 1][..i] == rows[..i];
      StoppedFileStays(g, rows[..|rows| - 1], i, today);
    }
  }
}
