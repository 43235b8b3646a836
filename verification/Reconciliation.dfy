/** Matching the bank's feed against the payments of a channel on one day. */
module Reconciliation {
  import opened Prelude
  import opened Sums
  import opened Tables

  // ---- the matching rule ----

  /** A payment the platform took through a channel on a day and still holds. */
  predicate TakenOn(p: Payment, channel: Channel, day: int) {
    p.status == Confirmed && p.channel == channel && p.postedOn == day
  }

  predicate CameOn(row: FeedRow, channel: Channel, day: int) {
    row.channel == channel && row.receivedOn == day
  }

  predicate Agrees(p: Payment, row: FeedRow, channel: Channel, day: int) {
    TakenOn(p, channel, day) && p.ref == row.ref && p.amount == row.amount
  }

  /** The first payment, by id, among the first `n` that agrees with the row. */
  function FirstMatch(payments: seq<Payment>, row: FeedRow, channel: Channel, day: int, n: nat): (r: Option<nat>)
    requires n <= |payments|
    ensures r.Some? ==> r.value < n && Agrees(payments[r.value], row, channel, day)
    ensures r.Some? ==> forall p | 0 <= p < r.value :: !Agrees(payments[p], row, channel, day)
    ensures r.None? ==> forall p | 0 <= p < n :: !Agrees(payments[p], row, channel, day)
  {
    if n == 0 then None
    else
      var earlier := FirstMatch(payments, row, channel, day, n - 1);
      if earlier.Some? then earlier
      else if Agrees(payments[n - 1], row, channel, day) then Some(n - 1)
      else None
  }

  function MatchOf(payments: seq<Payment>, row: FeedRow, channel: Channel, day: int): Option<nat> {
    FirstMatch(payments, row, channel, day, |payments|)
  }

  /** The day's rows among the first `n` that no payment agrees with, by id. */
  function WithoutMatch(payments: seq<Payment>, feed: seq<FeedRow>, channel: Channel, day: int, n: nat): seq<nat>
    requires n <= |feed|
  {
    if n == 0 then []
    else
      WithoutMatch(payments, feed, channel, day, n - 1)
      + if CameOn(feed[n - 1], channel, day) && MatchOf(payments, feed[n - 1], channel, day).None? then [n - 1] else []
  }

  function UnmatchedOn(payments: seq<Payment>, feed: seq<FeedRow>, channel: Channel, day: int): seq<nat> {
    WithoutMatch(payments, feed, channel, day, |feed|)
  }

  function TakingsOf(channel: Channel, day: int): Payment -> int {
    (p: Payment) => if TakenOn(p, channel, day) then p.amount else 0
  }

  function CreditsOf(channel: Channel, day: int): FeedRow -> int {
    (r: FeedRow) => if CameOn(r, channel, day) then r.amount else 0
  }

  function Takings(payments: seq<Payment>, channel: Channel, day: int): int {
    Sum(payments, TakingsOf(channel, day))
  }

  function Credits(feed: seq<FeedRow>, channel: Channel, day: int): int {
    Sum(feed, CreditsOf(channel, day))
  }

  // ---- one run ----

  datatype RunStatus = Open | Balanced | Exceptions | Closed

  /** `exceptions` are the feed rows the run reports. */
  datatype Run = Run(platform: int, bank: int, status: RunStatus, exceptions: seq<nat>)

  datatype RunKey = RunKey(channel: Channel, day: int)

  /** A feed row after a run: an unmatched row keeps whatever payment it named before. */
  function Rewritten(payments: seq<Payment>, row: FeedRow, channel: Channel, day: int): FeedRow {
    if !CameOn(row, channel, day) then row
    else
      match MatchOf(payments, row, channel, day)
      case Some(p) => row.(status := Matched, matched := Some(p))
      case None => row.(status := Exception)
  }

  function RewrittenFeed(payments: seq<Payment>, feed: seq<FeedRow>, channel: Channel, day: int): seq<FeedRow> {
    seq(|feed|, i requires 0 <= i < |feed| => Rewritten(payments, feed[i], channel, day))
  }

  function RunOn(payments: seq<Payment>, feed: seq<FeedRow>, channel: Channel, day: int): Run {
    var exceptions := UnmatchedOn(payments, feed, channel, day);
    Run(Takings(payments, channel, day), Credits(feed, channel, day),
        if exceptions == [] then Balanced else Exceptions, exceptions)
  }

  /** What the dashboard shows for a day, over the channels that have a feed. */
  datatype Summary = Summary(platform: int, bank: int, unmatched: seq<nat>)

  function AllTakingsOf(day: int): Payment -> int {
    (p: Payment) => if p.status == Confirmed && p.postedOn == day then p.amount else 0
  }

  /** Only cash has no bank feed. */
  predicate HasFeed(channel: Channel) {
    channel != Cash
  }

  function AllUnmatched(payments: seq<Payment>, feed: seq<FeedRow>, channels: seq<Channel>, day: int): seq<nat> {
    if channels == [] then []
    else
      var last := channels[|channels| - 1];
      AllUnmatched(payments, feed, channels[..|channels| - 1], day)
      + if HasFeed(last) then UnmatchedOn(payments, feed, last, day) else []
  }

  function FedCredits(feed: seq<FeedRow>, day: int): Channel -> int {
    (c: Channel) => if HasFeed(c) then Credits(feed, c, day) else 0
  }

  function SummaryOn(payments: seq<Payment>, feed: seq<FeedRow>, channels: seq<Channel>, day: int): Summary {
    Summary(Sum(payments, AllTakingsOf(day)), Sum(channels, FedCredits(feed, day)), AllUnmatched(payments, feed, channels, day))
  }

  // ---- the service ----

  class ReconciliationDesk {
    const store: Store
    var feed: seq<FeedRow>
    var runs: map<RunKey, Run>

    constructor (store: Store, feed: seq<FeedRow>)
      ensures this.store == store && this.feed == feed && runs == map[]
    {
      this.store, this.feed, runs := store, feed, map[];
    }

    /** The feed rows of one channel and day against its payments. */
    method MatchFeedRowsForChannel(channel: Channel, day: int)
      returns (totalBank: int, matches: map<nat, Option<nat>>, unmatched: seq<nat>)
      ensures totalBank == Credits(feed, channel, day)
      ensures forall i: nat :: i in matches <==> i < |feed| && CameOn(feed[i], channel, day)
      ensures forall i: nat | i in matches :: matches[i] == MatchOf(store.payments, feed[i], channel, day)
      ensures unmatched == UnmatchedOn(store.payments, feed, channel, day)
    {
      hide MatchOf, CameOn;
      totalBank, matches, unmatched := 0, map[], [];
      for k := 0 to |feed|
        invariant totalBank == Sum(feed[..k], CreditsOf(channel, day))
        invariant forall i: nat :: i in matches <==> i < k && CameOn(feed[i], channel, day)
        invariant forall i: nat | i in matches :: matches[i] == MatchOf(store.payments, feed[i], channel, day)
        invariant unmatched == WithoutMatch(store.payments, feed, channel, day, k)
      {
        assert feed[..k + 1] == feed[..k] + [feed[k]];
        SumPush(feed[..k], feed[k], CreditsOf(channel, day));
        if CameOn(feed[k], channel, day) {
          var row := feed[k];
          totalBank := totalBank + row.amount;
          var found := MatchOf(store.payments, row, channel, day);
          matches := matches[k := found];
          if found.None? {
            unmatched := unmatched + [k];
          }
        }
      }
      assert feed[..|feed|] == feed;
    }

    /** Writes the run's findings onto the day's feed rows. */
    method RewriteRows(channel: Channel, day: int, matches: map<nat, Option<nat>>) returns (exceptions: seq<nat>)
      requires forall i: nat :: i in matches <==> i < |feed| && CameOn(feed[i], channel, day)
      requires forall i: nat | i in matches :: matches[i] == MatchOf(store.payments, feed[i], channel, day)
      modifies `feed
      ensures feed == RewrittenFeed(store.payments, old(feed), channel, day)
      ensures exceptions == UnmatchedOn(store.payments, old(feed), channel, day)
    {
      hide MatchOf, CameOn;
      ghost var before := feed;
      exceptions := [];
      for k := 0 to |feed|
        invariant |feed| == |before|
        invariant forall i | 0 <= i < k :: feed[i] == Rewritten(store.payments, before[i], channel, day)
        invariant forall i | k <= i < |feed| :: feed[i] == before[i]
        invariant exceptions == WithoutMatch(store.payments, before, channel, day, k)
      {
        if CameOn(feed[k], channel, day) {
          match matches[k]
          case Some(p) =>
            feed := feed[k := feed[k].(status := Matched, matched := Some(p))];
          case None =>
            feed := feed[k := feed[k].(status := Exception)];
            exceptions := exceptions + [k];
        }
      }
    }

    method RunReconciliation(channel: Channel, day: int) returns (r: Result<Run, Fault>)
      modifies `feed, `runs
      ensures !HasFeed(channel) ==> r == Err(NoFeedExpected) && feed == old(feed) && runs == old(runs)
      ensures HasFeed(channel) ==>
                && r == Ok(RunOn(store.payments, old(feed), channel, day))
                && feed == RewrittenFeed(store.payments, old(feed), channel, day)
                && runs == old(runs)[RunKey(channel, day) := RunOn(store.payments, old(feed), channel, day)]
    {
      hide UnmatchedOn, RewrittenFeed, Takings, Credits;
      if !HasFeed(channel) {
        return Err(NoFeedExpected);
      }
      var totalPlatform := Takings(store.payments, channel, day);
      var totalBank, matches, _ := MatchFeedRowsForChannel(channel, day);
      var exceptions := RewriteRows(channel, day, matches);
      var run := Run(totalPlatform, totalBank, if exceptions == [] then Balanced else Exceptions, exceptions);
      runs := runs[RunKey(channel, day) := run];
      r := Ok(run);
    }

    method LiveReconciliationSummary(channels: seq<Channel>, day: int) returns (s: Summary)
      ensures s == SummaryOn(store.payments, feed, channels, day)
    {
      var totalBank, unmatched := 0, [];
      for k := 0 to |channels|
        invariant totalBank == Sum(channels[..k], FedCredits(feed, day))
        invariant unmatched == AllUnmatched(store.payments, feed, channels[..k], day)
      {
        assert channels[..k + 1][..k] == channels[..k];
        if HasFeed(channels[k]) {
          var channelTotal, _, rows := MatchFeedRowsForChannel(channels[k], day);
          totalBank := totalBank + channelTotal;
          unmatched := unmatched + rows;
        }
      }
      assert channels[..|channels|] == channels;
      s := Summary(Sum(store.payments, AllTakingsOf(day)), totalBank, unmatched);
    }
  }
}
