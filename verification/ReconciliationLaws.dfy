/** What a reconciliation's totals and exceptions mean. */
module ReconciliationLaws {
  import opened Prelude
  import opened Sums
  import opened Tables
  import opened Reconciliation
  import DeliveryLaws
  import Ledger

  /** Each bank reference is on the feed once a channel. */
  ghost predicate OncePerRef(feed: seq<FeedRow>) {
    forall i, j | 0 <= i < j < |feed| :: feed[i].channel != feed[j].channel || feed[i].ref != feed[j].ref
  }

  /** No payment is claimed by two feed rows of the channel. */
  lemma MatchingIsInjective(payments: seq<Payment>, feed: seq<FeedRow>, channel: Channel, day: int, i: nat, j: nat)
    requires OncePerRef(feed) && i < j < |feed| && CameOn(feed[i], channel, day) && CameOn(feed[j], channel, day)
    requires MatchOf(payments, feed[i], channel, day).Some?
    ensures MatchOf(payments, feed[i], channel, day) != MatchOf(payments, feed[j], channel, day)
  {
    hide FirstMatch;
  }

  lemma {:induction false} WithoutMatchIs(payments: seq<Payment>, feed: seq<FeedRow>, channel: Channel, day: int, n: nat, i: nat)
    requires n <= |feed|
    ensures i in WithoutMatch(payments, feed, channel, day, n) <==>
              i < n && CameOn(feed[i], channel, day) && MatchOf(payments, feed[i], channel, day).None?
  {
    if n > 0 {
      hide FirstMatch, CameOn;
      WithoutMatchIs(payments, feed, channel, day, n - 1, i);
    }
  }

  /** A run's exceptions are exactly the day's rows that no confirmed payment of the channel and day agrees with in
      reference and amount. */
  lemma ExceptionsAreTheUnmatched(payments: seq<Payment>, feed: seq<FeedRow>, channel: Channel, day: int, i: nat)
    ensures i in RunOn(payments, feed, channel, day).exceptions <==>
              && i < |feed| && CameOn(feed[i], channel, day)
              && forall p | 0 <= p < |payments| :: !Agrees(payments[p], feed[i], channel, day)
  {
    WithoutMatchIs(payments, feed, channel, day, |feed|, i);
  }

  lemma {:induction false} WithoutMatchSame(payments: seq<Payment>, feed: seq<FeedRow>, other: seq<FeedRow>, channel: Channel, day: int, n: nat)
    requires n <= |feed| == |other|
    requires forall i | 0 <= i < n :: feed[i].channel == other[i].channel && feed[i].receivedOn == other[i].receivedOn
    requires forall i | 0 <= i < n :: MatchOf(payments, feed[i], channel, day) == MatchOf(payments, other[i], channel, day)
    ensures WithoutMatch(payments, feed, channel, day, n) == WithoutMatch(payments, other, channel, day, n)
  {
    if n > 0 {
      WithoutMatchSame(payments, feed, other, channel, day, n - 1);
    }
  }

  lemma {:induction false} MatchIgnoresStatus(payments: seq<Payment>, row: FeedRow, other: FeedRow, channel: Channel, day: int, n: nat)
    requires n <= |payments| && row.ref == other.ref && row.amount == other.amount
    ensures FirstMatch(payments, row, channel, day, n) == FirstMatch(payments, other, channel, day, n)
  {
    if n > 0 {
      MatchIgnoresStatus(payments, row, other, channel, day, n - 1);
    }
  }

  lemma MatchOfSame(payments: seq<Payment>, row: FeedRow, other: FeedRow, channel: Channel, day: int)
    requires row.ref == other.ref && row.amount == other.amount
    ensures MatchOf(payments, row, channel, day) == MatchOf(payments, other, channel, day)
  {
    MatchIgnoresStatus(payments, row, other, channel, day, |payments|);
  }

  lemma CameOnSame(row: FeedRow, other: FeedRow, channel: Channel, day: int)
    requires row.channel == other.channel && row.receivedOn == other.receivedOn
    ensures CameOn(row, channel, day) == CameOn(other, channel, day)
  {
  }

  /** A run changes statuses and matches, never what the bank said. */
  lemma RewritingKeepsTheNotice(payments: seq<Payment>, feed: seq<FeedRow>, channel: Channel, day: int)
    ensures var after := RewrittenFeed(payments, feed, channel, day);
            && |after| == |feed|
            && forall i | 0 <= i < |feed| ::
                 && after[i].channel == feed[i].channel && after[i].receivedOn == feed[i].receivedOn
                 && after[i].ref == feed[i].ref && after[i].amount == feed[i].amount
  {
    hide FirstMatch, CameOn;
  }

  /** A second run of any channel and day sees what the first one's rewriting left alone: same totals, same exceptions. */
  lemma RunsDoNotDisturbEachOther(
      payments: seq<Payment>, feed: seq<FeedRow>, channel: Channel, day: int, other: Channel, otherDay: int)
    ensures RunOn(payments, RewrittenFeed(payments, feed, other, otherDay), channel, day) == RunOn(payments, feed, channel, day)
  {
    hide FirstMatch, MatchOf, WithoutMatch, Rewritten, RewrittenFeed, CameOn;
    var after := RewrittenFeed(payments, feed, other, otherDay);
    RewritingKeepsTheNotice(payments, feed, other, otherDay);
    forall i | 0 <= i < |feed| ensures MatchOf(payments, after[i], channel, day) == MatchOf(payments, feed[i], channel, day) {
      MatchOfSame(payments, after[i], feed[i], channel, day);
    }
    forall i | 0 <= i < |feed| ensures CreditsOf(channel, day)(after[i]) == CreditsOf(channel, day)(feed[i]) {
      CameOnSame(after[i], feed[i], channel, day);
    }
    WithoutMatchSame(payments, after, feed, channel, day, |feed|);
    SumAlong(after, feed, CreditsOf(channel, day), CreditsOf(channel, day));
  }

  /** Running again on unchanged payments gives the same run and leaves the feed as it is. */
  lemma RerunGivesTheSame(payments: seq<Payment>, feed: seq<FeedRow>, channel: Channel, day: int)
    ensures var after := RewrittenFeed(payments, feed, channel, day);
            && RunOn(payments, after, channel, day) == RunOn(payments, feed, channel, day)
            && RewrittenFeed(payments, after, channel, day) == after
  {
    RunsDoNotDisturbEachOther(payments, feed, channel, day, channel, day);
    var after := RewrittenFeed(payments, feed, channel, day);
    forall i | 0 <= i < |feed| ensures Rewritten(payments, after[i], channel, day) == after[i] {
      MatchOfSame(payments, after[i], feed[i], channel, day);
    }
  }

  // ---- the two sides of the day ----

  /** The payments the first `n` rows are matched to. */
  function MatchedTo(payments: seq<Payment>, feed: seq<FeedRow>, channel: Channel, day: int, n: nat): seq<nat>
    requires n <= |feed|
  {
    if n == 0 then []
    else
      MatchedTo(payments, feed, channel, day, n - 1)
      + if CameOn(feed[n - 1], channel, day) && MatchOf(payments, feed[n - 1], channel, day).Some?
        then [MatchOf(payments, feed[n - 1], channel, day).value] else []
  }

  function AmountAt(payments: seq<Payment>): nat -> int {
    (p: nat) => if p < |payments| then payments[p].amount else 0
  }

  function RowAmount(feed: seq<FeedRow>): nat -> int {
    (i: nat) => if i < |feed| then feed[i].amount else 0
  }

  /** What payment `p` adds to the day's takings when no row of the feed is matched to it. */
  function LeftOver(payments: seq<Payment>, feed: seq<FeedRow>, channel: Channel, day: int): nat -> int {
    (p: nat) =>
      if p < |payments| && TakenOn(payments[p], channel, day) && p !in MatchedTo(payments, feed, channel, day, |feed|)
      then payments[p].amount else 0
  }

  /** The day's takings that the bank's feed does not account for. */
  function UnmatchedTakings(payments: seq<Payment>, feed: seq<FeedRow>, channel: Channel, day: int): int {
    Sum<nat>(UpTo(|payments|), LeftOver(payments, feed, channel, day))
  }

  function UnmatchedCredits(payments: seq<Payment>, feed: seq<FeedRow>, channel: Channel, day: int): int {
    Sum<nat>(UnmatchedOn(payments, feed, channel, day), RowAmount(feed))
  }

  lemma {:induction false} CreditsSplit(payments: seq<Payment>, feed: seq<FeedRow>, channel: Channel, day: int, n: nat)
    requires n <= |feed|
    ensures Sum(feed[..n], CreditsOf(channel, day))
            == Sum<nat>(MatchedTo(payments, feed, channel, day, n), AmountAt(payments))
               + Sum<nat>(WithoutMatch(payments, feed, channel, day, n), RowAmount(feed))
  {
    if n > 0 {
      hide FirstMatch, MatchOf, CameOn;
      var row := feed[n - 1];
      var matched, without := MatchedTo(payments, feed, channel, day, n - 1), WithoutMatch(payments, feed, channel, day, n - 1);
      CreditsSplit(payments, feed, channel, day, n - 1);
      assert feed[..n] == feed[..n - 1] + [row];
      SumPush(feed[..n - 1], row, CreditsOf(channel, day));
      if !CameOn(row, channel, day) {
        assert MatchedTo(payments, feed, channel, day, n) == matched && WithoutMatch(payments, feed, channel, day, n) == without;
      } else if MatchOf(payments, row, channel, day).None? {
        SumPush<nat>(without, n - 1, RowAmount(feed));
        assert MatchedTo(payments, feed, channel, day, n) == matched;
      } else {
        var p := MatchOf(payments, row, channel, day).value;
        FoundAgrees(payments, row, channel, day);
        SumPush<nat>(matched, p, AmountAt(payments));
        assert WithoutMatch(payments, feed, channel, day, n) == without;
      }
    }
  }

  lemma FoundAgrees(payments: seq<Payment>, row: FeedRow, channel: Channel, day: int)
    requires MatchOf(payments, row, channel, day).Some?
    ensures var p := MatchOf(payments, row, channel, day).value;
            p < |payments| && Agrees(payments[p], row, channel, day)
  {
  }

  /** Everything matched is a payment of the day, and is matched by one of the rows. */
  lemma {:induction false} MatchedAreTaken(payments: seq<Payment>, feed: seq<FeedRow>, channel: Channel, day: int, n: nat, k: nat)
    requires n <= |feed| && k < |MatchedTo(payments, feed, channel, day, n)|
    ensures var p := MatchedTo(payments, feed, channel, day, n)[k];
            && p < |payments| && TakenOn(payments[p], channel, day)
            && exists i :: 0 <= i < n && CameOn(feed[i], channel, day) && MatchOf(payments, feed[i], channel, day) == Some(p)
  {
    hide FirstMatch, CameOn;
    if k < |MatchedTo(payments, feed, channel, day, n - 1)| {
      MatchedAreTaken(payments, feed, channel, day, n - 1, k);
    } else {
      assert Agrees(payments[MatchOf(payments, feed[n - 1], channel, day).value], feed[n - 1], channel, day);
    }
  }

  lemma {:induction false} MatchedAreDistinct(payments: seq<Payment>, feed: seq<FeedRow>, channel: Channel, day: int, n: nat, j: nat, k: nat)
    requires OncePerRef(feed) && n <= |feed| && j < k < |MatchedTo(payments, feed, channel, day, n)|
    ensures MatchedTo(payments, feed, channel, day, n)[j] != MatchedTo(payments, feed, channel, day, n)[k]
  {
    hide FirstMatch, CameOn, OncePerRef;
    var m := |MatchedTo(payments, feed, channel, day, n - 1)|;
    if k < m {
      MatchedAreDistinct(payments, feed, channel, day, n - 1, j, k);
    } else {
      MatchedAreTaken(payments, feed, channel, day, n - 1, j);
      var i :| 0 <= i < n - 1 && CameOn(feed[i], channel, day)
               && MatchOf(payments, feed[i], channel, day) == Some(MatchedTo(payments, feed, channel, day, n - 1)[j]);
      MatchingIsInjective(payments, feed, channel, day, i, n - 1);
    }
  }

  lemma TakingsSplit(payments: seq<Payment>, feed: seq<FeedRow>, channel: Channel, day: int)
    requires OncePerRef(feed)
    ensures Takings(payments, channel, day)
            == Sum<nat>(MatchedTo(payments, feed, channel, day, |feed|), AmountAt(payments))
               + UnmatchedTakings(payments, feed, channel, day)
  {
    hide MatchedTo, OncePerRef;
    var ids := MatchedTo(payments, feed, channel, day, |feed|);
    forall k | 0 <= k < |ids| ensures ids[k] < |payments| && TakenOn(payments[ids[k]], channel, day) {
      MatchedAreTaken(payments, feed, channel, day, |feed|, k);
    }
    forall j, k | 0 <= j < k < |ids| ensures ids[j] != ids[k] {
      MatchedAreDistinct(payments, feed, channel, day, |feed|, j, k);
    }
    SumAnyOrder(ids, |payments|, AmountAt(payments));
    SumByIndex(payments, TakingsOf(channel, day));
    SumAdd<nat>(UpTo(|payments|), OnlyIn(ids, AmountAt(payments)), LeftOver(payments, feed, channel, day),
                At(payments, TakingsOf(channel, day)));
  }

  /** The two totals differ by exactly what each side has that the other has not. */
  lemma TotalsDifferByTheUnmatched(payments: seq<Payment>, feed: seq<FeedRow>, channel: Channel, day: int)
    requires OncePerRef(feed)
    ensures var run := RunOn(payments, feed, channel, day);
            run.platform - run.bank == UnmatchedTakings(payments, feed, channel, day) - UnmatchedCredits(payments, feed, channel, day)
  {
    TakingsSplit(payments, feed, channel, day);
    CreditsSplit(payments, feed, channel, day, |feed|);
    assert feed[..|feed|] == feed;
  }

  /** A BALANCED run means the bank's total is within the platform's; the two are equal exactly when every payment of the
      day is matched as well. */
  lemma BalancedMeans(payments: seq<Payment>, feed: seq<FeedRow>, channel: Channel, day: int)
    requires OncePerRef(feed) && forall p | 0 <= p < |payments| :: payments[p].amount > 0
    requires RunOn(payments, feed, channel, day).status == Balanced
    ensures var run := RunOn(payments, feed, channel, day);
            && run.bank <= run.platform
            && (run.bank == run.platform <==>
                  forall p | 0 <= p < |payments| && TakenOn(payments[p], channel, day) ::
                    exists i :: 0 <= i < |feed| && CameOn(feed[i], channel, day) && MatchOf(payments, feed[i], channel, day) == Some(p))
  {
    TotalsDifferByTheUnmatched(payments, feed, channel, day);
    assert UnmatchedCredits(payments, feed, channel, day) == 0;
    NothingLeftOverIff(payments, feed, channel, day);
  }

  lemma MatchedToHas(payments: seq<Payment>, feed: seq<FeedRow>, channel: Channel, day: int, p: nat)
    ensures p in MatchedTo(payments, feed, channel, day, |feed|) <==>
              exists i :: 0 <= i < |feed| && CameOn(feed[i], channel, day) && MatchOf(payments, feed[i], channel, day) == Some(p)
  {
    hide FirstMatch, CameOn;
    var ids := MatchedTo(payments, feed, channel, day, |feed|);
    if p in ids {
      var k :| 0 <= k < |ids| && ids[k] == p;
      MatchedAreTaken(payments, feed, channel, day, |feed|, k);
    }
    forall i | 0 <= i < |feed| && CameOn(feed[i], channel, day) && MatchOf(payments, feed[i], channel, day) == Some(p) ensures p in ids {
      MatchedToKeeps(payments, feed, channel, day, |feed|, i);
    }
  }

  lemma {:induction false} MatchedToKeeps(payments: seq<Payment>, feed: seq<FeedRow>, channel: Channel, day: int, n: nat, i: nat)
    requires i < n <= |feed| && CameOn(feed[i], channel, day) && MatchOf(payments, feed[i], channel, day).Some?
    ensures MatchOf(payments, feed[i], channel, day).value in MatchedTo(payments, feed, channel, day, n)
  {
    hide FirstMatch, CameOn;
    if i < n - 1 {
      MatchedToKeeps(payments, feed, channel, day, n - 1, i);
    }
  }

  lemma {:induction false} PositiveSum(s: seq<nat>, f: nat -> int)
    requires forall x | x in s :: f(x) >= 0
    ensures Sum<nat>(s, f) >= 0 && (Sum<nat>(s, f) == 0 <==> forall x | x in s :: f(x) == 0)
  {
    if s != [] {
      var n := |s| - 1;
      PositiveSum(s[..n], f);
      assert s == s[..n] + [s[n]];
    }
  }

  lemma NothingLeftOverIff(payments: seq<Payment>, feed: seq<FeedRow>, channel: Channel, day: int)
    requires forall p | 0 <= p < |payments| :: payments[p].amount > 0
    ensures UnmatchedTakings(payments, feed, channel, day) >= 0
    ensures UnmatchedTakings(payments, feed, channel, day) == 0 <==>
              forall p | 0 <= p < |payments| && TakenOn(payments[p], channel, day) ::
                exists i :: 0 <= i < |feed| && CameOn(feed[i], channel, day) && MatchOf(payments, feed[i], channel, day) == Some(p)
  {
    hide LeftOver, TakenOn, CameOn, MatchOf;
    var f := LeftOver(payments, feed, channel, day);
    forall p: nat | p in UpTo(|payments|) ensures f(p) >= 0 { LeftOverIs(payments, feed, channel, day, p); }
    PositiveSum(UpTo(|payments|), f);
    forall p: nat | p < |payments|
      ensures p in UpTo(|payments|)
      ensures f(p) == 0 <==> (TakenOn(payments[p], channel, day) ==>
                exists i :: 0 <= i < |feed| && CameOn(feed[i], channel, day) && MatchOf(payments, feed[i], channel, day) == Some(p)) {
      assert UpTo(|payments|)[p] == p;
      LeftOverIs(payments, feed, channel, day, p);
    }
  }

  lemma LeftOverIs(payments: seq<Payment>, feed: seq<FeedRow>, channel: Channel, day: int, p: nat)
    requires p < |payments| && payments[p].amount > 0
    ensures var f := LeftOver(payments, feed, channel, day);
            && f(p) >= 0
            && (f(p) == 0 <==> (TakenOn(payments[p], channel, day) ==>
                  exists i :: 0 <= i < |feed| && CameOn(feed[i], channel, day) && MatchOf(payments, feed[i], channel, day) == Some(p)))
  {
    hide FirstMatch, MatchOf, MatchedTo, CameOn, TakenOn;
    MatchedToHas(payments, feed, channel, day, p);
  }

  // ---- the live summary ----

  function PlatformOf(payments: seq<Payment>, feed: seq<FeedRow>, day: int): Channel -> int {
    (c: Channel) => RunOn(payments, feed, c, day).platform
  }

  function BankOf(payments: seq<Payment>, feed: seq<FeedRow>, day: int): Channel -> int {
    (c: Channel) => RunOn(payments, feed, c, day).bank
  }

  function ReportedBy(payments: seq<Payment>, feed: seq<FeedRow>, channels: seq<Channel>, day: int): seq<nat> {
    if channels == [] then []
    else
      ReportedBy(payments, feed, channels[..|channels| - 1], day)
      + RunOn(payments, feed, channels[|channels| - 1], day).exceptions
  }

  ghost predicate EachOnce(channels: seq<Channel>) {
    && (forall i, j | 0 <= i < j < |channels| :: channels[i] != channels[j])
    && (forall i | 0 <= i < |channels| :: HasFeed(channels[i]))
  }

  function OfChannel(day: int): (Channel, Payment) -> int {
    (c: Channel, p: Payment) => TakingsOf(c, day)(p)
  }

  /** What the channels outside the list took. */
  function Elsewhere(channels: seq<Channel>, day: int): Payment -> int {
    (p: Payment) => if p.channel in channels then 0 else AllTakingsOf(day)(p)
  }

  lemma {:induction false} LiveListsEveryException(payments: seq<Payment>, feed: seq<FeedRow>, channels: seq<Channel>, day: int)
    requires EachOnce(channels)
    ensures AllUnmatched(payments, feed, channels, day) == ReportedBy(payments, feed, channels, day)
    ensures Sum(channels, FedCredits(feed, day)) == Sum(channels, BankOf(payments, feed, day))
  {
    if channels != [] {
      LiveListsEveryException(payments, feed, channels[..|channels| - 1], day);
    }
  }

  lemma CountedOnOneChannel(channels: seq<Channel>, day: int, p: Payment)
    requires EachOnce(channels)
    ensures Sum(channels, Column<Channel, Payment>(OfChannel(day), p)) == if p.channel in channels then AllTakingsOf(day)(p) else 0
  {
    var column := Column<Channel, Payment>(OfChannel(day), p);
    forall c: Channel ensures column(c) == if TakenOn(p, c, day) then p.amount else 0 {
      assert column(c) == OfChannel(day)(c, p) == TakingsOf(c, day)(p);
    }
    if p.channel in channels {
      var i :| 0 <= i < |channels| && channels[i] == p.channel;
      forall j | 0 <= j < |channels| && j != i ensures channels[j] != p.channel {
        if j < i { assert channels[j] != channels[i]; } else { assert channels[i] != channels[j]; }
      }
      SumPick(channels, i, column);
    } else {
      SumZero(channels, column);
    }
  }

  /** The live summary of a day agrees with the runs of its channels: the same unmatched rows in the same order, the sum of
      their bank totals, and the sum of their platform totals plus what came in through channels without a feed. */
  lemma LiveAgreesWithTheRuns(payments: seq<Payment>, feed: seq<FeedRow>, channels: seq<Channel>, day: int)
    requires EachOnce(channels)
    ensures var live := SummaryOn(payments, feed, channels, day);
            && live.unmatched == ReportedBy(payments, feed, channels, day)
            && live.bank == Sum(channels, BankOf(payments, feed, day))
            && live.platform == Sum(channels, PlatformOf(payments, feed, day)) + Sum(payments, Elsewhere(channels, day))
  {
    hide AllUnmatched, ReportedBy, UnmatchedOn, Credits;
    LiveListsEveryException(payments, feed, channels, day);
    var h := OfChannel(day);
    var listed := (p: Payment) => if p.channel in channels then AllTakingsOf(day)(p) else 0;
    forall c | c in channels ensures PlatformOf(payments, feed, day)(c) == Sum(payments, Row<Channel, Payment>(h, c)) {
      SumSame(payments, TakingsOf(c, day), Row<Channel, Payment>(h, c));
    }
    forall p | p in payments ensures listed(p) == Sum(channels, Column<Channel, Payment>(h, p)) {
      CountedOnOneChannel(channels, day, p);
    }
    SumSwap<Channel, Payment>(channels, payments, h, PlatformOf(payments, feed, day), listed);
    SumAdd(payments, listed, Elsewhere(channels, day), AllTakingsOf(day));
  }

  // ---- in terms of the rows alone ----

  /** A confirmed payment with the row's channel, day, reference and amount. */
  ghost predicate Backed(payments: seq<Payment>, row: FeedRow, p: nat) {
    && p < |payments| && payments[p].status == Confirmed && payments[p].channel == row.channel
    && payments[p].postedOn == row.receivedOn && payments[p].ref == row.ref && payments[p].amount == row.amount
  }

  /** A run: the confirmed payments of the channel and day, the bank's rows of the channel and day, and as exceptions those
      rows that no payment backs; BALANCED exactly when there are none. */
  lemma RunIs(payments: seq<Payment>, feed: seq<FeedRow>, channel: Channel, day: int)
    ensures var run := RunOn(payments, feed, channel, day);
            && run.platform == Sum(payments, (p: Payment) =>
                 if p.status == Confirmed && p.channel == channel && p.postedOn == day then p.amount else 0)
            && run.bank == Sum(feed, (r: FeedRow) => if r.channel == channel && r.receivedOn == day then r.amount else 0)
            && (forall i: nat :: i in run.exceptions <==>
                  i < |feed| && feed[i].channel == channel && feed[i].receivedOn == day && forall p: nat :: !Backed(payments, feed[i], p))
            && run.status == if run.exceptions == [] then Balanced else Exceptions
  {
    SumSame(payments, TakingsOf(channel, day), (p: Payment) =>
      if p.status == Confirmed && p.channel == channel && p.postedOn == day then p.amount else 0);
    SumSame(feed, CreditsOf(channel, day), (r: FeedRow) => if r.channel == channel && r.receivedOn == day then r.amount else 0);
    forall i: nat ensures i in RunOn(payments, feed, channel, day).exceptions <==>
      i < |feed| && feed[i].channel == channel && feed[i].receivedOn == day && forall p: nat :: !Backed(payments, feed[i], p) {
      ExceptionsAreTheUnmatched(payments, feed, channel, day, i);
      if i < |feed| && CameOn(feed[i], channel, day) { AgreesIsBacked(payments, feed[i], channel, day); }
    }
  }

  lemma AgreesIsBacked(payments: seq<Payment>, row: FeedRow, channel: Channel, day: int)
    requires CameOn(row, channel, day)
    ensures forall p | 0 <= p < |payments| :: Agrees(payments[p], row, channel, day) <==> Backed(payments, row, p)
  {
  }

  /** What a run writes on a row of its channel and day: the first payment that backs it, or an exception; on others nothing. */
  lemma RowIsRewritten(payments: seq<Payment>, row: FeedRow, channel: Channel, day: int)
    ensures var after := Rewritten(payments, row, channel, day);
            && (row.channel != channel || row.receivedOn != day ==> after == row)
            && (row.channel == channel && row.receivedOn == day ==>
                  && ((exists p: nat :: Backed(payments, row, p)) ==>
                        exists p: nat :: Backed(payments, row, p) && after == row.(status := Matched, matched := Some(p))
                                         && forall q | 0 <= q < p :: !Backed(payments, row, q))
                  && ((forall p: nat :: !Backed(payments, row, p)) ==> after == row.(status := Exception)))
  {
    if CameOn(row, channel, day) {
      AgreesIsBacked(payments, row, channel, day);
      var found := MatchOf(payments, row, channel, day);
      if found.Some? { assert Backed(payments, row, found.value); }
    }
  }

  lemma {:induction false} LiveUnmatchedHas(payments: seq<Payment>, feed: seq<FeedRow>, channels: seq<Channel>, day: int, i: nat)
    ensures i in AllUnmatched(payments, feed, channels, day) <==>
              i < |feed| && feed[i].channel in channels && feed[i].channel != Cash && feed[i].receivedOn == day
              && forall p: nat :: !Backed(payments, feed[i], p)
  {
    if channels != [] {
      hide UnmatchedOn;
      var n := |channels| - 1;
      LiveUnmatchedHas(payments, feed, channels[..n], day, i);
      RunIs(payments, feed, channels[n], day);
      assert channels == channels[..n] + [channels[n]];
      assert RunOn(payments, feed, channels[n], day).exceptions == UnmatchedOn(payments, feed, channels[n], day);
    }
  }

  /** The live summary: all confirmed payments of the day, cash too; the bank's rows of the day on the listed channels but
      cash; and those of them that no payment backs. */
  lemma LiveIs(payments: seq<Payment>, feed: seq<FeedRow>, channels: seq<Channel>, day: int)
    requires forall i, j | 0 <= i < j < |channels| :: channels[i] != channels[j]
    ensures var live := SummaryOn(payments, feed, channels, day);
            && live.platform == Sum(payments, (p: Payment) => if p.status == Confirmed && p.postedOn == day then p.amount else 0)
            && live.bank == Sum(feed, ListedCredit(channels, day))
            && (forall i: nat :: i in live.unmatched <==>
                  i < |feed| && feed[i].channel in channels && feed[i].channel != Cash && feed[i].receivedOn == day
                  && forall p: nat :: !Backed(payments, feed[i], p))
  {
    hide Backed, AllUnmatched;
    SumSame(payments, AllTakingsOf(day), (p: Payment) => if p.status == Confirmed && p.postedOn == day then p.amount else 0);
    forall i: nat ensures i in AllUnmatched(payments, feed, channels, day) <==>
      i < |feed| && feed[i].channel in channels && feed[i].channel != Cash && feed[i].receivedOn == day
      && forall p: nat :: !Backed(payments, feed[i], p) {
      LiveUnmatchedHas(payments, feed, channels, day, i);
    }
    LiveBank(feed, channels, day);
  }

  function ListedCredit(channels: seq<Channel>, day: int): FeedRow -> int {
    (r: FeedRow) => if r.channel in channels && r.channel != Cash && r.receivedOn == day then r.amount else 0
  }

  function FedCredit(day: int): (Channel, FeedRow) -> int {
    (c: Channel, r: FeedRow) => if c != Cash && r.channel == c && r.receivedOn == day then r.amount else 0
  }

  lemma LiveBank(feed: seq<FeedRow>, channels: seq<Channel>, day: int)
    requires forall i, j | 0 <= i < j < |channels| :: channels[i] != channels[j]
    ensures Sum(channels, FedCredits(feed, day)) == Sum(feed, ListedCredit(channels, day))
  {
    var h := FedCredit(day);
    forall c | c in channels ensures FedCredits(feed, day)(c) == Sum(feed, Row<Channel, FeedRow>(h, c)) {
      if c == Cash { SumZero(feed, Row<Channel, FeedRow>(h, c)); } else { SumSame(feed, CreditsOf(c, day), Row<Channel, FeedRow>(h, c)); }
    }
    forall r | r in feed ensures ListedCredit(channels, day)(r) == Sum(channels, Column<Channel, FeedRow>(h, r)) {
      ListedOnce(channels, day, r);
    }
    SumSwap<Channel, FeedRow>(channels, feed, h, FedCredits(feed, day), ListedCredit(channels, day));
  }

  lemma ListedOnce(channels: seq<Channel>, day: int, r: FeedRow)
    requires forall i, j | 0 <= i < j < |channels| :: channels[i] != channels[j]
    ensures ListedCredit(channels, day)(r) == Sum(channels, Column<Channel, FeedRow>(FedCredit(day), r))
  {
    var column := Column<Channel, FeedRow>(FedCredit(day), r);
    if r.channel in channels {
      var i :| 0 <= i < |channels| && channels[i] == r.channel;
      forall j | 0 <= j < |channels| && j != i ensures channels[j] != r.channel {
        if j < i { assert channels[j] != channels[i]; } else { assert channels[i] != channels[j]; }
      }
      SumPick(channels, i, column);
    } else {
      SumZero(channels, column);
    }
  }

  // ---- reachable systems ----

  /** The feed after reconciling the given channels and days in turn; cash is refused. */
  function AfterRuns(payments: seq<Payment>, feed: seq<FeedRow>, keys: seq<RunKey>): seq<FeedRow> {
    if keys == [] then feed
    else
      var before, k := AfterRuns(payments, feed, keys[..|keys| - 1]), keys[|keys| - 1];
      if HasFeed(k.channel) then RewrittenFeed(payments, before, k.channel, k.day) else before
  }

  lemma {:induction false} RunsKeepTheNotices(payments: seq<Payment>, feed: seq<FeedRow>, keys: seq<RunKey>, channel: Channel, day: int)
    requires OncePerRef(feed)
    ensures OncePerRef(AfterRuns(payments, feed, keys))
    ensures RunOn(payments, AfterRuns(payments, feed, keys), channel, day) == RunOn(payments, feed, channel, day)
  {
    if keys != [] {
      hide RunOn, RewrittenFeed;
      var before, k := AfterRuns(payments, feed, keys[..|keys| - 1]), keys[|keys| - 1];
      RunsKeepTheNotices(payments, feed, keys[..|keys| - 1], channel, day);
      RewritingKeepsTheNotice(payments, before, k.channel, k.day);
      RunsDoNotDisturbEachOther(payments, before, channel, day, k.channel, k.day);
    }
  }

  lemma ReachableFeedAndPayments(payers: nat, ward: nat -> nat, arrivals: seq<DeliveryLaws.Arrival>)
    ensures var g := DeliveryLaws.Run(DeliveryLaws.Start(payers, ward), arrivals);
            OncePerRef(g.feed) && forall p | 0 <= p < |g.db.payments| :: g.db.payments[p].amount > 0
  {
    hide DeliveryLaws.Run, DeliveryLaws.FundedOk;
    var g := DeliveryLaws.Run(DeliveryLaws.Start(payers, ward), arrivals);
    DeliveryLaws.EveryPaymentHasOneRecord(payers, ward, arrivals);
    DeliveryLaws.ReachableIsPayable(payers, ward, arrivals);
    forall p | 0 <= p < |g.db.payments| ensures g.db.payments[p].amount > 0 {
      assert Ledger.PaymentOk(g.db, p);
    }
  }

  /** In every system that deliveries, services and any earlier reconciliations can reach, the run of any channel and day
      has totals that differ by what each side has that the other has not, claims no payment twice, and is BALANCED only
      with the bank within the platform, equal exactly when every payment of the day is matched. */
  lemma ReachableRunsReconcile(
      payers: nat, ward: nat -> nat, arrivals: seq<DeliveryLaws.Arrival>, keys: seq<RunKey>, channel: Channel, day: int)
    ensures var g := DeliveryLaws.Run(DeliveryLaws.Start(payers, ward), arrivals);
            var payments, feed := g.db.payments, AfterRuns(g.db.payments, g.feed, keys);
            var run := RunOn(payments, feed, channel, day);
            && run.platform - run.bank == UnmatchedTakings(payments, feed, channel, day) - UnmatchedCredits(payments, feed, channel, day)
            && (forall i, j | 0 <= i < j < |feed| && CameOn(feed[i], channel, day) && CameOn(feed[j], channel, day)
                              && MatchOf(payments, feed[i], channel, day).Some? ::
                  MatchOf(payments, feed[i], channel, day) != MatchOf(payments, feed[j], channel, day))
            && (run.status == Balanced ==>
                  && run.bank <= run.platform
                  && (run.bank == run.platform <==>
                        forall p | 0 <= p < |payments| && TakenOn(payments[p], channel, day) ::
                          exists i :: 0 <= i < |feed| && CameOn(feed[i], channel, day) && MatchOf(payments, feed[i], channel, day) == Some(p)))
  {
    hide DeliveryLaws.Run, RunOn, UnmatchedTakings, UnmatchedCredits, MatchOf, CameOn, TakenOn, AfterRuns, OncePerRef;
    var g := DeliveryLaws.Run(DeliveryLaws.Start(payers, ward), arrivals);
    var payments, feed := g.db.payments, AfterRuns(g.db.payments, g.feed, keys);
    ReachableFeedAndPayments(payers, ward, arrivals);
    RunsKeepTheNotices(payments, g.feed, keys, channel, day);
    TotalsDifferByTheUnmatched(payments, feed, channel, day);
    forall i, j | 0 <= i < j < |feed| && CameOn(feed[i], channel, day) && CameOn(feed[j], channel, day)
                  && MatchOf(payments, feed[i], channel, day).Some?
      ensures MatchOf(payments, feed[i], channel, day) != MatchOf(payments, feed[j], channel, day) {
      MatchingIsInjective(payments, feed, channel, day, i, j);
    }
    if RunOn(payments, feed, channel, day).status == Balanced { BalancedMeans(payments, feed, channel, day); }
  }

  // ---- deliveries and the run ----

  /** A feed row that a delivery posted, under a reference, is an exception in a run of its channel and day exactly when its
      payment has been reversed since; otherwise the run matches it to that same payment again. */
  lemma PostedRowIsExceptionIffReversed(payers: nat, ward: nat -> nat, arrivals: seq<DeliveryLaws.Arrival>, i: nat)
    requires var g := DeliveryLaws.Run(DeliveryLaws.Start(payers, ward), arrivals);
             i < |g.feed| && g.feed[i].status == Matched && g.feed[i].ref != ""
    ensures var g := DeliveryLaws.Run(DeliveryLaws.Start(payers, ward), arrivals);
            var row := g.feed[i];
            && row.matched.Some? && row.matched.value < |g.db.payments|
            && Rewritten(g.db.payments, row, row.channel, row.receivedOn)
               == if g.db.payments[row.matched.value].status == Confirmed then row else row.(status := Exception)
  {
    hide DeliveryLaws.Run, DeliveryLaws.FundedOk, DeliveryLaws.KeysDiffer;
    var g0 := DeliveryLaws.Start(payers, ward);
    var g := DeliveryLaws.Run(g0, arrivals);
    DeliveryLaws.EveryPaymentHasOneRecord(payers, ward, arrivals);
    assert DeliveryLaws.RowOk(g, i);
    DeliveryLaws.DeliveriesAreLedgerMoves(g0, arrivals);
    DeliveryLaws.OneReferenceOnePayment(payers, DeliveryLaws.LedgerMoves(g0, arrivals));
    OwnPaymentOrNone(g.db.payments, g.feed[i]);
  }

  lemma OwnPaymentOrNone(payments: seq<Payment>, row: FeedRow)
    requires DeliveryLaws.RefsDiffer(payments) && row.ref != "" && row.matched.Some? && row.matched.value < |payments|
    requires var p := payments[row.matched.value];
             p.channel == row.channel && p.ref == row.ref && p.amount == row.amount && p.postedOn == row.receivedOn
    ensures MatchOf(payments, row, row.channel, row.receivedOn)
            == if payments[row.matched.value].status == Confirmed then row.matched else None
  {
    if payments[row.matched.value].status == Confirmed {
      assert Agrees(payments[row.matched.value], row, row.channel, row.receivedOn);
    }
  }
}
