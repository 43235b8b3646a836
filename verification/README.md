# The revenue ledger, verified

A Dafny model of the council revenue ledger: bills with ordered lines, payments split over lines oldest first,
reversals, consolidation of arrears, the debt ladder, append-only rates, the version-token cache, bank and offline
deliveries, reconciliation and commissions. `dafny verify dfyconfig.toml` checks it all.

## How it is put together

- `Tables` holds one datatype a row and `Db`, the tables as a value. The class `Store` is the database the services
  write to, one field a table. Ids are positions in a table.
- Every service that writes is a method on a `Store` (or on `RevenueItem`, `Gateway`, `ReconciliationDesk`,
  `SettlementBook`, `Cache`), with the source's loops, and is proved to leave exactly the state a specification function gives.
  Refusals are a `Fault` in a `Result` and leave the tables as they were.
- The laws are lemmas about those functions. `Ledger` runs them as a state machine (`Step`, `Apply`, `Run`) over nine
  services in any order from an empty ledger; `DeliveryLaws` runs deliveries between any of them.

| file | what it is about |
|---|---|
| `Prelude`, `Sums`, `Tables` | shared values, sums, rows and the walk over a bill's lines |
| `Revenue` | pricing, rate history, rate bands |
| `Billing`, `BillingServices` | issuing, consolidating, line edits: specification, then the services |
| `Fifo`, `Payments` | the allocation loop and its closed form, posting and reversing |
| `Enforcement` | debt ageing and the ladder |
| `Ledger` | the machine and its invariant |
| `PaymentLaws`, `IssueLaws`, `Consolidation`, `Supersession`, `LineLaws`, `Agreement`, `Ranges`, `DebtLaws` | laws of the ledger |
| `TokenCache` | cached reads as a protocol |
| `Channels`, `DeliveryLaws` | webhooks, teller files, offline payments |
| `Reconciliation`, `ReconciliationLaws` | matching the bank's feed |
| `Settlements` | commissions |
| `Answers` | when each ledger service refuses and what an accepted call writes, without its specification functions |
| `History` | a bill's whole history |
| `FailingRuns` | short runs in which the code departs from its documentation |

## What the model takes as given

- Each service is one atomic step. The guards of `post_payment` and `reverse_payment` that are read before the row
  locks are part of that step.
- Amounts are integers in a unit in which price times quantity is exact; in `Settlements` the unit is the kobo.
- Payments are for a positive amount, as every entry point demands (`apps/payments/api/serializers.py:61`,
  `apps/channels/adapters.py:57`); services are called with rows that exist.
- The day and year of a call are parameters, and so is the order in which an unordered query returns its rows (the
  drafts and open bills of an issue). Feed rows and payments are read by id.
- A payment's unique constraint on channel and non-blank reference is a refusal, `DuplicateReference`.
- In the cache, a write and its `bump` are one step, and drawing a token never repeats one. Expiry may happen anywhere.

## Where the code and its documentation differ

The model follows the code. Each point below is a law with its exact condition and, in `FailingRuns`, a run from an
empty system that shows it (the rate change's input is in `Revenue`).

- Adding a charge to a consolidated line that carries arrears alone bills the old charge a second time, because the
  line still cites the assessment of the bill it came from (`LineLaws.AddRaisesTotalByPriceIff`,
  `FailingRuns.AddingToArrearsOvercharges`).
- `add_bill_line` looks for an existing line under the band and tier the caller sent, not those the price uses, so it
  can add a duplicate (`LineLaws.AddLeavesNoDuplicateIff`, `FailingRuns.StrayTierDuplicates`).
- A reversal recomputes the bill "as if the payment had never landed" only if there were no later payments, the bill
  owed nothing, or it had room for them all (`PaymentLaws.ReversalIsAsIfNeverPosted`,
  `FailingRuns.ReversalLeavesCreditBehind`).
- A reversal on a superseded bill does not reach the bill that carries its arrears
  (`Supersession.ReversalOnSupersededBreaksLawIff`, `FailingRuns.ReversalMissesTheSuccessor`).
- A debt case closes "the moment its bill is fully paid" when a payment does it, not when a line edit does
  (`DebtLaws.UpdateLeavesPaidBillWithOpenCaseIff` and the same for deleting and adding,
  `FailingRuns.LoweringALineLeavesTheCaseOpen`).
- A rate change dated before the rate in force leaves two rates in force on some day exactly when that rate had a
  predecessor that was ever in force (`Revenue.ChangeOverlapsIff`, `Revenue.BackdatedChangeHasTwoPrices`). Only a
  direct call of the service can date one so: the view passes no date (`apps/revenue/api/views.py:229`).
- `(Max or -1) + 1` gives a bill's second line the position of its first (`FailingRuns.SecondLineSharesThePosition`);
  the walk is creation order all the same (`Ledger.NextPositionIsLast`, `Tables.WalkIsCreationOrder`).
- A webhook whose reference already funds a payment entered by hand leaves no feed row; in a teller file the same clash
  leaves one unmatched row and stops the file (`DeliveryLaws.WebhookRecordsIff`, `DeliveryLaws.TellerRowRecordsIff`,
  `FailingRuns.WebhookLeavesNoRow`, `FailingRuns.TellerFileStops`). Sending the file again goes on behind that row
  (`DeliveryLaws.ResendingResumes`).
- BALANCED means every credit has its payment; the totals need not be equal (`ReconciliationLaws.BalancedMeans`,
  `FailingRuns.BalancedWithoutTheBank`). A row that falls back to EXCEPTION keeps naming its old payment
  (`ReconciliationLaws.PostedRowIsExceptionIffReversed`, `FailingRuns.ExceptionNamesAReversedPayment`).

## Model

| member | source | states |
|---|---|---|
| `Tables.WalkSorts` | apps/billing/models.py:149-151 | The default ordering really sorts lines by position, then id, and loses none |
| `Tables.WalkIsCreationOrder` | apps/billing/models.py:145-151 | While positions never fall, the walk is creation order even where positions collide |
| `Revenue.PricesWithinBounds` | apps/billing/services.py:46-102 | Prices are never negative; a RANGE charge lies between min and max a unit |
| `Revenue.PricedIff` | apps/billing/services.py:46-90 | An order is priced exactly when its quantity is positive and it brings what its item's pricing asks for; otherwise a billing error |
| `Revenue.PriceIsUnitTimesQuantity` | apps/billing/services.py:56-91 | The charge is the quantity times the flat amount, the chosen amount, the chosen tier's amount or the open rate |
| `Revenue.UnitIsUnique` | apps/billing/services.py:56-91 | Those rules name one unit amount |
| `Revenue.UnbandedUnitIsTheRateInForce` | apps/billing/services.py:88-91 | Without open bands the unit is the rate in force on any day from the last rate's start |
| `Revenue.QuoteKeepsCallersKey` | apps/billing/services.py:50-102 | Exactly when the stored band and tier are the ones the caller sent |
| `Revenue.ChangeKeepsChain` | apps/revenue/services.py:118-133 | A rate change keeps the rows in date order, each ending where the next begins, if and only if it does not start before the current rate |
| `Revenue.ChangeOverlapsIff` | apps/revenue/services.py:122-133 | A change leaves no two rates in force on one day if and only if it starts no earlier than the current rate, or no earlier rate was ever in force |
| `Revenue.BackdatedChangeHasTwoPrices` | apps/revenue/services.py:122-133 | Two rates and a backdated change that give day 7 two prices |
| `Revenue.ChainHasNoOverlap` | apps/revenue/services.py:118-133 | At most one row is in force on any day |
| `Revenue.ChainHasNoGap` | apps/revenue/services.py:118-133 | From the first row's day on some row is in force |
| `Revenue.ChangeSplitsHistory` | apps/revenue/services.py:119-133 | A change leaves every earlier day's price alone and is the only price from its day on |
| `Revenue.PastPricesSurvive` | apps/revenue/services.py:119-133 | The price in force on a past day survives any number of later changes |
| `Revenue.RateHistoryIsAChain` | apps/revenue/services.py:119-133 | With non-decreasing dates the rows stay a chain with one open row and no amount or start day is rewritten |
| `Revenue.AllDistinct` | apps/revenue/services.py:170-172 | The set-size comparison is true exactly when no two labels are equal |
| `Revenue.ValidateBandSpec` | apps/revenue/services.py:147-176 | A band spec is accepted exactly when it fits the table's constraint, its bounds are ordered and its tiers are complete and distinct |
| `Revenue.SpecOkMeans` | apps/revenue/services.py:147-176 | The three kinds of band spec that are accepted, field by field |
| `Revenue.RevenueItem.constructor` | apps/revenue/services.py:21-62 | A new item has one open rate and no bands |
| `Revenue.RevenueItem.ChangeRate` | apps/revenue/services.py:118-133 | Closes the open row and appends the new one |
| `Revenue.RevenueItem.ReplaceRateBands` | apps/revenue/services.py:179-219 | All bands valid: every open band closes and the set opens in order; otherwise nothing changes |
| `Revenue.ReplacedBandsAreTheOpenOnes` | apps/revenue/services.py:198-219 | After any list of replacements the open bands are exactly the last set, no earlier figure is rewritten and past days keep their bands |
| `BillingServices.CreateDraftAssessment` | apps/billing/services.py:28-102 | Creates the priced draft or refuses and writes nothing |
| `Answers.DraftAcceptedIff` | apps/billing/services.py:46-102 | A draft is stored exactly for an acceptable order, with its payer, item, band, tier, quantity and price |
| `BillingServices.RecomputeBill` | apps/billing/services.py:105-129 | Totals from the lines, status by the rule unless terminal |
| `Answers.RecomputedStatusIs` | apps/billing/services.py:114-128 | Terminal statuses stay; otherwise PAID if covered, OVERDUE once past the due day, PART_PAID or ISSUED; totals are sums over lines |
| `BillingServices.PriceEntries` | apps/billing/services.py:187-200 | Prices every entry, or fails with the first bad one |
| `BillingServices.MergeAssessments` | apps/billing/services.py:213-224 | The dictionary loop computes the merge the laws below are about |
| `BillingServices.GatherArrears` | apps/billing/services.py:282-288 | One prior bill's lines join the arrears gathered so far |
| `BillingServices.SupersedePrior` | apps/billing/services.py:277-280 | A prior bill is superseded by the new one and its case closed |
| `BillingServices.RollArrears` | apps/billing/services.py:262-288 | The consolidation loop supersedes every open bill and gathers their positive balances by item |
| `BillingServices.PlaceArrears` | apps/billing/services.py:290-302 | Each item's arrears join its first fresh line or get a line of their own |
| `BillingServices.PrepareBill` | apps/billing/services.py:175-232 | Duplicate check, pricing, merging and the empty-bill refusal, in that order |
| `BillingServices.IssueBill` | apps/billing/services.py:138-305 | The whole issue, or a refusal that writes nothing |
| `Answers.QueriesReturn` | apps/billing/services.py:203-267 | The drafts and open bills an issue reads are all of the payer's, and no others |
| `Answers.IssueRefusedIff` | apps/billing/services.py:175-232 | Exactly when an issue is refused: a live bill of the year, an unacceptable entry, or nothing to bill |
| `Answers.IssueTakesInTheDrafts` | apps/billing/services.py:202-259 | If all drafts are asked for, each of the payer's ends BILLED or CANCELLED; no other assessment changes |
| `Answers.IssueChargesEntriesAndDrafts` | apps/billing/services.py:189-259 | The new bill's current charges are the entries' prices plus, if asked for, the payer's drafts |
| `Answers.IssueSupersedes` | apps/billing/services.py:262-281 | A consolidation supersedes exactly the payer's ISSUED, PART_PAID and OVERDUE bills and closes their cases |
| `Answers.IssuedBillIs` | apps/billing/services.py:234-244 | The new bill's payer, year, due day, status and empty rest |
| `BillingServices.AddBillLine` | apps/billing/services.py:325-374 | Merges into the matching line or appends, and returns that line |
| `Answers.AddAcceptedIff` | apps/billing/services.py:327-335 | Adding is refused exactly for an order that is not acceptable |
| `Answers.AddFolds` | apps/billing/services.py:343-356 | The first line that fits grows with its assessment, and the assessment made for the charge is cancelled |
| `Answers.AddAppends` | apps/billing/services.py:365-371 | With no such line the charge gets one of its own behind all others, on its assessment, now billed |
| `Answers.AddKeepsDrafts` | apps/billing/services.py:355-366 | Adding leaves in draft exactly what was in draft |
| `Answers.OffDraftForever` | apps/billing/models.py:8-50 | On every run an assessment that has left DRAFT never returns to it |
| `Answers.AddedChargeIsNeverBilledAgain` | apps/billing/services.py:355-366 | Whatever happens in between, no later issue takes in the assessment an added charge left |
| `BillingServices.UpdateBillLine` | apps/billing/services.py:377-403 | Replaces a line's total, keeping its arrears part, and returns the line |
| `Answers.UpdateIs` | apps/billing/services.py:393-397 | An edit sets amount, current charge and assessment, keeps arrears, and changes nothing else |
| `BillingServices.DeleteBillLine` | apps/billing/services.py:406-422 | Deletes a line with no allocations that is not the last |
| `Answers.DeleteRefusedIff` | apps/billing/services.py:409-416 | Refused exactly when any allocation is on the line or it is the bill's last |
| `Billing.AllArrearsLines` | apps/billing/models.py:100-125 | The recursion over superseded bills ends and returns the whole history |
| `History.HistoryIsEveryLineOnce` | apps/billing/models.py:100-125 | On every run a bill's history is the lines of every bill that reached it by consolidation, each once |
| `Fifo.AllocateFifo` | apps/payments/services.py:18-52 | The loop creates exactly the closed form's rows and applies the smaller of the amount and all that is owed |
| `Fifo.RowsStop` | apps/payments/services.py:42-44 | Breaking out once the money is spent loses no row |
| `Fifo.RowsTotal` | apps/payments/services.py:40-52 | Rows add up to the payment, or to all that is owed if less |
| `Fifo.RowsOnLine` | apps/payments/services.py:42-51 | Line i receives min(what it owes, what the lines before it leave), in one row |
| `Fifo.OwedAfter` | apps/payments/services.py:45-51 | What the first lines owe falls by the payment, never below zero |
| `Fifo.TakeSplits` | apps/payments/services.py:42-51 | Paying a + b gives every line what paying a, then b gives |
| `Fifo.TakeNeverOverpays` | apps/payments/services.py:45-48 | No line is paid past what it owes; money is left over only when every line is full |
| `Payments.Collect` | apps/payments/services.py:84-124 | An accepted payment: rows, amount paid, status, credit and case |
| `Payments.PostPayment` | apps/payments/services.py:55-134 | Refuses terminal bills and used references, writing nothing; otherwise posts |
| `Answers.PaymentAcceptedIff` | apps/payments/services.py:70-100 | A payment is made exactly on a bill neither superseded nor cancelled under a reference new to its channel; which refusal otherwise |
| `Answers.PaymentTouchesItsBill` | apps/payments/services.py:104-124 | It changes its bill's paid amount, status and day alone, and closes the case exactly if that leaves it PAID |
| `Payments.ReversePayment` | apps/payments/services.py:137-195 | Refuses unless confirmed; otherwise undoes applied and leftover |
| `Answers.ReversalAcceptedIff` | apps/payments/services.py:155-168 | Refused exactly unless the payment is confirmed; the bill's case stays as it is |
| `Enforcement.CloseDebtCaseForBill` | apps/enforcement/services.py:9-16 | Closes and dates an open case; a closed one keeps its date |
| `Enforcement.RefreshDebt` | apps/enforcement/services.py:29-57 | The ageing loop's rows and its two counts |
| `DebtLaws.AgeingIs` | apps/enforcement/services.py:19-54 | Which bills are late, their bucket by days, and the case each is left with |
| `Enforcement.EscalateDebt` | apps/enforcement/services.py:60-76 | One rung up, or a refusal on the last rung |
| `DebtLaws.EscalationClimbs` | apps/enforcement/models.py:22 | The ladder rung by rung, counting reminders and dating the closing |
| `Ledger.StepKeepsInv` | apps/payments/services.py:55-195 | Every service, accepted or refused, keeps rows, links and money in agreement |
| `Ledger.EveryRunKeepsInv` | apps/payments/services.py:55-195 | So does every run of services from an empty ledger |
| `Ledger.RefreshAgreesWithStatusRule` | apps/enforcement/services.py:34-43 | The direct OVERDUE write is what the status rule gives that day |
| `Ledger.NextPositionIsLast` | apps/billing/services.py:367-371 | A line added later never walks before an earlier one |
| `Answers.NextPositionIs` | apps/billing/services.py:367 | One past the highest position, or 0 while that is 0 |
| `FailingRuns.SecondLineSharesThePosition` | apps/billing/services.py:367 | The second line of a bill gets the first one's position |
| `Ledger.ReversalNeverFloors` | apps/payments/services.py:164-170 | The clamp at zero never takes effect |
| `Ledger.IssueLeavesOldBills` | apps/billing/services.py:276-280 | Issuing leaves every earlier bill's lines, total and amount paid alone |
| `PaymentLaws.BooksBalance` | apps/payments/services.py:102-111 | On every run: amount paid is the sum over own lines, credit is the unallocated part and never negative, all confirmed money is on a bill or in credit |
| `PaymentLaws.PaidIsSumOverOwnLines` | apps/billing/models.py:156-175 | A bill's amount paid is what its own lines show paid |
| `PaymentLaws.CreditIsNeverNegative` | apps/payments/services.py:108-111 | Credit is the unallocated part of confirmed payments |
| `PaymentLaws.BillsAreConsistent` | apps/billing/services.py:114-129 | On every run: when a live bill is PAID, OVERDUE, PART_PAID or ISSUED by its amounts, due day and day of last write; lines split into current and arrears, totals are sums, the walk is creation order |
| `PaymentLaws.PostPaysOldestFirst` | apps/payments/services.py:32-52 | Posting pays each line of the bill its closed-form share and every other line nothing |
| `PaymentLaws.OutsAfterPost` | apps/payments/services.py:42-52 | What every line owes after a payment |
| `PaymentLaws.PostNeverOverpaysALine` | apps/payments/services.py:45-48 | Posting never pays a line past its amount and leaves credit only when all lines are full |
| `PaymentLaws.SplittingAPaymentChangesNothing` | apps/payments/services.py:55-134 | Posting a then b leaves the lines, bills and credit of posting a + b |
| `PaymentLaws.OnlyTheSumMatters` | apps/payments/services.py:55-134 | The same for any list of payments: only the sum matters |
| `PaymentLaws.ReversalIsExact` | apps/payments/services.py:137-195 | At any later time a reversal removes its payment's allocations and credit and nothing else, and cannot be repeated |
| `PaymentLaws.PostThenReverseRestores` | apps/payments/services.py:55-195 | Post then reverse restores lines, amount paid, credit and status; only a case the payment closed stays closed |
| `PaymentLaws.ReversalIsAsIfNeverPosted` | apps/payments/services.py:142-144 | After any later payments to the bill, on any days, exactly when it ends as if the reversed payment had never landed |
| `PaymentLaws.UndoneLaterIs` | apps/payments/services.py:162-177 | What amount paid and credit keep when a payment with later ones behind it is reversed |
| `PaymentLaws.ReceivedAll` | apps/payments/services.py:55-134 | Any list of dated payments leaves amount paid, credit and what is owed as the closed form of their sum says |
| `FailingRuns.ReversalLeavesCreditBehind` | apps/payments/services.py:142-144 | Pay 60 and 60 on 100 and reverse the first: 40 paid and 20 in credit, where 60 and nothing would be |
| `IssueLaws.MergeKeepsFirsts` | apps/billing/services.py:213-224 | One assessment a key is kept: the first, in first-seen order |
| `IssueLaws.MergePartitions` | apps/billing/services.py:215-229 | Every assessment taken in is kept or dropped, once |
| `IssueLaws.MergeTotalsEachKey` | apps/billing/services.py:220-223 | A kept assessment holds the whole quantity and amount of its key |
| `IssueLaws.MergeConserves` | apps/billing/services.py:213-229 | Merging conserves total amount and quantity |
| `IssueLaws.MergeKeepsRange` | apps/billing/services.py:215-223 | If the merged rows are within a RANGE band's bounds, merging takes no row out of them, whatever other rows hold |
| `Ranges.DraftsStayInRange` | apps/billing/services.py:58-66 | On every run, line overrides and consolidations included, drafts on a RANGE band are between its bounds a unit and no line cites a draft |
| `Ranges.IssuedChargesAreInRange` | apps/billing/services.py:202-259 | So whatever an issue bills on the band is between its bounds a unit |
| `IssueLaws.IssueSettlesAssessments` | apps/billing/services.py:224-259 | Afterwards each input is BILLED or CANCELLED, never both, and nothing else changed |
| `Consolidation.IssueChargesWhatItTakesIn` | apps/billing/services.py:187-259 | An accepted issue bills the first of each key, cancels the others it took in, changes no other assessment, and charges exactly their amounts |
| `Consolidation.CarryGathersEachItem` | apps/billing/services.py:282-288 | The dictionary holds each item's summed positive balances |
| `Consolidation.ArrearsCarriedItemByItem` | apps/billing/services.py:274-302 | Each item's arrears on the new bill are its positive balances on all open bills, on at most one line |
| `Consolidation.ChargedLineIs` | apps/billing/services.py:248-257 | Each merged charge is a line in order; the first of an item also carries all that is owed on it |
| `Consolidation.ArrearsLineIs` | apps/billing/services.py:282-301 | Every other line is all that is owed on an item not charged, citing the last line that owes on it |
| `Consolidation.NewBillAddsUp` | apps/billing/services.py:246-305 | New arrears are all that is carried; new current charges are the merged amounts |
| `Consolidation.ConsolidationConservesDebt` | apps/billing/services.py:246-305 | The payer's debt grows by the new charges plus what had been paid past a swept line |
| `Consolidation.DebtGrowsByNewChargesIff` | apps/billing/services.py:246-305 | By the new charges alone if and only if no swept line was overpaid |
| `Supersession.SupersededForever` | apps/billing/services.py:118-126 | A superseded bill stays so under every run, with the same later successor of the same payer, and takes no further payment |
| `Supersession.ReachableBillsAreAForest` | apps/billing/models.py:122-125 | Supersession is a forest with later bills as parents |
| `Supersession.TreeTotal` | apps/billing/models.py:115-120 | Given each bill's arrears law: current amounts over the whole tree are its total plus all paid below it |
| `Supersession.EachChargeCountsOnce` | apps/billing/models.py:115-120 | That law on every tidy run, for trees of any depth and branching |
| `Supersession.TidyRunsKeep` | apps/billing/services.py:261-305 | Tidy runs keep the arrears law and overpay no line |
| `Supersession.ReversalOnSupersededBreaksLawIff` | apps/payments/services.py:162-172 | A reversal on a superseded bill breaks its successor's arrears exactly when it had applied something |
| `FailingRuns.ReversalMissesTheSuccessor` | apps/payments/services.py:162-172 | A tidy run and a reversal after which the successor carries 40 of the 100 its old bill is owed |
| `LineLaws.AddRaisesTotalByPriceIff` | apps/billing/services.py:343-372 | Adding a charge raises the total by its price iff it is appended or the line found shows its assessment's amount |
| `LineLaws.AddLeavesNoDuplicateIff` | apps/billing/services.py:337-345 | Exactly when adding a charge leaves no two lines with one item, band and tier |
| `FailingRuns.StrayTierDuplicates` | apps/billing/services.py:343-345 | An order billed once and added once that is on two lines of one item, band and tier |
| `FailingRuns.AddingToArrearsOvercharges` | apps/billing/services.py:297-301 | A run in which a charge of 100 on a bill of 100 in arrears makes 300 |
| `LineLaws.MergedChargesAreOneCharge` | apps/billing/services.py:74-91 | Two merged charges of a kind are one charge of the combined quantity |
| `LineLaws.AddingInPartsIsAddingAtOnce` | apps/billing/services.py:325-374 | Adding a charge in two parts leaves the bill as adding it at once |
| `LineLaws.UpdateMovesTotalByDifference` | apps/billing/services.py:382-398 | An edit moves the total by the difference; when it is refused and when it leaves the line overpaid |
| `LineLaws.DeleteTakesItsAmountOff` | apps/billing/services.py:409-421 | A deletion takes the line's amount and arrears off and nothing anyone paid |
| `Agreement.PlainRunsAgree` | apps/billing/services.py:246-259 | On runs without a consolidation each line shows its own assessment's amount and shares it with no line |
| `Agreement.TotalsAreTheAssessments` | apps/billing/services.py:347-372 | On those runs totals are what the assessments charge and adding a charge raises them by exactly its price |
| `DebtLaws.CasesOnlyClimb` | apps/enforcement/services.py:60-71 | Over any run a case only climbs, CLOSED is final, it is dated closed exactly when closed, and no superseded bill has an open case |
| `DebtLaws.StepMovesCase` | apps/enforcement/services.py:9-71 | One step moves a case one rung, or straight to CLOSED, or not at all |
| `DebtLaws.EscalateRefusedIff` | apps/enforcement/services.py:62-65 | Escalation is refused exactly on a closed case |
| `DebtLaws.SecondRefreshDoesNothing` | apps/enforcement/services.py:39-57 | A second refresh on the same day opens, moves and changes nothing |
| `DebtLaws.RefreshLeavesEveryOverdueBillACase` | apps/enforcement/services.py:35-54 | After a refresh every overdue bill has a case, open ones in the bucket of their age |
| `DebtLaws.PayingOffClosesCase` | apps/payments/services.py:121-124 | A payment that leaves a bill PAID leaves it no open case |
| `DebtLaws.ReversalOpensNoPaidCase` | apps/payments/services.py:167-172 | A reversal never leaves a paid bill with an open case it did not have |
| `DebtLaws.UpdateLeavesPaidBillWithOpenCaseIff` | apps/billing/services.py:392-398 | Exactly when lowering or raising a line leaves the bill PAID with an open case |
| `DebtLaws.DeleteLeavesPaidBillWithOpenCaseIff` | apps/billing/services.py:417-421 | Exactly when deleting a line does |
| `DebtLaws.AddLeavesPaidBillWithOpenCaseIff` | apps/billing/services.py:346-372 | Exactly when adding a charge does |
| `FailingRuns.LoweringALineLeavesTheCaseOpen` | apps/enforcement/services.py:9-16 | A run that ends with a PAID bill whose case is open |
| `TokenCache.StepKeepsInv` | apps/common/cachekeys.py:47-78 | Every step of every reader, write and expiry keeps the protocol's invariant |
| `TokenCache.CachedReadsAreLinearizable` | apps/common/cachekeys.py:68-78 | In every interleaving a cached read returns the computed value of some moment during the call, the lost add included |
| `TokenCache.LostAddSharesTheToken` | apps/common/cachekeys.py:50-56 | Two readers racing to mint end on one token, the first added |
| `TokenCache.CallOutcome` | apps/common/cachekeys.py:68-78 | An uninterrupted call returns the entry under its token, or computes and stores it when there is none |
| `TokenCache.Cache.VersionToken` | apps/common/cachekeys.py:47-56 | The token in the slot, minted if there is none |
| `TokenCache.Cache.Bump` | apps/common/cachekeys.py:59-61 | Is the protocol's write: the slot holds a token never used before |
| `TokenCache.Cache.Cached` | apps/common/cachekeys.py:68-78 | Uninterrupted, leaves the cache and returns the value that the protocol's seven steps do |
| `Channels.Gateway.ReceiveNotice` | apps/channels/api/views.py:101-127 | Record the reference once, post, and mark the row matched or an exception |
| `Channels.Gateway.ReceiveWebhook` | apps/channels/api/views.py:67-133 | The webhook, rolled back whole when the reference clashes |
| `Channels.Gateway.SettleOtc` | apps/channels/api/views.py:143-190 | The teller file loop with its three tallies |
| `Channels.Gateway.ReplaySync` | apps/fieldops/services.py:62-151 | An offline payment is tried once a client id; later calls return the recorded outcome |
| `DeliveryLaws.DeliveriesAreLedgerMoves` | apps/payments/services.py:66-69 | Whatever arrives, the ledger is one that a run of services reaches: deliveries move money only by posting |
| `DeliveryLaws.RecordedForever` | apps/payments/models.py:218-220 | A key on record stays on record and only its own deliveries add it |
| `DeliveryLaws.ReplayChangesNothing` | apps/channels/api/views.py:93-106 | A delivery whose key is on record changes nothing |
| `DeliveryLaws.ReplaysAddNothing` | apps/channels/api/views.py:93-126 | From any state, among any services, dropping replays leaves ledger, feed and records as they are |
| `DeliveryLaws.EachKeyPostsAtMostOnce` | apps/channels/api/views.py:93-126 | Over a whole run each bank reference or client id posts at most one payment |
| `DeliveryLaws.WebhookAnswers` | apps/channels/api/views.py:78-133 | Exactly when a webhook is malformed, duplicate, without a bill, refused, a clash or posted, and what each leaves |
| `DeliveryLaws.TellerRowAnswers` | apps/channels/api/views.py:152-188 | A teller row is answered the same, but for the row a clash leaves |
| `DeliveryLaws.SyncAnswers` | apps/fieldops/services.py:93-151 | Exactly when an offline payment is accepted, the agent's ward included |
| `DeliveryLaws.RowIsTallied` | apps/channels/api/views.py:150-188 | Which tally each answer goes to |
| `DeliveryLaws.OnlyFirstDeliveriesCount` | apps/fieldops/services.py:74-78 | From an empty system, keeping only the first well-formed delivery of each key gives the same ledger, feed and records |
| `DeliveryLaws.WebhookRecordsIff` | apps/channels/api/views.py:78-127 | Exactly when a webhook leaves a feed row behind |
| `DeliveryLaws.TellerRowRecordsIff` | apps/channels/api/views.py:152-188 | Exactly when a teller row leaves a feed row behind |
| `FailingRuns.WebhookLeavesNoRow` | apps/channels/api/views.py:101-118 | A reference entered by hand first: the webhook crashes and leaves no row |
| `FailingRuns.TellerFileStops` | apps/channels/api/views.py:174-183 | The same in a teller file: one unmatched row, and the next row is not looked at |
| `DeliveryLaws.EveryPaymentHasOneRecord` | apps/channels/api/views.py:124-126 | Each key has one record, each matched row names a payment of its own channel, reference, amount and day, no payment is behind two records |
| `DeliveryLaws.OneReferenceOnePayment` | apps/payments/models.py:159-163 | A non-blank reference funds at most one payment of a channel |
| `DeliveryLaws.FileIsItsRows` | apps/channels/api/views.py:150-190 | A file is its rows one by one as far as it goes; the tallies count each of those once and posted ones are the payments made |
| `DeliveryLaws.ResendingResumes` | apps/channels/api/views.py:136-166 | Re-sending any file, stopped or not, posts nothing for the rows looked at and goes on behind them as a new file |
| `DeliveryLaws.ResendingAFilePostsNothing` | apps/channels/api/views.py:136-138 | Re-sending a file that ran to its end posts nothing and changes nothing |
| `Reconciliation.ReconciliationDesk.MatchFeedRowsForChannel` | apps/reconciliation/services.py:16-44 | The matching loop's total, matches and unmatched rows |
| `Reconciliation.ReconciliationDesk.RewriteRows` | apps/reconciliation/services.py:86-100 | The rewriting loop's feed rows and exceptions |
| `Reconciliation.ReconciliationDesk.RunReconciliation` | apps/reconciliation/services.py:63-109 | Refuses cash; otherwise stores the run and rewrites the day's rows |
| `Reconciliation.ReconciliationDesk.LiveReconciliationSummary` | apps/reconciliation/services.py:112-145 | The summary over every channel with a feed |
| `ReconciliationLaws.MatchingIsInjective` | apps/reconciliation/services.py:36-42 | No payment is claimed by two rows of a channel |
| `ReconciliationLaws.ExceptionsAreTheUnmatched` | apps/reconciliation/services.py:86-100 | Exceptions are exactly the rows no confirmed payment agrees with |
| `ReconciliationLaws.RunIs` | apps/reconciliation/services.py:28-103 | A run's totals, exceptions and status in terms of payments and feed rows alone |
| `ReconciliationLaws.RowIsRewritten` | apps/reconciliation/services.py:88-96 | What a run writes on each row |
| `ReconciliationLaws.RunsDoNotDisturbEachOther` | apps/reconciliation/services.py:63-109 | One run's rewriting changes no other run's result |
| `ReconciliationLaws.RerunGivesTheSame` | apps/reconciliation/services.py:65-68 | A second run on unchanged payments gives the same run and leaves the feed alone |
| `ReconciliationLaws.TotalsDifferByTheUnmatched` | apps/reconciliation/services.py:47-60 | Platform minus bank is the unmatched takings minus the unmatched credits |
| `ReconciliationLaws.BalancedMeans` | apps/reconciliation/services.py:102-103 | BALANCED implies bank at most platform, equal iff every payment of the day is matched |
| `ReconciliationLaws.ReachableRunsReconcile` | apps/reconciliation/services.py:16-103 | All three on every system that deliveries, services and earlier reconciliations reach |
| `FailingRuns.BalancedWithoutTheBank` | apps/reconciliation/services.py:102-103 | A reachable BALANCED run with 60 on the platform and nothing at the bank |
| `ReconciliationLaws.LiveAgreesWithTheRuns` | apps/reconciliation/services.py:112-145 | The live summary agrees with the runs of its channels |
| `ReconciliationLaws.LiveIs` | apps/reconciliation/services.py:121-145 | The summary's totals and rows in terms of payments and feed rows alone, cash included on the platform side only |
| `ReconciliationLaws.PostedRowIsExceptionIffReversed` | apps/reconciliation/services.py:39-42 | A row a delivery posted is an exception in its day's run exactly when its payment has been reversed |
| `FailingRuns.ExceptionNamesAReversedPayment` | apps/reconciliation/services.py:94-96 | A reachable row that a run makes an exception while it still names the reversed payment |
| `Settlements.RoundHalfEvenIsNearest` | apps/settlements/services.py:34 | Rounding moves by at most half a kobo, ties to even |
| `Settlements.SettlementBillRows` | apps/settlements/api/views.py:39-81 | One row a paid bill with its own collections and rounded commission |
| `Settlements.BreakdownAddsUpToGross` | apps/settlements/api/views.py:62-71 | Per-bill collections add up to gross exactly |
| `Settlements.SettlementIs` | apps/settlements/services.py:22-48 | Gross, rate, commission to the nearest kobo and status of a settlement |
| `Settlements.BreakdownLists` | apps/settlements/api/views.py:49-71 | Which bills a breakdown lists and what it collects on each |
| `Settlements.CommissionDriftIsBounded` | apps/settlements/services.py:34 | n rounded commissions differ from the rounded total by at most (n + 1) / 2 kobo |
| `Settlements.BreakdownAgreesWithSettlement` | apps/settlements/api/views.py:39-81 | Both, for a settlement and its breakdown on the same payments |
| `Settlements.DriftBoundIsReached` | apps/settlements/services.py:34 | The bound is reached |
| `Settlements.SettlementBook.ComputeSettlements` | apps/settlements/services.py:13-55 | Overwrites the period's row of every consultant at the rate of the moment and no other row, and returns those rows |

## Left out

- Row locks, isolation levels and interleavings inside a service: each service is one step.
- Row-level security, tenancy, tokens, permissions, portfolio scoping and throttling.
- Signature checks, channel field checks other than the amount and the channel, unrecognised bill prefixes.
- Audit rows, receipts, references, e-mail and SMS; reports, dashboards, pagination and filtering.
- Offline registration of payers (`_replay_payer`) and the CONFLICT outcome only it produces; payers exist from the start.
- Deleting or cancelling a whole bill through the bill view: no step makes a bill CANCELLED, though every step treats one as the code does.
- `retire_revenue_item`, worklists and name search.
- A loop over a filtered query is a loop over the table with the filter inside; plain sums, look-ups and the tiers of a new band are expressions, not loops.
- Blanks other than space, tab and line ends at the ends of a band's or tier's label.
- Rounding of price times quantity to two decimals and the columns' size limits.
- Bulk updates and other processes that bypass the cache's signals, whose staleness only the token's lifetime bounds; a reader between a bump and its transaction's commit.
- The settlement status table alone, which `compute_settlements` resets.
- TreeTotal: needs each bill's arrears to match what it swept, because a reversal or an edit on a superseded bill does not flow to its successor.
- EachChargeCountsOnce: over runs that edit or reverse nothing on superseded bills, lower no line below what is paid on it, delete no carried arrears and merge no charge into a line whose assessment has fallen below the line, because each of these breaks the law.
- OnlyFirstDeliveriesCount: asks that bank references are not also entered by hand, because otherwise a first delivery can leave no record (`FailingRuns.WebhookLeavesNoRow`); `ReplaysAddNothing` does not need it.
- ReversalIsAsIfNeverPosted: the later steps are payments to the same bill, because an edit of its lines changes what both ledgers compared owe.
- TotalsAreTheAssessments: over runs without a consolidation, because a consolidated line shares its assessment with the line it came from.
- MatchingIsInjective: asks that a reference is on the feed once a channel; `ReachableRunsReconcile` does not.
- CreateDraftAssessment: does not keep the asset or the rate row the price came from; nothing else reads them.
- VersionToken: an uninterrupted call, whose add cannot be lost; the lost add is a step of the protocol.
- ReplaySync: payments only, without payer registrations.
- Ranges.IssuedChargesAreInRange: about bands whose bounds are the same in every order of the run, as a band's row is never rewritten.
- ComputeSettlements: takes the consultant of a bill's payer as a function; which consultants are active is the caller's list.
