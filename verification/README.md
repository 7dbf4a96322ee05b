# Verified model of the payment services

Dafny models and proofs of the protocols behind card payments: the settlement ledger, the authorization
saga, the ISO 8583 client, the rate limiter of the gateway, the transactional outbox and the Luhn check.
`dafny verify dfyconfig.toml` checks all of it.

## What is modelled

**Settlement ledger.** `Ledger` is a sequential system: the tables, and one step per committed operation.
`LedgerClients` is the program: each handler finds a batch, reads its header, its rows, the totals of
earlier batches and the open reviews, and saves, in separate steps with any other client in between; a
schedule chooses who moves, aborts anyone and delivers anything again. `LedgerInvariants` is what every
operation keeps, and `LedgerRefinement` shows that every concurrent run is a sequential one, with what
follows from it. `LedgerProgress` is what each handler achieves when nobody disturbs it, in stored columns,
and `LedgerCorrections` what an operator's decision stores. `BatchSummary` holds the arithmetic of the
totals, with int64 wrap-around and the errors that are discarded. `SettlementBatches`, `SettlementService`
and `SettlementAdmin` are the aggregate, the tables and the handlers as objects updated in place.
`ReversalReviews` and `ReviewRaces` compare a reversal with its purchase when both arrive at once, and
`OperatorRaces` adds operators who decide on the review at that moment; `ReviewHistory` and
`ReopenedReviews` follow this into the log and the runs of the ledger. `TerminalDay` reconciles a terminal
over a whole day. `DailyCompletion` settles the last batches of a day concurrently, and `LedgerDays` shows
that each log of the ledger is a run of it.

**Authorization saga.** `Saga` has, for each transaction, its row, the host's own record of the charge, the
program counter of every worker and reconciler, and what was published; a step is one database
transaction, one conditional save, one message or one publication. `SagaSafety` is what holds in every run,
and `SagaOutcomes` how sales and reversals end.
`SagaAgreement` is the agreement between row and host, which needs three assumptions that the code does not
establish alone, stated as guards on single steps:

- (a) the reconciler takes a PROCESSING row only when its Authorize call will not send anything more. The
  check at `context/authorization/config/config.go:146` compares the limit with the timeout of the call,
  and does not count the wait for a slot;
- (b) the reconciler acts on a row that it loaded as APPROVED only if a reversal was requested. Ids are
  listed first and rows are loaded later;
- (c) the host approves an authorization that a reversal overtook only while the row is INDETERMINATE, no
  reconciler is about to save its rejection, and no confirmation of a reversal is on its way; never
  approving one is enough. A confirmation can be taken by a later reversal of the same transaction, whose
  key is the same (`context/authorization/infrastructure/iso8583/client.go:335`).

`SagaGuards` shows that these guards are exact: a step that violates one can always be continued to a
disagreement, and a step that satisfies it never leads to one by itself. `AuthorizationService` has the
aggregate, its table and the handlers as methods. `EndToEnd` follows one transaction through the ledger, and
`WholeRuns` joins saga, concurrent ledger, outbox and days.

**Client, limiter, outbox and Luhn.** `IsoClient`, `RateLimiter`, `Outbox` (with `CloseEvents`) and `Luhn`
each have the code as a class or a loop, and a theorem over all runs or all inputs.

## What turned out not to hold

- The daily completion is not enqueued exactly once. A batch that is settled after the day was complete
  enqueues it again, whether the query of the day does not list it, for it has no rows
  (`DailyCompletion.EmptyBatchEnqueuesAgain`), or it appeared later (`LateBatchEnqueuesAgain`);
  `EnqueuedOnceIff` and `OnceIffNothingSettledLater` say exactly when it is enqueued once.
- The daily completion can be missed: when an operator excludes the last row of a batch that the last settle
  still waited for, nothing enqueues it (`ExcludedRowsMissCompletion`); `LastAnnouncesIff` and `AnnouncedIff`
  say exactly when it is announced.
- A batch can be SUBMITTED with an open review. A purchase whose comparison waits for an operator's decision
  reopens the review that the operator resolved (`OperatorRaces.ReopenedAfterDecision`), and a close that
  counted reviews in between has sent the batch (`ReopenedReviews.SubmittedWithOpenReview`);
  `SentWithOpenReviewIff` is the exact condition.
- Row and host can disagree without each of the guards (a), (b) and (c) (`SagaGuards.WithoutGuardA`,
  `WithoutGuardB`, `WithoutGuardC`, `WithoutGuardCLate`), and the guards are the weakest that suffice.
- The outcome of a review depends on the order of purchase and reversal exactly when the batch of the
  purchase belongs to another merchant than its event and the reversal names one of the two
  (`ReviewRaces.OrderDoesNotMatterIff`).
- The stored totals of a batch are not exact when one side exceeds MaxInt64/100 cents, because the errors
  of NewMoney are discarded (`LedgerRefinement.StoredTotalsAreExactIff`,
  `LargeTotals.StoredTotalsLoseTheAmount`).

## Model

| member | source | states |
|---|---|---|
| LedgerRefinement.ConcurrentRunIsSequential | context/settlement/application/command/st_batch_handler.go:165-197 | Any interleaving of handlers, duplicate deliveries, stale saves and crashes leaves the tables of a sequential system that applied each committed operation once, in commit order and legally; an event is processed exactly when its operation is in that log, and no event is in it twice |
| LedgerRefinement.ReachableLedgerIsSafe | context/settlement/application/command/st_batch_handler.go:371-427 | In every reachable state a CLOSED, SUBMITTED or SETTLED batch has the totals of its stored rows, PENDING_CLOSE is never stored, what was sent has no discrepancy, and of its reviews exactly those are open that, in the log, an approval reopened after an operator had resolved them and nobody has resolved since; there is one OPEN batch per terminal, date and currency, and one row per transaction and type over all batches |
| ReopenedReviews.SentHasNoOpenReview | context/settlement/application/command/st_batch_handler.go:402-410 | In every run in which no approval compares while an operator is deciding, nothing that was sent has an open review, although reviews are counted outside the saving transaction |
| ReopenedReviews.SentWithOpenReviewIff | context/settlement/infrastructure/postgres/st_postgres_repository.go:246-265 | In any run, a batch that was sent has an open review if and only if, in the log of committed operations, an approval reopened a review of it after an operator had resolved it and no later operation resolves it |
| ReviewHistory.SentReviewIff | context/settlement/infrastructure/postgres/st_postgres_repository.go:246-265 | The same for each review of a batch that was sent, and for any legal log |
| ReopenedReviews.SubmittedWithOpenReview | context/settlement/infrastructure/postgres/st_postgres_repository.go:246-265 | A concrete run that ends with a SUBMITTED batch with an open review |
| OperatorRaces.OpenAfterDecisionIff | context/settlement/infrastructure/postgres/st_postgres_repository.go:183-265 | However a purchase, its reversal and operators interleave, lock by lock and with any rollbacks, once both are committed the open reason is their comparison if there was no decision or the last one was committed while the comparison of the purchase waited for it, and otherwise there is none |
| OperatorRaces.OwnBatchIsSafe | context/settlement/infrastructure/postgres/st_postgres_repository.go:349-381 | A review of the batch that the purchase writes is never reopened, because the operator locks the batch first |
| OperatorRaces.ReopenedAfterDecision | context/settlement/infrastructure/postgres/st_postgres_repository.go:246-265 | For every pair that does not match, with the review in another batch, a run in which all three overlap and the review is reopened after the decision |
| LedgerRefinement.StoredTotalsAreExactIff | context/settlement/infrastructure/postgres/st_postgres_repository.go:52-130 | In every reachable state the stored totals of a closed batch are the exact sums of its rows if and only if neither the purchases nor the reversals exceed what NewMoney accepts |
| LargeTotals.StoredTotalsLoseTheAmount | context/settlement/domain/aggregate/st_settlement_batch.go:227-245 | A concrete run on the other side of that bound: a CLOSED batch without discrepancies, with one purchase and a total of zero |
| LedgerRefinement.AdvanceRefines | context/settlement/infrastructure/postgres/st_postgres_repository.go:520-541 | One step of any handler, from whatever it read in earlier steps, changes nothing or does what one legal sequential operation does to the current tables |
| LedgerRefinement.SaveSnapshot | context/settlement/infrastructure/postgres/st_postgres_repository.go:73-110 | If the version check succeeds, the header and the rows that were read in separate unlocked steps are the current ones, and inserting the rows again changes nothing |
| LedgerRefinement.ClientOkAfter | context/settlement/infrastructure/postgres/st_postgres_repository.go:374-381 | What a client has read stays usable after any commit of another one: its batch is untouched or has a higher version, also when a correction of rows only bumps the version |
| LedgerRefinement.RegisterRefines | context/settlement/application/command/st_batch_handler.go:166-196 | A committed approval or reversal is the sequential registration on the batch that is open at that moment |
| LedgerRefinement.LateRefines | context/settlement/infrastructure/postgres/st_postgres_repository.go:246-265 | The same for an approval that waited for an operator's decision, with the comparison that this leaves |
| LedgerRefinement.CloseRefines | context/settlement/application/command/st_batch_handler.go:371-427 | A committed terminal close is the sequential close of the current rows, and it is submitted only if no review is open |
| LedgerRefinement.AutoCloseRefines | context/settlement/application/command/st_batch_handler.go:615-660 | The same for the automatic close |
| LedgerRefinement.ForceCloseRefines | context/settlement/application/command/st_admin_handler.go:102-131 | The same for the close forced by an operator, which does not count reviews |
| LedgerRefinement.ResubmitRefines | context/settlement/application/command/st_admin_handler.go:158-218 | A resubmission stores SUBMITTED only without discrepancies and open reviews as of the commit, and otherwise holds the batch |
| LedgerRefinement.ResolveDisputeRefines | context/settlement/application/command/st_admin_handler.go:275-304 | A resolved dispute is the sequential one, with no review open as of the commit |
| LedgerRefinement.ReopenRefines | context/settlement/application/command/st_admin_handler.go:230-261 | A reopened batch never becomes a second OPEN batch of its terminal, date and currency |
| LedgerRefinement.EventAppliedOnce | pkg/natsutil/idempotency.go:58-76 | No event id is applied by two operations of a legal log |
| LedgerRefinement.LoadIsIdentity | context/settlement/infrastructure/postgres/st_postgres_repository.go:846-859 | Loading a header that the ledger stored gives back exactly that header |
| LedgerProgress.SettleCommits | context/settlement/application/command/st_admin_handler.go:330-355 | From any reachable state, a settle of a SUBMITTED batch that moves alone stores SETTLED with the version one higher, and changes nothing else |
| LedgerProgress.ResubmitCommits | context/settlement/application/command/st_admin_handler.go:158-218 | Alone, a resubmission of a CLOSED batch stores SUBMITTED without open reviews and DISPUTED with one, and changes nothing else |
| LedgerProgress.ReopenCommits | context/settlement/application/command/st_admin_handler.go:230-261 | Alone, a DISPUTED batch with no OPEN one of its key is stored OPEN, without summary and discrepancies, and nothing else changes |
| LedgerProgress.ResolveDisputeCommits | context/settlement/application/command/st_admin_handler.go:275-304 | Alone, a DISPUTED batch without open reviews is stored CLOSED with the totals of its rows and no discrepancy |
| LedgerProgress.ForceCloseCommits | context/settlement/application/command/st_admin_handler.go:102-131 | Alone, an OPEN batch is stored CLOSED with the totals of its rows, and a batch with rows is announced |
| LedgerProgress.AutoCloseCommits | context/settlement/application/command/st_batch_handler.go:615-686 | Alone, an OPEN batch is stored CLOSED, or DISPUTED while one of its reviews is open; with rows it is announced, and SUBMITTED next when it is CLOSED |
| LedgerProgress.CloseCommits | context/settlement/application/command/st_batch_handler.go:371-427 | Alone, the close of a terminal stores CLOSED when the report equals the pending rows, or these plus the closed ones of the day, and no review is open, and DISPUTED otherwise; it is announced, and SUBMITTED next when it is CLOSED |
| LedgerProgress.RegisterCommits | context/settlement/application/command/st_batch_handler.go:166-196 | Alone, a new approval or reversal adds its row to the OPEN batch of its key unless the transaction has one of that kind, marks its event, and compares the review with the stored purchase |
| LedgerProgress.RegisterOpens | context/settlement/infrastructure/postgres/st_postgres_repository.go:580-650 | The same with no OPEN batch of the key: one is opened first, for the merchant of the sale |
| LedgerProgress.StaleStartsAgain | context/settlement/application/command/st_batch_handler.go:518-538 | A registration or a close whose batch somebody else saved stores nothing and starts again |
| LedgerProgress.DecisionCommits | context/settlement/application/command/st_admin_handler.go:431-513 | A decision that applies is stored as asked |
| LedgerProgress.TransitionsAreTheTable | context/settlement/domain/valueobject/st_batch_state.go:25-40 | The states that each state of a batch may become |
| LedgerCorrections.DecidesAs | context/settlement/application/command/st_admin_handler.go:431-513 | A decision resolves the review; USE_PURCHASE_AMOUNT sets the amount of that reversal and of no other row, EXCLUDE takes exactly that row away, and both raise the version of the batch |
| LedgerCorrections.AppliesIff | context/settlement/application/command/st_admin_handler.go:470-513 | When a decision applies, in stored columns: the review is open, a correction finds its reversal in an OPEN or DISPUTED batch, and USE_PURCHASE_AMOUNT finds an AMOUNT_MISMATCH with its purchase |
| LedgerCorrections.PurchaseAmountCancels | context/settlement/infrastructure/postgres/st_postgres_repository.go:383-397 | After USE_PURCHASE_AMOUNT the stored reversal has the amount of the purchase, and with that purchase stored the net of the transaction is zero |
| LedgerCorrections.ExcludeRemoves | context/settlement/infrastructure/postgres/st_postgres_repository.go:399-413 | After EXCLUDE the transaction has no reversal, and its net is higher by the amount of the one it had |
| LedgerRefinement.RowsOfHas | context/settlement/infrastructure/postgres/st_postgres_repository.go:794-823 | The rows of a batch are those of the table with its id, each as often, and no others |
| LedgerInvariants.ApplyKeeps | context/settlement/application/command/st_batch_handler.go:371-427 | Every legal operation keeps the ledger invariant, and leaves each batch as it was or raises its version |
| LedgerInvariants.AtMostOneRow | context/settlement/infrastructure/postgres/st_postgres_repository.go:112-126 | Two rows of the table never share transaction and type |
| LedgerInvariants.ExcludeKeeps | context/settlement/infrastructure/postgres/st_postgres_repository.go:399-413 | Excluding a reversal keeps the invariant; the other batches keep their rows |
| LedgerInvariants.UsePurchaseAmountKeeps | context/settlement/infrastructure/postgres/st_postgres_repository.go:383-397 | Correcting the amount of a reversal keeps the invariant; the other batches keep their rows |
| LedgerInvariants.RegisterKeeps | context/settlement/application/command/st_batch_handler.go:177-187 | Registering a row on an OPEN batch keeps the invariant and raises its version |
| LedgerInvariants.SaveCloseKeeps | context/settlement/application/command/st_batch_handler.go:412-426 | Saving a closed or disputed header with the totals of its rows keeps the invariant |
| Batches.Discrepancies | context/settlement/domain/aggregate/st_settlement_batch.go:139-150 | Zero exactly when the totals of the terminal equal those of the backend |
| Batches.CloseOutcome | context/settlement/application/command/st_batch_handler.go:392-410 | A close succeeds only from OPEN, never leaves PENDING_CLOSE, and holds the batch exactly when the totals differ or a review is open |
| BatchSummary.SummaryIsExactIff | context/settlement/domain/aggregate/st_settlement_batch.go:209-245 | With int64 additions and discarded NewMoney errors, the summary is exact if and only if each side is at most MaxInt64/100 and the currency is known (or there are no rows); zero and negative nets survive |
| BatchSummary.MachineFold | context/settlement/domain/aggregate/st_settlement_batch.go:211-226 | The int64 accumulators equal the exact sums as long as these fit in an int64 |
| BatchSummary.ReloadAfterSave | context/settlement/infrastructure/postgres/st_postgres_repository.go:846-859 | Saving a calculated summary and loading it gives the same counts and cents, whatever the amounts |
| BatchSummary.ReloadRejectsIff | context/settlement/infrastructure/postgres/st_postgres_repository.go:846-859 | A stored summary is dropped exactly when its counts do not add up |
| Money.NewMoneyIff | pkg/domain/money.go:19-31 | NewMoney refuses exactly unknown currencies, zero, and what a hundredfold would take out of an int64 |
| Money.WrapIsTwosComplement | context/settlement/domain/aggregate/st_settlement_batch.go:211-227 | An int64 sum or difference is in range and differs from the exact one by a multiple of 2^64 |
| SettlementBatches.SettlementBatch.CalculateSummary | context/settlement/domain/aggregate/st_settlement_batch.go:209-245 | The loop with four accumulators computes the specified summary, count and net |
| SettlementBatches.SettlementBatch.Add | context/settlement/domain/aggregate/st_settlement_batch.go:81-115 | A row is appended only to an OPEN batch and with a positive amount |
| SettlementBatches.SettlementBatch.Close | context/settlement/domain/aggregate/st_settlement_batch.go:126-158 | The whole header after a close is the one of the specification, or unchanged |
| SettlementBatches.SettlementBatch.CloseWithBackendTotals | context/settlement/domain/aggregate/st_settlement_batch.go:160-171 | Only from OPEN; the header is the one of a close with the totals of the rows |
| SettlementBatches.SettlementBatch.Reopen | context/settlement/domain/aggregate/st_settlement_batch.go:173-183 | Only from DISPUTED; the summary and the discrepancies are dropped |
| SettlementBatches.SettlementBatch.ResolveDispute | context/settlement/domain/aggregate/st_settlement_batch.go:185-201 | Only where CLOSED is allowed; the summary is recalculated and the discrepancies are dropped |
| SettlementBatches.SettlementBatch.CloseForTerminal | context/settlement/application/command/st_batch_handler.go:392-410 | Close and hold in memory, as one change of the header |
| SettlementService.Tables.SaveTx | context/settlement/infrastructure/postgres/st_postgres_repository.go:51-130 | Saved, stale or second open batch exactly by version and state; the new header and rows, or nothing; the version in memory moves only when saved |
| SettlementService.Tables.LoadTransactions | context/settlement/infrastructure/postgres/st_postgres_repository.go:794-823 | Exactly the rows of the batch |
| SettlementService.Tables.FindByID | context/settlement/infrastructure/postgres/st_postgres_repository.go:520-541 | The stored header, with its summary rebuilt, and the rows of the batch |
| SettlementService.Tables.FindOrCreateOpen | context/settlement/infrastructure/postgres/st_postgres_repository.go:580-650 | The one OPEN batch of the key, created if there is none |
| SettlementService.Tables.RegisterApproval | context/settlement/application/command/st_batch_handler.go:165-197 | Undisturbed, the handler does exactly one sequential approval, or nothing for a duplicate |
| SettlementService.Tables.RegisterReversal | context/settlement/application/command/st_batch_handler.go:254-279 | Undisturbed, the handler does exactly one sequential reversal with its review, or nothing for a duplicate |
| SettlementService.Tables.ProcessBatchClose | context/settlement/application/command/st_batch_handler.go:371-427 | Undisturbed, the handler does exactly one sequential close with the current prior totals and reviews |
| SettlementService.RetryOnStale | context/settlement/application/command/st_batch_handler.go:518-538 | The first attempt that is not stale, among at most eight; stale only after eight or a cancellation |
| SettlementAdmin.AdminHandler.ForceClose | context/settlement/application/command/st_admin_handler.go:88-140 | Succeeds exactly on an OPEN batch; the tables are those after the sequential operation, with an entry only if there are rows |
| SettlementAdmin.AdminHandler.ResubmitBatch | context/settlement/application/command/st_admin_handler.go:147-226 | Succeeds exactly when the batch may be sent and the processor accepts it; a batch with discrepancies or reviews is held |
| SettlementAdmin.AdminHandler.ReopenBatch | context/settlement/application/command/st_admin_handler.go:228-270 | Succeeds exactly on a DISPUTED batch with no OPEN batch of its key |
| SettlementAdmin.AdminHandler.ResolveDispute | context/settlement/application/command/st_admin_handler.go:272-314 | Succeeds exactly on a DISPUTED batch without open reviews |
| SettlementAdmin.AdminHandler.SettleBatch | context/settlement/application/command/st_admin_handler.go:316-410 | Succeeds exactly on a SUBMITTED batch; the tables are those after the settle, and the completion of the day is enqueued with it exactly when, with it, every listed batch is settled, with the count and the gross of each currency |
| SettlementAdmin.AdminHandler.MerchantDayBatches | context/settlement/infrastructure/postgres/st_postgres_repository.go:481-518 | Exactly the batches with rows of the merchant and the day |
| SettlementAdmin.AdminHandler.ResolveReversalReview | context/settlement/application/command/st_admin_handler.go:431-513 | Succeeds exactly when the action applies; the row of the reversal, the header and the review are then as the action asks, and otherwise nothing changed |
| SettlementAdmin.AdminHandler.AutoCloseBatch | context/settlement/application/command/st_batch_handler.go:612-686 | Closes exactly an OPEN batch for a new event; it ends DISPUTED with an open review, SUBMITTED if it has rows and the processor accepts it, and CLOSED otherwise |
| SettlementAdmin.AutoClosedStores | context/settlement/application/command/st_batch_handler.go:612-686 | The same of the specification, which leaves the other batches as they are, and everything when the batch is not OPEN or the event is known |
| SettlementAdmin.AdminHandler.CloseStaleBatches | context/settlement/application/command/st_batch_handler.go:580-610 | The sweep is the automatic close of each listed batch in turn, and it returns exactly how many it closed and on how many it failed |
| ReversalReviews.EitherOrderSameReason | context/settlement/application/command/st_batch_handler.go:324-338 | The Go switch and the SQL CASE leave the same open reason whichever of purchase and reversal commits first, and the review holds both charges and the batch of the reversal |
| ReversalReviews.CountOpen | context/settlement/infrastructure/postgres/st_postgres_repository.go:280-288 | Zero exactly when the batch has no open review |
| ReviewRaces.SameReasonInEveryInterleaving | context/settlement/infrastructure/postgres/st_postgres_repository.go:183-214 | When purchase and reversal overlap in any way, with any rollbacks, the final open reason is the comparison of the two, and never PURCHASE_NOT_FOUND |
| ReviewRaces.OrderDoesNotMatterIff | context/settlement/infrastructure/postgres/st_postgres_repository.go:194-278 | The order never matters if and only if the batch of the purchase has the merchant of its event, or the reversal names a third merchant |
| ReviewRaces.OneOfTwoReasons | context/settlement/infrastructure/postgres/st_postgres_repository.go:241-278 | Whatever the merchants, the final reason compares the reversal with the purchase of the event or with the purchase as its batch tells it |
| ReviewRaces.StuckWithoutLock | context/settlement/infrastructure/postgres/st_postgres_repository.go:183-192 | Without the advisory lock an overlap leaves PURCHASE_NOT_FOUND for ever, even for a matching pair |
| TerminalDay.NoDiscrepancyIff | context/settlement/application/command/st_batch_handler.go:473-498 | A close stores no discrepancy if and only if the terminal reported the pending rows, or those plus the closed ones with at least one prior row; it stores CLOSED exactly when moreover no review was seen |
| TerminalDay.CumulativeReportReconciles | context/settlement/infrastructure/postgres/st_postgres_repository.go:462-479 | The report of everything of the day always reconciles with the pending batch while the earlier ones are undisputed |
| TerminalDay.DaySplits | context/settlement/infrastructure/postgres/st_postgres_repository.go:462-479 | The exact totals of the day are the stored closed totals plus those of the open batch, and no closed rows means no closed amount |
| TerminalDay.CumulativeTerminalIsNeverDisputed | context/settlement/application/command/st_batch_handler.go:473-498 | Over any concurrent run, with any number of closes a day and prior totals read in an earlier step: if the terminal reports everything of the day whenever one of its closes commits and no review is open on its batches, no batch of the key is ever disputed |
| TerminalDay.PriorStays | context/settlement/application/command/st_batch_handler.go:473-498 | While no batch of the key is disputed, no commit changes the closed totals of the batches other than the pending one |
| DailyCompletion.EnqueuedExactlyWhenComplete | context/settlement/application/command/st_admin_handler.go:364-381 | However settles interleave, and while batches appear, are submitted, or gain and lose rows, one enqueues exactly when with it every batch with rows that it read is settled, and no batch is settled twice |
| DailyCompletion.LastAnnouncesIff | context/settlement/application/command/st_admin_handler.go:364-410 | Once every batch with rows is settled, the last settle announced the whole day if and only if no batch that it listed as unsettled lost its rows since |
| DailyCompletion.AnnouncedIff | context/settlement/application/command/st_admin_handler.go:364-410 | Once every batch with rows is settled, some settle announced the whole day if and only if one completed it and no batch got its rows after that settle read the day |
| DailyCompletion.EnqueuedOnceIff | context/settlement/application/command/st_admin_handler.go:364-410 | For every run, exactly one settle enqueues if and only if one completed the day and every settle after the first of these still waits for a batch that got its rows later |
| DailyCompletion.OnceIffNothingSettledLater | context/settlement/application/command/st_admin_handler.go:364-410 | On a day that is done and announced, exactly one settle enqueued if and only if nothing was settled after the first one that completed it |
| DailyCompletion.EmptyBatchEnqueuesAgain | context/settlement/infrastructure/postgres/st_postgres_repository.go:494-499 | A concrete day on which a batch without rows, settled last, enqueues the completion a second time |
| DailyCompletion.LateBatchEnqueuesAgain | context/settlement/infrastructure/postgres/st_postgres_repository.go:494-499 | A concrete day on which a batch with rows that appeared after the completion enqueues it a second time |
| DailyCompletion.ExcludedRowsMissCompletion | context/settlement/infrastructure/postgres/st_postgres_repository.go:399-413 | A concrete day on which an operator excludes the only row of a batch that the last settle still waited for: the day is done and nothing was enqueued |
| LedgerDays.LedgerStepIsDayStep | context/settlement/infrastructure/postgres/st_postgres_repository.go:481-518 | Every commit of the ledger changes the batches of a merchant and a day as these theorems allow: batches may appear, and those that were sent keep their rows and totals |
| LedgerDays.CodesAreOrdered | context/settlement/application/command/st_admin_handler.go:390-400 | The events of a day are ordered like the currency codes |
| LedgerDays.SettledIff | context/settlement/application/command/st_admin_handler.go:330-355 | A batch of the day is SETTLED in the tables if and only if the log holds its settle |
| LedgerDays.SettlingAgrees | context/settlement/infrastructure/postgres/st_postgres_repository.go:493-499 | In the transaction of a settle, the SETTLED batches of the day are those that the log settled before and its own |
| LedgerDays.LogIsDayRun | context/settlement/application/command/st_admin_handler.go:316-410 | Every legal log is a run of the day: its batches are those of the tables, and its commits are the settles of the log with what each read and enqueued |
| WholeRuns.RunIsDayRun | context/settlement/application/command/st_admin_handler.go:316-410 | So is every concurrent run of the ledger, for each merchant and day |
| WholeRuns.DayAnnouncedIff | context/settlement/application/command/st_admin_handler.go:364-410 | In any concurrent run, when every batch of a merchant and day with rows is SETTLED, the totals of the day were enqueued if and only if some settle that enqueued saw the rows of all of them |
| DailyCompletion.SettleAlone | context/settlement/application/command/st_admin_handler.go:330-355 | A settle that nobody disturbs commits |
| DailyCompletion.EnqueueCompletedIfDone | context/settlement/application/command/st_admin_handler.go:364-410 | Nothing unless every line is settled; then one event per currency, in order, with the count and the gross of its batches |
| DailyCompletion.Accumulate | context/settlement/application/command/st_admin_handler.go:372-388 | The loop stops at the first unsettled line, and otherwise its map holds the totals of each currency |
| SagaSafety.OneCallOneResult | context/authorization/application/command/authorize_transaction.go:387-441 | At most one Authorize call ever starts, at most one of approved and rejected and at most one reversal is published, each for a state the row was saved in; every won save raises a rank, so a row is written at most four times |
| SagaSafety.SaveKeeps | context/authorization/infrastructure/postgres/repository.go:229-280 | A won conditional save extends the history along the allowed paths and into a state not saved before |
| SagaSafety.StepKeeps | context/authorization/application/command/authorize_transaction.go:509-545 | Every step of every handler, reconciler and host keeps the safety invariant |
| SagaSafety.RequestSurvives | context/authorization/application/command/authorize_transaction.go:694-721 | A reversal request accepted during the sale or after its approval survives every later save, so the pending reversals include the row whenever it is APPROVED |
| SagaOutcomes.BlockedNeverCalls | context/authorization/application/command/authorize_transaction.go:606-637 | In every run, a transaction that was created for a blocked card is REJECTED, never calls the host, has no charge, and publishes no approval and no reversal |
| SagaOutcomes.SaleEnds | context/authorization/application/command/authorize_transaction.go:447-546 | A sale that passes the fraud check, moving alone, makes one call and ends as the host decides: APPROVED with a live charge or REJECTED without one, published once more |
| SagaOutcomes.ReversalEnds | context/authorization/application/command/authorize_transaction.go:676-764 | The reversal of an APPROVED sale, moving alone, voids its charge and ends in REVERSED, published once more |
| SagaOutcomes.OtherEnds | context/authorization/application/command/authorize_transaction.go:387-441 | A bad score rejects the sale without a call; a call that times out leaves it INDETERMINATE with nothing published |
| SagaOutcomes.UnknownIsNotMarked | context/authorization/application/command/authorize_transaction.go:387-441 | A score or a reversal of an unknown transaction changes nothing, so that its event can come again |
| SagaOutcomes.TransitionsAreTheTable | context/authorization/domain/valueobject/state.go:32-47 | The states that each state of a transaction may become |
| SagaAgreement.HostAgreement | context/authorization/application/command/reconcile.go:91-129 | Under the guards, over all runs, crashes and late or lost confirmations: a REJECTED or REVERSED row leaves no live charge, a live charge means PROCESSING, INDETERMINATE or APPROVED, and an APPROVED row without a request has its charge |
| SagaAgreement.StepOk | context/authorization/application/command/authorize_transaction.go:447-546 | Every guarded step keeps the agreement invariant of row, host and workers |
| SagaAgreement.RepeatedReversalCompletes | context/authorization/application/command/authorize_transaction.go:739-764 | An APPROVED row whose charge was undone is selected by the reconciler, and repeating its reversal ends in REVERSED with exactly one published completion |
| SagaAgreement.ReconcileResolves | context/authorization/application/command/reconcile.go:33-57 | A pass over an unresolved row ends in REJECTED without a charge, and publishes the only result of the transaction |
| SagaGuards.GuardsAreExact | context/authorization/application/command/reconcile.go:91-112 | From any state of a guarded run, agreement can be kept for ever after a step if and only if the step satisfies its guard |
| SagaGuards.WithoutGuardA | context/authorization/application/command/authorize_transaction.go:77-95 | A reachable state in which a sale waiting for a slot is taken by the reconciler, and agreement is lost |
| SagaGuards.WithoutGuardB | context/authorization/infrastructure/postgres/repository.go:312-351 | A reachable state in which a sale listed as PROCESSING is loaded as APPROVED, and agreement is lost |
| SagaGuards.WithoutGuardC | context/authorization/application/command/reconcile.go:106-112 | A reachable state in which a reversal overtook the authorization, and agreement is lost if the host approves it |
| SagaGuards.WithoutGuardCLate | context/authorization/infrastructure/iso8583/client.go:189-206 | A reachable state in which no reconciler is about to reject, but the confirmation of a reversal that timed out is still on its way: the next reversal of the transaction takes it for its own, and agreement is lost if the host approves the overtaken authorization |
| AuthorizationService.Transaction.ApplyFraudDecision | context/authorization/domain/aggregate/transaction.go:124-139 | Only from FRAUD_CHECKING, to REJECTED with its reason or to PROCESSING |
| AuthorizationService.Transaction.Approve | context/authorization/domain/aggregate/transaction.go:153-164 | The code is set exactly when the transition is allowed |
| AuthorizationService.Transaction.Reject | context/authorization/domain/aggregate/transaction.go:192-202 | The reason is set exactly when the transition is allowed |
| AuthorizationService.Service.SaveIfState | context/authorization/infrastructure/postgres/repository.go:229-280 | Saved exactly when the stored state is the expected one; keeps the reversal request and every other row; approvals keep a code and rejections a reason |
| AuthorizationService.Service.AuthorizeTransaction | context/authorization/application/command/authorize_transaction.go:163-222 | A new event and a new id store REJECTED with its reason and publish the rejection for a blocked card, and FRAUD_CHECKING with nothing published otherwise; anything else changes only the mark; all of it as the steps of the saga do |
| AuthorizationService.Service.ApplyFraudScore | context/authorization/application/command/authorize_transaction.go:387-441 | A new score of a FRAUD_CHECKING row stores REJECTED with its reason and publishes it, or PROCESSING; a missing row marks nothing; a transaction is handed to the acquirer exactly when this call moved it |
| AuthorizationService.Service.CallAcquirer | context/authorization/application/command/authorize_transaction.go:447-546 | For each way in which the call can end, the stored state, code and reason of a PROCESSING row and what is published; an approval without a readable code changes nothing |
| AuthorizationService.Service.ProcessReversal | context/authorization/application/command/authorize_transaction.go:676-737 | The request is stored exactly for a FRAUD_CHECKING, PROCESSING or APPROVED row and a new event; the host is called exactly for an APPROVED row |
| AuthorizationService.Service.CompleteReversal | context/authorization/application/command/authorize_transaction.go:739-764 | Stores REVERSED and publishes it exactly when the host confirmed and the row is still APPROVED |
| AuthorizationService.Service.Reconcile | context/authorization/application/command/reconcile.go:90-129 | A row that is as it was loaded goes from PROCESSING to INDETERMINATE, and to REJECTED with TIMEOUT when the host confirms, with the rejection published; any other stays |
| AuthorizationService.Service.LoadByIDs | context/authorization/infrastructure/postgres/repository.go:312-351 | The stored rows of the listed ids, in order, without the missing ones |
| AuthorizationService.Service.ListIds | context/authorization/infrastructure/postgres/repository.go:282-310 | The first fifty ids that the query selects, in its order |
| AuthorizationService.ListedUnlessFifty | context/authorization/infrastructure/postgres/repository.go:282-310 | A row that is INDETERMINATE, or PROCESSING and due, or for the other query APPROVED with a request and due, is listed unless fifty that come earlier are |
| AuthorizationService.SelectsIff | context/authorization/infrastructure/postgres/repository.go:282-310 | What the query selects, in stored columns, and that it is what the saga calls unresolved |
| AuthorizationService.Service.ReconcileEach | context/authorization/application/command/reconcile.go:41-57 | Each listed transaction takes exactly one pass and no other changes; the resolved are as many as the publications, namely those whose pass ends with a result, and all the others failed |
| AuthorizationService.Service.ReconcileUnresolved | context/authorization/application/command/reconcile.go:33-80 | First the unresolved rows and then the pending reversals take one pass each; the counts are exact; a row that is INDETERMINATE, or PROCESSING and due, with fewer than fifty before it, ends in REJECTED when the host confirms |
| AuthorizationService.PassedIsSteps | context/authorization/application/command/reconcile.go:90-129 | What a pass does to row and publications is what the steps of the saga do |
| EndToEnd.NetOfLog | context/settlement/application/command/st_batch_handler.go:188-195 | In whatever order and however often its events are applied, a transaction adds its amount when approved and takes it away when reversed; its review is open exactly while the reversal waits for the approval and no operator has accepted it |
| WholeRuns.NetMatchesRow | context/authorization/infrastructure/nats/publisher.go:38-50 | After any run of the saga and any concurrent run of the ledger to which every event of a won save was delivered, the net over all batches is the amount when the row is APPROVED and zero otherwise, and no review is open |
| EndToEnd.NetByKind | context/settlement/infrastructure/postgres/st_postgres_repository.go:112-118 | With unique keys the net of a transaction is the amount of its purchase minus that of its reversal |
| IsoClient.EveryWaiterIsSafe | context/authorization/infrastructure/iso8583/client.go:242-300 | For any interleaving: a waiter gets at most one message, which has its type and its reference in data element 11 for 0810 and 37 otherwise, or one close; while it has neither it is in the list of its key exactly once, or held by one delivery or by the teardown |
| IsoClient.SendsAreSafe | context/authorization/infrastructure/iso8583/client.go:189-206 | A send always finds its channel open and empty |
| IsoClient.ClosesAreSafe | context/authorization/infrastructure/iso8583/client.go:135-147 | A close always finds its channel open, with nothing sent and nothing about to be |
| IsoClient.NobodyIsOrphaned | context/authorization/infrastructure/iso8583/client.go:135-147 | After the teardown whoever still waits has its message or its close |
| IsoClient.OldestWaiterIsServed | context/authorization/infrastructure/iso8583/client.go:170-206 | A message goes to the waiter that it answers and that registered first |
| IsoClient.LateMessageIsIgnored | context/authorization/infrastructure/iso8583/client.go:170-197 | A message without its data element, or that answers nobody who is listed, changes nothing |
| IsoClient.RoundTripEnds | context/authorization/infrastructure/iso8583/client.go:242-300 | A round trip whose answer arrives ends with that answer, in no list |
| IsoClient.TeardownCloses | context/authorization/infrastructure/iso8583/client.go:135-147 | Each step of the teardown closes the first lost waiter of a key |
| IsoClient.Client.Register | context/authorization/infrastructure/iso8583/client.go:250-260 | A step of the machine; nobody registers without a connection |
| IsoClient.Client.Pop | context/authorization/infrastructure/iso8583/client.go:170-206 | The first waiter that the message answers leaves its list and gets it; a message without its data element or without a waiter changes nothing |
| IsoClient.Client.Forget | context/authorization/infrastructure/iso8583/client.go:284-300 | Removes exactly the waiter, and an empty list |
| IsoClient.Remove | context/authorization/infrastructure/iso8583/client.go:284-300 | The loop finds the waiter and takes it out of its list |
| IsoClient.Client.LoseConnection | context/authorization/infrastructure/iso8583/client.go:135-140 | All lists are taken away at once |
| RateLimiter.RateBound | gateway/internal/middleware/ratelimit.go:53-79 | In any window of some minutes a client is admitted at most rate + rate times minutes times |
| RateLimiter.WindowBound | gateway/internal/middleware/ratelimit.go:53-79 | From any call to the last one, a client is admitted at most as often as a full bucket and the tokens earned meanwhile allow, on any clock that never goes back |
| RateLimiter.RefusedThenAdmitted | gateway/internal/middleware/ratelimit.go:91-99 | A refused client that sends nothing for Retry-After seconds is admitted at its next call |
| RateLimiter.PurgeIsInvisible | gateway/internal/middleware/ratelimit.go:57-88 | Every answer, with its waiting time, is that of a limiter that never forgets a client |
| RateLimiter.RetryAfterSuffices | gateway/internal/middleware/ratelimit.go:73-76 | Truncating the wait to nanoseconds and then to seconds plus one still earns the missing token |
| RateLimiter.RetryAfterIsTight | gateway/internal/middleware/ratelimit.go:91-99 | The header is more than the wait and at most one second more |
| RateLimiter.NewClientIsAdmitted | gateway/internal/middleware/ratelimit.go:53-72 | A client without a bucket is admitted from a full one |
| RateLimiter.RoomKeepsLevels | gateway/internal/middleware/ratelimit.go:81-88 | A purge, in whatever order it visits the buckets, changes no level now or later |
| RateLimiter.Gateway.Purge | gateway/internal/middleware/ratelimit.go:81-88 | The loop removes exactly the full buckets, visiting every key |
| RateLimiter.Gateway.AllowAt | gateway/internal/middleware/ratelimit.go:53-79 | New buckets and answer are those of the specification, with the full-map branch |
| Outbox.NothingIsLost | pkg/outbox/outbox.go:97-168 | With any relays, failed publishes, lost acknowledgements and crashes, every committed entry is pending or in the stream, which holds each id once; no two relays hold a row |
| Outbox.UndisturbedPass | pkg/outbox/outbox.go:141-161 | An undisturbed pass moves the oldest rows, at most the limit, from the table to the stream |
| Outbox.EverythingIsPublished | pkg/outbox/outbox.go:97-168 | From the end of any run, once the failures stop, every committed entry reaches the stream and leaves the table |
| Outbox.SelectedUnlessFull | pkg/outbox/outbox.go:108-121 | A row that no relay holds is taken unless the limit is reached by earlier ones |
| Outbox.Database.PublishPending | pkg/outbox/outbox.go:97-168 | For each point of failure, what reached the stream and which rows remain: on success the oldest rows, at most the limit, moved to the stream, and otherwise all rows are there |
| CloseEvents.ClosingCommitAnnounces | context/settlement/application/command/st_batch_handler.go:412-426 | A commit that closes a batch with rows, or that its terminal asked for, enqueues the entry that describes the batch as saved |
| WholeRuns.EveryCloseIsPendingOrPublished | context/settlement/application/command/st_batch_handler.go:500-507 | Whenever a step of any concurrent run closes a batch with rows, or for its terminal, the entry that describes the batch as that step saved it is later pending or in the stream, whatever the relays go through |
| Luhn.LuhnCheck | pkg/validator/luhn.go:6-28 | Accepts exactly the texts of 13 to 19 digits whose recursive checksum is a multiple of ten |
| Luhn.LeftIsRight | pkg/validator/luhn.go:10-26 | The loop from the left and the definition from the right agree at every length |
| Luhn.OneDigitIsDetected | pkg/validator/luhn.go:14-27 | Changing any one character of an accepted number makes it rejected |
| Luhn.SwapIsDetectedIff | pkg/validator/luhn.go:14-27 | Exchanging two adjacent digits is undetected if and only if they are equal or are 0 and 9 |
| Luhn.CheckDigitIsUnique | pkg/validator/luhn.go:14-27 | Each prefix has exactly one accepted check digit |

## Left out

- NATS, Postgres, gRPC and HTTP plumbing, wiring, configuration, metrics, tracing, logs and the audit log: a database transaction is one atomic step, except where a lock or an uncommitted write matters.
- Time: business dates, time zones, the age limits of the reconciler and of a close, and timestamps are inputs or are dropped; the order of rows by `included_at` is their order of insertion.
- `rejectInvalid` and its table: it publishes without an idempotency mark, so the at-most-once claims do not cover it.
- At-most-once submission to the settlement processor: the call precedes the save, so only the stored SUBMITTED is unique; whether the processor accepts is an input.
- The fraud bypass: nothing moves a row that stays in FRAUD_CHECKING, and no progress is claimed from there.
- `netAmount`, which uses float64; and the sum of the gross amounts of a day is not bounded to an int64.
- Packing of ISO fields, TLS, tokens, card data and the blocklist table: whether a card is blocked is an input, and a transaction id stands for its retrieval reference number.
- `Money.Add`, `Money.Negate`, parsers, identifiers, STAN, the fraud rule cache and notification retries: only easy claims.
- The reasons of rejection codes beyond where they come from, and the card capture they can order.
- The two reasons of a refused save, a stale version and a second OPEN batch, are told apart only in `SettlementService`; concurrent clients treat both as a failed attempt and may repeat it any number of times.
- What handlers achieve (`LedgerProgress`, `SagaOutcomes`) is stated for one that nobody disturbs; no scheduler or fairness is modelled, and a handler that always meets a stale batch may never commit.
- The handlers as methods run undisturbed; the interleavings are covered on the step machines, and the two are joined by stating each method in terms of the machine or of the sequential operation.
- An operator's decision is one step of the ledger; its locks and its overlap with a purchase and a reversal are in `OperatorRaces`, for one transaction, and both use the same comparison (`ReconcileLate`).
- ReviewRaces.SameReasonInEveryInterleaving: assumes that a terminal belongs to one merchant, as `OperatorRaces.OpenAfterDecisionIff` does; `OrderDoesNotMatterIff` says what happens otherwise.
- WholeRuns.NetMatchesRow: assumes that a terminal belongs to one merchant and that no operator excludes or corrects the reversal of the transaction, which changes its net; accepting it is covered.
- TerminalDay.CumulativeTerminalIsNeverDisputed: assumes that no review is open on the batches of the key, and that the sums of the day stay within what NewMoney accepts.
- RateLimiter.RateBound: exact rationals in place of float64, calls with nondecreasing times, a rate of at least one, and no call on the branch that admits everybody because the map is full.
- Outbox.NothingIsLost: JetStream drops repeated ids for ever, not only within its window.
