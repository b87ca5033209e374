# Relay wallet: payout protocol and ledger

The wallet pays withdrawals from hot wallets on several EVM networks and keeps a ledger of account
balances that it rebuilds from the Relay's log. This project models the two coupled parts that decide
whether money is lost or paid twice, and proves their safety over every run.

**Payout protocol.** Every withdrawal record owns a chain of transaction rows (an attempt and its
retries). Every change of a row is a conditional UPDATE. Three actors interleave on the rows: the serial
sender, any number of confirmers with possibly stale copies, and the withdrawal processor with its
timeout and authorisation cancellations; a crash may strike between any two steps. `Transactions` has the
conditional updates, `Chains` the retry chain and its gates, `Protocol` the state machine (`Next`, `Run`),
`Invariants` what holds in every reachable state, the `*Proofs` modules one preservation proof per actor,
`Evolution` how any two states of a run are related, `Theorems` and `Accounting` the results. `Finality` says when
a payout is settled, in blocks, and `Decisions` what each check of the wallet lets through, in stored columns.
`TransactionStore` has the row methods in the form the code gives them, an object and the table it is a
copy of, each proved to be the conditional update of the state machine.

**Ledger.** `RelayLedger` is the batch and the log-by-log fold it must equal, `LedgerHistory` what the
ledger owes to its log, `LedgerStore` the loops over the stored tables, `Vesting` the release schedule.

**Around them.** `Authorization` (signed message), `DailyLimit` and `DailyLimitRuns` (per-day limits),
`Fees` (64-bit gas arithmetic and fee caps) and `NonceCursor`.

**Where an assumption carries a property,** the state machine lets it be dropped, and the property is proved to
hold in every run if and only if it is kept. The other direction is a concrete run, built step by step on
`SampleRun` for every request the wallet would accept (`RefundRun` is its counterpart that ends in a refund):
`PaidTwice` (a receipt vanishes between two reads),
`LostCommit` (a debit's commit is lost), `Stranded` (the database starts with an attached record that was never
cleared) and `DailyLimitRuns` (a request comes back changed). `Balances`, `FailedRecords` and the end of
`PaidTwice` say what one given run does.

How the state machine reads the code: each `Sender...` function of `Protocol` is one database or network
action of blockchain/transaction_sender.go:173-374, each `Job...` function one of
blockchain/transaction_confirmer.go:153-274, each `Proc...` function one of
tasks/process_withdrawal_requests.go:602-1120, and `Boot` is blockchain/transaction_manager.go:43-51.
A row's id is its index in the table. `owners`, `accepted`, `history` and `chain.sends` record what
happened and steer no step.

## Hypotheses

- A receipt at the configured depth is final. A shallower one may be reorganised away at any time; whether
  also between a confirmer's read of it and its read of the chain head is the switch `receiptsMayVanish`
  (blockchain/transaction_confirmer.go:179 and :197 are two calls).
- One process; the clock does not run backwards; a database call that reports an error had no effect.
  The code sets some in-memory fields before the write that stores them has committed: the status inside
  the debit transaction and the transaction id inside the attach transaction. Both lost commits are
  admitted by the switch `commitMayFail`. A fingerprint is missing on historical records only
  (`PendingIsCleared`, `ClearedNeverRefused`); where the query or the write for it fails, authorisation is
  refused, and the status write that follows is taken to succeed.
- A run starts with an empty database or with one historical record: attached to an unsent row by an earlier
  version, carrying whatever authorisation it has, and covered by its account.
- Whether a signature belongs to the requester is a fixed function of request and signature, because the code
  computes it from columns that nothing rewrites.
- The two writers of balances run in serialised transactions: both store absolute values without locking
  the account row (tasks/sync_task_fee_logs.go:728-737, tasks/process_withdrawal_requests.go:740-742).
- The node's pending nonce is above every nonce it has acknowledged, and `tx_hash` is unique.
- The root and the retries of a chain are read one after the other, so the copy of the root may be any
  earlier version of the stored row.
- Configured networks, limits and digests do not change during a run. The digest is an arbitrary
  function: no collision freedom is assumed anywhere.

## Where intent and code differ

- A reorganisation between the two reads of a confirmer makes a row fail that is not lost, and its record is
  then paid twice (`VanishedReceiptPaysTwice`, `PaidOnceExactly`).
- A historical record may be marked failed although its chain was not lost: its authorisation is refused while
  the row is still cancellable, and the row has gone out by the time it is read again
  (tasks/process_withdrawal_requests.go:620-647). For every record the wallet itself has let through, failed
  means lost (`FailedMeansLost`); `FailsExactlyWhenLost` names the one step that can break it, and
  `FailedLostExactly` says from which databases it does. By `StuckForEver` such a record is then never finished
  or debited, and no later record ever gets a transaction.
- A revert reason that equals the receipt-timeout text makes a real failure look unproven
  (`FailureProvenExactly`, `TimeoutTextHidesFailure`). Nothing unsafe follows, but by `StuckForEver` the
  record is never finished and every later one waits.
- A lost debit commit makes the retry find the record successful and report it without a debit
  (`LostCommitBreaksConservation`); a run is out of balance by exactly the totals of such records
  (`RunBalances`, `BalancedExactly`).
- The daily limit does not hold when a request comes back under its id with other addresses, because the
  check leaves out the stored record by that id (`DailyLimitExactly`).
- A grant longer than 106751 days never completes, because the elapsed time saturates
  (`CompletesIffRepresentable`).
- A gas buffer of 2^64 - 100 percent or more wraps around (`CoversEstimateExactly`).

## Model

| member | source | states |
|---|---|---|
| Theorems.NoDoublePayout | models/blockchain_transaction.go:229-488 | of all payloads ever submitted for one record, at most one has succeeded on chain, in every reachable state of every interleaving in which no receipt vanishes between a confirmer's two reads |
| PaidTwice.PaidOnceExactly | blockchain/transaction_confirmer.go:178-210 | for a service that can pay and retry, no record is ever paid twice if and only if no receipt vanishes between a confirmer's two reads |
| PaidTwice.VanishedReceiptPaysTwice | blockchain/transaction_confirmer.go:178-210 | where one may vanish, for every storable request a run pays it twice: reverted receipt read, reorganised away, row failed and retried, both payloads succeed |
| PaidTwice.TwiceOnlyAfterVanishing | blockchain/transaction_confirmer.go:178-210 | whatever is admitted, a run that has paid a record twice contains a step that took away a receipt a confirmer held |
| Finality.SettledIsDeep | blockchain/transaction_confirmer.go:195-223 | in every run, a step that leaves a row confirmed or failed finds it sent and the head of its network at least the configured number of blocks above the block of its receipt, which unless receipts may vanish is on chain with that outcome |
| Finality.SettlesExactlyWhenDeep | blockchain/transaction_confirmer.go:302-307 | in every reachable state, a confirmer holding a receipt can settle its row if and only if head >= block + depth, as confirmed or failed by the receipt's own outcome; a row no longer sent is left alone |
| Finality.ShallowMayVanish | blockchain/transaction_confirmer.go:178-210 | in every reachable state, a receipt can be reorganised away if and only if head < block + depth and no confirmer has read it, or receipts may vanish |
| Theorems.AllButLastReverted | blockchain/transaction_confirmer.go:248-274 | every attempt of a record except its last is Failed, and unless receipts may vanish its payload was reverted by a receipt with head >= block + depth |
| Theorems.PaysWhatWasAsked | tasks/process_withdrawal_requests.go:674-700 | every submission belongs to a record and transfers exactly what that record asks for: network, payer, token, payee, amount |
| Theorems.SubmissionsDistinct | models/blockchain_transaction.go:312-348 | payloads of different rows have different hashes, so one receipt never settles two rows |
| Theorems.RejectIsFinal | tasks/process_withdrawal_requests.go:838-944 | after a Reject call the record's chain is frozen, nothing more is submitted, it is never fulfilled and never debited, and unless receipts may vanish every payload of it is reverted for good |
| Theorems.FulfillIsExact | tasks/process_withdrawal_requests.go:786-816 | after a Fulfill call exactly one row of the record is confirmed and its hash is the reported one, all others are proven failures, the record is never rejected nor reported with another hash, and unless receipts may vanish that hash alone succeeded |
| Theorems.RejectHasCause | tasks/process_withdrawal_requests.go:912-1016 | at every Reject call the record is not debited; without a transaction it was refused or now > createdAt + timeout at that moment, with one every attempt is a proven failure |
| Theorems.RejectionWasCalled | tasks/process_withdrawal_requests.go:912-944 | every rejection on record goes back to such a call |
| Decisions.PendingStoredExactly | tasks/process_withdrawal_requests.go:527-595 | a request is stored as pending if and only if it is signed with a timestamp, worth something with its fee, on a known network and with a beneficiary; it conflicts only with the same remote id or the same digest of its message |
| Decisions.FetchesFirstOpen | tasks/process_withdrawal_requests.go:602-609 | a round fetches, in order, the first records from its start that are neither finished nor rejected, as many as the batch holds and none left out before them |
| Decisions.EnterExactly | tasks/process_withdrawal_requests.go:1043-1060 | a record goes to the timeout handler if and only if now > createdAt + timeout |
| Decisions.CheckedExactly | tasks/process_withdrawal_requests.go:611-620 | a pending record's authorisation is checked if and only if none of its attempts has a signed payload |
| Decisions.AuthorizedExactly | tasks/process_withdrawal_requests.go:130-154 | the check passes if and only if the request is signed and its stored digest is its own, or missing and carried by no other record; it then carries its own and nothing else changes |
| Decisions.GateExactly | tasks/process_withdrawal_requests.go:661-672 | the execution gate lets a record through if and only if its account holds amount + fee, and fails it otherwise |
| Decisions.DebitExactly | tasks/process_withdrawal_requests.go:725-754 | the debit takes exactly amount + fee from exactly one account if and only if it still holds them, and otherwise changes nothing |
| Decisions.ConfirmedExactly | tasks/process_withdrawal_requests.go:707-784 | with the root read as it is now, a confirmed row leads to the debit if and only if every other attempt is cancelled or failed for a reason other than the timeout text |
| Decisions.RejectCheckExactly | tasks/process_withdrawal_requests.go:838-871 | with the root read as it is now, a record goes on to Reject if and only if it has no transaction or every attempt is cancelled or failed for a reason other than the timeout text |
| Decisions.TimeoutExactly | tasks/process_withdrawal_requests.go:946-1016 | with the root read as it is now, a late record is rejected without a transaction, goes to cancellation if its last attempt is pending or sending, stops the round while it is broadcasting or sent, and is settled when it has ended |
| Decisions.ClaimExactly | models/blockchain_transaction.go:229-273 | a checked row is claimed if and only if it is pending, has no cancellation request, and every earlier attempt failed for a reason other than the timeout text |
| Decisions.LimitExactly | blockchain/transaction_sender.go:225-249 | a claimed row goes on to be signed if and only if the number of sent and broadcasting rows of its network is below the limit |
| Decisions.LogsExactly | tasks/sync_task_fee_logs.go:829-851 | a received batch moves every balance by its sum when it is accepted as a whole, and changes nothing otherwise |
| RefundRun.RefundCompletes | tasks/process_withdrawal_requests.go:946-1016 | every request the wallet would store as pending is, by some run, attached, overdue, cancelled unsent, rejected at the Relay and finished, with nothing submitted and its account untouched |
| RetryOrder.RetriesWaitForProof | models/blockchain_transaction.go:229-273 | in every reachable state, once a retry has been claimed every earlier attempt is a proven on-chain failure |
| RetryOrder.StepStarts | models/blockchain_transaction.go:229-273 | a step starts at most one row, and only by a claim that found every earlier chain member a proven failure |
| Theorems.FinishedMeans | tasks/process_withdrawal_requests.go:786-816 | Finished means fulfilled and paid exactly once; FinishedRejected means a Reject call was made |
| Theorems.WriteAhead | blockchain/transaction_sender.go:272-338 | a payload is submitted only while its row is stored as Broadcasting with that very payload, first submissions and resubmissions alike |
| Theorems.SubmittedStaysCommitted | models/blockchain_transaction.go:275-348 | a row that was ever submitted keeps that payload and is never Pending, Sending or Cancelled again |
| Theorems.RecoveryTouchesOnlyUnsent | models/blockchain_transaction.go:128-142 | startup recovery changes only rows of which nothing was ever submitted |
| Theorems.FailureProvenExactly | models/blockchain_transaction.go:570-596 | a failed row counts as proven if and only if its message is not the receipt-timeout text; unless receipts may vanish it was reverted for good either way |
| Stranded.TimeoutTextHidesFailure | models/blockchain_transaction.go:570-592 | for every storable request a run reverts its payout for good with that very text, and the row does not count as proven |
| FailedRecords.FailsExactlyWhenLost | tasks/process_withdrawal_requests.go:616-784 | a step that fails a pending record leaves every row of it Failed or Cancelled, if and only if it is not the answer to a refused authorisation or the stored current row is Failed or Cancelled; that answer is given to historical records only |
| FailedRecords.FailedMeansLost | tasks/process_withdrawal_requests.go:611-784 | in every reachable state every row of a failed record is Failed or Cancelled, unless the record was attached without clearance before the run began |
| Stranded.FailedLostExactly | tasks/process_withdrawal_requests.go:616-648 | every failed record has lost its chain in every run from a given database if and only if that database holds no attached record without clearance |
| Stranded.FailedRecordMayBePaid | tasks/process_withdrawal_requests.go:616-648 | from every database with an attached record that is not cleared, a run reaches a state in which it is failed, its row confirmed, its payout successful and its account untouched |
| Stranded.StuckForEver | tasks/process_withdrawal_requests.go:838-871 | from a failed record with a confirmed row, or an unproven failed row, on: in every later state the record is neither finished, rejected nor debited, and no later record has a transaction |
| Theorems.HeadOfLine | tasks/process_withdrawal_requests.go:602-609 | a record with a transaction has only finished or rejected records before it, and every row but the newest is confirmed, failed or cancelled |
| Theorems.SenderGuarantees | blockchain/transaction_sender.go:198-295 | at most one Broadcasting row, nonces strictly increasing by row per network, never more Sent and Broadcasting rows of a network than its limit, counted as a set |
| Theorems.CancellationHandshake | models/blockchain_transaction.go:275-406 | between any two states of a run: a cancellation request keeps its time and reason, excludes broadcast for ever and lets the row change to Cancelled only; a persisted payload never changes and excludes cancellation for ever |
| Theorems.ChainShape | models/blockchain_transaction.go:517-568 | a record's rows are consecutive ids with retry counts 0, 1, 2, ..., one transfer throughout, at most MaxRetries + 1 of them, no 8-bit wrap; the current row is the last, and if it has failed no retries are left |
| Theorems.RunInv | tasks/process_withdrawal_requests.go:611-1120 | the whole invariant holds in every state of every run |
| Theorems.RunLater | models/blockchain_transaction.go:201-515 | between any two states of a run rows, records, owners, submissions, Relay calls, deposits and grants only move forward and final receipts stay |
| SenderProofs.SenderKeepsInv | blockchain/transaction_sender.go:173-374 | every sender step keeps the invariant |
| ConfirmerProofs.JobKeepsInv | blockchain/transaction_confirmer.go:153-307 | every confirmer step keeps the invariant, however stale its copy of the row |
| EnvironmentProofs.EnvKeepsInv | blockchain/transaction_manager.go:35-56 | time, new requests, log batches, mining, reorganisation, vanishing receipts if admitted, crash and restart keep the invariant |
| ProcessorProofs.ProcKeepsInv | tasks/process_withdrawal_requests.go:611-1120 | every processor step keeps the invariant |
| GateProofs.RejectGateMeans | tasks/process_withdrawal_requests.go:838-871 | passing the reject gate, even with a stale root, means every stored attempt has provably failed |
| GateProofs.FulfillGateMeans | tasks/process_withdrawal_requests.go:873-910 | passing the fulfil gate means the row that was read is stored unchanged and is the one confirmed row, all others provably failed |
| GateProofs.CurrentIsLast | tasks/process_withdrawal_requests.go:820-836 | the row read as current is the chain's last, and a failed current row has used up its retries |
| Theorems.LostRowEndsWaiting | tasks/process_withdrawal_requests.go:707-784 | a failed or cancelled row held by the pending loop either is the record's last row and fails the record at once, or is an earlier one and the next read of the chain finds the last: the loop never spins on a lost chain |
| Chains.GatesDisjoint | models/blockchain_transaction.go:608-636 | no chain passes both gates, and the reject gate is exactly "every attempt provably failed" |
| Transactions.CasKeepsRow | models/blockchain_transaction.go:201-515 | every conditional update keeps a row well-formed and moves it forward |
| Evolution.StepLater | models/blockchain_transaction.go:201-515 | every single step relates the states before and after it in the same forward-only way |
| Evolution.StepSends | blockchain/transaction_sender.go:297-374 | a step submits nothing, or exactly one payload its row already carries as Broadcasting |
| TransactionStore.Database.RecoverLegacySending | models/blockchain_transaction.go:128-142 | the two bulk updates together recover every row, and move rows only forward |
| TransactionStore.Transaction.MarkSent | models/blockchain_transaction.go:201-227 | new table, in-memory copy and result are those of the conditional update; a lost race counts when the row is found Sent |
| TransactionStore.Transaction.ClaimForSending | models/blockchain_transaction.go:229-273 | the ancestor loop reports unsafe exactly when some earlier chain member lacks a proven on-chain failure; otherwise the claim is the conditional update |
| TransactionStore.Transaction.ReleaseSending | models/blockchain_transaction.go:275-310 | back to Pending, or to Cancelled when cancellation was requested, keeping the reason |
| TransactionStore.Transaction.PrepareBroadcast | models/blockchain_transaction.go:312-348 | persists hash, nonce and payload only on a claimed, uncancelled row without a payload |
| TransactionStore.Transaction.RequestCancellation | models/blockchain_transaction.go:350-377 | sets time and reason once, only on an unbroadcast Pending or Sending row |
| TransactionStore.Transaction.CancelRequestedUnbroadcasted | models/blockchain_transaction.go:379-406 | cancels only a Pending row with a request and without a payload |
| TransactionStore.Transaction.MarkConfirmed | models/blockchain_transaction.go:408-440 | confirms only a Sent row; a lost race counts when the row is found Confirmed |
| TransactionStore.Transaction.MarkFailedFromSent | models/blockchain_transaction.go:457-488 | fails only a Sent row with a hash |
| TransactionStore.Transaction.MarkReceiptDelayed | models/blockchain_transaction.go:490-515 | writes the delay message once and leaves the row Sent |
| TransactionStore.Transaction.CreateRetryTransaction | models/blockchain_transaction.go:517-546 | appends a fresh row for the same transfer, one retry further, under the same root |
| TransactionStore.Transaction.HandleFailed | blockchain/transaction_confirmer.go:248-274 | only the winner of the transition creates the retry, and at most one |
| TransactionStore.ListTransactionChain | models/blockchain_transaction.go:548-568 | the root followed by its retries in id order |
| TransactionStore.ClassifyTransactionChain | models/blockchain_transaction.go:614-636 | counts confirmed members, says whether all provably failed, and finds the first unsettled member |
| TransactionStore.EnsureRejectSafe | tasks/process_withdrawal_requests.go:838-871 | passes if and only if the record is unattached or its chain passes the reject gate |
| TransactionStore.EnsureFulfillSafe | tasks/process_withdrawal_requests.go:873-910 | passes if and only if the record is attached and current row and chain pass the fulfil gate |
| Accounting.Conservation | tasks/process_withdrawal_requests.go:725-754 | every balance is opening + accepted logs - sum of (amount + fee) over the records in Success or Finished, in every reachable state, when debit commits are not lost |
| Balances.RunBalances | tasks/process_withdrawal_requests.go:725-754 | in every run each balance is opening + accepted logs - (amount + fee) of each record in Success or Finished + exactly amount + fee of each that was finished after its debit was lost |
| Balances.BalancedExactly | tasks/process_withdrawal_requests.go:725-754 | a run is in balance if and only if none of its steps finished a record, worth anything, that was stored as pending |
| LostCommit.LostCommitBreaksConservation | models/withdraw.go:36-44 | with a lost debit commit, for every storable request a run reports it as paid and never debits it |
| SampleRun.PayoutCompletes | tasks/process_withdrawal_requests.go:527-816 | every request the wallet would store as pending, on a network it can pay on, is taken by some run through claim, signature, broadcast, confirmation and debit to a fulfilled, finished record whose account holds amount and fee less |
| LostCommit.ConservationExactly | models/withdraw.go:36-44 | for a service that can pay at least one request, the books balance in every run if and only if no debit commit can be lost |
| Accounting.DebitedAtMostOnce | tasks/process_withdrawal_requests.go:725-754 | no record is debited twice, even when commits can be lost |
| Accounting.DebitedExactlyOnce | tasks/process_withdrawal_requests.go:725-754 | where no commit is lost, every record in Success or Finished was debited by exactly one step of the run |
| Accounting.LostAttachPaysNothing | tasks/process_withdrawal_requests.go:693-699 | the id that a lost attach leaves in memory never becomes a row: every look-up of it fails, until now > createdAt + timeout sends the record to the timeout handler |
| LostCommit.LostAttachHappens | tasks/process_withdrawal_requests.go:693-699 | such a state is reached |
| Accounting.DebitSufficiency | tasks/process_withdrawal_requests.go:661-672 | the check after confirmation fails if and only if the balance the gate saw plus the logs since is below amount + fee, and then their sum is negative |
| Accounting.OnePayoutPerAuthorization | tasks/process_withdrawal_requests.go:130-154 | two records that both have a transaction never share a signed message, unless one was attached without clearance before the run began |
| Accounting.PendingIsCleared | tasks/process_withdrawal_requests.go:551-575 | in every reachable state a pending or attached record has a timestamp, a signature of its requester and the digest of its own message, historical ones aside |
| Accounting.ClearedNeverRefused | tasks/process_withdrawal_requests.go:130-154 | checking such a record again always succeeds and writes nothing, so no failed query or write can refuse it |
| Accounting.FingerprintsDistinct | tasks/process_withdrawal_requests.go:527-600 | stored fingerprints are pairwise distinct in every reachable state |
| Authorization.MessageText | tasks/process_withdrawal_requests.go:72-75 | the signed text as a whole, field by field |
| Authorization.DigitsDenote | tasks/process_withdrawal_requests.go:72-75 | numbers in it are written in decimal notation, which denotes them, without leading zeros |
| Authorization.MessageInjective | tasks/process_withdrawal_requests.go:72-75 | on well-formed fields, equal signed messages mean equal requests |
| Authorization.IllFormedMessagesCollide | tasks/process_withdrawal_requests.go:72-75 | with a space in an address, two different requests share a message |
| Accounting.LedgerOverRuns | tasks/sync_task_fee_logs.go:829-851 | in every reachable state deposits, grants and releases match the accepted logs |
| Accounting.GrantsOnlyGrow | tasks/sync_task_fee_logs.go:384-496 | over a run schedules never change, released amounts never shrink, completed and deprecated grants are frozen |
| Accounting.CreationsStayBound | tasks/sync_task_fee_logs.go:384-439 | in every state of every run each accepted creation carries the configured signer's signature and its grant is stored under exactly the signed schedule |
| RelayLedger.MergeMeans | tasks/sync_task_fee_logs.go:146-183 | type by type: seven types add their amount, TaskPayment subtracts it, Withdraw, WithdrawRefund and VestingCreated move nothing; the merged map holds exactly the addresses so touched with their sums, and merging fails exactly at the first unknown type or needed but unreadable amount |
| RelayLedger.BatchIsFold | tasks/sync_task_fee_logs.go:829-851 | the three-phase batch succeeds exactly when applying the logs one by one does, with the same ledger |
| RelayLedger.BatchSplit | tasks/sync_task_fee_logs.go:829-851 | applying A ++ B succeeds exactly when A and then B do, with the same balances, grants, deposits and cursor |
| RelayLedger.BatchMovesBalances | tasks/sync_task_fee_logs.go:678-740 | an accepted batch moves every balance by exactly the sum of what its logs mean type by type, creates an account for every touched address and forgets none |
| LedgerHistory.BatchMatches | tasks/sync_task_fee_logs.go:384-496 | a batch keeps 0 <= released <= total, Completed exactly at the total, credits equal to releases, and every release positive, to the grant's own address and within its schedule |
| LedgerHistory.DepositCreditedOnce | tasks/sync_task_fee_logs.go:200-202 | a deposit is accepted if and only if it has a readable amount, a network and a hash, and no earlier one has the same network and hash up to letter case; one record is stored, with its amount, event and sender, texts in lower case |
| LedgerHistory.CreationAccepted | tasks/sync_task_fee_logs.go:384-439 | a creation is accepted if and only if it is signed by the configured signer, well-formed, for its own address, with 0 <= released <= total and a zero amount, and agrees with a grant already stored; a new grant is stored exactly as stated |
| LedgerHistory.ReleaseAccepted | tasks/sync_task_fee_logs.go:441-496 | a release is accepted if and only if it is positive, at most 3600 seconds ahead, to the owner of an active grant, and the sum released is at most the total and at most the schedule, both bounds included; it adds exactly its amount |
| LedgerHistory.DeprecateMatches | migrate/migrations/m_20260826.go:17-31 | retiring active grants keeps every ledger fact, leaves no grant active and changes nothing else |
| LedgerStore.MergeTaskFeeLogs | tasks/sync_task_fee_logs.go:146-183 | the loop computes the merge, with the meaning of each type and the first error as in `MergeMeans` |
| LedgerStore.BuildDepositRecords | tasks/sync_task_fee_logs.go:742-770 | the deposit logs in order, or the error of the first malformed one |
| LedgerStore.SavingMeans | tasks/sync_task_fee_logs.go:742-796 | saving succeeds exactly when all deposits are well-formed and fresh, and appends them in order |
| LedgerStore.Store.SaveDepositRecords | tasks/sync_task_fee_logs.go:772-796 | counting affected rows after skipping conflicts detects exactly the batches with a duplicate; a malformed batch reports its first malformed deposit, any other failure is a duplicate |
| LedgerStore.Store.ApplyVestingLogs | tasks/sync_task_fee_logs.go:498-544 | the signer precheck and the loop together apply the vesting logs in order, with the same first error |
| LedgerStore.Store.ProcessTaskFeeLogs | tasks/sync_task_fee_logs.go:678-740 | writing absolute balances once per address adds exactly the merged sums |
| LedgerStore.Store.ApplyTaskFeeLogBatch | tasks/sync_task_fee_logs.go:829-851 | the whole batch or nothing: success is `ApplyBatch`, a failed batch changes nothing |
| Vesting.ScheduleShare | models/vesting.go:57-78 | after e of days UTC days, e capped at 106751, the releasable amount r satisfies r * days <= total * e < (r + 1) * days, and is the total once e reaches days |
| Vesting.ScheduleBounds | models/vesting.go:57-78 | the releasable amount is between zero and the total, and zero up to the end of the start day |
| Vesting.ScheduleMonotone | models/vesting.go:57-78 | it never decreases with time, across day boundaries |
| Vesting.ScheduleCompletes | models/vesting.go:57-78 | it equals the total exactly from the last day on, without rounding dust |
| Vesting.CompletesIffRepresentable | models/vesting.go:57-78 | a grant ever completes if and only if its length is within the saturated duration of 106751 days |
| Vesting.SplitReleasesTelescope | models/vesting.go:57-78 | releases at any ascending times are non-negative and add up to what is due |
| Vesting.SplitReleasesPayTotal | models/vesting.go:57-78 | any split into releases that reaches past the last day pays exactly the total |
| DailyLimit.CheckWithdrawalDailyLimit | tasks/process_withdrawal_requests.go:387-484 | passes if and only if every network is known and limited, and for every requester and beneficiary the requests of the batch plus the stored records since midnight UTC that are pending, successful or finished and not re-sent do not exceed the limit |
| DailyLimit.LimitsExactly | tasks/process_withdrawal_requests.go:430-484 | the counts of the check are the sizes of those sets, with days of 86400 seconds |
| DailyLimit.BroadCountsExactly | tasks/process_withdrawal_requests.go:430-456 | the one broad query counts, for every key of the batch, exactly what a query per key would |
| DailyLimit.CountRequests | tasks/process_withdrawal_requests.go:400-413 | the first loop computes the batch's counts, or rejects an unknown network |
| DailyLimit.CountRecords | tasks/process_withdrawal_requests.go:447-456 | stored records raise the counts of the batch's keys and only those |
| DailyLimitRuns.DailyLimitHolds | tasks/process_withdrawal_requests.go:586-595 | in every run in which re-sent requests keep their fields, no requester and no beneficiary has more pending, successful or finished records created in the 86400 seconds of one UTC day than the limit, even if midnight passes between check and insert |
| DailyLimitRuns.DailyLimitExactly | tasks/process_withdrawal_requests.go:430-446 | the limits hold in every run if and only if re-sent requests keep their fields |
| DailyLimitRuns.ChangedRequestBreaksLimit | tasks/process_withdrawal_requests.go:430-446 | where they need not, a run of four steps exceeds the limit, whatever it is |
| DailyLimitRuns.InsertKeeps | tasks/process_withdrawal_requests.go:586-595 | inserting a checked batch, rejected rows, conflicts and replays included, keeps all limits |
| Fees.GasLimitIsExact | blockchain/transaction_sender.go:582-591 | while 100 + percent fits in 64 bits the computation is the integer one, succeeds exactly in range, and is at least the estimate |
| Fees.CoversEstimateExactly | blockchain/transaction_sender.go:582-591 | a computed gas limit covers the estimate if and only if 100 + percent does not wrap |
| Fees.WrapUndercuts | blockchain/transaction_sender.go:582-591 | concrete percentages for which the limit falls below the estimate, or the division panics |
| Fees.SignedIsAffordable | blockchain/transaction_sender.go:399-435 | a signed payout has tip <= fee cap, respects the configured caps, and gas plus value is covered whatever gas is used and whichever block includes it |
| Fees.SignsExactlyAffordable | blockchain/transaction_sender.go:399-435 | a payout is signed as t if and only if the asset is there, t has the buffered estimate, the suggested tip and a fee cap of 2 * base fee + tip, none above its configured maximum, and gas plus value is covered for every gas used and every block that may include it |
| NonceCursor.Client.GetNonce | blockchain/client.go:178-187 | the nonce handed out is above every nonce acknowledged so far, remembered or asked from the node, and stays the same until the next acknowledgement or error |
| NonceCursor.Client.AdvanceNoncePast | blockchain/client.go:193-198 | an acknowledged nonce is never handed out again, and the cursor never moves back |
| NonceCursor.Client.ProcessSendingTxError | blockchain/client.go:215-220 | a nonce error, and only that, forgets the cursor, and no acknowledgement is lost by it: what is handed out next is still above them all |
| NonceCursor.TakeIsGetNonce | blockchain/client.go:178-187 | taking a nonce in the state machine is that method on one network: above every acknowledged row, other networks untouched |
| NonceCursor.AcknowledgeIsAdvance | blockchain/client.go:193-198 | acknowledging is AdvanceNoncePast on one network |
| NonceCursor.ForgetIsError | blockchain/client.go:215-220 | forgetting is ProcessSendingTxError on one network, and touches no row |
| NonceCursor.AcknowledgesNewest | blockchain/transaction_sender.go:360-374 | in every reachable state the nonce being acknowledged is above all acknowledged ones, as AdvanceNoncePast needs after a reset |

## Left out

- RPC, the HTTP relay client, gorm, SQL text, migrations other than the grant retirement, configuration loading, logging and alerts: only the atomic effect of each database step and arbitrary replies are modelled.
- Goroutines, channels, tickers and context deadlines: replaced by arbitrary scheduling of single steps.
- sendTransaction, confirmTransaction and processWithdrawalRecord as methods: their control flow is the state machine's, one step per database or network action, because other actors act in between; the row methods they call are methods in `TransactionStore`.
- Signature recovery, Keccak, SHA-256, ABI and hex codecs: an authorisation or vesting signature is valid or not as an input, and a payload is its hash, transfer and nonce.
- `MarkFailed` (models/blockchain_transaction.go:442-453): an unconditional update that only tests call; it would break every row invariant.
- `SendETH`, `QueueSendETH`, `QueueSendERC20` (blockchain/client.go:317-368, 429-474): no caller, and they bypass the protocol.
- Retry delays: `NextRetryAt` is built without `Valid` (models/blockchain_transaction.go:539), so it is stored as null and the check at blockchain/transaction_sender.go:194 never delays a retry, whatever interval is configured.
- Rows without an id and `ErrRecordNotFound` for them: every row of the model is stored.
- Gas columns and the times of confirmation and failure: written but never read by the protocol.
- A retry on a network that has been removed from the configuration: the configuration is fixed during a run.
- Which phase's error is reported when several phases of one batch would fail: a failed batch changes nothing, whichever it is.
- Per-log ceilings and cursor monotonicity: the code checks neither amount signs nor log order for ordinary types, so both depend on the Relay.
- Decisions.PendingStoredExactly: of the field checks on incoming requests (tasks/process_withdrawal_requests.go:301-376) it has the positive total, the known network and the beneficiary; minimum amount, balance at arrival and the on-chain beneficiary itself are left out, and any request may instead be stored as failed.
- Historical records that are past their deadline at the start, or more than one of them: `FailedLostExactly` speaks of one that is in time.
- The comparison of deposit logs with on-chain transfers (tasks/sync_task_fee_logs.go:204-311): accepted logs are taken as the Relay sends them.
- Address case folding, database collation and Unicode lower-casing: addresses are compared as given, hashes and networks are lower-cased in ASCII.
- White space around the configured vesting signer: the signer is taken as already trimmed.
- NonceCursor.Client.AdvanceNoncePast: nonces are unbounded here, because the 64-bit counter of one account does not reach its end.
- Liveness: beyond `PayoutCompletes` nothing is said about a withdrawal eventually finishing, and `Stuck` is not claimed to be the only way for one not to.
