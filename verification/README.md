# A verified model of the EVM transaction sender

The sender accepts transfer requests, turns each into a row of a `transactions` table, and drives the
row through QUEUED, PENDING, SUBMITTED, INCLUDED and one of CONFIRMED, REVERTED or FAILED. A pipeline per
(sender, chain) pair assigns nonces and broadcasts, a receipt poller per chain follows inclusion and
reorganisations, a stuck detector replaces slow attempts at a higher fee, and startup repairs the tables
after a crash. This project models those workers, the tables they share and the arithmetic they use, and
proves what holds over whole runs.

## How the model is built

- `Domain`, `Tables`, `Repo`: the records, the tables as a value (`Db`), and the repository as a class
  whose statements are proved against functions on `Db`. Every statement may fail, and a failing
  statement may still have taken effect (`Outcome`).
- `Protocol`, `Invariants`, `Safety`, `Nonces`, `Collisions`, `Witnesses`, `Claims`, `FinalHashes`,
  `StaleWrites`, `LateStatements`: the send protocol in its finest grain. Every statement and every call to the node is a
  step, workers interleave freely, and the process may die between any two steps. The theorems here hold
  in every interleaving.
- `Workers`, `Pipeline`, `Detector`, `Poller`, `Startup`: the workers as methods that call the repository and the
  node. `System` ties the tables and deliveries to a world that some history of the protocol ends in,
  and `System.Others` lets any steps of the other workers happen between two statements. The methods
  keep that tie, so the theorems of the fine model hold of the state these methods produce. Undisturbed
  and without a failed statement they are proved to make exactly the moves of a row's life.
- `Lifecycle`, `Histories`: the coarse grain, in which a worker's read, decision and write of one row are
  one move. Lifecycle theorems are stated here, because in the fine grain they are false: status
  updates carry no guard on the old status. `StaleWrites` proves exactly when a step leaves the
  documented graph, and `Witnesses` gives a whole history in which a CONFIRMED row is reopened.
- `Passes`: what the poller's paged scans amount to, one unpaged pass over the tables. `Outcomes`: what
  every move and every pass writes, in columns, attempts and audit entries.
- `Attempts`, `Fees`, `Amounts`, `Transfers`, `Intake`, `Handler`: what the attempts of a row look like,
  fee arithmetic, the decimal parser, request validation and resolution, concurrent requests with the
  pipelines' wake-up, and one request through the endpoint. `EndToEnd` goes from the request to the
  receipt of the mined transaction.

Identifiers, addresses and 32-byte words are naturals; an identifier's order is the order of the
service's ULIDs. A hash is the value it was computed from, so hashing and signing are injective.
What the clock, the signer, the fee questions and the node's mempool answer is arbitrary but fixed
outside the methods: a constant function from the number of the question, with a counter of the answers
used, so contracts name the very answers a worker got. A statement, a read or an answer of the node that
fails is on record in `faulted`; nothing fails where repository or client are `reliable`. A delivery is
accepted when the client reports no error, which is all the program itself knows.

## Model

| member | source | states |
|---|---|---|
| Safety.OneNonce | internal/pipeline/pipeline.go:108-196 | over every run with any crashes, restarts and lost replies, everything ever sent for a transaction carries one nonce, one payload and the row's own pair |
| Safety.AttemptTable | internal/infrastructure/postgres/migrations/001_init.sql:86 | in every world attempts are numbered 1..n with n at most 6, each fee bumped from the one before; a row ever submitted has an attempt, their nonce, and the hash of one of them as final hash; a QUEUED row has no nonce |
| Safety.HistoryKeepsInv | internal/pipeline/pipeline.go:108-242 | every world of every history satisfies the protocol's invariant over tables, workers' memories and deliveries |
| Safety.StepKeepsInv | internal/infrastructure/postgres/repo.go:127-285 | each of the protocol's steps, by any worker and with any outcome, keeps that invariant |
| Safety.NeverBackInTheQueue | internal/infrastructure/postgres/repo.go:233-244 | a row that was once SUBMITTED, INCLUDED, CONFIRMED or REVERTED is never QUEUED or PENDING again, across restarts |
| Safety.ReclaimedIsNotSent | internal/pipeline/pipeline.go:139-156 | a row claimed again that already has attempt 1 is let go: nothing is stored and nothing is sent |
| Safety.StoreFirstEffect | internal/infrastructure/postgres/repo.go:246-259 | attempt 1 can be stored exactly when the row has no attempt |
| Safety.StoreNextEffect | internal/pipeline/stuck.go:172-192 | a detector's view of a row it has looked at is current in every interleaving, so its replacement is storable and continues the row's chain |
| Safety.NoPanic | internal/pipeline/stuck.go:83-113 | the index of the last attempt is in range and the nonce is set; a row is given up exactly with six attempts and can be bumped exactly with fewer |
| Safety.FeesOverARun | internal/pipeline/stuck.go:112-130 | no attempt ever stored for a transaction costs more than about 6.07 times its first, and each keeps its cap above its tip |
| Safety.ReplacementsOverARun | ARCHITECTURE.md:337-341 | over every run, all stored replacements of a transaction raise both fee cap and tip by a tenth, as nodes ask, if and only if its first tip is at least 7 |
| Safety.SameAttemptsRows | internal/infrastructure/postgres/repo.go:233-244 | crash recovery keeps every row's invariant: it touches PENDING rows only, none of which was ever submitted |
| Nonces.NoCollision | internal/pipeline/manager.go:66-111 | if every count read at startup exceeds the nonces accepted for its pair, two transactions never have accepted sends of one nonce |
| Nonces.HistoryKeepsNonces | internal/infrastructure/postgres/repo.go:352-384 | accepted sends stay below the cursor, held nonces stay reserved, and every submitted row has an accepted send |
| FinalHashes.FinalHashesAreDistinct | internal/pipeline/receipt.go:98-112 | under the same hypothesis the final hashes of a chain's SUBMITTED rows are distinct in every world, which is what the paged scan needs |
| Collisions.StaleCountCollides | internal/pipeline/manager.go:81-100 | the hypothesis cannot be weakened: from any world with an accepted send, whatever waits in the queue and whatever other pairs there are, one restart that reads any count not above that send's nonce leads to a second transaction with that nonce accepted |
| Witnesses.TwoTransactionsCollide | internal/pipeline/manager.go:81-100 | a whole history from empty tables in which two transactions have accepted sends of one nonce |
| Witnesses.OneTransactionIsSubmitted | internal/pipeline/pipeline.go:108-189 | a whole history from empty tables that claims, sends and submits any given new row |
| Claims.NonceConservation | internal/infrastructure/postgres/repo.go:352-384 | while a process runs, the nonces given out for a pair are exactly the interval from its start count to its cursor, one claim each and in claim order, and no row is claimed twice |
| Claims.ClaimsFollowCreation | internal/infrastructure/postgres/repo.go:127-147 | of two rows that waited together the older is claimed first |
| Claims.GivenCounts | internal/infrastructure/postgres/repo.go:352-384 | every nonce given out belongs to a claim |
| StaleWrites.LeavesTheGraphIff | internal/infrastructure/postgres/repo.go:157-231 | in every run a step takes a status off the documented graph if and only if it is a detector's or poller's update that takes effect on a terminal row with another status, or writes FAILED or REVERTED over INCLUDED |
| StaleWrites.TerminalChangesIff | internal/infrastructure/postgres/repo.go:157-231 | a terminal status changes exactly when a detector or poller writes another status over it |
| StaleWrites.OnlyStaleWritesLeaveTheGraph | internal/infrastructure/postgres/repo.go:157-231 | and then the writer's copy of the row is out of date |
| StaleWrites.ConfirmedIsReopened | internal/pipeline/stuck.go:194-202 | from any world with a stuck row the poller can confirm between the detector's broadcast and its update, which sets the CONFIRMED row back to SUBMITTED |
| Witnesses.AConfirmedRowIsReopened | internal/pipeline/stuck.go:194-202 | a whole history from empty tables in which that happens |
| LateStatements.LateStatementBreaksOneNonce | internal/infrastructure/postgres/repo.go:157-166 | what histories leave out matters: one MarkSubmitted of a dead process executed after the row was claimed again, and the transaction is sent under two nonces |
| Workers.System.Others | internal/pipeline/manager.go:113-147 | any steps of the other workers keep the tie to the protocol and leave this worker's own stage alone |
| Workers.OthersKeepMine | internal/pipeline/manager.go:113-147 | no other worker's step changes a pipeline's stage or a detector's memory, or takes back a delivery |
| Workers.ReachableInv | internal/pipeline/pipeline.go:75-106 | whatever state the workers reach satisfies the protocol's invariant |
| Pipelines.Pipeline.RunOnce | internal/pipeline/pipeline.go:75-106 | one turn of the loop in the presence of all other workers: the oldest queued row is claimed, or the queue was empty; undisturbed and without a failed statement a waiting row is claimed and makes the moves Claim, Assign and then exactly the one that the answers of node, signer and clock determine: Refuse with the code of the first that failed, else Process at this chain's estimate for that quote, limit and priority; a pair without a cursor has its row FAILED; and the node is handed exactly the tries of attempt 1 |
| Pipelines.Pipeline.ProcessTx | internal/pipeline/pipeline.go:108-196 | every statement is a step of the protocol whoever acts in between; undisturbed the nonce is the cursor, the cursor advances by one, the row makes exactly those moves with their audit entries, a row that has attempt 1 already is let go with nothing sent, and no other row changes |
| Pipelines.Pipeline.EstimateAndSign | internal/pipeline/pipeline.go:125-140 | no attempt if and only if no limit or price can be read or the signer refuses, with the code of the first that failed; otherwise attempt 1 at this pipeline's own fees, the quote really answered and the row's priority, created at the clock really read |
| Pipelines.Pipeline.OfferIsWithinBounds | internal/infrastructure/ethereum/gas.go:66-120 | the price so offered lies within the chain's configured bounds |
| Pipelines.Pipeline.SendAndSubmit | internal/pipeline/pipeline.go:139-189 | store, broadcast, mark, log in that order; refused storage sends nothing |
| Pipelines.Pipeline.Broadcast | internal/pipeline/pipeline.go:158-174 | what is handed to the node is exactly the refused deliveries before the first of five tries that the node takes and then, if there is one, the accepted one; it succeeds if and only if one is taken |
| Pipelines.Pipeline.FailTx | internal/pipeline/pipeline.go:239-242 | the row is FAILED with the code and logged from the status it was claimed with |
| Pipelines.Pipeline.HoldsItsRow | internal/pipeline/pipeline.go:108-118 | between claim and release the pipeline has its row to itself: it stays PENDING under its pair with the same payload |
| Pipelines.CarriedRow | internal/pipeline/pipeline.go:112-189 | the pipeline's statements together are the moves Assign and Refuse or Process of the row's life, and nothing else |
| Detectors.StuckDetector.Check | internal/pipeline/stuck.go:75-105 | in the presence of all other workers its statements are protocol steps; it fails only if the read fails; exactly the rows submitted before the clock that was read minus the threshold are looked at, and undisturbed each once, with the answers of clock, signer and node that were next when its turn came, and no other row is touched |
| Detectors.StuckDetector.Examine | internal/pipeline/stuck.go:83-103 | one stuck row: given up exactly when five replacements are out, else replaced exactly when the clock really read is at least the last attempt's creation plus the interval and the signer answered yes, else left as it was |
| Detectors.StuckDetector.BumpGas | internal/pipeline/stuck.go:107-211 | replaced if and only if the clock really read is at least the last attempt's creation plus the interval and the signer answered yes; nothing is sent otherwise; same nonce, bumped fee, stored before it is sent, the new hash and time written if and only if the node took it; the nil-nonce guard never fires |
| Detectors.BumpedRow | internal/pipeline/stuck.go:172-210 | the detector's statements together are the move Bump of the row's life |
| Startup.Manager.InitNonces | internal/pipeline/manager.go:45-64 | PENDING rows are reset, every pair's cursor equals the node's pending count, all other cursors and rows are as before; it fails only if a statement or an answer failed |
| Startup.Manager.InitNonceForSender | internal/pipeline/manager.go:66-111 | the start nonce is the pending count also when the stored cursor is ahead of it |
| Startup.Manager.Start | internal/pipeline/manager.go:113-147 | every pair gets one idle pipeline, and detectors and pollers start with nothing in memory |
| Repository.Repo.ClaimNextQueued | internal/infrastructure/postgres/repo.go:127-147 | the oldest QUEUED row of the pair becomes PENDING, or there was none |
| Repository.Repo.AssignNonceAndMarkPending | internal/infrastructure/postgres/repo.go:352-384 | cursor and row change together or not at all; without a cursor nothing changes |
| Repository.Repo.CreateAttempt | internal/infrastructure/postgres/repo.go:246-259 | refused for a number the transaction already has or an unknown transaction; otherwise inserted in order |
| Repository.Repo.GetPage | internal/infrastructure/postgres/repo.go:408-460 | the page holds the first rows after the cursor with the status, by id |
| Repository.Repo.GetStuckTransactions | internal/infrastructure/postgres/repo.go:462-480 | exactly the rows submitted before the cutoff, each once, by id |
| Repository.Repo.ResetPendingToQueued | internal/infrastructure/postgres/repo.go:233-244 | PENDING rows become QUEUED without a nonce, others stay, and the count is theirs |
| Tables.InsertKeepsOrder | internal/infrastructure/postgres/repo.go:246-279 | attempts stay in the order of their numbers, without duplicates |
| Tables.InsertContents | internal/infrastructure/postgres/repo.go:246-259 | an insert adds exactly the new attempt |
| ReceiptPolling.ReceiptPoller.PollSubmitted | internal/pipeline/receipt.go:78-224 | in the presence of all other workers its statements are protocol steps; undisturbed, for every page size, order of receipts and distinct final hashes the scan ends, and unless a statement, a read or an answer failed it has handled every SUBMITTED row of the chain once: each has the outcome of its receipt in its columns, attempts and log, every other row is untouched; rows outside the pass are untouched whatever fails |
| ReceiptPolling.ReceiptPoller.PollIncluded | internal/pipeline/receipt.go:226-387 | the same for INCLUDED rows with any final hashes and the outcomes of looking again, and the transactions sent again are exactly the latest attempts of the rows that lost their receipt |
| Passes.ChunkAdvances | internal/pipeline/receipt.go:82-222 | a chunk handled on top of a handled prefix is a longer handled prefix, although handled rows have left the status |
| Passes.PageIsNextRows | internal/infrastructure/postgres/repo.go:408-460 | a page read in mid-scan holds exactly the unhandled rows of the original pass up to its last id |
| Passes.ShortPageCovers | internal/pipeline/receipt.go:210-222 | a page that is not full is the last one |
| Passes.PassIsOneMoveEach | internal/pipeline/receipt.go:226-386 | a pass moves each of its rows by at most one Poll or Recheck of the row's life and keeps rows sound |
| Passes.SubmittedPassTwice | internal/pipeline/receipt.go:78-224 | with fixed answers of the node a second pass over SUBMITTED rows changes nothing |
| ReceiptPolling.ReceiptPoller.VerifyErc20Transfer | internal/pipeline/receipt.go:424-451 | for a token transfer, true exactly when some log is a Transfer event of the contract from sender to recipient |
| ReceiptPolling.ReceiptPoller.RecordReceipt | internal/pipeline/receipt.go:126-222 | a Mark, its audit entry and for CONFIRMED the attempts, each a protocol step; a failed Mark stops there |
| ReceiptPolling.ReceiptPoller.HandleGone | internal/pipeline/receipt.go:279-302 | a row that lost its receipt is SUBMITTED without receipt columns, everything else of it as before, with one entry from INCLUDED to SUBMITTED, and its latest attempt is sent again, each a protocol step |
| ReceiptPolling.ReceiptPoller.MarkAttemptConfirmed | internal/pipeline/receipt.go:453-465 | the attempt with the mined hash is CONFIRMED, the others still in BROADCAST are REPLACED, nothing else changes |
| ReceiptPolling.ReceiptPoller.RebroadcastAfterReorg | internal/pipeline/receipt.go:389-419 | in the presence of all other workers exactly one call to the node at most, with the attempt that was latest when it looked |
| Lifecycle.StatusFollowsTheGraph | ARCHITECTURE.md:1187-1197 | every status change in any life is an edge of rules 1, 2 and 4 to 7 there or of the INCLUDED edges drawn in README.md:170-173, or the restart's PENDING to QUEUED; terminal rows do not change |
| Lifecycle.TerminalIsForever | internal/domain/transaction.go:20-22 | once terminal, a row, its attempts and its log never change again |
| Lifecycle.BlockFieldsExactlyWithReceipt | internal/infrastructure/postgres/repo.go:168-221 | block number and hash, gas used and receipt status are set in exactly INCLUDED, CONFIRMED and REVERTED, the error code in exactly FAILED, and the time of submission from the first submission on |
| Lifecycle.LifeIsSound | internal/pipeline/receipt.go:78-386 | every state of every life satisfies the row invariant, including the attempts' own statuses |
| Lifecycle.DetectorHasAnAttempt | internal/pipeline/stuck.go:83-113 | a SUBMITTED row has its nonce on one to six attempts numbered in order |
| Outcomes.PollOutcome | internal/pipeline/receipt.go:126-207 | in every life a SUBMITTED row whose receipt is found is REVERTED if and only if the status is not 1 or the Transfer log is missing, otherwise INCLUDED if and only if a depth is asked for and CONFIRMED if not; it shows the receipt's block, gas and status, one entry is logged, attempts are settled exactly on CONFIRMED, all else stays |
| Outcomes.RecheckOutcome | internal/pipeline/receipt.go:255-386 | in every life an INCLUDED row that is deep enough is SUBMITTED without receipt columns if and only if its receipt is gone, CONFIRMED if and only if the receipt is of the recorded block, INCLUDED in the new block otherwise, with one entry each; one not deep enough is untouched |
| Outcomes.OutcomesAreOne | internal/pipeline/receipt.go:78-386 | these outcomes say everything: each leaves one state only |
| Outcomes.PassPolls | internal/pipeline/receipt.go:82-222 | a pass over the SUBMITTED rows gives every row with a receipt that outcome and leaves every other row alone |
| Outcomes.PassRechecks | internal/pipeline/receipt.go:240-386 | a pass over the INCLUDED rows gives every row its outcome and leaves every other row alone |
| Outcomes.ProcessOutcome | internal/pipeline/pipeline.go:139-189 | in every life a row gets attempt 1 with its own nonce and payload, then is SUBMITTED with that hash and time if and only if the node took it, else FAILED with BROADCAST_FAILED; a row that has an attempt is let go |
| Outcomes.BumpOutcome | internal/pipeline/stuck.go:112-210 | in every life a bump adds the next attempt at the bumped price with the same nonce and payload; hash and time of submission change if and only if the node took it |
| Outcomes.FailureOutcome | internal/pipeline/stuck.go:90-101 | in every life a refused row, or one given up with six attempts out, is FAILED with its code and one entry, attempts and hash as before |
| Lifecycle.ConfirmedOnce | internal/pipeline/receipt.go:453-465 | if attempt hashes are distinct, exactly one attempt of a CONFIRMED row is confirmed, it has the row's final hash, and all others are replaced |
| Lifecycle.ConfirmedOnceByFee | internal/pipeline/receipt.go:453-465 | the same for a row that was never replaced or whose first fee is at least 7 |
| Histories.ConfirmationDepth | internal/pipeline/receipt.go:226-386 | with k > 0 a row is confirmed only by a receipt from the block of its latest inclusion and, if the head read is not behind that block, k blocks or more above it; re-inclusion restarts the count |
| Histories.DeepEnoughIff | internal/pipeline/receipt.go:259-262 | the unsigned test passes if and only if k blocks are on top or the head is behind the block by at most 2^64 - k |
| Histories.HeadBehindBlockWraps | internal/pipeline/receipt.go:259-262 | with a head one block behind, the subtraction wraps and any depth passes |
| Histories.IncludedRemembers | internal/pipeline/receipt.go:340-374 | an INCLUDED row carries the block number, block hash and transaction hash of its latest inclusion |
| Histories.ConfirmedSucceededIff | internal/pipeline/receipt.go:126-191 | a CONFIRMED row's transfer succeeded if and only if its last inclusion was checked or was a re-inclusion that had succeeded too; without a depth it always did |
| Histories.ReinclusionIsNotChecked | internal/pipeline/receipt.go:340-374 | a run that ends CONFIRMED with receipt status 0 |
| Histories.AuditIsAPathIff | internal/pipeline/pipeline.go:112-189 | a transaction's audit log is a path from QUEUED to its status if and only if no restart found it PENDING |
| Attempts.DistinctIff | internal/pipeline/stuck.go:129-157 | a transaction's attempts have different hashes if and only if its first fee is at least 7 |
| Attempts.StoredFees | internal/infrastructure/ethereum/gas.go:129-155 | every stored attempt is acceptable and costs between the first fee and the product of the five bumps |
| Attempts.ReplacementExtends | internal/pipeline/stuck.go:112-188 | a replacement is the next number with the same nonce and payload and the bumped fee |
| Attempts.StoredReplacementsIff | ARCHITECTURE.md:337-341 | all stored replacements raise both fee cap and tip by a tenth if and only if the first tip is at least 7 |
| Attempts.StoredUnderCeilingIff | internal/infrastructure/ethereum/gas.go:129-155 | all stored attempts stay under a ceiling if and only if the last but one leaves room for the last bump's percentage |
| Attempts.ReplacementPassesTheCeiling | internal/infrastructure/ethereum/gas.go:129-155 | a row whose first attempt sits at a ceiling of 7 or more has its first replacement above it |
| Fees.EstimateIsValid | internal/infrastructure/ethereum/gas.go:30-127 | an estimate's fee cap covers its tip, as section Specification of EIP-1559 requires; it fails exactly when neither pricing can be read |
| Fees.BumpIsValid | internal/infrastructure/ethereum/gas.go:129-155 | every bump keeps the fee cap above the tip |
| Fees.CeilingHoldsIffItCoversTheTip | internal/infrastructure/ethereum/gas.go:88-98 | the configured ceiling binds an estimate exactly when it covers the clamped tip |
| Fees.EstimateIsWithinBounds | internal/infrastructure/ethereum/gas.go:86-127 | the tip is the value within the configured bounds nearest to the tier's, the cap is the larger of the tip and the value within bounds nearest to the tier's cap, a legacy price the one nearest to the node's, and legacy is used exactly where the fee market cannot be |
| Fees.PriceOfEachTier | internal/infrastructure/ethereum/gas.go:20-84 | without bounds the tiers tip 0.8, 1, 1.5 and 2.5 times the suggested tip and leave room for 1.5, 2, 2.5 and 3 base fees, rounded down |
| Fees.EstimateIsMonotone | internal/infrastructure/ethereum/gas.go:66-98 | a higher base fee, a higher tip, suggested or defaulted, or a higher tier never lowers either fee |
| Fees.FeeHeadroom | internal/infrastructure/ethereum/gas.go:20-28 | unclamped, the cap still pays the whole tip after 3, 5, 7 and 9 full blocks for the four tiers |
| Fees.HeadroomIsTight | internal/infrastructure/ethereum/gas.go:20-28 | one more full block exceeds it for some base fee |
| Fees.GrowthBound | internal/infrastructure/ethereum/gas.go:20-28 | n full blocks with floors multiply the base fee by at most (9/8)^n |
| Fees.CompoundedFee | internal/pipeline/stuck.go:112-130 | after n bumps the fee lies between (f - n) and f times the product of the rates: floors cost at most one unit a bump |
| Fees.FiveBumpsBound | internal/pipeline/stuck.go:112-130 | f6 * 10^10 <= f1 * 115 * 130 * 145 * 160 * 175 |
| Fees.StrictlyDearer | internal/infrastructure/ethereum/gas.go:129-155 | from a fee cap or gas price of 7 on, that field of each replacement is strictly larger and at least the floor of 110 percent |
| Fees.BumpReplacesIff | ARCHITECTURE.md:337-341 | a bump raises both fee cap and tip by a tenth if and only if the tip times the bump's percentage is at least 100 |
| Fees.AllBumpsReplaceIff | ARCHITECTURE.md:337-341 | every bump of a row's life does so if and only if the first tip is at least 7 |
| Fees.SmallTipIsNotRaised | internal/infrastructure/ethereum/gas.go:147-155 | a cap of 1000 with a tip of 1 is bumped to 1150 with the same tip |
| Fees.MinimumTipSuffices | internal/infrastructure/ethereum/gas.go:88-98 | a configured minimum tip of 7 makes every estimate one whose bumps raise both fields |
| Fees.BumpStaysUnderIff | internal/infrastructure/ethereum/gas.go:129-155 | a bump stays under a cap if and only if fee times (100 + percentage) is below 100 times (cap + 1) |
| Fees.ClampedEstimatePassesTheCeiling | internal/infrastructure/ethereum/gas.go:88-98 | an estimate clamped to the configured ceiling is bumped past it |
| Fees.FirstBumpChangesIff | internal/infrastructure/ethereum/gas.go:147-155 | the first bump changes anything if and only if the fee is at least 7 |
| Amounts.ParsesDecimals | internal/domain/transfer.go:16-62 | on decimal numerals the parser succeeds if and only if the fraction fits, with exactly value * 10^decimals |
| Amounts.AcceptsExactly | internal/domain/transfer.go:16-62 | exactly which strings are accepted, signs inside included |
| Amounts.AcceptedIsDecimalIffUnsigned | internal/domain/transfer.go:56-59 | an accepted string is a decimal numeral if and only if it holds no sign |
| Amounts.HiddenMinus | internal/domain/transfer.go:24-27 | "0.-5" passes the check for a leading minus and is read as -5 |
| Amounts.RoundTrip | internal/domain/transfer.go:13-62 | printing any quantity with any decimals and parsing it gives the quantity back |
| Amounts.TrimSpaceIff | internal/domain/transfer.go:21-22 | trimming takes away the spaces at both ends of the text and nothing else |
| Transfers.ResolvesIffPermitted | internal/api/transfer.go:217-285 | a request resolves if and only if it names a movable asset and a permitted amount, and then the transaction moves exactly that amount of that asset to the recipient, and the record holds the token contract, or none for the native coin, and the decimals of the asset moved |
| Transfers.ValidIff | internal/api/transfer.go:287-335 | a request is valid if and only if it has a key of at most 256 characters, a configured chain, a sender the service signs for, a recipient other than the zero address, a token, an amount and a known priority or none, and does not repeat the sender's address in the same style |
| Transfers.PriorityRoundTrip | internal/domain/transaction.go:42-55 | parsing a priority and spelling it undo each other |
| Transfers.MovesTheDecimalAmountIff | internal/api/transfer.go:217-285 | an unsigned amount moves n units if and only if it is a decimal numeral with no more decimals than the asset, worth exactly n smallest units, and n is positive, a uint256 and within the limit |
| Transfers.WrittenAmountIsMoved | internal/api/transfer.go:217-285 | a quantity written out as a decimal amount is the quantity moved |
| Transfers.SelfTransferIsRecognisedIff | internal/api/transfer.go:320-322 | the rule that sender and recipient differ recognises the sender's own address if and only if both are spelled with 0x or both without |
| Transfers.HexIsInjective | internal/api/transfer.go:337-343 | addresses compared up to letter case are compared as addresses |
| Transfers.MatchesCreatedIff | internal/api/transfer.go:337-343 | a later request matches a created row if and only if chain, sender, recipient, token up to case and the literal amount agree; a request matches the row it created |
| Intake.OneTransactionPerKey | internal/api/transfer.go:116-181 | in every interleaving of requests: accepted requests of one key name one transaction and ask for the same transfer; one refused with 409 asks for another |
| Intake.KeysAreUnique | internal/infrastructure/postgres/migrations/001_init.sql:11 | at most one row per key in every state |
| Intake.StepKeepsInv | internal/api/transfer.go:104-209 | every step of handlers, loops, other workers, crash and restart keeps replies, handlers and the wake-up condition sound |
| Intake.NoLostWakeUp | internal/pipeline/pipeline.go:68-102 | while a pipeline waits with an empty channel, every QUEUED row of its pair belongs to a handler that is about to notify, or to an insert that took effect but reported an error |
| Intake.LostReplyWaitsForTheTimer | internal/api/transfer.go:176-193 | the exception is real: such a row is left to the two-second timer |
| Endpoint.TransferHandler.Create | internal/api/transfer.go:104-209 | an accepted request stands in the table under its key whatever fails, existing rows are untouched, and without a failure answer, tables and notification are those of the endpoint's specification, a taken id included |
| Endpoint.AskingAgain | internal/api/transfer.go:116-132 | repeating an accepted request gives the same answer, changes nothing and wakes nobody |
| Endpoint.CreatedStartsALife | internal/api/transfer.go:134-191 | a new row starts a life with its creation entry, records key, sender, chain, recipient, token, amount and priority as asked, moves what was asked for, and names the contract and decimals of the asset it moves; its sender is one the service signs for |
| EndToEnd.RequestIsCarriedOut | internal/api/transfer.go:134-191 | an accepted request whose row is CONFIRMED later: the mined transaction was signed for the request's sender and chain and moves the permitted quantity of the asset to the recipient, and if the last inclusion was checked the chain executed it, for a token with a Transfer log of its contract from sender to recipient |
| EndToEnd.ConfirmedMeansMoved | internal/pipeline/receipt.go:126-191 | in every life of a row whose record describes its transaction: the chain executed a CONFIRMED transfer if and only if its last inclusion was checked or was a re-inclusion whose receipt had it executed; without a depth it always did |
| EndToEnd.AttemptsMoveTheSame | internal/pipeline/pipeline.go:198-237 | every attempt of a row, replacements included, moves what the row was created for |

## Where code and documentation disagree

The model follows the code in each case.

- internal/pipeline/manager.go:81 announces the maximum of the stored and the pending nonce; the code
  always takes the pending count.
- README.md:251 says that a changed block hash sends a row back to SUBMITTED; the code re-includes it
  in place and does not look at the new receipt's status.
- ARCHITECTURE.md:1183 calls CONFIRMED terminal and ARCHITECTURE.md:1197 lets a reorganisation take it
  back to SUBMITTED; the code does that for INCLUDED rows only, and takes a CONFIRMED row back when a
  stale detector writes over it.
- ARCHITECTURE.md:1199 says that all transitions are logged; the restart's PENDING to QUEUED is not.
- ARCHITECTURE.md:1191 lets a pipeline release a PENDING row; the code does that only at startup.
- ARCHITECTURE.md:1259-1261 says that a PENDING row was never broadcast; it may have been, and it is the
  unique attempt number that keeps it from being sent under a second nonce.
- ARCHITECTURE.md:339 promises at least 10 percent more tip; a tip below 7 is not raised at all.
- internal/api/transfer.go:88-91 speaks of identical parameters; priority and metadata are not compared.
- internal/domain/config.go:20 names a maximum fee; it bounds neither an estimate whose tip is above it
  nor a replacement.

## Left out

- Safety.OneNonce: does not model statements of a dead process that the database executes after the next one has started; LateStatements shows that one such statement breaks it.
- Safety.AttemptTable: does not model such statements either, nor a 64-bit nonce or the BIGINT column; nonces are unbounded naturals.
- Nonces.NoCollision: does not model such statements, or two processes at once.
- Claims.NonceConservation: does not model several pipelines for one pair, which is why SKIP LOCKED has nothing to skip.
- ReceiptPolling.ReceiptPoller.PollSubmitted: beside other workers the scan need not end, since rows may arrive above its cursor for ever; there it is stopped after any number of pages. The same holds for PollIncluded.
- ReceiptPolling.ReceiptPoller.RebroadcastAfterReorg: does not model stored raw bytes that are empty or undecodable.
- Pipelines.Pipeline.Broadcast: does not model the pauses between tries.
- Amounts.ParsesDecimals: counts characters where the source counts bytes in the fraction; they differ only for strings that are rejected anyway.
- Transfers.MatchesCreatedIff: folds the case of ASCII letters only.
- Intake.NoLostWakeUp: does not model a request cancelled by its client other than as a failed statement.
- The RPC pool, health checks and endpoint recovery: network code; sends, receipts, heads and counts are arbitrary answers.
- Signing, hashing, RLP and ABI encoding: external libraries, taken as injective.
- A receipt that fails to load on its own counts as missing, as in the batch call.
- Scaling of the gas limit through floating point: an arbitrary natural.
- Free-text reasons, metadata, claimed_by, claimed_at, updated_at, confirmed_at and effective gas price: written and never decided on.
- Liveness, such as every transaction being tracked to the end: the code does not give it, since only the latest hash is polled.
- Health, listing and configuration endpoints, migrations and logging: no property beyond single reads.
