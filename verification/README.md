# Verified model of the money core

This project models, in Dafny, the part of the service that decides where money is: the
double-entry ledger with holds, the capital protocol that drives it against the MAM
engine, the reconciliation of performance fees, the two ways the master account is
funded (one-time code and on-chain proof), and the derived views and mirrors around them
(running balances, cursor pagination, webhook events, the JSON printer).

`dafny verify dfyconfig.toml` checks everything.

## How it is built

- **Ledger** (`Ledger`, `LedgerInvariants`, `LedgerTheorems`, `LedgerAnswers`,
  `LedgerServices`). A book is the accounts, the journal and the entries; each operation is
  a function from a book to a book and an outcome. `LedgerService` is the class that
  updates the three in place, each method proved to compute its function. Amounts are
  integers in the unit of the money columns (10^-8); a journal row's id is its position.
- **Capital** (`Capital`, `CapitalInvariants`, `CapitalEffects`, `CapitalOutcomes`,
  `CapitalServices`). One function per database transaction of `deposit`, `withdraw` and
  `fund_master_account`; a unique index is a guard of the commit it would refuse.
  `MamCapitalService` is the class.
- **The protocol** (`CapitalProtocol`, `CapitalRuns`, `CapitalEngine`, `CapitalTheorems`,
  `CapitalCollisions`, `CapitalCompletes`, `CapitalFamilies`, `CapitalAsked`,
  `CapitalSwept`). A state machine whose steps are the commits, the messages and the moves
  of an engine that executes or refuses whenever it wants and whose answer may be lost.
  Requests interleave freely and can die between any two steps. The rejections the service
  treats as final are taken to mean that the operation was not executed.
- **Regularization** (`Regularization`, `RegularizationAnswers`): which rows of the
  engine's history are booked, when the apply goes through, and what the simulation says
  about it.
- **Performance fees** (`PerfFees`, `PerfFeeTheorems`, `PerfFeeListed`,
  `PerfFeeConfluence`, `PerfFeeTorn`, `PerfFeeHistory`, `PerfFeeServices`).
- **One-time codes** (`FundingOtps`, `FundingOtpTheorems`, `FundingOtpSequential`,
  `FundingOtpCredits`, `FundingOtpSerial`, `FundingOtpAsked`, `FundingOtpServices`), on top
  of the capital protocol, so that the rest of the service runs beside the verification.
- **On-chain deposits** (`EvmLogs`, `TokenAmounts`, `CryptoDeposits`,
  `CryptoDepositTheorems`, `CryptoDepositAnswers`, `CryptoDepositServices`).
- **Views and mirrors** (`RunningBalances`, `Paging`, `JsonDump`, `JsonDumpTheorems`,
  `JsonReader`, `Webhooks`, `WebhookTheorems`, `WebhookEffects`, `WebhookOverlap`,
  `WebhookServices`).

`LedgerAnswers`, `CapitalOutcomes`, `CapitalAsked`, `CapitalSwept`,
`RegularizationAnswers`, `PerfFeeListed`, `FundingOtpAsked`, `CryptoDepositAnswers`,
`WebhookEffects` and `JsonReader` tie each operation to what it was given: they say what is
answered, moved and recorded in terms of the request, the lines of the feed, the engine's
rows or the fields on the wire, not of the steps in between.

`Sound` is the ledger's invariant: keys are unique, every posted row has exactly its debit
and its credit and no other row has entries, every cached balance is the recomputed one,
`pending_debit` is the sum of the waiting deposits, and the master account can pay it.

## What turned out not to hold as stated

- A posting over a journal row that waits or failed (`existing or _new_tx`) breaks the
  books unless the row is the same deposit, failed: `LedgerTheorems.DirectPostSoundIff`.
  The callers' key families keep it from happening.
- Releasing a hold while the master account is inactive leaves the hold counted:
  `LedgerTheorems.ReleaseSoundIff`.
- The client strips the idempotency key, the database does not. Two keys that differ only
  in surrounding spaces are one operation for the engine and two for the books
  (`CapitalCollisions.CollidingKeysPostTwice`), so the theorems about the engine's history
  ask for keys that strip to distinct texts; `CapitalCollisions.BookedOnceIffApart` says
  that this is exactly what they need.
- Reconciliation depends on the order of a feed that lists a payment still to be posted
  once without a status and once with one that takes it back:
  `PerfFeeTorn.ConfluentIffNoneTorn`, `OrderDecides`.
- The simulation of a regularization counts a repeated, unposted row again:
  `Regularization.DryRunPredictsApply` gives the exact condition, `RepeatedRowMisleads` an
  input.
- VERIFIED is final for requests one at a time, not for interleaved ones, and wrong guesses
  are counted exactly only when they do not overlap: `FundingOtpSequential.VerifiedStaysIff`,
  `VerifiedThenCancelled`, `GuessCountsIff`, `GuessIsLost`. That the requests on one OTP do
  not overlap is enough (`FundingOtpSerial`). The single credit holds either way.
- A movement made by another caller under `fund-otp-<id>` is taken for the funding:
  `FundingOtpTheorems.VerifyPaysIff`, `FundingOtpCredits.VerifiedNotPaid`.
- A retry between the two commits of a delivery applies its event twice:
  `WebhookOverlap.AppliedOnceIffNotOvertaken`, `RetryInBetween`.
- A pending event with a status the allocations table refuses undoes every retry of its
  batch: `WebhookTheorems.RetryCatchesUpIff`, `WebhookOverlap.OneBadEventStopsTheRest`.
- The on-chain amount loses digits beyond the 28 of the decimal context:
  `TokenAmounts.ToDecimalExactIff`, `TokenAmounts.TooManyDigits`; with the cut to ledger
  units, `TokenAmounts.CreditIsExactIff` and `CryptoDepositTheorems.CreditIsWhatWasPaid`.

## Model

| member | source | states |
|---|---|---|
| LedgerServices.LedgerService.EnsureGlobalAccounts | app/repositories/ledger_repository.py:35-46 | the three global accounts exist afterwards and nothing else changes |
| LedgerServices.LedgerService.RecomputeBalance | app/repositories/ledger_repository.py:80-90 | the loop over the entries gives debits minus credits of the account |
| LedgerServices.LedgerService.MasterAccountAvailable | app/services/ledger_service.py:67-74 | balance, holds and difference, or zeros without a usable account |
| LedgerServices.LedgerService.ApplyEntry | app/services/ledger_service.py:44-50 | the new book: one entry more and the cached balance moved by it |
| LedgerServices.LedgerService.FundMasterAccount | app/services/ledger_service.py:76-89 | whole new book and outcome of a funding, errors included |
| LedgerServices.LedgerService.CreateDepositHold | app/services/ledger_service.py:91-108 | whole new book and outcome; with an active master account and a new key it is granted iff what is free covers it |
| LedgerServices.LedgerService.CommitDeposit | app/services/ledger_service.py:110-127 | whole new book and outcome of a commit: idempotent when posted, refused when failed |
| LedgerServices.LedgerService.ReleaseDeposit | app/services/ledger_service.py:129-140 | whole new book of a release, which does nothing unless the row waits |
| LedgerServices.LedgerService.PostPerfFee | app/services/ledger_service.py:142-182 | whole new book and outcome of a fee posting |
| LedgerServices.LedgerService.PostCapitalRegularization | app/services/ledger_service.py:184-243 | whole new book and outcome; with active accounts and a new key, money in is booked iff it is free and money out always |
| LedgerServices.LedgerService.PostWithdrawal | app/services/ledger_service.py:245-271 | whole new book and outcome of a withdrawal posting |
| LedgerInvariants.FundingKeepsSound | app/services/ledger_service.py:76-89 | a funding keeps the ledger invariant |
| LedgerInvariants.HoldKeepsSound | app/services/ledger_service.py:91-108 | a hold keeps the ledger invariant: exact holds and solvency among it |
| LedgerInvariants.CommitKeepsSound | app/services/ledger_service.py:110-127 | a commit keeps the ledger invariant |
| LedgerInvariants.ReleaseKeepsSound | app/services/ledger_service.py:129-140 | a release keeps the ledger invariant while the master account is active |
| LedgerInvariants.DirectPostKeepsSound | app/services/ledger_service.py:142-271 | fee, withdrawal and regularization postings keep it when no row waits or failed under their key |
| LedgerTheorems.DirectPostSoundIff | app/services/ledger_service.py:156-181 | a direct posting keeps it if and only if the key is clear or names the same row, failed |
| LedgerTheorems.ReleaseSoundIff | app/services/ledger_service.py:129-140 | releasing keeps the holds exact if and only if the master account is usable |
| LedgerTheorems.JournalDeterminesBalance | app/repositories/ledger_repository.py:80-90 | the recomputed balance of any account is what the posted rows say |
| LedgerTheorems.ClosedForms | app/services/ledger_service.py:76-271 | cached balance = recomputed balance = closed form by kind of operation, account by account |
| LedgerTheorems.OneDebitOneCredit | app/services/ledger_service.py:44-60 | a posted row has one debit and one credit of its amount on the right accounts; any other has none |
| LedgerTheorems.BalancesSumToZero | app/services/ledger_service.py:44-50 | the cached balances of all accounts sum to zero |
| LedgerAnswers.FundingAnswers | app/services/ledger_service.py:76-89 | when a funding goes through, and which error it answers otherwise |
| LedgerAnswers.HoldAnswers | app/services/ledger_service.py:91-108 | a hold is granted iff it does not exceed the balance less the waiting deposits and its key is new; which error otherwise |
| LedgerAnswers.RegularizationAnswers | app/services/ledger_service.py:184-243 | money in is booked iff the master account has it free, money out whatever is free; which error otherwise |
| LedgerAnswers.UnguardedAnswers | app/services/ledger_service.py:142-271 | a fee and a withdrawal under a new key are booked iff their accounts are in use |
| LedgerAnswers.FundingMovesIn | app/services/ledger_service.py:76-89 | a funding moves its amount from outside to the master account, and all of it is free |
| LedgerAnswers.CommitPays | app/services/ledger_service.py:110-127 | a commit moves the amount of its row from the master account to the trader and nothing else |
| Capital.Normalize | app/services/mam_capital_service.py:80-88 | whole cents, truncated, never more than asked; refused below one cent |
| CapitalServices.MamCapitalService.Reserve | app/services/mam_capital_service.py:134-171 | first commit of a deposit, or the unchanged database and the error |
| CapitalServices.MamCapitalService.Settle | app/services/mam_capital_service.py:193-205 | last commit of an accepted deposit; a failed posting rolls back |
| CapitalServices.MamCapitalService.Release | app/services/mam_capital_service.py:207-214 | last commit of a refused deposit |
| CapitalServices.MamCapitalService.LeaveAmbiguous | app/services/mam_capital_service.py:182-191 | last commit of an operation of unknown fate |
| CapitalServices.MamCapitalService.DepositCapital | app/services/mam_capital_service.py:125-205 | nothing written when it cannot begin; otherwise a movement for the whole cents asked, those cents from the master account to the trader, back in it, or held, by the answer; and the reply to the caller |
| CapitalServices.MamCapitalService.Open | app/services/mam_capital_service.py:234-251 | first commit of a withdrawal, or the unchanged database |
| CapitalServices.MamCapitalService.BookReturn | app/services/mam_capital_service.py:277-318 | last commit of an accepted withdrawal: replayed, empty, posted with its fee, or rolled back |
| CapitalServices.MamCapitalService.WithdrawCapital | app/services/mam_capital_service.py:220-322 | nothing written when it cannot begin; otherwise a movement for the whole cents asked, what came back to the master account and the fee beside it, or nothing, by the answer; and the reply |
| CapitalServices.MamCapitalService.FundMaster | app/services/trader_service.py:137-166 | accepted iff worth a cent; a new key brings the whole cents asked from outside; a used one returns its movement and changes nothing |
| CapitalServices.MamCapitalService.SelectItems | app/services/mam_capital_service.py:378-401 | the selection loop gives the rows the sweep takes, in order |
| CapitalServices.MamCapitalService.SweepItems | app/services/mam_capital_service.py:403-423 | the posting loop: book, counters, net and first failure |
| CapitalServices.MamCapitalService.Regularize | app/services/mam_capital_service.py:365-433 | refused with local movements; an apply commits and reports the net of the rows not booked yet iff each is free when reached, and otherwise changes nothing |
| CapitalServices.ServedIsARun | app/services/mam_capital_service.py:128-205 | a request of the service is a run of the protocol's steps |
| CapitalServices.DepositServed | app/services/mam_capital_service.py:125-214 | a deposit served by the protocol's commits has the outcome above, whatever the engine answers |
| CapitalServices.WithdrawalServed | app/services/mam_capital_service.py:220-322 | the same of a withdrawal |
| CapitalServices.RegularizeIsAStep | app/services/mam_capital_service.py:365-424 | a sweep of the service over the account's rows is a step of the protocol |
| CapitalOutcomes.ReserveAnswers | app/services/mam_capital_service.py:134-171 | a deposit reserves iff its key is new, nothing is in flight on the account and the amount is free; which error otherwise |
| CapitalOutcomes.FundingServes | app/services/trader_service.py:137-166 | a funding is refused iff it is worth less than a cent, and moves the whole cents asked |
| CapitalEffects.ReserveHolds | app/services/mam_capital_service.py:151-171 | reserving moves no money and takes exactly the amount out of what is available |
| CapitalEffects.AbortUndoesReserve | app/services/mam_capital_service.py:176-181 | a refusal restores every balance and everything available |
| CapitalEffects.SettlePays | app/services/mam_capital_service.py:193-205 | settling moves the amount to the trader and leaves what is available as it was |
| CapitalEffects.WithdrawalMoves | app/services/mam_capital_service.py:277-313 | the master account gets what came back, the fee goes beside it, a replay moves nothing |
| CapitalInvariants.ReserveKeeps | app/services/mam_capital_service.py:134-171 | the first commit of a deposit keeps movements and ledger in agreement |
| CapitalInvariants.BookKeeps | app/services/mam_capital_service.py:277-318 | the last commit of a withdrawal keeps them in agreement |
| CapitalFamilies.StepKeepsFamily | app/services/crypto_deposit_service.py:308-313 | no step writes journal rows of another caller's key family |
| CapitalRuns.EveryRunLocal | app/services/mam_capital_service.py:128-322 | the invariant of the protocol holds after every run |
| CapitalEngine.EveryRunEngine | app/services/mam_capital_service.py:128-433 | the invariant that ties the books to the engine holds after every run over keys the engine tells apart |
| CapitalTheorems.SolventAlways | app/services/ledger_service.py:76-271 | in every run the hold is the sum of waiting deposits, payable, and all balances sum to zero |
| CapitalTheorems.DepositsAgree | app/services/mam_capital_service.py:140-214 | in every run a deposit is COMPLETED iff posted, FAILED iff failed, PENDING or AMBIGUOUS iff held |
| CapitalTheorems.WithdrawalsAgree | app/services/mam_capital_service.py:239-318 | in every run a withdrawal is posted, and its fee with it, iff completed and not a replay |
| CapitalTheorems.CalledAtMostOnce | app/services/mam_capital_service.py:171-175 | in every run a key reaches the engine at most once, after its movement is committed |
| CapitalTheorems.AloneOnItsAccount | app/models/movement.py:114-115 | in every run one request per account is between its first and last commit |
| CapitalTheorems.ExecutedDepositIsBacked | app/services/mam_capital_service.py:128-214 | an executed deposit was sent for one movement and has exactly one row of its key and amount, posted or held |
| CapitalTheorems.SettledDepositIsDecided | app/services/mam_capital_service.py:176-205 | a released hold was refused by the engine or never sent; a posted one was executed for that amount |
| CapitalTheorems.BookedAtMostOnce | app/services/mam_capital_service.py:328-433 | no cash transaction of the engine is booked twice, and no row books two |
| CapitalCompletes.AnsweredRequestsEnd | app/services/mam_capital_service.py:193-205 | in every run an answered request ends as answered: the failure to book what was executed never happens |
| CapitalAsked.MovementsWereAsked | app/services/mam_capital_service.py:125-251 | in every run a movement is what some caller asked for: key, direction, account, trader, and the whole cents of his amount |
| CapitalAsked.CallsWereAsked | app/services/mam_capital_service.py:173-256 | in every run what the engine is sent is what some caller asked for, to the cent |
| CapitalAsked.EngineRowsAreCalls | app/services/mam_client.py:223-261 | every operation executed for us shows in the engine's history, and each row that answers us is one, with the sign of the money |
| CapitalSwept.SweptIsShown | app/services/mam_capital_service.py:378-423 | in every run a row a sweep booked is that of an executed row of the engine: its sign and the whole cents of its size |
| Common.StripTrims | app/services/mam_client.py:918-930 | the key that travels is the key without the spaces around it |
| CapitalCollisions.CollidingKeysPostTwice | app/services/mam_client.py:918-930 | for any two keys that strip to the same text, a run from the start posts two deposits for one execution |
| CapitalCollisions.BookedOnceIffApart | app/services/mam_client.py:918-930 | over a family of keys nothing is booked twice iff no two of them strip to the same text |
| Regularization.PickCutsToCents | app/services/mam_capital_service.py:380-401 | a row is booked with its sign, cut to cents toward zero, internal ones only on request |
| RegularizationAnswers.PickTakes | app/services/mam_capital_service.py:378-401 | a row is taken iff it is executed, has an id and an amount, and is of outside capital, or internal on request, in either case; with which sign and amount |
| RegularizationAnswers.SelectAppends | app/services/mam_capital_service.py:378-401 | a listing is taken row by row in its order |
| RegularizationAnswers.SelectOne | app/services/mam_capital_service.py:378-401 | a row taken gives its item, and one that is not gives none |
| Regularization.ApplyMovesNet | app/services/mam_capital_service.py:403-423 | an apply moves exactly the net it reports, from the master account to the trader |
| Regularization.ApplyPosts | app/services/mam_capital_service.py:403-423 | after a clean apply exactly the listed rows and those already posted are posted |
| Regularization.ApplyCounts | app/services/mam_capital_service.py:403-433 | posted and already posted add up to the items of the sweep |
| RegularizationAnswers.ApplyGoesThroughIff | app/services/mam_capital_service.py:403-424 | an apply goes through iff each incoming row to be booked is free when reached; it then reports the net of those rows, each once; otherwise the master account is short |
| RegularizationAnswers.ApplyBooks | app/services/mam_capital_service.py:403-423 | after a clean apply each row booked has the sign, the amount and the trader it was listed with |
| RegularizationAnswers.DryRunCounts | app/services/mam_capital_service.py:403-414 | a simulation counts every row not posted, repeated ones each time, whether or not the apply would go through |
| Regularization.DryRunPredictsApply | app/services/mam_capital_service.py:403-433 | the simulated net is what the apply moves iff the repeated rows net to nothing; so when ids are distinct |
| Regularization.SecondApplyIsIdle | app/services/mam_capital_service.py:403-424 | applying the same listing again posts nothing and moves nothing |
| Regularization.RepeatedRowMisleads | app/services/mam_capital_service.py:403-423 | a listing that repeats a row: the simulation says twice what the apply moves |
| PerfFeeServices.MamPerfFeeService.Reconcile | app/services/mam_perf_fee_service.py:81-170 | the loop's rows, book and summary; a failed pass leaves everything as it was |
| PerfFeeListed.PassRecords | app/services/mam_perf_fee_service.py:94-131 | a new payment has the amount and login of its first line, the last status given, and the owner the registry gives its login; a known one keeps amount and login |
| PerfFeeListed.NewPaymentPostedIff | app/services/mam_perf_fee_service.py:123-151 | a new payment is posted iff a line leaves it executed and its login has an owner: for the amount of its first line and that owner |
| PerfFeeListed.KnownPaymentPostedIff | app/services/mam_perf_fee_service.py:123-151 | a known payment is posted iff a line leaves it executed and it has an owner, or its login does: for the amount recorded |
| PerfFeeListed.PendingNamesOwnerless | app/services/mam_perf_fee_service.py:132-169 | the pending list names, by login or by id, exactly the executed payments that could be charged to nobody |
| PerfFeeListed.TotalAsListed | app/services/mam_perf_fee_service.py:123-124 | the executed total: the listed amounts, once for every line that leaves the payment executed |
| PerfFeeListed.PassFailsIff | app/models/mam.py:546-547 | with active accounts a pass fails iff a line brings a new payment with a negative amount |
| PerfFeeTheorems.PassIsExact | app/services/mam_perf_fee_service.py:87-153 | which rows a pass links; a linked row has a trader and the posted fee of its own amount; no other has a fee |
| PerfFeeTheorems.PendingIsExact | app/services/mam_perf_fee_service.py:132-169 | the pending list names exactly the executed payments without an owner |
| PerfFeeTheorems.FeesPaidGrowByPosted | app/services/mam_perf_fee_service.py:140-151 | PERF_FEE_PAID grows, and each trader's holdings shrink, by the sum of the newly posted payments |
| PerfFeeTheorems.CountsAreExact | app/services/mam_perf_fee_service.py:115-121 | new and known add up to the lines naming a payment, and new is how much the table grew |
| PerfFeeTheorems.TotalCountsLines | app/services/mam_perf_fee_service.py:123-124 | the executed total counts a payment's amount once for every line that leaves it executed |
| PerfFeeTheorems.TotalIsExecuted | app/services/mam_perf_fee_service.py:123-124 | the executed total is the sum of the executed listed payments when none is listed twice |
| PerfFeeConfluence.BatchesAreOnePass | app/services/mam_perf_fee_service.py:87-153 | passes over batches leave what one pass over all their lines leaves |
| PerfFeeConfluence.FeedsConfluent | app/services/mam_perf_fee_service.py:87-153 | feeds with the same lines, repeated and ordered anyhow, post the same payments and reach the same balances unless they tear a waiting one |
| PerfFeeConfluence.BatchesConfluent | app/services/mam_perf_fee_service.py:87-153 | any batches end where one pass over their union ends |
| PerfFeeConfluence.CleanFeedSucceeds | app/models/mam.py:546-547 | with amounts that are not negative and active accounts a pass goes through |
| PerfFeeConfluence.RepeatedPassIsIdle | app/services/ledger_service.py:153-162 | reconciling the same feed again succeeds and posts nothing |
| PerfFeeConfluence.PassLeavesUnlistedWaiting | app/services/mam_perf_fee_service.py:132-151 | after a posting pass an owned executed payment waits iff it waited before and was not listed |
| PerfFeeTorn.ConfluentIffNoneTorn | app/services/mam_perf_fee_service.py:116-153 | order and repetition do not matter iff no waiting payment is listed both silent and reverted and never executed |
| PerfFeeTorn.OrderDecides | app/services/mam_perf_fee_service.py:116-133 | a history with such a payment: one order of two lines posts it, the other does not |
| PerfFeeHistory.LinkedPaymentsArePosted | app/services/mam_perf_fee_service.py:132-153 | in every history of passes among protocol steps, linked payments and fee rows match and the books stay sound |
| FundingOtpServices.FundingOtpService.RequestFunding | app/services/funding_otp_service.py:61-91 | the row issued: the whole cents asked, open, no attempts, its expiry; refused iff less than a cent |
| FundingOtpServices.FundingOtpService.ResendFunding | app/services/funding_otp_service.py:94-113 | the renewed row: new code, new expiry, no attempts, open; or which error |
| FundingOtpServices.FundingOtpService.VerifyFunding | app/services/funding_otp_service.py:116-165 | the answer, the row and the database for every row found: a right code in time pays the amount and returns the movement, a verified OTP returns its own, each other case its error |
| FundingOtpCredits.CreditNeedsTheCode | app/services/funding_otp_service.py:123-165 | in every run an OTP that credited had its code given, right, open, in time and within its attempts |
| FundingOtpTheorems.CreditedAtMostOnce | app/services/funding_otp_service.py:157-165 | in every interleaved, crashing run an OTP credits at most once, one posted row of exactly its amount |
| FundingOtpTheorems.VerifiedIsPaid | app/services/funding_otp_service.py:157-165 | with the key family its own, VERIFIED means credited once, in full |
| FundingOtpAsked.OtpsWereAsked | app/services/funding_otp_service.py:61-77 | in every run an OTP is for the whole cents of what its request asked |
| FundingOtpAsked.CreditIsWhatWasAsked | app/services/funding_otp_service.py:61-165 | in every run the one row of an OTP that credited is worth what was asked for it |
| FundingOtpAsked.VerifiedPaidWhatWasAsked | app/services/funding_otp_service.py:61-165 | with the key family its own, a verified OTP has paid what was asked for it |
| FundingOtpTheorems.VerifyPaysIff | app/services/trader_service.py:147-149 | a right code pays iff the movement key was free or held by the OTP's own funding |
| FundingOtpCredits.VerifiedNotPaid | app/services/trader_service.py:147-149 | a run from the start that ends verified and unpaid, the key taken by a withdrawal |
| FundingOtpSerial.PaymentPaysIff | app/services/trader_service.py:144-166 | in every run a payment step leaves the OTP paid iff the movement key was free or its own funding's, and credits iff it was free |
| FundingOtpSequential.WrongGuessesBounded | app/services/funding_otp_service.py:144-155 | one request at a time, wrong guesses are at most OTP_MAX_ATTEMPTS times the codes issued |
| FundingOtpSequential.VerifiedIsFinal | app/services/funding_otp_service.py:101-103 | one request at a time, a verified OTP never changes |
| FundingOtpSequential.VerifiedStaysIff | app/services/funding_otp_service.py:101-165 | in every run a step undoes VERIFIED iff it commits a request that read the row expired, at its last guess, or cancelled and renewed |
| FundingOtpSequential.VerifiedThenCancelled | app/services/funding_otp_service.py:140-142 | a run from the start in which what was verified and paid is cancelled by a late read |
| FundingOtpSequential.GuessCountsIff | app/services/funding_otp_service.py:149-154 | in every run a wrong guess adds one attempt iff the row still has the attempts it read |
| FundingOtpSequential.GuessesBoundedButForLost | app/services/funding_otp_service.py:144-155 | in every run wrong guesses are at most OTP_MAX_ATTEMPTS times the codes issued plus what overlapping commits took back |
| FundingOtpSequential.GuessIsLost | app/services/funding_otp_service.py:149-154 | a run from the start in which two wrong guesses count as one attempt |
| FundingOtpSerial.SerialGuessesBounded | app/services/funding_otp_service.py:144-155 | if requests on an OTP never overlap, others may: its wrong guesses are at most OTP_MAX_ATTEMPTS times the codes issued |
| FundingOtpSerial.SerialVerifiedIsFinal | app/services/funding_otp_service.py:131-137 | under the same condition a verified OTP never changes |
| EvmLogs.GetReceipt | app/services/evm_client.py:194-230 | the decoding loop and the receipt's fields, None without a block |
| EvmLogs.ReceiptReadsBack | app/services/evm_client.py:194-230 | a mined receipt reads back as what the node wrote: its block, a success iff its status is 1, its hash, parties and transfers |
| EvmLogs.NormalizeHexIff | app/services/evm_client.py:42-59 | a hash or an address is accepted with spaces around, in either case, with its prefix or without, and comes out in lower case |
| EvmLogs.DecodingRoundTrip | app/services/evm_client.py:204-221 | the logs of any events decode to exactly the ERC-20 transfers among them, in order |
| EvmLogs.EncodeEmits | app/services/evm_client.py:8-17 | every emittable transfer has such a log and decodes to itself |
| TokenAmounts.ToDecimalExactIff | app/services/crypto_deposit_service.py:119-134 | the amount is the exact sum iff it has no more significant digits than the context keeps |
| TokenAmounts.ToDecimalIsNearest | app/services/crypto_deposit_service.py:128-128 | otherwise it is the nearest of that many digits |
| TokenAmounts.TooManyDigits | app/services/crypto_deposit_service.py:128-128 | a family of sums that lose digits |
| TokenAmounts.SomeSumIsCut | app/services/crypto_deposit_service.py:128-128 | whatever the context keeps, one unit more than that power of ten is cut |
| TokenAmounts.CreditIsExactIff | app/services/crypto_deposit_service.py:307-313 | in minimal units the ledger gets exactly the sum iff it fits the context and is a whole number of ledger units |
| CryptoDepositServices.CryptoDepositService.Submit | app/services/crypto_deposit_service.py:157-297 | deposits, book and answer for every verdict; a rejection is noted and moves nothing |
| CryptoDepositAnswers.SubmissionAnswers | app/services/crypto_deposit_service.py:157-256 | the whole answer to a submission of a mined transaction, from its status, blocks and transfers: accepted for what they paid, or the first reason it is not |
| CryptoDepositAnswers.EarlyAnswers | app/services/crypto_deposit_service.py:157-203 | what is answered without a mined transaction: configuration, hash, node, not found |
| CryptoDepositAnswers.AcceptedIsRecorded | app/services/crypto_deposit_service.py:258-318 | an accepted submission is recorded unless its hash is registered by then, and its credit comes from outside to the master account |
| CryptoDepositAnswers.SubmissionIsARun | app/services/crypto_deposit_service.py:157-297 | a submission served alone is a run of the interleaved steps |
| CryptoDepositTheorems.AcceptedIsPaid | app/services/crypto_deposit_service.py:224-256 | an accepted submission is worth what the token's transfers to the receiver add up to |
| CryptoDepositTheorems.OneCreditPerHash | app/services/crypto_deposit_service.py:258-288 | in every interleaving one confirmed row and one funding per hash, for that row's amount |
| CryptoDepositTheorems.UnconfirmedMovesNothing | app/services/crypto_deposit_service.py:141-152 | a hash without a confirmed row has moved nothing |
| CryptoDepositTheorems.ConfirmedWasAccepted | app/services/crypto_deposit_service.py:173-265 | in every run a confirmed row comes from a submission accepted for its hash, amount and sum |
| CryptoDepositTheorems.CreditIsWhatWasPaid | app/services/crypto_deposit_service.py:173-318 | in every run a confirmed hash has status 1 and blocks enough, and its posting is worth exactly what the token's transfers paid the receiver, iff the sum fits the context and whole ledger units |
| RunningBalances.LinesByTransaction | app/repositories/ledger_repository.py:173-214 | the dictionary holds each transaction's lines in order, and no other key |
| RunningBalances.BalancesChain | app/repositories/ledger_repository.py:184-212 | the balance before an entry is the balance after the one that precedes it |
| RunningBalances.FirstStartsAtZero | app/repositories/ledger_repository.py:184-212 | the first entry of an account starts from zero |
| RunningBalances.LastEndsAtBalance | app/repositories/ledger_repository.py:80-90 | the last entry shows the recomputed balance |
| RunningBalances.AsOfIsLastShown | app/repositories/ledger_repository.py:110-128 | a balance as of an instant is the one shown by the last entry before it |
| RunningBalances.AsOfNothingIsZero | app/repositories/ledger_repository.py:110-128 | and zero when there is none |
| RunningBalances.WindowIsRunningSum | app/repositories/ledger_repository.py:184-195 | the window gives every entry the running sum of its account in (created_at, id) order |
| RunningBalances.LineOfRow | app/repositories/ledger_repository.py:201-214 | each row has its line in its transaction: its account, debit, credit, and the balances before and after it |
| RunningBalances.LinesShowRunningSums | app/repositories/ledger_repository.py:184-214 | in the report each entry stands between the running sums of its account before and after it |
| Paging.CollectAll | app/services/mam_client.py:689-706 | the loop gives the items of the first pages, for any server |
| Paging.CollectsTheList | app/services/mam_client.py:689-706 | the full list when its pages fit in the limit, otherwise exactly what the first pages hold |
| JsonDumpTheorems.DumpsOutcome | app/services/mam_client.py:74-95 | raises iff a decimal is not finite, otherwise the ordinary printer's text with decimals bare |
| JsonReader.DumpsReadsBack | app/services/mam_client.py:74-95 | what is sent, when it is sent, a JSON reader reads as the payload, every number as written |
| JsonReader.PrintReadsBack | app/services/mam_client.py:88-88 | a printed value followed by more of the text reads back as itself and leaves the rest |
| JsonDumpTheorems.FixedIsExact | app/services/mam_client.py:82-85 | a decimal's text is its sign and digits with the point in place, no exponent, nothing lost |
| JsonDumpTheorems.EscapeRoundTrip | app/services/mam_client.py:88-88 | any string printed and read back is itself |
| WebhookServices.MamWebhookService.ApplyEvent | app/services/mam_webhook_service.py:161-192 | event, allocation and answer after one application, in every branch |
| WebhookServices.MamWebhookService.ReceiveEvent | app/services/mam_webhook_service.py:112-159 | a repeat changes nothing; a first delivery is kept and applied; what both answer |
| WebhookServices.MamWebhookService.RetryBatch | app/services/mam_webhook_service.py:198-215 | the retry loop: the whole batch and its count, or nothing |
| WebhookEffects.ApplyLeaves | app/services/mam_webhook_service.py:161-192 | a termination leaves its allocation with the event's status, cancelled when silent, its reason, actor and fee, ended when cancelled; any other event touches none |
| WebhookEffects.DeliveryLeaves | app/services/mam_webhook_service.py:112-159 | a first delivery is kept as it came and applied, unless it dies or its status is refused; a repeat changes nothing |
| WebhookEffects.RetryShows | app/services/mam_webhook_service.py:198-215 | after a retry an allocation shows the last event of the batch that reached it |
| WebhookEffects.RetryLeavesOthers | app/services/mam_webhook_service.py:198-215 | after a retry an allocation that no event of the batch reached is as it was |
| WebhookEffects.RetryCounts | app/services/mam_webhook_service.py:209-215 | the count is that of the terminations of known allocations and of the other events that name one |
| WebhookTheorems.AppliedAtMostOnce | app/services/mam_webhook_service.py:126-159 | over repeats, crashes, imports and retries an event reaches its allocation at most once and is then final |
| WebhookTheorems.RetryCatchesUpIff | app/services/mam_webhook_service.py:198-215 | a covering retry processes every termination of a known allocation iff none carries a refused status |
| WebhookTheorems.LimitCovers | app/services/mam_webhook_service.py:204-208 | a limit no less than what is pending covers it |
| WebhookOverlap.AppliedOnceIffNotOvertaken | app/services/mam_webhook_service.py:155-215 | over interleaved commits an event reaches its allocation at most once iff no commit applied it after another had |
| WebhookOverlap.SerialAppliesOnce | app/services/mam_webhook_service.py:152-215 | if the requests on an event never overlap, whatever the others do, it reaches its allocation at most once |
| WebhookOverlap.RetryInBetween | app/services/mam_webhook_service.py:155-157 | a run from the start in which a retry between a delivery's two commits applies its event twice |
| WebhookOverlap.OneBadEventStopsTheRest | app/services/mam_webhook_service.py:198-215 | a reached inbox in which one refused status keeps a good event from being processed |
| WebhookOverlap.DeliveryIsARun | app/services/mam_webhook_service.py:152-159 | a delivery served alone is a run of the interleaved steps |
| WebhookOverlap.RetryIsARun | app/services/mam_webhook_service.py:198-215 | a retry served alone is a run of the interleaved steps |

## Left out

- HTTP, timeouts, headers and response parsing beyond accepted, refused for good, and uncertain.
- Routers, schemas, e-mail, alerts, logging, API keys, signatures and who may see what.
- SQL: tables are maps and sequences, row locks and unique indexes are guards, a rollback restores what was there.
- Column rounding and key lengths: amounts are whole units of 10^-8 and `ldg-` keys are taken to fit their column.
- A reported amount of zero falls back to the requested one, as written; nothing is claimed of a reported zero.
- A fee posted by a withdrawal (`pf-`) and the same fee listed later by the provider (`mam-pf-`): no claim relates them.
- Regularization is one step of the protocol: a movement committed between its check and its listing is not modelled.
- Resolving an account to its trader, and the PAYMENT account of a leader with its withdrawal.
- The listing of at most five pending movements is a flag each request carries; only the unique index is relied on.
- Spaces beyond Latin-1 in `strip`, case folding beyond ASCII, digits beyond ASCII in `int`, and JSON floats.
- `verify_runs`, `reconcile_all` and the listings: sums and filters over the same rows.
- The allocation service but for what the webhook reads: an import and a local change are steps that set a row.
- Account provisioning, leader profiles, analytics, the operations panel and account deletion.
- TotalIsExecuted: asks for a feed without repeats; TotalCountsLines says what the total is for any feed.
- FeedsConfluent: asks that amounts and logins per payment id do not change, as the feed promises, and that the feed tears no waiting payment; ConfluentIffNoneTorn says that it must not.
- BatchesConfluent: asks for the same.
- VerifiedIsPaid: asks that no other caller uses `fund-otp-` keys; VerifyPaysIff says what happens otherwise.
- ExecutedDepositIsBacked: asks for keys that strip to distinct texts; CollidingKeysPostTwice says why.
- SettledDepositIsDecided: asks for the same.
- BookedAtMostOnce: asks for the same, which BookedOnceIffApart shows to be exact.
- CreditIsWhatWasPaid: the amount posted is cut to ledger units, where the column would round it.
