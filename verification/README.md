# A verified model of the Kiesnet token ledger

The Kiesnet token chaincode keeps a hybrid ledger. The value of a token is in four places at once: in account
balances; in escrow, as time-locked transfers and as deposits that wait for a multi-signature contract; in pay
records that a merchant later *prunes* into its balance; and in fee records that the target of the token's fee
policy later prunes. Pruned records are never deleted. A cursor, which is a record id whose first nineteen
characters print a time, decides which records are still unspent.

The project models every transaction that changes the ledger, and proves what they do to value, to escrow, to
the audit log, to refunds, to supply, to accounts and to addresses, over every run of transactions, failed ones
included. Two layers are proved to agree:

* **Values.** `World.dfy` is the state, `Stubs.dfy` and `Transactions.dfy` are what each operation writes, and
  `Transactions.Step` is one transaction. `Moves.dfy` shows that each successful transaction is one of eighteen
  moves; the properties of runs are proved about moves.
* **The chaincode at work.** `Shim.dfy`, the `*Stub.dfy` and `*Handlers.dfy` modules and `Ledger.dfy` follow the
  source's form. A transaction reads what was committed before it, changes in-memory copies in place, loops over
  query answers and sets of signers, and stages its writes. `Ledger.Invoke` commits all of them or none. Every
  method is proved against the value layer, so what is proved about runs holds of every `Ledger`.

| files | content |
|---|---|
| Basics, Sums, Stamps, Fees, Addresses | results and time, sums over maps, record ids, fee arithmetic, printed addresses |
| World, Stubs, Transactions, Moves | the state, the writes of each stub, the transactions, the moves |
| Rights, Transfers, Payments, Issuance, Membership, Windows | exactly when each transaction succeeds, and what its answer is |
| Invariants, Runs | what every transaction keeps, and runs |
| Paging, Series, ExactlyOnce, Interleaved, Skew | prune pages, repeated prunes, exactly-once crediting, prunes among other transactions, clock skew |
| Conservation, Effects, Authority, Signs, Audit | where value is, who gains and loses, who may take, what can be negative, the log |
| Escrow, Refunds, Lifecycle, Holders | escrow consumed once, refund books, what only moves one way, how many holders |
| Scenes, Counterexamples | short runs from the empty ledger, and what does not hold |
| Shim, BalanceStub, PayStub, FeeStub, TokenStub, AccountStub, the Handlers, Ledger | the chaincode at work |

## Hypotheses

`Invariants.Admitted` is what the platform grants a transaction: a new transaction id; a time from 10^18 to
2^63 - 1 nanoseconds, for which the id format works; a new contract id; and a state database that answers a prune
query with the owner's records of the window in ascending time (`Faithful`, which `FaithfulExists` shows to be
possible). Conservation and exactly-once crediting need more, and say so: distinct record times for each merchant
and each token, five minutes of clock skew at most, prunes with the ten-minute flag, and fee targets of their own
token. `Runs.ExactAccounting` needs none of these: it says exactly how much every run loses.

## What does not hold

Each failure is shown in `Counterexamples.dfy`, for the ledger by a run from the empty ledger in which every
transaction succeeds, and each has an exact condition.

* A payment by contract files its memo as order id and its order id as memo: `executePay` passes the two in the
  wrong order (pay_tx.go:598 against pay_stub.go:250). The record is right exactly when the two are equal
  (`Lifecycle.ContractPayOrder`).
* The target of a fee policy need not belong to the policy's token, so a fee prune can turn one token into
  another (token_tx.go:355-358, fee_tx.go:144-146). `Conservation.ConservesIff` has the condition.
* A prune whose page ends between two records of one time loses the rest of that time for good
  (pay_stub.go:210-213), and only such a prune does (`Paging.NothingLostIff`).
* A record filed at or below its cursor is never credited (`ExactlyOnce.ClosedForGood`), and the move that files
  it conserves value exactly when it lands above (`Conservation.ConservesIff`). Ten-minute prunes prevent this;
  prunes without the flag do not.
* A refund is not covered by the merchant's balance, so pruning it can take the balance below zero. It does
  exactly when the balance does not cover what the page comes to (`Signs.PayPruneNegativeIff`,
  `Signs.FeePruneNegativeIff`).
* A joint account can get more than 128 holders. account/create counts addresses and leaves the invoker out, so
  128 personal co-holders make 129 holders; and a co-holder address may be a joint account, which stands for all
  of its holders (`Holders.HolderLimitIff`). token/create counts nothing, at once or in its callback
  (token_tx.go:155-174, 482-514), so a genesis account can have any number of holders; with personal co-holders
  it keeps to 128 exactly when at most 127 are named besides the invoker (`Holders.GenesisLimitIff`).
* The transfer stub destroys the amount when both copies are of one account
  (`Conservation.TransferNeedsTwoAccounts`); `transfer`'s guard keeps it from that (transfer_tx.go:64-67).
* An address with a lower-case token code passes `Validate` and does not survive printing and parsing
  (`Addresses.ParsePrint`). This concerns the address functions only: the handlers make addresses with validated,
  upper-case codes.

Where the repository's README and its code disagree, the model follows the code: token/update on a token that is
not issued is an error, not a success (token_tx.go:327-330); pay takes an order id before the memo, and an empty
sender for the personal account (pay_tx.go:19-24); fees go to the policy's target, not to the genesis account;
token/create takes any number of co-holders, the invoker among them, where at most 127 without the invoker are
announced (README.md:117 against token_tx.go:152-174).

## The chaincode at work

The methods that do no more than the function they are proved against, by source lines. Those with work of their
own, such as loops, aliased copies and arithmetic in place, are in the table of the next section.

| method | source lines | proved against |
|---|---|---|
| Shim.Amount.Add | amount.go:39-42 | old value plus the argument's, aliased or not |
| Shim.Amount.Copy | amount.go:50-53 | a new amount of the same value |
| Shim.Amount.Neg | amount.go:56-59 | the negated value |
| Shim.Stub.GetBalance | balance_stub.go:55-80 | a new copy of the committed balance |
| Shim.Stub.CreateContract | contract_tx.go:81-95 | `Transactions.CreateContract` |
| BalanceStub.Supply | balance_stub.go:186-204 | `Stubs.Supply` |
| BalanceStub.TransferPendingBalance | balance_stub.go:254-294 | `Stubs.TransferredPending` |
| BalanceStub.Deposit | balance_stub.go:298-332 | `Stubs.Deposit` |
| BalanceStub.Withdraw | balance_stub.go:336-367 | `Stubs.Withdraw` |
| FeeStub.CreateFee | fee_stub.go:39-63 | `Stubs.CreateFee` |
| PayStub.MakePay | pay_stub.go:114-140 | `Stubs.PayNow` |
| PayStub.Refund | pay_stub.go:143-177 | `Stubs.Refund` |
| PayStub.PayPendingBalance | pay_stub.go:250-269 | `Stubs.PayPending` |
| AccountStub.CreateAccount | account_stub.go:38-81 | `Stubs.CreateAccount` |
| AccountStub.AddHolder | account_stub.go:289-313 | `Stubs.AddHolder` |
| AccountStub.RemoveHolder | account_stub.go:316-338 | `Stubs.RemoveHolder` |
| AccountStub.SetSuspended | account_stub.go:224-269 | `Transactions.SuspendTx` |
| TokenStub.Burn | token_stub.go:118-153 | `Stubs.BurnToken` |
| TokenStub.CreateToken | token_stub.go:30-77 | `Stubs.CreateToken` |
| TransferHandlers.Transfer | transfer_tx.go:24-217 | `Transactions.TransferTx` |
| TransferHandlers.Cancel | transfer_tx.go:222-248 | `Transactions.CancelTransfer` |
| TransferHandlers.Execute | transfer_tx.go:251-295 | `Transactions.ExecuteTransfer` |
| TransferHandlers.PendingWithdraw | balance_tx.go:191-243 | `Transactions.PendingWithdrawTx` |
| PayHandlers.Pay | pay_tx.go:25-177 | `Transactions.PayTransaction` |
| PayHandlers.Refund | pay_tx.go:182-312 | `Transactions.PayRefundTx` |
| PayHandlers.Prune | pay_tx.go:317-444 | `Transactions.PayPruneTx` |
| PayHandlers.CreditPays | pay_tx.go:406-430 | `Stubs.PrunedPays` |
| PayHandlers.Execute | pay_tx.go:575-603 | `Transactions.ExecutePay` |
| FeeHandlers.Prune | fee_tx.go:107-271 | `Transactions.FeePruneTx` |
| TokenHandlers.Burn | token_tx.go:22-118 | `Transactions.TokenBurnTx` |
| TokenHandlers.Mint | token_tx.go:211-304 | `Transactions.TokenMintTx` |
| TokenHandlers.Create | token_tx.go:122-183 | `Transactions.TokenCreateTx` |
| TokenHandlers.Update | token_tx.go:308-386 | `Transactions.TokenUpdateTx` |
| TokenHandlers.ExecuteMint | token_tx.go:517-547 | `Transactions.ExecuteDoc` |
| TokenHandlers.ExecuteBurn | token_tx.go:449-479 | `Transactions.ExecuteDoc` |
| TokenHandlers.ExecuteCreate | token_tx.go:482-514 | `Transactions.ExecuteDoc` |
| AccountHandlers.Create | account_tx.go:19-87 | `Transactions.AccountCreateTx` |
| AccountHandlers.HolderAdd | account_tx.go:130-167 | `Transactions.HolderAddTx` |
| AccountHandlers.HolderRemove | account_tx.go:171-217 | `Transactions.HolderRemoveTx` |
| AccountHandlers.Suspend | account_tx.go:271-329 | `Transactions.SuspendTx` |
| AccountHandlers.ExecuteCreate | account_tx.go:409-427 | `Transactions.ExecuteDoc` |
| AccountHandlers.ExecuteHolderAdd | account_tx.go:430-461 | `Transactions.ExecuteDoc` |
| AccountHandlers.ExecuteHolderRemove | account_tx.go:464-495 | `Transactions.ExecuteDoc` |
| Ledger.Execute | contract_tx.go:34-73 | `Transactions.ExecuteDoc` |
| Ledger.Cancel | contract_tx.go:20-30 | `Transactions.Handle` |
| Ledger.Route | main.go:22-62 | `Transactions.Handle` |

## Model

| member | source | states |
|---|---|---|
| Stamps.CursorRoundTrip | pay_tx.go:357-368 | for every time of the id format and any transaction id, slicing and recombining the printed id gives back exactly the time |
| Stamps.CursorRoundTripIff | fee_tx.go:185-197 | among positive int64 times the cursor reads its own time back exactly from 10^18 on |
| Stamps.NewIdInjective | pay_stub.go:119-120 | record ids agree exactly when time and transaction id do |
| Paging.PageIsConsumed | pay_stub.go:194-222 | the page of a prune lies between the old and the new cursor, without repetition |
| Paging.LostExactly | pay_stub.go:210-213 | a prune loses exactly the records beyond the 900th that share its time |
| Paging.NothingLostIff | pay_stub.go:210-218 | a prune loses nothing if and only if its page does not end between two records of one time |
| Paging.PageSplitsWindow | pay_tx.go:406-415 | without a tie at its end, the page is exactly what lies between the old and the new cursor |
| Paging.ReachSplitsWindow | pay_tx.go:406-415 | what the cursor passes over is the page and the lost rows, each once |
| Paging.AnswerUnique | queries.go:128-145 | with distinct times a prune query has one answer only |
| Paging.ChainRefinesWindow | pay_tx.go:401-415 | repeated pages put together are the one answer to the whole window, in ceil(n / 900) pages, all but the last reporting more |
| Paging.ChainCredits | pay_stub.go:194-218 | after k prunes exactly the first 900 k records of the window are credited |
| Paging.ChainProgress | pay_tx.go:439-443 | the next page is empty exactly when k pages of 900 have covered the window |
| Series.PayPrunesRefineSum | pay_tx.go:401-443 | a series of pay/prune transactions succeeds exactly while 900 a call has not covered the window, and then has credited the sum of all amounts less all fees in ceil(n / 900) calls |
| Series.FeePrunesRefineSum | fee_tx.go:223-263 | a series of fee/prune transactions by a holder of the target succeeds exactly while 900 a call has not covered the window, and then has credited the target the sum of all fees in ceil(n / 900) calls, through the migration of the cursor |
| Series.PruneSucceedsIff | pay_tx.go:338-443 | for a holder of an account that is not suspended, pay/prune succeeds exactly when it finds a record |
| Series.FeePruneSucceedsIff | fee_tx.go:144-271 | for a holder of the policy's target, fee/prune succeeds exactly when it finds a record |
| Windows.PayPruneSucceedsIff | pay_tx.go:336-443 | pay/prune succeeds exactly for a holder of an account that is not suspended when a record is due: after the last one pruned, at or before the second given or now, and ten minutes old if the flag is set |
| Windows.PayPruneCreditsDue | pay_tx.go:356-419 | what it credits is at most 900 of the due records, all of them if there are fewer, the earliest first; the balance grows by amounts less fees and the next prune goes on after the last |
| Windows.CreditedWhenDue | pay_tx.go:375-399 | over every run, each credited pay record was due when one of the run's prunes of its merchant took it |
| Windows.FeePruneSucceedsIff | fee_tx.go:128-271 | fee/prune of an issued token changes nothing without a policy, and with one succeeds exactly for a holder of the target when a fee is due |
| Windows.FeePruneCreditsDue | fee_tx.go:185-248 | the same page for fees, also from the cursor the token itself named before the upgrade |
| Windows.FeeCreditedWhenDue | fee_tx.go:199-221 | over every run, each credited fee was due when it was taken |
| ExactlyOnce.PageSettles | pay_stub.go:194-218 | each record above the old cursor is on the page or above the new cursor, never both |
| ExactlyOnce.PaysCreditedOnce | pay_tx.go:356-415 | over every run whose records are filed above their cursors and whose pages do not end in a tie, each pay record is credited by exactly one prune or still above its cursor |
| ExactlyOnce.FeesCreditedOnce | fee_tx.go:185-248 | the same for fee records |
| ExactlyOnce.PaysNeverTwice | pay_tx.go:356-415 | over every run, ties and late records included, a pay record is credited at most once, never while it is still open, and never if it was closed at the start |
| ExactlyOnce.FeesNeverTwice | fee_tx.go:185-248 | the same for fee records |
| ExactlyOnce.ClosedForGood | pay_stub.go:180-224 | a record at or below its cursor is never credited nor open again, in any later run |
| Interleaved.PaysCreditedInOrder | pay_tx.go:356-443 | whatever other transactions come in between, as long as none files a pay of the merchant inside the window, k prunes credit exactly its first 900 k records in order; the next call succeeds exactly while that is not all, and when it fails the calls were ceil(n / 900) |
| Interleaved.FeesCreditedInOrder | fee_tx.go:185-263 | the same for the fees of a token, even when the target changes in between |
| Interleaved.PayCreditOwner | pay_stub.go:180-192 | what a run credits to a merchant is, record by record, what the run credits of that merchant's records |
| Interleaved.FeeCreditOwner | fee_stub.go:101-113 | the same for a token and its fees |
| Skew.SkewedRunIsTimely | pay_tx.go:393-399 | with five minutes of skew, ten-minute prunes and distinct times every record is filed above its cursor and no page loses one |
| Skew.SafePruningIsExactlyOnce | fee_tx.go:215-221 | exactly-once crediting under clock skew, for pays and fees |
| Skew.SkewedRunConserves | pay_tx.go:393-423 | under the same hypotheses and with fee targets at home, supply equals value at the end of every run |
| Conservation.MoveDrift | balance_stub.go:186-367 | every move changes value less supply by exactly what the move loses |
| Conservation.StubTransferDrift | balance_stub.go:207-251 | what the transfer stub loses: a fee filed below the cursor, and the amount when both copies are of one account |
| Conservation.TransferNeedsTwoAccounts | transfer_tx.go:64-67 | the transfer stub conserves every token if and only if the accounts differ, or nothing is credited now |
| Conservation.ConservesIff | pay_stub.go:114-177 | away from page ties, a move conserves every token if and only if its record lands above the cursor and fees stay in their token |
| Conservation.LandsIffNothingLost | fee_tx.go:144-146 | nothing is lost exactly when the caller's check holds |
| Runs.ExactAccounting | balance_stub.go:186-367 | over any run, value and supply drift apart by exactly the sum of what its transactions lose |
| Runs.ValueConserved | pay_tx.go:406-423 | over every careful run supply is balances plus escrow plus unspent pays plus unspent fees |
| Effects.BalanceEffects | balance_stub.go:207-367 | each move changes each balance by exactly its entry in the table of gains and losses, and no other balance |
| Effects.RecordsFiled | pay_stub.go:114-177 | the pay, refund, fee and lock a move files carry the move's amounts, fees, parties and times |
| Authority.OnlyHoldersTake | transfer_tx.go:77-82 | a balance falls only by a transfer, payment, prune or burn of one of its holders, from an account that is not suspended where it is spent or its pays pruned, or by the contract of a burn |
| Authority.SpendingTakes | transfer_tx.go:174-206 | a transfer or payment takes its price from its source; when several must sign, all of it is in escrow, still the owner's, and no other balance has changed |
| Authority.StrangersTakeNothing | pay_tx.go:68-85 | over any run without a transaction of its holders or a burn contract, an account loses nothing |
| Transfers.TransferSucceedsIff | transfer_tx.go:36-177 | transfer succeeds exactly when: positive amount, two different usable accounts of one issued token, the invoker a holder of the source (by default its personal account), amount and fee covered, extra signers' accounts of the token, at most 128 signers, a contract for more than one |
| Transfers.TransferAtOnce | transfer_tx.go:138-202 | with one signer, a second that has not come locks the amount for the receiver until exactly then and leaves its balance; otherwise the receiver has it at once and nothing is locked; the fee is on file |
| Transfers.TransferWaits | transfer_tx.go:174-200 | with more signers, amount and fee are in escrow until the contract expires, and its document names receiver, amount, fee and second of the request |
| Transfers.DeliverySucceedsIff | transfer_tx.go:251-295 | the contract delivers exactly while its escrow and the receiver's account exist: locked until the document's second, or credited when none is to come |
| Transfers.TransferArrives | transfer_tx.go:251-295 | whatever happens between request and delivery, the receiver of the request gets its amount, locked until its second if that has not come, and its fee is on file |
| Transfers.WithdrawSucceedsIff | balance_tx.go:207-235 | a holder of the owner withdraws exactly what is due in escrow, all of it, and nothing else changes |
| Transfers.CancelSucceedsIff | contract_tx.go:20-30 | cancelling returns the contract's own escrow in full to its owner; contracts without escrow are cancelled without a trace |
| Payments.PaySucceedsIff | pay_tx.go:36-165 | pay succeeds exactly when: positive amount, two different usable accounts of one token, the invoker a holder of the source, amount covered; an issued token for one signer, a contract for two to 128 |
| Payments.PayAtOnce | pay_stub.go:114-140 | with one signer the payment is on file under its order id and memo, with the merchant's fee of the day, and only the source has paid |
| Payments.PayWaits | pay_tx.go:132-152 | with more, the amount is in escrow until the contract expires, and its document names merchant, order id and memo |
| Payments.PayOutSucceedsIff | pay_tx.go:575-603 | the contract of a payment is carried out exactly while its escrow is there and the token issued, and files the payment with order id and memo changed over |
| Payments.PaymentArrives | pay_tx.go:575-603 | whatever happens before, it files the request's amount from the request's source for the request's merchant |
| Payments.RefundSucceedsIff | pay_tx.go:197-260 | a refund succeeds exactly for a holder of the merchant, with a positive amount that fits in what is left, between two usable accounts of one token |
| Payments.RefundGives | pay_stub.go:143-177 | the payer has the amount at once; a negative record with the fee's share, rounded down but for a full refund, waits for the merchant's prune; nothing else changes |
| Payments.StrangersLeaveWealth | pay_tx.go:246-251 | over any run without a transaction of its holders or a burn contract, a merchant's balance and open pays together do not fall |
| Escrow.AttemptFails | transfer_tx.go:229-237 | cancelling, executing or withdrawing an escrow that is gone or not one's own fails |
| Escrow.LeavesIff | balance_tx.go:207-235 | an escrow leaves exactly when an entitled transaction asks for it and succeeds, and is unchanged otherwise |
| Escrow.EscrowOnce | balance_stub.go:254-294 | in every run an id enters escrow at most once, leaves at most once, and is there exactly in between |
| Escrow.NeverBack | balance_stub.go:361-364 | an escrow that has left never comes back |
| Escrow.HeldUnchanged | balance_stub.go:173-183 | while it is held an escrow keeps owner, amount, fee and time |
| Escrow.DepositTakes | balance_stub.go:315-324 | a deposit takes from its owner exactly amount plus fee |
| Escrow.ReleaseGives | balance_stub.go:346-354 | a cancel or withdrawal gives the owner exactly what is held, and touches no other balance |
| Escrow.DepositRoundTrip | balance_stub.go:298-367 | whatever happens in between, releasing a deposit restores exactly what it took |
| Refunds.ShareGrows | pay_tx.go:286-297 | one more refund keeps the refunded fee within its share, short by less than one unit a refund |
| Refunds.ShareInFull | pay_tx.go:288-297 | k refunds of the whole amount leave at most k - 1 units of the fee behind |
| Refunds.RefundsRun | pay_stub.go:149-159 | over every run, every payment's books balance with the refunds on file |
| Refunds.RefundAccounting | pay_tx.go:234-297 | running total equals the sum of the refunds and is at most the payment; refunded fees are at most the fee |
| Refunds.RefundsAreFinal | pay_tx.go:234-237 | a refund record can never be refunded |
| Audit.MoveLogs | balance.go:69-189 | a move changes a balance by what its new log says, the log shows the new balance, and no other log changes |
| Audit.LogSaysWhat | balance.go:69-189 | every log has the kind of what its move was to its account, and names a fee exactly for who pays one with the move |
| Audit.LogAdds | balance_stub.go:118-132 | a log under a used time replaces the other: the books are off by exactly the replaced entry |
| Audit.LogsAddUp | balance.go:69-189 | with distinct log times the differences less the fees of an account's logs add up to its balance, over every run |
| Audit.LogShowsPrefixSum | balance.go:87-189 | the log just written shows the sum of the differences up to itself |
| Audit.EveryLogShowsItsSum | balance.go:69-189 | every log an account gets in a run stays as it was written, with all logs before it, and shows the sum of the differences up to itself |
| Signs.OnlyPrunesGoNegative | transfer_tx.go:110-114 | no transaction but the prunes takes a balance from non-negative to negative |
| Signs.RefundFreeRun | pay_tx.go:98-100 | without refunds and with pay rates of at most one nothing is ever negative |
| Signs.LossNonNegative | pay_stub.go:114-140 | what a move loses then is never negative |
| Signs.ValueWithinSupply | pay_tx.go:356-415 | in such runs value never outgrows the supply, whatever is lost |
| Signs.BalancesWithinSupply | pay_tx.go:406-412 | in refund-free runs with fair pay rates and fee targets at home, page ties, late records and unsafe prunes included, nothing is negative and every balance is between zero and the supply |
| Signs.PayPruneNegativeIff | pay_tx.go:406-419 | a pay prune leaves the balance non-negative if and only if the balance covers what the page comes to, and touches no other |
| Signs.FeePruneNegativeIff | fee_tx.go:236-242 | a fee prune leaves the target's balance non-negative if and only if it covers the sum of the page, and touches no other |
| Fees.FloorBounds | amount.go:62-66 | MulRat is the floor of the product |
| Fees.ReducedRate | fee_stub.go:153-156 | reducing a rate to lowest terms changes no fee |
| Fees.FeeBounds | fee_stub.go:156-167 | fees are not negative, within a cap that is set, and do not fall as the amount grows |
| Fees.UncappedFee | fee_stub.go:154-167 | an uncapped fee is the exact product rounded down; splitting an amount never costs more |
| Fees.RateExact | fee_stub.go:154-167 | a rate comes to the product rounded down, cut at zero below and at a cap that is set above, for every amount and rate |
| Fees.CappedFee | fee_stub.go:160-166 | a capped fee is the exact product rounded down until it reaches the cap |
| Fees.CalcFeeExact | fee_stub.go:141-172 | the calculator charges exactly the policy's rate for the call, and nothing without one or for genesis account and target |
| Fees.FeeWithinAmount | fee_stub.go:154-167 | a rate of at most one takes at most the amount |
| Fees.FeeFree | fee_stub.go:141-153 | the calculator fails only for a token not issued, and genesis account and target pay nothing |
| Invariants.InvStep | main.go:22-28 | a successful transaction makes its move, keeps the invariant, and only adds to the records |
| Invariants.DocsMove | balance_stub.go:298-313 | contract documents and escrows keep describing each other: id, owner, amount, token, and no fee under a pay document |
| Invariants.RegistryMove | account_stub.go:38-132 | accounts and balances exist together, and the holder index lists exactly the accounts a Kiesnet id holds |
| Invariants.TokensMove | token_stub.go:117-188 | supply stays within the maximum, genesis and fee target are accounts |
| Invariants.IssueWrites | token_stub.go:30-77 | issuing a token opens its genesis account with the initial supply and resets nothing |
| Invariants.OnlyPrunesMoveCursors | fee_tx.go:164-183 | no transaction but the prunes moves a cursor, token updates included |
| Invariants.PayPruneTimes | pay_tx.go:413-415 | pay/prune moves its account's cursor strictly forward, within the window, and no other cursor |
| Invariants.FeePruneTimes | fee_tx.go:236-248 | fee/prune does the same for its token, whether the cursor was migrated or not |
| Invariants.FaithfulExists | queries.go:214-224 | a database that answers every prune query is possible |
| Moves.StepIsMove | contract_tx.go:20-30 | every successful transaction or callback is its move |
| Lifecycle.MoveEndures | token_tx.go:338-379 | accounts, tokens, maximum supply, genesis account and policy stay |
| Lifecycle.CreationResetsNothing | balance_stub.go:37-52 | creating accounts or tokens leaves every existing balance and cursor alone |
| Lifecycle.SupplyMoves | token_stub.go:118-188 | only mint and burn change a supply, by the clamped amount, and the genesis balance moves by the same |
| Lifecycle.OfficeKeepsHolders | account_tx.go:448-492 | an added holder never takes an account past 128, a removed one never below two |
| Lifecycle.MoveKeepsHolders | account_tx.go:409-495 | joint accounts keep two holders, but for genesis accounts |
| Membership.PersonalSucceedsIff | account_tx.go:30-58 | the invoker's personal account is opened exactly when there is none and the token is issued or has metadata: empty, indexed, nothing else |
| Membership.JointSucceedsIff | account_tx.go:60-86 | a joint account is asked for exactly under the stated conditions, with a document of exactly the requested holders |
| Membership.OpenSucceedsIff | account_stub.go:84-132 | its contract opens it exactly when the address is free |
| Membership.SuspendSucceedsIff | account_stub.go:224-269 | the own personal account is suspended exactly when it is not, and the other way round |
| Membership.AddSucceedsIff | account_tx.go:130-167 | a new holder is asked for exactly by a holder, for a joint account with room and a personal account of the token whose holder is new |
| Membership.AddedIff | account_stub.go:289-313 | its contract adds exactly that person to account and index, while there is room, and changes no other account |
| Membership.HolderAdded | account_tx.go:430-461 | whatever happens between request and callback, the account of the request gets the person of the request |
| Membership.RemoveSucceedsIff | account_tx.go:171-217 | a removal needs three holders, the invoker and the person among them; oneself goes at once, another by contract |
| Membership.RemovedIff | account_stub.go:316-338 | its contract takes exactly that person from account and index, while two stay |
| Membership.HolderRemoved | account_tx.go:464-495 | the same from the request to the callback |
| Issuance.IssueSucceedsIff | token_tx.go:128-174 | token/create succeeds exactly for a free code with acceptable metadata and existing co-holder accounts, by contract for several holders, at once for one |
| Issuance.IssueGives | token_stub.go:30-77 | what is issued at once is the token of the metadata: its supply on a new genesis account, its rates with the named target or the genesis account |
| Issuance.IssuedIff | token_tx.go:482-514 | the contract issues it exactly while the code is free, with the metadata of the day |
| Issuance.IssueArrives | token_tx.go:482-514 | whatever happens in between, for the holders of the request |
| Issuance.MintSucceedsIff | token_tx.go:211-304 | minting needs a holder of the genesis account, room and a granted amount; alone at once, cut at the maximum, otherwise by contract |
| Issuance.MintArrives | token_tx.go:517-547 | the contract mints the amount granted to the request, whatever happens in between, cut at the maximum |
| Issuance.BurnSucceedsIff | token_tx.go:22-118 | burning needs a holder of the genesis account, a balance there and a granted amount within the supply; cut at the balance |
| Issuance.BurnArrives | token_tx.go:449-479 | the contract burns the amount granted to the request, cut at the balance |
| Issuance.UpdateSucceedsIff | token_tx.go:327-379 | an update needs an issued token, acceptable metadata and a known target, and sets rates and target of that token's policy as the metadata says |
| Holders.HolderLimitIff | account_tx.go:65-86 | the account a joint request ends in, whatever happens in between, has exactly the invoker and all holders of the named accounts; with personal co-holders it keeps to 128 if and only if fewer than 128 are named or the invoker is |
| Holders.PersonalLimitIff | account_tx.go:65-82 | the same of the request itself |
| Holders.GenesisLimitIff | token_tx.go:152-174 | the genesis account a token request for several ends in, whatever happens in between, has exactly the invoker and all holders of the named accounts; with personal co-holders it keeps to 128 if and only if at most 127 are named besides the invoker |
| Holders.GenesisAtOnce | token_tx.go:170-174 | a token request that stands for the invoker alone is issued at once, and the invoker alone holds its genesis account |
| Lifecycle.PayPruneForward | pay_tx.go:413-415 | no cursor moves back in a pay prune, and its own moves strictly forward |
| Lifecycle.FeePruneForward | last_pruend_fee_id_stub.go:46-81 | the same for a fee prune, through migration |
| Lifecycle.LifecycleRun | token_tx.go:369-379 | over every run: no cursor moves back, accounts, tokens and policies stay, supply is within an unchanging maximum |
| Lifecycle.PolicyStays | token_tx.go:340-368 | a token with a fee policy always has one from then on, with an existing account as its target |
| Lifecycle.ContractPayOrder | pay_tx.go:597-600 | a payment by contract files order id and memo right exactly when they are equal |
| Counterexamples.OrderIdsSwapped | pay_tx.go:598 | a run that ends with a payment by contract whose order id and memo change places |
| Counterexamples.SelfTransferLoses | balance_stub.go:219-236 | the transfer stub on two copies of one balance destroys three units |
| Counterexamples.ForeignTargetLeaks | fee_tx.go:144-146 | a run that ends with a fee/prune by a holder of the target, in which three units of one token become three of another |
| Counterexamples.EarlyPaymentVanishes | pay_stub.go:114-127 | a run that ends with a payment filed at its merchant's cursor: its four units leave the ledger and no later run credits it |
| Counterexamples.PrunedRefundGoesNegative | pay_tx.go:262-267 | a run of pay, prune, transfer and refund after which a pay/prune takes the merchant from zero to minus ten |
| Counterexamples.PageTieLoses | pay_stub.go:210-213 | a run of 901 payments at one time, of which a pay/prune credits 900, reports more, and loses the last for good |
| Counterexamples.TooManyHolders | account_tx.go:65-86 | a run in which 128 personal co-holders and the invoker make a joint account of 129 holders |
| Counterexamples.AnyNumberOfGenesisHolders | token_tx.go:152-174 | for every number above one, a run in which a token request names that many people, the invoker among them, and its genesis account gets that many holders |
| Counterexamples.LowerCaseCodeIsLost | address.go:103-106 | a valid lower-case value of the address functions that parsing does not give back |
| Addresses.ParsePrint | address.go:42-64 | a valid address comes back from its printed form if and only if its code is upper-case |
| Addresses.PrintParse | address.go:97-118 | every accepted string is valid and prints back as its upper-cased self |
| Addresses.PrintInjective | address.go:97-100 | printing is injective |
| Addresses.NewIsValid | address.go:22-39 | a new address is valid and starts with the identity of its id |
| Addresses.HolderIsId | account.go:69-72 | the holder cut out of a printed address is the address's id |
| Addresses.HolderRoundTrip | account.go:69-72 | the holder is the id the address was made from if and only if that is forty lower-case hex digits |
| Addresses.KeyInjective | account_stub.go:32-35 | addresses of the ledger model print to different keys if and only if they differ |
| Addresses.CanonicalId | account_stub.go:90 | an address made from any id, such as a transaction id, is the one made from its canonical id |
| Addresses.BuildAddress | address.go:22-39 | the buffer ends with the checksum of its first twenty bytes |
| Shim.Amount.MulRat | amount.go:62-66 | in-place product with a rational, rounded down |
| BalanceStub.Transfer | balance_stub.go:207-251 | the writes of a transfer on two separate copies: credit or lock, debit of amount and fee, both logs, the fee record |
| FeeStub.CalcFee | fee_stub.go:141-172 | the in-place computation yields the specified fee, which is not negative |
| FeeStub.GetFeeSumByTime | fee_stub.go:101-138 | the loop yields the sum, the ends and the count of the page, and whether there is more |
| PayStub.GetPaySumByTime | pay_stub.go:180-224 | the loop yields amounts and fees of the page, its ends and count, and whether there is more |
| AccountStub.CreateJointAccount | account_stub.go:84-132 | the loop writes an index entry for every holder, in any order |
| AccountStub.CollectSignableIDs | account_tx.go:65-78 | the loop over a set of addresses collects the specified signers, whatever the order |
| Transactions.SignablesAre | account_stub.go:192-209 | the signers are all holders of all addresses, and collecting fails exactly for an address of another token or of no account |
| TokenStub.Mint | token_stub.go:156-188 | the in-place cut-back adds exactly what fits under the maximum, to supply and balance alike |
| TransferHandlers.CheckTransfer | transfer_tx.go:36-170 | two different copies, the fee and the signers, or the specified errors |
| FeeHandlers.Migrate | fee_tx.go:164-183 | the cursor is the effective one, and the token's own is cleared exactly when none was stored |
| Ledger.Ledger.Invoke | main.go:22-28 | one transaction takes the ledger to the specified next state, an error changes nothing, and the invariant holds |
| Ledger.EveryLedger | main.go:22-28 | of every ledger, whatever its transactions: the invariant, two holders for joint accounts but genesis accounts, balanced refund books, and a supply that differs from the value by exactly what the transactions lost |
| Ledger.SafeLedger | pay_tx.go:393-399 | with the stated hypotheses, on every ledger supply is value and each record ever filed is credited once or still to be credited |
| Ledger.SafeLedgersExist | pay_tx.go:393-415 | a run that meets all hypotheses of SafeLedger and credits a payment with a safe prune |

## Left out

- The Fabric shim, JSON and CouchDB: kept only as a state read as it was before the transaction, an atomic commit, and a query with its meaning.
- The contract chaincode: signature collection and the choice of an expiry. It is taken to call back only for contracts it created, and a contract it has executed may call back again.
- Identity and authentication: the invoker's Kiesnet id is a parameter, and a failed authentication has no effect to model.
- The token-metadata chaincode: its answers are arbitrary values, filtered by the validation that follows.
- Parameter parsing, list and get endpoints, memo truncation, response payloads and error wording. Methods agree with the specification on success or error, not on the message.
- Rates are exact rationals num / den; parsing a policy string is not modelled.
- Created and updated times of balances, accounts and tokens, and the related id, memo and record ids of a log: nothing reads them back.
- Pay records from before the fee field: the summing loop would carry the previous record's fee over to such a record.
- Duplicate co-holder addresses are counted as addresses, not as strings of different case.
- Cursor ids with signs in their digits: ids start with a digit.
- The digest SHAKE256 is a parameter of the address functions; upper-casing is of ASCII letters.
- Underlying arrays shared by copied big integers: an amount is an integer in its own field.
