# amount-transfers-api: the two-phase transfer, modelled in Dafny

The repository is a small payments API in which users send money to users or
stores. Each account owns one wallet, which has two balances: `available`
(spendable) and `blocked` (reserved for transfers still in flight).

A transfer runs in two phases:

1. **Admission** (`TransactionService::store`) runs as one database
   transaction:
   - default the scheduling date to today;
   - validate the request (`TransactionValidator::validate`);
   - check the payer's available balance (`Transaction::checkBalance`, which
     aborts with 406 "Insufficient balance");
   - save the transaction. `store` never sets its status, and `status` is
     not mass-assignable; the tests observe a new row as `scheduled`, and the
     model takes that as the starting status;
   - move the amount from the payer's available balance to its blocked
     balance;
   - dispatch one processing job.

   Any failure leaves no trace.
2. **Processing**: the job asks an external authorizer.
   - On approval, the blocked amount leaves the payer, enters the payee's
     available balance, the transaction becomes `finalized`, and two statement
     lines (extracts) are written.
   - On denial, or when the authorizer cannot be reached, the reservation goes
     back to the payer and the transaction becomes `unauthorized`.
   - A failing notifier afterwards changes nothing.

The model has six modules, one file each:

- `Wrappers`: `Option`, `Result` and `Outcome`.
- `Wallets`:
  - the `Owner` of a wallet (a user or a store) and its `Balance` value;
  - the mutable `Wallet` row with its four in-place balance updates;
  - the three moves on a map of balances: reserve (`ReserveIn`), settle
    (`SettleIn`) and release (`ReleaseIn`);
  - `TotalFunds`, the money held by a map of balances.
- `Transactions`:
  - the transaction row and its status;
  - the balance gate `CheckBalance` and the 406 abort;
  - `Reserved`, the sum of the amounts an owner's scheduled transactions
    reserve, which the invariant is stated with.
- `TransactionValidator`: the three field rules and `Validate`. `Validate`
  passes or fails naming every failing field.
- `Workflow`:
  - the flow on values. `LedgerState` holds the names, the balances, the
    transaction rows, the extract rows and the dispatched jobs;
  - the admission (`StoreStep`) and processing (`ProcessStep`, `SettleStep`,
    `ReleaseStep`) steps;
  - the ledger invariant `Consistent`, with the lemmas showing that every step
    keeps it, conserves money, and gives the effects the tests pin down.
- `TransactionService`: the `Ledger` class.
  - It holds the accounts, each owning a `Wallet` object whose balances
    change in place, plus the transaction, extract and job sequences that the
    methods reassign.
  - `Store` is admission. `Settle`, `Release` and `Process` are the job.
  - `Store`, `Commit`, `Settle`, `Release` and `Process` are each proved
    against their `Workflow` step on the abstract value `State()` and keep
    `Valid()`. `Valid()` says three things: no two accounts share a wallet;
    the ghost `balances` mirrors the wallet rows; the abstract value is
    `Consistent`.
  - The wallet helpers `Reserve`, `Transfer` and `Restore` are proved against
    the map moves `ReserveIn`, `SettleIn` and `ReleaseIn`. They keep only the
    mirror (`Mirrors()`); the caller re-establishes the rest of `Valid()`.
- `Scenarios`: the numeric scenarios of the feature tests, replayed on the
  step functions.

How inputs are represented:

- Dates are day numbers and amounts are integers.
- The authorizer's answer (`Approved`, `Denied`, `Unreachable`) and the
  notifier's outcome are inputs of the processing step.
- The authenticated caller is the `payer` parameter of admission.
- "Today" is the `today` parameter.

Where the tests and the code disagree, the model follows the code:

- The code validates and stores `payee_id` as the id of an existing **user**
  (app/Validators/TransactionValidator.php:16, app/Models/Transaction.php:20-23).
  The tests post `wallet_payee_id`. So admission only ever creates transfers
  to users.
- The settlement step itself is defined for any owner, and
  `Scenarios.StorePayeeScenario` shows a store payee credited like a user.
- The code does not reject a transfer to oneself. The model admits it, and
  `Workflow.SettleAfterStoreNet` proves that settling it leaves every balance
  as it was.
- The code validates before it checks the balance, so a request failing both
  reports the validation error.

## Model

| member | source | states |
|---|---|---|
| Wallets.Wallet.DecreaseAvailableBalance | app/Services/TransactionService.php:44 | the wallet's available balance goes down by the amount; its blocked balance is unchanged |
| Wallets.Wallet.IncrementBlockedBalance | app/Services/TransactionService.php:45 | the wallet's blocked balance goes up by the amount; its available balance is unchanged |
| Wallets.Wallet.DecreaseBlockedBalance | tests/Feature/Http/Controllers/Api/TransactionTest.php:303-314 | on settlement or reversal, the payer's blocked balance goes down by the amount; its available balance is unchanged |
| Wallets.Wallet.IncrementAvailableBalance | tests/Feature/Http/Controllers/Api/TransactionTest.php:303-320 | the payee's available balance goes up on settlement, or the payer's on reversal; the blocked balance is unchanged |
| Wallets.ReserveIn | app/Services/TransactionService.php:44-45 | the reservation on the balance map: the owner's available balance goes down and its blocked balance up by the amount. Its effect and frame are stated by ReleaseUndoesReserve, ReserveConservesFunds and Workflow.StoreStep |
| Wallets.SettleIn | tests/Feature/Http/Controllers/Api/TransactionTest.php:303-320 | the settlement on the balance map: the payer's blocked balance goes down, then the payee's available balance goes up. Its effect and frame are stated by SettleConservesFunds and Workflow.SettleEffect |
| Wallets.ReleaseIn | tests/Feature/Http/Controllers/Api/TransactionTest.php:220-233 | the reversal on the balance map: the owner's blocked balance goes back to available. Its effect is stated by ReleaseUndoesReserve, ReleaseConservesFunds and Workflow.ReleaseEffect |
| Wallets.ReleaseUndoesReserve | tests/Feature/Http/Controllers/Api/TransactionTest.php:220-233 | releasing a reservation gives back exactly the balances from before it |
| Wallets.ReserveConservesFunds | app/Services/TransactionService.php:44-45 | a reservation keeps the total money over all wallets |
| Wallets.SettleConservesFunds | tests/Feature/Http/Controllers/Api/TransactionTest.php:303-320 | a settlement keeps the total over all wallets, also when payer and payee coincide |
| Wallets.ReleaseConservesFunds | tests/Feature/Http/Controllers/Api/TransactionTest.php:220-233 | a reversal keeps the total over all wallets |
| Transactions.CheckBalance | app/Models/Transaction.php:25-34 | passes exactly when amount plus intermediation amount is at most the payer's available balance; otherwise it aborts with 406 "Insufficient balance" |
| Transactions.BalanceOk | app/Models/Transaction.php:29-31 | the gate's condition, amount plus intermediation amount at most the available balance; CheckBalance passes iff it holds |
| Transactions.CheckBalanceReadsPayerOnly | app/Models/Transaction.php:27 | the verdict depends only on the payer's available balance, not on any other wallet |
| Transactions.ExactBalanceAccepted | app/Models/Transaction.php:31 | the comparison is strict: exactly the available balance passes, one unit more is refused with the 406 abort |
| Transactions.CheckedReservationNonNegative | app/Models/Transaction.php:29-33 | after a passed gate, reserving the amount leaves both payer balances non-negative |
| TransactionValidator.Validate | app/Validators/TransactionValidator.php:15-22 | passes iff all three rules hold; on failure the error is non-empty and names exactly the failing fields |
| TransactionValidator.PayeeRule | app/Validators/TransactionValidator.php:16 | payee_id is present, numeric and among the user ids; BadPayeeRejected and Validate state how it decides the verdict |
| TransactionValidator.DateRule | app/Validators/TransactionValidator.php:17 | scheduling_date is present, a date, and not before today; DateBoundary pins its boundary |
| TransactionValidator.AmountRule | app/Validators/TransactionValidator.php:18 | amount is present, numeric and at least 1; AmountBoundary pins its boundary |
| TransactionValidator.Failures | app/Validators/TransactionValidator.php:15-22 | a field is listed iff its rule fails, each failing field once, in the rule table's order |
| TransactionValidator.ValidateExaminesRuleFieldsOnly | app/Validators/TransactionValidator.php:15-19 | the verdict depends only on payee_id, scheduling_date and amount |
| TransactionValidator.BadPayeeRejected | app/Validators/TransactionValidator.php:16 | a missing, non-numeric or unknown payee id fails, and payee_id is reported |
| TransactionValidator.DateBoundary | app/Validators/TransactionValidator.php:17 | a date before today is reported; today and later pass the date rule |
| TransactionValidator.AmountBoundary | app/Validators/TransactionValidator.php:18 | an amount below 1 is reported; exactly 1 passes the amount rule |
| Workflow.UserIds | app/Validators/TransactionValidator.php:16 | an id is accepted as payee_id iff it belongs to a user account |
| Workflow.WithDefaultDate | app/Services/TransactionService.php:31 | an omitted date becomes today and so passes the date rule; every other field is kept |
| Workflow.Make | app/Services/TransactionService.php:35 | the row made from validated data: caller as payer, the user named by payee_id as payee, intermediation 0, scheduled; Workflow.Admission's contract pins every field |
| Workflow.Admission | app/Services/TransactionService.php:31-38 | admission succeeds iff the three rules hold (an omitted date counts as today) and the amount is covered. The row has the caller as payer, the user payee_id as payee, intermediation 0 and status scheduled. A validation failure is reported whatever the balance; otherwise a shortfall gives the 406 abort |
| Workflow.StoreStep | app/Services/TransactionService.php:29-50 | all or nothing: any failure leaves the state unchanged. Success appends the row and one job for it, moves the amount from the payer's available to its blocked balance, and changes no other wallet, name or extract |
| Workflow.Commit | app/Services/TransactionService.php:40-47 | save, reserve on the payer's wallet, dispatch one job for the new row; CommitKeepsConsistent and StoreStep's success clause state its effect |
| Workflow.ProcessStep | tests/Feature/Http/Controllers/Api/TransactionTest.php:192-411 | only approval finalizes and writes two extracts; anything else makes the row unauthorized and writes none; jobs and names are unchanged |
| Workflow.SettlementExtracts | tests/Feature/Http/Controllers/Api/TransactionTest.php:329-345 | the payer's outgoing and the payee's incoming line, each with the amount, the balance after settlement and the counterparty's name; SettleEffect states them |
| Workflow.SettleStep | tests/Feature/Http/Controllers/Api/TransactionTest.php:290-346 | the approved path; its effect is stated by SettleEffect, SettleKeepsConsistent and ProcessConservesFunds |
| Workflow.ReleaseStep | tests/Feature/Http/Controllers/Api/TransactionTest.php:192-234 | the denied path; its effect is stated by ReleaseEffect, ReleaseKeepsConsistent and ReleaseAfterStoreRestores |
| Workflow.ConsistentNonNegative | app/Models/Transaction.php:31 | in a consistent ledger no available or blocked balance is negative |
| Workflow.ScheduledIsCovered | app/Services/TransactionService.php:44-45 | a scheduled transaction is covered by its payer's blocked balance |
| Workflow.CommitKeepsConsistent | app/Services/TransactionService.php:40-47 | saving, reserving and dispatching an affordable transaction keeps the ledger invariant |
| Workflow.StoreKeepsConsistent | app/Services/TransactionService.php:29-50 | admission keeps the ledger invariant, whether it commits or not |
| Workflow.SettleKeepsConsistent | tests/Feature/Http/Controllers/Api/TransactionTest.php:290-346 | settling a scheduled transaction keeps the invariant (its reservation was there to take) |
| Workflow.ReleaseKeepsConsistent | tests/Feature/Http/Controllers/Api/TransactionTest.php:192-234 | releasing a scheduled transaction keeps the invariant |
| Workflow.ProcessKeepsConsistent | tests/Feature/Http/Controllers/Api/TransactionTest.php:192-411 | processing keeps the invariant whatever the authorizer answered |
| Workflow.SettleEffect | tests/Feature/Http/Controllers/Api/TransactionTest.php:290-346 | approval takes the amount off the payer's blocked balance and adds it to the payee's available balance. Nothing else changes, the row is finalized, and it appends the payer's outgoing and the payee's incoming lines with post-settlement balances and counterparty names |
| Workflow.ReleaseEffect | tests/Feature/Http/Controllers/Api/TransactionTest.php:192-234 | denial moves the reservation back to the payer's available balance, changes no other wallet, makes the row unauthorized and writes no extract |
| Workflow.StoreConservesFunds | app/Services/TransactionService.php:44-45 | admission keeps the total money over all wallets |
| Workflow.ProcessConservesFunds | tests/Feature/Http/Controllers/Api/TransactionTest.php:293-327 | processing keeps the total money over all wallets |
| Workflow.NotifierHasNoEffect | tests/Feature/Http/Controllers/Api/TransactionTest.php:353-411 | the notifier's outcome does not change the result of processing |
| Workflow.UnreachableAuthorizerIsDenial | tests/Feature/Http/Controllers/Api/TransactionTest.php:241-283 | an unreachable authorizer has exactly the effect of a denial, which is the release |
| Workflow.ReleaseAfterStoreRestores | tests/Feature/Http/Controllers/Api/TransactionTest.php:192-234 | admission then denial gives back every balance from before admission, keeps the row as unauthorized and writes no extract |
| Workflow.SettleAfterStoreNet | tests/Feature/Http/Controllers/Api/TransactionTest.php:290-327 | admission then approval leaves the payer down by the amount with blocked as before and the payee up by the amount. Nothing else changes and money is conserved; a transfer to oneself changes nothing |
| TransactionService.Ledger.Store | app/Services/TransactionService.php:26-51 | the result and the new abstract state are those of StoreStep, and the ledger invariant holds afterwards |
| TransactionService.Ledger.constructor | tests/Feature/Http/Controllers/Api/TransactionTest.php:139-140 | a ledger over accounts that each own one distinct wallet with nothing blocked, no transaction, extract or job yet, satisfies `Valid()` |
| TransactionService.Ledger.Commit | app/Services/TransactionService.php:40-47 | the new abstract state is the commit of the row: saved, reserved on the payer's wallet, one job dispatched |
| TransactionService.Ledger.Reserve | app/Services/TransactionService.php:42-45 | the payer's wallet row has moved the amount from available to blocked, and no other row changed |
| TransactionService.Ledger.Transfer | tests/Feature/Http/Controllers/Api/TransactionTest.php:303-320 | the payer's row lost the amount from blocked, the payee's row gained it in available, and no other row changed |
| TransactionService.Ledger.Restore | tests/Feature/Http/Controllers/Api/TransactionTest.php:220-233 | the payer's row has moved the amount from blocked back to available, and no other row changed |
| TransactionService.Ledger.Settle | tests/Feature/Http/Controllers/Api/TransactionTest.php:290-346 | the new abstract state is SettleStep's, and the invariant holds |
| TransactionService.Ledger.Release | tests/Feature/Http/Controllers/Api/TransactionTest.php:192-234 | the new abstract state is ReleaseStep's, and the invariant holds |
| TransactionService.Ledger.Process | tests/Feature/Http/Controllers/Api/TransactionTest.php:192-411 | the new abstract state is ProcessStep's for the authorizer's and notifier's outcomes, and the invariant holds |
| Scenarios.ScheduledTransferScenario | tests/Feature/Http/Controllers/Api/TransactionTest.php:135-185 | 100 available, 60 sent: the payer is at 40 available and 60 blocked, the payee at 0 and 0, one scheduled row dated today, one job |
| Scenarios.DeniedTransferScenario | tests/Feature/Http/Controllers/Api/TransactionTest.php:192-283 | 1000 available, 150 denied or unauthorized by failure: the balances are back at 1000/0 and 0/0, the row is unauthorized, no extract |
| Scenarios.ApprovedTransferScenario | tests/Feature/Http/Controllers/Api/TransactionTest.php:290-411 | 1500 available, 300 approved, with or without the notifier: 1200/0 and 300/0, a finalized row, extracts carrying 1200 and 300 with the counterparty names |
| Scenarios.InsufficientBalanceScenario | tests/Feature/Http/Controllers/Api/TransactionTest.php:61-77 | nothing available, 100 requested: 406 "Insufficient balance", state unchanged |
| Scenarios.UnknownPayeeScenario | tests/Feature/Http/Controllers/Api/TransactionTest.php:84-102 | payee -1: refused on payee_id alone, state unchanged |
| Scenarios.AmountTooLowScenario | tests/Feature/Http/Controllers/Api/TransactionTest.php:109-128 | amount 0: refused on amount alone, state unchanged |
| Scenarios.StorePayeeScenario | tests/Feature/Http/Controllers/Api/TransactionTest.php:418-474 | a store payee is credited like a user: 1200/0 and 300/0 with both extract lines |

## Left out

- HTTP and framework plumbing are not modelled:
  - routing and the controller's mapping of exceptions to responses;
  - the JSON resource;
  - the empty `index`;
  - `fresh()`, and so the re-read row `store` returns.

  Admission returns the saved row as it was built.
- Authentication, roles and permissions are not modelled (401, 403 and the
  store-payer "Resource unavailable" case). The authenticated caller is the
  `payer` parameter.
- Persistence machinery is not modelled. `DB::transaction` is represented by
  the all-or-nothing `StoreStep`. Eloquent relations become map lookups keyed
  by `Owner`.
- The processing job's source, and the source of the Wallet and Extract
  models, are not part of this model. The processing step and the four wallet
  updates are modelled from the behaviour the feature tests assert. The
  authorizer's and notifier's HTTP calls become the `AuthorizerOutcome` and
  `NotifierOutcome` inputs.
- Queue dispatch mode (sync against database) is not modelled. Dispatch
  appends the job's transaction index to `jobs`, and processing is a separate
  call.
- Concurrency and row locking are not modelled. The methods run one at a time.
- The extract description text is not modelled. The fixed prefix comes from
  an enum that is not part of this model, so an extract line records the
  counterparty's name only.
- Decimal amounts are not modelled. Laravel's `numeric` admits them; amounts
  here are integers and dates are day numbers.
- The seeder, the interface-only contracts and the User model's field settings
  are not modelled. They hold no logic.
- TransactionService.Ledger.Process: requires the transaction to still be
  scheduled. The processing job is not modelled, so re-running it on a
  finished transaction and holding a transfer until its scheduling date are
  not covered.
- TransactionService.Ledger.Store: requires the caller to own a wallet. The
  source would fail on the missing wallet inside the database transaction,
  which rolls back. The model does not represent that failure.
- TransactionService.Ledger.constructor: the accounts are fixed when the
  ledger is built, and every wallet starts with nothing blocked.
  - Accounts and wallets are created outside the transfer flow (registration,
    factories, the seeder).
  - Blocked funds without a scheduled transaction have no origin in this flow.
- Workflow.Admission: the intermediation amount is always 0. It is not
  mass-assignable, and nothing in `TransactionService::store` or the
  `Transaction` model sets it. `CheckBalance` still adds it, so the gate stays
  general.
- Workflow.Admission: assumes that every user owns exactly one wallet and that
  no user is soft-deleted, because the payee rule's user ids are read from the
  accounts that own a wallet (`UserIds(s.balances.Keys)`).
  - In the source, `exists:users,id` queries the users table. That table also
    holds users without a wallet (the tests create some) and soft-deleted
    users, since the rule ignores the soft-delete scope.
  - A `payee_id` naming such a user passes validation there, and admission
    commits, because only the payer's wallet is touched.
  - The model cannot represent that state.
- Workflow.WithDefaultDate: one `today` serves both the date default and the
  date rule, so an omitted date always passes the date rule.
  - The source reads the clock twice: `Carbon::now()` for the default and
    `date('Y-m-d')` in the validator.
  - A request that straddles midnight can fail the date rule there.
  - The model does not represent that.
