# MyBankUml funds movement, modelled in Dafny

This project models the part of the MyBankUml bank (`src/main/java/bank`,
the BigDecimal and repository variant) that moves money, and proves
properties of it. It covers:

- **Accounts.** `Account` with its `Check` and `Saving` variants: opening
  validation, `credit`, `canDebit`, `debit`, the transaction history, and
  the savings account's monthly withdrawal counter (capped at 5) and 0.1%
  interest.
- **Status records.** `Transaction` (PENDING, then COMPLETED or FAILED)
  and `ETransferData` (PENDING, then SENT or FAILED).
- **Recipients.** `Recipient`, a saved e-transfer payee. Its name, e-mail
  and phone are validated with the exact character classes of Java's
  `String.isBlank`, `String.trim` and the regular-expression class `\s`.
- **Internal transfers.** `TransferFunds.transferFunds` moves money between
  two accounts of one customer.
- **E-transfers.** `ETransfer.sendETransfer` sends money to a saved
  recipient, capped at 5000 per transfer and 10000 per day. The daily use
  is the sum of today's COMPLETED transactions that have a source owned by
  the customer and no destination account.
- **Repositories.** The four in-memory repositories, which are hash maps
  from identifier to entity with filter queries.
- **Receipts.** `Receipt.fromTransaction`.
- **The demo run.** The walk-through that `Main` performs: two transfers
  of 200, then one e-transfer of 150.

How the Java is represented:

- **Modules.** One module per source package part. `Common` holds the
  shared types, `JavaText` the string primitives, and `Ids` the identifier
  generator. `Ledger` holds Account, Check, Saving and Transaction, and
  `LedgerProps` the debit-policy properties. The rest are `Recipients`,
  `ETransferRecords`, `Repos`, `Transfers`, `ETransfers`, `Receipts` and
  `Scenarios`.
- **Classes.** Objects whose fields change are classes, with `modifies`
  frames. Account, Check and Saving are one class `Ledger.Account` whose
  `kind` is `Checking` or `Savings(count, limit)`. Each debit and credit
  method is tied to a function on the money state `Funds`, and the
  properties are proved about those functions.
- **Exceptions.** An exception is an `Err`/`Fail` value carrying the
  source's message. A returned FAILED record is an ordinary result.
  `IllegalArgumentWithAmount(prefix, amount)` stands for a message that
  ends in a rendered decimal. `NullPointer` stands for the one
  `NullPointerException` the code can raise.
- **Nulls.** A nullable argument is `Option<T>` or a nullable reference
  `T?`.
- **Money and time.** Money is `real`: BigDecimal arithmetic is exact
  decimal arithmetic, so no rounding is involved. The clock is a parameter
  `now`, in nanoseconds. A day is `NanosPerDay` of them.
- **Identifiers.** `UUID.randomUUID()` is a counter (`Ids.IdGenerator`).
  Its identifiers `Uid(n)` are proved distinct, and the service invariants
  keep every identifier not yet issued out of the transaction repository.

Two behaviours of the code that the model keeps as written:

- Both e-transfer caps throw a plain `IllegalArgumentException`
  (ETransfer.java:167-178), and the model returns `IllegalArgument` for both.
- With a blank description, TransferFunds.java:55 dereferences a missing
  account before the null checks at TransferFunds.java:58-64; the model
  returns `NullPointer` in that case.

## Model

| member | source | states |
|---|---|---|
| Ledger.AmountValidation | src/main/java/bank/Account.java:61-65 | an amount passes exactly when it is strictly positive; otherwise the failure carries the "Amount must be positive and non zero." message |
| Ledger.DebitAllowed | src/main/java/bank/Saving.java:40-52 | canDebit fails exactly on a non-positive amount; it answers true exactly when the balance covers the amount and, for a savings account, the count is below the limit |
| Ledger.Debited | src/main/java/bank/Saving.java:56-68 | debit succeeds exactly when canDebit is true; success lowers the balance by the amount, keeps the variant and keeps the account invariant; a non-positive amount fails with the invalid-amount message, and any other refusal carries the variant's own message |
| Ledger.Credited | src/main/java/bank/Account.java:68-71 | credit succeeds exactly for a positive amount, and otherwise fails with the invalid-amount message; it adds the amount and changes nothing else, so a non-negative balance stays non-negative |
| Ledger.WithInterest | src/main/java/bank/Saving.java:71-78 | a positive balance is multiplied by 1.001; a zero balance gives zero interest, which credit rejects |
| Ledger.Transaction.Create | src/main/java/bank/Transaction.java:43-68 | a null initiator, a non-positive amount, or no account at all is rejected with its own message and draws no id; otherwise a fresh PENDING transaction with no reason, the given fields, "" for a null description and a newly issued id |
| Ledger.Transaction.constructor | src/main/java/bank/Transaction.java:58-67 | a new transaction is PENDING with no failure reason, and its description is "" when none is given |
| Ledger.Transaction.MarkCompleted | src/main/java/bank/Transaction.java:71-74 | the status becomes COMPLETED and the reason is cleared |
| Ledger.Transaction.MarkFailed | src/main/java/bank/Transaction.java:77-80 | the status becomes FAILED with the reason, or "" for a null one, so a FAILED transaction always has a reason |
| Ledger.Transaction.IsSuccessful | src/main/java/bank/Transaction.java:83-85 | true exactly when the status is COMPLETED |
| Ledger.OpeningValidation | src/main/java/bank/Account.java:32-40 | an account opens exactly when its ID is neither null nor blank, the customer exists and the opening balance is not negative; the checks run in that order and each failure carries its own message |
| Ledger.Account.constructor | src/main/java/bank/Account.java:42-45 | the balance is the opening balance, the history is empty, and the account invariant holds |
| Ledger.Account.NewCheck | src/main/java/bank/Check.java:8-10 | fails exactly when Account's validation fails, with its message; otherwise it gives a checking account with the opening balance and an empty history |
| Ledger.Account.NewSaving | src/main/java/bank/Saving.java:22-29 | the same validation; a new savings account starts with count 0 and limit 5 |
| Ledger.Account.AccountType | src/main/java/bank/Check.java:14-17 | "CHECKING" for a checking account and "SAVINGS" for a savings account |
| Ledger.Account.GetTransactions | src/main/java/bank/Account.java:49-51 | returns the history and changes nothing |
| Ledger.Account.AddTransaction | src/main/java/bank/Account.java:54-58 | appends a non-null transaction at the end and ignores null; nothing is ever removed |
| Ledger.Account.ValidateAmount | src/main/java/bank/Account.java:61-65 | agrees with AmountValidation |
| Ledger.Account.CanDebit | src/main/java/bank/Account.java:74-77 | answers DebitAllowed of the current state and changes nothing |
| Ledger.Account.Credit | src/main/java/bank/Account.java:68-71 | on success the new state is Credited of the old state; on failure the state is left as it was |
| Ledger.Account.Debit | src/main/java/bank/Account.java:80-86 | on success the new state is Debited of the old state; on refusal balance and count are left as they were |
| Ledger.Account.ApplyMonthlyInterest | src/main/java/bank/Saving.java:71-78 | the new state is WithInterest of the old one, or the state is left alone when credit throws |
| Ledger.Account.ResetMonthlyWithdrawalCount | src/main/java/bank/Saving.java:81-83 | the count becomes 0 and the limit is kept |
| Ledger.Account.SetMonthlyWithdrawalCount | src/main/java/bank/Saving.java:91-93 | the count becomes the given value and the limit is kept |
| LedgerProps.DebitAfterCanDebit | src/main/java/bank/TransferFunds.java:74-91 | after canDebit answers true, the debit that follows cannot throw |
| LedgerProps.DebitPolicy | src/main/java/bank/Account.java:80-86 | on a valid account a debit succeeds exactly when the amount is positive, the balance covers it and the savings count is below 5; success never drives the balance negative |
| LedgerProps.CheckingDebitOnlyBalance | src/main/java/bank/Check.java:5-19 | a checking account debits any amount its balance covers, with no count or cap, and only the balance changes |
| LedgerProps.SavingsCapRefuses | src/main/java/bank/Saving.java:46-48 | at or past the limit, canDebit is false whatever the balance, and debit throws the savings message |
| LedgerProps.SavingsDebitEffect | src/main/java/bank/Saving.java:56-68 | below the limit with enough balance, the debit lowers the balance by the amount and raises the count by exactly one; otherwise it throws |
| LedgerProps.DebitAllEffect | src/main/java/bank/Saving.java:56-68 | a run of successful debits lowers the balance by their sum, keeps the variant, adds one to the count per debit and keeps the invariant |
| LedgerProps.FifthWithdrawalExhaustsMonth | src/main/java/bank/Saving.java:46-48 | from a new savings account, after five successful debits every further canDebit is false |
| LedgerProps.ResetRestoresWithdrawals | src/main/java/bank/Saving.java:81-83 | after a reset, canDebit depends on the balance alone again |
| LedgerProps.CreditThenDebitChecking | src/main/java/bank/Account.java:68-86 | on a checking account, a debit of the same amount undoes a credit |
| LedgerProps.InterestOnZeroBalanceFails | src/main/java/bank/Saving.java:71-78 | interest on an empty savings account fails with the invalid-amount message |
| JavaText.TrimIdempotent | src/main/java/bank/Recipient.java:39-41 | trimming a stored field again leaves it unchanged |
| JavaText.TrimIsTrimmedText | src/main/java/bank/Recipient.java:39-41 | what trim returns neither starts nor ends with a character trim removes |
| JavaText.TrimmedTextIsFixed | src/main/java/bank/Recipient.java:39-41 | trim leaves a string unchanged exactly when the string is trimmed text |
| JavaText.TrimShape | src/main/java/bank/Recipient.java:39-41 | trim removes a run of removable characters from each end and keeps the middle unchanged |
| JavaText.SplitAtSign | src/main/java/bank/Recipient.java:25 | splitting at the first '@' gives back the string; no '@' means no split |
| JavaText.EmailShapedIffPattern | src/main/java/bank/Recipient.java:25 | the scan used for validation accepts exactly the strings that match the e-mail pattern |
| JavaText.SplitAtOnlyAtSign | src/main/java/bank/Recipient.java:25 | a string with a single '@' splits around that '@' |
| Ids.UidInjective | src/main/java/bank/Transaction.java:58 | different counter values give different identifiers |
| Ids.IssueKeepsUnissued | src/main/java/bank/Transaction.java:58 | after an identifier is issued and stored, no identifier still to come is in use |
| Ids.IdGenerator.Fresh | src/main/java/bank/Transaction.java:58 | returns the identifier for the current counter and advances the counter by one |
| Recipients.RecipientInfoValidation | src/main/java/bank/Recipient.java:55-69 | passes exactly when the name and e-mail are not blank, the trimmed e-mail matches the pattern, and the phone is null, blank or a trimmed match of its pattern; the first failing check gives the message |
| Recipients.StoredPhone | src/main/java/bank/Recipient.java:41 | a null or blank phone is stored as null; any other phone is stored trimmed |
| Recipients.ValidatedContactIsValid | src/main/java/bank/Recipient.java:35-41 | whatever passes validation is stored as trimmed contact data that matches the patterns |
| Recipients.Recipient.Create | src/main/java/bank/Recipient.java:29-42 | a null owner or invalid data is rejected with its message and draws no id; otherwise it gives a valid recipient with a newly issued id, the owner, and the trimmed name, e-mail and phone |
| Recipients.Recipient.UpdateRecipientInfo | src/main/java/bank/Recipient.java:45-52 | invalid data leaves all three fields unchanged; valid data is stored trimmed as at construction; the recipient stays valid |
| Recipients.Recipient.IsOwnedBy | src/main/java/bank/Recipient.java:72-74 | true exactly when the customer is the owner fixed at construction |
| ETransferRecords.ETransferData.Create | src/main/java/bank/ETransferData.java:36-53 | a null transaction or a null recipient is rejected with its message; otherwise a fresh PENDING record with no reason and "" for a null message |
| ETransferRecords.ETransferData.MarkSent | src/main/java/bank/ETransferData.java:55-58 | the status becomes SENT and the reason is cleared |
| ETransferRecords.ETransferData.MarkFailed | src/main/java/bank/ETransferData.java:60-63 | the status becomes FAILED with the reason, or "" for a null one |
| ETransferRecords.ETransferData.IsSent | src/main/java/bank/ETransferData.java:66-68 | true exactly when the record is SENT and its transaction is COMPLETED |
| ETransferRecords.ETransferData.Amount | src/main/java/bank/ETransferData.java:71-73 | always the wrapped transaction's amount |
| Repos.CollectValues | src/main/java/bank/InMemoryAccountRepo.java:43-48 | the loop over the stored values keeps exactly the values that pass the filter, each once when no value is stored twice |
| Repos.AccountRepo.FindByID | src/main/java/bank/InMemoryAccountRepo.java:17-22 | null for a null or unknown ID; otherwise the account stored under that ID, whose own ID it is |
| Repos.AccountRepo.Save | src/main/java/bank/InMemoryAccountRepo.java:25-32 | null is refused with the map unchanged; otherwise the account's ID maps to it, no other key changes, and a lookup returns it |
| Repos.AccountRepo.FindByCustomer | src/main/java/bank/InMemoryAccountRepo.java:35-49 | exactly the stored accounts of that customer, each once; nothing for a null customer |
| Repos.AccountRepo.FindAll | src/main/java/bank/InMemoryAccountRepo.java:52-54 | every stored account, each once |
| Repos.TransactionRepo.FindByID | src/main/java/bank/InMemoryTransactionRepo.java:18-25 | null for a null or unknown ID; otherwise the transaction stored under it |
| Repos.TransactionRepo.Save | src/main/java/bank/InMemoryTransactionRepo.java:28-34 | null is refused; otherwise the transaction's ID maps to it and no other key changes |
| Repos.TransactionRepo.FindByAccount | src/main/java/bank/InMemoryTransactionRepo.java:37-51 | exactly the stored transactions whose source or destination is that account, each once; nothing for null |
| Repos.TransactionRepo.FindAll | src/main/java/bank/InMemoryTransactionRepo.java:54-56 | every stored transaction, each once |
| Repos.TransactionRepo.FindByCustomerAndDateRange | src/main/java/bank/InMemoryTransactionRepo.java:61-84 | exactly the stored transactions the customer initiated with from <= createdAt <= to, both ends included, each once; nothing when any argument is null |
| Repos.RecipientRepo.Save | src/main/java/bank/InMemoryRecipientRepo.java:17-22 | null is refused; otherwise the recipient's ID maps to it and no other key changes |
| Repos.RecipientRepo.FindByID | src/main/java/bank/InMemoryRecipientRepo.java:25-30 | null for a null or unknown ID; otherwise the recipient stored under it |
| Repos.RecipientRepo.FindByOwner | src/main/java/bank/InMemoryRecipientRepo.java:33-45 | exactly the stored recipients owned by that customer, each once; nothing for null |
| Repos.RecipientRepo.Delete | src/main/java/bank/InMemoryRecipientRepo.java:48-53 | removes that recipient's key and no other, so a later lookup gives null; null is ignored |
| Repos.RecipientRepo.FindAll | src/main/java/bank/InMemoryRecipientRepo.java:57-59 | every stored recipient, each once |
| Repos.ETransferRepo.Save | src/main/java/bank/InMemoryETransferRepo.java:17-22 | null is refused; otherwise the record's ID maps to it and no other key changes |
| Repos.ETransferRepo.FindByID | src/main/java/bank/InMemoryETransferRepo.java:25-30 | null for a null or unknown ID; otherwise the record stored under it |
| Repos.ETransferRepo.FindByCustomer | src/main/java/bank/InMemoryETransferRepo.java:33-46 | exactly the records whose transaction the customer initiated, each once; nothing for null |
| Repos.ETransferRepo.FindByRecipient | src/main/java/bank/InMemoryETransferRepo.java:49-61 | exactly the records sent to that recipient, each once; nothing for null |
| Repos.ETransferRepo.FindAll | src/main/java/bank/InMemoryETransferRepo.java:65-67 | every stored record, each once |
| Transfers.TransferRequestValidation | src/main/java/bank/TransferFunds.java:29-47 | passes exactly when the customer exists, both IDs are non-blank and different, and the amount is positive; each failing check in source order gives its own message |
| Transfers.AccountsCheck | src/main/java/bank/TransferFunds.java:50-72 | passes exactly when both accounts exist and the customer owns both; a missing account with a blank description is a NullPointerException, and otherwise "not found" with the ID |
| Transfers.TransferFunds.Create | src/main/java/bank/TransferFunds.java:12-24 | a missing repository is rejected with its message; otherwise the service holds both repositories |
| Transfers.TransferFunds.Transfer | src/main/java/bank/TransferFunds.java:27-112 | a rejected request changes nothing. A refused debit stores one FAILED transaction with the fixed reason and leaves balances alone. Otherwise exactly one COMPLETED transaction is stored: the amount moves from source to destination (their sum is conserved), it is appended to both histories, and no other account changes |
| ETransfers.NowIsToday | src/main/java/bank/ETransfer.java:186-188 | today's range from midnight to the day's last instant contains the present moment |
| ETransfers.Weight | src/main/java/bank/ETransfer.java:198-209 | a transaction counts its full amount exactly when it is COMPLETED, has a source owned by the customer and has no destination; PENDING and FAILED ones, internal transfers (with a destination), and ones with a missing or foreign source count nothing |
| ETransfers.SumOutgoingRemove | src/main/java/bank/ETransfer.java:195-210 | the daily total does not depend on the order the transactions are visited in |
| ETransfers.SumWeightsIsSumOutgoing | src/main/java/bank/ETransfer.java:193-212 | over a list without repeats, the loop's running total equals the total over the set of today's transactions |
| ETransfers.RemainingDailyLimit | src/main/java/bank/ETransfer.java:150-160 | the remaining limit is never negative; it is 10000 less today's use when positive, and zero exactly when today's use has reached 10000 |
| ETransfers.UsedAfterRecording | src/main/java/bank/ETransfer.java:183-213 | storing a new transaction of the customer, stamped today, raises today's use by exactly what that transaction counts |
| ETransfers.RemainingDropsByAmount | src/main/java/bank/ETransfer.java:156-159 | the arithmetic half of "the remaining limit drops by exactly the amount": with the floor at zero, an amount within what is left lowers what is left by exactly that amount |
| ETransfers.ETransferRequestValidation | src/main/java/bank/ETransfer.java:53-67 | passes exactly when the customer exists, both IDs are non-blank and the amount is positive; each failing check in source order gives its own message |
| ETransfers.LimitCheck | src/main/java/bank/ETransfer.java:164-179 | passes exactly when the amount is at most 5000 and at most the remaining limit; the per-transfer cap is checked first, and the daily failure carries the remaining amount |
| ETransfers.PartiesCheck | src/main/java/bank/ETransfer.java:73-91 | passes exactly when the account and the recipient exist and both belong to the customer; a missing recipient is reported with the source account's ID |
| ETransfers.ETransfer.Create | src/main/java/bank/ETransfer.java:24-46 | a missing repository is rejected with its message, in source order; otherwise the service holds all four |
| ETransfers.ETransfer.CalculateUsedETransferAmountToday | src/main/java/bank/ETransfer.java:183-213 | the loop's total is today's use: the amounts of the customer's COMPLETED transactions created today that have a source owned by the customer and no destination |
| ETransfers.ETransfer.GetRemainingDailyETransferLimit | src/main/java/bank/ETransfer.java:150-160 | a null customer is rejected; otherwise it returns the remaining daily limit |
| ETransfers.ETransfer.EnforceETransferAmountLimits | src/main/java/bank/ETransfer.java:164-179 | agrees with LimitCheck against the remaining daily limit |
| ETransfers.ETransfer.SendETransfer | src/main/java/bank/ETransfer.java:49-145 | a rejected request changes nothing. Otherwise one transaction with no destination is stored. When canDebit refuses, it is FAILED, a FAILED record is returned but not stored, and the remaining limit is unchanged. Otherwise it is COMPLETED, the source loses the amount, no account gains anything, the record is SENT and stored, and the remaining limit drops by exactly the amount |
| Receipts.AccountIDOf | src/main/java/bank/Receipt.java:73-74 | absent exactly for a missing account, else that account's ID |
| Receipts.FromTransaction | src/main/java/bank/Receipt.java:55-89 | null is rejected; otherwise the receipt copies the transaction's ID, initiator, description and amount; an account ID is absent exactly when its account is; it is successful exactly when COMPLETED; the reason is the transaction's, or "" |
| Receipts.ReceiptReportsOutcome | src/main/java/bank/Receipt.java:80-82 | a COMPLETED transaction gives a successful receipt with an empty reason, and a FAILED one gives an unsuccessful receipt with the recorded reason |
| Scenarios.SampleRecipientIsValid | src/main/java/bank/Main.java:41 | the demo payee's name, e-mail and phone pass validation |
| Scenarios.SetUp | src/main/java/bank/Main.java:12-48 | the two accounts, 1000 checking and 500 savings, and the payee are saved, both services are consistent, and nothing is recorded yet |
| Scenarios.MoveTwoHundred | src/main/java/bank/Main.java:55-63 | one transfer of 200 completes, moves 200 from checking to savings and leaves the day's e-transfer use alone |
| Scenarios.TransferTwice | src/main/java/bank/Main.java:55-91 | both transfers of 200 complete, leaving 600 in checking and 900 in savings |
| Scenarios.SendOneFifty | src/main/java/bank/Main.java:111-121 | the e-transfer of 150 is sent, takes 150 from checking, leaves savings alone, and leaves 9850 of the daily limit |
| Scenarios.Walkthrough | src/main/java/bank/Main.java:24-121 | the whole demo ends with 450 in checking and 900 in savings, both transfers COMPLETED, the e-transfer SENT and 9850 left for the day |

## Left out

- Null `BigDecimal` amounts and opening balances: amounts are plain `real`, so the null half of the amount checks is not represented.
- `UUID.randomUUID()` is replaced by a counter. Identifiers are distinct by construction, not merely with high probability.
- `LocalDateTime.now()` and `LocalDate.now()` are a parameter `now`. Each call reads the clock once, so a call that crosses midnight is not modelled. The day is a fixed 24-hour span, with no time zone or daylight saving.
- The IllegalArgumentException catch blocks at TransferFunds.java:105-109 and ETransfer.java:134-141 are not modelled as paths. In this sequential model, debit and credit cannot throw once canDebit has said yes (LedgerProps.DebitAfterCanDebit), so those branches are proved unreachable rather than modelled.
- Transfers.TransferFunds.Transfer and ETransfers.ETransfer.SendETransfer: "marked exactly once" is stated through the final status and reason of the returned transaction, not as a count of calls.
- ETransfers.LimitCheck: the daily-limit message is kept as its text prefix plus the remaining amount. The decimal rendering of BigDecimal.toString is not modelled.
- Receipts.FromTransaction: the reference number (a random UUID) and the issue time are parameters.
- Receipt.toString, Recipient.toString, and the Lombok getters other than those used are not modelled, because they only format text.
- Ids: the identifier invariant (no identifier still to be issued is in use) is kept for the transaction repository only. E-transfer record IDs come from the same counter, but their repository is not part of that invariant.
- Ledger.Account.Debit: Saving.debit calls canDebit and then super.debit, which runs the overriding canDebit again. Both runs give the same answer on the same state, so the model checks once.
- Customer identity: a customer is an opaque value compared by equality. The Customer class the code uses is not part of this model.
- Concurrency: the code has none, and the repositories are unsynchronised hash maps.
- The database classes, the HTTP controllers, the web UI, Bank, Branch and the superseded double-based classes are not part of this model.
