# Secure Payment Gateway — a Dafny model of the banking core

This project models the rules of an online-banking application and proves them. The application has a Java Spring backend over four database tables and a React client.

## The backend

- **Accounts and ledger.**
  - Registration, login, deposits, withdrawals and transfers (`AccountService`).
  - A transaction's life: fraud screening, then status FLAGGED, FAILED, COMPLETED or PENDING, balance movement, categorising and disputes (`TransactionService`).
  - Failures change nothing. A transfer preserves the bank's total. A balance covers every withdrawal.
- **Fraud screening** (`FraudDetection`). Three rules run in a fixed priority order: an unusual amount, an unusual location and a rapid succession. The first rule that fires gives the reason.
- **Text rules** (`TransactionText`, `TransactionExport`).
  - The keyword categoriser and the merchant-name extractor.
  - The partial CSV quoting of RFC 4180 section 2 and the partial string escaping of RFC 8259 section 7.
  - The CSV and JSON exports built from them.
  - The categoriser's merchant table is a `Map.of`, whose visiting order is unspecified. That order is a parameter, so when two merchants match, any of their categories may win.
- **Notifications** (`NotificationService`, `PreferenceController`, `ScheduledTasks`).
  - Every notification is saved first. It is then routed to push, e-mail and SMS according to the account's preference record, which is created with defaults on first use.
  - The preference endpoints read the record (get-or-create) and copy the eleven flags and thresholds of an update onto it.
  - Two scheduled jobs run on the backend: the daily summary for accounts active in the last day, and the reminder for FLAGGED transactions older than a day.
- **One-time codes** (`TwoFactor`). A six-digit code is drawn from random bytes and expires after five minutes. It is accepted once.
- **Queries** (`TransactionRepository`, `NotificationRepository`). The JPQL and derived queries are filter, group and sort functions over the table's rows.
- **Controllers** (`AccountController`). Registration validation and status codes, login bookkeeping, and the amount guards in front of the service.

### How the backend state is modelled

- The tables are one value, `Store.Tables`.
- The `Store.Db` class holds them and keeps `Store.Consistent` invariant.
- Each service operation is a method on a `Db`. It is proved to leave the tables exactly as a specification function of the old tables says. The properties are lemmas about those functions.
- Amounts are whole cents.
- The clock, random bytes, UUID text and the password encoder are parameters.
- Outgoing pushes, e-mails and text messages are appended to an outbox.

## The client

Each screen is a state datatype with transition functions, plus a class whose fields are the component's state variables and whose methods are its handlers. Each method is proved to follow its transition. The screens are:

- the notification bell and the notifications page (`NotificationBell`, `NotificationsPage`);
- the live WebSocket feed (`LiveFeed`);
- the settings page (`NotificationSettings`);
- the transaction history with its filters, query parameters, paging and disputes (`TransactionHistory`);
- the analytics trend (`TransactionAnalytics`);
- the account screens (`AccountDisplay`, `AccountScreens`).

JavaScript's semantics are kept where they matter. An empty string and 0 are falsy. `%` keeps the dividend's sign. A missing field reads as `undefined`, and a failed `parseFloat` gives NaN.

## Where the model follows the code, not the intent

- The bell does not de-duplicate live notifications. Its unread counter is a separate number that can drift from the list (`NotificationBell.NoDeduplication`, `NotificationBell.CounterDrifts`).
- The rapid-succession rule fires at three recent transactions, as the code compares with `>= 3`.
- The average in the unusual-amount rule is NULL for a sender with no transactions. Multiplying it throws, so screening, and with it `createTransaction`, fails for such a sender.
- `createTransaction` never sets the transaction's address. The location rule therefore fires for every sender with a recorded login address (`FraudDetection.NoAddressIsUnusual`).
- `createNotification` never sets `additionalData`. In every flow the services run, a TRANSACTION e-mail therefore depends on `emailForTransactions` alone (`NotificationService.EmailIgnoresThresholdWithoutData`).
- `findByUsername` is a single-result query. When several accounts share a username it throws, and the model gives an error.

## Files

| file | modules |
|---|---|
| wrappers.dfy, text.dfy, sequences.dfy | `Option`/`Result`; ASCII case mapping, substring search and splitting; sums, filters and a stable sort over sequences |
| entities.dfy | the rows of the four tables, the `Account` object with its constructors and setters, the default preference record |
| ledger.dfy, store.dfy | balances and the bank's total; the tables, their invariant and the `Db` class |
| transaction_repository.dfy, notification_repository.dfy | the queries |
| fraud_detection.dfy, transaction_text.dfy, transaction_service.dfy, transaction_export.dfy | transactions |
| account_service.dfy, account_controller.dfy | accounts |
| notification_service.dfy, preference_controller.dfy, scheduled_tasks.dfy, two_factor.dfy | notifications and codes |
| client_notifications.dfy, live_feed.dfy, notification_settings.dfy, transaction_history.dfy, transaction_analytics.dfy, account_display.dfy | the client |

## Model

Paths are relative to the repository root.

| member | source | states |
|---|---|---|
| AccountEntity.GeneratedAccountNumber | online-banking-backend/src/main/java/com/bankapp/onlinebanking/entity/Account.java:71-74 | The generated number is "ACC" followed by the decimal digits of the clock reading, and nothing else. |
| AccountEntity.AccountObject.constructor | online-banking-backend/src/main/java/com/bankapp/onlinebanking/entity/Account.java:46-50 | The no-argument constructor leaves id, holder, username and password unset and gives balance 0, type SAVINGS and a generated number. |
| AccountEntity.AccountObject.WithHolder | online-banking-backend/src/main/java/com/bankapp/onlinebanking/entity/Account.java:52-57 | The two-argument constructor stores the holder name and balance, sets type SAVINGS and generates the number. |
| AccountEntity.AccountObject.Full | online-banking-backend/src/main/java/com/bankapp/onlinebanking/entity/Account.java:60-68 | The six-argument constructor stores every argument unchanged and generates nothing. |
| AccountEntity.AccountObject.SetId | online-banking-backend/src/main/java/com/bankapp/onlinebanking/entity/Account.java:80-82 | Changes the id and no other field. |
| AccountEntity.AccountObject.SetAccountHolderName | online-banking-backend/src/main/java/com/bankapp/onlinebanking/entity/Account.java:88-90 | Changes the holder name and no other field. |
| AccountEntity.AccountObject.SetUsername | online-banking-backend/src/main/java/com/bankapp/onlinebanking/entity/Account.java:96-98 | Changes the username and no other field. |
| AccountEntity.AccountObject.SetPassword | online-banking-backend/src/main/java/com/bankapp/onlinebanking/entity/Account.java:104-106 | Changes the password and no other field. |
| AccountEntity.AccountObject.SetBalance | online-banking-backend/src/main/java/com/bankapp/onlinebanking/entity/Account.java:112-114 | Changes the balance and no other field. |
| AccountEntity.AccountObject.SetAccountNumber | online-banking-backend/src/main/java/com/bankapp/onlinebanking/entity/Account.java:120-122 | Changes the account number and no other field. |
| AccountEntity.AccountObject.SetAccountType | online-banking-backend/src/main/java/com/bankapp/onlinebanking/entity/Account.java:128-130 | Changes the account type and no other field. |
| PreferenceEntity.DefaultPreference | online-banking-backend/src/main/java/com/bankapp/onlinebanking/entity/NotificationPreference.java:19-33 | A new record has real-time, e-mail and SMS on; transactions and security on and system off for both channels; thresholds of 100 for e-mail and 500 for SMS. |
| Ledger.Credit | online-banking-backend/src/main/java/com/bankapp/onlinebanking/service/AccountService.java:69 | Account k gains exactly `amount`; no other account changes and no account appears or disappears. |
| Ledger.Debit | online-banking-backend/src/main/java/com/bankapp/onlinebanking/service/AccountService.java:85 | Account k loses exactly `amount`; no other account changes and no account appears or disappears. |
| Ledger.CreditTotal | online-banking-backend/src/main/java/com/bankapp/onlinebanking/service/AccountService.java:69 | A credit raises the bank's total balance by exactly `amount`. |
| Ledger.DebitTotal | online-banking-backend/src/main/java/com/bankapp/onlinebanking/service/AccountService.java:85 | A debit lowers the bank's total balance by exactly `amount`. |
| Ledger.TransferEffect | online-banking-backend/src/main/java/com/bankapp/onlinebanking/service/AccountService.java:111-112 | Between two different accounts, a transfer moves exactly `amount` from one to the other and leaves every third account alone. A transfer to oneself changes nothing. The total is kept. |
| TransactionRepository.NewestFirst | online-banking-backend/src/main/java/com/bankapp/onlinebanking/repository/TransactionRepository.java:41 | The result is a permutation of the rows, ordered by timestamp from newest to oldest. |
| TransactionRepository.FindById | online-banking-backend/src/main/java/com/bankapp/onlinebanking/service/TransactionService.java:134-137 | Gives the position of a row with that id, or nothing exactly when no row has it. |
| TransactionRepository.FindBySenderAndTimestampAfter | online-banking-backend/src/main/java/com/bankapp/onlinebanking/repository/TransactionRepository.java:21 | Exactly the rows the account sent strictly after the instant. |
| TransactionRepository.FindByStatus | online-banking-backend/src/main/java/com/bankapp/onlinebanking/repository/TransactionRepository.java:26 | Exactly the rows with that status. |
| TransactionRepository.AverageAmount | online-banking-backend/src/main/java/com/bankapp/onlinebanking/repository/TransactionRepository.java:23-24 | The average is missing (SQL NULL) exactly when the sender has no rows. |
| TransactionRepository.FindSimilarRecentTransactions | online-banking-backend/src/main/java/com/bankapp/onlinebanking/repository/TransactionRepository.java:110-119 | Exactly the account's rows since the instant with equal description and amount. A missing description matches nothing, as `= NULL` does in SQL. |
| TransactionRepository.FindTransactionsWithFilters | online-banking-backend/src/main/java/com/bankapp/onlinebanking/repository/TransactionRepository.java:31-52 | Each row appears as often as it is stored when the account sent or received it and it meets every given filter, and otherwise not at all. A missing filter constrains nothing. The search is a case-blind LIKE '%search%' on description or merchant name, with `%` and `_` in the search text acting as wildcards. Date and amount bounds are inclusive. Newest first. |
| TransactionRepository.ExportIsDateOnlyHistory | online-banking-backend/src/main/java/com/bankapp/onlinebanking/repository/TransactionRepository.java:55-62 | The export query equals the history query with only the two date filters set. |
| TransactionRepository.LikePrefix | online-banking-backend/src/main/java/com/bankapp/onlinebanking/repository/TransactionRepository.java:31-32 | A pattern with no wildcards, followed by `%`, matches exactly the strings it begins. |
| TransactionRepository.LikeSuffix | online-banking-backend/src/main/java/com/bankapp/onlinebanking/repository/TransactionRepository.java:31-32 | A leading `%` lets the rest of the pattern match any suffix of the string. |
| TransactionRepository.LikeContains | online-banking-backend/src/main/java/com/bankapp/onlinebanking/repository/TransactionRepository.java:31-32 | For a text with no wildcards, LIKE '%text%' holds exactly when the text occurs in the string. |
| TransactionRepository.LikeWithoutWildcards | online-banking-backend/src/main/java/com/bankapp/onlinebanking/repository/TransactionRepository.java:31-32 | A search text with no `%` or `_` matches a field exactly when its lower case occurs in the field's lower case. A NULL field never matches. |
| TransactionRepository.SearchIgnoresCase | online-banking-backend/src/main/java/com/bankapp/onlinebanking/repository/TransactionRepository.java:32-33 | The search matches regardless of the letter case of the search text. |
| TransactionRepository.PageCount | online-banking-backend/src/main/java/com/bankapp/onlinebanking/repository/TransactionRepository.java:42-52 | The page count is the ceiling of the row count over the page size. |
| TransactionRepository.PageContent | online-banking-backend/src/main/java/com/bankapp/onlinebanking/repository/TransactionRepository.java:42-52 | The page holds at most `size` rows, taken in order starting at `start`. |
| TransactionRepository.PageOf | online-banking-backend/src/main/java/com/bankapp/onlinebanking/repository/TransactionRepository.java:42-52 | The page reports every row in its total. Its count of pages covers the rows with none to spare. It holds at most `size` rows, and it is non-empty exactly when its number is below the page count. |
| TransactionRepository.PagesCoverRows | online-banking-backend/src/main/java/com/bankapp/onlinebanking/repository/TransactionRepository.java:42-52 | Row i of the full result is entry i mod size of page i div size. |
| TransactionRepository.RecurringRowOf | online-banking-backend/src/main/java/com/bankapp/onlinebanking/repository/TransactionRepository.java:65-66 | A group's row carries its key and the number of rows in the group. |
| TransactionRepository.RecurringRowBounds | online-banking-backend/src/main/java/com/bankapp/onlinebanking/repository/TransactionRepository.java:65-66 | A group is non-empty. Every row in it lies between its first and last timestamps, and both are timestamps of rows in the group. |
| TransactionRepository.FrequentRows | online-banking-backend/src/main/java/com/bankapp/onlinebanking/repository/TransactionRepository.java:71-72 | The groups that pass HAVING, in decreasing frequency. |
| TransactionRepository.FrequentRowsSound | online-banking-backend/src/main/java/com/bankapp/onlinebanking/repository/TransactionRepository.java:70-71 | Every row returned is the aggregate of its own key and passes HAVING. |
| TransactionRepository.FrequentRowsComplete | online-banking-backend/src/main/java/com/bankapp/onlinebanking/repository/TransactionRepository.java:70-71 | Every key that occurs at least minOccurrences times has a row. |
| TransactionRepository.FrequentRowsDistinct | online-banking-backend/src/main/java/com/bankapp/onlinebanking/repository/TransactionRepository.java:70 | No key has two rows. |
| TransactionRepository.FindPotentialRecurringTransactions | online-banking-backend/src/main/java/com/bankapp/onlinebanking/repository/TransactionRepository.java:65-76 | Among the account's outgoing rows since `since`, one row per (description, amount, merchant) group that occurs at least minOccurrences times. Each row is that group's own aggregate. Every such group has a row, no key repeats, and the order is by decreasing count. |
| TransactionRepository.CategoryWindow | online-banking-backend/src/main/java/com/bankapp/onlinebanking/repository/TransactionRepository.java:81-84 | Only rows with a category enter the analysis. |
| TransactionRepository.CategoryRowOf | online-banking-backend/src/main/java/com/bankapp/onlinebanking/repository/TransactionRepository.java:79 | A category's row counts that category's rows, and the count is positive exactly when it has some. |
| TransactionRepository.CategoryTotals | online-banking-backend/src/main/java/com/bankapp/onlinebanking/repository/TransactionRepository.java:85-86 | One row per category, in decreasing order of total amount. |
| TransactionRepository.CategoryTotalsSound | online-banking-backend/src/main/java/com/bankapp/onlinebanking/repository/TransactionRepository.java:79-85 | Every row returned is the aggregate of a category that has rows. |
| TransactionRepository.CategoryTotalsDistinct | online-banking-backend/src/main/java/com/bankapp/onlinebanking/repository/TransactionRepository.java:85 | No category has two rows. |
| TransactionRepository.FindCategoryAnalysis | online-banking-backend/src/main/java/com/bankapp/onlinebanking/repository/TransactionRepository.java:79-90 | Over the account's categorised rows in the period, one row per category, each its own count and total. Every category present has a row, none repeats, and the order is by decreasing total. |
| TransactionRepository.SumTransactionsByDateRange | online-banking-backend/src/main/java/com/bankapp/onlinebanking/repository/TransactionRepository.java:126-128 | The sum is NULL exactly when the count is 0. Otherwise it is the sum of the amounts the account sent within the inclusive bounds. |
| TransactionRepository.DateRangeSplits | online-banking-backend/src/main/java/com/bankapp/onlinebanking/repository/TransactionRepository.java:122-128 | With inclusive bounds, the count and the sum for [start, end] are those for [start, mid] plus those for [mid + 1, end]. NULL sums read as 0. |
| NotificationRepository.NewestFirst | online-banking-backend/src/main/java/com/bankapp/onlinebanking/repository/NotificationRepository.java:11 | The result is a permutation of the rows, newest first. |
| NotificationRepository.FindByAccountOrderByTimestampDesc | online-banking-backend/src/main/java/com/bankapp/onlinebanking/repository/NotificationRepository.java:11 | Exactly the account's notifications, each as often as stored, newest first. |
| NotificationRepository.FindUnreadByAccount | online-banking-backend/src/main/java/com/bankapp/onlinebanking/repository/NotificationRepository.java:13 | Exactly the account's unread notifications, each as often as stored, newest first. |
| NotificationRepository.CountUnreadByAccount | online-banking-backend/src/main/java/com/bankapp/onlinebanking/repository/NotificationRepository.java:13-15 | The unread count equals the length of the unread list. |
| NotificationRepository.UnreadWithinAll | online-banking-backend/src/main/java/com/bankapp/onlinebanking/repository/NotificationRepository.java:11-15 | The unread list is a sub-multiset of the full list. The unread count is at most the full list's length. |
| FraudDetection.IsUnusualAmount | online-banking-backend/src/main/java/com/bankapp/onlinebanking/service/FraudDetectionService.java:40-46 | Fails exactly when the sender has no rows: the average is NULL and multiplying it throws. Otherwise the rule fires exactly when the amount is strictly more than three times the average. |
| FraudDetection.NoAddressIsUnusual | online-banking-backend/src/main/java/com/bankapp/onlinebanking/service/FraudDetectionService.java:48-54 | A transaction without an address is unusual exactly when the sender has a recorded login address. |
| FraudDetection.AnalyzeTransaction | online-banking-backend/src/main/java/com/bankapp/onlinebanking/service/FraudDetectionService.java:17-38 | Fails exactly when the sender has no history. Otherwise the verdict is fraudulent exactly when at least one of the three rules fires. A clean verdict leaves the transaction untouched; a fraudulent one marks it suspected with the first reason. |
| FraudDetection.ReasonPriority | online-banking-backend/src/main/java/com/bankapp/onlinebanking/service/FraudDetectionService.java:19-35 | The reason is that of the first rule that fires, in the order amount, location, burst; each reason comes out exactly under those conditions. |
| TransactionText.FirstMerchantMatch | online-banking-backend/src/main/java/com/bankapp/onlinebanking/service/TransactionService.java:293-297 | Gives nothing exactly when no merchant keyword occurs. Otherwise it gives the category of the first entry, in visiting order, whose keyword occurs. |
| TransactionText.AutoCategorizeKnown | online-banking-backend/src/main/java/com/bankapp/onlinebanking/service/TransactionService.java:287-313 | The answer is always one of the nine category names, whatever the visiting order of the merchant table. A missing description gets OTHER. |
| TransactionText.MerchantHitWins | online-banking-backend/src/main/java/com/bankapp/onlinebanking/service/TransactionService.java:293-297 | When a merchant keyword occurs, the answer is the category of some merchant keyword that occurs, whatever the keyword rules would say. |
| TransactionText.NoMerchantUsesKeywords | online-banking-backend/src/main/java/com/bankapp/onlinebanking/service/TransactionService.java:299-312 | Without a merchant keyword, the keyword chain decides: grocery/supermarket, then gas/fuel, then restaurant/cafe, then transfer, then atm/withdrawal, else OTHER. |
| TransactionText.AnyMatchingMerchantPossible | online-banking-backend/src/main/java/com/bankapp/onlinebanking/service/TransactionService.java:36-46 | Every occurring merchant keyword can decide: for each there is a visiting order of the unordered table that answers its category. |
| TransactionText.AutoCategorizeIgnoresCase | online-banking-backend/src/main/java/com/bankapp/onlinebanking/service/TransactionService.java:291 | The answer is the same for the description, its lower-cased form and its upper-cased form. |
| TransactionText.ExtractMerchantName | online-banking-backend/src/main/java/com/bankapp/onlinebanking/service/TransactionService.java:315-322 | Gives null exactly for null. Otherwise it gives the text before the first space, or the description itself when splitting yields no parts (a run of spaces only). |
| TransactionText.MerchantNameIsFirstWord | online-banking-backend/src/main/java/com/bankapp/onlinebanking/service/TransactionService.java:320-321 | Unless the description is only spaces, the merchant name is a prefix of it and has no space. |
| TransactionText.EscapeCommasRoundTrip | online-banking-backend/src/main/java/com/bankapp/onlinebanking/service/TransactionService.java:390-394 | A value with a comma is quoted with its quotes doubled, and a CSV reader gets the value back exactly. |
| TransactionText.EscapeCommasKeepsCommaFree | online-banking-backend/src/main/java/com/bankapp/onlinebanking/service/TransactionService.java:390-393 | A value without a comma is written unchanged, and null is written as the empty text. |
| TransactionText.EscapeCommasLosesQuotes | online-banking-backend/src/main/java/com/bankapp/onlinebanking/service/TransactionService.java:393 | Quoting applies only when a comma is present: "\"a\"" is written as it is, and a section 2 RFC 4180 reader reads it back as a. |
| TransactionText.EscapeJsonPerChar | online-banking-backend/src/main/java/com/bankapp/onlinebanking/service/TransactionService.java:396-400 | The three successive replacements equal escaping each character on its own: `"` becomes `\"`, LF becomes `\n`, CR becomes `\r`. |
| TransactionText.EscapeJsonNoLineBreaks | online-banking-backend/src/main/java/com/bankapp/onlinebanking/service/TransactionService.java:396-400 | The output has no raw LF or CR, and null is written as the empty text. |
| TransactionText.EscapeJsonRoundTrip | online-banking-backend/src/main/java/com/bankapp/onlinebanking/service/TransactionService.java:396-400 | A value without backslashes is decoded back exactly. |
| TransactionText.EscapeJsonNotInjective | online-banking-backend/src/main/java/com/bankapp/onlinebanking/service/TransactionService.java:399 | Backslashes are not escaped, unlike section 7 of RFC 8259: a line feed and the text `\n` are written the same way. |
| TransactionService.GenerateReferenceNumber | online-banking-backend/src/main/java/com/bankapp/onlinebanking/service/TransactionService.java:283-285 | "TXN" followed by the first eight characters of the UUID, upper-cased; eleven characters with no lower-case letter. |
| TransactionService.CheckRecurringPattern | online-banking-backend/src/main/java/com/bankapp/onlinebanking/service/TransactionService.java:324-336 | Only the recurring flag and pattern may change. The flag is set exactly when it was set already or at least two similar recent rows exist. A transaction without a description is left alone. |
| TransactionService.Saved | online-banking-backend/src/main/java/com/bankapp/onlinebanking/service/TransactionService.java:118 | The saved row takes the next id and is appended to the table. |
| TransactionService.CreateFailsWithoutHistory | online-banking-backend/src/main/java/com/bankapp/onlinebanking/service/TransactionService.java:68 | createTransaction fails, and changes nothing, exactly when the sender has no earlier transaction, because the average in the fraud check is NULL. |
| TransactionService.DecideStatus | online-banking-backend/src/main/java/com/bankapp/onlinebanking/service/TransactionService.java:56-116 | The status is FLAGGED exactly when the fraud rules fire. It is PENDING exactly for a clean non-transfer, FAILED exactly for a clean transfer above the balance, and COMPLETED exactly for a clean transfer within it. |
| TransactionService.CreateStatus | online-banking-backend/src/main/java/com/bankapp/onlinebanking/service/TransactionService.java:49-119 | The same four outcomes for the whole of createTransaction, with the fraud rules it runs. |
| TransactionService.DecideFailureDetails | online-banking-backend/src/main/java/com/bankapp/onlinebanking/service/TransactionService.java:80-82 | A failed transfer's description is "Insufficient funds". Only a flagged transaction is marked as suspected, and it carries a reason. |
| TransactionService.DecideKeepsBalancesUnlessCompleted | online-banking-backend/src/main/java/com/bankapp/onlinebanking/service/TransactionService.java:70-88 | A flagged, failed or pending transaction leaves every balance as it was. |
| TransactionService.DecideCompletedMovesMoney | online-banking-backend/src/main/java/com/bankapp/onlinebanking/service/TransactionService.java:89-97 | A completed transfer debits the sender by exactly the amount and credits a different recipient by exactly the amount. No other account is touched. balanceAfter is the sender's new balance. The total is kept when there is a recipient. |
| TransactionService.DecideNotificationsUnlessCompleted | online-banking-backend/src/main/java/com/bankapp/onlinebanking/service/TransactionService.java:70-88 | A pending transaction notifies nobody. A flagged one warns the sender once with SECURITY/CRITICAL. A failed one warns the sender once with TRANSACTION/WARNING. |
| TransactionService.DecideNotificationsWhenCompleted | online-banking-backend/src/main/java/com/bankapp/onlinebanking/service/TransactionService.java:102-113 | A completed transaction first notifies the sender with a TRANSACTION notice that references the transaction, then, when there is one, the recipient with the payment-received text. |
| TransactionService.DecideConsistent | online-banking-backend/src/main/java/com/bankapp/onlinebanking/service/TransactionService.java:118 | Exactly the new row is appended, under a fresh id, and the tables stay consistent. |
| TransactionService.CreateTransaction | online-banking-backend/src/main/java/com/bankapp/onlinebanking/service/TransactionService.java:49-119 | On failure the method returns the error and changes nothing. Otherwise the returned row and the new tables are those of the createTransaction outcome above. |
| TransactionService.Settle | online-banking-backend/src/main/java/com/bankapp/onlinebanking/service/TransactionService.java:70-118 | The branch from the fraud verdict to the saved row ends in the state that Decide gives. |
| TransactionService.Complete | online-banking-backend/src/main/java/com/bankapp/onlinebanking/service/TransactionService.java:89-113 | The transfer branch ends with the completed row and the tables the specification gives, and no account is created. |
| TransactionService.MoveMoney | online-banking-backend/src/main/java/com/bankapp/onlinebanking/service/TransactionService.java:90-96 | Only the balances change, as Moved gives. |
| TransactionService.Categorized | online-banking-backend/src/main/java/com/bankapp/onlinebanking/service/TransactionService.java:139-144 | Fails exactly for an unknown id. Otherwise it changes the category of that row and nothing else. |
| TransactionService.CategorizedChangesOnlyCategory | online-banking-backend/src/main/java/com/bankapp/onlinebanking/service/TransactionService.java:139-144 | No other field of any row changes, and accounts, notifications and deliveries stay. The tables stay consistent. |
| TransactionService.CategorizeTransaction | online-banking-backend/src/main/java/com/bankapp/onlinebanking/service/TransactionService.java:139-144 | On an unknown id the method fails and changes nothing. Otherwise the tables become Categorized's and the stored row is returned. |
| TransactionService.DisputeEffect | online-banking-backend/src/main/java/com/bankapp/onlinebanking/service/TransactionService.java:146-163 | Fails exactly for an unknown id. Otherwise only that row changes: it becomes disputed with status DISPUTED, dispute status PENDING, the reason and the date. Exactly one notification for the sender is appended. |
| TransactionService.DisputeTransaction | online-banking-backend/src/main/java/com/bankapp/onlinebanking/service/TransactionService.java:146-163 | On an unknown id the method fails and changes nothing. Otherwise the tables become the dispute outcome's and the disputed row is returned. |
| TransactionExport.ExportToCsv | online-banking-backend/src/main/java/com/bankapp/onlinebanking/service/TransactionService.java:338-361 | The printed output is the header line followed by one line per row, in row order. |
| TransactionExport.CsvLineCount | online-banking-backend/src/main/java/com/bankapp/onlinebanking/service/TransactionService.java:342-356 | When no column holds a line break, the document has exactly one line more than there are rows. |
| TransactionExport.LineBreakSplitsRow | online-banking-backend/src/main/java/com/bankapp/onlinebanking/service/TransactionService.java:350 | A description with a line break is not quoted, so its row spans more than one line. |
| TransactionExport.ExportToJson | online-banking-backend/src/main/java/com/bankapp/onlinebanking/service/TransactionService.java:363-388 | The output is the JSON document of the rows, in row order. |
| TransactionExport.WriteJsonArray | online-banking-backend/src/main/java/com/bankapp/onlinebanking/service/TransactionService.java:366-386 | The loop builds the array text of the objects, in row order. |
| TransactionExport.JsonArrayJoins | online-banking-backend/src/main/java/com/bankapp/onlinebanking/service/TransactionService.java:366-386 | The array is "[", the objects joined by commas with none after the last, and "]"; no rows give an empty array. |
| TransactionExport.ExportTransactions | online-banking-backend/src/main/java/com/bankapp/onlinebanking/service/TransactionService.java:165-178 | An unknown account fails. Otherwise the account's rows in the period, newest first, are exported as CSV when the format is csv in any letter case, and as JSON otherwise. |
| AccountService.FindByUsername | online-banking-backend/src/main/java/com/bankapp/onlinebanking/repository/AccountRepository.java:12 | Gives no account exactly when no account has the username. A single match is that account. A non-unique username is an error, as the single-result query throws. |
| AccountService.LookupUsername | online-banking-backend/src/main/java/com/bankapp/onlinebanking/service/AccountService.java:27 | The lookup method answers FindByUsername on the current accounts. |
| AccountService.RegisteredEffect | online-banking-backend/src/main/java/com/bankapp/onlinebanking/service/AccountService.java:26-33 | Registration succeeds exactly when no account has the username. The saved account has every field as given except the password, which is stored encoded. `save` merges a body whose `id` names a stored account, so that account is overwritten and no account is added. Any other body is added as one account under a fresh id. No other account or table changes. |
| AccountService.RegisteredRefusal | online-banking-backend/src/main/java/com/bankapp/onlinebanking/service/AccountService.java:27-29 | When exactly one account has the username, the refusal says "Username already exists". |
| AccountService.LoginAfterRegister | online-banking-backend/src/main/java/com/bankapp/onlinebanking/service/AccountService.java:26-44 | A freshly registered account can log in with its raw password when the encoder recognises its own encoding. |
| AccountService.CreateAccount | online-banking-backend/src/main/java/com/bankapp/onlinebanking/service/AccountService.java:26-33 | On refusal the method returns the error and changes nothing. Otherwise it returns the saved account and the tables of RegisteredEffect. |
| AccountService.LoginErrorsAlike | online-banking-backend/src/main/java/com/bankapp/onlinebanking/service/AccountService.java:35-44 | An unknown username and a wrong password give the same error. A successful login returns a stored account with that username whose password matches. |
| AccountService.LoginSucceeds | online-banking-backend/src/main/java/com/bankapp/onlinebanking/service/AccountService.java:40-43 | A successful login returns a stored account whose username is the one given and whose stored password the encoder matches. |
| AccountService.LoginMethod | online-banking-backend/src/main/java/com/bankapp/onlinebanking/service/AccountService.java:35-44 | The method answers Login on the current tables and changes nothing. |
| AccountService.AccountExists | online-banking-backend/src/main/java/com/bankapp/onlinebanking/service/AccountService.java:47-49 | True exactly when some account has the username. It fails exactly when the lookup fails. |
| AccountService.AccountExistsMethod | online-banking-backend/src/main/java/com/bankapp/onlinebanking/service/AccountService.java:47-49 | The method answers AccountExists and changes nothing. |
| AccountService.GetAccountById | online-banking-backend/src/main/java/com/bankapp/onlinebanking/service/AccountService.java:55-58 | Succeeds exactly for a stored id, with that account. Otherwise it fails with "Account not found". |
| AccountService.GetBalance | online-banking-backend/src/main/java/com/bankapp/onlinebanking/service/AccountService.java:60-64 | Succeeds exactly when GetAccountById does, with that account's balance. Otherwise it fails with "Account not found". |
| AccountService.DepositEffect | online-banking-backend/src/main/java/com/bankapp/onlinebanking/service/AccountService.java:66-78 | Fails for a missing account. Otherwise the account gains exactly `amount`, no other account changes, the total grows by `amount`, and one notification goes to the owner. |
| AccountService.DepositAmount | online-banking-backend/src/main/java/com/bankapp/onlinebanking/service/AccountService.java:66-78 | On failure the method changes nothing. Otherwise the tables become those of DepositEffect and the saved account is returned. |
| AccountService.WithdrawEffect | online-banking-backend/src/main/java/com/bankapp/onlinebanking/service/AccountService.java:80-94 | Fails for a missing account, and for a balance below the amount. Otherwise the account loses exactly `amount`, so a balance that covered it stays non-negative, and one notification goes to the owner. |
| AccountService.DepositThenWithdraw | online-banking-backend/src/main/java/com/bankapp/onlinebanking/service/AccountService.java:66-94 | For an account not in debt, withdrawing what was just deposited succeeds and restores every balance. |
| AccountService.WithdrawAmount | online-banking-backend/src/main/java/com/bankapp/onlinebanking/service/AccountService.java:80-94 | On failure the method changes nothing. Otherwise the tables become those of WithdrawEffect. |
| AccountService.LastFour | online-banking-backend/src/main/java/com/bankapp/onlinebanking/service/AccountService.java:120-127 | The last four characters of the number. A missing or short number is an error, as `substring` throws. |
| AccountService.TransferErrors | online-banking-backend/src/main/java/com/bankapp/onlinebanking/service/AccountService.java:96-109 | The failure reasons, in the order the checks run. A non-positive amount is refused before any lookup. Then an unknown sender, then an unknown receiver, then a balance below the amount. |
| AccountService.TransferFailureChangesNothing | online-banking-backend/src/main/java/com/bankapp/onlinebanking/service/AccountService.java:96-130 | A failed transfer changes no account, notification or other table. Only deliveries already sent stay in the outbox, as rollback cannot recall them. |
| AccountService.TransferSuccess | online-banking-backend/src/main/java/com/bankapp/onlinebanking/service/AccountService.java:111-115 | The sender is debited and the receiver credited by exactly `amount`. No third account changes, the total is kept, and the tables stay consistent. |
| AccountService.TransferNotifies | online-banking-backend/src/main/java/com/bankapp/onlinebanking/service/AccountService.java:117-129 | A successful transfer notifies the sender, then the receiver, and no one else. |
| AccountService.TransferMoney | online-banking-backend/src/main/java/com/bankapp/onlinebanking/service/AccountService.java:96-130 | The method's error and new tables are those of the transfer outcome. |
| AccountService.SendTransferNotices | online-banking-backend/src/main/java/com/bankapp/onlinebanking/service/AccountService.java:117-129 | The two notices are created in order on balances already moved. A missing or short account number restores the state from before the transfer. |
| AccountController.RegisterValidatesFirst | online-banking-backend/src/main/java/com/bankapp/onlinebanking/controller/AccountController.java:36-39 | A missing username or password, or a missing or empty holder name, gets 400 before any lookup, and nothing changes. |
| AccountController.RegisterStatus | online-banking-backend/src/main/java/com/bankapp/onlinebanking/controller/AccountController.java:41-45 | A well-formed registration gets 409 and no change when the username exists. Otherwise it gets 201 with the account the service saved. That account has the body's `id` when the id names a stored account, and a new id otherwise. |
| AccountController.RegisterHandler | online-banking-backend/src/main/java/com/bankapp/onlinebanking/controller/AccountController.java:34-46 | The handler's reply and new tables are those of Register. |
| AccountController.Recorded | online-banking-backend/src/main/java/com/bankapp/onlinebanking/controller/AccountController.java:57-59 | After a login the address, time and device are recorded and every other field is kept. |
| AccountController.FailedLoginRecordsNothing | online-banking-backend/src/main/java/com/bankapp/onlinebanking/controller/AccountController.java:53-72 | A refused login gets 401 and changes nothing. |
| AccountController.LoginRecords | online-banking-backend/src/main/java/com/bankapp/onlinebanking/controller/AccountController.java:54-69 | A successful login gets 200 with the recorded account and saves that account only. Exactly one SECURITY/INFO notification is appended. |
| AccountController.LoginHandler | online-banking-backend/src/main/java/com/bankapp/onlinebanking/controller/AccountController.java:48-73 | The handler's reply and new tables are those of LoginRequest. |
| AccountController.AmountGuards | online-banking-backend/src/main/java/com/bankapp/onlinebanking/controller/AccountController.java:94-107 | A missing or unparsable amount fails and changes nothing. A non-positive deposit or withdrawal is refused with its own message and changes nothing. A positive one gets exactly the service's outcome. |
| AccountController.GuardedDirection | online-banking-backend/src/main/java/com/bankapp/onlinebanking/controller/AccountController.java:92-110 | Behind the guard, a successful deposit strictly raises the balance and a successful withdrawal strictly lowers it. |
| AccountController.DepositHandler | online-banking-backend/src/main/java/com/bankapp/onlinebanking/controller/AccountController.java:92-100 | The handler's reply and new tables are those of DepositRequest: a missing or unparsable amount fails first, then a non-positive one, and nothing changes on either. |
| AccountController.WithdrawHandler | online-banking-backend/src/main/java/com/bankapp/onlinebanking/controller/AccountController.java:102-110 | The handler's reply and new tables are those of WithdrawRequest: a missing or unparsable amount fails first, then a non-positive one, and nothing changes on either. |
| AccountController.TransferHandler | online-banking-backend/src/main/java/com/bankapp/onlinebanking/controller/AccountController.java:112-120 | A missing or unparsable amount fails and changes nothing. Otherwise the reply is "Transfer successful" exactly when the transfer succeeds, and otherwise the service's error. The new tables are the transfer's. |
| NotificationService.EmailWantedCases | online-banking-backend/src/main/java/com/bankapp/onlinebanking/service/NotificationService.java:57-79 | An e-mail is wanted exactly in three cases. SECURITY with emailForSecurity. SYSTEM with emailForSystem. TRANSACTION with emailForTransactions, when the data has no amount, the amount cannot be parsed, or it reaches the threshold. |
| NotificationService.EmailIgnoresThresholdWithoutData | online-banking-backend/src/main/java/com/bankapp/onlinebanking/service/NotificationService.java:74-76 | Without additional data, a TRANSACTION e-mail depends only on emailForTransactions, whatever the threshold. |
| NotificationService.OtherTypesNotEmailed | online-banking-backend/src/main/java/com/bankapp/onlinebanking/service/NotificationService.java:59-79 | No type other than SECURITY, TRANSACTION and SYSTEM is ever e-mailed. |
| NotificationService.SmsIgnoresThresholdAndSystem | online-banking-backend/src/main/java/com/bankapp/onlinebanking/service/NotificationService.java:87-89 | The SMS decision never reads smsTransactionThreshold or smsForSystem. |
| NotificationService.DeliveriesRouting | online-banking-backend/src/main/java/com/bankapp/onlinebanking/service/NotificationService.java:50-94 | A push goes out exactly when real-time is on. An e-mail goes out exactly when e-mail is on, one is wanted and the account has an address. A text goes out exactly when SMS is wanted and there is a phone. Each is addressed correctly, and there are at most three. |
| NotificationService.PreferenceFor | online-banking-backend/src/main/java/com/bankapp/onlinebanking/service/NotificationService.java:41-48 | The stored record, or a default record under the next id. |
| NotificationService.WithPreference | online-banking-backend/src/main/java/com/bankapp/onlinebanking/service/NotificationService.java:41-48 | Get-or-create: afterwards the account has its record. Nothing changes when it had one. Otherwise only the default record is added, under the next id. |
| NotificationService.WithPreferenceIdempotent | online-banking-backend/src/main/java/com/bankapp/onlinebanking/service/NotificationService.java:41-48 | A second get-or-create changes nothing and finds the same record. |
| NotificationService.NewNotification | online-banking-backend/src/main/java/com/bankapp/onlinebanking/service/NotificationService.java:33-38 | The saved notification is unread, stamped now, carries the account, message, type and severity, and takes the next id. |
| NotificationService.AfterNotifyEffect | online-banking-backend/src/main/java/com/bankapp/onlinebanking/service/NotificationService.java:31-97 | Exactly one notification is appended before any delivery is decided. The outbox gains exactly the deliveries the preferences, or the defaults, ask for. Accounts and transactions are unchanged. |
| NotificationService.AfterNotifyCreatesDefault | online-banking-backend/src/main/java/com/bankapp/onlinebanking/service/NotificationService.java:43-48 | An account without a record gets the default record saved under its id. |
| NotificationService.DefaultPreferencesPush | online-banking-backend/src/main/java/com/bankapp/onlinebanking/service/NotificationService.java:51-53 | With default preferences the notification is always pushed. |
| NotificationService.CreateNotification | online-banking-backend/src/main/java/com/bankapp/onlinebanking/service/NotificationService.java:31-97 | The method returns the new notification, and the tables become those of AfterNotifyEffect. |
| NotificationService.TransactionNotification | online-banking-backend/src/main/java/com/bankapp/onlinebanking/service/NotificationService.java:99-112 | The notice is TRANSACTION/INFO, addressed to the sender, and references the transaction by id with type TRANSACTION. Its text reports the outcome. |
| NotificationService.AfterTransactionNotify | online-banking-backend/src/main/java/com/bankapp/onlinebanking/service/NotificationService.java:114-118 | The notice is saved and pushed to the sender whatever the preferences say. Nothing else changes. |
| NotificationService.CreateTransactionNotification | online-banking-backend/src/main/java/com/bankapp/onlinebanking/service/NotificationService.java:99-119 | The method returns the notice, and the tables become those of AfterTransactionNotify. |
| NotificationService.MarkReadById | online-banking-backend/src/main/java/com/bankapp/onlinebanking/service/NotificationService.java:121-126 | Every notification with that id becomes read, and the others stay as they were. |
| NotificationService.MarkReadByIdProperties | online-banking-backend/src/main/java/com/bankapp/onlinebanking/service/NotificationService.java:121-126 | Marking twice equals marking once, and an absent id changes nothing. |
| NotificationService.MarkAsRead | online-banking-backend/src/main/java/com/bankapp/onlinebanking/service/NotificationService.java:121-126 | Only the notifications table changes, as MarkReadById gives. |
| PreferenceController.GetPreferencesEffect | online-banking-backend/src/main/java/com/bankapp/onlinebanking/controller/NotificationPreferenceController.java:21-34 | Fails exactly for an unknown account. A first read without a record saves and returns the default record under the next id. A read with a record returns it and changes nothing. |
| PreferenceController.GetTwice | online-banking-backend/src/main/java/com/bankapp/onlinebanking/controller/NotificationPreferenceController.java:26-31 | A second read returns what the first returned and changes nothing. |
| PreferenceController.Copied | online-banking-backend/src/main/java/com/bankapp/onlinebanking/controller/NotificationPreferenceController.java:52-62 | The record keeps its own id and account and takes every one of the eleven flags and thresholds from the body. |
| PreferenceController.CopyFields | online-banking-backend/src/main/java/com/bankapp/onlinebanking/controller/NotificationPreferenceController.java:52-62 | The eleven setter calls, one field at a time, give Copied. |
| PreferenceController.PutPreferencesEffect | online-banking-backend/src/main/java/com/bankapp/onlinebanking/controller/NotificationPreferenceController.java:36-67 | Fails exactly for an unknown account. Otherwise the stored record is the body, bound to the path's account and the existing or new id. Accounts and notifications are unchanged. |
| PreferenceController.PutIdempotent | online-banking-backend/src/main/java/com/bankapp/onlinebanking/controller/NotificationPreferenceController.java:52-64 | Sending the same update twice stores the same record as sending it once. |
| PreferenceController.GetAfterPut | online-banking-backend/src/main/java/com/bankapp/onlinebanking/controller/NotificationPreferenceController.java:21-67 | A read after an update returns what the update stored. |
| PreferenceController.GetPreferencesHandler | online-banking-backend/src/main/java/com/bankapp/onlinebanking/controller/NotificationPreferenceController.java:21-34 | The handler's reply and new tables are those of GetPreferences. |
| PreferenceController.UpdatePreferencesHandler | online-banking-backend/src/main/java/com/bankapp/onlinebanking/controller/NotificationPreferenceController.java:36-67 | The handler's reply and new tables are those of PutPreferences. |
| TwoFactor.JavaRem | online-banking-backend/src/main/java/com/bankapp/onlinebanking/service/TwoFactorAuthService.java:64 | Java's `%`: the remainder takes the sign of the dividend, and its magnitude is the remainder of the magnitudes. |
| TwoFactor.DigitOf | online-banking-backend/src/main/java/com/bankapp/onlinebanking/service/TwoFactorAuthService.java:64 | `Math.abs(b % 10)` is always a decimal digit. |
| TwoFactor.EveryDigitReachable | online-banking-backend/src/main/java/com/bankapp/onlinebanking/service/TwoFactorAuthService.java:64 | Every digit 0-9 can be drawn. |
| TwoFactor.GenerateSecret | online-banking-backend/src/main/java/com/bankapp/onlinebanking/service/TwoFactorAuthService.java:57-67 | The secret has exactly six characters, all digits, one from each random byte in order. |
| TwoFactor.WithSecret | online-banking-backend/src/main/java/com/bankapp/onlinebanking/service/TwoFactorAuthService.java:26-28 | The account gets the secret and an expiry five minutes ahead, and nothing else changes. |
| TwoFactor.CodeDeliveries | online-banking-backend/src/main/java/com/bankapp/onlinebanking/service/TwoFactorAuthService.java:31-35 | "email" sends the code by e-mail, "sms" by text, and any other method nowhere. |
| TwoFactor.SecretIssuedEffect | online-banking-backend/src/main/java/com/bankapp/onlinebanking/service/TwoFactorAuthService.java:25-38 | The account is saved with the code and an expiry 300 seconds ahead, whatever the method. No other account changes, and at most one message is sent. |
| TwoFactor.GenerateAndSendSecret | online-banking-backend/src/main/java/com/bankapp/onlinebanking/service/TwoFactorAuthService.java:25-38 | The method returns a six-digit secret drawn from the bytes, and the tables become those of SecretIssuedEffect. |
| TwoFactor.ValidatedAnswer | online-banking-backend/src/main/java/com/bankapp/onlinebanking/service/TwoFactorAuthService.java:40-55 | A code is accepted exactly when a secret is stored, now is not after the expiry (an expiry equal to now counts) and the code equals it. A stored secret with no expiry throws. |
| TwoFactor.FailedValidationChangesNothing | online-banking-backend/src/main/java/com/bankapp/onlinebanking/service/TwoFactorAuthService.java:46-54 | A validation that does not accept changes nothing. |
| TwoFactor.OneTimeUse | online-banking-backend/src/main/java/com/bankapp/onlinebanking/service/TwoFactorAuthService.java:47-52 | An accepted code clears the secret and the expiry, so any later validation of the saved account fails. |
| TwoFactor.IssueThenValidate | online-banking-backend/src/main/java/com/bankapp/onlinebanking/service/TwoFactorAuthService.java:25-55 | An issued code is accepted until exactly five minutes later and refused after that. Any other code is refused. |
| TwoFactor.ValidateSecret | online-banking-backend/src/main/java/com/bankapp/onlinebanking/service/TwoFactorAuthService.java:40-55 | The method's answer and new tables are those of Validated. |
| ScheduledTasks.SummaryStepEffect | online-banking-backend/src/main/java/com/bankapp/onlinebanking/task/NotificationScheduledTasks.java:33-48 | One iteration appends a summary exactly when the account sent something in the last day, and changes nothing else. |
| ScheduledTasks.SummariesEffect | online-banking-backend/src/main/java/com/bankapp/onlinebanking/task/NotificationScheduledTasks.java:29-50 | The job appends exactly one SUMMARY/INFO notification per active account, in listing order. Each reports how many transactions that account sent in the last day. Accounts and transactions are unchanged. |
| ScheduledTasks.SummariesPerAccount | online-banking-backend/src/main/java/com/bankapp/onlinebanking/task/NotificationScheduledTasks.java:30-49 | Over the listing `findAll` returns, every added notification is the summary of a stored account that sent something in the last day. No account gets two, and every such account gets one. |
| ScheduledTasks.QuietAccountsGetNothing | online-banking-backend/src/main/java/com/bankapp/onlinebanking/task/NotificationScheduledTasks.java:30-37 | A stored account that sent nothing in the last day gets no summary from the job. |
| ScheduledTasks.SendDailyAccountSummaries | online-banking-backend/src/main/java/com/bankapp/onlinebanking/task/NotificationScheduledTasks.java:29-50 | Given the listing `findAll` returned (every stored account once), the loop ends in the state that Summaries gives. |
| ScheduledTasks.ReminderStepEffect | online-banking-backend/src/main/java/com/bankapp/onlinebanking/task/NotificationScheduledTasks.java:58-66 | One iteration appends a reminder exactly when the transaction is more than 24 hours old. |
| ScheduledTasks.RemindersEffect | online-banking-backend/src/main/java/com/bankapp/onlinebanking/task/NotificationScheduledTasks.java:54-68 | The job appends one TRANSACTION/WARNING reminder per overdue transaction, in order, each to that transaction's sender. Newer ones get none. Accounts and transactions are unchanged. |
| ScheduledTasks.RemindersOnlyForFlagged | online-banking-backend/src/main/java/com/bankapp/onlinebanking/task/NotificationScheduledTasks.java:55-60 | Every reminded transaction is a stored FLAGGED row older than 24 hours. |
| ScheduledTasks.CheckFlaggedTransactions | online-banking-backend/src/main/java/com/bankapp/onlinebanking/task/NotificationScheduledTasks.java:54-68 | The loop over the FLAGGED rows ends in the state that Reminders gives. |
| ClientNotifications.MarkRead | online-banking-frontend/src/components/NotificationBell.tsx:39-41 | Marking keeps the list's length. |
| ClientNotifications.MarkReadEntries | online-banking-frontend/src/components/NotificationBell.tsx:39-41 | Only the entries carrying the id change, and of those only the read flag, which becomes true. Every other entry stays where it was. |
| ClientNotifications.MarkReadLeavesNoneUnread | online-banking-frontend/src/pages/NotificationsPage.tsx:38-40 | After marking, no entry with that id is unread. |
| ClientNotifications.MarkReadIdempotent | online-banking-frontend/src/pages/NotificationsPage.tsx:38-40 | Marking the same id twice equals marking it once. |
| ClientNotifications.MarkReadAlreadyRead | online-banking-frontend/src/pages/NotificationsPage.tsx:38-40 | A list whose entries with that id are all read is left exactly as it was. |
| ClientNotifications.MarkReadAppend | online-banking-frontend/src/components/NotificationBell.tsx:29-41 | Marking distributes over concatenation, so it commutes with the live merge. |
| NotificationBell.UnreadLoadedEffect | online-banking-frontend/src/components/NotificationBell.tsx:17-27 | Without a user id (null or 0) nothing is fetched and nothing changes, and a failed fetch changes nothing. A successful one replaces the list and sets the counter to its length. |
| NotificationBell.LiveMergedEffect | online-banking-frontend/src/components/NotificationBell.tsx:29-34 | An empty live list changes nothing. A non-empty one goes whole and in order ahead of the existing list, and the counter grows by its length. |
| NotificationBell.NoDeduplication | online-banking-frontend/src/components/NotificationBell.tsx:29-34 | Nothing is de-duplicated. When the hook's list grows from [m] to [m2, m], the bell holds m twice and counts three new entries. |
| NotificationBell.MarkedAsReadEffect | online-banking-frontend/src/components/NotificationBell.tsx:36-45 | A failed request changes nothing, since there is no optimistic update. A successful one marks the entries with the id, keeps the length and lowers the counter by one. |
| NotificationBell.CounterDrifts | online-banking-frontend/src/components/NotificationBell.tsx:42 | The counter is not the number of unread entries. Marking an already read entry, or an id the list lacks, still lowers it while the list stays the same. |
| NotificationBell.DropdownToggled | online-banking-frontend/src/components/NotificationBell.tsx:47-49 | The dropdown flag is inverted and nothing else changes. |
| NotificationBell.NotificationColor | online-banking-frontend/src/components/NotificationBell.tsx:51-57 | CRITICAL is red and WARNING yellow, each exactly. Every other severity is blue. |
| NotificationBell.Bell.constructor | online-banking-frontend/src/components/NotificationBell.tsx:12-14 | Starts with no entries, a zero counter and the dropdown closed. |
| NotificationBell.Bell.LoadUnread | online-banking-frontend/src/components/NotificationBell.tsx:17-27 | The state becomes that of the unread load. |
| NotificationBell.Bell.OnLiveNotifications | online-banking-frontend/src/components/NotificationBell.tsx:29-34 | The state becomes that of the live merge. |
| NotificationBell.Bell.MarkAsRead | online-banking-frontend/src/components/NotificationBell.tsx:36-45 | The state becomes that of marking as read. |
| NotificationBell.Bell.ToggleDropdown | online-banking-frontend/src/components/NotificationBell.tsx:47-49 | The state becomes DropdownToggled of the old state. |
| NotificationsPage.Loaded | online-banking-frontend/src/pages/NotificationsPage.tsx:21-33 | Loading ends. A successful fetch replaces the list and a failed one keeps it. |
| NotificationsPage.ClickRequests | online-banking-frontend/src/pages/NotificationsPage.tsx:83 | A click sends a request exactly when the entry is unread, and it names that entry's id. |
| NotificationsPage.MarkedAsReadEffect | online-banking-frontend/src/pages/NotificationsPage.tsx:35-45 | A failed request leaves the list unchanged. A successful one marks exactly the entries with that id and keeps the list's length. |
| NotificationsPage.ClickOnceOnly | online-banking-frontend/src/pages/NotificationsPage.tsx:83 | Once the entry is read, clicking it again sends nothing. |
| NotificationsPage.SeverityClass | online-banking-frontend/src/pages/NotificationsPage.tsx:47-56 | CRITICAL is red and WARNING yellow, each exactly. Every other severity is blue. |
| NotificationsPage.NotificationList.constructor | online-banking-frontend/src/pages/NotificationsPage.tsx:15-16 | Starts empty and loading. |
| NotificationsPage.NotificationList.Load | online-banking-frontend/src/pages/NotificationsPage.tsx:21-33 | The state becomes Loaded of the response. |
| NotificationsPage.NotificationList.Click | online-banking-frontend/src/pages/NotificationsPage.tsx:35-45 | Sends exactly what ClickRequests gives, and the state becomes that of the request settling. |
| LiveFeed.MountedEffect | online-banking-frontend/src/services/websocket.ts:22-76 | Without a user id (null or 0) no client is created. Otherwise the old subscription is released before the old client, and both before the new client is created and activated. |
| LiveFeed.ConnectedFlag | online-banking-frontend/src/services/websocket.ts:42-65 | `connected` is true after a connect and false after a disconnect. Neither touches the list. |
| LiveFeed.ReceivedEffect | online-banking-frontend/src/services/websocket.ts:48-55 | A decoded message becomes the head of the list, with the old list as its tail. An undecodable one changes nothing. |
| LiveFeed.ReceivedAllNewestFirst | online-banking-frontend/src/services/websocket.ts:48-55 | After a run of messages the list holds the decoded ones newest first, ahead of what it held before. Nothing else changes. |
| LiveFeed.TornDownOrder | online-banking-frontend/src/services/websocket.ts:78-93 | Teardown unsubscribes before it deactivates, and changes no state variable. |
| LiveFeed.SendGuard | online-banking-frontend/src/services/websocket.ts:96-110 | A send succeeds exactly when there is a client, it is connected and the publish did not throw. Without a connected client nothing is published. |
| LiveFeed.WebSocketHook.constructor | online-banking-frontend/src/services/websocket.ts:16-20 | Starts disconnected, with no client and an empty list. |
| LiveFeed.WebSocketHook.Mount | online-banking-frontend/src/services/websocket.ts:22-76 | The state, with its log of client calls, becomes that of a mount. |
| LiveFeed.WebSocketHook.OnConnect | online-banking-frontend/src/services/websocket.ts:42-61 | The state becomes that of a connect. |
| LiveFeed.WebSocketHook.OnMessage | online-banking-frontend/src/services/websocket.ts:48-55 | The state becomes that of a received message. |
| LiveFeed.WebSocketHook.OnDisconnect | online-banking-frontend/src/services/websocket.ts:62-65 | The state becomes that of a disconnect. |
| LiveFeed.WebSocketHook.Teardown | online-banking-frontend/src/services/websocket.ts:78-93 | The state becomes that of the teardown: its calls are logged in order, and no state variable changes. |
| LiveFeed.WebSocketHook.Send | online-banking-frontend/src/services/websocket.ts:96-110 | The reply and the state are those of sending the message. |
| NotificationSettings.ToggleFlipsOne | online-banking-frontend/src/pages/NotificationSettingsPage.tsx:41-48 | A toggle flips the named flag and no other. The id and both thresholds stay. |
| NotificationSettings.ToggleTwice | online-banking-frontend/src/pages/NotificationSettingsPage.tsx:41-48 | Toggling the same flag twice restores the record. |
| NotificationSettings.WithThreshold | online-banking-frontend/src/pages/NotificationSettingsPage.tsx:50-57 | The channel's threshold becomes the parsed number, or NaN. The other threshold, every flag and the id stay. |
| NotificationSettings.DisabledRules | online-banking-frontend/src/pages/NotificationSettingsPage.tsx:148-271 | A sub-option's checkbox is disabled exactly when its channel's switch is off, and the master switches are never disabled. A threshold is disabled exactly when its channel is off or not sending transaction messages. |
| NotificationSettings.SwitchGovernsSubOptions | online-banking-frontend/src/pages/NotificationSettingsPage.tsx:162-254 | Toggling a channel's switch flips the disabled state of every checkbox it governs, and of nothing else. |
| NotificationSettings.OtherTogglesKeepDisabled | online-banking-frontend/src/pages/NotificationSettingsPage.tsx:41-48 | Toggling any flag other than a channel switch disables or enables no checkbox. |
| NotificationSettings.Loaded | online-banking-frontend/src/pages/NotificationSettingsPage.tsx:28-39 | Loading ends. A fetched record replaces the page's record, and a failed fetch keeps it. |
| NotificationSettings.NothingWithoutPreferences | online-banking-frontend/src/pages/NotificationSettingsPage.tsx:41-61 | Before the record loads, toggles, number changes and submits change nothing and send nothing. |
| NotificationSettings.SaveCycle | online-banking-frontend/src/pages/NotificationSettingsPage.tsx:59-76 | A submit sends the record as it stands and disables the button. Settling re-enables it and shows success exactly when the server accepted. The timer clears the message. |
| NotificationSettings.SettingsPage.constructor | online-banking-frontend/src/pages/NotificationSettingsPage.tsx:20-23 | Starts with no record, loading, not saving, and no message. |
| NotificationSettings.SettingsPage.Load | online-banking-frontend/src/pages/NotificationSettingsPage.tsx:28-39 | The state becomes Loaded of the response. |
| NotificationSettings.SettingsPage.ToggleChange | online-banking-frontend/src/pages/NotificationSettingsPage.tsx:41-48 | The state becomes that of toggling the flag. |
| NotificationSettings.SettingsPage.NumberChange | online-banking-frontend/src/pages/NotificationSettingsPage.tsx:50-57 | The state becomes that of setting the threshold. |
| NotificationSettings.SettingsPage.Submit | online-banking-frontend/src/pages/NotificationSettingsPage.tsx:59-64 | The state and the request are those of a submit starting. |
| NotificationSettings.SettingsPage.Settle | online-banking-frontend/src/pages/NotificationSettingsPage.tsx:65-75 | The state becomes that of the request settling. |
| NotificationSettings.SettingsPage.ExpireMessage | online-banking-frontend/src/pages/NotificationSettingsPage.tsx:67 | The message is cleared. |
| TransactionHistory.With | online-banking-frontend/src/pages/TransactionHistoryPage.tsx:106-109 | The named filter takes the value, and every other filter stays. |
| TransactionHistory.KeysComplete | online-banking-frontend/src/pages/TransactionHistoryPage.tsx:29-38 | All eight filter keys are listed, each once, and no two share a parameter name. |
| TransactionHistory.FilterParamsMembers | online-banking-frontend/src/pages/TransactionHistoryPage.tsx:87-91 | A filter is sent exactly when its value is not empty, and every parameter sent is some filter's name with its value. |
| TransactionHistory.QueryParamsShape | online-banking-frontend/src/pages/TransactionHistoryPage.tsx:80-91 | The request always starts with page, size "10" and sort "timestamp,desc". It then carries exactly the non-empty filters, each under its own name. |
| TransactionHistory.NoFiltersNoParams | online-banking-frontend/src/pages/TransactionHistoryPage.tsx:80-91 | With no filter set, the request carries only the three fixed parameters. |
| TransactionHistory.BuildParams | online-banking-frontend/src/pages/TransactionHistoryPage.tsx:80-91 | The loop produces exactly the parameters of QueryParams. |
| TransactionHistory.PagingBounds | online-banking-frontend/src/pages/TransactionHistoryPage.tsx:482-491 | Previous never goes below page 0. An enabled Next leads to the next page, which is at most the last one. From a page in range, either enabled button stays in range. |
| TransactionHistory.PagingRoundTrip | online-banking-frontend/src/pages/TransactionHistoryPage.tsx:482-491 | Next then Previous, and Previous then Next, both come back to the same page. |
| TransactionHistory.DisputeSent | online-banking-frontend/src/pages/TransactionHistoryPage.tsx:162-165 | Nothing is sent without a selected transaction or with a blank reason. Otherwise the selection's id is sent with the reason as typed. |
| TransactionHistory.StatusColor | online-banking-frontend/src/pages/TransactionHistoryPage.tsx:178-187 | The five known statuses each get a colour, and any other status gets gray. |
| TransactionHistory.CategoryColor | online-banking-frontend/src/pages/TransactionHistoryPage.tsx:189-203 | A listed category gets its colour, and any other category gets gray. |
| TransactionHistory.CategoryGray | online-banking-frontend/src/pages/TransactionHistoryPage.tsx:189-203 | Only ATM, OTHER and unlisted categories are gray. |
| TransactionHistory.FilterChangeEffect | online-banking-frontend/src/pages/TransactionHistoryPage.tsx:106-123 | A filter change sets that one filter and goes back to the first page. Clearing empties all eight filters and goes back to the first page, after which the request carries no filter. |
| TransactionHistory.FetchSettled | online-banking-frontend/src/pages/TransactionHistoryPage.tsx:93-103 | Loading ends. A failed fetch changes nothing else. Missing parts of a response read as an empty list and a zero page count. |
| TransactionHistory.DisputeSubmittedEffect | online-banking-frontend/src/pages/TransactionHistoryPage.tsx:162-176 | Without a selection, or with a blank reason, nothing is sent and nothing changes. An accepted dispute closes the dialog and clears the reason and the selection. |
| TransactionHistory.HistoryPage.constructor | online-banking-frontend/src/pages/TransactionHistoryPage.tsx:41-63 | Starts on page 0 with empty filters, no transactions and loading. |
| TransactionHistory.HistoryPage.FetchStart | online-banking-frontend/src/pages/TransactionHistoryPage.tsx:77-91 | Loading is set, and the parameters sent are QueryParams of the page and the filters. |
| TransactionHistory.HistoryPage.FetchDone | online-banking-frontend/src/pages/TransactionHistoryPage.tsx:93-103 | The state becomes FetchSettled of the response. |
| TransactionHistory.HistoryPage.FilterChange | online-banking-frontend/src/pages/TransactionHistoryPage.tsx:106-109 | The state becomes that of a filter change. |
| TransactionHistory.HistoryPage.ClearFilters | online-banking-frontend/src/pages/TransactionHistoryPage.tsx:111-123 | The state becomes that of clearing the filters. |
| TransactionHistory.HistoryPage.Previous | online-banking-frontend/src/pages/TransactionHistoryPage.tsx:482-483 | The state becomes that of the Previous button. |
| TransactionHistory.HistoryPage.Next | online-banking-frontend/src/pages/TransactionHistoryPage.tsx:490-491 | The state becomes that of the Next button. |
| TransactionHistory.HistoryPage.OpenDispute | online-banking-frontend/src/pages/TransactionHistoryPage.tsx:157-160 | Selects the transaction and opens the dialog. |
| TransactionHistory.HistoryPage.SubmitDispute | online-banking-frontend/src/pages/TransactionHistoryPage.tsx:162-176 | The request, the refetch and the new state are those of submitting the dispute. |
| TransactionAnalytics.Chronological | online-banking-frontend/src/pages/TransactionAnalyticsPage.tsx:108-110 | The sorted copy is a permutation of the series, ordered by year and then month. |
| TransactionAnalytics.TrendMeaning | online-banking-frontend/src/pages/TransactionAnalyticsPage.tsx:105-123 | There is no trend before the analytics load or with fewer than two months. Otherwise the change is the latest month's amount less the amount of the second-latest month, both from the series. No month is later than the latest, and no other entry is later than the second-latest. A rise is an increase. |
| TransactionAnalytics.TrendOfTwoMonths | online-banking-frontend/src/pages/TransactionAnalyticsPage.tsx:105-123 | Two months give the same trend in either input order: the later amount less the earlier one. |
| TransactionAnalytics.MonthName | online-banking-frontend/src/pages/TransactionAnalyticsPage.tsx:89-95 | A name exists exactly for months 1 to 12. |
| TransactionAnalytics.MonthNames | online-banking-frontend/src/pages/TransactionAnalyticsPage.tsx:89-95 | January to December get "Jan" to "Dec". Each name has three letters and no two months share one. |
| TransactionAnalytics.CategoryColor | online-banking-frontend/src/pages/TransactionAnalyticsPage.tsx:97-103 | Every non-negative index gets one of the eight colours, and any colour given is one of them. |
| TransactionAnalytics.CategoryColorPeriodic | online-banking-frontend/src/pages/TransactionAnalyticsPage.tsx:97-103 | The colours repeat every eight bars and the first eight are distinct. A negative index that is not a multiple of eight gets none, since JavaScript's % keeps the sign. |
| AccountDisplay.TotalBalanceIgnoresMissing | online-banking-frontend/src/pages/Dashboard.tsx:25 | Accounts without a balance add nothing, so the total is the sum over those that have one. |
| AccountDisplay.TotalBalanceAppend | online-banking-frontend/src/pages/Dashboard.tsx:25 | The total of two lists is the sum of their totals. |
| AccountDisplay.TotalBalanceBounds | online-banking-frontend/src/pages/Dashboard.tsx:25 | With no negative balance, the total is at least each account's balance. |
| AccountDisplay.MaskedNumberShape | online-banking-frontend/src/pages/Dashboard.tsx:134 | A missing or empty number reads "No account number". A present one is four asterisks and then its last four characters, or all of it when shorter. |
| AccountDisplay.TypeLabel | online-banking-frontend/src/pages/Dashboard.tsx:132 | The label is "Account" exactly when the type is missing, empty or "Account" itself. Any other type is shown as it is. |
| AccountDisplay.AccountTypeStyle | online-banking-frontend/src/components/AccountsList.tsx:31-34 | CHECKING is green, SAVINGS blue and CREDIT purple, each exactly. Any other type gets the default gray. |
| AccountDisplay.FormatAccountTypeShape | online-banking-frontend/src/components/AccountsList.tsx:36-38 | The label keeps the length, with the first character upper-cased and the rest lower-cased. A missing or empty type gives the empty label. |
| AccountDisplay.FormatAccountTypeIdempotent | online-banking-frontend/src/components/AccountsList.tsx:36-38 | Formatting a formatted label changes nothing. |
| AccountDisplay.BulletNumber | online-banking-frontend/src/components/AccountsList.tsx:74 | Four bullets, followed by the number's last four characters (the whole number when it is shorter), or by nothing when the number is missing. |
| AccountScreens.LoadingEnds | online-banking-frontend/src/pages/Dashboard.tsx:11-23 | Every screen stops loading however its fetch settles. |
| AccountScreens.DashboardErrorFirst | online-banking-frontend/src/pages/Dashboard.tsx:27-41 | A failed fetch shows "Failed to load accounts" with no accounts. An error wins over the spinner whatever loading says. |
| AccountScreens.ListSpinnerFirst | online-banking-frontend/src/components/AccountsList.tsx:40-61 | The list shows the spinner whenever loading is set. After a failed fetch it shows the error. A reply without data keeps the accounts, and a reply with data replaces them. |
| AccountScreens.Dashboard.constructor | online-banking-frontend/src/pages/Dashboard.tsx:7-9 | Starts with no accounts, loading, and no error. |
| AccountScreens.Dashboard.FetchSettled | online-banking-frontend/src/pages/Dashboard.tsx:11-23 | The state becomes that of the Dashboard's fetch settling. |
| AccountScreens.AccountsList.constructor | online-banking-frontend/src/components/AccountsList.tsx:13-15 | Starts with no accounts, loading, and no error. |
| AccountScreens.AccountsList.FetchSettled | online-banking-frontend/src/components/AccountsList.tsx:17-28 | The state becomes that of the list's fetch settling. |
| AccountScreens.AccountsPage.constructor | online-banking-frontend/src/pages/Accounts.tsx:6-7 | Starts with no accounts and loading. |
| AccountScreens.AccountsPage.FetchSettled | online-banking-frontend/src/pages/Accounts.tsx:9-18 | The state becomes that of the page's fetch settling. |
| TransactionHistory.DisputeOfferedOnce | online-banking-frontend/src/pages/TransactionHistoryPage.tsx:454 | Only completed rows offer the Dispute action, and a row marked disputed (flag set, status DISPUTED) no longer offers it. |

## Left out

- Floating point and number formatting are not modelled. Amounts are whole cents, and `%.2f`, `toFixed` and `toLocaleString` are not modelled. Notification texts are kept as a `MessageText` datatype rather than formatted strings. The trend's `percentChange` and the chart percentages are not computed.
- `Double.parseDouble` and `parseFloat` are uninterpreted. Their result is a parameter (`Option<int>`). In the notification rules and the settings page, None stands for a failed parse or NaN. In the deposit, withdraw and transfer endpoints, None stands for a missing or unparsable amount, whose exception fails the request. The texts `"NaN"` and `"Infinity"`, which `parseDouble` accepts, are not modelled there.
- The clock is a parameter `now`. It does not advance inside a loop or between the steps of one request.
- `SecureRandom`, the UUID reference number and `System.currentTimeMillis` are parameters: random bytes, the UUID text and the clock reading.
- The `Map.of` visiting order in the categoriser is a parameter constrained to be an ordering of the table.
- The password encoder is an uninterpreted pair of functions `encode` and `matches`, and its exceptions on null input are not modelled.
- `@Transactional` rollback is modelled as "no table changes on error". Deliveries already handed to the push, e-mail or SMS sender before the failure stay in the outbox.
- The e-mail and SMS senders and the WebSocket messaging template are internals, and are out of scope. Each is modelled as a delivery appended to the outbox.
- Cron and fixed-rate scheduling are out of scope. Each scheduled job is one call.
- Concurrent requests and React's effect scheduling are out of scope. Each handler, effect or callback is one atomic step, and the dependency arrays that trigger a refetch (`[currentPage, filters]`) are left to the caller.
- The stale `subscription` captured by the WebSocket effect's cleanup is an interleaving concern. The teardown receives the subscription it holds as a parameter (`held`).
- The exceptions that the cleanup at the start of the WebSocket effect can throw are not modelled. Those in the teardown are: they are swallowed.
- STOMP and SockJS internals, reconnect delay and heartbeats are out of scope, and so is the JSON decoding of a message. A message arrives decoded or undecodable.
- `JSON.stringify` in `sendMessage` is not modelled. The body is passed as a string.
- The export download on the history page (Blob, object URL) and its inline categorise handler call the server and render. They are not modelled beyond the server-side operations.
- `AccountService.getAllAccounts` and the read-only controller endpoints for an account and its balance delegate to repository reads that `AccountService.GetAccountById` and `AccountService.GetBalance` already model.
- `TransactionService.getTransactionsByAccountWithFilters`, `detectRecurringTransactions`, `getTransactionCategorySummary` and `getTransactionAnalytics` are not modelled. They look the account up and copy the results of the modelled repository queries into maps. The monthly-spending query they call is not part of this model.
- Lookup objects on the client (colour tables) are not modelled beyond their own keys. Keys inherited from `Object.prototype` are not considered.
- `formatAccountType` on a `null` type would throw on `charAt`, and that case is not modelled. The model's missing type is `undefined`, which the default parameter turns into `''`.
- Case mapping covers ASCII letters only, as the keyword rules and the client labels only involve them. There is no Unicode case folding.
- NotificationSettings.ToggleFlipsOne: covers the nine boolean fields only. TypeScript's `keyof` would also let the handler be called with `id` or a threshold, which no checkbox does.
- PreferenceController.Copied: a null Boolean in the update body is not modelled. The body's flags are plain booleans.
- The `Notification`, `Transaction` and preference entities' Lombok accessors are plain datatype fields. Entity fields the services use but `Account.java` lacks (e-mail, phone, last login address, time and device, two-factor secret and expiry) are fields of the account datatype.
- A registration body whose `id` names no stored account is saved under a generated id, as Hibernate's `merge` of an unknown detached entity does up to version 6.5. Later Hibernate versions throw an optimistic-locking error in that case, and the model does not.
- The newest-first orderings (`NewestFirst` in the transaction and notification repositories) keep rows with equal timestamps in stored order. `ORDER BY ... DESC` leaves the order of ties to the database, so the model fixes one of the orders the query allows.
- The search LIKE has no escape character. Some databases treat a backslash in the pattern as an escape by default, and that is not modelled.
- `writer.println` and the `%n` of `printf` in the CSV export write the platform's line separator. The model ends every CSV line with a line feed, as on Unix-like systems, and does not model the `\r\n` written on Windows.
