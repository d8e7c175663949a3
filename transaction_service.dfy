/**
 * The transaction service: creating a transaction (fraud check, balance
 * check, moving the money, notifications), re-categorising it and disputing
 * it. Each operation is a method on the database, specified by a function of
 * the tables before the call; the lemmas state what the source promises
 * about those functions.
 */
module TransactionService {
  import opened Wrappers
  import opened Entities
  import opened AccountEntity
  import opened Store
  import opened Ledger
  import opened Sequences
  import opened TransactionRepository
  import opened TransactionText
  import opened FraudDetection
  import opened NotificationService
  import Text

  const BLOCKED_MESSAGE: string := "Suspicious transaction detected and blocked. Please contact support."
  const FAILED_MESSAGE: string := "Transaction failed: Insufficient funds"
  const INSUFFICIENT_FUNDS: string := "Insufficient funds"
  const DISPUTE_MESSAGE: string := "Your transaction dispute has been submitted and is under review"
  const NOT_FOUND: string := "Transaction not found"

  /** `"TXN" + UUID.randomUUID().toString().substring(0, 8).toUpperCase()` for the given UUID text. */
  function GenerateReferenceNumber(uuid: string): (r: string)
    requires |uuid| >= 8
    ensures |r| == 11 && r[..3] == "TXN"
    ensures forall i :: 3 <= i < 11 ==> r[i] == Text.UpperChar(uuid[i - 3])
    ensures forall i :: 3 <= i < 11 ==> !('a' <= r[i] <= 'z')
  {
    var tail := Text.ToUpper(uuid[..8]);
    assert ("TXN" + tail)[..3] == "TXN";
    "TXN" + tail
  }

  /** What the caller asks for: sender and recipient accounts, amount, type and description. */
  datatype Request = Request(
    sender: int,
    recipient: Option<int>,
    amount: int,
    transactionType: Option<string>,
    description: Option<string>)

  predicate IsTransfer(q: Request)
  {
    q.transactionType == Some("TRANSFER")
  }

  /** The accounts of the request exist (the service is handed the account objects). */
  predicate Known(t: Tables, q: Request)
  {
    q.sender in t.accounts && (q.recipient.Some? ==> q.recipient.value in t.accounts)
  }

  /** The transaction as first built: pending, stamped `now`, categorised, not yet saved. */
  function NewTransaction(q: Request, reference: string, entries: seq<(string, string)>, now: Instant): Transaction
  {
    Transaction(None, q.sender, q.recipient, q.amount, now, "PENDING", q.description, q.transactionType,
                Some(reference), Some(AutoCategorize(q.description, entries)), false, None,
                ExtractMerchantName(q.description), false, None, None, None, None, false, None, None)
  }

  /**
   * `checkRecurringPattern`: two or more earlier transactions of the sender
   * since `since` with the same description and amount mark this one as
   * monthly recurring. Only those two fields change.
   */
  function CheckRecurringPattern(history: seq<Transaction>, x: Transaction, since: Instant): (r: Transaction)
    ensures r.(isRecurring := x.isRecurring, recurringPattern := x.recurringPattern) == x
    ensures r.isRecurring <==>
              x.isRecurring || |FindSimilarRecentTransactions(history, x.sender, x.description, x.amount, since)| >= 2
    ensures x.description.None? ==> r == x
  {
    if |FindSimilarRecentTransactions(history, x.sender, x.description, x.amount, since)| >= 2 then
      x.(isRecurring := true, recurringPattern := Some("MONTHLY"))
    else x
  }

  /** The balances after the money moves: the sender debited, then a present recipient credited. */
  function Moved(accounts: map<int, Account>, q: Request): map<int, Account>
    requires q.sender in accounts && (q.recipient.Some? ==> q.recipient.value in accounts)
  {
    if q.recipient.Some? then Transfer(accounts, q.sender, q.recipient.value, q.amount)
    else Debit(accounts, q.sender, q.amount)
  }

  /** A created transaction together with the tables it leaves behind. */
  datatype Created = Created(tables: Tables, transaction: Transaction)

  /** `transactionRepository.save(transaction)`: the row gets the next id and is appended. */
  function Saved(t: Tables, x: Transaction): (c: Created)
    ensures c.transaction == x.(id := Some(t.nextTransactionId))
    ensures c.tables.transactions == t.transactions + [c.transaction]
  {
    var stored := x.(id := Some(t.nextTransactionId));
    Created(t.(transactions := t.transactions + [stored], nextTransactionId := t.nextTransactionId + 1), stored)
  }

  /** The fraud check on the freshly built transaction. */
  function Screen(t: Tables, q: Request, reference: string, entries: seq<(string, string)>, now: Instant): Result<Verdict>
    requires Known(t, q)
  {
    AnalyzeTransaction(t.transactions, t.accounts[q.sender], NewTransaction(q, reference, entries, now), now)
  }

  /** Flagged: the sender is warned, no money moves. */
  function FlaggedOutcome(t: Tables, sender: Account, x: Transaction, now: Instant): Created
  {
    Saved(AfterNotify(t, sender, Fixed(BLOCKED_MESSAGE), "SECURITY", "CRITICAL", now), x.(status := "FLAGGED"))
  }

  /** A transfer beyond the balance: the sender is warned, no money moves. */
  function FailedOutcome(t: Tables, sender: Account, x: Transaction, now: Instant): Created
  {
    Saved(AfterNotify(t, sender, Fixed(FAILED_MESSAGE), "TRANSACTION", "WARNING", now),
          x.(status := "FAILED", description := Some(INSUFFICIENT_FUNDS)))
  }

  /** The completed transaction, before it is saved. */
  function CompletedTransaction(t: Tables, q: Request, x: Transaction, since: Instant): Transaction
    requires Known(t, q)
  {
    CheckRecurringPattern(t.transactions,
                          x.(balanceAfter := Some(Moved(t.accounts, q)[q.sender].balance), status := "COMPLETED"), since)
  }

  /** The money moves, the sender is told about the transaction and a recipient about the payment. */
  function CompletedTables(t: Tables, q: Request, x: Transaction, since: Instant, now: Instant): Tables
    requires Known(t, q)
  {
    var moved := Moved(t.accounts, q);
    var notified := AfterTransactionNotify(t.(accounts := moved), CompletedTransaction(t, q, x, since), now);
    if q.recipient.Some? then
      AfterNotify(notified, moved[q.recipient.value],
                  PaymentReceived(q.amount, t.accounts[q.sender].accountHolderName), "TRANSACTION", "INFO", now)
    else notified
  }

  function CompletedOutcome(t: Tables, q: Request, x: Transaction, since: Instant, now: Instant): Created
    requires Known(t, q)
  {
    Saved(CompletedTables(t, q, x, since, now), CompletedTransaction(t, q, x, since))
  }

  /** What `createTransaction` does once the fraud check has given its verdict `v`. */
  function Decide(t: Tables, q: Request, v: Verdict, since: Instant, now: Instant): Created
    requires Known(t, q)
  {
    var sender := t.accounts[q.sender];
    if v.fraudulent then FlaggedOutcome(t, sender, v.transaction, now)
    else if !IsTransfer(q) then Saved(t, v.transaction)
    else if sender.balance < q.amount then FailedOutcome(t, sender, v.transaction, now)
    else CompletedOutcome(t, q, v.transaction, since, now)
  }

  /** The tables and transaction `createTransaction` leaves, or the exception it throws. */
  function CreateOutcome(t: Tables, q: Request, reference: string, entries: seq<(string, string)>,
                         since: Instant, now: Instant): Result<Created>
    requires Known(t, q)
  {
    match Screen(t, q, reference, entries, now)
    case Err(e) => Err(e)
    case Ok(v) => Ok(Decide(t, q, v, since, now))
  }

  /**
   * What the fraud check hands on: the request's pending transaction,
   * marked as suspected, with a reason, exactly when the verdict says so.
   */
  predicate Screened(q: Request, v: Verdict)
  {
    v.transaction.sender == q.sender && v.transaction.status == "PENDING"
    && (v.transaction.isFraudSuspected <==> v.fraudulent)
    && (v.transaction.fraudReason.Some? <==> v.fraudulent)
  }

  lemma ScreenScreened(t: Tables, q: Request, reference: string, entries: seq<(string, string)>, now: Instant)
    requires Known(t, q) && Screen(t, q, reference, entries, now).Ok?
    ensures Screened(q, Screen(t, q, reference, entries, now).value)
  {
  }

  // ---------------------------------------------------------------- the branches

  lemma SavedConsistent(t: Tables, x: Transaction)
    requires Consistent(t) && x.sender in t.accounts
    ensures Consistent(Saved(t, x).tables)
  {
    var r := Saved(t, x).tables;
    forall i, j | 0 <= i < j < |r.transactions| ensures r.transactions[i].id != r.transactions[j].id {
      if j == |t.transactions| {
        assert t.transactions[i] in t.transactions;
      }
    }
  }

  lemma FlaggedEffect(t: Tables, sender: Account, x: Transaction, now: Instant)
    requires Consistent(t) && x.sender in t.accounts
    ensures var c := FlaggedOutcome(t, sender, x, now);
            Consistent(c.tables) && c.tables.accounts == t.accounts
            && c.transaction == x.(status := "FLAGGED", id := Some(t.nextTransactionId))
            && c.tables.notifications == t.notifications
                 + [NewNotification(t, sender.id, Fixed(BLOCKED_MESSAGE), "SECURITY", "CRITICAL", now)]
  {
    var t1 := AfterNotify(t, sender, Fixed(BLOCKED_MESSAGE), "SECURITY", "CRITICAL", now);
    AfterNotifyConsistent(t, sender, Fixed(BLOCKED_MESSAGE), "SECURITY", "CRITICAL", now);
    AfterNotifyEffect(t, sender, Fixed(BLOCKED_MESSAGE), "SECURITY", "CRITICAL", now);
    SavedConsistent(t1, x.(status := "FLAGGED"));
  }

  lemma FailedEffect(t: Tables, sender: Account, x: Transaction, now: Instant)
    requires Consistent(t) && x.sender in t.accounts
    ensures var c := FailedOutcome(t, sender, x, now);
            Consistent(c.tables) && c.tables.accounts == t.accounts
            && c.transaction == x.(status := "FAILED", description := Some(INSUFFICIENT_FUNDS), id := Some(t.nextTransactionId))
            && c.tables.notifications == t.notifications
                 + [NewNotification(t, sender.id, Fixed(FAILED_MESSAGE), "TRANSACTION", "WARNING", now)]
  {
    var t1 := AfterNotify(t, sender, Fixed(FAILED_MESSAGE), "TRANSACTION", "WARNING", now);
    AfterNotifyConsistent(t, sender, Fixed(FAILED_MESSAGE), "TRANSACTION", "WARNING", now);
    AfterNotifyEffect(t, sender, Fixed(FAILED_MESSAGE), "TRANSACTION", "WARNING", now);
    SavedConsistent(t1, x.(status := "FAILED", description := Some(INSUFFICIENT_FUNDS)));
  }

  lemma PendingEffect(t: Tables, x: Transaction)
    requires Consistent(t) && x.sender in t.accounts
    ensures var c := Saved(t, x);
            Consistent(c.tables) && c.tables.accounts == t.accounts && c.transaction == x.(id := Some(t.nextTransactionId))
            && c.tables.notifications == t.notifications
  {
    SavedConsistent(t, x);
  }

  lemma MovedConsistent(t: Tables, q: Request)
    requires Consistent(t) && Known(t, q)
    ensures var after := Moved(t.accounts, q);
            Consistent(t.(accounts := after)) && after.Keys == t.accounts.Keys
  {
    if q.recipient.Some? {
      TransferEffect(t.accounts, q.sender, q.recipient.value, q.amount);
    }
  }

  lemma MovedEffect(t: Tables, q: Request)
    requires Consistent(t) && Known(t, q)
    ensures var after := Moved(t.accounts, q);
            Consistent(t.(accounts := after))
            && after.Keys == t.accounts.Keys
            && (q.recipient != Some(q.sender) ==> after[q.sender].balance == t.accounts[q.sender].balance - q.amount)
            && (q.recipient.Some? && q.recipient != Some(q.sender) ==>
                  after[q.recipient.value].balance == t.accounts[q.recipient.value].balance + q.amount)
            && (q.recipient == Some(q.sender) ==> after == t.accounts)
            && (forall j :: j in t.accounts && j != q.sender && Some(j) != q.recipient ==> after[j] == t.accounts[j])
            && (forall j :: j in t.accounts ==> after[j].(balance := t.accounts[j].balance) == t.accounts[j])
            && (q.recipient.Some? ==> Total(after) == Total(t.accounts))
            && (q.recipient.None? ==> Total(after) == Total(t.accounts) - q.amount)
  {
    if q.recipient.Some? {
      TransferEffect(t.accounts, q.sender, q.recipient.value, q.amount);
    } else {
      DebitTotal(t.accounts, q.sender, q.amount);
    }
  }

  lemma CompletedEffect(t: Tables, q: Request, x: Transaction, since: Instant, now: Instant)
    requires Consistent(t) && Known(t, q) && x.sender == q.sender
    ensures var c := CompletedOutcome(t, q, x, since, now);
            var done := CompletedTransaction(t, q, x, since);
            Consistent(c.tables)
            && c.tables.accounts == Moved(t.accounts, q)
            && c.transaction == done.(id := Some(t.nextTransactionId))
            && done.status == "COMPLETED" && done.balanceAfter == Some(Moved(t.accounts, q)[q.sender].balance)
  {
    var moved := Moved(t.accounts, q);
    MovedConsistent(t, q);
    var done := CompletedTransaction(t, q, x, since);
    var t0 := t.(accounts := moved);
    var notified := AfterTransactionNotify(t0, done, now);
    AfterTransactionNotifyConsistent(t0, done, now);
    if q.recipient.Some? {
      var msg := PaymentReceived(q.amount, t.accounts[q.sender].accountHolderName);
      var a := moved[q.recipient.value];
      AfterNotifyConsistent(notified, a, msg, "TRANSACTION", "INFO", now);
      AfterNotifyEffect(notified, a, msg, "TRANSACTION", "INFO", now);
      SavedConsistent(AfterNotify(notified, a, msg, "TRANSACTION", "INFO", now), done);
    } else {
      SavedConsistent(notified, done);
    }
  }

  lemma CompletedNotifications(t: Tables, q: Request, x: Transaction, since: Instant, now: Instant)
    requires Consistent(t) && Known(t, q)
    ensures var c := CompletedOutcome(t, q, x, since, now);
            var done := CompletedTransaction(t, q, x, since);
            var t0 := t.(accounts := Moved(t.accounts, q));
            var first := TransactionNotification(t0, done, now);
            (q.recipient.None? ==> c.tables.notifications == t.notifications + [first])
            && (q.recipient.Some? ==>
                  c.tables.notifications == t.notifications + [first,
                    NewNotification(AfterTransactionNotify(t0, done, now), q.recipient.value,
                                    PaymentReceived(q.amount, t.accounts[q.sender].accountHolderName), "TRANSACTION", "INFO", now)])
  {
    var moved := Moved(t.accounts, q);
    var done := CompletedTransaction(t, q, x, since);
    var t0 := t.(accounts := moved);
    var notified := AfterTransactionNotify(t0, done, now);
    if q.recipient.Some? {
      var msg := PaymentReceived(q.amount, t.accounts[q.sender].accountHolderName);
      var a := moved[q.recipient.value];
      assert a.id == q.recipient.value by { MovedConsistent(t, q); }
      AfterNotifyEffect(notified, a, msg, "TRANSACTION", "INFO", now);
    }
  }

  // ---------------------------------------------------------------- properties of createTransaction

  /** The fraud check throws, and the transaction is not created, exactly when the sender has no history. */
  lemma CreateFailsWithoutHistory(t: Tables, q: Request, reference: string, entries: seq<(string, string)>,
                                  since: Instant, now: Instant)
    requires Known(t, q)
    ensures CreateOutcome(t, q, reference, entries, since, now).Err? <==>
              forall y :: y in t.transactions ==> y.sender != q.sender
  {
  }

  /**
   * The four outcomes: flagged exactly when the fraud rules fire; otherwise
   * pending for anything but a transfer; a transfer fails when the sender's
   * balance is below the amount and completes otherwise.
   */
  lemma DecideStatus(t: Tables, q: Request, v: Verdict, since: Instant, now: Instant)
    requires Known(t, q) && Screened(q, v)
    ensures var x := Decide(t, q, v, since, now).transaction;
            (x.status == "FLAGGED" <==> v.fraudulent)
            && (x.status == "PENDING" <==> !v.fraudulent && !IsTransfer(q))
            && (x.status == "FAILED" <==> !v.fraudulent && IsTransfer(q) && t.accounts[q.sender].balance < q.amount)
            && (x.status == "COMPLETED" <==> !v.fraudulent && IsTransfer(q) && t.accounts[q.sender].balance >= q.amount)
  {
    if !v.fraudulent && IsTransfer(q) && t.accounts[q.sender].balance >= q.amount {
      assert CompletedTransaction(t, q, v.transaction, since).status == "COMPLETED";
    }
  }

  /** The same four outcomes, stated for the whole of `createTransaction` and the fraud rules it runs. */
  lemma CreateStatus(t: Tables, q: Request, reference: string, entries: seq<(string, string)>,
                     since: Instant, now: Instant)
    requires Known(t, q)
    requires CreateOutcome(t, q, reference, entries, since, now).Ok?
    ensures var x := CreateOutcome(t, q, reference, entries, since, now).value.transaction;
            var v := Screen(t, q, reference, entries, now).value;
            (x.status == "FLAGGED" <==> v.fraudulent)
            && (x.status == "PENDING" <==> !v.fraudulent && !IsTransfer(q))
            && (x.status == "FAILED" <==> !v.fraudulent && IsTransfer(q) && t.accounts[q.sender].balance < q.amount)
            && (x.status == "COMPLETED" <==> !v.fraudulent && IsTransfer(q) && t.accounts[q.sender].balance >= q.amount)
  {
    ScreenScreened(t, q, reference, entries, now);
    DecideStatus(t, q, Screen(t, q, reference, entries, now).value, since, now);
  }

  /** A failed transfer says so in its description; only a flagged one is marked as suspected, with a reason. */
  lemma DecideFailureDetails(t: Tables, q: Request, v: Verdict, since: Instant, now: Instant)
    requires Known(t, q) && Screened(q, v)
    ensures var x := Decide(t, q, v, since, now).transaction;
            (x.status == "FAILED" ==> x.description == Some(INSUFFICIENT_FUNDS))
            && (x.status == "FLAGGED" ==> x.isFraudSuspected && x.fraudReason.Some?)
            && (x.status != "FLAGGED" ==> !x.isFraudSuspected && x.fraudReason.None?)
  {
    DecideStatus(t, q, v, since, now);
  }

  /** Only a completed transfer moves money: a flagged, failed or pending transaction leaves every balance as it was. */
  lemma DecideKeepsBalancesUnlessCompleted(t: Tables, q: Request, v: Verdict, since: Instant, now: Instant)
    requires Consistent(t) && Known(t, q) && Screened(q, v)
    requires Decide(t, q, v, since, now).transaction.status != "COMPLETED"
    ensures Decide(t, q, v, since, now).tables.accounts == t.accounts
  {
    DecideStatus(t, q, v, since, now);
    var sender := t.accounts[q.sender];
    if v.fraudulent {
      FlaggedEffect(t, sender, v.transaction, now);
    } else if !IsTransfer(q) {
      PendingEffect(t, v.transaction);
    } else {
      FailedEffect(t, sender, v.transaction, now);
    }
  }

  /**
   * A completed transfer debits the sender by exactly the amount, credits a
   * different recipient by exactly the amount, touches no other account and
   * records the sender's new balance; with a recipient the bank's total is
   * unchanged, without one it drops by the amount.
   */
  lemma DecideCompletedMovesMoney(t: Tables, q: Request, v: Verdict, since: Instant, now: Instant)
    requires Consistent(t) && Known(t, q) && Screened(q, v)
    requires Decide(t, q, v, since, now).transaction.status == "COMPLETED"
    ensures var c := Decide(t, q, v, since, now);
            var after := c.tables.accounts;
            after.Keys == t.accounts.Keys
            && (q.recipient != Some(q.sender) ==> after[q.sender].balance == t.accounts[q.sender].balance - q.amount)
            && (q.recipient.Some? && q.recipient != Some(q.sender) ==>
                  after[q.recipient.value].balance == t.accounts[q.recipient.value].balance + q.amount)
            && (q.recipient == Some(q.sender) ==> after == t.accounts)
            && (forall j :: j in t.accounts && j != q.sender && Some(j) != q.recipient ==> after[j] == t.accounts[j])
            && c.transaction.balanceAfter == Some(after[q.sender].balance)
            && (q.recipient.Some? ==> Total(after) == Total(t.accounts))
            && (q.recipient.None? ==> Total(after) == Total(t.accounts) - q.amount)
  {
    DecideStatus(t, q, v, since, now);
    CompletedEffect(t, q, v.transaction, since, now);
    MovedEffect(t, q);
  }

  /**
   * The notifications of a transaction that does not complete: a flagged one
   * warns the sender once (SECURITY, CRITICAL), a failed one once
   * (TRANSACTION, WARNING), a pending one not at all.
   */
  lemma DecideNotificationsUnlessCompleted(t: Tables, q: Request, v: Verdict, since: Instant, now: Instant)
    requires Consistent(t) && Known(t, q) && Screened(q, v)
    ensures var c := Decide(t, q, v, since, now);
            (c.transaction.status == "PENDING" ==> c.tables.notifications == t.notifications)
            && (c.transaction.status == "FLAGGED" ==>
                  c.tables.notifications
                    == t.notifications + [NewNotification(t, q.sender, Fixed(BLOCKED_MESSAGE), "SECURITY", "CRITICAL", now)])
            && (c.transaction.status == "FAILED" ==>
                  c.tables.notifications
                    == t.notifications + [NewNotification(t, q.sender, Fixed(FAILED_MESSAGE), "TRANSACTION", "WARNING", now)])
  {
    DecideStatus(t, q, v, since, now);
    var sender := t.accounts[q.sender];
    if v.fraudulent {
      FlaggedEffect(t, sender, v.transaction, now);
    } else if !IsTransfer(q) {
      PendingEffect(t, v.transaction);
    } else if sender.balance < q.amount {
      FailedEffect(t, sender, v.transaction, now);
    }
  }

  /**
   * A completed transaction tells the sender about the transaction and, when
   * there is one, the recipient about the payment, in that order.
   */
  lemma DecideNotificationsWhenCompleted(t: Tables, q: Request, v: Verdict, since: Instant, now: Instant)
    requires Consistent(t) && Known(t, q) && Screened(q, v)
    requires Decide(t, q, v, since, now).transaction.status == "COMPLETED"
    ensures var c := Decide(t, q, v, since, now);
            var added := c.tables.notifications[|t.notifications|..];
            |t.notifications| <= |c.tables.notifications|
            && c.tables.notifications[..|t.notifications|] == t.notifications
            && |added| == (if q.recipient.Some? then 2 else 1)
            && added[0].account == q.sender && added[0].notificationType == "TRANSACTION"
            && added[0].referenceType == Some("TRANSACTION")
            && (q.recipient.Some? ==>
                  added[1].account == q.recipient.value
                  && added[1].message == PaymentReceived(q.amount, t.accounts[q.sender].accountHolderName))
  {
    DecideStatus(t, q, v, since, now);
    CompletedNotifications(t, q, v.transaction, since, now);
  }

  /** Creating a transaction keeps the tables consistent and appends exactly the saved row, under a fresh id. */
  lemma DecideConsistent(t: Tables, q: Request, v: Verdict, since: Instant, now: Instant)
    requires Consistent(t) && Known(t, q) && Screened(q, v)
    ensures var c := Decide(t, q, v, since, now);
            Consistent(c.tables)
            && c.tables.transactions == t.transactions + [c.transaction]
            && c.transaction.id == Some(t.nextTransactionId)
  {
    var sender := t.accounts[q.sender];
    if v.fraudulent {
      FlaggedEffect(t, sender, v.transaction, now);
    } else if !IsTransfer(q) {
      PendingEffect(t, v.transaction);
    } else if sender.balance < q.amount {
      FailedEffect(t, sender, v.transaction, now);
    } else {
      CompletedEffect(t, q, v.transaction, since, now);
    }
  }

  /**
   * `createTransaction(sender, recipient, amount, type, description)`. The
   * reference number, the visiting order of the merchant table, the start
   * of the recurring window (two months ago) and the clock are parameters.
   */
  method CreateTransaction(db: Db, q: Request, reference: string, entries: seq<(string, string)>,
                           since: Instant, now: Instant) returns (r: Result<Transaction>)
    requires db.Valid() && Known(db.State(), q)
    modifies db
    ensures db.Valid()
    ensures CreateOutcome(old(db.State()), q, reference, entries, since, now).Err? ==>
              r == Err(CreateOutcome(old(db.State()), q, reference, entries, since, now).message)
              && db.State() == old(db.State())
    ensures CreateOutcome(old(db.State()), q, reference, entries, since, now).Ok? ==>
              r == Ok(CreateOutcome(old(db.State()), q, reference, entries, since, now).value.transaction)
              && db.State() == CreateOutcome(old(db.State()), q, reference, entries, since, now).value.tables
  {
    var before := db.State();
    var x := NewTransaction(q, reference, entries, now);
    var verdict := AnalyzeTransaction(db.transactions, db.accounts[q.sender], x, now);
    assert verdict == Screen(before, q, reference, entries, now);
    if verdict.Err? {
      return Err(verdict.message);
    }
    ScreenScreened(before, q, reference, entries, now);
    x := Settle(db, q, verdict.value, since, now);
    r := Ok(x);
  }

  /** The rest of `createTransaction`, from the fraud verdict to the saved row. */
  method Settle(db: Db, q: Request, v: Verdict, since: Instant, now: Instant) returns (x: Transaction)
    requires db.Valid() && Known(db.State(), q) && Screened(q, v)
    modifies db
    ensures db.Valid()
    ensures x == Decide(old(db.State()), q, v, since, now).transaction
    ensures db.State() == Decide(old(db.State()), q, v, since, now).tables
  {
    var sender := db.accounts[q.sender];
    x := v.transaction;
    if v.fraudulent {
      x := Reject(db, sender, x.(status := "FLAGGED"), Fixed(BLOCKED_MESSAGE), "SECURITY", "CRITICAL", now);
    } else if !IsTransfer(q) {
      x := Save(db, x);
    } else if sender.balance < q.amount {
      x := Reject(db, sender, x.(status := "FAILED", description := Some(INSUFFICIENT_FUNDS)),
                  Fixed(FAILED_MESSAGE), "TRANSACTION", "WARNING", now);
    } else {
      x := Complete(db, q, x, since, now);
      x := Save(db, x);
    }
  }

  /** A transaction that does not go through: the sender is notified, then the row is saved as it is. */
  method Reject(db: Db, sender: Account, x: Transaction, message: MessageText, notificationType: string,
                severity: string, now: Instant) returns (stored: Transaction)
    requires db.Valid() && x.sender in db.accounts
    modifies db
    ensures db.Valid()
    ensures var after := AfterNotify(old(db.State()), sender, message, notificationType, severity, now);
            stored == Saved(after, x).transaction && db.State() == Saved(after, x).tables
  {
    var _ := CreateNotification(db, sender, message, notificationType, severity, now);
    AfterNotifyEffect(old(db.State()), sender, message, notificationType, severity, now);
    stored := Save(db, x);
  }

  /** `transactionRepository.save(transaction)` for a new row. */
  method Save(db: Db, x: Transaction) returns (stored: Transaction)
    requires db.Valid() && x.sender in db.accounts
    modifies db
    ensures db.Valid()
    ensures stored == Saved(old(db.State()), x).transaction
    ensures db.State() == Saved(old(db.State()), x).tables
  {
    SavedConsistent(db.State(), x);
    stored := x.(id := Some(db.nextTransactionId));
    db.transactions := db.transactions + [stored];
    db.nextTransactionId := db.nextTransactionId + 1;
  }

  /** The transfer branch of `createTransaction` when the balance suffices: move the money, then notify. */
  method Complete(db: Db, q: Request, x0: Transaction, since: Instant, now: Instant) returns (x: Transaction)
    requires db.Valid() && Known(db.State(), q)
    modifies db
    ensures db.Valid()
    ensures x == CompletedTransaction(old(db.State()), q, x0, since)
    ensures db.State() == CompletedTables(old(db.State()), q, x0, since, now)
    ensures db.accounts.Keys == old(db.accounts).Keys
  {
    var before := db.State();
    var sender := db.accounts[q.sender];
    MoveMoney(db, q);
    x := x0.(balanceAfter := Some(db.accounts[q.sender].balance));
    x := x.(status := "COMPLETED");
    x := CheckRecurringPattern(db.transactions, x, since);
    assert x == CompletedTransaction(before, q, x0, since);
    var _ := CreateTransactionNotification(db, x, now);
    if q.recipient.Some? {
      var _ := CreateNotification(db, db.accounts[q.recipient.value],
                                  PaymentReceived(q.amount, sender.accountHolderName), "TRANSACTION", "INFO", now);
    }
  }

  /** The sender's account is debited, then a recipient's credited, each saved in turn. */
  method MoveMoney(db: Db, q: Request)
    requires db.Valid() && Known(db.State(), q)
    modifies db
    ensures db.Valid()
    ensures db.State() == old(db.State()).(accounts := Moved(old(db.accounts), q))
  {
    MovedConsistent(db.State(), q);
    db.accounts := Debit(db.accounts, q.sender, q.amount);
    if q.recipient.Some? {
      db.accounts := Credit(db.accounts, q.recipient.value, q.amount);
    }
  }

  // ---------------------------------------------------------------- categorize and dispute

  /** `categorizeTransaction(id, category)`: only the category of that row changes. */
  function Categorized(t: Tables, id: int, category: Option<string>): (r: Result<Tables>)
    ensures r.Err? <==> FindById(t.transactions, id).None?
    ensures r.Err? ==> r.message == NOT_FOUND
    ensures r.Ok? ==> var i := FindById(t.transactions, id).value;
                      r.value == t.(transactions := t.transactions[i := t.transactions[i].(category := category)])
  {
    match FindById(t.transactions, id)
    case None => Err(NOT_FOUND)
    case Some(i) => Ok(t.(transactions := t.transactions[i := t.transactions[i].(category := category)]))
  }

  /** Re-categorising changes no other field of any row, and keeps the tables consistent. */
  lemma CategorizedChangesOnlyCategory(t: Tables, id: int, category: Option<string>)
    requires Consistent(t)
    requires Categorized(t, id, category).Ok?
    ensures var r := Categorized(t, id, category).value;
            Consistent(r) && |r.transactions| == |t.transactions|
            && (forall k :: 0 <= k < |t.transactions| ==>
                  r.transactions[k].(category := t.transactions[k].category) == t.transactions[k])
            && (forall k :: 0 <= k < |t.transactions| && t.transactions[k].id == Some(id) ==>
                  r.transactions[k].category == category)
            && r.accounts == t.accounts && r.notifications == t.notifications && r.outbox == t.outbox
  {
    var i := FindById(t.transactions, id).value;
    var r := Categorized(t, id, category).value;
    forall k | 0 <= k < |t.transactions| && t.transactions[k].id == Some(id)
      ensures r.transactions[k].category == category
    {
      if k != i {
        assert false;
      }
    }
    assert forall x :: x in r.transactions ==> x in t.transactions || x == t.transactions[i].(category := category);
  }

  method CategorizeTransaction(db: Db, id: int, category: Option<string>) returns (r: Result<Transaction>)
    requires db.Valid()
    modifies db
    ensures db.Valid()
    ensures Categorized(old(db.State()), id, category).Err? ==>
              r == Err(NOT_FOUND) && db.State() == old(db.State())
    ensures Categorized(old(db.State()), id, category).Ok? ==>
              db.State() == Categorized(old(db.State()), id, category).value
              && r == Ok(db.transactions[FindById(old(db.transactions), id).value])
  {
    var found := FindById(db.transactions, id);
    if found.None? {
      return Err(NOT_FOUND);
    }
    CategorizedChangesOnlyCategory(db.State(), id, category);
    var i := found.value;
    var x := db.transactions[i].(category := category);
    db.transactions := db.transactions[i := x];
    r := Ok(x);
  }

  /** The row as `disputeTransaction` leaves it. */
  function Disputed(x: Transaction, reason: Option<string>, now: Instant): Transaction
  {
    x.(isDisputed := true, disputeReason := reason, disputeDate := Some(now),
       disputeStatus := Some("PENDING"), status := "DISPUTED")
  }

  /**
   * `disputeTransaction(id, reason)`: the row is marked disputed, pending
   * review, and its sender is told.
   */
  function DisputeOutcome(t: Tables, id: int, reason: Option<string>, now: Instant): (r: Result<Tables>)
    requires Consistent(t)
  {
    match FindById(t.transactions, id)
    case None => Err(NOT_FOUND)
    case Some(i) =>
      var x := t.transactions[i];
      assert x in t.transactions;
      var notified := AfterNotify(t, t.accounts[x.sender], Fixed(DISPUTE_MESSAGE), "TRANSACTION", "INFO", now);
      Ok(notified.(transactions := notified.transactions[i := Disputed(x, reason, now)]))
  }

  /**
   * A dispute fails for an unknown id and changes nothing; otherwise the row
   * is disputed with status `DISPUTED`, dispute status `PENDING` and the
   * given reason, every other row and every balance is unchanged, and the
   * sender gets one notification.
   */
  lemma DisputeEffect(t: Tables, id: int, reason: Option<string>, now: Instant)
    requires Consistent(t)
    ensures DisputeOutcome(t, id, reason, now).Err? <==> FindById(t.transactions, id).None?
    ensures DisputeOutcome(t, id, reason, now).Err? ==> DisputeOutcome(t, id, reason, now).message == NOT_FOUND
    ensures DisputeOutcome(t, id, reason, now).Ok? ==>
              var i := FindById(t.transactions, id).value;
              var r := DisputeOutcome(t, id, reason, now).value;
              var x := r.transactions[i];
              |r.transactions| == |t.transactions|
              && x.isDisputed && x.status == "DISPUTED" && x.disputeStatus == Some("PENDING")
              && x.disputeReason == reason && x.disputeDate == Some(now)
              && (forall k :: 0 <= k < |t.transactions| && k != i ==> r.transactions[k] == t.transactions[k])
              && r.accounts == t.accounts
              && |r.notifications| == |t.notifications| + 1
              && r.notifications[|t.notifications|].account == t.transactions[i].sender
              && r.notifications[|t.notifications|].message == Fixed(DISPUTE_MESSAGE)
              && Consistent(r)
  {
    match FindById(t.transactions, id)
    case None =>
    case Some(i) =>
      var x := t.transactions[i];
      assert x in t.transactions;
      var a := t.accounts[x.sender];
      AfterNotifyEffect(t, a, Fixed(DISPUTE_MESSAGE), "TRANSACTION", "INFO", now);
      AfterNotifyConsistent(t, a, Fixed(DISPUTE_MESSAGE), "TRANSACTION", "INFO", now);
      var notified := AfterNotify(t, a, Fixed(DISPUTE_MESSAGE), "TRANSACTION", "INFO", now);
      var r := notified.(transactions := notified.transactions[i := Disputed(x, reason, now)]);
      assert forall y :: y in r.transactions ==> y in t.transactions || y == Disputed(x, reason, now);
  }

  method DisputeTransaction(db: Db, id: int, reason: Option<string>, now: Instant) returns (r: Result<Transaction>)
    requires db.Valid()
    modifies db
    ensures db.Valid()
    ensures DisputeOutcome(old(db.State()), id, reason, now).Err? ==>
              r == Err(NOT_FOUND) && db.State() == old(db.State())
    ensures DisputeOutcome(old(db.State()), id, reason, now).Ok? ==>
              db.State() == DisputeOutcome(old(db.State()), id, reason, now).value
              && r.Ok? && r.value == db.transactions[FindById(old(db.transactions), id).value]
  {
    var before := db.State();
    var found := FindById(db.transactions, id);
    if found.None? {
      return Err(NOT_FOUND);
    }
    DisputeEffect(before, id, reason, now);
    var i := found.value;
    var x := Disputed(db.transactions[i], reason, now);
    assert db.transactions[i] in db.transactions;
    var _ := CreateNotification(db, db.accounts[db.transactions[i].sender], Fixed(DISPUTE_MESSAGE), "TRANSACTION", "INFO", now);
    db.transactions := db.transactions[i := x];
    r := Ok(x);
  }
}
