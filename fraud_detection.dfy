/**
 * The fraud check run on every new transaction: three rules tried in order
 * (unusual amount, unusual location, rapid succession); the first that fires
 * marks the transaction as suspected and records its reason.
 */
module FraudDetection {
  import opened Wrappers
  import opened Entities
  import opened AccountEntity
  import opened TransactionRepository

  const UNUSUAL_AMOUNT: string := "Unusual transaction amount"
  const UNUSUAL_LOCATION: string := "Unusual transaction location"
  const RAPID_TRANSACTIONS: string := "Multiple rapid transactions"

  /** How many of the sender's transactions in the last five minutes make a burst. */
  const RAPID_COUNT: nat := 3

  /**
   * The amount is more than three times the sender's average. The average
   * of no rows is `NULL`, and multiplying it fails: a sender without
   * history is an error.
   */
  function IsUnusualAmount(history: seq<Transaction>, x: Transaction): (r: Result<bool>)
    ensures r.Err? <==> forall y :: y in history ==> y.sender != x.sender
    ensures r.Ok? ==> (r.value <==> x.amount as real > AverageAmount(history, x.sender).value * 3.0)
  {
    match AverageAmount(history, x.sender)
    case None => Err("NullPointerException: no average amount for the sender")
    case Some(avg) => Ok(x.amount as real > avg * 3.0)
  }

  /** The sender last logged in from somewhere, and not from the transaction's address. */
  predicate IsUnusualLocation(sender: Account, x: Transaction)
  {
    sender.lastLoginIp.Some? && Some(sender.lastLoginIp.value) != x.ipAddress
  }

  /** A transaction without an address is unusual for every sender with a recorded login address. */
  lemma NoAddressIsUnusual(sender: Account, x: Transaction)
    requires x.ipAddress.None?
    ensures IsUnusualLocation(sender, x) <==> sender.lastLoginIp.Some?
  {
  }

  /** The sender made at least three transactions in the five minutes before `now`. */
  predicate IsRapidSuccessive(history: seq<Transaction>, x: Transaction, now: Instant)
  {
    |FindBySenderAndTimestampAfter(history, x.sender, now - FIVE_MINUTES)| >= RAPID_COUNT
  }

  /** The verdict: whether the transaction is suspect, and the transaction as marked. */
  datatype Verdict = Verdict(fraudulent: bool, transaction: Transaction)

  function Flag(x: Transaction, reason: string): Transaction
  {
    x.(isFraudSuspected := true, fraudReason := Some(reason))
  }

  /**
   * `analyzeTransaction`: the rules in order, stopping at the first that
   * fires. `history` is the transaction table, `sender` the sender's account.
   */
  function AnalyzeTransaction(history: seq<Transaction>, sender: Account, x: Transaction, now: Instant): (r: Result<Verdict>)
    ensures r.Err? <==> forall y :: y in history ==> y.sender != x.sender
    ensures r.Ok? ==> (r.value.fraudulent <==>
                         IsUnusualAmount(history, x).value
                         || IsUnusualLocation(sender, x)
                         || IsRapidSuccessive(history, x, now))
    ensures r.Ok? && !r.value.fraudulent ==> r.value.transaction == x
    ensures r.Ok? && r.value.fraudulent ==> r.value.transaction == Flag(x, FirstReason(history, sender, x, now))
  {
    match IsUnusualAmount(history, x)
    case Err(e) => Err(e)
    case Ok(unusualAmount) =>
      if unusualAmount then Ok(Verdict(true, Flag(x, UNUSUAL_AMOUNT)))
      else if IsUnusualLocation(sender, x) then Ok(Verdict(true, Flag(x, UNUSUAL_LOCATION)))
      else if IsRapidSuccessive(history, x, now) then Ok(Verdict(true, Flag(x, RAPID_TRANSACTIONS)))
      else Ok(Verdict(false, x))
  }

  /** The reason of the first rule that fires, in rule order (the last one when none does). */
  function FirstReason(history: seq<Transaction>, sender: Account, x: Transaction, now: Instant): string
    requires exists y :: y in history && y.sender == x.sender
  {
    if IsUnusualAmount(history, x).value then UNUSUAL_AMOUNT
    else if IsUnusualLocation(sender, x) then UNUSUAL_LOCATION
    else RAPID_TRANSACTIONS
  }

  /**
   * Rule priority: the location reason is given only when the amount rule
   * did not fire, and the burst reason only when neither of the others did.
   */
  lemma ReasonPriority(history: seq<Transaction>, sender: Account, x: Transaction, now: Instant)
    requires AnalyzeTransaction(history, sender, x, now).Ok?
    requires AnalyzeTransaction(history, sender, x, now).value.fraudulent
    ensures var reason := AnalyzeTransaction(history, sender, x, now).value.transaction.fraudReason;
            (reason == Some(UNUSUAL_AMOUNT) <==> IsUnusualAmount(history, x).value)
            && (reason == Some(UNUSUAL_LOCATION) <==> !IsUnusualAmount(history, x).value && IsUnusualLocation(sender, x))
            && (reason == Some(RAPID_TRANSACTIONS) <==>
                  !IsUnusualAmount(history, x).value && !IsUnusualLocation(sender, x) && IsRapidSuccessive(history, x, now))
  {
  }
}
