/**
 * The persisted records of the bank: transactions, notifications and the
 * outbound deliveries (WebSocket push, e-mail, SMS) the services trigger.
 * Accounts live in `AccountEntity`, notification preferences in
 * `PreferenceEntity`. Amounts are whole cents; times are seconds on one clock.
 */
module Entities {
  import opened Wrappers

  /** A `LocalDateTime`, as seconds on a common clock. */
  type Instant = int

  const FIVE_MINUTES: int := 300
  const ONE_DAY: int := 86400

  /**
   * A row of the `transactions` table. `sender` and `recipient` are account
   * ids; `id` stays `None` until the row is saved.
   */
  datatype Transaction = Transaction(
    id: Option<int>,
    sender: int,
    recipient: Option<int>,
    amount: int,
    timestamp: Instant,
    status: string,
    description: Option<string>,
    transactionType: Option<string>,
    referenceNumber: Option<string>,
    category: Option<string>,
    isRecurring: bool,
    recurringPattern: Option<string>,
    merchantName: Option<string>,
    isDisputed: bool,
    disputeReason: Option<string>,
    disputeDate: Option<Instant>,
    disputeStatus: Option<string>,
    ipAddress: Option<string>,
    isFraudSuspected: bool,
    fraudReason: Option<string>,
    balanceAfter: Option<int>)

  /**
   * The text of a notification. The services build these with
   * `String.format`; the model keeps the values that go into the text.
   */
  datatype MessageText =
    | Fixed(text: string)
    | Deposited(amount: int)                              // "$%.2f was deposited to your account"
    | Withdrawn(amount: int)                              // "$%.2f was withdrawn from your account"
    | TransferredTo(amount: int, lastDigits: string)      // "... transferred to account ending in %s"
    | ReceivedFrom(amount: int, lastDigits: string)       // "... received from account ending in %s"
    | PaymentReceived(amount: int, from: Option<string>)  // "You received $%.2f from %s"
    | TransactionOutcome(transactionType: Option<string>, amount: int, status: string)
    | DailySummary(count: nat, total: int)                // "Daily Summary: %d transactions totaling $%.2f"

  /** A row of the `notifications` table; `account` is an account id. */
  datatype Notification = Notification(
    id: int,
    account: int,
    message: MessageText,
    notificationType: string,
    timestamp: Instant,
    isRead: bool,
    severity: string,
    referenceId: Option<int>,
    referenceType: Option<string>,
    additionalData: Option<string>)

  /** Something sent out of the system, in the order it was sent. */
  datatype Delivery =
    | Push(accountId: int, notification: Notification)   // /topic/notifications/{accountId}
    | Email(to: string, subject: string, body: MessageText)
    | Sms(to: string, body: MessageText)
    | CodeByEmail(address: Option<string>, code: string)
    | CodeBySms(phone: Option<string>, code: string)
}

/**
 * The `Account` entity: the stored row (`Account`) that the services read
 * and write, and the object form (`AccountObject`) with its constructors and
 * setters.
 */
module AccountEntity {
  import opened Wrappers
  import opened Entities
  import Text

  /**
   * A row of the `accounts` table. Besides the fields the entity class
   * declares, it carries the contact, login and two-factor fields the
   * services read and write.
   */
  datatype Account = Account(
    id: int,
    accountHolderName: Option<string>,
    username: Option<string>,
    password: Option<string>,
    accountNumber: Option<string>,
    balance: int,
    accountType: Option<string>,
    email: Option<string>,
    phoneNumber: Option<string>,
    lastLoginIp: Option<string>,
    lastLoginTime: Option<Instant>,
    lastLoginDevice: Option<string>,
    twoFactorSecret: Option<string>,
    secretExpiry: Option<Instant>)

  const DEFAULT_ACCOUNT_TYPE: string := "SAVINGS"

  /** `"ACC" + System.currentTimeMillis()`: the prefix followed by the clock reading. */
  function GeneratedAccountNumber(millis: nat): (r: string)
    ensures |r| > 3 && r[..3] == "ACC"
    ensures Text.IsDigits(r[3..]) && Text.DigitsValue(r[3..]) == millis
  {
    var digits := Text.NatToString(millis);
    Text.NatToStringRoundTrip(millis);
    assert ("ACC" + digits)[3..] == digits;
    "ACC" + digits
  }

  /** The fields `Account.java` declares, as one value. */
  datatype AccountState = AccountState(
    id: Option<int>,
    accountHolderName: Option<string>,
    username: Option<string>,
    password: Option<string>,
    accountNumber: Option<string>,
    balance: Option<int>,
    accountType: Option<string>)

  /** The entity object before and while it is edited: constructors and setters. */
  class AccountObject {
    var id: Option<int>
    var accountHolderName: Option<string>
    var username: Option<string>
    var password: Option<string>
    var accountNumber: Option<string>
    var balance: Option<int>
    var accountType: Option<string>

    function State(): AccountState
      reads this
    {
      AccountState(id, accountHolderName, username, password, accountNumber, balance, accountType)
    }

    /** `new Account()`: zero balance, savings type, generated number. */
    constructor (millis: nat)
      ensures State() == AccountState(None, None, None, None,
                                      Some(GeneratedAccountNumber(millis)), Some(0), Some(DEFAULT_ACCOUNT_TYPE))
    {
      id := None;
      accountHolderName := None;
      username := None;
      password := None;
      balance := Some(0);
      accountType := Some(DEFAULT_ACCOUNT_TYPE);
      accountNumber := Some(GeneratedAccountNumber(millis));
    }

    /** `new Account(holder, balance)`: savings type, generated number. */
    constructor WithHolder(holder: Option<string>, initialBalance: int, millis: nat)
      ensures State() == AccountState(None, holder, None, None,
                                      Some(GeneratedAccountNumber(millis)), Some(initialBalance), Some(DEFAULT_ACCOUNT_TYPE))
    {
      id := None;
      username := None;
      password := None;
      accountHolderName := holder;
      balance := Some(initialBalance);
      accountType := Some(DEFAULT_ACCOUNT_TYPE);
      accountNumber := Some(GeneratedAccountNumber(millis));
    }

    /** The six-argument constructor: every field as given, nothing generated. */
    constructor Full(holder: Option<string>, user: Option<string>, pass: Option<string>,
                     number: Option<string>, initialBalance: Option<int>, kind: Option<string>)
      ensures State() == AccountState(None, holder, user, pass, number, initialBalance, kind)
    {
      id := None;
      accountHolderName := holder;
      username := user;
      password := pass;
      accountNumber := number;
      balance := initialBalance;
      accountType := kind;
    }

    method SetId(v: Option<int>)
      modifies this
      ensures State() == old(State()).(id := v)
    {
      id := v;
    }

    method SetAccountHolderName(v: Option<string>)
      modifies this
      ensures State() == old(State()).(accountHolderName := v)
    {
      accountHolderName := v;
    }

    method SetUsername(v: Option<string>)
      modifies this
      ensures State() == old(State()).(username := v)
    {
      username := v;
    }

    method SetPassword(v: Option<string>)
      modifies this
      ensures State() == old(State()).(password := v)
    {
      password := v;
    }

    method SetBalance(v: Option<int>)
      modifies this
      ensures State() == old(State()).(balance := v)
    {
      balance := v;
    }

    method SetAccountNumber(v: Option<string>)
      modifies this
      ensures State() == old(State()).(accountNumber := v)
    {
      accountNumber := v;
    }

    method SetAccountType(v: Option<string>)
      modifies this
      ensures State() == old(State()).(accountType := v)
    {
      accountType := v;
    }
  }
}

/** The `NotificationPreference` entity and the values a new one starts with. */
module PreferenceEntity {

  /**
   * A row of the `notification_preferences` table, one per account.
   * Thresholds are in cents.
   */
  datatype NotificationPreference = NotificationPreference(
    id: int,
    account: int,
    enableRealTimeNotifications: bool,
    enableEmailNotifications: bool,
    emailForTransactions: bool,
    emailForSecurity: bool,
    emailForSystem: bool,
    emailTransactionThreshold: int,
    enableSmsNotifications: bool,
    smsForTransactions: bool,
    smsForSecurity: bool,
    smsForSystem: bool,
    smsTransactionThreshold: int)

  const DEFAULT_EMAIL_THRESHOLD: int := 10000   // 100.0
  const DEFAULT_SMS_THRESHOLD: int := 50000     // 500.0

  /** A preference record with every field at its initial value. */
  function DefaultPreference(id: int, account: int): (p: NotificationPreference)
    ensures p.id == id && p.account == account
    ensures p.enableRealTimeNotifications && p.enableEmailNotifications && p.enableSmsNotifications
    ensures p.emailForTransactions && p.emailForSecurity && !p.emailForSystem
    ensures p.smsForTransactions && p.smsForSecurity && !p.smsForSystem
    ensures p.emailTransactionThreshold == DEFAULT_EMAIL_THRESHOLD
    ensures p.smsTransactionThreshold == DEFAULT_SMS_THRESHOLD
  {
    NotificationPreference(id, account,
      true,
      true, true, true, false, DEFAULT_EMAIL_THRESHOLD,
      true, true, true, false, DEFAULT_SMS_THRESHOLD)
  }
}
