/**
 * Creating notifications and routing them to the channels the account's
 * preferences ask for: a WebSocket push, an e-mail, a text message.
 * Each operation is a method on the database, specified by a function of the
 * tables before the call.
 */
module NotificationService {
  import opened Wrappers
  import opened Entities
  import opened AccountEntity
  import opened PreferenceEntity
  import opened Store
  import Text

  // ---------------------------------------------------------------- routing

  /**
   * Whether an e-mail is wanted for a notification of this type, once e-mail
   * is enabled. `parsedAmount` is the number read from `additionalData`
   * after the word "amount", `None` when it cannot be read.
   */
  function EmailWanted(pref: NotificationPreference, notificationType: string,
                       additionalData: Option<string>, parsedAmount: Option<int>): bool
  {
    if notificationType == "SECURITY" && pref.emailForSecurity then true
    else if notificationType == "TRANSACTION" && pref.emailForTransactions then
      if additionalData.Some? && Text.Contains(additionalData.value, "amount") then
        match parsedAmount
        case None => true
        case Some(amount) => amount >= pref.emailTransactionThreshold
      else true
    else if notificationType == "SYSTEM" && pref.emailForSystem then true
    else false
  }

  /**
   * An e-mail goes out for exactly three kinds of notification: security
   * ones when asked for, system ones when asked for, and transaction ones
   * when asked for and the amount (if one can be read) reaches the threshold.
   */
  lemma EmailWantedCases(pref: NotificationPreference, notificationType: string,
                         additionalData: Option<string>, parsedAmount: Option<int>)
    ensures EmailWanted(pref, notificationType, additionalData, parsedAmount) <==>
              (notificationType == "SECURITY" && pref.emailForSecurity)
              || (notificationType == "SYSTEM" && pref.emailForSystem)
              || (notificationType == "TRANSACTION" && pref.emailForTransactions
                  && (additionalData.None? || !Text.Contains(additionalData.value, "amount")
                      || parsedAmount.None? || parsedAmount.value >= pref.emailTransactionThreshold))
  {
  }

  /** Without an amount to read, a transaction e-mail ignores the threshold. */
  lemma EmailIgnoresThresholdWithoutData(pref: NotificationPreference, parsedAmount: Option<int>, threshold: int)
    ensures EmailWanted(pref, "TRANSACTION", None, parsedAmount)
         == EmailWanted(pref.(emailTransactionThreshold := threshold), "TRANSACTION", None, parsedAmount)
    ensures EmailWanted(pref, "TRANSACTION", None, parsedAmount) == pref.emailForTransactions
  {
  }

  /** Notification types other than the three named ones are never e-mailed. */
  lemma OtherTypesNotEmailed(pref: NotificationPreference, notificationType: string,
                             additionalData: Option<string>, parsedAmount: Option<int>)
    requires notificationType != "SECURITY" && notificationType != "TRANSACTION" && notificationType != "SYSTEM"
    ensures !EmailWanted(pref, notificationType, additionalData, parsedAmount)
  {
  }

  /**
   * Whether a text message is wanted: critical notifications when SMS is on
   * for security, transaction notifications when SMS is on for transactions.
   * The SMS threshold and the system flag are not consulted.
   */
  function SmsWanted(pref: NotificationPreference, notificationType: string, severity: string): bool
  {
    pref.enableSmsNotifications
    && ((severity == "CRITICAL" && pref.smsForSecurity)
        || (notificationType == "TRANSACTION" && pref.smsForTransactions))
  }

  lemma SmsIgnoresThresholdAndSystem(pref: NotificationPreference, notificationType: string, severity: string,
                                     threshold: int, forSystem: bool)
    ensures SmsWanted(pref, notificationType, severity)
         == SmsWanted(pref.(smsTransactionThreshold := threshold, smsForSystem := forSystem), notificationType, severity)
  {
  }

  /** The subject line of a notification e-mail. */
  function EmailSubject(notificationType: string): string
  {
    "Bank Notification: " + notificationType
  }

  /**
   * What is sent for notification `n` of `account` under `pref`, in order:
   * a push if real-time notifications are on, an e-mail if e-mail is on, one
   * is wanted and the account has an address, a text message if one is
   * wanted and the account has a phone number.
   */
  function Deliveries(pref: NotificationPreference, account: Account, n: Notification): seq<Delivery>
  {
    (if pref.enableRealTimeNotifications then [Push(account.id, n)] else [])
    + (if pref.enableEmailNotifications && EmailWanted(pref, n.notificationType, n.additionalData, None)
          && account.email.Some?
       then [Email(account.email.value, EmailSubject(n.notificationType), n.message)] else [])
    + (if SmsWanted(pref, n.notificationType, n.severity) && account.phoneNumber.Some?
       then [Sms(account.phoneNumber.value, n.message)] else [])
  }

  /**
   * A push is sent exactly when real-time notifications are on; an e-mail
   * exactly when e-mail is on, one is wanted and the account has an
   * address; a text message exactly when one is wanted and the account has a
   * phone number. Nothing else is sent.
   */
  lemma DeliveriesRouting(pref: NotificationPreference, account: Account, n: Notification)
    ensures var ds := Deliveries(pref, account, n);
            (Push(account.id, n) in ds <==> pref.enableRealTimeNotifications)
            && ((exists d :: d in ds && d.Email?) <==>
                  pref.enableEmailNotifications && account.email.Some?
                  && EmailWanted(pref, n.notificationType, n.additionalData, None))
            && ((exists d :: d in ds && d.Sms?) <==>
                  SmsWanted(pref, n.notificationType, n.severity) && account.phoneNumber.Some?)
            && (forall d :: d in ds && d.Email? ==>
                  d == Email(account.email.value, EmailSubject(n.notificationType), n.message))
            && (forall d :: d in ds && d.Sms? ==> d == Sms(account.phoneNumber.value, n.message))
            && (forall d :: d in ds && d.Push? ==> d == Push(account.id, n))
            && |ds| <= 3
  {
    var ds := Deliveries(pref, account, n);
    var email := if pref.enableEmailNotifications && EmailWanted(pref, n.notificationType, n.additionalData, None)
                    && account.email.Some?
                 then [Email(account.email.value, EmailSubject(n.notificationType), n.message)] else [];
    var sms := if SmsWanted(pref, n.notificationType, n.severity) && account.phoneNumber.Some?
               then [Sms(account.phoneNumber.value, n.message)] else [];
    assert email != [] ==> email[0] in ds;
    assert sms != [] ==> sms[0] in ds;
  }

  // ---------------------------------------------------------------- preferences

  /** The account's stored preferences, or the defaults a new record would get. */
  function PreferenceFor(t: Tables, accountId: int): (p: NotificationPreference)
    ensures accountId in t.preferences ==> p == t.preferences[accountId]
    ensures accountId !in t.preferences ==> p == DefaultPreference(t.nextPreferenceId, accountId)
  {
    if accountId in t.preferences then t.preferences[accountId] else DefaultPreference(t.nextPreferenceId, accountId)
  }

  /** `findByAccount(account).orElseGet(save(new default))`: the tables after the lookup. */
  function WithPreference(t: Tables, accountId: int): (r: Tables)
    ensures accountId in r.preferences && r.preferences[accountId] == PreferenceFor(t, accountId)
    ensures r.preferences == t.preferences[accountId := PreferenceFor(t, accountId)]
    ensures accountId in t.preferences ==> r == t
    ensures accountId !in t.preferences ==> r == t.(preferences := r.preferences, nextPreferenceId := t.nextPreferenceId + 1)
  {
    if accountId in t.preferences then t
    else t.(preferences := t.preferences[accountId := DefaultPreference(t.nextPreferenceId, accountId)],
            nextPreferenceId := t.nextPreferenceId + 1)
  }

  /** A stored preference is found again: get-or-create is idempotent. */
  lemma WithPreferenceIdempotent(t: Tables, accountId: int)
    ensures WithPreference(WithPreference(t, accountId), accountId) == WithPreference(t, accountId)
    ensures PreferenceFor(WithPreference(t, accountId), accountId) == PreferenceFor(t, accountId)
  {
  }

  lemma WithPreferenceConsistent(t: Tables, accountId: int)
    requires Consistent(t)
    ensures Consistent(WithPreference(t, accountId))
  {
  }

  // ---------------------------------------------------------------- createNotification

  /** The notification `createNotification` saves: unread, stamped `now`, with the next id. */
  function NewNotification(t: Tables, accountId: int, message: MessageText, notificationType: string,
                           severity: string, now: Instant): (n: Notification)
    ensures n.id == t.nextNotificationId && n.account == accountId && n.message == message
    ensures n.notificationType == notificationType && n.severity == severity && n.timestamp == now
    ensures !n.isRead && n.referenceId.None? && n.referenceType.None? && n.additionalData.None?
  {
    Notification(t.nextNotificationId, accountId, message, notificationType, now, false, severity, None, None, None)
  }

  /** The tables after `createNotification`: saved row, preference looked up or created, deliveries sent. */
  function AfterNotify(t: Tables, account: Account, message: MessageText, notificationType: string,
                       severity: string, now: Instant): Tables
  {
    var n := NewNotification(t, account.id, message, notificationType, severity, now);
    var saved := t.(notifications := t.notifications + [n], nextNotificationId := t.nextNotificationId + 1);
    var withPref := WithPreference(saved, account.id);
    withPref.(outbox := withPref.outbox + Deliveries(PreferenceFor(saved, account.id), account, n))
  }

  /**
   * `createNotification` appends exactly one notification and sends exactly
   * the deliveries the account's preferences (or the defaults) ask for; it
   * changes no account and no transaction.
   */
  lemma AfterNotifyEffect(t: Tables, account: Account, message: MessageText, notificationType: string,
                          severity: string, now: Instant)
    ensures var r := AfterNotify(t, account, message, notificationType, severity, now);
            var n := NewNotification(t, account.id, message, notificationType, severity, now);
            r.notifications == t.notifications + [n]
            && r.outbox == t.outbox + Deliveries(PreferenceFor(t, account.id), account, n)
            && r.preferences == t.preferences[account.id := PreferenceFor(t, account.id)]
            && r.accounts == t.accounts && r.transactions == t.transactions
            && r.nextNotificationId == t.nextNotificationId + 1
            && r.nextAccountId == t.nextAccountId && r.nextTransactionId == t.nextTransactionId
  {
  }

  /** An account without preferences gets the default record, saved under its id. */
  lemma AfterNotifyCreatesDefault(t: Tables, account: Account, message: MessageText, notificationType: string,
                                  severity: string, now: Instant)
    requires account.id !in t.preferences
    ensures AfterNotify(t, account, message, notificationType, severity, now).preferences
         == t.preferences[account.id := DefaultPreference(t.nextPreferenceId, account.id)]
  {
  }

  /** With default preferences, a notification is always pushed. */
  lemma DefaultPreferencesPush(t: Tables, account: Account, message: MessageText, notificationType: string,
                               severity: string, now: Instant)
    requires account.id !in t.preferences
    ensures var n := NewNotification(t, account.id, message, notificationType, severity, now);
            Push(account.id, n) in AfterNotify(t, account, message, notificationType, severity, now).outbox
  {
    var n := NewNotification(t, account.id, message, notificationType, severity, now);
    var d := Deliveries(PreferenceFor(t, account.id), account, n);
    DeliveriesRouting(PreferenceFor(t, account.id), account, n);
    assert AfterNotify(t, account, message, notificationType, severity, now).outbox == t.outbox + d;
  }

  lemma AfterNotifyConsistent(t: Tables, account: Account, message: MessageText, notificationType: string,
                              severity: string, now: Instant)
    requires Consistent(t)
    ensures Consistent(AfterNotify(t, account, message, notificationType, severity, now))
  {
    var n := NewNotification(t, account.id, message, notificationType, severity, now);
    var saved := t.(notifications := t.notifications + [n], nextNotificationId := t.nextNotificationId + 1);
    assert Consistent(saved);
    WithPreferenceConsistent(saved, account.id);
  }

  /** `createNotification(account, message, type, severity)` */
  method CreateNotification(db: Db, account: Account, message: MessageText, notificationType: string,
                            severity: string, now: Instant) returns (n: Notification)
    requires db.Valid()
    modifies db
    ensures db.Valid()
    ensures n == NewNotification(old(db.State()), account.id, message, notificationType, severity, now)
    ensures db.State() == AfterNotify(old(db.State()), account, message, notificationType, severity, now)
  {
    var before := db.State();
    AfterNotifyConsistent(before, account, message, notificationType, severity, now);
    n := NewNotification(before, account.id, message, notificationType, severity, now);
    db.notifications := db.notifications + [n];
    db.nextNotificationId := db.nextNotificationId + 1;
    ghost var saved := db.State();
    var pref: NotificationPreference;
    if account.id in db.preferences {
      pref := db.preferences[account.id];
    } else {
      pref := DefaultPreference(db.nextPreferenceId, account.id);
      db.preferences := db.preferences[account.id := pref];
      db.nextPreferenceId := db.nextPreferenceId + 1;
    }
    assert pref == PreferenceFor(saved, account.id);
    assert db.State() == WithPreference(saved, account.id);
    var sent: seq<Delivery> := [];
    if pref.enableRealTimeNotifications {
      sent := sent + [Push(account.id, n)];
    }
    if pref.enableEmailNotifications {
      var shouldSendEmail := EmailWanted(pref, notificationType, n.additionalData, None);
      if shouldSendEmail && account.email.Some? {
        sent := sent + [Email(account.email.value, EmailSubject(notificationType), message)];
      }
    }
    if SmsWanted(pref, notificationType, severity) {
      if account.phoneNumber.Some? {
        sent := sent + [Sms(account.phoneNumber.value, message)];
      }
    }
    assert sent == Deliveries(pref, account, n);
    db.outbox := db.outbox + sent;
  }

  // ---------------------------------------------------------------- createTransactionNotification

  /** The notification about a transaction's outcome, addressed to its sender. */
  function TransactionNotification(t: Tables, x: Transaction, now: Instant): (n: Notification)
    ensures n.id == t.nextNotificationId && n.account == x.sender && !n.isRead
    ensures n.notificationType == "TRANSACTION" && n.severity == "INFO"
    ensures n.referenceId == x.id && n.referenceType == Some("TRANSACTION")
    ensures n.message == TransactionOutcome(x.transactionType, x.amount, x.status)
  {
    Notification(t.nextNotificationId, x.sender, TransactionOutcome(x.transactionType, x.amount, x.status),
                 "TRANSACTION", now, false, "INFO", x.id, Some("TRANSACTION"), None)
  }

  /** The tables after `createTransactionNotification`: saved, and pushed whatever the preferences say. */
  function AfterTransactionNotify(t: Tables, x: Transaction, now: Instant): (r: Tables)
    ensures r.notifications == t.notifications + [TransactionNotification(t, x, now)]
    ensures r.outbox == t.outbox + [Push(x.sender, TransactionNotification(t, x, now))]
    ensures r.preferences == t.preferences && r.accounts == t.accounts && r.transactions == t.transactions
    ensures r.nextNotificationId == t.nextNotificationId + 1 && r.nextTransactionId == t.nextTransactionId
  {
    var n := TransactionNotification(t, x, now);
    t.(notifications := t.notifications + [n], nextNotificationId := t.nextNotificationId + 1,
       outbox := t.outbox + [Push(x.sender, n)])
  }

  lemma AfterTransactionNotifyConsistent(t: Tables, x: Transaction, now: Instant)
    requires Consistent(t)
    ensures Consistent(AfterTransactionNotify(t, x, now))
  {
  }

  /** `createTransactionNotification(transaction)` */
  method CreateTransactionNotification(db: Db, x: Transaction, now: Instant) returns (n: Notification)
    requires db.Valid()
    modifies db
    ensures db.Valid()
    ensures n == TransactionNotification(old(db.State()), x, now)
    ensures db.State() == AfterTransactionNotify(old(db.State()), x, now)
  {
    n := TransactionNotification(db.State(), x, now);
    db.notifications := db.notifications + [n];
    db.nextNotificationId := db.nextNotificationId + 1;
    db.outbox := db.outbox + [Push(x.sender, n)];
  }

  // ---------------------------------------------------------------- markAsRead

  /** Every notification with id `id` marked read; the others as they were. */
  function MarkReadById(ns: seq<Notification>, id: int): (r: seq<Notification>)
    ensures |r| == |ns|
    ensures forall i :: 0 <= i < |ns| ==> r[i] == if ns[i].id == id then ns[i].(isRead := true) else ns[i]
  {
    seq(|ns|, i requires 0 <= i < |ns| => if ns[i].id == id then ns[i].(isRead := true) else ns[i])
  }

  /** Marking twice is marking once; marking an absent id changes nothing. */
  lemma MarkReadByIdProperties(ns: seq<Notification>, id: int)
    ensures MarkReadById(MarkReadById(ns, id), id) == MarkReadById(ns, id)
    ensures (forall i :: 0 <= i < |ns| ==> ns[i].id != id) ==> MarkReadById(ns, id) == ns
    ensures forall i :: 0 <= i < |ns| && ns[i].id == id ==> MarkReadById(ns, id)[i].isRead
  {
  }

  /** `markAsRead(notificationId)` */
  method MarkAsRead(db: Db, id: int)
    requires db.Valid()
    modifies db
    ensures db.Valid()
    ensures db.State() == old(db.State()).(notifications := MarkReadById(old(db.notifications), id))
  {
    db.notifications := MarkReadById(db.notifications, id);
    assert forall n :: n in db.notifications ==> n.id < db.nextNotificationId by {
      forall n | n in db.notifications ensures n.id < db.nextNotificationId {
        var i :| 0 <= i < |db.notifications| && db.notifications[i] == n;
        assert old(db.notifications)[i] in old(db.notifications);
      }
    }
  }
}
