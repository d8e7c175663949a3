/**
 * The database the backend services share: the `accounts`, `transactions`,
 * `notifications` and `notification_preferences` tables, the identity
 * counters that number new rows, and the outbox of deliveries that left the
 * system (WebSocket pushes, e-mails, text messages).
 */
module Store {
  import opened Wrappers
  import opened Entities
  import opened AccountEntity
  import opened PreferenceEntity

  /** The contents of every table at one moment. */
  datatype Tables = Tables(
    accounts: map<int, Account>,
    transactions: seq<Transaction>,
    notifications: seq<Notification>,
    /** Keyed by account id: each account has at most one preference row. */
    preferences: map<int, NotificationPreference>,
    outbox: seq<Delivery>,
    nextAccountId: int,
    nextTransactionId: int,
    nextNotificationId: int,
    nextPreferenceId: int)

  /**
   * Rows are keyed by their own ids, transaction ids are distinct, identity
   * counters are ahead of every id handed out, and every transaction's
   * sender is an account (the `sender_id` foreign key).
   */
  ghost predicate Consistent(t: Tables)
  {
    (forall k :: k in t.accounts ==> t.accounts[k].id == k && k < t.nextAccountId)
    && (forall k :: k in t.preferences ==> t.preferences[k].account == k && t.preferences[k].id < t.nextPreferenceId)
    && (forall x :: x in t.transactions ==> x.sender in t.accounts)
    && (forall x :: x in t.transactions ==> x.id.Some? && x.id.value < t.nextTransactionId)
    && (forall i, j :: 0 <= i < j < |t.transactions| ==> t.transactions[i].id != t.transactions[j].id)
    && (forall n :: n in t.notifications ==> n.id < t.nextNotificationId)
  }

  class Db {
    var accounts: map<int, Account>
    var transactions: seq<Transaction>
    var notifications: seq<Notification>
    var preferences: map<int, NotificationPreference>
    var outbox: seq<Delivery>
    var nextAccountId: int
    var nextTransactionId: int
    var nextNotificationId: int
    var nextPreferenceId: int

    function State(): Tables
      reads this
    {
      Tables(accounts, transactions, notifications, preferences, outbox,
             nextAccountId, nextTransactionId, nextNotificationId, nextPreferenceId)
    }

    ghost predicate Valid()
      reads this
    {
      Consistent(State())
    }

    constructor ()
      ensures Valid()
      ensures accounts == map[] && preferences == map[]
      ensures transactions == [] && notifications == [] && outbox == []
    {
      accounts := map[];
      transactions := [];
      notifications := [];
      preferences := map[];
      outbox := [];
      nextAccountId := 1;
      nextTransactionId := 1;
      nextNotificationId := 1;
      nextPreferenceId := 1;
    }

    /** Puts every table back to `t`. */
    method Restore(t: Tables)
      modifies this
      ensures State() == t
    {
      accounts := t.accounts;
      transactions := t.transactions;
      notifications := t.notifications;
      preferences := t.preferences;
      outbox := t.outbox;
      nextAccountId := t.nextAccountId;
      nextTransactionId := t.nextTransactionId;
      nextNotificationId := t.nextNotificationId;
      nextPreferenceId := t.nextPreferenceId;
    }
  }

  /** Some element of a non-empty set (the iteration order of a `findAll`). */
  method Choose<T>(s: set<T>) returns (x: T)
    requires s != {}
    ensures x in s
  {
    x :| x in s;
  }
}
