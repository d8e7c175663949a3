/**
 * The scheduled jobs: a daily summary to every account that sent money in
 * the last day, and an hourly reminder for every transaction left FLAGGED
 * for more than a day. Scheduling itself is outside the model; each job is
 * one run at time `now`.
 */
module ScheduledTasks {
  import opened Wrappers
  import opened Entities
  import opened AccountEntity
  import opened Store
  import opened Sequences
  import opened TransactionRepository
  import opened NotificationService

  const FLAGGED_REMINDER: string := "You have a flagged transaction that requires attention"

  // ---------------------------------------------------------------- daily summaries

  /** The account's own transactions of the last day (those it sent, after `now` minus a day). */
  function Daily(ts: seq<Transaction>, account: int, now: Instant): seq<Transaction>
  {
    FindBySenderAndTimestampAfter(ts, account, now - ONE_DAY)
  }

  /** The total the summary reports: the sum of the amounts. */
  function Spent(daily: seq<Transaction>): int
  {
    SumOf(daily, (x: Transaction) => x.amount)
  }

  /** The account sent something in the last day. */
  function SentToday(ts: seq<Transaction>, now: Instant): Account -> bool
  {
    (a: Account) => Daily(ts, a.id, now) != []
  }

  /** The accounts, in listing order, that get a summary: those with a transaction in the last day. */
  function Active(ts: seq<Transaction>, accounts: seq<Account>, now: Instant): seq<Account>
  {
    Filter(accounts, SentToday(ts, now))
  }

  /** One iteration of `sendDailyAccountSummaries`. */
  function SummaryStep(t: Tables, account: Account, now: Instant): Tables
  {
    var daily := Daily(t.transactions, account.id, now);
    if daily == [] then t
    else AfterNotify(t, account, DailySummary(|daily|, Spent(daily)), "SUMMARY", "INFO", now)
  }

  /** `sendDailyAccountSummaries()` over the accounts `findAll` listed, in that order. */
  function Summaries(t: Tables, accounts: seq<Account>, now: Instant): Tables
    decreases |accounts|
  {
    if accounts == [] then t
    else Summaries(SummaryStep(t, accounts[0], now), accounts[1..], now)
  }

  /** The notification a summary for `account` is. */
  predicate IsSummary(n: Notification, ts: seq<Transaction>, account: Account, now: Instant)
  {
    var daily := Daily(ts, account.id, now);
    n.account == account.id && n.notificationType == "SUMMARY" && n.severity == "INFO"
    && n.timestamp == now && !n.isRead
    && n.message == DailySummary(|daily|, Spent(daily))
  }

  /** `ns` holds one summary per account of `accounts`, in the same order. */
  predicate Summarised(ns: seq<Notification>, ts: seq<Transaction>, accounts: seq<Account>, now: Instant)
  {
    |ns| == |accounts| && forall i :: 0 <= i < |ns| ==> IsSummary(ns[i], ts, accounts[i], now)
  }

  lemma SummarisedAppend(ns1: seq<Notification>, ns2: seq<Notification>, ts: seq<Transaction>,
                         as1: seq<Account>, as2: seq<Account>, now: Instant)
    requires Summarised(ns1, ts, as1, now) && Summarised(ns2, ts, as2, now)
    ensures Summarised(ns1 + ns2, ts, as1 + as2, now)
  {
    forall i | 0 <= i < |ns1| + |ns2|
      ensures IsSummary((ns1 + ns2)[i], ts, (as1 + as2)[i], now)
    {
      if i >= |ns1| {
        assert (ns1 + ns2)[i] == ns2[i - |ns1|] && (as1 + as2)[i] == as2[i - |ns1|];
      }
    }
  }

  /** Two appends in a row: what the second run adds follows what the first added. */
  lemma PrefixChain<T>(n0: seq<T>, n1: seq<T>, nr: seq<T>)
    requires |n0| <= |n1| <= |nr| && n1[..|n0|] == n0 && nr[..|n1|] == n1
    ensures nr[..|n0|] == n0 && nr[|n0|..] == n1[|n0|..] + nr[|n1|..]
  {
    assert nr[..|n0|] == nr[..|n1|][..|n0|];
  }

  /** One iteration appends a summary exactly when the account sent something in the last day. */
  lemma SummaryStepEffect(t: Tables, a: Account, now: Instant)
    ensures var r := SummaryStep(t, a, now);
            var pre := if Daily(t.transactions, a.id, now) != [] then [a] else [];
            r.accounts == t.accounts && r.transactions == t.transactions
            && |r.notifications| >= |t.notifications| && r.notifications[..|t.notifications|] == t.notifications
            && Summarised(r.notifications[|t.notifications|..], t.transactions, pre, now)
  {
    var daily := Daily(t.transactions, a.id, now);
    if daily != [] {
      AfterNotifyEffect(t, a, DailySummary(|daily|, Spent(daily)), "SUMMARY", "INFO", now);
    }
  }

  /**
   * The job appends one summary per active account, in listing order and
   * for no other account; each reports how many transactions the account
   * sent in the last day and their total. Accounts and transactions are
   * left as they were.
   */
  lemma {:induction false} SummariesEffect(t: Tables, accounts: seq<Account>, now: Instant)
    ensures var r := Summaries(t, accounts, now);
            r.accounts == t.accounts && r.transactions == t.transactions
            && |r.notifications| >= |t.notifications| && r.notifications[..|t.notifications|] == t.notifications
            && Summarised(r.notifications[|t.notifications|..], t.transactions, Active(t.transactions, accounts, now), now)
    decreases |accounts|
  {
    if accounts != [] {
      var a := accounts[0];
      var t1 := SummaryStep(t, a, now);
      SummaryStepEffect(t, a, now);
      SummariesEffect(t1, accounts[1..], now);
      var r := Summaries(t, accounts, now);
      assert r == Summaries(t1, accounts[1..], now);
      var pre := if Daily(t.transactions, a.id, now) != [] then [a] else [];
      assert Active(t.transactions, accounts, now) == pre + Active(t.transactions, accounts[1..], now);
      var n0, n1, nr := t.notifications, t1.notifications, r.notifications;
      PrefixChain(n0, n1, nr);
      SummarisedAppend(n1[|n0|..], nr[|n1|..], t.transactions, pre, Active(t.transactions, accounts[1..], now), now);
    }
  }

  /**
   * `accounts` is a listing `findAll` may return: every stored account
   * exactly once, in some order. Each listed account is the row stored
   * under its id, and every stored row is listed.
   */
  ghost predicate ListsAll(accounts: seq<Account>, t: Tables)
  {
    NoDuplicates(accounts)
    && (forall a :: a in accounts ==> a.id in t.accounts && t.accounts[a.id] == a)
    && (forall k :: k in t.accounts ==> t.accounts[k] in accounts)
  }

  /** What a filter keeps of a `findAll` listing: stored rows with distinct ids, and every stored row it accepts. */
  lemma FilterOfListing(t: Tables, accounts: seq<Account>, p: Account -> bool)
    requires ListsAll(accounts, t)
    ensures var kept := Filter(accounts, p);
            (forall a :: a in kept ==> a.id in t.accounts && t.accounts[a.id] == a && p(a))
            && (forall i, j :: 0 <= i < j < |kept| ==> kept[i].id != kept[j].id)
            && (forall k :: k in t.accounts && p(t.accounts[k]) ==> t.accounts[k] in kept)
  {
    var kept := Filter(accounts, p);
    NoDuplicatesSubmultiset(accounts, kept);
    forall i, j | 0 <= i < j < |kept| ensures kept[i].id != kept[j].id {
      assert kept[i] in kept && kept[j] in kept;
    }
  }

  /**
   * Summaries of stored active accounts with distinct ids go to distinct
   * stored active accounts, and every account summarised gets one.
   */
  lemma SummarisedListing(added: seq<Notification>, ts: seq<Transaction>, act: seq<Account>, now: Instant,
                          m: map<int, Account>)
    requires Summarised(added, ts, act, now)
    requires forall a :: a in act ==> a.id in m && m[a.id] == a && Daily(ts, a.id, now) != []
    requires forall i, j :: 0 <= i < j < |act| ==> act[i].id != act[j].id
    ensures forall i :: 0 <= i < |added| ==>
              added[i].account in m && Daily(ts, added[i].account, now) != []
              && IsSummary(added[i], ts, m[added[i].account], now)
    ensures forall i, j :: 0 <= i < j < |added| ==> added[i].account != added[j].account
    ensures forall a :: a in act ==> exists i :: 0 <= i < |added| && added[i].account == a.id
  {
    forall i | 0 <= i < |added|
      ensures added[i].account in m && Daily(ts, added[i].account, now) != []
              && IsSummary(added[i], ts, m[added[i].account], now)
    {
      assert IsSummary(added[i], ts, act[i], now) && act[i] in act;
    }
    forall i, j | 0 <= i < j < |added| ensures added[i].account != added[j].account {
      assert IsSummary(added[i], ts, act[i], now) && IsSummary(added[j], ts, act[j], now);
    }
    forall a | a in act ensures exists i :: 0 <= i < |added| && added[i].account == a.id {
      var i :| 0 <= i < |act| && act[i] == a;
      assert IsSummary(added[i], ts, act[i], now);
    }
  }

  /**
   * Over the listing `findAll` returns, the job adds exactly one summary
   * for each stored account that sent something in the last day, and
   * nothing for any other account: every added notification is the
   * summary of a stored, active account, no account gets two, and every
   * active account gets one.
   */
  lemma SummariesPerAccount(t: Tables, accounts: seq<Account>, now: Instant)
    requires Consistent(t) && ListsAll(accounts, t)
    ensures var r := Summaries(t, accounts, now);
            |r.notifications| >= |t.notifications|
            && var added := r.notifications[|t.notifications|..];
            (forall i :: 0 <= i < |added| ==>
               added[i].account in t.accounts && Daily(t.transactions, added[i].account, now) != []
               && IsSummary(added[i], t.transactions, t.accounts[added[i].account], now))
            && (forall i, j :: 0 <= i < j < |added| ==> added[i].account != added[j].account)
            && (forall k :: k in t.accounts && Daily(t.transactions, k, now) != [] ==>
                  exists i :: 0 <= i < |added| && added[i].account == k)
  {
    SummariesEffect(t, accounts, now);
    var ts := t.transactions;
    var act := Active(ts, accounts, now);
    FilterOfListing(t, accounts, SentToday(ts, now));
    var added := Summaries(t, accounts, now).notifications[|t.notifications|..];
    SummarisedListing(added, ts, act, now, t.accounts);
    forall k | k in t.accounts && Daily(ts, k, now) != []
      ensures exists i :: 0 <= i < |added| && added[i].account == k
    {
      assert SentToday(ts, now)(t.accounts[k]);
      assert t.accounts[k] in act;
    }
  }

  /** A stored account that sent nothing in the last day gets no summary. */
  lemma QuietAccountsGetNothing(t: Tables, accounts: seq<Account>, now: Instant, k: int)
    requires Consistent(t) && ListsAll(accounts, t)
    requires Daily(t.transactions, k, now) == []
    ensures var r := Summaries(t, accounts, now);
            |r.notifications| >= |t.notifications|
            && forall i :: |t.notifications| <= i < |r.notifications| ==> r.notifications[i].account != k
  {
    SummariesPerAccount(t, accounts, now);
    var r := Summaries(t, accounts, now);
    var added := r.notifications[|t.notifications|..];
    forall i | |t.notifications| <= i < |r.notifications| ensures r.notifications[i].account != k {
      assert r.notifications[i] == added[i - |t.notifications|];
    }
  }

  lemma {:induction false} SummariesConsistent(t: Tables, accounts: seq<Account>, now: Instant)
    requires Consistent(t)
    ensures Consistent(Summaries(t, accounts, now))
    decreases |accounts|
  {
    if accounts != [] {
      var a := accounts[0];
      var daily := Daily(t.transactions, a.id, now);
      if daily != [] {
        AfterNotifyConsistent(t, a, DailySummary(|daily|, Spent(daily)), "SUMMARY", "INFO", now);
      }
      SummariesConsistent(SummaryStep(t, a, now), accounts[1..], now);
    }
  }

  /** `accounts` is what `accountRepository.findAll()` returned. */
  method SendDailyAccountSummaries(db: Db, accounts: seq<Account>, now: Instant)
    requires db.Valid() && ListsAll(accounts, db.State())
    modifies db
    ensures db.Valid()
    ensures db.State() == Summaries(old(db.State()), accounts, now)
  {
    for i := 0 to |accounts|
      invariant db.Valid()
      invariant Summaries(db.State(), accounts[i..], now) == Summaries(old(db.State()), accounts, now)
    {
      var account := accounts[i];
      assert accounts[i..][1..] == accounts[i + 1..];
      var daily := FindBySenderAndTimestampAfter(db.transactions, account.id, now - ONE_DAY);
      if |daily| > 0 {
        var totalSpent := Spent(daily);
        var _ := CreateNotification(db, account, DailySummary(|daily|, totalSpent), "SUMMARY", "INFO", now);
      }
    }
  }

  // ---------------------------------------------------------------- flagged reminders

  /** The flagged transactions old enough for a reminder: strictly more than a day before `now`. */
  function Overdue(flagged: seq<Transaction>, now: Instant): seq<Transaction>
  {
    Filter(flagged, (x: Transaction) => x.timestamp < now - ONE_DAY)
  }

  /** One iteration of `checkFlaggedTransactions`: remind the sender of an overdue transaction. */
  function ReminderStep(t: Tables, x: Transaction, now: Instant): Tables
    requires x.sender in t.accounts
  {
    if x.timestamp < now - ONE_DAY then
      AfterNotify(t, t.accounts[x.sender], Fixed(FLAGGED_REMINDER), "TRANSACTION", "WARNING", now)
    else t
  }

  /** `checkFlaggedTransactions()` over the rows `findByStatus("FLAGGED")` returned. */
  function Reminders(t: Tables, flagged: seq<Transaction>, now: Instant): Tables
    requires forall x :: x in flagged ==> x.sender in t.accounts
    decreases |flagged|
  {
    if flagged == [] then t
    else
      var t1 := ReminderStep(t, flagged[0], now);
      assert t1.accounts == t.accounts;
      Reminders(t1, flagged[1..], now)
  }

  /** The notification a reminder about `x` is. */
  predicate IsReminder(n: Notification, x: Transaction, now: Instant)
  {
    n.account == x.sender && n.notificationType == "TRANSACTION" && n.severity == "WARNING"
    && n.timestamp == now && !n.isRead && n.message == Fixed(FLAGGED_REMINDER)
  }

  /** `ns` holds one reminder per transaction of `xs`, in the same order. */
  predicate Reminded(ns: seq<Notification>, xs: seq<Transaction>, now: Instant)
  {
    |ns| == |xs| && forall i :: 0 <= i < |ns| ==> IsReminder(ns[i], xs[i], now)
  }

  lemma RemindedAppend(ns1: seq<Notification>, ns2: seq<Notification>, xs1: seq<Transaction>, xs2: seq<Transaction>,
                       now: Instant)
    requires Reminded(ns1, xs1, now) && Reminded(ns2, xs2, now)
    ensures Reminded(ns1 + ns2, xs1 + xs2, now)
  {
    forall i | 0 <= i < |ns1| + |ns2|
      ensures IsReminder((ns1 + ns2)[i], (xs1 + xs2)[i], now)
    {
      if i >= |ns1| {
        assert (ns1 + ns2)[i] == ns2[i - |ns1|] && (xs1 + xs2)[i] == xs2[i - |ns1|];
      }
    }
  }

  /** One iteration appends a reminder exactly when the transaction is overdue. */
  lemma ReminderStepEffect(t: Tables, x: Transaction, now: Instant)
    requires Consistent(t) && x.sender in t.accounts
    ensures var r := ReminderStep(t, x, now);
            var pre := if x.timestamp < now - ONE_DAY then [x] else [];
            r.accounts == t.accounts && r.transactions == t.transactions
            && |r.notifications| >= |t.notifications| && r.notifications[..|t.notifications|] == t.notifications
            && Reminded(r.notifications[|t.notifications|..], pre, now)
  {
    if x.timestamp < now - ONE_DAY {
      var r := ReminderStep(t, x, now);
      AfterNotifyEffect(t, t.accounts[x.sender], Fixed(FLAGGED_REMINDER), "TRANSACTION", "WARNING", now);
      assert r.notifications[|t.notifications|..]
          == [NewNotification(t, x.sender, Fixed(FLAGGED_REMINDER), "TRANSACTION", "WARNING", now)];
    }
  }

  /**
   * The job appends one warning per overdue transaction, in order, each to
   * that transaction's sender, and none for a newer one; accounts and
   * transactions are left as they were.
   */
  lemma {:induction false} RemindersEffect(t: Tables, flagged: seq<Transaction>, now: Instant)
    requires Consistent(t) && forall x :: x in flagged ==> x.sender in t.accounts
    ensures var r := Reminders(t, flagged, now);
            r.accounts == t.accounts && r.transactions == t.transactions
            && |r.notifications| >= |t.notifications| && r.notifications[..|t.notifications|] == t.notifications
            && Reminded(r.notifications[|t.notifications|..], Overdue(flagged, now), now)
    decreases |flagged|
  {
    if flagged != [] {
      var x := flagged[0];
      var t1 := ReminderStep(t, x, now);
      ReminderStepEffect(t, x, now);
      RemindersConsistent(t, [x], now);
      assert Reminders(t, [x], now) == t1;
      RemindersEffect(t1, flagged[1..], now);
      var r := Reminders(t, flagged, now);
      assert r == Reminders(t1, flagged[1..], now);
      var pre := if x.timestamp < now - ONE_DAY then [x] else [];
      assert Overdue(flagged, now) == pre + Overdue(flagged[1..], now);
      var n0, n1, nr := t.notifications, t1.notifications, r.notifications;
      PrefixChain(n0, n1, nr);
      RemindedAppend(n1[|n0|..], nr[|n1|..], pre, Overdue(flagged[1..], now), now);
    }
  }

  lemma {:induction false} RemindersConsistent(t: Tables, flagged: seq<Transaction>, now: Instant)
    requires Consistent(t) && forall x :: x in flagged ==> x.sender in t.accounts
    ensures Consistent(Reminders(t, flagged, now))
    decreases |flagged|
  {
    if flagged != [] {
      var x := flagged[0];
      if x.timestamp < now - ONE_DAY {
        AfterNotifyConsistent(t, t.accounts[x.sender], Fixed(FLAGGED_REMINDER), "TRANSACTION", "WARNING", now);
      }
      RemindersConsistent(ReminderStep(t, x, now), flagged[1..], now);
    }
  }

  /** Only FLAGGED rows are looked at, and each reminder goes to a sender of one. */
  lemma RemindersOnlyForFlagged(t: Tables, now: Instant, i: int)
    requires Consistent(t)
    requires 0 <= i < |Overdue(FindByStatus(t.transactions, "FLAGGED"), now)|
    ensures var x := Overdue(FindByStatus(t.transactions, "FLAGGED"), now)[i];
            x in t.transactions && x.status == "FLAGGED" && x.timestamp < now - ONE_DAY
  {
    var x := Overdue(FindByStatus(t.transactions, "FLAGGED"), now)[i];
    assert x in Overdue(FindByStatus(t.transactions, "FLAGGED"), now);
  }

  method CheckFlaggedTransactions(db: Db, now: Instant)
    requires db.Valid()
    modifies db
    ensures db.Valid()
    ensures forall x :: x in FindByStatus(old(db.transactions), "FLAGGED") ==> x.sender in old(db.accounts)
    ensures db.State() == Reminders(old(db.State()), FindByStatus(old(db.transactions), "FLAGGED"), now)
  {
    var flaggedTransactions := FindByStatus(db.transactions, "FLAGGED");
    for i := 0 to |flaggedTransactions|
      invariant db.Valid()
      invariant db.accounts == old(db.accounts)
      invariant Reminders(db.State(), flaggedTransactions[i..], now)
                == Reminders(old(db.State()), flaggedTransactions, now)
    {
      var x := flaggedTransactions[i];
      assert flaggedTransactions[i..][1..] == flaggedTransactions[i + 1..];
      assert x in flaggedTransactions;
      if x.timestamp < now - ONE_DAY {
        ghost var before := db.State();
        var _ := CreateNotification(db, db.accounts[x.sender], Fixed(FLAGGED_REMINDER), "TRANSACTION", "WARNING", now);
        AfterNotifyEffect(before, before.accounts[x.sender], Fixed(FLAGGED_REMINDER), "TRANSACTION", "WARNING", now);
      }
    }
  }
}
