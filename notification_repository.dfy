/**
 * The derived queries of the notification repository, over the
 * `notifications` table in table order.
 */
module NotificationRepository {
  import opened Entities
  import opened Sequences

  /** `ORDER BY timestamp DESC`; rows with equal timestamps keep table order. */
  function NewestFirst(ns: seq<Notification>): (r: seq<Notification>)
    ensures multiset(r) == multiset(ns)
    ensures forall n :: n in r <==> n in ns
    ensures forall i, j :: 0 <= i < j < |r| ==> r[i].timestamp >= r[j].timestamp
  {
    SortBy(ns, (a: Notification, b: Notification) => a.timestamp >= b.timestamp)
  }

  function OfAccount(account: int): Notification -> bool
  {
    (n: Notification) => n.account == account
  }

  function UnreadOf(account: int): Notification -> bool
  {
    (n: Notification) => n.account == account && !n.isRead
  }

  /** `findByAccountOrderByTimestampDesc`: the account's notifications, each as often as stored, newest first. */
  function FindByAccountOrderByTimestampDesc(ns: seq<Notification>, account: int): (r: seq<Notification>)
    ensures forall n :: multiset(r)[n] == if n.account == account then multiset(ns)[n] else 0
    ensures forall i, j :: 0 <= i < j < |r| ==> r[i].timestamp >= r[j].timestamp
  {
    FilterCounts(ns, OfAccount(account));
    NewestFirst(Filter(ns, OfAccount(account)))
  }

  /** `findByAccountAndIsReadFalseOrderByTimestampDesc`: the account's unread notifications, newest first. */
  function FindUnreadByAccount(ns: seq<Notification>, account: int): (r: seq<Notification>)
    ensures forall n :: multiset(r)[n] == if n.account == account && !n.isRead then multiset(ns)[n] else 0
    ensures forall i, j :: 0 <= i < j < |r| ==> r[i].timestamp >= r[j].timestamp
  {
    FilterCounts(ns, UnreadOf(account));
    NewestFirst(Filter(ns, UnreadOf(account)))
  }

  /** `countByAccountAndIsReadFalse`: the length of the unread list. */
  function CountUnreadByAccount(ns: seq<Notification>, account: int): (r: nat)
    ensures r == |FindUnreadByAccount(ns, account)|
  {
    |Filter(ns, UnreadOf(account))|
  }

  /** Every unread notification of the account is also in its full list, as often. */
  lemma UnreadWithinAll(ns: seq<Notification>, account: int)
    ensures multiset(FindUnreadByAccount(ns, account)) <= multiset(FindByAccountOrderByTimestampDesc(ns, account))
    ensures CountUnreadByAccount(ns, account) <= |FindByAccountOrderByTimestampDesc(ns, account)|
  {
    var u, a := FindUnreadByAccount(ns, account), FindByAccountOrderByTimestampDesc(ns, account);
    assert multiset(u) <= multiset(a) by {
      forall n ensures multiset(u)[n] <= multiset(a)[n] {
      }
    }
    assert |multiset(u)| <= |multiset(a)| by {
      assert multiset(a) == multiset(u) + (multiset(a) - multiset(u));
    }
  }
}
