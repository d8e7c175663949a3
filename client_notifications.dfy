/**
 * The browser's copy of a notification, and the list update both the bell
 * and the notifications page apply when a mark-as-read request succeeds.
 */
module ClientNotifications {
  import opened Wrappers

  /** A notification as the browser holds it: the JSON of the server's record. */
  datatype ClientNotification = ClientNotification(
    id: int,
    message: string,
    notificationType: string,
    timestamp: string,
    isRead: bool,
    severity: string,
    referenceId: Option<int>,
    referenceType: Option<string>)

  /** A `number | null` user id used as a condition: null and 0 are both falsy. */
  predicate UserIdPresent(userId: Option<int>)
  {
    userId.Some? && userId.value != 0
  }

  /** `list.map(n => n.id === id ? { ...n, isRead: true } : n)`. */
  function MarkRead(list: seq<ClientNotification>, id: int): (r: seq<ClientNotification>)
    ensures |r| == |list|
  {
    if list == [] then []
    else [if list[0].id == id then list[0].(isRead := true) else list[0]] + MarkRead(list[1..], id)
  }

  /**
   * Marking touches only the entries carrying `id`, and of those only the
   * read flag, which it sets; every other entry stays where it was.
   */
  lemma {:induction false} MarkReadEntries(list: seq<ClientNotification>, id: int)
    ensures var r := MarkRead(list, id);
            forall i :: 0 <= i < |list| ==>
              r[i].(isRead := list[i].isRead) == list[i]
              && (list[i].id == id ==> r[i].isRead)
              && (list[i].id != id ==> r[i] == list[i])
  {
    if list != [] {
      MarkReadEntries(list[1..], id);
      var r := MarkRead(list, id);
      forall i | 1 <= i < |list|
        ensures r[i] == MarkRead(list[1..], id)[i - 1]
      {
      }
    }
  }

  /** After marking, no entry with that id is unread. */
  lemma MarkReadLeavesNoneUnread(list: seq<ClientNotification>, id: int)
    ensures forall n :: n in MarkRead(list, id) && n.id == id ==> n.isRead
  {
    MarkReadEntries(list, id);
    var r := MarkRead(list, id);
    forall n | n in r && n.id == id ensures n.isRead {
      var i :| 0 <= i < |r| && r[i] == n;
      assert r[i].(isRead := list[i].isRead) == list[i];
    }
  }

  /** Marking the same id twice is the same as marking it once. */
  lemma {:induction false} MarkReadIdempotent(list: seq<ClientNotification>, id: int)
    ensures MarkRead(MarkRead(list, id), id) == MarkRead(list, id)
  {
    if list != [] {
      MarkReadIdempotent(list[1..], id);
      var r := MarkRead(list, id);
      assert r[1..] == MarkRead(list[1..], id);
    }
  }

  /** A list whose entries with `id` are all read already is left exactly as it was. */
  lemma {:induction false} MarkReadAlreadyRead(list: seq<ClientNotification>, id: int)
    requires forall i :: 0 <= i < |list| && list[i].id == id ==> list[i].isRead
    ensures MarkRead(list, id) == list
  {
    if list != [] {
      MarkReadAlreadyRead(list[1..], id);
      assert list == [list[0]] + list[1..];
    }
  }

  /** Marking distributes over concatenation, so it can be applied to each part of a merged list. */
  lemma {:induction false} MarkReadAppend(a: seq<ClientNotification>, b: seq<ClientNotification>, id: int)
    ensures MarkRead(a + b, id) == MarkRead(a, id) + MarkRead(b, id)
  {
    if a == [] {
      assert a + b == b;
    } else {
      MarkReadAppend(a[1..], b, id);
      assert (a + b)[0] == a[0];
      assert (a + b)[1..] == a[1..] + b;
    }
  }
}

/**
 * The header's bell: the unread list fetched on mount, live pushes merged
 * in front, mark-as-read, and a separate unread counter.
 */
module NotificationBell {
  import opened Wrappers
  import opened ClientNotifications

  /** The component's three pieces of state. */
  datatype BellState = BellState(unreadCount: int, showDropdown: bool, localNotifications: seq<ClientNotification>)

  const INITIAL: BellState := BellState(0, false, [])

  /**
   * The unread fetch for `userId`: `response` is the fetched list, or None
   * when the request failed (the error is only logged).
   */
  function UnreadLoaded(b: BellState, userId: Option<int>, response: Option<seq<ClientNotification>>): BellState
  {
    if !UserIdPresent(userId) || response.None? then b
    else b.(localNotifications := response.value, unreadCount := |response.value|)
  }

  /**
   * Without a user id (null or 0) nothing is fetched and nothing changes;
   * a failed fetch changes nothing; a successful one replaces the list and
   * sets the counter to its length.
   */
  lemma UnreadLoadedEffect(b: BellState, userId: Option<int>, response: Option<seq<ClientNotification>>)
    ensures userId.None? || userId == Some(0) || response.None? ==> UnreadLoaded(b, userId, response) == b
    ensures UserIdPresent(userId) && response.Some? ==>
              var r := UnreadLoaded(b, userId, response);
              r.localNotifications == response.value && r.unreadCount == |response.value|
              && r.showDropdown == b.showDropdown
  {
  }

  /** The effect on the hook's accumulated `live` list: prepended whole, its length added to the counter. */
  function LiveMerged(b: BellState, live: seq<ClientNotification>): BellState
  {
    if |live| > 0 then
      b.(localNotifications := live + b.localNotifications, unreadCount := b.unreadCount + |live|)
    else b
  }

  /**
   * An empty live list changes nothing; a non-empty one is placed, whole
   * and in order, ahead of the existing list, which follows unchanged.
   */
  lemma LiveMergedEffect(b: BellState, live: seq<ClientNotification>)
    ensures live == [] ==> LiveMerged(b, live) == b
    ensures live != [] ==>
              var r := LiveMerged(b, live);
              r.localNotifications[..|live|] == live && r.localNotifications[|live|..] == b.localNotifications
              && r.unreadCount == b.unreadCount + |live| && r.showDropdown == b.showDropdown
  {
  }

  /**
   * No de-duplication: the hook's list grows from `[m]` to `[m2, m]`, and
   * merging each version in turn leaves `m` in the bell twice and counts
   * three new entries for two messages.
   */
  lemma NoDeduplication(b: BellState, m: ClientNotification, m2: ClientNotification)
    ensures var r := LiveMerged(LiveMerged(b, [m]), [m2, m]);
            r.localNotifications == [m2, m, m] + b.localNotifications
            && r.unreadCount == b.unreadCount + 3
  {
    assert [m2, m] + ([m] + b.localNotifications) == [m2, m, m] + b.localNotifications;
  }

  /** `handleMarkAsRead(id)` once the request has `succeeded` or failed. */
  function MarkedAsRead(b: BellState, id: int, succeeded: bool): BellState
  {
    if succeeded then
      b.(localNotifications := MarkRead(b.localNotifications, id), unreadCount := b.unreadCount - 1)
    else b
  }

  /**
   * A failed request changes nothing (no optimistic update); a successful
   * one sets the read flag of the entries with that id, keeps the list's
   * length, and lowers the counter by exactly one.
   */
  lemma MarkedAsReadEffect(b: BellState, id: int, succeeded: bool)
    ensures !succeeded ==> MarkedAsRead(b, id, succeeded) == b
    ensures succeeded ==>
              var r := MarkedAsRead(b, id, succeeded);
              |r.localNotifications| == |b.localNotifications|
              && (forall n :: n in r.localNotifications && n.id == id ==> n.isRead)
              && r.unreadCount == b.unreadCount - 1 && r.showDropdown == b.showDropdown
  {
    MarkReadLeavesNoneUnread(b.localNotifications, id);
  }

  /**
   * The counter is not the number of unread entries: marking an entry that
   * is already read (or an id the list does not hold) still lowers it,
   * while the list stays exactly as it was.
   */
  lemma CounterDrifts(b: BellState, id: int)
    requires forall i :: 0 <= i < |b.localNotifications| && b.localNotifications[i].id == id ==>
               b.localNotifications[i].isRead
    ensures var r := MarkedAsRead(b, id, true);
            r.localNotifications == b.localNotifications && r.unreadCount == b.unreadCount - 1
  {
    MarkReadAlreadyRead(b.localNotifications, id);
  }

  function DropdownToggled(b: BellState): (r: BellState)
    ensures r.showDropdown != b.showDropdown
    ensures r.(showDropdown := b.showDropdown) == b
  {
    b.(showDropdown := !b.showDropdown)
  }

  /** The badge colour of a severity: CRITICAL red, WARNING yellow, anything else blue. */
  function NotificationColor(severity: string): (r: string)
    ensures severity == "CRITICAL" <==> r == "bg-red-100 text-red-800"
    ensures severity == "WARNING" <==> r == "bg-yellow-100 text-yellow-800"
    ensures severity != "CRITICAL" && severity != "WARNING" <==> r == "bg-blue-100 text-blue-800"
  {
    match severity
    case "CRITICAL" => "bg-red-100 text-red-800"
    case "WARNING" => "bg-yellow-100 text-yellow-800"
    case _ => "bg-blue-100 text-blue-800"
  }

  /** The bell component: its state hooks as fields, its handlers and effects as methods. */
  class Bell {
    var unreadCount: int
    var showDropdown: bool
    var localNotifications: seq<ClientNotification>

    function State(): BellState
      reads this
    {
      BellState(unreadCount, showDropdown, localNotifications)
    }

    constructor()
      ensures State() == INITIAL
    {
      unreadCount := 0;
      showDropdown := false;
      localNotifications := [];
    }

    /** The mount effect for `userId` and the settling of its request. */
    method LoadUnread(userId: Option<int>, response: Option<seq<ClientNotification>>)
      modifies this
      ensures State() == UnreadLoaded(old(State()), userId, response)
    {
      if UserIdPresent(userId) {
        if response.Some? {
          localNotifications := response.value;
          unreadCount := |response.value|;
        }
      }
    }

    /** The effect run when the hook's live list changes. */
    method OnLiveNotifications(live: seq<ClientNotification>)
      modifies this
      ensures State() == LiveMerged(old(State()), live)
    {
      if |live| > 0 {
        localNotifications := live + localNotifications;
        unreadCount := unreadCount + |live|;
      }
    }

    method MarkAsRead(id: int, succeeded: bool)
      modifies this
      ensures State() == MarkedAsRead(old(State()), id, succeeded)
    {
      if succeeded {
        localNotifications := MarkRead(localNotifications, id);
        unreadCount := unreadCount - 1;
      }
    }

    method ToggleDropdown()
      modifies this
      ensures State() == DropdownToggled(old(State()))
    {
      showDropdown := !showDropdown;
    }
  }
}

/** The notifications page: the full list, loaded once, with click-to-mark-read. */
module NotificationsPage {
  import opened Wrappers
  import opened ClientNotifications

  datatype PageState = PageState(notifications: seq<ClientNotification>, loading: bool)

  const INITIAL: PageState := PageState([], true)

  /** The fetch settling: `response` is the server's list, or None when the request failed. */
  function Loaded(p: PageState, response: Option<seq<ClientNotification>>): (r: PageState)
    ensures !r.loading
    ensures response.Some? ==> r.notifications == response.value
    ensures response.None? ==> r.notifications == p.notifications
  {
    PageState(if response.Some? then response.value else p.notifications, false)
  }

  /** A click on `n` asks the server to mark it read only when it is unread. */
  function ClickRequests(n: ClientNotification): (r: Option<int>)
    ensures r.Some? <==> !n.isRead
    ensures r.Some? ==> r.value == n.id
  {
    if !n.isRead then Some(n.id) else None
  }

  function MarkedAsRead(p: PageState, id: int, succeeded: bool): PageState
  {
    if succeeded then p.(notifications := MarkRead(p.notifications, id)) else p
  }

  /**
   * A failed request leaves the list unchanged; a successful one marks
   * exactly the entries with that id and keeps the list's length.
   */
  lemma MarkedAsReadEffect(p: PageState, id: int, succeeded: bool)
    ensures !succeeded ==> MarkedAsRead(p, id, succeeded) == p
    ensures succeeded ==>
              var r := MarkedAsRead(p, id, succeeded).notifications;
              |r| == |p.notifications| && !MarkedAsRead(p, id, succeeded).loading == !p.loading
              && forall i :: 0 <= i < |r| ==>
                   (p.notifications[i].id == id ==> r[i] == p.notifications[i].(isRead := true))
                   && (p.notifications[i].id != id ==> r[i] == p.notifications[i])
  {
    MarkReadEntries(p.notifications, id);
  }

  /** Clicking the same entry again, once it is read, sends nothing. */
  lemma ClickOnceOnly(p: PageState, i: int)
    requires 0 <= i < |p.notifications| && ClickRequests(p.notifications[i]).Some?
    ensures var after := MarkedAsRead(p, p.notifications[i].id, true);
            ClickRequests(after.notifications[i]).None?
  {
    MarkReadEntries(p.notifications, p.notifications[i].id);
  }

  /** The badge class of a severity: CRITICAL red, WARNING yellow, anything else blue. */
  function SeverityClass(severity: string): (r: string)
    ensures severity == "CRITICAL" <==> r == "bg-red-100 text-red-800 border-red-200"
    ensures severity == "WARNING" <==> r == "bg-yellow-100 text-yellow-800 border-yellow-200"
    ensures severity != "CRITICAL" && severity != "WARNING" <==> r == "bg-blue-100 text-blue-800 border-blue-200"
  {
    match severity
    case "CRITICAL" => "bg-red-100 text-red-800 border-red-200"
    case "WARNING" => "bg-yellow-100 text-yellow-800 border-yellow-200"
    case _ => "bg-blue-100 text-blue-800 border-blue-200"
  }

  class NotificationList {
    var notifications: seq<ClientNotification>
    var loading: bool

    function State(): PageState
      reads this
    {
      PageState(notifications, loading)
    }

    constructor()
      ensures State() == INITIAL
    {
      notifications := [];
      loading := true;
    }

    /** The mount effect: loading is set, the request settles, loading ends either way. */
    method Load(response: Option<seq<ClientNotification>>)
      modifies this
      ensures State() == Loaded(old(State()), response)
    {
      loading := true;
      if response.Some? {
        notifications := response.value;
      }
      loading := false;
    }

    /** A click on the entry at `i`, and the settling of the request it may send. */
    method Click(i: nat, succeeded: bool) returns (requested: Option<int>)
      requires i < |notifications|
      modifies this
      ensures requested == ClickRequests(old(notifications[i]))
      ensures requested.Some? ==> State() == MarkedAsRead(old(State()), requested.value, succeeded)
      ensures requested.None? ==> State() == old(State())
    {
      var n := notifications[i];
      requested := None;
      if !n.isRead {
        requested := Some(n.id);
        if succeeded {
          notifications := MarkRead(notifications, n.id);
        }
      }
    }
  }
}
