/**
 * The `useWebSocket` hook: one STOMP client per user id, a subscription to
 * the user's topic, live notifications accumulated newest first, a
 * connected flag and a guarded send. The STOMP client library is outside
 * the model; the calls the hook makes on it are recorded, in order.
 */
module LiveFeed {
  import opened Wrappers
  import opened ClientNotifications
  import Text

  /** A call the hook makes on the STOMP library; clients and subscriptions are named by numbers. */
  datatype StompCall =
    | Activate(client: nat)
    | Deactivate(client: nat)
    | Subscribe(client: nat, topic: string)
    | Unsubscribe(subscription: nat)
    | Publish(client: nat, destination: string, body: string)

  /** The hook's four state variables and the calls made so far. */
  datatype FeedState = FeedState(
    client: Option<nat>,
    notifications: seq<ClientNotification>,
    connected: bool,
    subscription: Option<nat>,
    calls: seq<StompCall>)

  const INITIAL: FeedState := FeedState(None, [], false, None, [])

  const TOPIC_PREFIX: string := "/topic/notifications/"

  function Topic(userId: int): string
  {
    TOPIC_PREFIX + Text.IntToString(userId)
  }

  /** Releasing the previous client: its subscription first, if one is held, then the client. */
  function Cleanup(client: Option<nat>, subscription: Option<nat>): seq<StompCall>
  {
    if client.None? then []
    else (if subscription.Some? then [Unsubscribe(subscription.value)] else []) + [Deactivate(client.value)]
  }

  /**
   * The effect for `userId`: the previous client is released, then
   * `newClient` is activated and kept, unless `activate()` throws
   * (`activationFails`), in which case the state keeps the old client.
   */
  function Mounted(f: FeedState, userId: Option<int>, newClient: nat, activationFails: bool): FeedState
  {
    if !UserIdPresent(userId) then f
    else
      var calls := f.calls + Cleanup(f.client, f.subscription) + [Activate(newClient)];
      if activationFails then f.(calls := calls)
      else f.(client := Some(newClient), calls := calls)
  }

  /**
   * No client is created without a user id (null or 0). Otherwise the
   * previous client's subscription is released before the client itself,
   * both before the new client is activated, and the list and flag stay.
   */
  lemma MountedEffect(f: FeedState, userId: Option<int>, newClient: nat, activationFails: bool)
    ensures !UserIdPresent(userId) ==> Mounted(f, userId, newClient, activationFails) == f
    ensures UserIdPresent(userId) ==>
              var r := Mounted(f, userId, newClient, activationFails);
              var added := r.calls[|f.calls|..];
              r.calls[..|f.calls|] == f.calls
              && added[|added| - 1] == Activate(newClient)
              && (f.client.None? ==> added == [Activate(newClient)])
              && (f.client.Some? && f.subscription.Some? ==>
                    added == [Unsubscribe(f.subscription.value), Deactivate(f.client.value), Activate(newClient)])
              && (f.client.Some? && f.subscription.None? ==>
                    added == [Deactivate(f.client.value), Activate(newClient)])
              && r.client == (if activationFails then f.client else Some(newClient))
              && r.notifications == f.notifications && r.connected == f.connected
              && r.subscription == f.subscription
  {
  }

  /**
   * `onConnect` of the client for `userId`: connected, then a subscription
   * to the user's topic; `sub` is the handle it returned, None when
   * `subscribe` threw, which leaves the held subscription as it was.
   */
  function Connected(f: FeedState, userId: int, client: nat, sub: Option<nat>): FeedState
  {
    f.(connected := true,
       calls := f.calls + [Subscribe(client, Topic(userId))],
       subscription := if sub.Some? then sub else f.subscription)
  }

  function Disconnected(f: FeedState): FeedState
  {
    f.(connected := false)
  }

  /** `connected` is true after a connect and false after a disconnect; neither touches the list. */
  lemma ConnectedFlag(f: FeedState, userId: int, client: nat, sub: Option<nat>)
    ensures Connected(f, userId, client, sub).connected && !Disconnected(f).connected
    ensures Connected(f, userId, client, sub).notifications == f.notifications
    ensures Disconnected(f).(connected := f.connected) == f
    ensures Connected(f, userId, client, sub).calls == f.calls + [Subscribe(client, TOPIC_PREFIX + Text.IntToString(userId))]
  {
  }

  /** A message on the topic: `parsed` is the decoded body, None when `JSON.parse` threw. */
  function Received(f: FeedState, parsed: Option<ClientNotification>): FeedState
  {
    if parsed.Some? then f.(notifications := [parsed.value] + f.notifications) else f
  }

  /**
   * A decoded message becomes the head of the list, with the old list as
   * its tail; an undecodable one changes nothing.
   */
  lemma ReceivedEffect(f: FeedState, parsed: Option<ClientNotification>)
    ensures parsed.None? ==> Received(f, parsed) == f
    ensures parsed.Some? ==>
              var r := Received(f, parsed);
              |r.notifications| == |f.notifications| + 1
              && r.notifications[0] == parsed.value && r.notifications[1..] == f.notifications
              && r.(notifications := f.notifications) == f
  {
  }

  /** A run of messages, in arrival order. */
  function ReceivedAll(f: FeedState, messages: seq<Option<ClientNotification>>): FeedState
    decreases |messages|
  {
    if messages == [] then f else ReceivedAll(Received(f, messages[0]), messages[1..])
  }

  /** The decoded messages of a run, in arrival order. */
  function Decoded(messages: seq<Option<ClientNotification>>): seq<ClientNotification>
  {
    if messages == [] then []
    else (if messages[0].Some? then [messages[0].value] else []) + Decoded(messages[1..])
  }

  function Reversed<T>(s: seq<T>): (r: seq<T>)
    ensures |r| == |s|
  {
    if s == [] then [] else Reversed(s[1..]) + [s[0]]
  }

  lemma {:induction false} ReversedAppend<T>(a: seq<T>, b: seq<T>)
    ensures Reversed(a + b) == Reversed(b) + Reversed(a)
  {
    if a == [] {
      assert a + b == b;
    } else {
      ReversedAppend(a[1..], b);
      assert (a + b)[1..] == a[1..] + b;
    }
  }

  /**
   * The accumulator: after a run of messages the list holds the decoded
   * ones newest first, ahead of what it held before; nothing else changes.
   */
  lemma {:induction false} ReceivedAllNewestFirst(f: FeedState, messages: seq<Option<ClientNotification>>)
    ensures ReceivedAll(f, messages).notifications == Reversed(Decoded(messages)) + f.notifications
    ensures ReceivedAll(f, messages).(notifications := f.notifications) == f
    decreases |messages|
  {
    if messages != [] {
      var head := if messages[0].Some? then [messages[0].value] else [];
      var g := Received(f, messages[0]);
      assert g.notifications == head + f.notifications;
      ReceivedAllNewestFirst(g, messages[1..]);
      ReversedAppend(head, Decoded(messages[1..]));
      assert Reversed(head) == head;
    }
  }

  /**
   * The effect's cleanup: the subscription `held` when the effect ran (the
   * value it captured) is released, then the client it created; errors of
   * either step are swallowed, so both are always attempted.
   */
  function TornDown(f: FeedState, held: Option<nat>, newClient: nat): FeedState
  {
    f.(calls := f.calls + (if held.Some? then [Unsubscribe(held.value)] else []) + [Deactivate(newClient)])
  }

  /** Teardown unsubscribes before it deactivates, and changes no state variable. */
  lemma TornDownOrder(f: FeedState, held: Option<nat>, newClient: nat)
    ensures var r := TornDown(f, held, newClient);
            r.(calls := f.calls) == f
            && (held.Some? ==> r.calls == f.calls + [Unsubscribe(held.value), Deactivate(newClient)])
            && (held.None? ==> r.calls == f.calls + [Deactivate(newClient)])
  {
  }

  /** `sendMessage(destination, body)`: whether it reports success, and the state after. */
  datatype Sent = Sent(ok: bool, state: FeedState)

  /** `body` is the already-serialised message; `publishFails` when `publish` throws. */
  function SendMessage(f: FeedState, destination: string, body: string, publishFails: bool): Sent
  {
    if f.client.Some? && f.connected then
      Sent(!publishFails, f.(calls := f.calls + [Publish(f.client.value, destination, body)]))
    else Sent(false, f)
  }

  /**
   * A send reports success exactly when there is a client, it is connected
   * and the publish did not throw; without a connected client nothing is
   * published.
   */
  lemma SendGuard(f: FeedState, destination: string, body: string, publishFails: bool)
    ensures SendMessage(f, destination, body, publishFails).ok <==> f.client.Some? && f.connected && !publishFails
    ensures !(f.client.Some? && f.connected) ==> SendMessage(f, destination, body, publishFails).state == f
    ensures f.client.Some? && f.connected ==>
              SendMessage(f, destination, body, publishFails).state.calls
                == f.calls + [Publish(f.client.value, destination, body)]
    ensures SendMessage(f, destination, body, publishFails).state.(calls := f.calls) == f
  {
  }

  /** The hook: its state variables as fields, its callbacks as methods. */
  class WebSocketHook {
    var client: Option<nat>
    var notifications: seq<ClientNotification>
    var connected: bool
    var subscription: Option<nat>
    var calls: seq<StompCall>

    function State(): FeedState
      reads this
    {
      FeedState(client, notifications, connected, subscription, calls)
    }

    constructor()
      ensures State() == INITIAL
    {
      client := None;
      notifications := [];
      connected := false;
      subscription := None;
      calls := [];
    }

    method Mount(userId: Option<int>, newClient: nat, activationFails: bool)
      modifies this
      ensures State() == Mounted(old(State()), userId, newClient, activationFails)
    {
      if !UserIdPresent(userId) {
        return;
      }
      if client.Some? {
        if subscription.Some? {
          calls := calls + [Unsubscribe(subscription.value)];
        }
        calls := calls + [Deactivate(client.value)];
      }
      calls := calls + [Activate(newClient)];
      if !activationFails {
        client := Some(newClient);
      }
    }

    method OnConnect(userId: int, newClient: nat, sub: Option<nat>)
      modifies this
      ensures State() == Connected(old(State()), userId, newClient, sub)
    {
      connected := true;
      calls := calls + [Subscribe(newClient, Topic(userId))];
      if sub.Some? {
        subscription := sub;
      }
    }

    method OnMessage(parsed: Option<ClientNotification>)
      modifies this
      ensures State() == Received(old(State()), parsed)
    {
      if parsed.Some? {
        notifications := [parsed.value] + notifications;
      }
    }

    method OnDisconnect()
      modifies this
      ensures State() == Disconnected(old(State()))
    {
      connected := false;
    }

    method Teardown(held: Option<nat>, newClient: nat)
      modifies this
      ensures State() == TornDown(old(State()), held, newClient)
    {
      if held.Some? {
        calls := calls + [Unsubscribe(held.value)];
      }
      calls := calls + [Deactivate(newClient)];
    }

    method Send(destination: string, body: string, publishFails: bool) returns (ok: bool)
      modifies this
      ensures Sent(ok, State()) == SendMessage(old(State()), destination, body, publishFails)
    {
      if client.Some? && connected {
        calls := calls + [Publish(client.value, destination, body)];
        return !publishFails;
      }
      return false;
    }
  }
}
