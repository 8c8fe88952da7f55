/**
 * The bookkeeping of the Python SDK's WebSocket client: the listeners per
 * event, the subscriptions, the connected flag, the reconnect counter and
 * `auto_reconnect`, changed in place by `on`/`off`, the subscription calls,
 * the open and close handlers and `disconnect`.
 *
 * The socket and the listener calls are observed, not run: `sent` records
 * every message handed to the socket and `deliveries` every listener call,
 * in order. Whether a socket object exists is `hasSocket`, and the headers it
 * was created with are `socketHeaders`.
 */
module PyRealtime {
  import opened Wrappers
  import opened Json
  import opened Text

  // ---------------------------------------------------------------------------
  // WebSocket URL
  // ---------------------------------------------------------------------------

  const HttpScheme: string := "http://"
  const HttpsScheme: string := "https://"
  const WsScheme: string := "ws://"
  const WssScheme: string := "wss://"
  const WsPath: string := "/ws"

  /** "http://" becomes "ws://" everywhere, then "https://" becomes "wss://", trailing '/' go, "/ws" is appended. */
  function WsUrl(baseUrl: string): (r: string)
    ensures EndsWith(r, WsPath)
  {
    RStrip(ReplaceAll(ReplaceAll(baseUrl, HttpScheme, WsScheme), HttpsScheme, WssScheme), '/') + WsPath
  }

  lemma {:induction false} ReplaceAllAbsent(s: string, pat: string, rep: string)
    requires |pat| > 0 && !Contains(s, pat)
    ensures ReplaceAll(s, pat, rep) == s
    decreases |s|
  {
    if |s| >= |pat| {
      assert !OccursAt(s, pat, 0);
      assert s == [s[0]] + s[1..];
      forall i | 0 <= i <= |s[1..]| - |pat|
        ensures !OccursAt(s[1..], pat, i)
      {
        assert !OccursAt(s, pat, i + 1);
        assert s[1..][i..i + |pat|] == s[i + 1..i + 1 + |pat|];
      }
      ReplaceAllAbsent(s[1..], pat, rep);
    }
  }

  lemma ReplaceAllPrefix(pat: string, rest: string, rep: string)
    requires |pat| > 0
    ensures ReplaceAll(pat + rest, pat, rep) == rep + ReplaceAll(rest, pat, rep)
  {
    assert (pat + rest)[..|pat|] == pat;
    assert (pat + rest)[|pat|..] == rest;
  }

  /** A prefix none of whose characters starts the pattern adds no occurrence. */
  lemma NotContainsAfterPrefix(a: string, h: string, pat: string)
    requires |pat| > 0 && !Contains(h, pat)
    requires forall i :: 0 <= i < |a| ==> a[i] != pat[0]
    ensures !Contains(a + h, pat)
  {
    var s := a + h;
    forall i | 0 <= i <= |s| - |pat|
      ensures !OccursAt(s, pat, i)
    {
      if i < |a| {
        assert s[i..i + |pat|][0] == a[i];
      } else {
        assert s[i..i + |pat|] == h[i - |a|..i - |a| + |pat|];
        assert !OccursAt(h, pat, i - |a|);
      }
    }
  }

  lemma RStripKeepsPrefix(a: string, h: string)
    requires RStrip(h, '/') != []
    ensures RStrip(a + h, '/') == a + RStrip(h, '/')
    decreases |h|
  {
    assert |h| > 0;
    if h[|h| - 1] == '/' {
      assert (a + h)[..|a + h| - 1] == a + h[..|h| - 1];
      RStripKeepsPrefix(a, h[..|h| - 1]);
    }
  }

  /** An http URL gets the ws scheme, the rest kept (it mentions neither scheme and is not all '/'). */
  lemma WsUrlOfHttp(h: string)
    requires !Contains(h, HttpScheme) && !Contains(h, HttpsScheme) && RStrip(h, '/') != []
    ensures WsUrl(HttpScheme + h) == WsScheme + RStrip(h, '/') + WsPath
  {
    ReplaceAllPrefix(HttpScheme, h, WsScheme);
    ReplaceAllAbsent(h, HttpScheme, WsScheme);
    NotContainsAfterPrefix(WsScheme, h, HttpsScheme);
    ReplaceAllAbsent(WsScheme + h, HttpsScheme, WssScheme);
    RStripKeepsPrefix(WsScheme, h);
  }

  /** "https://" is left alone by the first replacement: "https:/" is not "http://" and no later character is an 'h'. */
  lemma HttpsSurvivesHttpReplace(h: string)
    requires !Contains(h, HttpScheme)
    ensures ReplaceAll(HttpsScheme + h, HttpScheme, WsScheme) == HttpsScheme + h
  {
    var s := HttpsScheme + h;
    assert s[..|HttpScheme|] != HttpScheme by { assert s[4] == 's'; }
    assert s[1..] == HttpsScheme[1..] + h;
    NotContainsAfterPrefix(HttpsScheme[1..], h, HttpScheme);
    ReplaceAllAbsent(s[1..], HttpScheme, WsScheme);
  }

  /** An https URL gets the wss scheme, the rest kept. */
  lemma WsUrlOfHttps(h: string)
    requires !Contains(h, HttpScheme) && !Contains(h, HttpsScheme) && RStrip(h, '/') != []
    ensures WsUrl(HttpsScheme + h) == WssScheme + RStrip(h, '/') + WsPath
  {
    HttpsSurvivesHttpReplace(h);
    ReplaceAllPrefix(HttpsScheme, h, WssScheme);
    ReplaceAllAbsent(h, HttpsScheme, WssScheme);
    RStripKeepsPrefix(WssScheme, h);
  }

  // ---------------------------------------------------------------------------
  // State
  // ---------------------------------------------------------------------------

  /** A listener, by identity: Python compares callbacks with `==`, which for functions is identity. */
  type Callback = nat

  datatype Subscription = Subscription(kind: string, id: string)

  /** What `_emit` and `send` pass along. */
  datatype Payload =
    | NoData
    | SubscriptionData(sub: Subscription)
    | CloseData(code: int, message: string)
    | AttemptData(attempt: int)
    | UserData(value: Json)

  /** A message handed to the socket: `{"event": event, "data": data}`. */
  datatype Message = Message(event: string, data: Payload)

  /** One listener call made by `_emit`. */
  datatype Delivery = Delivery(callback: Callback, event: string, data: Payload)

  const SubscribeEvent: string := "subscribe"
  const UnsubscribeEvent: string := "unsubscribe"
  const ConnectedEvent: string := "connected"
  const DisconnectedEvent: string := "disconnected"
  const ReconnectingEvent: string := "reconnecting"
  const ReconnectFailedEvent: string := "reconnect_failed"
  const ProfileKind: string := "profile"
  const SessionKind: string := "session"

  datatype State = State(
    autoReconnect: bool,
    hasSocket: bool,
    socketHeaders: map<string, string>,
    connected: bool,
    reconnectAttempts: int,
    listeners: map<string, seq<Callback>>,
    subscriptions: seq<Subscription>,
    sent: seq<Message>,
    deliveries: seq<Delivery>)

  /** `[cb for cb in cbs if cb != callback]`. */
  function Without(cbs: seq<Callback>, callback: Callback): (r: seq<Callback>)
    ensures |r| <= |cbs|
    ensures forall x :: x in r <==> x in cbs && x != callback
    decreases |cbs|
  {
    if cbs == [] then []
    else (if cbs[0] == callback then [] else [cbs[0]]) + Without(cbs[1..], callback)
  }

  /** Filtering keeps the order of the rest: it distributes over concatenation. */
  lemma {:induction false} WithoutConcat(a: seq<Callback>, b: seq<Callback>, callback: Callback)
    ensures Without(a + b, callback) == Without(a, callback) + Without(b, callback)
    decreases |a|
  {
    if a != [] {
      assert (a + b)[1..] == a[1..] + b;
      assert Without(a + b, callback) == (if a[0] == callback then [] else [a[0]]) + Without(a[1..] + b, callback);
      WithoutConcat(a[1..], b, callback);
      assert Without(a, callback) == (if a[0] == callback then [] else [a[0]]) + Without(a[1..], callback);
    } else {
      assert a + b == b;
    }
  }

  /** The subscriptions kept by `unsubscribe(type, id)`. */
  function KeepOthers(subs: seq<Subscription>, kind: string, id: string): (r: seq<Subscription>)
    ensures |r| <= |subs|
    ensures forall s :: s in r <==> s in subs && s != Subscription(kind, id)
    decreases |subs|
  {
    if subs == [] then []
    else (if subs[0] == Subscription(kind, id) then [] else [subs[0]]) + KeepOthers(subs[1..], kind, id)
  }

  lemma {:induction false} KeepOthersConcat(a: seq<Subscription>, b: seq<Subscription>, kind: string, id: string)
    ensures KeepOthers(a + b, kind, id) == KeepOthers(a, kind, id) + KeepOthers(b, kind, id)
    decreases |a|
  {
    if a == [] {
      assert a + b == b;
    } else {
      var head := if a[0] == Subscription(kind, id) then [] else [a[0]];
      assert (a + b)[0] == a[0] && (a + b)[1..] == a[1..] + b;
      calc {
        KeepOthers(a + b, kind, id);
        head + KeepOthers(a[1..] + b, kind, id);
        { KeepOthersConcat(a[1..], b, kind, id); }
        head + (KeepOthers(a[1..], kind, id) + KeepOthers(b, kind, id));
        (head + KeepOthers(a[1..], kind, id)) + KeepOthers(b, kind, id);
        KeepOthers(a, kind, id) + KeepOthers(b, kind, id);
      }
    }
  }

  /** The listener calls `_emit(event, data)` makes: each registered callback, in order. */
  function DeliveriesOf(cbs: seq<Callback>, event: string, data: Payload): (r: seq<Delivery>)
    ensures |r| == |cbs|
    ensures forall i :: 0 <= i < |cbs| ==> r[i] == Delivery(cbs[i], event, data)
  {
    seq(|cbs|, i requires 0 <= i < |cbs| => Delivery(cbs[i], event, data))
  }

  /** The re-subscription messages `_on_open` sends, in subscription order. */
  function SubscribeMessages(subs: seq<Subscription>): (r: seq<Message>)
    ensures |r| == |subs|
    ensures forall i :: 0 <= i < |subs| ==> r[i] == Message(SubscribeEvent, SubscriptionData(subs[i]))
  {
    seq(|subs|, i requires 0 <= i < |subs| => Message(SubscribeEvent, SubscriptionData(subs[i])))
  }

  function ListenersOf(listeners: map<string, seq<Callback>>, event: string): seq<Callback> {
    if event in listeners then listeners[event] else []
  }

  /** The headers `connect` opens the socket with: a bearer token only for a truthy key. */
  function ConnectHeaders(apiKey: Option<string>): (h: map<string, string>)
    ensures "Authorization" in h <==> apiKey.Some? && apiKey.value != ""
    ensures "Authorization" in h ==> h["Authorization"] == "Bearer " + apiKey.value
    ensures |h| <= 1
  {
    if apiKey.Some? && apiKey.value != "" then map["Authorization" := "Bearer " + apiKey.value] else map[]
  }

  class RealtimeClient {
    const wsUrl: string
    const apiKey: Option<string>
    const maxReconnectAttempts: int

    var autoReconnect: bool
    var hasSocket: bool
    var socketHeaders: map<string, string>
    var connected: bool
    var reconnectAttempts: int
    var listeners: map<string, seq<Callback>>
    var subscriptions: seq<Subscription>
    var sent: seq<Message>
    var deliveries: seq<Delivery>

    function Current(): State
      reads this
    {
      State(autoReconnect, hasSocket, socketHeaders, connected, reconnectAttempts, listeners, subscriptions, sent, deliveries)
    }

    /**
     * The counter is never negative and never exceeds the maximum, except for
     * its starting 0 when the maximum is negative; a connected client has a
     * socket, and a socket was opened with the headers of the API key.
     */
    ghost predicate Valid()
      reads this
    {
      && 0 <= reconnectAttempts
      && (reconnectAttempts <= maxReconnectAttempts || reconnectAttempts == 0)
      && (connected ==> hasSocket)
      && (hasSocket ==> socketHeaders == ConnectHeaders(apiKey))
    }

    /** `__init__`: no socket, not connected, no attempts, no listeners, no subscriptions. */
    constructor (baseUrl: string, apiKey: Option<string>, autoReconnect: bool, maxReconnectAttempts: int)
      ensures wsUrl == WsUrl(baseUrl) && this.apiKey == apiKey && this.maxReconnectAttempts == maxReconnectAttempts
      ensures Current() == State(autoReconnect, false, map[], false, 0, map[], [], [], [])
      ensures Valid()
    {
      wsUrl := WsUrl(baseUrl);
      this.apiKey := apiKey;
      this.autoReconnect := autoReconnect;
      this.maxReconnectAttempts := maxReconnectAttempts;
      hasSocket := false;
      socketHeaders := map[];
      connected := false;
      reconnectAttempts := 0;
      listeners := map[];
      subscriptions := [];
      sent := [];
      deliveries := [];
    }

    /**
     * `connect`: a new socket object exists, created with the handshake
     * headers of the API key; it opens later, through `OnOpen`.
     */
    method Connect()
      requires Valid()
      modifies this
      ensures Valid()
      ensures Current() == old(Current()).(hasSocket := true, socketHeaders := ConnectHeaders(apiKey))
    {
      hasSocket := true;
      socketHeaders := ConnectHeaders(apiKey);
    }

    /** `disconnect`: reconnecting is switched off, the socket dropped, the flag cleared. */
    method Disconnect()
      requires Valid()
      modifies this
      ensures Valid()
      ensures Current() == old(Current()).(autoReconnect := false, hasSocket := false, connected := false)
    {
      autoReconnect := false;
      hasSocket := false;
      connected := false;
    }

    /** `on`: the callback goes to the end of the event's list; duplicates are kept. */
    method On(event: string, callback: Callback)
      requires Valid()
      modifies this
      ensures Valid()
      ensures Current() == old(Current()).(listeners := old(listeners)[event := ListenersOf(old(listeners), event) + [callback]])
    {
      if event !in listeners {
        listeners := listeners[event := []];
      }
      listeners := listeners[event := listeners[event] + [callback]];
    }

    /**
     * `off`: with a callback every equal one is removed from the event's list,
     * without one the event is removed; an unknown event changes nothing.
     */
    method Off(event: string, callback: Option<Callback>)
      requires Valid()
      modifies this
      ensures Valid()
      ensures event !in old(listeners) ==> Current() == old(Current())
      ensures event in old(listeners) && callback.Some? ==>
                Current() == old(Current()).(listeners := old(listeners)[event := Without(old(listeners)[event], callback.value)])
      ensures event in old(listeners) && callback.None? ==>
                Current() == old(Current()).(listeners := old(listeners) - {event})
    {
      if event in listeners {
        if callback.Some? {
          listeners := listeners[event := Without(listeners[event], callback.value)];
        } else {
          listeners := listeners - {event};
        }
      }
    }

    /** `send`: the message reaches the socket only when one exists and the client is connected. */
    method Send(event: string, data: Payload)
      requires Valid()
      modifies this
      ensures Valid()
      ensures Current() == old(Current()).(sent := old(sent) + if hasSocket && connected then [Message(event, data)] else [])
    {
      if hasSocket && connected {
        sent := sent + [Message(event, data)];
      }
    }

    /** `subscribe_to_profile` and `subscribe_to_session`: recorded always, sent only when connected. */
    method Subscribe(kind: string, id: string)
      requires Valid()
      modifies this
      ensures Valid()
      ensures Current() == old(Current()).(subscriptions := old(subscriptions) + [Subscription(kind, id)],
                                           sent := old(sent) + if connected then [Message(SubscribeEvent, SubscriptionData(Subscription(kind, id)))] else [])
    {
      var sub := Subscription(kind, id);
      subscriptions := subscriptions + [sub];
      if connected {
        Send(SubscribeEvent, SubscriptionData(sub));
      }
    }

    method SubscribeToProfile(profileId: string)
      requires Valid()
      modifies this
      ensures Valid()
      ensures Current() == old(Current()).(subscriptions := old(subscriptions) + [Subscription(ProfileKind, profileId)],
                                           sent := old(sent) + if connected then [Message(SubscribeEvent, SubscriptionData(Subscription(ProfileKind, profileId)))] else [])
    {
      Subscribe(ProfileKind, profileId);
    }

    method SubscribeToSession(sessionId: string)
      requires Valid()
      modifies this
      ensures Valid()
      ensures Current() == old(Current()).(subscriptions := old(subscriptions) + [Subscription(SessionKind, sessionId)],
                                           sent := old(sent) + if connected then [Message(SubscribeEvent, SubscriptionData(Subscription(SessionKind, sessionId)))] else [])
    {
      Subscribe(SessionKind, sessionId);
    }

    /** `unsubscribe`: every matching subscription goes, the rest keep their order; the server is told when connected. */
    method Unsubscribe(kind: string, id: string)
      requires Valid()
      modifies this
      ensures Valid()
      ensures Current() == old(Current()).(subscriptions := KeepOthers(old(subscriptions), kind, id),
                                           sent := old(sent) + if connected then [Message(UnsubscribeEvent, SubscriptionData(Subscription(kind, id)))] else [])
    {
      subscriptions := KeepOthers(subscriptions, kind, id);
      if connected {
        Send(UnsubscribeEvent, SubscriptionData(Subscription(kind, id)));
      }
    }

    /** `_emit`: every listener of the event is called with the data, in registration order. */
    method Emit(event: string, data: Payload)
      requires Valid()
      modifies this
      ensures Valid()
      ensures Current() == old(Current()).(deliveries := old(deliveries) + DeliveriesOf(ListenersOf(listeners, event), event, data))
    {
      var cbs := ListenersOf(listeners, event);
      for i := 0 to |cbs|
        invariant Valid()
        invariant Current() == old(Current()).(deliveries := old(deliveries) + DeliveriesOf(cbs[..i], event, data))
      {
        assert DeliveriesOf(cbs[..i + 1], event, data) == DeliveriesOf(cbs[..i], event, data) + [Delivery(cbs[i], event, data)];
        deliveries := deliveries + [Delivery(cbs[i], event, data)];
      }
      assert cbs[..|cbs|] == cbs;
    }

    /**
     * `_on_open`, raised by the socket `connect` made: connected, the counter
     * back to 0, every subscription re-sent in order, then the "connected"
     * event.
     */
    method OnOpen()
      requires Valid() && hasSocket
      modifies this
      ensures Valid()
      ensures var s := old(Current()).(connected := true, reconnectAttempts := 0,
                                       sent := old(sent) + SubscribeMessages(subscriptions));
              Current() == s.(deliveries := s.deliveries + DeliveriesOf(ListenersOf(listeners, ConnectedEvent), ConnectedEvent, NoData))
    {
      connected := true;
      reconnectAttempts := 0;
      var subs := subscriptions;
      var sent0 := sent;
      for i := 0 to |subs|
        invariant Valid() && connected && hasSocket && subscriptions == subs
        invariant Current() == old(Current()).(connected := true, reconnectAttempts := 0, sent := sent0 + SubscribeMessages(subs[..i]))
      {
        assert SubscribeMessages(subs[..i + 1]) == SubscribeMessages(subs[..i]) + [Message(SubscribeEvent, SubscriptionData(subs[i]))];
        Send(SubscribeEvent, SubscriptionData(subs[i]));
      }
      assert subs[..|subs|] == subs;
      Emit(ConnectedEvent, NoData);
    }

    /**
     * The reconnect branch of `_on_close`: one more attempt is counted and
     * announced, then `connect` makes a new socket.
     */
    method Reconnect()
      requires Valid() && reconnectAttempts < maxReconnectAttempts
      modifies this
      ensures Valid()
      ensures Current() == old(Current()).(reconnectAttempts := old(reconnectAttempts) + 1, hasSocket := true,
                                          socketHeaders := ConnectHeaders(apiKey),
                                          deliveries := old(deliveries) + DeliveriesOf(ListenersOf(listeners, ReconnectingEvent), ReconnectingEvent, AttemptData(old(reconnectAttempts) + 1)))
    {
      reconnectAttempts := reconnectAttempts + 1;
      Emit(ReconnectingEvent, AttemptData(reconnectAttempts));
      Connect();
    }

    /**
     * `_on_close`: not connected, the "disconnected" event; then, when
     * reconnecting is on and attempts remain, one more attempt is counted,
     * announced and a new socket made; otherwise, once the attempts are used
     * up, "reconnect_failed".
     */
    method OnClose(code: int, message: string)
      requires Valid()
      modifies this
      ensures Valid()
      ensures var closed := old(Current()).(connected := false,
                                            deliveries := old(deliveries) + DeliveriesOf(ListenersOf(listeners, DisconnectedEvent), DisconnectedEvent, CloseData(code, message)));
              if old(autoReconnect) && old(reconnectAttempts) < maxReconnectAttempts then
                Current() == closed.(reconnectAttempts := old(reconnectAttempts) + 1, hasSocket := true,
                                     socketHeaders := ConnectHeaders(apiKey),
                                     deliveries := closed.deliveries + DeliveriesOf(ListenersOf(listeners, ReconnectingEvent), ReconnectingEvent, AttemptData(old(reconnectAttempts) + 1)))
              else if old(reconnectAttempts) >= maxReconnectAttempts then
                Current() == closed.(deliveries := closed.deliveries + DeliveriesOf(ListenersOf(listeners, ReconnectFailedEvent), ReconnectFailedEvent, NoData))
              else
                Current() == closed
    {
      connected := false;
      Emit(DisconnectedEvent, CloseData(code, message));
      if autoReconnect && reconnectAttempts < maxReconnectAttempts {
        Reconnect();
      } else if reconnectAttempts >= maxReconnectAttempts {
        Emit(ReconnectFailedEvent, NoData);
      }
    }
  }

  /** After `disconnect`, a close never reconnects: the counter and the socket stay as they are. */
  method DisconnectThenClose(c: RealtimeClient, code: int, message: string)
    requires c.Valid()
    modifies c
    ensures c.Valid()
    ensures !c.autoReconnect && !c.hasSocket && !c.connected
    ensures c.reconnectAttempts == old(c.reconnectAttempts)
  {
    c.Disconnect();
    c.OnClose(code, message);
  }

  /** Registering twice calls the callback twice, in order: `on` keeps duplicates. */
  lemma OnKeepsDuplicates(cbs: seq<Callback>, cb: Callback, event: string, data: Payload)
    ensures DeliveriesOf(cbs + [cb] + [cb], event, data)[|cbs|..] == [Delivery(cb, event, data), Delivery(cb, event, data)]
  {
  }
}
