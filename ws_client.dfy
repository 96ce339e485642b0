/**
 * The browser front end's WebSocket client for the channel adapter: it accepts only
 * `agent_state` and `render` messages, reports its status, and after an unplanned close
 * reconnects with a delay that starts at 2 seconds and grows by 2 seconds up to 15.
 *
 * Sockets and timers are named by the order they were created in. A socket's handlers stay
 * attached until it closes or the client detaches them on `disconnect`; an event from a socket
 * whose handlers are gone, or a timer that no longer exists, does nothing.
 */
module WsClient {
  import opened Options
  import opened Js

  const ReconnectDelayMs: nat := 2000
  const MaxReconnectDelayMs: nat := 15000
  /** The error text reported for a socket `error` event. */
  const SocketErrorText: string := "WebSocket 错误"

  datatype WsStatus = IdleStatus | ConnectingStatus | ConnectedStatus | ErrorStatus | ReconnectingStatus

  /** One `onStatus` callback: a status and the error text that came with it. */
  datatype Report = Report(status: WsStatus, error: Option<string>)

  /** What a socket delivered: text, or binary data the client ignores. */
  datatype Frame = TextFrame(text: string) | BinaryFrame

  // ---------------------------------------------------------------------------------------
  // parseMessage

  /** `key in v`: an object with an own property `key`. Arrays carry no `type`. */
  predicate HasProperty(v: Value, key: string)
  {
    v.Obj? && exists i :: 0 <= i < |v.props| && v.props[i].0 == key
  }

  /** `parseMessage`, given what `JSON.parse` made of the text (nothing when it threw): the
      parsed value itself exactly when it is an object whose `type` is `agent_state` or
      `render`, and nothing otherwise. */
  function ParseMessage(parsed: Option<Value>): (r: Option<Value>)
    ensures r.Some? <==>
      parsed.Some? && parsed.value.Obj?
      && (Get(parsed.value, "type") == Str("agent_state") || Get(parsed.value, "type") == Str("render"))
    ensures r.Some? ==> r.value == parsed.value
  {
    match parsed
    case None => None
    case Some(raw) =>
      assert raw.Obj? && Get(raw, "type").Str? ==> HasProperty(raw, "type") by {
        if raw.Obj? && Get(raw, "type").Str? {
          LookupFound(raw.props, "type");
        }
      }
      if !Truthy(raw) || !IsObjectLike(raw) || !HasProperty(raw, "type") then None
      else if Get(raw, "type") == Str("agent_state") || Get(raw, "type") == Str("render") then Some(raw)
      else None
  }

  /** A property list that yields a string under `key` holds `key`. */
  lemma LookupFound(props: seq<(string, Value)>, key: string)
    requires Lookup(props, key).Str?
    ensures exists i :: 0 <= i < |props| && props[i].0 == key
  {
    if props[0].0 != key {
      LookupFound(props[1..], key);
      var i :| 0 <= i < |props[1..]| && props[1..][i].0 == key;
      assert props[i + 1].0 == key;
    }
  }

  // ---------------------------------------------------------------------------------------
  // Client state

  /** The sockets: the one in `ws`, how many were created, those whose handlers are still
      attached, and those whose `readyState` is OPEN. */
  datatype Sockets = Sockets(current: Option<nat>, created: nat, attached: set<nat>, open: set<nat>)

  /** The timers: the one in `reconnectTimer`, how many were created, and those still pending,
      each with the delay it was scheduled with. */
  datatype Timers = Timers(current: Option<nat>, created: nat, scheduled: map<nat, nat>)

  /** Everything the client's closure holds, with the callbacks' calls recorded in order. */
  datatype WsState = WsState(
    sockets: Sockets,
    timers: Timers,
    reconnectDelay: nat,
    intentionalClose: bool,
    reports: seq<Report>,
    messages: seq<Value>)

  predicate ValidWs(st: WsState)
  {
    && ReconnectDelayMs <= st.reconnectDelay <= MaxReconnectDelayMs
    && (forall id :: id in st.sockets.attached ==> id < st.sockets.created)
    && st.sockets.open <= st.sockets.attached
    && (st.sockets.current.Some? ==> st.sockets.current.value in st.sockets.attached)
    && (forall t :: t in st.timers.scheduled ==> t < st.timers.created)
    && (forall t :: t in st.timers.scheduled ==>
          ReconnectDelayMs <= st.timers.scheduled[t] <= MaxReconnectDelayMs)
    && (st.timers.current.Some? ==> st.timers.current.value in st.timers.scheduled)
  }

  function InitialWs(): (r: WsState)
    ensures ValidWs(r)
    ensures r.reconnectDelay == ReconnectDelayMs && !r.intentionalClose
  {
    WsState(Sockets(None, 0, {}, {}), Timers(None, 0, map[]), ReconnectDelayMs, false, [], [])
  }

  /** `ws?.readyState === WebSocket.OPEN`. */
  predicate IsOpen(st: WsState)
  {
    st.sockets.current.Some? && st.sockets.current.value in st.sockets.open
  }

  function Said(st: WsState, status: WsStatus, error: Option<string>): WsState
  {
    st.(reports := st.reports + [Report(status, error)])
  }

  /** The delay after a reconnect attempt: 2 seconds more, at most 15. */
  function NextDelay(d: nat): (r: nat)
    ensures d <= MaxReconnectDelayMs ==> d <= r <= MaxReconnectDelayMs
    ensures d + ReconnectDelayMs <= MaxReconnectDelayMs ==> r == d + ReconnectDelayMs
    ensures d + ReconnectDelayMs > MaxReconnectDelayMs ==> r == MaxReconnectDelayMs
  {
    if d + ReconnectDelayMs < MaxReconnectDelayMs then d + ReconnectDelayMs else MaxReconnectDelayMs
  }

  // ---------------------------------------------------------------------------------------
  // The handlers, as functions of the state

  /** `connect`: nothing while the socket is open; otherwise clear `intentionalClose`, report
      connecting, and either create a socket (`created`) or report the constructor's error. */
  function Connected(st: WsState, created: bool, error: string): WsState
  {
    if IsOpen(st) then st
    else
      var s1 := Said(st.(intentionalClose := false), ConnectingStatus, None);
      if !created then Said(s1, ErrorStatus, Some(error))
      else
        var n := st.sockets.created;
        s1.(sockets := st.sockets.(current := Some(n), created := n + 1, attached := st.sockets.attached + {n}))
  }

  /** The `open` handler of socket `id`. */
  function Opened(st: WsState, id: nat): WsState
  {
    if id !in st.sockets.attached then st
    else Said(st.(reconnectDelay := ReconnectDelayMs, sockets := st.sockets.(open := st.sockets.open + {id})),
      ConnectedStatus, None)
  }

  /** The `message` handler of socket `id`; `parse` is `JSON.parse`. */
  function Received(st: WsState, id: nat, data: Frame, parse: string -> Option<Value>): WsState
  {
    if id !in st.sockets.attached || data.BinaryFrame? then st
    else
      match ParseMessage(parse(data.text))
      case None => st
      case Some(m) => st.(messages := st.messages + [m])
  }

  /** The `error` handler of socket `id`. */
  function Errored(st: WsState, id: nat): WsState
  {
    if id !in st.sockets.attached then st else Said(st, ErrorStatus, Some(SocketErrorText))
  }

  /** The `close` handler of socket `id`: forget the socket; after `disconnect` report idle,
      otherwise report reconnecting and schedule a reconnect after the current delay. */
  function ClosedBy(st: WsState, id: nat): WsState
  {
    if id !in st.sockets.attached then st
    else
      var s1 := st.(sockets := st.sockets.(current := None,
        attached := st.sockets.attached - {id}, open := st.sockets.open - {id}));
      if st.intentionalClose then Said(s1, IdleStatus, None)
      else
        var t := st.timers.created;
        Said(s1, ReconnectingStatus, None).(timers :=
          Timers(Some(t), t + 1, st.timers.scheduled[t := st.reconnectDelay]))
  }

  /** Timer `t` fires: forget `reconnectTimer`, `connect`, and grow the delay. */
  function Fired(st: WsState, t: nat, created: bool, error: string): WsState
  {
    if t !in st.timers.scheduled then st
    else
      var s1 := st.(timers := st.timers.(current := None, scheduled := st.timers.scheduled - {t}));
      var s2 := Connected(s1, created, error);
      s2.(reconnectDelay := NextDelay(s2.reconnectDelay))
  }

  /** `disconnect`: mark the close intentional, cancel `reconnectTimer`, detach and close the
      socket in `ws`, and report idle. */
  function Disconnected(st: WsState): WsState
  {
    var timers := match st.timers.current
      case None => st.timers
      case Some(t) => st.timers.(current := None, scheduled := st.timers.scheduled - {t});
    var sockets := match st.sockets.current
      case None => st.sockets
      case Some(id) => st.sockets.(current := None,
        attached := st.sockets.attached - {id}, open := st.sockets.open - {id});
    Said(st.(intentionalClose := true, timers := timers, sockets := sockets), IdleStatus, None)
  }

  // ---------------------------------------------------------------------------------------
  // What each handler promises

  /** `connect` is a no-op while open; otherwise it clears `intentionalClose`, reports
      connecting, and leaves a fresh, not yet open socket in `ws`, or reports the error. */
  lemma ConnectSpec(st: WsState, created: bool, error: string)
    requires ValidWs(st)
    ensures var r := Connected(st, created, error);
      && ValidWs(r)
      && (IsOpen(st) ==> r == st)
      && (!IsOpen(st) ==>
            && !r.intentionalClose
            && r.timers == st.timers && r.reconnectDelay == st.reconnectDelay
            && r.messages == st.messages
            && (created ==>
                  && r.reports == st.reports + [Report(ConnectingStatus, None)]
                  && r.sockets.current == Some(st.sockets.created)
                  && st.sockets.created !in st.sockets.attached
                  && !IsOpen(r))
            && (!created ==>
                  && r.reports == st.reports + [Report(ConnectingStatus, None), Report(ErrorStatus, Some(error))]
                  && r.sockets == st.sockets))
  {
  }

  /** Opening resets the delay to 2 seconds and reports connected; the socket in `ws` is then
      open if it is the one that opened. */
  lemma OpenSpec(st: WsState, id: nat)
    requires ValidWs(st) && id in st.sockets.attached
    ensures var r := Opened(st, id);
      && ValidWs(r)
      && r.reconnectDelay == ReconnectDelayMs
      && r.reports == st.reports + [Report(ConnectedStatus, None)]
      && (st.sockets.current == Some(id) ==> IsOpen(r))
      && r.timers == st.timers && r.intentionalClose == st.intentionalClose
  {
  }

  /** An unplanned close reports reconnecting and schedules one new timer with the delay then
      current, which becomes `reconnectTimer`; a close after `disconnect` reports idle and
      schedules nothing. Either way the delay is unchanged and `ws` is empty. */
  lemma CloseSpec(st: WsState, id: nat)
    requires ValidWs(st) && id in st.sockets.attached
    ensures var r := ClosedBy(st, id);
      && ValidWs(r)
      && r.sockets.current.None? && id !in r.sockets.attached
      && r.reconnectDelay == st.reconnectDelay
      && (!st.intentionalClose ==>
            && r.reports == st.reports + [Report(ReconnectingStatus, None)]
            && r.timers.current == Some(st.timers.created)
            && st.timers.created !in st.timers.scheduled
            && r.timers.scheduled == st.timers.scheduled[st.timers.created := st.reconnectDelay])
      && (st.intentionalClose ==>
            && r.reports == st.reports + [Report(IdleStatus, None)]
            && r.timers == st.timers)
  {
  }

  /** A pending timer firing removes itself, reconnects, and grows the delay by 2 seconds up
      to 15. */
  lemma FireSpec(st: WsState, t: nat, created: bool, error: string)
    requires ValidWs(st) && t in st.timers.scheduled
    ensures var r := Fired(st, t, created, error);
      && ValidWs(r)
      && t !in r.timers.scheduled && r.timers.current.None?
      && r.reconnectDelay == NextDelay(st.reconnectDelay)
      && (!IsOpen(st) ==>
            && !r.intentionalClose && |r.reports| > |st.reports|
            && r.reports[|st.reports|] == Report(ConnectingStatus, None))
  {
    var s1 := st.(timers := st.timers.(current := None, scheduled := st.timers.scheduled - {t}));
    assert IsOpen(s1) == IsOpen(st);
    ConnectSpec(s1, created, error);
  }

  /** `disconnect` cancels `reconnectTimer`, leaves nothing in `ws` and nothing open there,
      marks the close intentional and reports idle. */
  lemma DisconnectSpec(st: WsState)
    requires ValidWs(st)
    ensures var r := Disconnected(st);
      && ValidWs(r)
      && r.intentionalClose && r.timers.current.None? && r.sockets.current.None? && !IsOpen(r)
      && (st.timers.current.Some? ==>
            r.timers.scheduled == st.timers.scheduled - {st.timers.current.value})
      && r.reports == st.reports + [Report(IdleStatus, None)]
      && r.reconnectDelay == st.reconnectDelay
  {
  }

  /** Socket events other than `close` keep the invariant too. */
  lemma EventsKeepValid(st: WsState, id: nat, data: Frame, parse: string -> Option<Value>)
    requires ValidWs(st)
    ensures ValidWs(Opened(st, id)) && ValidWs(Errored(st, id)) && ValidWs(Received(st, id, data, parse))
    ensures ValidWs(ClosedBy(st, id))
  {
  }

  /** With one socket and one timer in play, `disconnect` silences the client: afterwards no
      socket event and no timer changes anything until `connect` is called again. */
  lemma DisconnectSilences(st: WsState, id: nat, t: nat, data: Frame, parse: string -> Option<Value>,
                           created: bool, error: string)
    requires ValidWs(st)
    requires forall s :: s in st.sockets.attached ==> Some(s) == st.sockets.current
    requires forall x :: x in st.timers.scheduled ==> Some(x) == st.timers.current
    ensures var r := Disconnected(st);
      && Opened(r, id) == r && Errored(r, id) == r && ClosedBy(r, id) == r
      && Received(r, id, data, parse) == r && Fired(r, t, created, error) == r
  {
  }

  /** The delay after `k` failed reconnect attempts in a row, starting from 2 seconds. */
  function DelayAfter(d: nat, k: nat): nat
    decreases k
  {
    if k == 0 then d else DelayAfter(NextDelay(d), k - 1)
  }

  /** From a fresh open, the k-th attempt waits 2(k+1) seconds, and never more than 15. */
  lemma {:induction false} DelaySchedule(k: nat)
    ensures DelayAfter(ReconnectDelayMs, k)
      == if ReconnectDelayMs * (k + 1) < MaxReconnectDelayMs then ReconnectDelayMs * (k + 1)
         else MaxReconnectDelayMs
  {
    DelayFrom(ReconnectDelayMs, 1, k);
  }

  lemma {:induction false} DelayFrom(d: nat, j: nat, k: nat)
    requires d == (if ReconnectDelayMs * j < MaxReconnectDelayMs then ReconnectDelayMs * j else MaxReconnectDelayMs)
    ensures DelayAfter(d, k)
      == if ReconnectDelayMs * (j + k) < MaxReconnectDelayMs then ReconnectDelayMs * (j + k)
         else MaxReconnectDelayMs
    decreases k
  {
    if k > 0 {
      DelayFrom(NextDelay(d), j + 1, k - 1);
    }
  }

  // ---------------------------------------------------------------------------------------
  // The client

  /** `createAvatarWsClient`'s closure. The callbacks' calls are recorded in `reports` and
      `messages`; socket creation and `JSON.parse` are parameters of the handlers. */
  class AvatarWsClient {
    var sockets: Sockets
    var timers: Timers
    var reconnectDelay: nat
    var intentionalClose: bool
    var reports: seq<Report>
    var messages: seq<Value>

    function State(): WsState
      reads this
    {
      WsState(sockets, timers, reconnectDelay, intentionalClose, reports, messages)
    }

    predicate Valid()
      reads this
    {
      ValidWs(State())
    }

    constructor()
      ensures State() == InitialWs() && Valid()
    {
      sockets := Sockets(None, 0, {}, {});
      timers := Timers(None, 0, map[]);
      reconnectDelay := ReconnectDelayMs;
      intentionalClose := false;
      reports := [];
      messages := [];
    }

    /** `callbacks.onStatus`. */
    method Notify(status: WsStatus, error: Option<string>)
      modifies this
      ensures State() == Said(old(State()), status, error)
    {
      reports := reports + [Report(status, error)];
    }

    /** `connect`; `created` says whether `new WebSocket(url)` succeeded, `error` is what it
        threw otherwise. */
    method Connect(created: bool, error: string)
      requires Valid()
      modifies this
      ensures Valid() && State() == Connected(old(State()), created, error)
    {
      ConnectSpec(State(), created, error);
      if sockets.current.Some? && sockets.current.value in sockets.open {
        return;
      }
      intentionalClose := false;
      Notify(ConnectingStatus, None);
      if !created {
        Notify(ErrorStatus, Some(error));
        return;
      }
      var n := sockets.created;
      sockets := sockets.(current := Some(n), created := n + 1, attached := sockets.attached + {n});
    }

    /** The `open` handler of socket `id`. */
    method OnOpen(id: nat)
      requires Valid()
      modifies this
      ensures Valid() && State() == Opened(old(State()), id)
    {
      EventsKeepValid(State(), id, BinaryFrame, _ => None);
      if id in sockets.attached {
        reconnectDelay := ReconnectDelayMs;
        sockets := sockets.(open := sockets.open + {id});
        Notify(ConnectedStatus, None);
      }
    }

    /** The `message` handler of socket `id`. */
    method OnMessage(id: nat, data: Frame, parse: string -> Option<Value>)
      requires Valid()
      modifies this
      ensures Valid() && State() == Received(old(State()), id, data, parse)
    {
      EventsKeepValid(State(), id, data, parse);
      if id !in sockets.attached || data.BinaryFrame? {
        return;
      }
      var msg := ParseMessage(parse(data.text));
      if msg.Some? {
        messages := messages + [msg.value];
      }
    }

    /** The `error` handler of socket `id`. */
    method OnError(id: nat)
      requires Valid()
      modifies this
      ensures Valid() && State() == Errored(old(State()), id)
    {
      EventsKeepValid(State(), id, BinaryFrame, _ => None);
      if id in sockets.attached {
        Notify(ErrorStatus, Some(SocketErrorText));
      }
    }

    /** The `close` handler of socket `id`. */
    method OnClose(id: nat)
      requires Valid()
      modifies this
      ensures Valid() && State() == ClosedBy(old(State()), id)
    {
      EventsKeepValid(State(), id, BinaryFrame, _ => None);
      if id !in sockets.attached {
        return;
      }
      sockets := sockets.(current := None, attached := sockets.attached - {id}, open := sockets.open - {id});
      if intentionalClose {
        Notify(IdleStatus, None);
        return;
      }
      Notify(ReconnectingStatus, None);
      var t := timers.created;
      timers := Timers(Some(t), t + 1, timers.scheduled[t := reconnectDelay]);
    }

    /** Timer `t` fires. */
    method OnTimer(t: nat, created: bool, error: string)
      requires Valid()
      modifies this
      ensures Valid() && State() == Fired(old(State()), t, created, error)
    {
      if t !in timers.scheduled {
        return;
      }
      FireSpec(State(), t, created, error);
      timers := timers.(current := None, scheduled := timers.scheduled - {t});
      Connect(created, error);
      reconnectDelay := NextDelay(reconnectDelay);
    }

    /** `disconnect` (the closure's `close`). */
    method Disconnect()
      requires Valid()
      modifies this
      ensures Valid() && State() == Disconnected(old(State()))
    {
      DisconnectSpec(State());
      intentionalClose := true;
      if timers.current.Some? {
        timers := timers.(current := None, scheduled := timers.scheduled - {timers.current.value});
      }
      if sockets.current.Some? {
        var id := sockets.current.value;
        sockets := sockets.(current := None, attached := sockets.attached - {id}, open := sockets.open - {id});
      }
      Notify(IdleStatus, None);
    }
  }
}
