/**
 * The browser's connection to the live channel (src/utils/websocket.js):
 * the module-level state `useWebSocket` shares, the socket's `onopen`,
 * `onmessage`, `onclose` and `onerror` handlers, the reconnect schedule,
 * the per-type message handlers and the per-event listener sets.
 *
 * Handlers and listeners are named by numbers; calling one is recorded
 * in the client's log together with the frames written on the socket,
 * the reconnects scheduled and the `close()` calls. Which of them throw
 * makes no difference: every call is guarded. Each socket event is a
 * method, delivered in the order the browser delivers them.
 */
module ClientSocket {
  import opened Wrappers
  import opened JsValue
  import WorkerHelpers

  type HandlerId = nat
  type ListenerId = nat

  const MaxReconnectAttempts: nat := 5
  const InitialDelay: nat := 1000
  const MaxDelay: nat := 30000

  /** What the client did, in order. */
  datatype Action =
    | Sent(frame: Json)                                    // ws.send(JSON.stringify(frame)); the timestamp is not modelled
    | Handled(handler: HandlerId, data: Json)              // a message handler called
    | Notified(event: string, listener: ListenerId, data: Json)  // an event listener called
    | ReconnectIn(delay: nat)                              // setTimeout(reconnect, delay)
    | CloseRequested                                       // ws.close()

  /** The connection attempt whose promise is still unsettled, if any. */
  datatype Attempt = NoAttempt | UserAttempt | ReconnectAttempt

  /** The module-level refs; `hasSocket` is `ws.value !== null`. */
  datatype ClientState = ClientState(
    hasSocket: bool, connected: bool, connecting: bool, lastError: Json,
    attempts: nat, delay: nat, pending: Attempt)

  /** What the handlers keep true of the refs. */
  predicate Sane(s: ClientState) {
    && s.attempts <= MaxReconnectAttempts
    && InitialDelay <= s.delay <= MaxDelay
    && !(s.connected && s.connecting)
    && (s.connected ==> s.hasSocket)
  }

  /** `connectionStatus`: connecting, then connected, then an error, else idle. */
  function Status(s: ClientState): (r: string)
    ensures s.connecting ==> r == "processing"
    ensures !s.connecting && s.connected ==> r == "success"
    ensures !s.connecting && !s.connected && Truthy(s.lastError) ==> r == "error"
    ensures !s.connecting && !s.connected && !Truthy(s.lastError) ==> r == "default"
  {
    if s.connecting then "processing"
    else if s.connected then "success"
    else if Truthy(s.lastError) then "error"
    else "default"
  }

  /** `connectionText`: the same priority as `connectionStatus`. */
  function StatusText(s: ClientState): (r: string)
    ensures Status(s) == "processing" <==> r == "连接中..."
    ensures Status(s) == "success" <==> r == "已连接"
    ensures Status(s) == "error" <==> r == "连接失败"
    ensures Status(s) == "default" <==> r == "未连接"
  {
    if s.connecting then "连接中..."
    else if s.connected then "已连接"
    else if Truthy(s.lastError) then "连接失败"
    else "未连接"
  }

  /** The delay after a failed reconnect: doubled, at most `MaxDelay`. */
  function NextDelay(d: nat): (r: nat)
    ensures r == if 2 * d < MaxDelay then 2 * d else MaxDelay
    ensures InitialDelay <= d <= MaxDelay ==> d <= r && InitialDelay <= r <= MaxDelay
  {
    if d * 2 < MaxDelay then d * 2 else MaxDelay
  }

  /** The delay after `k` failed reconnects in a row, from the initial one. */
  function DelayAfter(k: nat): nat {
    if k == 0 then InitialDelay else NextDelay(DelayAfter(k - 1))
  }

  /** The backoff is exponential until it reaches the cap: min(1000·2^k, 30000). */
  lemma {:induction false} DelayAfterClosedForm(k: nat)
    ensures DelayAfter(k) == if InitialDelay * WorkerHelpers.Pow2(k) < MaxDelay then InitialDelay * WorkerHelpers.Pow2(k) else MaxDelay
  {
    if k > 0 {
      DelayAfterClosedForm(k - 1);
      if InitialDelay * WorkerHelpers.Pow2(k - 1) >= MaxDelay {
        assert InitialDelay * WorkerHelpers.Pow2(k) == 2 * (InitialDelay * WorkerHelpers.Pow2(k - 1));
      }
    }
  }

  /** The frame `send(type, data)` writes. */
  function Frame(kind: string, data: Json): Json {
    Obj([("type", Str(kind)), ("data", data)])
  }

  /** The calls `emit(event, data)` makes, one per listener in the set's order. */
  function Notifications(event: string, listeners: seq<ListenerId>, data: Json): (r: seq<Action>)
    ensures |r| == |listeners|
    ensures forall i :: 0 <= i < |r| ==> r[i] == Notified(event, listeners[i], data)
  {
    if |listeners| == 0 then [] else Notifications(event, listeners[..|listeners| - 1], data) + [Notified(event, listeners[|listeners| - 1], data)]
  }

  /** A `Set` in insertion order: no element twice. */
  predicate NoDuplicates(xs: seq<ListenerId>) {
    forall i, j :: 0 <= i < j < |xs| ==> xs[i] != xs[j]
  }

  /** `set.add(l)`: a listener already present keeps its place. */
  function Added(xs: seq<ListenerId>, l: ListenerId): (r: seq<ListenerId>)
    ensures NoDuplicates(xs) ==> NoDuplicates(r)
    ensures forall x :: x in r <==> x in xs || x == l
    ensures l in xs ==> r == xs
  {
    if l in xs then xs else xs + [l]
  }

  /** `set.delete(l)`: the others keep their order. */
  function Removed(xs: seq<ListenerId>, l: ListenerId): (r: seq<ListenerId>)
    ensures NoDuplicates(xs) ==> NoDuplicates(r)
    ensures forall x :: x in r <==> x in xs && x != l
  {
    if |xs| == 0 then []
    else
      var init := Removed(xs[..|xs| - 1], l);
      assert forall x :: x in xs[..|xs| - 1] ==> x in xs;
      if xs[|xs| - 1] == l then init
      else
        assert NoDuplicates(xs) ==> xs[|xs| - 1] !in xs[..|xs| - 1];
        init + [xs[|xs| - 1]]
  }

  /** Removing a listener nobody had removes nothing. */
  lemma {:induction false} RemovedAbsent(xs: seq<ListenerId>, l: ListenerId)
    requires l !in xs
    ensures Removed(xs, l) == xs
  {
    if |xs| > 0 {
      assert l !in xs[..|xs| - 1];
      RemovedAbsent(xs[..|xs| - 1], l);
    }
  }

  /** Unsubscribing a listener just subscribed leaves the set as it was. */
  lemma AddThenRemove(xs: seq<ListenerId>, l: ListenerId)
    requires l !in xs
    ensures Removed(Added(xs, l), l) == xs
  {
    RemovedAbsent(xs, l);
  }

  /** The listeners registered for an event, none for an unknown one. */
  function ListenersOf(listeners: map<string, seq<ListenerId>>, event: string): seq<ListenerId> {
    if event in listeners then listeners[event] else []
  }

  /** Appending three pieces one after another is appending their concatenation. */
  lemma ConcatAssoc3(l: seq<Action>, a: seq<Action>, b: seq<Action>, c: seq<Action>)
    ensures l + a + b + c == l + (a + b + c)
  {
  }

  /** The event `message:<type>` that carries a message's data. */
  function NamedEvent(message: Json): string {
    "message:" + ToJsString(Get(message, "type"))
  }

  /** One handler call when a handler is registered for the message's type, none otherwise. */
  function HandlerCount(message: Json, handlers: map<string, HandlerId>): nat {
    var kind := Get(message, "type");
    if kind.Str? && kind.s in handlers then 1 else 0
  }

  /**
   * What `handleMessage(message)` does: the handler registered for its
   * type first, with its data; then exactly the 'message' notifications,
   * with the whole message; then exactly the `message:<type>` ones, with
   * its data (each one call per listener, in order, by `Notifications`).
   */
  function Dispatch(message: Json, handlers: map<string, HandlerId>, listeners: map<string, seq<ListenerId>>)
    : (r: seq<Action>)
    ensures var h := HandlerCount(message, handlers);
      var general := ListenersOf(listeners, "message");
      var specific := ListenersOf(listeners, NamedEvent(message));
      && |r| == h + |general| + |specific|
      && r[h..h + |general|] == Notifications("message", general, message)
      && r[h + |general|..] == Notifications(NamedEvent(message), specific, Get(message, "data"))
    ensures var kind := Get(message, "type");
      kind.Str? && kind.s in handlers ==> r[0] == Handled(handlers[kind.s], Get(message, "data"))
  {
    var kind := Get(message, "type");
    var data := Get(message, "data");
    var named := NamedEvent(message);
    var handled := if kind.Str? && kind.s in handlers then [Handled(handlers[kind.s], data)] else [];
    var n1 := Notifications("message", ListenersOf(listeners, "message"), message);
    var n2 := Notifications(named, ListenersOf(listeners, named), data);
    ConcatPieces(handled, n1, n2);
    handled + n1 + n2
  }

  /** The three pieces of a concatenation, recovered by position. */
  lemma ConcatPieces(a: seq<Action>, b: seq<Action>, c: seq<Action>)
    ensures |a| > 0 ==> (a + b + c)[0] == a[0]
    ensures (a + b + c)[|a|..|a| + |b|] == b
    ensures (a + b + c)[|a| + |b|..] == c
  {
    assert (a + b + c)[|a|..|a| + |b|] == b;
    assert (a + b + c)[|a| + |b|..] == c;
  }

  class Client {
    var hasSocket: bool
    var connected: bool
    var connecting: bool
    var lastError: Json
    var attempts: nat
    var delay: nat
    var pending: Attempt
    var handlers: map<string, HandlerId>                 // messageHandlers
    var listeners: map<string, seq<ListenerId>>          // eventListeners
    var log: seq<Action>

    function State(): ClientState
      reads this
    {
      ClientState(hasSocket, connected, connecting, lastError, attempts, delay, pending)
    }

    ghost predicate Valid()
      reads this
    {
      Sane(State()) && forall e :: e in listeners ==> NoDuplicates(listeners[e])
    }

    /** The state at module load. */
    constructor ()
      ensures Valid()
      ensures State() == ClientState(false, false, false, Null, 0, InitialDelay, NoAttempt)
      ensures handlers == map[] && listeners == map[] && log == []
    {
      hasSocket, connected, connecting, lastError := false, false, false, Null;
      attempts, delay, pending := 0, InitialDelay, NoAttempt;
      handlers, listeners, log := map[], map[], [];
    }

    /**
     * `connect()`: nothing while connected or connecting; otherwise a new
     * socket is opening, or `creationError` is what its constructor threw.
     * A reconnect whose promise is rejected doubles the delay.
     */
    method Connect(fromReconnect: bool, creationError: Option<Json>) returns (started: bool)
      requires Valid()
      modifies this
      ensures Valid()
      ensures started <==> !old(connected) && !old(connecting) && creationError.None?
      ensures old(connected) || old(connecting) ==> State() == old(State())
      ensures !old(connected) && !old(connecting) && creationError.None? ==>
        State() == old(State()).(connecting := true, lastError := Null,
                                 pending := if fromReconnect then ReconnectAttempt else UserAttempt)
      ensures !old(connected) && !old(connecting) && creationError.Some? ==>
        State() == old(State()).(connecting := false, lastError := creationError.value, pending := NoAttempt,
                                 delay := if fromReconnect then NextDelay(old(delay)) else old(delay))
      ensures handlers == old(handlers) && listeners == old(listeners) && log == old(log)
    {
      if connected || connecting {
        return false;
      }
      connecting := true;
      lastError := Null;
      if creationError.Some? {
        connecting := false;
        lastError := creationError.value;
        pending := NoAttempt;
        if fromReconnect {
          delay := NextDelay(delay);
        }
        return false;
      }
      pending := if fromReconnect then ReconnectAttempt else UserAttempt;
      return true;
    }

    /** `emit(event, data)`: every listener of the event, in order. */
    method Emit(event: string, data: Json)
      modifies this
      ensures log == old(log) + Notifications(event, ListenersOf(old(listeners), event), data)
      ensures State() == old(State()) && handlers == old(handlers) && listeners == old(listeners)
    {
      var targets := ListenersOf(listeners, event);
      var i := 0;
      while i < |targets|
        invariant 0 <= i <= |targets|
        invariant log == old(log) + Notifications(event, targets[..i], data)
        invariant State() == old(State()) && handlers == old(handlers) && listeners == old(listeners)
      {
        assert targets[..i + 1][..i] == targets[..i];
        log := log + [Notified(event, targets[i], data)];
        i := i + 1;
      }
      assert targets[..i] == targets;
    }

    /** `send(type, data)`: one frame while connected, nothing otherwise. */
    method Send(kind: string, data: Json) returns (ok: bool)
      modifies this
      ensures ok <==> connected && hasSocket
      ensures log == old(log) + (if ok then [Sent(Frame(kind, data))] else [])
      ensures State() == old(State()) && handlers == old(handlers) && listeners == old(listeners)
    {
      if !connected || !hasSocket {
        return false;
      }
      log := log + [Sent(Frame(kind, data))];
      return true;
    }

    /**
     * `onopen`: connected, the reconnect schedule reset, the stored token
     * (if any) sent in an `auth` frame, then 'connected' emitted.
     */
    method OnOpen(authToken: Json)
      requires Valid()
      modifies this
      ensures Valid()
      ensures State() == ClientState(true, true, false, old(lastError), 0, InitialDelay, NoAttempt)
      ensures log == old(log) + (if Truthy(authToken) then [Sent(Frame("auth", Obj([("token", authToken)])))] else [])
                    + Notifications("connected", ListenersOf(old(listeners), "connected"), Undefined)
      ensures handlers == old(handlers) && listeners == old(listeners)
    {
      hasSocket, connected, connecting := true, true, false;
      attempts, delay, pending := 0, InitialDelay, NoAttempt;
      ghost var l0 := log;
      if Truthy(authToken) {
        var _ := Send("auth", Obj([("token", authToken)]));
      }
      ghost var l1 := log;
      assert l1 == l0 + (if Truthy(authToken) then [Sent(Frame("auth", Obj([("token", authToken)])))] else []);
      Emit("connected", Undefined);
    }

    /** `cleanup()`. */
    method Cleanup()
      modifies this
      ensures State() == old(State()).(hasSocket := false, connected := false, connecting := false)
      ensures handlers == old(handlers) && listeners == old(listeners) && log == old(log)
    {
      hasSocket, connected, connecting := false, false, false;
    }

    /**
     * `onclose`: the state cleared, 'disconnected' emitted, and a
     * reconnect scheduled while fewer than five have been.
     */
    method OnClose(code: Json, reason: Json)
      requires Valid()
      modifies this
      ensures Valid()
      ensures var again := old(attempts) < MaxReconnectAttempts;
        && State() == old(State()).(hasSocket := false, connected := false, connecting := false, pending := NoAttempt,
                                    attempts := if again then old(attempts) + 1 else old(attempts))
        && log == old(log) + Notifications("disconnected", ListenersOf(old(listeners), "disconnected"),
                                           Obj([("code", code), ("reason", reason)]))
                    + (if again then [ReconnectIn(old(delay))] else [])
      ensures handlers == old(handlers) && listeners == old(listeners)
    {
      Cleanup();
      pending := NoAttempt;
      Emit("disconnected", Obj([("code", code), ("reason", reason)]));
      if attempts < MaxReconnectAttempts {
        attempts := attempts + 1;
        log := log + [ReconnectIn(delay)];
      }
    }

    /** `onerror`: the error kept, 'error' emitted, the attempt's promise rejected. */
    method OnError(error: Json)
      requires Valid()
      modifies this
      ensures Valid()
      ensures State() == old(State()).(lastError := error, connecting := false, pending := NoAttempt,
                                       delay := if old(pending) == ReconnectAttempt then NextDelay(old(delay)) else old(delay))
      ensures log == old(log) + Notifications("error", ListenersOf(old(listeners), "error"), error)
      ensures handlers == old(handlers) && listeners == old(listeners)
    {
      lastError := error;
      connecting := false;
      Emit("error", error);
      if pending == ReconnectAttempt {
        delay := NextDelay(delay);
      }
      pending := NoAttempt;
    }

    /**
     * The reconnect timer: `connect()` again while the attempts allow it.
     * The `attempts <= 5` check never fails, since `onclose` schedules only
     * below five (`Sane` keeps the bound), so this is `connect()` as a
     * reconnect.
     */
    method ReconnectTimer(creationError: Option<Json>) returns (started: bool)
      requires Valid()
      modifies this
      ensures Valid()
      ensures started <==> !old(connected) && !old(connecting) && creationError.None?
      ensures old(connected) || old(connecting) ==> State() == old(State())
      ensures !old(connected) && !old(connecting) && creationError.None? ==>
        State() == old(State()).(connecting := true, lastError := Null, pending := ReconnectAttempt)
      ensures !old(connected) && !old(connecting) && creationError.Some? ==>
        State() == old(State()).(connecting := false, lastError := creationError.value, pending := NoAttempt,
                                 delay := NextDelay(old(delay)))
      ensures handlers == old(handlers) && listeners == old(listeners) && log == old(log)
    {
      started := false;
      if attempts <= MaxReconnectAttempts {
        started := Connect(true, creationError);
      }
    }

    /** `disconnect()`: the socket closed, if there is one, and the state cleared. */
    method Disconnect()
      requires Valid()
      modifies this
      ensures Valid()
      ensures State() == old(State()).(hasSocket := false, connected := false, connecting := false)
      ensures log == old(log) + (if old(hasSocket) then [CloseRequested] else [])
      ensures handlers == old(handlers) && listeners == old(listeners)
    {
      if hasSocket {
        log := log + [CloseRequested];
      }
      Cleanup();
    }

    /**
     * `startHeartbeat()` without its interval (see `HeartbeatTick`): it
     * registers the logging `pong` handler, replacing any earlier one.
     */
    method StartHeartbeat(pongLogger: HandlerId)
      modifies this
      ensures handlers == old(handlers)["pong" := pongLogger]
      ensures forall kind :: kind in old(handlers) && kind != "pong" ==> kind in handlers && handlers[kind] == old(handlers)[kind]
      ensures State() == old(State()) && listeners == old(listeners) && log == old(log)
    {
      RegisterHandler("pong", pongLogger);
    }

    /** The heartbeat interval: a ping while connected, else the interval stops. */
    method HeartbeatTick() returns (keep: bool)
      modifies this
      ensures keep == old(connected)
      ensures log == old(log) + (if old(connected) && old(hasSocket) then [Sent(Frame("ping", Obj([])))] else [])
      ensures State() == old(State()) && handlers == old(handlers) && listeners == old(listeners)
    {
      keep := connected;
      if connected {
        var _ := Send("ping", Obj([]));
      }
    }

    /**
     * `handleMessage(message)`: the handler for its type, then the
     * 'message' event, then the `message:<type>` event.
     */
    method HandleMessage(message: Json)
      requires !IsNullish(message)
      modifies this
      ensures log == old(log) + Dispatch(message, old(handlers), old(listeners))
      ensures State() == old(State()) && handlers == old(handlers) && listeners == old(listeners)
    {
      var kind := Get(message, "type");
      var data := Get(message, "data");
      var named := "message:" + ToJsString(kind);
      ghost var l0, ls := log, listeners;
      var handled: seq<Action> := if kind.Str? && kind.s in handlers then [Handled(handlers[kind.s], data)] else [];
      ghost var n1 := Notifications("message", ListenersOf(ls, "message"), message);
      ghost var n2 := Notifications(named, ListenersOf(ls, named), data);
      assert Dispatch(message, handlers, ls) == handled + n1 + n2;
      log := log + handled;
      Emit("message", message);
      ghost var l1 := log;
      Emit(named, data);
      assert log == l1 + n2;
      assert l1 == l0 + handled + n1;
      ConcatAssoc3(l0, handled, n1, n2);
    }

    /** `onmessage`: `None` is a frame `JSON.parse` rejected; a null message throws and is logged only. */
    method OnMessage(parsed: Option<Json>)
      modifies this
      ensures parsed.None? || IsNullish(parsed.value) ==> log == old(log)
      ensures parsed.Some? && !IsNullish(parsed.value) ==>
        log == old(log) + Dispatch(parsed.value, old(handlers), old(listeners))
      ensures State() == old(State()) && handlers == old(handlers) && listeners == old(listeners)
    {
      if parsed.Some? && !IsNullish(parsed.value) {
        HandleMessage(parsed.value);
      }
    }

    /** `onMessage(type, handler)`: a later handler replaces an earlier one. */
    method RegisterHandler(kind: string, handler: HandlerId)
      modifies this
      ensures handlers == old(handlers)[kind := handler]
      ensures State() == old(State()) && listeners == old(listeners) && log == old(log)
    {
      handlers := handlers[kind := handler];
    }

    /** The function `onMessage` returns: whatever handler the type has now goes. */
    method UnregisterHandler(kind: string)
      modifies this
      ensures handlers == old(handlers) - {kind}
      ensures State() == old(State()) && listeners == old(listeners) && log == old(log)
    {
      handlers := handlers - {kind};
    }

    /** `on(event, listener)`. */
    method On(event: string, listener: ListenerId)
      requires Valid()
      modifies this
      ensures Valid()
      ensures listeners == old(listeners)[event := Added(ListenersOf(old(listeners), event), listener)]
      ensures State() == old(State()) && handlers == old(handlers) && log == old(log)
    {
      listeners := listeners[event := Added(ListenersOf(listeners, event), listener)];
    }

    /** The function `on` returns: that listener leaves the event's set, no other. */
    method Off(event: string, listener: ListenerId)
      requires Valid()
      modifies this
      ensures Valid()
      ensures event in old(listeners) ==> listeners == old(listeners)[event := Removed(old(listeners)[event], listener)]
      ensures event !in old(listeners) ==> listeners == old(listeners)
      ensures State() == old(State()) && handlers == old(handlers) && log == old(log)
    {
      if event in listeners {
        listeners := listeners[event := Removed(listeners[event], listener)];
      }
    }
  }

  /** Only an idle client reports an error, and a connected one never does. */
  lemma StatusExclusive(s: ClientState)
    requires Sane(s)
    ensures Status(s) == "success" <==> s.connected
    ensures Status(s) == "processing" <==> s.connecting
  {
  }
}
