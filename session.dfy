/**
 * The live-session layer of workers/src/handlers/websocket.js: one
 * `WebSocketSession` per connection and the `WebSocketManager` registry.
 *
 * The socket is its state (`Open`, or closed with a code and a reason)
 * and the list of frames written on it. Calls into the store and the
 * monitor service are appended to an effect log, and what those calls
 * answer is given by the caller. The clock is the `now` argument, in
 * milliseconds; the heartbeat timer is the `Tick` method.
 */
module LiveSession {
  import opened Wrappers
  import opened JsValue

  /** A frame `send(type, data)` writes; its timestamp is not modelled. */
  datatype Frame = Frame(kind: Json, data: Json)

  /** A call into a collaborator, in the order the session made it. */
  datatype Effect =
    | StatusUpdate(name: Json, status: string, source: Json)  // db.updateServerStatus; `source` undefined is the default 'agent'
    | SaveAgentData(name: Json, payload: Json)                // monitor.saveAgentData
    | LatestMonitorData(name: Json, limit: int)               // db.getLatestMonitorData
    | ListServers                                              // db.getServers
    | Broadcast(message: Json)                                 // the POST to the broadcast object

  /** `readyState` is OPEN, or `close(code, reason)` was called. */
  datatype Socket = Open | Closed(code: int, reason: string)

  /** What the collaborators answer to the calls one message makes; `false` or `None` is a rejection. */
  datatype StoreAnswers = StoreAnswers(statusOk: bool, saveOk: bool, servers: Option<Json>, latest: Option<seq<Json>>)

  /** The heartbeat closes a session silent for longer than this, in milliseconds. */
  const HeartbeatTimeout: int := 60000

  function Note(text: string): Json { Obj([("message", Str(text))]) }

  /** Closing a socket that is already closed changes nothing. */
  function CloseSocket(s: Socket, code: int, reason: string): Socket {
    if s.Open? then Closed(code, reason) else s
  }

  /** Once a socket is closed, by either side, no `send` writes on it again. */
  lemma ClosedSocketIsSilent(s: Socket, code: int, reason: string, f: Frame)
    ensures CloseSocket(s, code, reason).Closed?
    ensures Emitted(CloseSocket(s, code, reason), f) == []
  {
  }

  /** The frames one `send` writes on a socket in state `s`. */
  function Emitted(s: Socket, f: Frame): (r: seq<Frame>)
    ensures |r| <= 1
    ensures r == [f] <==> s.Open?
  {
    if s.Open? then [f] else []
  }

  /** Every field of a session that a handler can change, except the frames written. */
  datatype SessionState = SessionState(
    socket: Socket, authenticated: bool, isAgent: bool, isFrontend: bool, serverName: Json,
    lastPing: int, subscribedServers: set<Json>, heartbeat: bool)

  /** The roles a session may hold: each needs a successful `auth`, an agent needs its name. */
  predicate Coherent(s: SessionState) {
    && (s.isAgent ==> s.authenticated && Truthy(s.serverName))
    && (s.isFrontend ==> s.authenticated)
    && (s.subscribedServers != {} ==> s.isFrontend)
    && (forall n :: n in s.subscribedServers ==> Truthy(n))
  }

  /** The state `handleAuth` leaves once the secret matched. */
  function AuthState(s: SessionState, clientType: Json, name: Json): (r: SessionState)
    ensures r.authenticated && r.socket == s.socket && r.lastPing == s.lastPing
    ensures r.subscribedServers == s.subscribedServers && r.heartbeat == s.heartbeat
    ensures StrictEq(clientType, Str("agent")) && Truthy(name) ==>
      r.isAgent && r.serverName == name && r.isFrontend == s.isFrontend
    ensures StrictEq(clientType, Str("frontend")) ==>
      r.isFrontend && r.isAgent == s.isAgent && r.serverName == s.serverName
    ensures !StrictEq(clientType, Str("frontend")) && !(StrictEq(clientType, Str("agent")) && Truthy(name)) ==>
      r == s.(authenticated := true)
  {
    if StrictEq(clientType, Str("agent")) && Truthy(name) then s.(authenticated := true, isAgent := true, serverName := name)
    else if StrictEq(clientType, Str("frontend")) then s.(authenticated := true, isFrontend := true)
    else s.(authenticated := true)
  }

  /** A successful `auth` keeps the roles coherent, whatever the session held before. */
  lemma AuthKeepsCoherent(s: SessionState, clientType: Json, name: Json)
    requires Coherent(s)
    ensures Coherent(AuthState(s, clientType, name))
  {
  }

  /** A second successful agent `auth` re-binds the session to the newly given name. */
  lemma SecondAuthRebinds(s: SessionState, first: Json, second: Json)
    requires Truthy(first) && Truthy(second)
    ensures AuthState(AuthState(s, Str("agent"), first), Str("agent"), second).serverName == second
  {
  }

  /** The frame `handleAuth` answers with on success. */
  function AuthSuccess(clientType: Json, name: Json): Frame {
    Frame(Str("auth_success"), Obj([("message", Str("Authentication successful")),
                                   ("client_type", clientType), ("server_name", name)]))
  }

  /** The message pushed to the front-ends after agent data was stored. */
  function MonitorUpdate(name: Json, payload: Json): Json {
    Obj([("type", Str("monitor_update")), ("server_name", name), ("data", payload)])
  }

  /** `handleMonitorData` goes ahead only for an authenticated agent with a name. */
  predicate MayPushData(s: SessionState) {
    s.authenticated && s.isAgent && Truthy(s.serverName)
  }

  /** The calls an authorised `monitor_data` makes: save, then status, then broadcast, stopping at a failure. */
  function PushEffects(name: Json, payload: Json, saveOk: bool, statusOk: bool): (r: seq<Effect>)
    ensures 1 <= |r| <= 3 && r[0] == SaveAgentData(name, payload)
    ensures |r| >= 2 <==> saveOk
    ensures |r| >= 2 ==> r[1] == StatusUpdate(name, "online", Str("agent"))
    ensures |r| == 3 <==> saveOk && statusOk
    ensures |r| == 3 ==> r[2] == Broadcast(MonitorUpdate(name, payload))
  {
    [SaveAgentData(name, payload)]
    + (if saveOk then [StatusUpdate(name, "online", Str("agent"))] else [])
    + (if saveOk && statusOk then [Broadcast(MonitorUpdate(name, payload))] else [])
  }

  /** A heartbeat check: close after 60 s of silence, otherwise ping. */
  predicate TimedOut(lastPing: int, now: int) { now - lastPing > HeartbeatTimeout }

  class WebSocketSession {
    const sessionId: string
    const authSecret: Json   // env.AUTH_SECRET
    var socket: Socket
    var authenticated: bool
    var isAgent: bool
    var isFrontend: bool
    var serverName: Json
    var lastPing: int
    var subscribedServers: set<Json>
    var heartbeat: bool      // the heartbeat interval is running
    var outbox: seq<Frame>
    var effects: seq<Effect>

    function State(): SessionState
      reads this
    {
      SessionState(socket, authenticated, isAgent, isFrontend, serverName, lastPing, subscribedServers, heartbeat)
    }

    ghost predicate Valid()
      reads this
    {
      Coherent(State())
    }

    /** The constructor, on a socket just accepted. */
    constructor (id: string, secret: Json, now: int)
      ensures Valid()
      ensures sessionId == id && authSecret == secret
      ensures State() == SessionState(Open, false, false, false, Null, now, {}, false)
      ensures outbox == [] && effects == []
    {
      sessionId := id;
      authSecret := secret;
      socket := Open;
      authenticated := false;
      isAgent := false;
      isFrontend := false;
      serverName := Null;
      lastPing := now;
      subscribedServers := {};
      heartbeat := false;
      outbox := [];
      effects := [];
    }

    /** Writes the fields a handler changes, as `AuthState` describes them. */
    method SetState(s: SessionState)
      modifies this
      ensures State() == s && outbox == old(outbox) && effects == old(effects)
    {
      socket, authenticated, isAgent, isFrontend := s.socket, s.authenticated, s.isAgent, s.isFrontend;
      serverName, lastPing, subscribedServers, heartbeat := s.serverName, s.lastPing, s.subscribedServers, s.heartbeat;
    }

    /** `send(type, data)`: written only while the socket is open. */
    method Send(kind: Json, data: Json)
      modifies this
      ensures outbox == old(outbox) + Emitted(socket, Frame(kind, data))
      ensures State() == old(State()) && effects == old(effects)
    {
      if socket == Open {
        outbox := outbox + [Frame(kind, data)];
      }
    }

    /** `initialize()`: the welcome frame, then the heartbeat starts. */
    method Initialize()
      requires Valid()
      modifies this
      ensures Valid()
      ensures outbox == old(outbox) + Emitted(socket, Frame(Str("welcome"), Obj([("sessionId", Str(sessionId))])))
      ensures State() == old(State()).(heartbeat := true) && effects == old(effects)
    {
      Send(Str("welcome"), Obj([("sessionId", Str(sessionId))]));
      heartbeat := true;
    }

    /**
     * `handleAuth(payload)`. `completed` is false when it throws: on a
     * null payload before anything happens, or when the status update is
     * rejected after the roles were set.
     */
    method HandleAuth(payload: Json, statusOk: bool) returns (completed: bool)
      requires Valid()
      modifies this
      ensures Valid()
      ensures IsNullish(payload) ==>
        !completed && State() == old(State()) && outbox == old(outbox) && effects == old(effects)
      ensures !IsNullish(payload) && !StrictEq(Get(payload, "auth_secret"), authSecret) ==>
        && completed
        && outbox == old(outbox) + Emitted(old(socket), Frame(Str("auth_failed"), Note("Invalid authentication credentials")))
        && State() == old(State()).(socket := CloseSocket(old(socket), 1008, "Authentication failed"))
        && effects == old(effects)
      ensures !IsNullish(payload) && StrictEq(Get(payload, "auth_secret"), authSecret) ==>
        var clientType := Get(payload, "client_type");
        var name := Get(payload, "server_name");
        var agent := StrictEq(clientType, Str("agent")) && Truthy(name);
        && State() == AuthState(old(State()), clientType, name)
        && effects == old(effects) + (if agent then [StatusUpdate(name, "online", Str("agent"))] else [])
        && completed == (!agent || statusOk)
        && outbox == old(outbox) + (if completed then Emitted(old(socket), AuthSuccess(clientType, name)) else [])
    {
      if IsNullish(payload) {
        return false;
      }
      var secret := Get(payload, "auth_secret");
      var name := Get(payload, "server_name");
      var clientType := Get(payload, "client_type");
      if !StrictEq(secret, authSecret) {
        Send(Str("auth_failed"), Note("Invalid authentication credentials"));
        socket := CloseSocket(socket, 1008, "Authentication failed");
        return true;
      }
      AuthKeepsCoherent(State(), clientType, name);
      SetState(AuthState(State(), clientType, name));
      if StrictEq(clientType, Str("agent")) && Truthy(name) {
        effects := effects + [StatusUpdate(name, "online", Str("agent"))];
        if !statusOk {
          return false;
        }
      }
      var frame := AuthSuccess(clientType, name);
      Send(frame.kind, frame.data);
      completed := true;
    }

    /** `handleMonitorData(payload)`; a rejected call is caught and reported to the agent. */
    method HandleMonitorData(payload: Json, saveOk: bool, statusOk: bool)
      requires Valid()
      modifies this
      ensures Valid() && State() == old(State())
      ensures !MayPushData(old(State())) ==>
        effects == old(effects)
        && outbox == old(outbox) + Emitted(socket, Frame(Str("error"), Note("Not authorized for monitor data")))
      ensures MayPushData(old(State())) ==>
        && effects == old(effects) + PushEffects(serverName, payload, saveOk, statusOk)
        && outbox == old(outbox) + (if saveOk && statusOk then []
                                    else Emitted(socket, Frame(Str("error"), Note("Failed to save monitor data"))))
    {
      if !authenticated || !isAgent || !Truthy(serverName) {
        Send(Str("error"), Note("Not authorized for monitor data"));
        return;
      }
      effects := effects + [SaveAgentData(serverName, payload)];
      if saveOk {
        effects := effects + [StatusUpdate(serverName, "online", Str("agent"))];
        if statusOk {
          effects := effects + [Broadcast(MonitorUpdate(serverName, payload))];
          return;
        }
      }
      Send(Str("error"), Note("Failed to save monitor data"));
    }

    /** `handlePing()`: no authentication needed. */
    method HandlePing(now: int)
      requires Valid()
      modifies this
      ensures Valid()
      ensures State() == old(State()).(lastPing := now) && effects == old(effects)
      ensures outbox == old(outbox) + Emitted(socket, Frame(Str("pong"), Obj([])))
    {
      lastPing := now;
      Send(Str("pong"), Obj([]));
    }

    /** `handleFrontendConnect()`; a rejected server list is only logged. */
    method HandleFrontendConnect(servers: Option<Json>)
      requires Valid()
      modifies this
      ensures Valid()
      ensures !old(authenticated) ==>
        State() == old(State()) && effects == old(effects)
        && outbox == old(outbox) + Emitted(socket, Frame(Str("error"), Note("Authentication required")))
      ensures old(authenticated) ==>
        && State() == old(State()).(isFrontend := true)
        && effects == old(effects) + [ListServers]
        && outbox == old(outbox) + (if servers.Some? then Emitted(socket, Frame(Str("server_list"), Obj([("servers", servers.value)])))
                                    else [])
    {
      if !authenticated {
        Send(Str("error"), Note("Authentication required"));
        return;
      }
      isFrontend := true;
      effects := effects + [ListServers];
      if servers.Some? {
        Send(Str("server_list"), Obj([("servers", servers.value)]));
      }
    }

    /**
     * `handleSubscribe(payload)`; `latest` is what `getLatestMonitorData(name, 1)`
     * answers. `completed` is false when reading a null payload throws.
     */
    method HandleSubscribe(payload: Json, latest: Option<seq<Json>>) returns (completed: bool)
      requires Valid()
      modifies this
      ensures Valid()
      ensures !(old(authenticated) && old(isFrontend)) ==>
        completed && State() == old(State()) && effects == old(effects)
        && outbox == old(outbox) + Emitted(socket, Frame(Str("error"), Note("Not authorized for subscription")))
      ensures old(authenticated) && old(isFrontend) && IsNullish(payload) ==>
        !completed && State() == old(State()) && effects == old(effects) && outbox == old(outbox)
      ensures old(authenticated) && old(isFrontend) && !IsNullish(payload) ==>
        var name := Get(payload, "server_name");
        && completed
        && (!Truthy(name) ==> State() == old(State()) && effects == old(effects) && outbox == old(outbox))
        && (Truthy(name) ==>
              && State() == old(State()).(subscribedServers := old(subscribedServers) + {name})
              && effects == old(effects) + [LatestMonitorData(name, 1)]
              && outbox == old(outbox) +
                   (if latest.Some? && |latest.value| > 0
                    then Emitted(socket, Frame(Str("monitor_update"), Obj([("server_name", name), ("data", latest.value[0])])))
                    else []))
    {
      if !authenticated || !isFrontend {
        Send(Str("error"), Note("Not authorized for subscription"));
        return true;
      }
      if IsNullish(payload) {
        return false;
      }
      var name := Get(payload, "server_name");
      completed := true;
      if Truthy(name) {
        subscribedServers := subscribedServers + {name};
        effects := effects + [LatestMonitorData(name, 1)];
        if latest.Some? && |latest.value| > 0 {
          Send(Str("monitor_update"), Obj([("server_name", name), ("data", latest.value[0])]));
        }
      }
    }

    /**
     * `handleClose(event)`: the socket is closed with the event's code and
     * reason (an earlier close is kept), an agent's server is marked
     * offline, then the heartbeat stops.
     */
    method HandleClose(code: int, reason: string)
      requires Valid()
      modifies this
      ensures Valid() && !socket.Open?
      ensures State() == old(State()).(socket := CloseSocket(old(socket), code, reason), heartbeat := false)
      ensures outbox == old(outbox)
      ensures effects == old(effects) + (if old(isAgent) && Truthy(old(serverName))
                                         then [StatusUpdate(old(serverName), "offline", Undefined)] else [])
    {
      if isAgent && Truthy(serverName) {
        effects := effects + [StatusUpdate(serverName, "offline", Undefined)];
      }
      socket := CloseSocket(socket, code, reason);
      heartbeat := false;
    }

    /** `handleError()`: only the heartbeat stops. */
    method HandleError()
      requires Valid()
      modifies this
      ensures Valid()
      ensures State() == old(State()).(heartbeat := false) && outbox == old(outbox) && effects == old(effects)
    {
      heartbeat := false;
    }

    /** One firing of the heartbeat interval, at time `now`. */
    method Tick(now: int)
      requires Valid()
      modifies this
      ensures Valid() && effects == old(effects)
      ensures !old(heartbeat) ==> State() == old(State()) && outbox == old(outbox)
      ensures old(heartbeat) && TimedOut(lastPing, now) ==>
        State() == old(State()).(socket := CloseSocket(old(socket), 1000, "Heartbeat timeout")) && outbox == old(outbox)
      ensures old(heartbeat) && !TimedOut(lastPing, now) ==>
        State() == old(State()) && outbox == old(outbox) + Emitted(socket, Frame(Str("ping"), Obj([])))
    {
      if !heartbeat {
        return;
      }
      if now - lastPing > HeartbeatTimeout {
        socket := CloseSocket(socket, 1000, "Heartbeat timeout");
        return;
      }
      Send(Str("ping"), Obj([]));
    }

    /**
     * `handleMessage(message)`: `message` is `None` when `JSON.parse`
     * throws. A handler that throws, like a message that cannot be read,
     * is answered with an 'Invalid message format' error frame; an
     * unknown type is only logged.
     */
    method HandleMessage(message: Option<Json>, store: StoreAnswers, now: int)
      requires Valid()
      modifies this
      ensures Valid()
      ensures KindOfMessage(message) == Unreadable ==>
        State() == old(State()) && effects == old(effects) && outbox == old(outbox) + Emitted(old(socket), InvalidFormat)
      ensures KindOfMessage(message) == AuthMsg ==>
        var payload := Payload(message);
        && (IsNullish(payload) ==>
              State() == old(State()) && effects == old(effects) && outbox == old(outbox) + Emitted(old(socket), InvalidFormat))
        && (!IsNullish(payload) && !StrictEq(Get(payload, "auth_secret"), authSecret) ==>
              && State() == old(State()).(socket := CloseSocket(old(socket), 1008, "Authentication failed"))
              && effects == old(effects)
              && outbox == old(outbox) + Emitted(old(socket), Frame(Str("auth_failed"), Note("Invalid authentication credentials"))))
        && (!IsNullish(payload) && StrictEq(Get(payload, "auth_secret"), authSecret) ==>
              var clientType := Get(payload, "client_type");
              var name := Get(payload, "server_name");
              var agent := StrictEq(clientType, Str("agent")) && Truthy(name);
              && State() == AuthState(old(State()), clientType, name)
              && effects == old(effects) + (if agent then [StatusUpdate(name, "online", Str("agent"))] else [])
              && outbox == old(outbox) + Emitted(old(socket), if !agent || store.statusOk then AuthSuccess(clientType, name) else InvalidFormat))
      ensures KindOfMessage(message) == MonitorDataMsg ==>
        && State() == old(State())
        && (!MayPushData(old(State())) ==>
              effects == old(effects)
              && outbox == old(outbox) + Emitted(old(socket), Frame(Str("error"), Note("Not authorized for monitor data"))))
        && (MayPushData(old(State())) ==>
              && effects == old(effects) + PushEffects(old(serverName), Payload(message), store.saveOk, store.statusOk)
              && outbox == old(outbox) + (if store.saveOk && store.statusOk then []
                                          else Emitted(old(socket), Frame(Str("error"), Note("Failed to save monitor data")))))
      ensures KindOfMessage(message) == PingMsg ==>
        State() == old(State()).(lastPing := now) && effects == old(effects)
        && outbox == old(outbox) + Emitted(old(socket), Frame(Str("pong"), Obj([])))
      ensures KindOfMessage(message) == FrontendConnectMsg ==>
        && (!old(authenticated) ==>
              State() == old(State()) && effects == old(effects)
              && outbox == old(outbox) + Emitted(old(socket), Frame(Str("error"), Note("Authentication required"))))
        && (old(authenticated) ==>
              && State() == old(State()).(isFrontend := true)
              && effects == old(effects) + [ListServers]
              && outbox == old(outbox) + (if store.servers.Some?
                                          then Emitted(old(socket), Frame(Str("server_list"), Obj([("servers", store.servers.value)])))
                                          else []))
      ensures KindOfMessage(message) == SubscribeMsg ==>
        var payload := Payload(message);
        var name := Get(payload, "server_name");
        && (!(old(authenticated) && old(isFrontend)) ==>
              State() == old(State()) && effects == old(effects)
              && outbox == old(outbox) + Emitted(old(socket), Frame(Str("error"), Note("Not authorized for subscription"))))
        && (old(authenticated) && old(isFrontend) && IsNullish(payload) ==>
              State() == old(State()) && effects == old(effects) && outbox == old(outbox) + Emitted(old(socket), InvalidFormat))
        && (old(authenticated) && old(isFrontend) && !IsNullish(payload) && !Truthy(name) ==>
              State() == old(State()) && effects == old(effects) && outbox == old(outbox))
        && (old(authenticated) && old(isFrontend) && !IsNullish(payload) && Truthy(name) ==>
              && State() == old(State()).(subscribedServers := old(subscribedServers) + {name})
              && effects == old(effects) + [LatestMonitorData(name, 1)]
              && outbox == old(outbox) +
                   (if store.latest.Some? && |store.latest.value| > 0
                    then Emitted(old(socket), Frame(Str("monitor_update"), Obj([("server_name", name), ("data", store.latest.value[0])])))
                    else []))
      ensures KindOfMessage(message) == OtherMsg ==>
        State() == old(State()) && effects == old(effects) && outbox == old(outbox)
    {
      var payload := Payload(message);
      match KindOfMessage(message)
      case Unreadable =>
        Send(InvalidFormat.kind, InvalidFormat.data);
      case AuthMsg =>
        AuthCaught(payload, store.statusOk);
      case MonitorDataMsg =>
        HandleMonitorData(payload, store.saveOk, store.statusOk);
      case PingMsg =>
        HandlePing(now);
      case FrontendConnectMsg =>
        HandleFrontendConnect(store.servers);
      case SubscribeMsg =>
        SubscribeCaught(payload, store.latest);
      case OtherMsg =>
    }

    /** `handleAuth` inside the `try` of `handleMessage`: a throw is answered with the error frame. */
    method AuthCaught(payload: Json, statusOk: bool)
      requires Valid()
      modifies this
      ensures Valid()
      ensures IsNullish(payload) ==>
        State() == old(State()) && effects == old(effects) && outbox == old(outbox) + Emitted(old(socket), InvalidFormat)
      ensures !IsNullish(payload) && !StrictEq(Get(payload, "auth_secret"), authSecret) ==>
        && State() == old(State()).(socket := CloseSocket(old(socket), 1008, "Authentication failed"))
        && effects == old(effects)
        && outbox == old(outbox) + Emitted(old(socket), Frame(Str("auth_failed"), Note("Invalid authentication credentials")))
      ensures !IsNullish(payload) && StrictEq(Get(payload, "auth_secret"), authSecret) ==>
        var clientType := Get(payload, "client_type");
        var name := Get(payload, "server_name");
        var agent := StrictEq(clientType, Str("agent")) && Truthy(name);
        && State() == AuthState(old(State()), clientType, name)
        && effects == old(effects) + (if agent then [StatusUpdate(name, "online", Str("agent"))] else [])
        && outbox == old(outbox) + Emitted(old(socket), if !agent || statusOk then AuthSuccess(clientType, name) else InvalidFormat)
    {
      var completed := HandleAuth(payload, statusOk);
      if !completed {
        Send(InvalidFormat.kind, InvalidFormat.data);
      }
    }

    /** `handleSubscribe` inside the `try` of `handleMessage`: a throw is answered with the error frame. */
    method SubscribeCaught(payload: Json, latest: Option<seq<Json>>)
      requires Valid()
      modifies this
      ensures Valid()
      ensures !(old(authenticated) && old(isFrontend)) ==>
        State() == old(State()) && effects == old(effects)
        && outbox == old(outbox) + Emitted(old(socket), Frame(Str("error"), Note("Not authorized for subscription")))
      ensures old(authenticated) && old(isFrontend) && IsNullish(payload) ==>
        State() == old(State()) && effects == old(effects) && outbox == old(outbox) + Emitted(old(socket), InvalidFormat)
      ensures old(authenticated) && old(isFrontend) && !IsNullish(payload) ==>
        var name := Get(payload, "server_name");
        && (!Truthy(name) ==> State() == old(State()) && effects == old(effects) && outbox == old(outbox))
        && (Truthy(name) ==>
              && State() == old(State()).(subscribedServers := old(subscribedServers) + {name})
              && effects == old(effects) + [LatestMonitorData(name, 1)]
              && outbox == old(outbox) +
                   (if latest.Some? && |latest.value| > 0
                    then Emitted(old(socket), Frame(Str("monitor_update"), Obj([("server_name", name), ("data", latest.value[0])])))
                    else []))
    {
      var completed := HandleSubscribe(payload, latest);
      if !completed {
        Send(InvalidFormat.kind, InvalidFormat.data);
      }
    }
  }

  /** The error frame a message that cannot be handled is answered with. */
  const InvalidFormat: Frame := Frame(Str("error"), Note("Invalid message format"))

  /** The cases of the `switch (type)` in `handleMessage`, and a message that cannot be read. */
  datatype MessageKind = Unreadable | AuthMsg | MonitorDataMsg | PingMsg | FrontendConnectMsg | SubscribeMsg | OtherMsg

  /** The case `switch (type)` takes: `===` against each label in turn. */
  function KindOf(kind: Json): (k: MessageKind)
    ensures k != Unreadable
    ensures k == AuthMsg <==> StrictEq(kind, Str("auth"))
    ensures k == MonitorDataMsg <==> StrictEq(kind, Str("monitor_data"))
    ensures k == PingMsg <==> StrictEq(kind, Str("ping"))
    ensures k == FrontendConnectMsg <==> StrictEq(kind, Str("frontend_connect"))
    ensures k == SubscribeMsg <==> StrictEq(kind, Str("subscribe"))
  {
    if StrictEq(kind, Str("auth")) then AuthMsg
    else if StrictEq(kind, Str("monitor_data")) then MonitorDataMsg
    else if StrictEq(kind, Str("ping")) then PingMsg
    else if StrictEq(kind, Str("frontend_connect")) then FrontendConnectMsg
    else if StrictEq(kind, Str("subscribe")) then SubscribeMsg
    else OtherMsg
  }

  /** A message is unreadable when it does not parse or parses to null; otherwise its `type` decides. */
  function KindOfMessage(message: Option<Json>): MessageKind {
    if message.None? || IsNullish(message.value) then Unreadable else KindOf(Get(message.value, "type"))
  }

  /** The `payload` of a readable message. */
  function Payload(message: Option<Json>): Json {
    if message.None? then Undefined else Get(message.value, "payload")
  }

  /** The `data` that `send(type, data = {})` frames: an undefined argument becomes `{}`. */
  function SendData(data: Json): (d: Json)
    ensures data == Undefined ==> d == Obj([])
    ensures data != Undefined ==> d == data
  {
    if data == Undefined then Obj([]) else data
  }

  /** A session `broadcast` writes to: a front-end whose socket is open. */
  predicate Listening(s: SessionState) { s.isFrontend && s.socket.Open? }

  /** The Durable Object registry of sessions keyed by their id. */
  class WebSocketManager {
    var sessions: map<string, WebSocketSession>

    constructor ()
      ensures sessions == map[]
    {
      sessions := map[];
    }

    function Members(): set<WebSocketSession>
      reads this
    {
      set id | id in sessions :: sessions[id]
    }

    /** `addSession(session)`: keyed by the session's own id. */
    method AddSession(session: WebSocketSession)
      modifies this
      ensures sessions == old(sessions)[session.sessionId := session]
    {
      sessions := sessions[session.sessionId := session];
    }

    /** `removeSession(sessionId)`. */
    method RemoveSession(sessionId: string)
      modifies this
      ensures sessions == old(sessions) - {sessionId}
    {
      sessions := sessions - {sessionId};
    }

    /**
     * `broadcast(message)`: each registered front-end with an open socket
     * gets one frame of the message's type and data (`{}` when the data is
     * undefined); subscriptions play no part.
     */
    method Broadcast(message: Json)
      modifies Members()
      ensures sessions == old(sessions)
      ensures forall s :: s in Members() ==>
        && s.State() == old(s.State()) && s.effects == old(s.effects)
        && s.outbox == old(s.outbox) + (if Listening(old(s.State())) then [Frame(Get(message, "type"), SendData(Get(message, "data")))] else [])
    {
      var frame := Frame(Get(message, "type"), SendData(Get(message, "data")));
      var members := Members();
      var todo := members;
      while todo != {}
        invariant todo <= members
        invariant forall s :: s in members ==> s.State() == old(s.State()) && s.effects == old(s.effects)
        invariant forall s :: s in members && s in todo ==> s.outbox == old(s.outbox)
        invariant forall s :: s in members && s !in todo ==>
          s.outbox == old(s.outbox) + (if Listening(old(s.State())) then [frame] else [])
        decreases todo
      {
        var s :| s in todo;
        if s.isFrontend && s.socket == Open {
          s.Send(frame.kind, frame.data);
        }
        todo := todo - {s};
      }
    }
  }

  /** Broadcasting reaches a subscribed and an unsubscribed front-end alike. */
  lemma BroadcastIgnoresSubscriptions(s: SessionState)
    ensures Listening(s) == Listening(s.(subscribedServers := {}))
  {
  }
}
