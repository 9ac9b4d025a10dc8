/**
 * The Worker entry (workers/src/index.js): request routing by path, the
 * cron dispatch of the scheduled handler, and the `WebSocketHandler`
 * Durable Object that keeps connections in a map keyed by session id.
 *
 * The handler's connections are plain records it overwrites in place;
 * the frames written on every socket are kept per session id, whether or
 * not the session is still registered. A socket whose `send` throws is
 * one whose id the caller lists in `broken`.
 */
module WorkerEntry {
  import opened Wrappers
  import opened JsValue
  import Text
  import Db
  import LiveSession

  // ------------------------------------------------------------- fetch

  /** Where `fetch` sends a request. */
  datatype Destination = Preflight | Api | Socket | Health | NotFound

  /** The branches of `fetch`, in order. */
  function Route(verb: string, path: string): (d: Destination)
    ensures d == Preflight <==> verb == "OPTIONS"
    ensures d == Api <==> verb != "OPTIONS" && Text.StartsWith(path, "/api/")
    ensures d == Socket <==> verb != "OPTIONS" && (path == "/ws" || path == "/websocket")
    ensures d == Health <==> verb != "OPTIONS" && path == "/health"
  {
    OwnPathsAreNotApi();
    if verb == "OPTIONS" then Preflight
    else if Text.StartsWith(path, "/api/") then Api
    else if path == "/ws" || path == "/websocket" then Socket
    else if path == "/health" then Health
    else NotFound
  }

  lemma OwnPathsAreNotApi()
    ensures !Text.StartsWith("/ws", "/api/") && !Text.StartsWith("/websocket", "/api/")
    ensures !Text.StartsWith("/health", "/api/")
  {
    assert "/websocket"[1] != "/api/"[1];
    assert "/health"[1] != "/api/"[1];
  }

  /** The status `fetch` answers for the destinations it handles itself. */
  function OwnStatus(d: Destination): Option<int> {
    match d
    case Preflight => Some(200)
    case Health => Some(200)
    case NotFound => Some(404)
    case _ => None
  }

  /** Every other request gets the 404 'Not Found'. */
  lemma UnknownPathIsNotFound(verb: string, path: string)
    requires verb != "OPTIONS" && !Text.StartsWith(path, "/api/")
    requires path != "/ws" && path != "/websocket" && path != "/health"
    ensures Route(verb, path) == NotFound && OwnStatus(Route(verb, path)) == Some(404)
  {
  }

  // --------------------------------------------------------- scheduled

  /** The three maintenance tasks. */
  datatype CronTask = CheckOfflineServers | RunConnectivityTests | CleanupOldData

  const EveryFiveMinutes := "*/5 * * * *"
  const EveryTenMinutes := "*/10 * * * *"
  const EverySixHours := "0 */6 * * *"

  /** The task the `switch (event.cron)` selects, if the string is one it knows. */
  function CronTaskFor(cron: string): (t: Option<CronTask>)
    ensures t == Some(CheckOfflineServers) <==> cron == EveryFiveMinutes
    ensures t == Some(RunConnectivityTests) <==> cron == EveryTenMinutes
    ensures t == Some(CleanupOldData) <==> cron == EverySixHours
    ensures t.None? <==> cron != EveryFiveMinutes && cron != EveryTenMinutes && cron != EverySixHours
  {
    if cron == EveryFiveMinutes then Some(CheckOfflineServers)
    else if cron == EveryTenMinutes then Some(RunConnectivityTests)
    else if cron == EverySixHours then Some(CleanupOldData)
    else None
  }

  /**
   * `scheduled(event)`: runs the selected task. The cleanup runs on the
   * tables with the default age. The two service tasks are reported in
   * `ran`; `MonitorService` and `SpeedTestService` are handed the database
   * and their writes are not part of this model, so after them the tables
   * are unconstrained. An unknown cron string only logs.
   */
  method Scheduled(db: Db.Database, cron: string, now: int) returns (ran: Option<CronTask>)
    requires db.Valid()
    modifies db
    ensures db.Valid()
    ensures ran == CronTaskFor(cron)
    ensures ran == Some(CleanupOldData) ==>
      var cutoff := now - Db.DefaultRetentionDays * 86400;
      && db.monitorData == Db.KeepSince(old(db.monitorData), cutoff)
      && db.connectivityTests == Db.KeepSince(old(db.connectivityTests), cutoff)
      && db.operationLogs == Db.KeepSince(old(db.operationLogs), cutoff)
      && db.servers == old(db.servers) && db.config == old(db.config)
    ensures ran.None? ==>
      db.monitorData == old(db.monitorData) && db.connectivityTests == old(db.connectivityTests)
      && db.operationLogs == old(db.operationLogs) && db.servers == old(db.servers) && db.config == old(db.config)
  {
    ran := CronTaskFor(cron);
    if ran == Some(CleanupOldData) {
      db.CleanupOldData(Db.DefaultRetentionDays, now);
    }
  }

  // -------------------------------------------------- WebSocketHandler

  /** The record the handler keeps per connection. */
  datatype Conn = Conn(authenticated: bool, serverName: Json, lastPing: int)

  /** A connection `broadcastToFrontend` writes to: authenticated and bound to no server. */
  predicate FrontendConn(c: Conn) { c.authenticated && !Truthy(c.serverName) }

  function FrontendIds(sessions: map<string, Conn>): (r: set<string>)
    ensures forall id :: id in r <==> id in sessions && FrontendConn(sessions[id])
  {
    set id | id in sessions && FrontendConn(sessions[id])
  }

  /** The frames on each socket after `frame` was written on each socket in `ids`. */
  function Deliver(sent: map<string, seq<Json>>, ids: set<string>, frame: Json): (r: map<string, seq<Json>>)
    ensures r.Keys == sent.Keys
    ensures forall id :: id in sent ==> r[id] == sent[id] + (if id in ids then [frame] else [])
  {
    map id | id in sent :: sent[id] + (if id in ids then [frame] else [])
  }

  /** Writes with no frame reach nobody. */
  lemma DeliverNothing(sent: map<string, seq<Json>>, frame: Json)
    ensures Deliver(sent, {}, frame) == sent
  {
    assert forall id :: id in sent ==> sent[id] + [] == sent[id];
  }

  /** Writing on one more socket appends the frame to that socket alone. */
  lemma DeliverOneMore(sent: map<string, seq<Json>>, ids: set<string>, id: string, frame: Json)
    requires id in sent && id !in ids
    ensures var before := Deliver(sent, ids, frame);
      Deliver(sent, ids + {id}, frame) == before[id := before[id] + [frame]]
  {
    var before := Deliver(sent, ids, frame);
    var after := Deliver(sent, ids + {id}, frame);
    assert after.Keys == before[id := before[id] + [frame]].Keys;
    forall k | k in after
      ensures after[k] == before[id := before[id] + [frame]][k]
    {
      if k == id {
        assert after[k] == sent[k] + [frame];
      }
    }
  }

  /** Writing on one socket, unless its `send` throws. */
  lemma DeliverSingle(sent: map<string, seq<Json>>, id: string, frame: Json, broken: set<string>)
    requires id in sent
    ensures Deliver(sent, {id} - broken, frame) == if id in broken then sent else sent[id := sent[id] + [frame]]
  {
    DeliverNothing(sent, frame);
    if id in broken {
      assert {id} - broken == {};
    } else {
      DeliverOneMore(sent, {}, id, frame);
      assert {id} - broken == {} + {id};
    }
  }

  /** The message `handleMonitorData` broadcasts. */
  function MonitorUpdate(name: Json, payload: Json): Json {
    Obj([("type", Str("monitor_update")), ("server_name", name), ("data", payload)])
  }

  function Reply(kind: string, message: string): Json {
    Obj([("type", Str(kind)), ("message", Str(message))])
  }

  class WebSocketHandler {
    const authSecret: Json                 // env.AUTH_SECRET
    var sessions: map<string, Conn>
    var sent: map<string, seq<Json>>       // the frames written on each socket
    var closedSockets: set<string>          // sockets `close()` was called on
    var effects: seq<LiveSession.Effect>

    /** Each registered connection has a socket, and none of them was closed. */
    ghost predicate Valid()
      reads this
    {
      sessions.Keys <= sent.Keys && forall id :: id in sessions ==> id !in closedSockets
    }

    constructor (secret: Json)
      ensures Valid()
      ensures authSecret == secret && sessions == map[] && sent == map[] && closedSockets == {} && effects == []
    {
      authSecret := secret;
      sessions := map[];
      sent := map[];
      closedSockets := {};
      effects := [];
    }

    /** `fetch()`: registers a new connection under a fresh id. */
    method Accept(sessionId: string, now: int)
      requires Valid() && sessionId !in sent && sessionId !in closedSockets
      modifies this
      ensures Valid()
      ensures sessions == old(sessions)[sessionId := Conn(false, Null, now)]
      ensures sent == old(sent)[sessionId := []]
      ensures closedSockets == old(closedSockets) && effects == old(effects)
    {
      sessions := sessions[sessionId := Conn(false, Null, now)];
      sent := sent[sessionId := []];
    }

    /** The close and error listeners: that session goes, and no other. */
    method Drop(sessionId: string)
      requires Valid()
      modifies this
      ensures Valid()
      ensures sessions == old(sessions) - {sessionId}
      ensures sent == old(sent) && closedSockets == old(closedSockets) && effects == old(effects)
    {
      sessions := sessions - {sessionId};
    }

    /** `webSocket.send(frame)` on a registered connection; `false` when it throws. */
    method Write(sessionId: string, frame: Json, broken: set<string>) returns (ok: bool)
      requires Valid() && sessionId in sessions
      modifies this
      ensures Valid()
      ensures ok <==> sessionId !in broken
      ensures ok ==> sent == old(sent)[sessionId := old(sent)[sessionId] + [frame]]
      ensures !ok ==> sent == old(sent)
      ensures sessions == old(sessions) && closedSockets == old(closedSockets) && effects == old(effects)
    {
      ok := sessionId !in broken;
      if ok {
        sent := sent[sessionId := sent[sessionId] + [frame]];
      }
    }

    /**
     * `handleAuth(sessionId, data)`: the right secret authenticates and
     * overwrites the server name; a wrong one answers, closes and
     * unregisters, unless the answer already throws.
     */
    method HandleAuth(sessionId: string, data: Json, broken: set<string>)
      requires Valid() && sessionId in sessions && !IsNullish(data)
      modifies this
      ensures Valid() && effects == old(effects)
      ensures StrictEq(Get(data, "auth_secret"), authSecret) ==>
        && sessions == old(sessions)[sessionId := old(sessions)[sessionId].(authenticated := true, serverName := Get(data, "server_name"))]
        && sent == Deliver(old(sent), {sessionId} - broken, Reply("auth_success", "Authentication successful"))
        && closedSockets == old(closedSockets)
      ensures !StrictEq(Get(data, "auth_secret"), authSecret) ==>
        && sent == Deliver(old(sent), {sessionId} - broken, Reply("auth_failed", "Invalid authentication"))
        && (sessionId !in broken ==> sessions == old(sessions) - {sessionId} && closedSockets == old(closedSockets) + {sessionId})
        && (sessionId in broken ==> sessions == old(sessions) && closedSockets == old(closedSockets))
    {
      if StrictEq(Get(data, "auth_secret"), authSecret) {
        sessions := sessions[sessionId := sessions[sessionId].(authenticated := true, serverName := Get(data, "server_name"))];
        DeliverSingle(sent, sessionId, Reply("auth_success", "Authentication successful"), broken);
        var _ := Write(sessionId, Reply("auth_success", "Authentication successful"), broken);
      } else {
        DeliverSingle(sent, sessionId, Reply("auth_failed", "Invalid authentication"), broken);
        var ok := Write(sessionId, Reply("auth_failed", "Invalid authentication"), broken);
        if ok {
          closedSockets := closedSockets + {sessionId};
          sessions := sessions - {sessionId};
        }
      }
    }

    /**
     * `broadcastToFrontend(message)`: writes to every authenticated
     * connection with no server name; one whose `send` throws is
     * unregistered and the others are still written to.
     */
    method BroadcastToFrontend(message: Json, broken: set<string>)
      requires Valid()
      modifies this
      ensures Valid()
      ensures sent == Deliver(old(sent), FrontendIds(old(sessions)) - broken, message)
      ensures sessions == old(sessions) - (FrontendIds(old(sessions)) * broken)
      ensures closedSockets == old(closedSockets) && effects == old(effects)
    {
      var targets := FrontendIds(sessions);
      var todo := targets;
      ghost var done: set<string> := {};
      DeliverNothing(sent, message);
      assert done - broken == {};
      while todo != {}
        invariant todo <= targets <= old(sessions).Keys && done == targets - todo
        invariant sent == Deliver(old(sent), done - broken, message)
        invariant sessions == old(sessions) - (done * broken)
        invariant closedSockets == old(closedSockets) && effects == old(effects)
        decreases todo
      {
        var id :| id in todo;
        Offer(id, message, broken, old(sent), old(sessions), done);
        todo := todo - {id};
        done := done + {id};
      }
    }

    /**
     * One step of the broadcast: the `send`, or the removal when it
     * throws; `done` are the connections already visited.
     */
    method Offer(id: string, message: Json, broken: set<string>,
                 ghost sent0: map<string, seq<Json>>, ghost sessions0: map<string, Conn>, ghost done: set<string>)
      requires id in sent0 && id !in done
      requires sent == Deliver(sent0, done - broken, message)
      requires sessions == sessions0 - (done * broken)
      modifies this
      ensures sent == Deliver(sent0, (done + {id}) - broken, message)
      ensures sessions == sessions0 - ((done + {id}) * broken)
      ensures closedSockets == old(closedSockets) && effects == old(effects)
    {
      if id !in broken {
        DeliverOneMore(sent0, done - broken, id, message);
        assert (done + {id}) - broken == (done - broken) + {id};
        assert (done + {id}) * broken == done * broken;
        sent := sent[id := sent[id] + [message]];
      } else {
        assert (done + {id}) - broken == done - broken;
        assert (done + {id}) * broken == done * broken + {id};
        sessions := sessions - {id};
      }
    }

    /**
     * `handleMonitorData(sessionId, data)`: an authenticated connection's
     * payload is saved, its server marked online, and the update
     * broadcast, stopping at the first call that throws.
     */
    method HandleMonitorData(sessionId: string, data: Json, saveOk: bool, statusOk: bool, broken: set<string>)
      requires Valid() && sessionId in sessions
      modifies this
      ensures Valid()
      ensures !old(sessions)[sessionId].authenticated ==>
        sessions == old(sessions) && sent == old(sent) && effects == old(effects) && closedSockets == old(closedSockets)
      ensures old(sessions)[sessionId].authenticated ==>
        var name := old(sessions)[sessionId].serverName;
        var payload := Get(data, "payload");
        && effects == old(effects) + [LiveSession.SaveAgentData(name, payload)]
                      + (if saveOk then [LiveSession.StatusUpdate(name, "online", Str("agent"))] else [])
        && (saveOk && statusOk ==>
              sent == Deliver(old(sent), FrontendIds(old(sessions)) - broken, MonitorUpdate(name, payload))
              && sessions == old(sessions) - (FrontendIds(old(sessions)) * broken))
        && (!(saveOk && statusOk) ==> sent == old(sent) && sessions == old(sessions))
        && closedSockets == old(closedSockets)
    {
      var conn := sessions[sessionId];
      if !conn.authenticated {
        return;
      }
      var payload := Get(data, "payload");
      effects := effects + [LiveSession.SaveAgentData(conn.serverName, payload)];
      if !saveOk {
        return;
      }
      effects := effects + [LiveSession.StatusUpdate(conn.serverName, "online", Str("agent"))];
      if !statusOk {
        return;
      }
      BroadcastToFrontend(MonitorUpdate(conn.serverName, payload), broken);
    }

    /**
     * `handleMessage(sessionId, message)`: `message` is `None` when
     * `JSON.parse` throws; every error is swallowed.
     */
    method HandleMessage(sessionId: string, message: Option<Json>, now: int, saveOk: bool, statusOk: bool,
                         broken: set<string>)
      requires Valid()
      modifies this
      ensures Valid()
      ensures sessionId !in old(sessions) || message.None? || IsNullish(message.value) ==>
        sessions == old(sessions) && sent == old(sent) && closedSockets == old(closedSockets) && effects == old(effects)
      ensures sessionId in old(sessions) && message.Some? && StrictEq(Get(message.value, "type"), Str("ping")) ==>
        && sessions == old(sessions)[sessionId := old(sessions)[sessionId].(lastPing := now)]
        && sent == Deliver(old(sent), {sessionId} - broken, Obj([("type", Str("pong"))]))
        && closedSockets == old(closedSockets) && effects == old(effects)
      ensures sessionId in old(sessions) && message.Some? && StrictEq(Get(message.value, "type"), Str("monitor_data"))
              && !old(sessions)[sessionId].authenticated ==>
        sessions == old(sessions) && sent == old(sent) && closedSockets == old(closedSockets) && effects == old(effects)
      ensures sessionId in old(sessions) && message.Some? && !IsNullish(message.value)
              && StrictEq(Get(message.value, "type"), Str("auth")) ==>
        var data := message.value;
        && effects == old(effects)
        && (StrictEq(Get(data, "auth_secret"), authSecret) ==>
              && sessions == old(sessions)[sessionId := old(sessions)[sessionId].(authenticated := true, serverName := Get(data, "server_name"))]
              && sent == Deliver(old(sent), {sessionId} - broken, Reply("auth_success", "Authentication successful"))
              && closedSockets == old(closedSockets))
        && (!StrictEq(Get(data, "auth_secret"), authSecret) ==>
              && sent == Deliver(old(sent), {sessionId} - broken, Reply("auth_failed", "Invalid authentication"))
              && (sessionId !in broken ==> sessions == old(sessions) - {sessionId} && closedSockets == old(closedSockets) + {sessionId})
              && (sessionId in broken ==> sessions == old(sessions) && closedSockets == old(closedSockets)))
      ensures sessionId in old(sessions) && message.Some? && StrictEq(Get(message.value, "type"), Str("monitor_data"))
              && old(sessions)[sessionId].authenticated ==>
        var name := old(sessions)[sessionId].serverName;
        var payload := Get(message.value, "payload");
        && effects == old(effects) + [LiveSession.SaveAgentData(name, payload)]
                      + (if saveOk then [LiveSession.StatusUpdate(name, "online", Str("agent"))] else [])
        && (saveOk && statusOk ==>
              sent == Deliver(old(sent), FrontendIds(old(sessions)) - broken, MonitorUpdate(name, payload))
              && sessions == old(sessions) - (FrontendIds(old(sessions)) * broken))
        && (!(saveOk && statusOk) ==> sent == old(sent) && sessions == old(sessions))
        && closedSockets == old(closedSockets)
      ensures message.Some? && !StrictEq(Get(message.value, "type"), Str("auth"))
              && !StrictEq(Get(message.value, "type"), Str("monitor_data"))
              && !StrictEq(Get(message.value, "type"), Str("ping")) ==>
        sessions == old(sessions) && sent == old(sent) && closedSockets == old(closedSockets) && effects == old(effects)
    {
      if sessionId !in sessions || message.None? || IsNullish(message.value) {
        return;
      }
      var data := message.value;
      var kind := Get(data, "type");
      if StrictEq(kind, Str("auth")) {
        HandleAuth(sessionId, data, broken);
      } else if StrictEq(kind, Str("monitor_data")) {
        HandleMonitorData(sessionId, data, saveOk, statusOk, broken);
      } else if StrictEq(kind, Str("ping")) {
        sessions := sessions[sessionId := sessions[sessionId].(lastPing := now)];
        DeliverSingle(sent, sessionId, Obj([("type", Str("pong"))]), broken);
        var _ := Write(sessionId, Obj([("type", Str("pong"))]), broken);
      }
    }
  }

  /** A broadcast writes only to front-end connections, each at most once. */
  lemma BroadcastReachesOnlyFrontends(sent: map<string, seq<Json>>, sessions: map<string, Conn>, broken: set<string>,
                                      message: Json, id: string)
    requires id in sent
    ensures var after := Deliver(sent, FrontendIds(sessions) - broken, message);
      && (after[id] != sent[id] <==> id in sessions && FrontendConn(sessions[id]) && id !in broken)
      && |after[id]| <= |sent[id]| + 1
  {
    var after := Deliver(sent, FrontendIds(sessions) - broken, message);
    if id in FrontendIds(sessions) - broken {
      assert |after[id]| == |sent[id]| + 1;
    }
  }

  /** An agent connection, bound to a server name, never receives the broadcast. */
  lemma AgentsDoNotReceive(sessions: map<string, Conn>, id: string)
    requires id in sessions && Truthy(sessions[id].serverName)
    ensures id !in FrontendIds(sessions)
  {
  }
}
