/**
 * The REST handlers of workers/src/handlers/api.js that validate and
 * normalise what clients send before it reaches the tables: pushed
 * monitor data, server creation, agent registration, partial server
 * updates, credential masking, and the configuration endpoints.
 *
 * A request body is `Some(json)` when `request.json()` parses and `None`
 * when it throws. Encryption and `JSON.stringify` are parameters.
 */
module ApiHandlers {
  import opened Wrappers
  import opened JsValue
  import Text
  import opened Db
  import WorkerHelpers

  /**
   * What a handler answers: `createResponse(data)`, `createErrorResponse(message, status)`,
   * or `Thrown` when the handler throws and `handleAPI` answers 500 with
   * the error's own message. Messages are the handler's text, without the
   * exception text some of them append.
   */
  datatype Reply = Ok(data: Json) | Error(status: int, message: string) | Thrown

  function Message(text: string): Json { Obj([("message", Str(text))]) }

  // ---------------------------------------------------- receiveServerData

  /** `monitorData.timestamp` and `monitorData.server_name` are both truthy. */
  predicate WellFormedMonitorData(body: Json) {
    Truthy(Get(body, "timestamp")) && Truthy(Get(body, "server_name"))
  }

  /** The request passes every check of `receiveServerData`. */
  predicate AcceptedMonitorData(urlName: Json, body: Option<Json>) {
    body.Some? && !IsNullish(body.value) && WellFormedMonitorData(body.value)
    && StrictEq(Get(body.value, "server_name"), urlName)
  }

  const UsageColumns: set<string> := {"cpu_usage", "memory_usage", "disk_usage"}

  /** The row `receiveServerData` inserts into `monitor_data`. */
  function MonitorRow(serverName: Json, body: Json): (r: map<string, Json>)
    ensures r.Keys == UsageColumns + {"server_name", "data_source"}
    ensures forall c :: c in UsageColumns ==> r[c] == Num(0) || Truthy(r[c])
  {
    map["server_name" := serverName,
        "cpu_usage" := Or(Get(body, "cpu_percent"), Num(0)),
        "memory_usage" := Or(Get(body, "memory_percent"), Num(0)),
        "disk_usage" := Or(Get(body, "disk_percent"), Num(0)),
        "data_source" := Str("agent")]
  }

  /**
   * An accepted record is filed under the name the agent reported, which
   * is a non-empty primitive, with each usage reported or else 0.
   */
  lemma AcceptedRowIsReported(urlName: Json, body: Option<Json>)
    requires AcceptedMonitorData(urlName, body)
    ensures var r := MonitorRow(urlName, body.value);
      && r["server_name"] == Get(body.value, "server_name") && Truthy(r["server_name"])
      && !r["server_name"].Arr? && !r["server_name"].Obj?
      && r["data_source"] == Str("agent")
      && r["cpu_usage"] == (if Truthy(Get(body.value, "cpu_percent")) then Get(body.value, "cpu_percent") else Num(0))
  {
    StrictEqIsSamePrimitive(Get(body.value, "server_name"), urlName);
  }

  /**
   * `receiveServerData` for the URL `/api/servers/<urlName>/data`: the
   * checks in order, then one insert and the 'online' status update.
   */
  method ReceiveServerData(db: Database, urlName: Json, body: Option<Json>, now: int) returns (reply: Reply)
    requires db.Valid()
    modifies db
    ensures db.Valid()
    ensures body.None? ==> reply == Error(400, "Invalid JSON format")
    ensures body.Some? && IsNullish(body.value) ==> reply == Error(500, "Failed to receive monitor data")
    ensures body.Some? && !IsNullish(body.value) && !WellFormedMonitorData(body.value) ==>
      reply == Error(400, "Invalid monitor data format")
    ensures body.Some? && !IsNullish(body.value) && WellFormedMonitorData(body.value)
            && !StrictEq(Get(body.value, "server_name"), urlName)
            ==> reply == Error(400, "Server name mismatch")
    ensures reply.Ok? <==> AcceptedMonitorData(urlName, body)
    ensures !reply.Ok? ==> db.servers == old(db.servers) && db.monitorData == old(db.monitorData)
    ensures reply.Ok? ==>
      && reply == Ok(Message("Monitor data received successfully"))
      && db.monitorData == old(db.monitorData) + [TimedRow(MonitorRow(urlName, body.value), now)]
      && db.servers == if urlName in old(db.servers)
                       then old(db.servers)[urlName := StatusRow(old(db.servers)[urlName], Str("online"), Str("agent"), now)]
                       else old(db.servers)
    ensures db.connectivityTests == old(db.connectivityTests) && db.operationLogs == old(db.operationLogs)
    ensures db.config == old(db.config)
  {
    if body.None? {
      return Error(400, "Invalid JSON format");
    }
    var monitorData := body.value;
    if IsNullish(monitorData) {
      return Error(500, "Failed to receive monitor data");
    }
    if !Truthy(Get(monitorData, "timestamp")) || !Truthy(Get(monitorData, "server_name")) {
      return Error(400, "Invalid monitor data format");
    }
    if !StrictEq(Get(monitorData, "server_name"), urlName) {
      return Error(400, "Server name mismatch");
    }
    db.InsertMonitorData(MonitorRow(urlName, monitorData), now);
    db.UpdateServerStatus(urlName, Str("online"), Str("agent"), now);
    reply := Ok(Message("Monitor data received successfully"));
  }

  // --------------------------------------------------------- createServer

  /**
   * The object literal `serverData` of `createServer` with its defaults;
   * `credentials` is null or the encrypted SSH credentials.
   */
  function CreateInput(raw: Json, credentials: Json): ServerInput {
    ServerInput(
      name := Get(raw, "name"), description := Undefined,
      region := Or(Or(Get(raw, "description"), Get(raw, "region")), Str("Default")),
      expiryDate := Undefined, dueTime := Or(Get(raw, "due_time"), Null),
      purchaseUrl := Undefined, buyUrl := Or(Get(raw, "buy_url"), Null),
      seller := Or(Get(raw, "seller"), Null), price := Or(Get(raw, "price"), Null),
      ipAddress := Get(raw, "ip_address"), port := Or(Get(raw, "port"), Num(22)),
      encryptedCredentials := credentials,
      monitorMethod := Or(Get(raw, "monitor_method"), Str("both")),
      monitorInterval := Or(Get(raw, "monitor_interval"), Num(300)),
      location := Or(Get(raw, "location"), Str("Unknown")))
  }

  /** `serverData.encrypted_credentials`: encrypted JSON of truthy `ssh_credentials`, else null. */
  function Credentials(raw: Json, encrypt: string -> string, stringify: Json -> string): (c: Json)
    ensures c == Null || c.Str?
  {
    var ssh := Get(raw, "ssh_credentials");
    if Truthy(ssh) then Str(encrypt(stringify(ssh))) else Null
  }

  /** The two required fields of a server or agent record. */
  predicate HasNameAndAddress(raw: Json) {
    Truthy(Get(raw, "name")) && Truthy(Get(raw, "ip_address"))
  }

  /**
   * The row `createServer` leaves in `servers`: its defaults survive the
   * defaults of `upsertServer`, so the region is `description || region
   * || 'Default'` and the location `location || 'Unknown'`.
   */
  lemma CreatedServerRow(existing: Option<Row>, raw: Json, credentials: Json, now: int)
    ensures var row := UpsertRow(existing, CreateInput(raw, credentials), now);
      && row["region"] == (if Truthy(Get(raw, "description")) then Get(raw, "description")
                           else if Truthy(Get(raw, "region")) then Get(raw, "region") else Str("Default"))
      && row["location"] == Or(Get(raw, "location"), Str("Unknown"))
      && row["port"] == Or(Get(raw, "port"), Num(22))
      && row["monitor_method"] == Or(Get(raw, "monitor_method"), Str("both"))
      && row["monitor_interval"] == Or(Get(raw, "monitor_interval"), Num(300))
      && row["ip_address"] == Or(Get(raw, "ip_address"), Null)
      && row["encrypted_credentials"] == Or(credentials, Null)
      && row["updated_at"] == Num(now)
      && (existing.None? ==> row["name"] == Get(raw, "name"))
  {
    var data := CreateInput(raw, credentials);
    UpsertRowColumn(existing, data, now, "region");
    UpsertRowColumn(existing, data, now, "location");
    UpsertRowColumn(existing, data, now, "port");
    UpsertRowColumn(existing, data, now, "monitor_method");
    UpsertRowColumn(existing, data, now, "monitor_interval");
    UpsertRowColumn(existing, data, now, "ip_address");
    UpsertRowColumn(existing, data, now, "encrypted_credentials");
    UpsertRowStamp(existing, data, now);
    OrChain(Get(raw, "description"), Get(raw, "region"), Str("Default"));
  }

  /** `createServer`: a body that does not parse, or is null, makes it throw. */
  method CreateServer(db: Database, body: Option<Json>, encrypt: string -> string,
                      stringify: Json -> string, now: int) returns (reply: Reply)
    modifies db
    ensures body.None? || IsNullish(body.value) ==> reply == Thrown && db.servers == old(db.servers)
    ensures body.Some? && !IsNullish(body.value) && !HasNameAndAddress(body.value) ==>
      reply == Error(400, "Server name and IP address are required") && db.servers == old(db.servers)
    ensures body.Some? && !IsNullish(body.value) && HasNameAndAddress(body.value) ==>
      var record := CreateInput(body.value, Credentials(body.value, encrypt, stringify));
      var name := Get(body.value, "name");
      && db.servers == old(db.servers)[name := UpsertRow(if name in old(db.servers) then Some(old(db.servers)[name]) else None, record, now)]
      && reply == Ok(Obj([("message", Str("Server created successfully")),
                          ("server", Obj([("name", name), ("ip_address", Get(body.value, "ip_address"))]))]))
    ensures db.monitorData == old(db.monitorData) && db.connectivityTests == old(db.connectivityTests)
    ensures db.operationLogs == old(db.operationLogs) && db.config == old(db.config)
  {
    if body.None? || IsNullish(body.value) {
      return Thrown;
    }
    var raw := body.value;
    if !Truthy(Get(raw, "name")) || !Truthy(Get(raw, "ip_address")) {
      return Error(400, "Server name and IP address are required");
    }
    // `encrypted_credentials` starts as null and is overwritten in place
    var credentials := Null;
    var ssh := Get(raw, "ssh_credentials");
    if Truthy(ssh) {
      credentials := Str(encrypt(stringify(ssh)));
    }
    db.UpsertServer(CreateInput(raw, credentials), now);
    reply := Ok(Obj([("message", Str("Server created successfully")),
                     ("server", Obj([("name", Get(raw, "name")), ("ip_address", Get(raw, "ip_address"))]))]));
  }

  // -------------------------------------------------------- registerAgent

  /** `CF-Connecting-IP || X-Forwarded-For || agentData.ip_address`; the forwarded list is taken whole. */
  function AgentAddress(headers: map<string, string>, agent: Json): (ip: Json)
    ensures WorkerHelpers.Header(headers, "cf-connecting-ip") != "" ==>
      ip == Str(WorkerHelpers.Header(headers, "cf-connecting-ip"))
    ensures WorkerHelpers.Header(headers, "cf-connecting-ip") == "" && WorkerHelpers.Header(headers, "x-forwarded-for") != "" ==>
      ip == Str(WorkerHelpers.Header(headers, "x-forwarded-for"))
    ensures WorkerHelpers.Header(headers, "cf-connecting-ip") == "" && WorkerHelpers.Header(headers, "x-forwarded-for") == "" ==>
      ip == Get(agent, "ip_address")
  {
    Or(Or(Str(WorkerHelpers.Header(headers, "cf-connecting-ip")), Str(WorkerHelpers.Header(headers, "x-forwarded-for"))),
       Get(agent, "ip_address"))
  }

  /** The object literal `serverData` of `registerAgent`. */
  function AgentInput(agent: Json, ip: Json): ServerInput {
    ServerInput(
      name := Get(agent, "name"), description := Undefined,
      region := Or(Get(agent, "description"), Str("Agent auto-registered")),
      expiryDate := Undefined, dueTime := Null, purchaseUrl := Undefined, buyUrl := Null,
      seller := Str("Agent"), price := Null, ipAddress := ip, port := Or(Get(agent, "port"), Num(22)),
      encryptedCredentials := Null, monitorMethod := Str("both"), monitorInterval := Num(300),
      location := Or(Get(agent, "location"), Str("Auto-detected")))
  }

  /** A server whose stored name is `===` to this one exists. */
  predicate KnownServer(servers: map<Json, Row>, name: Json) {
    exists k :: k in servers && StrictEq(k, name)
  }

  /**
   * The row an agent registration leaves: whatever the agent sent, the
   * method is 'both', the interval 300 s, the seller 'Agent', and no
   * credentials are stored.
   */
  lemma RegisteredAgentRow(existing: Option<Row>, agent: Json, ip: Json, now: int)
    ensures var row := UpsertRow(existing, AgentInput(agent, ip), now);
      && row["monitor_method"] == Str("both") && row["monitor_interval"] == Num(300)
      && row["seller"] == Str("Agent") && row["encrypted_credentials"] == Null
      && row["due_time"] == Null && row["buy_url"] == Null && row["price"] == Null
      && row["region"] == Or(Get(agent, "description"), Str("Agent auto-registered"))
      && row["location"] == Or(Get(agent, "location"), Str("Auto-detected"))
      && row["ip_address"] == Or(ip, Null)
  {
    var data := AgentInput(agent, ip);
    forall c | c in UpsertedColumns
      ensures UpsertRow(existing, data, now)[c] == BoundValue(data, c)
    {
      UpsertRowColumn(existing, data, now, c);
    }
  }

  /** The answer to a registration: the stored name and address, and whether the server was known. */
  function AgentReply(name: Json, ip: Json, known: bool): Json {
    var server := Obj([("name", name), ("ip_address", ip)]);
    if known then
      Obj([("message", Str("Agent registered successfully (updated existing server)")),
           ("server", server), ("action", Str("updated"))])
    else
      Obj([("message", Str("Agent registered successfully (new server created)")),
           ("server", server), ("action", Str("created"))])
  }

  /**
   * `registerAgent`; parse and type errors are caught by the handler.
   * The `id` it adds for a known server is not a column `upsertServer`
   * binds, so it is not passed on.
   */
  method RegisterAgent(db: Database, headers: map<string, string>, body: Option<Json>, now: int) returns (reply: Reply)
    modifies db
    ensures body.None? || IsNullish(body.value) ==>
      reply == Error(500, "Failed to register agent") && db.servers == old(db.servers)
    ensures body.Some? && !IsNullish(body.value) && !HasNameAndAddress(body.value) ==>
      reply == Error(400, "Agent name and IP address are required") && db.servers == old(db.servers)
    ensures body.Some? && !IsNullish(body.value) && HasNameAndAddress(body.value) ==>
      var name := Get(body.value, "name");
      var ip := AgentAddress(headers, body.value);
      && db.servers == old(db.servers)[name := UpsertRow(if name in old(db.servers) then Some(old(db.servers)[name]) else None,
                                                         AgentInput(body.value, ip), now)]
      && reply == Ok(AgentReply(name, ip, KnownServer(old(db.servers), name)))
    ensures db.monitorData == old(db.monitorData) && db.connectivityTests == old(db.connectivityTests)
    ensures db.operationLogs == old(db.operationLogs) && db.config == old(db.config)
  {
    if body.None? || IsNullish(body.value) {
      return Error(500, "Failed to register agent");
    }
    var agentData := body.value;
    if !Truthy(Get(agentData, "name")) || !Truthy(Get(agentData, "ip_address")) {
      return Error(400, "Agent name and IP address are required");
    }
    var clientIP := AgentAddress(headers, agentData);
    var serverData := AgentInput(agentData, clientIP);
    var name := Get(agentData, "name");
    var known := exists k | k in db.servers :: StrictEq(k, name);
    db.UpsertServer(serverData, now);
    reply := Ok(AgentReply(name, clientIP, known));
  }

  /** The registration answer says which of the two cases happened and echoes the stored name and address. */
  lemma AgentReplyReports(name: Json, ip: Json, known: bool)
    ensures Get(AgentReply(name, ip, known), "action") == Str(if known then "updated" else "created")
    ensures Get(AgentReply(name, ip, known), "server") == Obj([("name", name), ("ip_address", ip)])
    ensures Get(Get(AgentReply(name, ip, known), "server"), "ip_address") == ip
  {
    var props := AgentReply(name, ip, known).props;
    FindKeyIs(props, "action", 2);
    FindKeyIs(props, "server", 1);
    FindKeyIs([("name", name), ("ip_address", ip)], "ip_address", 1);
  }

  // --------------------------------------------------------- updateServer

  /**
   * The entries `updateServer` hands to the table: `Object.entries` of the
   * body after truthy `ssh_credentials` were replaced by their encryption
   * under `encrypted_credentials`; reading a property of null or
   * undefined throws (`None`).
   */
  function UpdateEntries(v: Json, encrypt: string -> string, stringify: Json -> string): (r: Option<seq<(string, Json)>>)
    ensures r.None? <==> IsNullish(v)
  {
    var ssh := Get(v, "ssh_credentials");
    if v.Obj? && Truthy(ssh) then
      Some(DeleteProp(SetProp(OwnProps(v.props), "encrypted_credentials", Str(encrypt(stringify(ssh)))), "ssh_credentials"))
    else Entries(v)
  }

  /**
   * Plain SSH credentials never reach the table: when the body carries
   * them, the entries hold their encryption instead and lose the plain
   * field; every other property is passed on as sent.
   */
  lemma UpdateEntriesProtectCredentials(v: Json, encrypt: string -> string, stringify: Json -> string)
    requires v.Obj?
    ensures var e := Obj(UpdateEntries(v, encrypt, stringify).value); var ssh := Get(v, "ssh_credentials");
      && (Truthy(ssh) ==> !Has(e, "ssh_credentials") && Get(e, "encrypted_credentials") == Str(encrypt(stringify(ssh))))
      && (forall k :: k != "ssh_credentials" && k != "encrypted_credentials" ==> Get(e, k) == Get(v, k))
      && (!Truthy(ssh) ==> forall k :: Get(e, k) == Get(v, k))
  {
    var e := UpdateEntries(v, encrypt, stringify).value;
    forall k {
      UpdateEntriesRead(v, encrypt, stringify, k);
    }
    UpdateEntriesRead(v, encrypt, stringify, "ssh_credentials");
  }

  /** One property of the entries of `updateServer`. */
  lemma UpdateEntriesRead(v: Json, encrypt: string -> string, stringify: Json -> string, k: string)
    requires v.Obj?
    ensures var e := Obj(UpdateEntries(v, encrypt, stringify).value); var ssh := Get(v, "ssh_credentials");
      && Get(e, k) == (if Truthy(ssh) && k == "ssh_credentials" then Undefined
                       else if Truthy(ssh) && k == "encrypted_credentials" then Str(encrypt(stringify(ssh)))
                       else Get(v, k))
      && (Truthy(ssh) && k == "ssh_credentials" ==> !Has(e, k))
  {
    var ssh := Get(v, "ssh_credentials");
    OwnPropsReads(v.props, k);
    if Truthy(ssh) {
      var encrypted := SetProp(OwnProps(v.props), "encrypted_credentials", Str(encrypt(stringify(ssh))));
      GetSetProp(OwnProps(v.props), "encrypted_credentials", Str(encrypt(stringify(ssh))), k);
      GetDeleteProp(encrypted, "ssh_credentials", k);
    }
  }

  /**
   * `updateServer` for `/api/servers/<serverName>`: a body that does not
   * parse, or is null, makes it throw; a field that names no column, or a
   * rename onto a name another row holds, makes the statement fail (500).
   */
  method UpdateServerApi(db: Database, serverName: Json, body: Option<Json>, encrypt: string -> string,
                         stringify: Json -> string, now: int) returns (reply: Reply)
    modifies db
    ensures body.None? || IsNullish(body.value) ==> reply == Thrown && db.servers == old(db.servers)
    ensures body.Some? && !IsNullish(body.value) ==>
      var u := UpdateTable(old(db.servers), serverName, Assignments(UpdateEntries(body.value, encrypt, stringify).value), now);
      && db.servers == u.servers
      && reply == (if u.outcome.Failed? then Error(500, "Failed to update server")
                   else Ok(Message("Server updated successfully")))
    ensures db.monitorData == old(db.monitorData) && db.connectivityTests == old(db.connectivityTests)
    ensures db.operationLogs == old(db.operationLogs) && db.config == old(db.config)
  {
    if body.None? || IsNullish(body.value) {
      return Thrown;
    }
    var entries := UpdateEntries(body.value, encrypt, stringify).value;
    var outcome := db.UpdateServer(serverName, entries, now);
    if outcome.Failed? {
      reply := Error(500, "Failed to update server");
    } else {
      reply := Ok(Message("Server updated successfully"));
    }
  }

  // ------------------------------------------------ deleteServer, getServer(s)

  /** `deleteServer` for `/api/servers/<serverName>`. */
  method DeleteServerApi(db: Database, serverName: Json) returns (reply: Reply)
    modifies db
    ensures reply == Ok(Message("Server deleted successfully"))
    ensures db.servers == old(db.servers) - {serverName} && serverName !in db.servers
    ensures db.monitorData == old(db.monitorData) && db.connectivityTests == old(db.connectivityTests)
    ensures db.operationLogs == old(db.operationLogs) && db.config == old(db.config)
  {
    db.DeleteServer(serverName);
    reply := Ok(Message("Server deleted successfully"));
  }

  /** A row as `getServers` lists it: the credential column is '***' when set and null otherwise. */
  function MaskForList(row: Row): (r: Row)
    ensures r.Keys == row.Keys + {"encrypted_credentials"}
    ensures r["encrypted_credentials"] == Str("***") || r["encrypted_credentials"] == Null
    ensures r["encrypted_credentials"] == Str("***") <==>
      "encrypted_credentials" in row && Truthy(row["encrypted_credentials"])
    ensures forall c :: c in row && c != "encrypted_credentials" ==> r[c] == row[c]
  {
    var present := "encrypted_credentials" in row && Truthy(row["encrypted_credentials"]);
    row["encrypted_credentials" := if present then Str("***") else Null]
  }

  /** Listing an already listed row shows the same row. */
  lemma MaskForListIdempotent(row: Row)
    ensures MaskForList(MaskForList(row)) == MaskForList(row)
  {
  }

  /** `getServers`: every server, keyed by name, with its credentials masked. */
  function SafeServers(servers: map<Json, Row>): (r: map<Json, Row>)
    ensures r.Keys == servers.Keys
    ensures forall k :: k in r ==>
      "encrypted_credentials" in r[k] && (r[k]["encrypted_credentials"] == Str("***") || r[k]["encrypted_credentials"] == Null)
  {
    map k | k in servers :: MaskForList(servers[k])
  }

  /** A row as `getServer` answers it: set credentials become '***', a falsy value is left as it is. */
  function MaskForDetail(row: Row): (r: Row)
    ensures r.Keys == row.Keys
    ensures "encrypted_credentials" in r ==>
      r["encrypted_credentials"] == Str("***") || !Truthy(r["encrypted_credentials"])
    ensures "encrypted_credentials" in r ==>
      (r["encrypted_credentials"] == Str("***") <==> Truthy(row["encrypted_credentials"]))
    ensures forall c :: c in row && c != "encrypted_credentials" ==> r[c] == row[c]
  {
    if "encrypted_credentials" in row && Truthy(row["encrypted_credentials"])
    then row["encrypted_credentials" := Str("***")]
    else row
  }

  /** Both masks agree on whether credentials are set. */
  lemma MasksAgree(row: Row)
    ensures Truthy(MaskForList(row)["encrypted_credentials"]) <==>
      "encrypted_credentials" in MaskForDetail(row) && Truthy(MaskForDetail(row)["encrypted_credentials"])
    ensures MaskForDetail(MaskForDetail(row)) == MaskForDetail(row)
  {
  }

  /** `getServer` for `/api/servers/<serverName>`: `None` is the 404 'Server not found'. */
  function GetServerApi(servers: map<Json, Row>, serverName: Json): (r: Option<Row>)
    ensures r.None? <==> serverName !in servers
    ensures r.Some? ==> r.value == MaskForDetail(servers[serverName])
  {
    if serverName in servers then Some(MaskForDetail(servers[serverName])) else None
  }

  // ------------------------------------------------------------ setConfig

  /** The type `setConfig` declares from `typeof value`. */
  function InferConfigType(value: Json): (t: string)
    ensures t == "number" <==> value.Num?
    ensures t == "boolean" <==> value.Bool?
    ensures t == "json" <==> value.Null? || value.Arr? || value.Obj?
    ensures t == "string" <==> value.Str? || value.Undefined?
  {
    var ty := TypeOf(value);
    if ty == "number" then "number"
    else if ty == "boolean" then "boolean"
    else if ty == "object" then "json"
    else "string"
  }

  /** What stored value `getConfig` reads back for a value written with its inferred type. */
  function StoredRead(value: Json, stringify: Json -> string): ConfigRead {
    var t := InferConfigType(value);
    ConvertConfig(EncodeConfig(value, t, stringify), t)
  }

  /** A string or boolean reads back as itself, a number as `parseFloat` of its text, anything else as parsed JSON. */
  lemma StoredReadBack(value: Json, stringify: Json -> string)
    ensures value.Str? || value.Bool? ==> StoredRead(value, stringify) == Value(value)
    ensures value.Num? ==> StoredRead(value, stringify) == ParsedFloat(Text.IntToString(value.n))
    ensures value.Null? || value.Arr? || value.Obj? ==> StoredRead(value, stringify) == ParsedJson(stringify(value))
  {
  }

  /** `system_config` after `setConfig` wrote the entries in order. */
  function ConfigAfter(rows: seq<ConfigEntry>, entries: seq<(string, Json)>, stringify: Json -> string): seq<ConfigEntry> {
    if |entries| == 0 then rows
    else
      var (key, value) := entries[|entries| - 1];
      var t := InferConfigType(value);
      SetConfigRows(ConfigAfter(rows, entries[..|entries| - 1], stringify), key, EncodeConfig(value, t, stringify), t)
  }

  /** After the writes, a written key reads back its last written value and any other key is as before. */
  lemma {:induction false} ConfigAfterRead(rows: seq<ConfigEntry>, entries: seq<(string, Json)>, stringify: Json -> string, k: string)
    ensures ReadConfig(ConfigAfter(rows, entries, stringify), k) ==
      if Has(Obj(entries), k) then StoredRead(Get(Obj(entries), k), stringify) else ReadConfig(rows, k)
  {
    if |entries| > 0 {
      var init := entries[..|entries| - 1];
      var (key, value) := entries[|entries| - 1];
      var t := InferConfigType(value);
      ConfigAfterRead(rows, init, stringify, k);
      GetLast(entries, k);
      if key == k {
        ReadAfterSetConfig(ConfigAfter(rows, init, stringify), key, EncodeConfig(value, t, stringify), t);
      } else {
        SetConfigOtherKey(ConfigAfter(rows, init, stringify), key, EncodeConfig(value, t, stringify), t, k);
      }
    }
  }

  lemma ConfigAfterPrefix(rows: seq<ConfigEntry>, entries: seq<(string, Json)>, stringify: Json -> string, i: nat)
    requires i < |entries|
    ensures ConfigAfter(rows, entries[..i + 1], stringify) ==
      var t := InferConfigType(entries[i].1);
      SetConfigRows(ConfigAfter(rows, entries[..i], stringify), entries[i].0, EncodeConfig(entries[i].1, t, stringify), t)
  {
    assert entries[..i + 1][..i] == entries[..i];
  }

  /**
   * `setConfig`: authentication first, then each entry of the body with
   * the type its value suggests. Authentication is the corrected
   * `ValidateAuth`, given the configured password; the source passes no
   * password here, which `ValidateAuthAsWritten` models.
   */
  method SetConfigApi(db: Database, authHeader: string, adminPassword: Json, tokenCheck: WorkerHelpers.AuthResult,
                      atob: string -> Option<string>, body: Option<Json>, stringify: Json -> string)
    returns (reply: Reply)
    requires db.Valid()
    modifies db
    ensures db.Valid()
    ensures WorkerHelpers.ValidateAuth(authHeader, adminPassword, tokenCheck, atob).Denied? ==>
      reply == Error(401, "Unauthorized") && db.config == old(db.config)
    ensures WorkerHelpers.ValidateAuth(authHeader, adminPassword, tokenCheck, atob).Authorized? ==>
      && (body.None? ==> reply == Thrown && db.config == old(db.config))
      && (body.Some? && IsNullish(body.value) ==> reply == Error(500, "Failed to set config") && db.config == old(db.config))
      && (body.Some? && !IsNullish(body.value) ==>
            reply == Ok(Message("Configuration updated successfully"))
            && db.config == ConfigAfter(old(db.config), Entries(body.value).value, stringify))
    ensures db.servers == old(db.servers) && db.monitorData == old(db.monitorData)
    ensures db.connectivityTests == old(db.connectivityTests) && db.operationLogs == old(db.operationLogs)
  {
    if WorkerHelpers.ValidateAuth(authHeader, adminPassword, tokenCheck, atob).Denied? {
      return Error(401, "Unauthorized");
    }
    if body.None? {
      return Thrown;
    }
    var configData := body.value;
    if IsNullish(configData) {
      return Error(500, "Failed to set config");
    }
    var entries := Entries(configData).value;
    var i := 0;
    while i < |entries|
      invariant 0 <= i <= |entries|
      invariant db.Valid()
      invariant db.config == ConfigAfter(old(db.config), entries[..i], stringify)
      invariant db.servers == old(db.servers) && db.monitorData == old(db.monitorData)
      invariant db.connectivityTests == old(db.connectivityTests) && db.operationLogs == old(db.operationLogs)
    {
      var (key, value) := entries[i];
      var t := InferConfigType(value);
      db.SetConfig(key, value, t, stringify);
      ConfigAfterPrefix(old(db.config), entries, stringify, i);
      i := i + 1;
    }
    assert entries[..i] == entries;
    reply := Ok(Message("Configuration updated successfully"));
  }

  /** For an object body, every key sent reads back as sent and every other key is untouched. */
  lemma SetConfigBodyReads(rows: seq<ConfigEntry>, props: seq<(string, Json)>, stringify: Json -> string, k: string)
    ensures ReadConfig(ConfigAfter(rows, Entries(Obj(props)).value, stringify), k) ==
      if Has(Obj(props), k) then StoredRead(Get(Obj(props), k), stringify) else ReadConfig(rows, k)
  {
    ConfigAfterRead(rows, OwnProps(props), stringify, k);
    OwnPropsReads(props, k);
  }

  // ------------------------------------------------------------ getConfig

  /** What `getConfig` answers: one key, every stored key, or the 500 of a throw. */
  datatype ConfigReply =
    | OneConfig(key: string, value: ConfigRead)
    | AllConfig(values: map<string, ConfigRead>)
    | ConfigFailed  // 'Failed to get config', status 500

  /** `configObj` after the loop over the rows: each key to its converted value. */
  function ConfigObject(rows: seq<ConfigEntry>): map<string, ConfigRead> {
    if |rows| == 0 then map[]
    else
      var last := rows[|rows| - 1];
      ConfigObject(rows[..|rows| - 1])[last.key := ConvertConfig(last.value, last.configType)]
  }

  /** The object of all values agrees with reading each key on its own. */
  lemma {:induction false} ConfigObjectReads(rows: seq<ConfigEntry>, k: string)
    ensures k in ConfigObject(rows) <==> ReadConfig(rows, k) != Missing
    ensures k in ConfigObject(rows) ==> ConfigObject(rows)[k] == ReadConfig(rows, k)
  {
    if |rows| > 0 {
      ConfigObjectReads(rows[..|rows| - 1], k);
    }
  }

  /**
   * `getConfig` with the `key` query parameter (`None` when absent); an
   * empty key asks for everything. `parses` tells which texts `JSON.parse`
   * accepts; a 'json' row it rejects throws, and the handler answers 500.
   */
  method GetConfigApi(db: Database, key: Option<string>, parses: string -> bool) returns (reply: ConfigReply)
    ensures key.Some? && key.value != "" ==>
      reply == match db.GetConfig(key.value, parses)
               case None => ConfigFailed
               case Some(v) => OneConfig(key.value, v)
    ensures key.None? || key.value == "" ==>
      reply == if exists j :: 0 <= j < |db.config| && ReadThrows(ConvertConfig(db.config[j].value, db.config[j].configType), parses)
               then ConfigFailed
               else AllConfig(ConfigObject(db.config))
  {
    if key.Some? && key.value != "" {
      var read := db.GetConfig(key.value, parses);
      if read.None? {
        return ConfigFailed;
      }
      return OneConfig(key.value, read.value);
    }
    var rows := db.config;
    var configObj: map<string, ConfigRead> := map[];
    var i := 0;
    while i < |rows|
      invariant 0 <= i <= |rows|
      invariant configObj == ConfigObject(rows[..i])
      invariant forall j :: 0 <= j < i ==> !ReadThrows(ConvertConfig(rows[j].value, rows[j].configType), parses)
    {
      var row := rows[i];
      assert rows[..i + 1][..i] == rows[..i];
      var value := ConvertConfig(row.value, row.configType);
      if ReadThrows(value, parses) {
        return ConfigFailed;
      }
      configObj := configObj[row.key := value];
      i := i + 1;
    }
    assert rows[..i] == rows;
    reply := AllConfig(configObj);
  }
}
