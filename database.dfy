/**
 * The D1 access layer of the Worker (workers/src/utils/database.js): the
 * `servers` table as a map from name to row, the three time-series tables
 * `monitor_data`, `connectivity_tests` and `operation_logs` as sequences
 * of rows in insertion order, and `system_config` as its rows in
 * insertion order. `CURRENT_TIMESTAMP` is the `now` argument, in seconds.
 */
module Db {
  import opened Wrappers
  import opened JsValue
  import Text

  /** One row of `servers`: column name to value; SQL NULL is `Null`. */
  type Row = map<string, Json>

  /** A row of a time-series table and its `timestamp` column. */
  datatype TimedRow = TimedRow(fields: map<string, Json>, timestamp: int)

  /** A row of `system_config`: the text stored and its declared type. */
  datatype ConfigEntry = ConfigEntry(key: string, value: string, configType: string)

  /** What reading a configuration value yields. */
  datatype ConfigRead =
    | Missing                  // no row: `null`
    | Value(v: Json)           // a string or a boolean
    | ParsedFloat(text: string) // `parseFloat(text)`
    | ParsedJson(text: string)  // `JSON.parse(text)`

  /** The outcome of a statement. */
  datatype Outcome = Done | Skipped | Failed(message: string)

  /** The columns of `servers` that the code writes or reads. */
  const ServerColumns: set<string> := {
    "id", "name", "due_time", "buy_url", "seller", "price", "ip_address", "port",
    "encrypted_credentials", "monitor_method", "monitor_interval", "location", "region",
    "status", "last_seen", "last_agent_seen", "last_ssh_check", "updated_at"
  }

  /** The columns `upsertServer` takes from its argument. */
  const UpsertedColumns: set<string> := {
    "due_time", "buy_url", "seller", "price", "ip_address", "port",
    "encrypted_credentials", "monitor_method", "monitor_interval", "location", "region"
  }

  /** The fields `saveConnectivityTest` stores. */
  const ConnectivityFields: seq<string> := [
    "server_name", "test_type", "test_target", "test_port", "test_node", "test_region",
    "status", "latency", "packet_loss", "response_code", "error_message", "test_duration"
  ]

  // ---------------------------------------------------------- upsertServer

  /**
   * The properties of the argument of `upsertServer` that its
   * destructuring reads; an absent property is undefined.
   */
  datatype ServerInput = ServerInput(
    name: Json, description: Json, region: Json, expiryDate: Json, dueTime: Json,
    purchaseUrl: Json, buyUrl: Json, seller: Json, price: Json, ipAddress: Json, port: Json,
    encryptedCredentials: Json, monitorMethod: Json, monitorInterval: Json, location: Json)

  /** The value `upsertServer` binds for column `c`, after its `||` default; never undefined. */
  function BoundValue(data: ServerInput, c: string): (v: Json)
    ensures v != Undefined
  {
    if c == "region" then Or(Or(data.description, data.region), Str(""))
    else if c == "due_time" then Or(Or(data.expiryDate, data.dueTime), Null)
    else if c == "buy_url" then Or(Or(data.purchaseUrl, data.buyUrl), Null)
    else if c == "port" then Or(data.port, Num(22))
    else if c == "monitor_method" then Or(data.monitorMethod, Str("both"))
    else if c == "monitor_interval" then Or(data.monitorInterval, Num(300))
    else if c == "seller" then Or(data.seller, Null)
    else if c == "price" then Or(data.price, Null)
    else if c == "ip_address" then Or(data.ipAddress, Null)
    else if c == "encrypted_credentials" then Or(data.encryptedCredentials, Null)
    else if c == "location" then Or(data.location, Null)
    else Null
  }

  /** The row of values `upsertServer` binds. */
  function UpsertValues(data: ServerInput): (r: Row)
    ensures r.Keys == UpsertedColumns
  {
    map c | c in UpsertedColumns :: BoundValue(data, c)
  }

  /**
   * The row after `INSERT ... ON CONFLICT(name) DO UPDATE`: a new row holds
   * the name and the bound values (other columns take the schema's
   * defaults, absent here); an existing row has exactly the listed columns
   * and `updated_at` overwritten.
   */
  function UpsertRow(existing: Option<Row>, data: ServerInput, now: int): Row {
    var base := match existing
      case Some(r) => r
      case None => map["name" := data.name];
    base + UpsertValues(data) + map["updated_at" := Num(now)]
  }

  /** A listed column of the upserted row holds the value bound for it. */
  lemma UpsertRowColumn(existing: Option<Row>, data: ServerInput, now: int, c: string)
    requires c in UpsertedColumns
    ensures c in UpsertRow(existing, data, now) && UpsertRow(existing, data, now)[c] == BoundValue(data, c)
  {
    var base := match existing
      case Some(r) => r
      case None => map["name" := data.name];
    var values := UpsertValues(data);
    var stamp := map["updated_at" := Num(now)];
    assert UpsertRow(existing, data, now) == base + values + stamp;
    StampAndNameNotBound();
    assert c in values && values[c] == BoundValue(data, c) && c !in stamp;
  }

  /** The upserted row is stamped with `now`, and a new row carries the name. */
  lemma UpsertRowStamp(existing: Option<Row>, data: ServerInput, now: int)
    ensures "updated_at" in UpsertRow(existing, data, now) && UpsertRow(existing, data, now)["updated_at"] == Num(now)
    ensures existing.None? ==> "name" in UpsertRow(existing, data, now) && UpsertRow(existing, data, now)["name"] == data.name
  {
    var base := match existing
      case Some(r) => r
      case None => map["name" := data.name];
    var values := UpsertValues(data);
    var stamp := map["updated_at" := Num(now)];
    assert UpsertRow(existing, data, now) == base + values + stamp;
    StampAndNameNotBound();
    assert "name" !in values && "name" !in stamp;
  }

  /** Neither the key nor the stamp is among the bound columns. */
  lemma StampAndNameNotBound()
    ensures "name" !in UpsertedColumns && "updated_at" !in UpsertedColumns
  {
  }

  /** `a || b || c` picks the first truthy operand, else the last. */
  lemma OrChain(a: Json, b: Json, c: Json)
    ensures Or(Or(a, b), c) == (if Truthy(a) then a else if Truthy(b) then b else c)
  {
  }

  /** The documented defaults of `upsertServer`. */
  lemma UpsertDefaults(data: ServerInput)
    ensures var v := UpsertValues(data);
      && v["region"] == (if Truthy(data.description) then data.description
                         else if Truthy(data.region) then data.region else Str(""))
      && v["due_time"] == (if Truthy(data.expiryDate) then data.expiryDate
                           else if Truthy(data.dueTime) then data.dueTime else Null)
      && v["buy_url"] == (if Truthy(data.purchaseUrl) then data.purchaseUrl
                          else if Truthy(data.buyUrl) then data.buyUrl else Null)
      && (!Truthy(data.port) ==> v["port"] == Num(22))
      && (!Truthy(data.monitorMethod) ==> v["monitor_method"] == Str("both"))
      && (!Truthy(data.monitorInterval) ==> v["monitor_interval"] == Num(300))
  {
    OrChain(data.description, data.region, Str(""));
    OrChain(data.expiryDate, data.dueTime, Null);
    OrChain(data.purchaseUrl, data.buyUrl, Null);
  }

  /** On conflict, a column outside the listed ones keeps its value (status, last_seen, ...). */
  lemma UpsertKeepsOtherColumns(existing: Row, data: ServerInput, now: int, c: string)
    requires c in existing && c !in UpsertedColumns && c != "updated_at"
    ensures c in UpsertRow(Some(existing), data, now) && UpsertRow(Some(existing), data, now)[c] == existing[c]
  {
  }

  /** Upserting the same record again changes nothing but `updated_at`. */
  lemma UpsertIdempotent(existing: Option<Row>, data: ServerInput, t1: int, t2: int)
    ensures UpsertRow(Some(UpsertRow(existing, data, t1)), data, t2) == UpsertRow(existing, data, t2)
  {
    var base := match existing
      case Some(r) => r
      case None => map["name" := data.name];
    var values := UpsertValues(data);
    assert UpsertRow(existing, data, t1) == base + values + map["updated_at" := Num(t1)];
    OverrideTwice(base, values, map["updated_at" := Num(t1)], map["updated_at" := Num(t2)]);
  }

  /** Overriding with the same values again, then a stamp, forgets the first stamp. */
  lemma OverrideTwice(base: Row, values: Row, stamp1: Row, stamp2: Row)
    requires stamp1.Keys == stamp2.Keys
    ensures base + values + stamp1 + values + stamp2 == base + values + stamp2
  {
    var twice := base + values + stamp1 + values + stamp2;
    var direct := base + values + stamp2;
    assert twice.Keys == direct.Keys;
    forall c | c in twice.Keys ensures twice[c] == direct[c] {
    }
  }

  // ---------------------------------------------------------- updateServer

  /** `fieldMapping[key] || key`. */
  function ColumnFor(key: string): string {
    if key == "description" then "region"
    else if key == "expiry_date" then "due_time"
    else if key == "purchase_url" then "buy_url"
    else key
  }

  /** The `column = ?` assignments in entry order; `name` is skipped. */
  function Assignments(entries: seq<(string, Json)>): seq<(string, Json)> {
    if |entries| == 0 then []
    else
      var last := entries[|entries| - 1];
      Assignments(entries[..|entries| - 1])
        + (if last.0 == "name" then [] else [(ColumnFor(last.0), last.1)])
  }

  /** An assignment comes from exactly one non-`name` entry, under its renamed column. */
  lemma {:induction false} AssignmentsFromEntries(entries: seq<(string, Json)>, c: string, v: Json)
    ensures (c, v) in Assignments(entries)
        <==> exists k :: (k, v) in entries && k != "name" && ColumnFor(k) == c
  {
    if |entries| > 0 {
      var init := entries[..|entries| - 1];
      var last := entries[|entries| - 1];
      AssignmentsFromEntries(init, c, v);
      assert entries == init + [last];
      if (c, v) in Assignments(entries) && (c, v) !in Assignments(init) {
        assert last.0 != "name" && (ColumnFor(last.0), last.1) == (c, v);
        assert last in entries;
      }
      if exists k :: (k, v) in entries && k != "name" && ColumnFor(k) == c {
        var k :| (k, v) in entries && k != "name" && ColumnFor(k) == c;
        if (k, v) !in init {
          assert (k, v) == last;
        }
      }
    }
  }

  /** `name` is never assigned. */
  lemma {:induction false} AssignmentsSkipName(entries: seq<(string, Json)>)
    ensures forall a :: a in Assignments(entries) ==> a.0 != "name"
  {
    if |entries| > 0 {
      AssignmentsSkipName(entries[..|entries| - 1]);
    }
  }

  /** The row after `SET c1 = ?, c2 = ?, ...`: the rightmost assignment of a column wins. */
  function ApplyAssignments(row: Row, assigns: seq<(string, Json)>): (r: Row)
    ensures r.Keys == row.Keys + set a | a in assigns :: a.0
  {
    if |assigns| == 0 then row
    else
      var last := assigns[|assigns| - 1];
      ApplyAssignments(row, assigns[..|assigns| - 1])[last.0 := last.1]
  }

  /** The value the last assignment of column `c` gives. */
  function LastAssigned(assigns: seq<(string, Json)>, c: string): Option<Json> {
    if |assigns| == 0 then None
    else if assigns[|assigns| - 1].0 == c then Some(assigns[|assigns| - 1].1)
    else LastAssigned(assigns[..|assigns| - 1], c)
  }

  /** Each column holds its last assigned value, or the old one when not assigned. */
  lemma {:induction false} ApplyAssignmentsValue(row: Row, assigns: seq<(string, Json)>, c: string)
    ensures LastAssigned(assigns, c).Some? ==>
      c in ApplyAssignments(row, assigns) && ApplyAssignments(row, assigns)[c] == LastAssigned(assigns, c).value
    ensures LastAssigned(assigns, c).None? && c in row ==>
      c in ApplyAssignments(row, assigns) && ApplyAssignments(row, assigns)[c] == row[c]
  {
    if |assigns| > 0 {
      ApplyAssignmentsValue(row, assigns[..|assigns| - 1], c);
    }
  }

  /** The row after a non-empty partial update. */
  function UpdatedRow(row: Row, assigns: seq<(string, Json)>, now: int): Row {
    ApplyAssignments(row, assigns)["updated_at" := Num(now)]
  }

  /**
   * The assignments as SQLite reads the `SET` list: a column name is
   * matched ignoring ASCII case, so `NAME` and `Status` are the columns
   * `name` and `status`.
   */
  function Resolved(assigns: seq<(string, Json)>): (r: seq<(string, Json)>)
    ensures |r| == |assigns|
    ensures forall i :: 0 <= i < |r| ==> r[i] == (Text.ToLower(assigns[i].0), assigns[i].1)
  {
    if |assigns| == 0 then []
    else
      var last := assigns[|assigns| - 1];
      Resolved(assigns[..|assigns| - 1]) + [(Text.ToLower(last.0), last.1)]
  }

  /** Every assigned field names a column of `servers` (the statement is not refused). */
  predicate AllResolve(assigns: seq<(string, Json)>) {
    forall a :: a in assigns ==> Text.ToLower(a.0) in ServerColumns
  }

  /** What the `UPDATE servers SET ... WHERE name = ?` statement does to the table. */
  datatype TableUpdate = TableUpdate(outcome: Outcome, servers: map<Json, Row>)

  /**
   * `updateServer` on the table: no assignment skips the statement; a
   * field that is no column fails it; a row whose `name` column is
   * assigned (through a key such as `NAME`) moves to the new name, and
   * fails the uniqueness of `name` when another row holds it already.
   */
  function UpdateTable(servers: map<Json, Row>, serverName: Json, assigns: seq<(string, Json)>, now: int)
    : TableUpdate
  {
    if |assigns| == 0 then TableUpdate(Skipped, servers)
    else if !AllResolve(assigns) then TableUpdate(Failed("no such column"), servers)
    else if serverName !in servers then TableUpdate(Done, servers)
    else
      var columns := Resolved(assigns);
      var row := UpdatedRow(servers[serverName], columns, now);
      match LastAssigned(columns, "name")
      case None => TableUpdate(Done, servers[serverName := row])
      case Some(newName) =>
        if newName != serverName && newName in servers
        then TableUpdate(Failed("UNIQUE constraint failed: servers.name"), servers)
        else TableUpdate(Done, (servers - {serverName})[newName := row])
  }

  /** The renaming map keeps a lower-case key lower-case. */
  lemma LowerColumnFor(k: string)
    requires Text.ToLower(k) == k
    ensures Text.ToLower(ColumnFor(k)) == ColumnFor(k)
  {
    if k == "description" || k == "expiry_date" || k == "purchase_url" {
      var c := ColumnFor(k);
      assert c == "region" || c == "due_time" || c == "buy_url";
      assert forall i :: 0 <= i < |c| ==> Text.ToLower(c)[i] == c[i];
    }
  }

  /** With lower-case keys SQLite's case-insensitive lookup resolves every field to itself. */
  lemma {:induction false} ResolvedLowerKeys(entries: seq<(string, Json)>)
    requires forall e :: e in entries ==> Text.ToLower(e.0) == e.0
    ensures Resolved(Assignments(entries)) == Assignments(entries)
  {
    if |entries| > 0 {
      var init := entries[..|entries| - 1];
      var last := entries[|entries| - 1];
      assert forall e :: e in init ==> e in entries;
      ResolvedLowerKeys(init);
      var prev := Assignments(init);
      if last.0 != "name" {
        var a := (ColumnFor(last.0), last.1);
        assert last in entries;
        LowerColumnFor(last.0);
        assert Assignments(entries) == prev + [a];
        assert (prev + [a])[..|prev|] == prev;
      }
    }
  }

  /** A column no assignment names has no last assigned value. */
  lemma {:induction false} LastAssignedAbsent(assigns: seq<(string, Json)>, c: string)
    requires forall a :: a in assigns ==> a.0 != c
    ensures LastAssigned(assigns, c).None?
  {
    if |assigns| > 0 {
      assert forall a :: a in assigns[..|assigns| - 1] ==> a in assigns;
      LastAssignedAbsent(assigns[..|assigns| - 1], c);
    }
  }

  /**
   * With lower-case keys that all name columns, the row keeps its name and
   * only its assigned columns and `updated_at` change.
   */
  lemma UpdateTableInPlace(servers: map<Json, Row>, serverName: Json, entries: seq<(string, Json)>, now: int)
    requires forall e :: e in entries ==> Text.ToLower(e.0) == e.0
    requires |Assignments(entries)| > 0 && AllResolve(Assignments(entries))
    ensures UpdateTable(servers, serverName, Assignments(entries), now)
      == TableUpdate(Done, if serverName in servers
                           then servers[serverName := UpdatedRow(servers[serverName], Assignments(entries), now)]
                           else servers)
  {
    ResolvedLowerKeys(entries);
    AssignmentsSkipName(entries);
    LastAssignedAbsent(Assignments(entries), "name");
  }

  /** A failed or skipped update changes nothing; a done one keeps every other row as it was. */
  lemma UpdateTableOtherRows(servers: map<Json, Row>, serverName: Json, assigns: seq<(string, Json)>, now: int, other: Json)
    requires other in servers && other != serverName
    ensures var u := UpdateTable(servers, serverName, assigns, now);
      && (u.outcome != Done ==> u.servers == servers)
      && other in u.servers && u.servers[other] == servers[other]
  {
    if |assigns| > 0 && AllResolve(assigns) && serverName in servers {
      var columns := Resolved(assigns);
      var row := UpdatedRow(servers[serverName], columns, now);
      match LastAssigned(columns, "name")
      case None =>
        assert UpdateTable(servers, serverName, assigns, now).servers == servers[serverName := row];
      case Some(newName) =>
        if !(newName != serverName && newName in servers) {
          var moved := (servers - {serverName})[newName := row];
          assert UpdateTable(servers, serverName, assigns, now).servers == moved;
          assert newName != other;
          assert moved[other] == servers[other];
        }
    }
  }

  /**
   * The `key === 'name'` skip compares exactly: a body `{NAME: b}` assigns
   * the `name` column, and the row `a` moves to `b`.
   */
  lemma CaseVariantNameRenames(servers: map<Json, Row>, a: Json, b: Json, now: int)
    requires a in servers && b !in servers
    ensures var u := UpdateTable(servers, a, Assignments([("NAME", b)]), now);
      && u.outcome == Done && a !in u.servers && b in u.servers
      && "name" in u.servers[b] && u.servers[b]["name"] == b
      && u.servers.Keys == servers.Keys - {a} + {b}
  {
    var assigns := Assignments([("NAME", b)]);
    assert assigns == Assignments([]) + [(ColumnFor("NAME"), b)];
    assert assigns == [("NAME", b)];
    assert Text.ToLower("NAME") == "name";
    var columns := Resolved(assigns);
    assert columns == [("name", b)];
    assert LastAssigned(columns, "name") == Some(b);
    ApplyAssignmentsValue(servers[a], columns, "name");
  }

  // -------------------------------------------------------- config codec

  /** The text `setConfig` stores: `JSON.stringify(value)` for 'json', `String(value)` otherwise. */
  function EncodeConfig(value: Json, configType: string, stringify: Json -> string): string {
    if configType == "json" then stringify(value) else ToJsString(value)
  }

  /** The conversion `getConfig` applies to a stored row. */
  function ConvertConfig(text: string, configType: string): (r: ConfigRead)
    ensures r != Missing
  {
    if configType == "number" then ParsedFloat(text)
    else if configType == "boolean" then Value(Bool(text == "true"))
    else if configType == "json" then ParsedJson(text)
    else Value(Str(text))
  }

  /** Position of the row with this key. */
  function FindConfig(rows: seq<ConfigEntry>, key: string): (r: Option<nat>)
    ensures r.Some? ==> r.value < |rows| && rows[r.value].key == key
    ensures r.Some? ==> forall j :: r.value < j < |rows| ==> rows[j].key != key
    ensures r.None? ==> forall j :: 0 <= j < |rows| ==> rows[j].key != key
  {
    if |rows| == 0 then None
    else if rows[|rows| - 1].key == key then Some(|rows| - 1)
    else FindConfig(rows[..|rows| - 1], key)
  }

  /** `system_config` after the upsert on `config_key`: a row in place, or a new last row. */
  function SetConfigRows(rows: seq<ConfigEntry>, key: string, text: string, configType: string)
    : (r: seq<ConfigEntry>)
    ensures FindConfig(rows, key).None? ==> r == rows + [ConfigEntry(key, text, configType)]
    ensures FindConfig(rows, key).Some? ==> |r| == |rows|
  {
    match FindConfig(rows, key)
    case Some(i) => rows[i := ConfigEntry(key, text, configType)]
    case None => rows + [ConfigEntry(key, text, configType)]
  }

  /**
   * Whether converting a row throws: `ParsedJson(text)` stands for the call
   * `JSON.parse(text)`, which throws when `parses` rejects the text; the
   * other conversions never throw.
   */
  predicate ReadThrows(r: ConfigRead, parses: string -> bool) {
    r.ParsedJson? && !parses(r.text)
  }

  /** Only a 'json' row can throw, and only on a text `JSON.parse` rejects. */
  lemma ReadThrowsOnlyJson(text: string, configType: string, parses: string -> bool)
    ensures ReadThrows(ConvertConfig(text, configType), parses) <==> configType == "json" && !parses(text)
  {
  }

  /** `getConfig(key)` on these rows, before `JSON.parse` runs. */
  function ReadConfig(rows: seq<ConfigEntry>, key: string): ConfigRead {
    match FindConfig(rows, key)
    case Some(i) => ConvertConfig(rows[i].value, rows[i].configType)
    case None => Missing
  }

  /** After writing `key`, reading it sees the text and type just written. */
  lemma ReadAfterSetConfig(rows: seq<ConfigEntry>, key: string, text: string, configType: string)
    ensures ReadConfig(SetConfigRows(rows, key, text, configType), key) == ConvertConfig(text, configType)
  {
    var r := SetConfigRows(rows, key, text, configType);
    match FindConfig(rows, key)
    case Some(i) =>
      assert r[i].key == key;
      assert forall j :: i < j < |r| ==> r[j].key != key;
      FindConfigLast(r, key, i);
    case None =>
      FindConfigLast(r, key, |rows|);
  }

  lemma {:induction false} FindConfigLast(rows: seq<ConfigEntry>, key: string, i: nat)
    requires i < |rows| && rows[i].key == key
    requires forall j :: i < j < |rows| ==> rows[j].key != key
    ensures FindConfig(rows, key) == Some(i)
  {
    if i < |rows| - 1 {
      FindConfigLast(rows[..|rows| - 1], key, i);
    }
  }

  /** Writing one key leaves every other key as it read before. */
  lemma SetConfigOtherKey(rows: seq<ConfigEntry>, key: string, text: string, configType: string, other: string)
    requires other != key
    ensures ReadConfig(SetConfigRows(rows, key, text, configType), other) == ReadConfig(rows, other)
  {
    var r := SetConfigRows(rows, key, text, configType);
    match FindConfig(rows, other)
    case Some(i) =>
      FindConfigLast(r, other, i);
    case None =>
      assert forall j :: 0 <= j < |r| ==> r[j].key != other;
      FindConfigNone(r, other);
  }

  lemma {:induction false} FindConfigNone(rows: seq<ConfigEntry>, key: string)
    requires forall j :: 0 <= j < |rows| ==> rows[j].key != key
    ensures FindConfig(rows, key) == None
  {
    if |rows| > 0 {
      FindConfigNone(rows[..|rows| - 1], key);
    }
  }

  /** A string written with type 'string' reads back as the same string. */
  lemma ConfigStringRoundTrip(rows: seq<ConfigEntry>, key: string, s: string, stringify: Json -> string)
    ensures ReadConfig(SetConfigRows(rows, key, EncodeConfig(Str(s), "string", stringify), "string"), key)
      == Value(Str(s))
  {
    assert EncodeConfig(Str(s), "string", stringify) == s;
    ReadAfterSetConfig(rows, key, s, "string");
    assert ConvertConfig(s, "string") == Value(Str(s));
  }

  /** A boolean written with type 'boolean' reads back as the same boolean. */
  lemma ConfigBooleanRoundTrip(rows: seq<ConfigEntry>, key: string, b: bool, stringify: Json -> string)
    ensures ReadConfig(SetConfigRows(rows, key, EncodeConfig(Bool(b), "boolean", stringify), "boolean"), key)
      == Value(Bool(b))
  {
    ReadAfterSetConfig(rows, key, if b then "true" else "false", "boolean");
  }

  /** A number written with type 'number' is read back by `parseFloat` of its decimal text. */
  lemma ConfigNumberRoundTrip(rows: seq<ConfigEntry>, key: string, n: int, stringify: Json -> string)
    ensures ReadConfig(SetConfigRows(rows, key, EncodeConfig(Num(n), "number", stringify), "number"), key)
      == ParsedFloat(Text.IntToString(n))
  {
    ReadAfterSetConfig(rows, key, Text.IntToString(n), "number");
  }

  /** A key never written reads as null. */
  lemma ConfigMissingKey(key: string)
    ensures ReadConfig([], key) == Missing
  {
  }

  /** Keys of `system_config` are unique. */
  predicate UniqueKeys(rows: seq<ConfigEntry>) {
    forall i, j :: 0 <= i < j < |rows| ==> rows[i].key != rows[j].key
  }

  // ---------------------------------------------------------- time series

  /** Rows in insertion order carry non-decreasing timestamps. */
  predicate Chronological(rows: seq<TimedRow>) {
    forall i, j :: 0 <= i < j < |rows| ==> rows[i].timestamp <= rows[j].timestamp
  }

  /** A row stamped `now` is no older than the newest row: the clock did not step back. */
  predicate NotBefore(rows: seq<TimedRow>, now: int) {
    |rows| > 0 ==> rows[|rows| - 1].timestamp <= now
  }

  /** Appending a row no older than the newest keeps a table chronological. */
  lemma AppendChronological(rows: seq<TimedRow>, row: TimedRow)
    ensures Chronological(rows) && NotBefore(rows, row.timestamp) ==> Chronological(rows + [row])
  {
    if Chronological(rows) && NotBefore(rows, row.timestamp) {
      var all := rows + [row];
      forall i, j | 0 <= i < j < |all|
        ensures all[i].timestamp <= all[j].timestamp
      {
        if j == |rows| {
          assert all[i].timestamp <= rows[|rows| - 1].timestamp;
        }
      }
    }
  }

  /** The rows not older than `cutoff`, in their order. */
  function KeepSince(rows: seq<TimedRow>, cutoff: int): seq<TimedRow> {
    if |rows| == 0 then []
    else
      var init := KeepSince(rows[..|rows| - 1], cutoff);
      var last := rows[|rows| - 1];
      if last.timestamp >= cutoff then init + [last] else init
  }

  /** Pruning keeps exactly the rows not older than the cutoff. */
  lemma {:induction false} KeepSinceContents(rows: seq<TimedRow>, cutoff: int)
    ensures forall x :: x in KeepSince(rows, cutoff) <==> x in rows && x.timestamp >= cutoff
    ensures |KeepSince(rows, cutoff)| <= |rows|
  {
    if |rows| > 0 {
      var prefix := rows[..|rows| - 1];
      KeepSinceContents(prefix, cutoff);
      assert rows == prefix + [rows[|rows| - 1]];
    }
  }

  /** Pruning keeps the table in timestamp order. */
  lemma {:induction false} KeepSinceChronological(rows: seq<TimedRow>, cutoff: int)
    requires Chronological(rows)
    ensures Chronological(KeepSince(rows, cutoff))
  {
    if |rows| > 0 {
      var prefix := rows[..|rows| - 1];
      var last := rows[|rows| - 1];
      KeepSinceChronological(prefix, cutoff);
      var init := KeepSince(prefix, cutoff);
      KeepSinceContents(prefix, cutoff);
      forall x | x in init ensures x.timestamp <= last.timestamp {
        var i :| 0 <= i < |prefix| && prefix[i] == x;
      }
      if last.timestamp >= cutoff {
        var r := init + [last];
        forall i, j | 0 <= i < j < |r| ensures r[i].timestamp <= r[j].timestamp {
          if j == |r| - 1 {
            assert r[i] in init;
          }
        }
      }
    }
  }

  /** Rows of `monitor_data` for this server name, or all rows when the name is falsy. */
  function ForServer(rows: seq<TimedRow>, serverName: Json): (r: seq<TimedRow>)
    ensures forall x :: x in r ==> x in rows
    ensures Truthy(serverName) ==> forall x :: x in r ==> "server_name" in x.fields && x.fields["server_name"] == serverName
    ensures !Truthy(serverName) ==> r == rows
  {
    if !Truthy(serverName) || |rows| == 0 then rows
    else
      var init := ForServer(rows[..|rows| - 1], serverName);
      var last := rows[|rows| - 1];
      assert forall x :: x in rows[..|rows| - 1] ==> x in rows;
      if "server_name" in last.fields && last.fields["server_name"] == serverName then init + [last] else init
  }

  /** The column `updateServerStatus` stamps besides `last_seen`. */
  function SourceColumn(dataSource: Json): string {
    if dataSource == Undefined || dataSource == Str("agent") then "last_agent_seen" else "last_ssh_check"
  }

  /** The row after `UPDATE servers SET status = ?, last_seen = ..., <source column> = ...`. */
  function StatusRow(row: Row, status: Json, dataSource: Json, now: int): Row {
    row["status" := status]["last_seen" := Num(now)][SourceColumn(dataSource) := Num(now)]
  }

  /** A status update touches exactly three columns of the row. */
  lemma StatusRowColumns(row: Row, status: Json, dataSource: Json, now: int)
    ensures var r := StatusRow(row, status, dataSource, now);
      && r.Keys == row.Keys + {"status", "last_seen", SourceColumn(dataSource)}
      && r["status"] == status && r["last_seen"] == Num(now) && r[SourceColumn(dataSource)] == Num(now)
      && (forall c :: c in row && c != "status" && c != "last_seen" && c != SourceColumn(dataSource) ==> r[c] == row[c])
      && (SourceColumn(dataSource) == "last_agent_seen" <==> dataSource == Undefined || dataSource == Str("agent"))
  {
  }

  /** The row `saveConnectivityTest` inserts: each field `|| null`. */
  function ConnectivityRow(test: Json): (r: map<string, Json>)
    ensures r.Keys == set f | f in ConnectivityFields
    ensures forall f :: f in r ==> r[f] == (if Truthy(Get(test, f)) then Get(test, f) else Null)
  {
    map f | f in ConnectivityFields :: Or(Get(test, f), Null)
  }

  /** A zero latency, like every falsy field, is stored as null. */
  lemma ZeroLatencyStoredAsNull(test: Json)
    requires Get(test, "latency") == Num(0)
    ensures ConnectivityRow(test)["latency"] == Null
  {
    assert "latency" in ConnectivityFields;
  }

  /** Reading from the end of a chronological table goes from newest to oldest. */
  lemma ReverseChronological(rows: seq<TimedRow>)
    requires Chronological(rows)
    ensures forall i, j :: 0 <= i < j < |rows| ==> Reverse(rows)[i].timestamp >= Reverse(rows)[j].timestamp
  {
  }

  lemma {:induction false} ForServerChronological(rows: seq<TimedRow>, serverName: Json)
    requires Chronological(rows)
    ensures Chronological(ForServer(rows, serverName))
  {
    if Truthy(serverName) && |rows| > 0 {
      var prefix := rows[..|rows| - 1];
      var last := rows[|rows| - 1];
      ForServerChronological(prefix, serverName);
      var init := ForServer(prefix, serverName);
      forall x | x in init ensures x.timestamp <= last.timestamp {
        var i :| 0 <= i < |prefix| && prefix[i] == x;
      }
      var r := ForServer(rows, serverName);
      if r != init {
        forall i, j | 0 <= i < j < |r| ensures r[i].timestamp <= r[j].timestamp {
          if j == |r| - 1 {
            assert r[i] in init;
          }
        }
      }
    }
  }

  /** The answer of `getLatestMonitorData`: a negative limit means no limit. */
  function Latest(rows: seq<TimedRow>, serverName: Json, limit: int): (r: seq<TimedRow>)
    ensures limit >= 0 ==> |r| <= limit
    ensures forall x :: x in r ==> x in rows
    ensures Truthy(serverName) ==> forall x :: x in r ==> "server_name" in x.fields && x.fields["server_name"] == serverName
  {
    var newestFirst := Reverse(ForServer(rows, serverName));
    assert forall x :: x in newestFirst ==> x in ForServer(rows, serverName);
    if limit < 0 || limit >= |newestFirst| then newestFirst else newestFirst[..limit]
  }

  /** On a chronological table, the answer is newest first and nothing newer was left out. */
  lemma LatestNewestFirst(rows: seq<TimedRow>, serverName: Json, limit: int)
    requires Chronological(rows)
    ensures var r := Latest(rows, serverName, limit);
      forall i, j :: 0 <= i < j < |r| ==> r[i].timestamp >= r[j].timestamp
    ensures var r := Latest(rows, serverName, limit); var all := ForServer(rows, serverName);
      |r| == (if limit < 0 || limit >= |all| then |all| else limit)
      && forall i :: 0 <= i < |r| ==> r[i] == all[|all| - 1 - i]
  {
    var all := ForServer(rows, serverName);
    var r := Latest(rows, serverName, limit);
    LatestIsPrefix(rows, serverName, limit);
    ForServerChronological(rows, serverName);
    PrefixNewestFirst(all, r);
  }

  /** The answer is the first `limit` rows of the server's rows reversed, or all of them. */
  lemma LatestIsPrefix(rows: seq<TimedRow>, serverName: Json, limit: int)
    ensures var r := Latest(rows, serverName, limit); var newestFirst := Reverse(ForServer(rows, serverName));
      |r| == (if limit < 0 || limit >= |newestFirst| then |newestFirst| else limit)
      && forall i :: 0 <= i < |r| ==> r[i] == newestFirst[i]
  {
    var newestFirst := Reverse(ForServer(rows, serverName));
    assert Latest(rows, serverName, limit) == if limit < 0 || limit >= |newestFirst| then newestFirst else newestFirst[..limit];
  }

  /** A prefix of the reversal of a chronological table is newest first. */
  lemma PrefixNewestFirst(all: seq<TimedRow>, r: seq<TimedRow>)
    requires Chronological(all) && |r| <= |all|
    requires forall i :: 0 <= i < |r| ==> r[i] == Reverse(all)[i]
    ensures forall i, j :: 0 <= i < j < |r| ==> r[i].timestamp >= r[j].timestamp
  {
    forall i, j | 0 <= i < j < |r| ensures r[i].timestamp >= r[j].timestamp {
      NewestBefore(all, i, j);
    }
  }

  /** In the reversal of a chronological table, an earlier position is never older. */
  lemma NewestBefore(rows: seq<TimedRow>, i: nat, j: nat)
    requires Chronological(rows) && i < j < |rows|
    ensures Reverse(rows)[i].timestamp >= Reverse(rows)[j].timestamp
  {
    assert Reverse(rows)[i] == rows[|rows| - 1 - i] && Reverse(rows)[j] == rows[|rows| - 1 - j];
  }

  function Reverse<T>(s: seq<T>): (r: seq<T>)
    ensures |r| == |s| && forall i :: 0 <= i < |s| ==> r[i] == s[|s| - 1 - i]
  {
    if |s| == 0 then [] else [s[|s| - 1]] + Reverse(s[..|s| - 1])
  }

  class Database {
    var servers: map<Json, Row>
    var monitorData: seq<TimedRow>
    var connectivityTests: seq<TimedRow>
    var operationLogs: seq<TimedRow>
    var config: seq<ConfigEntry>

    /**
     * One row per config key. The time-series tables are not required to be
     * chronological: `CURRENT_TIMESTAMP` is the engine's clock, which may
     * step back; the inserts and the cleanup keep the order when it holds.
     */
    ghost predicate Valid()
      reads this
    {
      UniqueKeys(config)
    }

    constructor ()
      ensures Valid()
      ensures servers == map[] && monitorData == [] && connectivityTests == [] && operationLogs == []
      ensures config == []
    {
      servers := map[];
      monitorData := [];
      connectivityTests := [];
      operationLogs := [];
      config := [];
    }

    /** `upsertServer(serverData)`. */
    method UpsertServer(data: ServerInput, now: int)
      modifies this
      ensures var name := data.name;
        servers == old(servers)[name := UpsertRow(if name in old(servers) then Some(old(servers)[name]) else None, data, now)]
      ensures monitorData == old(monitorData) && connectivityTests == old(connectivityTests)
      ensures operationLogs == old(operationLogs) && config == old(config)
    {
      var name := data.name;
      var existing := if name in servers then Some(servers[name]) else None;
      servers := servers[name := UpsertRow(existing, data, now)];
    }

    /** `updateServer(serverName, updateData)`, `updateData` given as its entries in order. */
    method UpdateServer(serverName: Json, updateData: seq<(string, Json)>, now: int) returns (outcome: Outcome)
      modifies this
      ensures TableUpdate(outcome, servers) == UpdateTable(old(servers), serverName, Assignments(updateData), now)
      ensures monitorData == old(monitorData) && connectivityTests == old(connectivityTests)
      ensures operationLogs == old(operationLogs) && config == old(config)
    {
      var fields: seq<(string, Json)> := [];
      var i := 0;
      while i < |updateData|
        invariant 0 <= i <= |updateData|
        invariant fields == Assignments(updateData[..i])
      {
        var entry := updateData[i];
        assert updateData[..i + 1][..i] == updateData[..i];
        if entry.0 != "name" {
          fields := fields + [(ColumnFor(entry.0), entry.1)];
        }
        i := i + 1;
      }
      assert updateData[..i] == updateData;
      if |fields| == 0 {
        return Skipped;
      }
      if exists a :: a in fields && Text.ToLower(a.0) !in ServerColumns {
        return Failed("no such column");
      }
      if serverName !in servers {
        return Done;
      }
      var columns := Resolved(fields);
      var row := UpdatedRow(servers[serverName], columns, now);
      match LastAssigned(columns, "name")
      case None =>
        servers := servers[serverName := row];
        outcome := Done;
      case Some(newName) =>
        if newName != serverName && newName in servers {
          return Failed("UNIQUE constraint failed: servers.name");
        }
        servers := (servers - {serverName})[newName := row];
        outcome := Done;
    }

    /** `updateServerStatus(name, status, dataSource)`; an unknown name matches no row. */
    method UpdateServerStatus(name: Json, status: Json, dataSource: Json, now: int)
      modifies this
      ensures servers == if name in old(servers)
                         then old(servers)[name := StatusRow(old(servers)[name], status, dataSource, now)]
                         else old(servers)
      ensures monitorData == old(monitorData) && connectivityTests == old(connectivityTests)
      ensures operationLogs == old(operationLogs) && config == old(config)
    {
      if name in servers {
        servers := servers[name := StatusRow(servers[name], status, dataSource, now)];
      }
    }

    /** `deleteServer(name)`. */
    method DeleteServer(name: Json)
      modifies this
      ensures servers == old(servers) - {name}
      ensures monitorData == old(monitorData) && connectivityTests == old(connectivityTests)
      ensures operationLogs == old(operationLogs) && config == old(config)
    {
      servers := servers - {name};
    }

    /** An `INSERT INTO monitor_data` stamped with `CURRENT_TIMESTAMP`. */
    method InsertMonitorData(fields: map<string, Json>, now: int)
      requires Valid()
      modifies this
      ensures Valid()
      ensures monitorData == old(monitorData) + [TimedRow(fields, now)]
      ensures Chronological(old(monitorData)) && NotBefore(old(monitorData), now) ==> Chronological(monitorData)
      ensures servers == old(servers) && connectivityTests == old(connectivityTests)
      ensures operationLogs == old(operationLogs) && config == old(config)
    {
      AppendChronological(monitorData, TimedRow(fields, now));
      monitorData := monitorData + [TimedRow(fields, now)];
    }

    /** `getLatestMonitorData(serverName, limit)`. */
    function GetLatestMonitorData(serverName: Json, limit: int): (rows: seq<TimedRow>)
      reads this
      ensures limit >= 0 ==> |rows| <= limit
      ensures forall x :: x in rows ==> x in monitorData
      ensures Truthy(serverName) ==>
        forall x :: x in rows ==> "server_name" in x.fields && x.fields["server_name"] == serverName
    {
      Latest(monitorData, serverName, limit)
    }

    /**
     * `saveConnectivityTest(testData)`; `saved` is false when destructuring
     * a null or undefined argument throws, before any row is written.
     */
    method SaveConnectivityTest(test: Json, now: int) returns (saved: bool)
      requires Valid()
      modifies this
      ensures Valid()
      ensures saved <==> !IsNullish(test)
      ensures Chronological(old(connectivityTests)) && NotBefore(old(connectivityTests), now) ==>
        Chronological(connectivityTests)
      ensures saved ==> connectivityTests == old(connectivityTests) + [TimedRow(ConnectivityRow(test), now)]
      ensures !saved ==> connectivityTests == old(connectivityTests)
      ensures servers == old(servers) && monitorData == old(monitorData)
      ensures operationLogs == old(operationLogs) && config == old(config)
    {
      saved := !IsNullish(test);
      if saved {
        AppendChronological(connectivityTests, TimedRow(ConnectivityRow(test), now));
        connectivityTests := connectivityTests + [TimedRow(ConnectivityRow(test), now)];
      }
    }

    /**
     * `getConfig(key)`; `parses` tells which texts `JSON.parse` accepts, and
     * `None` is the throw of a 'json' row whose text it rejects.
     */
    function GetConfig(key: string, parses: string -> bool): (r: Option<ConfigRead>)
      reads this
      ensures r == Some(Missing) <==> forall j :: 0 <= j < |config| ==> config[j].key != key
      ensures r.None? <==> exists j :: 0 <= j < |config| && config[j].key == key
                                        && config[j].configType == "json" && !parses(config[j].value)
                                        && forall i :: j < i < |config| ==> config[i].key != key
    {
      var read := ReadConfig(config, key);
      if ReadThrows(read, parses) then None else Some(read)
    }

    /** `setConfig(key, value, type)`; `stringify` is `JSON.stringify`. */
    method SetConfig(key: string, value: Json, configType: string, stringify: Json -> string)
      requires Valid()
      modifies this
      ensures Valid()
      ensures config == SetConfigRows(old(config), key, EncodeConfig(value, configType, stringify), configType)
      ensures servers == old(servers) && monitorData == old(monitorData)
      ensures connectivityTests == old(connectivityTests) && operationLogs == old(operationLogs)
    {
      var text := EncodeConfig(value, configType, stringify);
      var before := config;
      config := SetConfigRows(config, key, text, configType);
      match FindConfig(before, key)
      case Some(i) =>
        assert forall j :: 0 <= j < |config| ==> config[j].key == before[j].key;
      case None =>
        assert forall j :: 0 <= j < |before| ==> before[j].key != key;
    }

    /** `cleanupOldData(days)`: one batch pruning the three time-series tables. */
    method CleanupOldData(days: nat, now: int)
      requires Valid()
      modifies this
      ensures Valid()
      ensures var cutoff := now - days * 86400;
        && monitorData == KeepSince(old(monitorData), cutoff)
        && connectivityTests == KeepSince(old(connectivityTests), cutoff)
        && operationLogs == KeepSince(old(operationLogs), cutoff)
      ensures Chronological(old(monitorData)) ==> Chronological(monitorData)
      ensures Chronological(old(connectivityTests)) ==> Chronological(connectivityTests)
      ensures Chronological(old(operationLogs)) ==> Chronological(operationLogs)
      ensures servers == old(servers) && config == old(config)
    {
      var cutoff := now - days * 86400;
      var m := KeepSince(monitorData, cutoff);
      var c := KeepSince(connectivityTests, cutoff);
      var o := KeepSince(operationLogs, cutoff);
      if Chronological(monitorData) { KeepSinceChronological(monitorData, cutoff); }
      if Chronological(connectivityTests) { KeepSinceChronological(connectivityTests, cutoff); }
      if Chronological(operationLogs) { KeepSinceChronological(operationLogs, cutoff); }
      monitorData, connectivityTests, operationLogs := m, c, o;
    }
  }

  /** The age limit `cleanupOldData` applies when called without an argument. */
  const DefaultRetentionDays: nat := 30
}
