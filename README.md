# VPS monitor core in Dafny

This project models the logic at the centre of a VPS monitoring service.
The service has two parts:

- a Cloudflare Worker that agents push readings to, that serves a REST
  API and that keeps live WebSocket sessions;
- a Vue front-end that talks to that Worker.

The model is sequential. The socket, the D1 database engine, the
encryption service, `JSON.parse`/`JSON.stringify`, `atob`, the date
library and the clock are replaced by fields, parameters or recorded
effects. JavaScript values are the datatype `JsValue.Json`. That module
spells out falsiness, `||`, `===`, `typeof`, `String(v)` and property
lookup as the Worker code relies on them, with numbers as integers (see
"## Left out" for where that differs).

| file | module | what it models |
|---|---|---|
| wrappers.dfy | Wrappers | `Option` |
| text.dfy | Text | the string built-ins: digits, `split`/`join`, `trim`, `toLowerCase`, `parseInt`, `includes` |
| js_value.dfy | JsValue | JavaScript values, truthiness, `||`, `===`, `typeof`, `String()`, objects as ordered properties |
| worker_helpers.dfy | WorkerHelpers | workers/src/utils/helpers.js |
| database.dfy | Db | workers/src/utils/database.js: the `servers`, time-series and `system_config` tables in a class |
| api_routes.dfy | ApiRoutes | route lookup and `extractParams` of workers/src/handlers/api.js |
| api_handlers.dfy | ApiHandlers | the handlers of workers/src/handlers/api.js that validate, default and mask records |
| session.dfy | LiveSession | `WebSocketSession` and `WebSocketManager` of workers/src/handlers/websocket.js |
| worker_entry.dfy | WorkerEntry | `fetch`, `scheduled` and the `WebSocketHandler` Durable Object of workers/src/index.js |
| client_socket.dfy | ClientSocket | the browser connection state machine of src/utils/websocket.js |
| client_api.dfy | ClientApi | src/utils/api.js: base address, interceptors, `formatError`, `batch` |
| client_helpers.dfy | ClientHelpers | src/utils/helpers.js: status colour, latency, age, e-mail and IP checks, falsy guards |

Code that changes state step by step is modelled as classes with
`modifies` clauses:

- `Db.Database`;
- `LiveSession.WebSocketSession` and `LiveSession.WebSocketManager`;
- `WorkerEntry.WebSocketHandler`;
- `ClientSocket.Client`;
- `ClientApi.Browser`.

Loops in the source become `while` or `for` loops with invariants. The
methods they belong to are proved against specification functions:

- `ValidateParams`, `FormatDuration` and `Retry`;
- `MatchDynamicRoute` and `ExtractParams`;
- `SetConfigApi`;
- `BroadcastToFrontend`, `Broadcast` and `Emit`;
- `Batch`.

Expression-only code becomes functions with lemmas.

## Model

| member | source | states |
|---|---|---|
| WorkerHelpers.MissingFieldsExact | workers/src/utils/helpers.js:90-103 | a field is reported missing iff it is required and is absent, null, undefined or '' |
| WorkerHelpers.ValidateParams | workers/src/utils/helpers.js:90-103 | the loop's `missing` lists the missing fields in `requiredFields` order; `valid` holds iff every required field is present |
| WorkerHelpers.Decompose | workers/src/utils/helpers.js:134-150 | the d/h/m/s split sums back to the input, with hours < 24 and minutes, seconds < 60 |
| WorkerHelpers.DurationPiecesAreComponents | workers/src/utils/helpers.js:141-150 | the unit loop writes exactly the non-zero components of the decomposition, largest unit first |
| WorkerHelpers.FormatDuration | workers/src/utils/helpers.js:131-153 | '0s' for a non-number or a count ≤ 0; otherwise the trimmed non-zero components of floor(seconds) |
| WorkerHelpers.AppendDurationPieces | workers/src/utils/helpers.js:141-150 | the loop over the four units produces the pieces of the specification function |
| WorkerHelpers.NoPiecesForNonPositive | workers/src/utils/helpers.js:145 | no unit fits a count ≤ 0, so nothing is written |
| WorkerHelpers.PositiveDurationHasPieces | workers/src/utils/helpers.js:152 | a positive count never falls back to '0s' |
| WorkerHelpers.FirstSuccess | workers/src/utils/helpers.js:222-236 | the index of the first successful call within the limit, with every earlier call failed; none iff all failed |
| WorkerHelpers.Retry | workers/src/utils/helpers.js:219-237 | no more than maxAttempts calls; resolves with the first success or rethrows the last failure; the wait after failure k is delay·2^(k-1); undefined for maxAttempts ≤ 0 |
| WorkerHelpers.IsValidIPv4 | workers/src/utils/helpers.js:255 | the IPv4 pattern read as four dot-separated runs of 1 to 3 ASCII digits, each worth at most 255, which is what each octet alternative allows; an accepted address holds a '.' and only digits and dots |
| WorkerHelpers.IsValidIPv6 | workers/src/utils/helpers.js:256 | the IPv6 pattern read as eight colon-separated groups of 1 to 4 hexadecimal digits, with no abbreviation; an accepted address holds a ':' and only hexadecimal digits and colons |
| WorkerHelpers.IsValidIP | workers/src/utils/helpers.js:254-259 | `isValidIP` accepts an address iff exactly one of the two patterns does; they never both accept |
| WorkerHelpers.OctetOfByte | workers/src/utils/helpers.js:255 | the decimal text of every value 0..255 is an octet of the IPv4 pattern |
| WorkerHelpers.FormatIPv4IsValid | workers/src/utils/helpers.js:254-259 | every dotted quad of byte values is accepted |
| WorkerHelpers.ValidIPv4Octets | workers/src/utils/helpers.js:255 | an accepted IPv4 address is four dot-separated decimal values, each ≤ 255 |
| WorkerHelpers.NoDotInDigits | workers/src/utils/helpers.js:255-256 | an octet holds no '.' and no ':' |
| WorkerHelpers.IPv6HasColonNoDot | workers/src/utils/helpers.js:256 | an accepted IPv6 address holds a ':' and no '.', so the two patterns accept disjoint sets |
| WorkerHelpers.IsValidPort | workers/src/utils/helpers.js:264-267 | `parseInt` of the port's text is a number in 1..65535; a boolean, null, undefined or an object has no leading integer (NaN) and is refused |
| WorkerHelpers.ValidNumericPort | workers/src/utils/helpers.js:264-267 | a port given as a number below 10^21 in magnitude, or as the decimal text of any integer, is valid iff it lies in 1..65535 |
| WorkerHelpers.IsValidDomain | workers/src/utils/helpers.js:272-275 | the domain pattern read as one or more dot-separated labels of 1 to 63 letters, digits or '-', each starting and ending with a letter or digit; an accepted domain is non-empty and holds only those characters and dots |
| WorkerHelpers.JoinLabelsIsDomain | workers/src/utils/helpers.js:272-275 | valid labels joined by dots form a valid domain that splits back into the same labels |
| WorkerHelpers.IPv4IsDomain | workers/src/utils/helpers.js:272-275 | every address accepted by the IPv4 pattern is also a well-formed domain name |
| WorkerHelpers.SanitizeData | workers/src/utils/helpers.js:280-301 | the result has the input's type and shape: the same keys in order for an object, the same length for an array, primitives unchanged |
| WorkerHelpers.SanitizeLeavesNoSecret | workers/src/utils/helpers.js:283-297 | at every depth, each key whose lower-cased form contains a sensitive word holds '***' |
| WorkerHelpers.SanitizeIdempotent | workers/src/utils/helpers.js:280-301 | sanitizing a sanitized tree changes nothing |
| WorkerHelpers.SanitizeKeepsPublicData | workers/src/utils/helpers.js:280-301 | a tree with no sensitive key anywhere is returned unchanged |
| WorkerHelpers.SanitizeKeepsNonSensitive | workers/src/utils/helpers.js:289-294 | in any tree, a key that is not sensitive keeps its leaf value, and an object or array under it is sanitized in turn |
| WorkerHelpers.SanitizeKeepsPublicEntry | workers/src/utils/helpers.js:289-294 | in a tree that also holds sensitive keys, a non-sensitive entry with no sensitive key below it comes back unchanged |
| WorkerHelpers.DefaultListMasksVariants | workers/src/utils/helpers.js:280-290 | with the default list, 'Password' (after lower-casing) and 'api_key' (by substring) are masked |
| WorkerHelpers.GetClientIP | workers/src/utils/helpers.js:329-344 | precedence CF-Connecting-IP, then the first trimmed X-Forwarded-For entry, then X-Real-IP, else 'unknown' |
| WorkerHelpers.ClientIsFirstForwardedHop | workers/src/utils/helpers.js:335-338 | behind a proxy chain without CF-Connecting-IP, the client is the first hop, trimmed |
| WorkerHelpers.TruncateString | workers/src/utils/helpers.js:356-359 | '' for a non-string; the string itself up to maxLength; otherwise its first maxLength characters and '...' |
| WorkerHelpers.EscapeHtml | workers/src/utils/helpers.js:364-374 | the output holds no raw '<', '>', '"' or "'" |
| WorkerHelpers.EntityAt | workers/src/utils/helpers.js:365-371 | a recognised entity lies within the text |
| WorkerHelpers.EntityOfEscapedChar | workers/src/utils/helpers.js:365-373 | each escaped character starts with its own entity, and other characters start with none |
| WorkerHelpers.UnescapeEscapedChar | workers/src/utils/helpers.js:365-373 | reading an escaped character back gives that character |
| WorkerHelpers.UnescapeEscape | workers/src/utils/helpers.js:364-374 | unescaping undoes escapeHtml, so every other character is kept, in order |
| WorkerHelpers.EscapePlainText | workers/src/utils/helpers.js:373 | text without the five markup characters is unchanged |
| WorkerHelpers.SchemesDisjoint | workers/src/utils/helpers.js:60-68 | no header starts with both 'Bearer ' and 'Basic ' |
| WorkerHelpers.ValidateAuthAsWritten | workers/src/utils/helpers.js:51-85 | a missing header is refused; Basic admission requires user 'admin' with a password `===` to the configured one |
| WorkerHelpers.AsWrittenAdminWithoutPassword | workers/src/handlers/api.js:530 | when called without env, the bare 'admin' is admitted and 'admin:<anything>' is refused |
| WorkerHelpers.ValidateAuth | workers/src/utils/helpers.js:51-85 | the corrected check: Basic admission needs a configured string password and matching credentials |
| WorkerHelpers.ValidateAuthBasic | workers/src/utils/helpers.js:68-77 | 'admin:<p>' is admitted iff p is the configured password |
| WorkerHelpers.ValidateAuthNeedsPassword | workers/src/utils/helpers.js:73 | with no configured password, Basic never admits |
| Db.BoundValue | workers/src/utils/database.js:103-114 | every value upsertServer binds is defined (the `|| null` and `|| default` chains) |
| Db.UpsertValues | workers/src/utils/database.js:116-140 | the bound row covers exactly the eleven listed columns besides the name |
| Db.UpsertRowColumn | workers/src/utils/database.js:123-134 | after the upsert, each listed column holds its bound value |
| Db.UpsertRowStamp | workers/src/utils/database.js:116-135 | the row is stamped with updated_at = now, and a new row carries its name |
| Db.OrChain | workers/src/utils/database.js:104-106 | `a || b || c` picks the first truthy operand, else the last |
| Db.UpsertDefaults | workers/src/utils/database.js:104-114 | region = description‖region‖'', due_time = expiry_date‖due_time‖null, buy_url = purchase_url‖buy_url‖null, port‖22, method‖'both', interval‖300 |
| Db.UpsertKeepsOtherColumns | workers/src/utils/database.js:123-135 | on conflict, status, last_seen and every other unlisted column keep their value |
| Db.UpsertIdempotent | workers/src/utils/database.js:95-141 | upserting the same record twice equals upserting it once at the later time |
| Db.AssignmentsFromEntries | workers/src/utils/database.js:152-170 | an assignment is exactly a non-`name` entry under its renamed column (description→region, expiry_date→due_time, purchase_url→buy_url, other keys verbatim) |
| Db.AssignmentsSkipName | workers/src/utils/database.js:165 | `name` is never assigned |
| Db.ApplyAssignments | workers/src/utils/database.js:180-182 | the SET statement touches exactly the assigned columns |
| Db.ApplyAssignmentsValue | workers/src/utils/database.js:180-182 | each column holds its last assigned value, or keeps its old one |
| Db.ConvertConfig | workers/src/utils/database.js:343-352 | a stored row never reads as missing |
| Db.ReadThrowsOnlyJson | workers/src/utils/database.js:343-352 | converting a row throws iff its type is 'json' and JSON.parse rejects its text; parseFloat, the boolean test and the plain string never throw |
| Db.FindConfig | workers/src/utils/database.js:335-338 | finds the row with that key, if any |
| Db.SetConfigRows | workers/src/utils/database.js:361-368 | a new key is appended; an existing key is updated in place |
| Db.ReadAfterSetConfig | workers/src/utils/database.js:334-369 | after setConfig, getConfig of that key converts exactly the text and type just written |
| Db.SetConfigOtherKey | workers/src/utils/database.js:361-368 | writing one key leaves every other key reading as before |
| Db.ConfigStringRoundTrip | workers/src/utils/database.js:334-369 | a string written as 'string' reads back as the same string |
| Db.ConfigBooleanRoundTrip | workers/src/utils/database.js:334-369 | a boolean written as 'boolean' reads back as the same boolean |
| Db.ConfigNumberRoundTrip | workers/src/utils/database.js:343-359 | a number written as 'number' reads back as parseFloat of its decimal text |
| Db.ConfigMissingKey | workers/src/utils/database.js:340 | a key never written reads as null |
| Db.KeepSinceContents | workers/src/utils/database.js:376-393 | pruning keeps exactly the rows not older than the cutoff |
| Db.AppendChronological | workers/src/handlers/api.js:368-379 | a row stamped no earlier than the newest keeps a table chronological |
| Db.KeepSinceChronological | workers/src/utils/database.js:376-393 | pruning keeps the table in timestamp order |
| Db.ForServer | workers/src/utils/database.js:256 | with a truthy name, only that server's rows; otherwise every row |
| Db.StatusRowColumns | workers/src/utils/database.js:188-196 | status, last_seen, and last_agent_seen for 'agent' or last_ssh_check otherwise, change; nothing else does |
| Db.ConnectivityRow | workers/src/utils/database.js:290-303 | each of the twelve fields is stored if truthy, else null |
| Db.ZeroLatencyStoredAsNull | workers/src/utils/database.js:298 | a latency of 0 is stored as null |
| Db.ReverseChronological | workers/src/utils/database.js:257 | reading a chronological table from its end goes newest first |
| Db.ForServerChronological | workers/src/utils/database.js:256 | filtering by name keeps the timestamp order |
| Db.Latest | workers/src/utils/database.js:253-263 | at most `limit` rows, each from the table, only the named server's when a name is given |
| Db.LatestNewestFirst | workers/src/utils/database.js:257-258 | the answer is newest first and is the newest `limit` rows of that server |
| Db.Reverse | workers/src/utils/database.js:257 | ORDER BY timestamp DESC on a chronological table is the reversal |
| Db.Database.constructor | workers/src/utils/database.js:7-9 | all tables empty |
| Db.Database.UpsertServer | workers/src/utils/database.js:95-141 | one row per name, updated in place on conflict; the other tables are unchanged |
| Db.Database.UpdateServer | workers/src/utils/database.js:146-183 | the loop skips the exact key `name`, renames description, expiry_date and purchase_url, and the statement then does what UpdateTable says: no field changes nothing, not even updated_at; a field that names no column, ignoring ASCII case, fails; a `name` column reached through a key such as `NAME` moves the row, failing if the new name is taken |
| Db.Resolved | workers/src/utils/database.js:167-182 | each assignment names the column SQLite reads, its field lower-cased |
| Db.ResolvedLowerKeys | workers/src/utils/database.js:164-170 | with lower-case keys every field already names its column |
| Db.UpdateTableInPlace | workers/src/utils/database.js:164-182 | with lower-case keys that all name columns, the row keeps its name and only its assigned columns and updated_at change |
| Db.UpdateTableOtherRows | workers/src/utils/database.js:180-182 | `WHERE name = ?` touches no other row, and a failed statement changes nothing |
| Db.CaseVariantNameRenames | workers/src/utils/database.js:165-168 | the skip compares exactly, so a body `{NAME: b}` moves row a to b, with b in its name column |
| Db.Database.UpdateServerStatus | workers/src/utils/database.js:188-196 | only the named row changes, as StatusRow says; an unknown name changes nothing |
| Db.Database.DeleteServer | workers/src/utils/database.js:201-205 | removes exactly that row |
| Db.Database.InsertMonitorData | workers/src/handlers/api.js:368-379 | appends one row stamped now, whatever the clock reads; the table stays chronological when it was and now is no earlier than its newest row; the other tables are unchanged |
| Db.Database.GetLatestMonitorData | workers/src/utils/database.js:253-263 | at most `limit` rows of monitor_data, filtered by truthy name |
| Db.Database.SaveConnectivityTest | workers/src/utils/database.js:282-312 | reports success iff the argument is neither null nor undefined; on success appends ConnectivityRow(test) stamped now, otherwise (the destructuring throws) no table changes |
| Db.Database.GetConfig | workers/src/utils/database.js:334-353 | null iff no row has that key; a throw iff the key's row is 'json' and JSON.parse rejects its text; otherwise the converted value |
| Db.Database.SetConfig | workers/src/utils/database.js:358-369 | JSON.stringify for 'json', String(value) otherwise, upserted on config_key |
| Db.Database.CleanupOldData | workers/src/utils/database.js:376-393 | the three time-series tables keep exactly the rows not older than `days` days, each still chronological if it was; servers and config are untouched |
| ApiRoutes.FirstMatch | workers/src/handlers/api.js:70-85 | the first route in insertion order whose pattern accepts the request, with no earlier one accepting; none iff no route accepts |
| ApiRoutes.MatchDynamicRoute | workers/src/handlers/api.js:70-85 | the loop with its early return finds exactly FirstMatch's route |
| ApiRoutes.FirstMatchIs | workers/src/handlers/api.js:71-82 | a matching route with no earlier match is the one chosen |
| ApiRoutes.FirstMatchNone | workers/src/handlers/api.js:84 | no matching route gives null |
| ApiRoutes.LookupRoute | workers/src/handlers/api.js:52-59 | the exact "METHOD path" key first, else the first dynamic match; none is the 404 |
| ApiRoutes.MatchNeedsShape | workers/src/handlers/api.js:72-78 | a dynamic match needs the same method and the same number of segments |
| ApiRoutes.SplitPath | workers/src/handlers/api.js:91-92 | a path written from slash-free segments splits back into them |
| ApiRoutes.RouteKeyParts | workers/src/handlers/api.js:72 | a route key splits into its method and its path |
| ApiRoutes.RouteOfSegments | workers/src/handlers/api.js:74-80 | a route matches iff the method is equal and each segment matches: `:param` any non-empty segment, a literal only itself |
| ApiRoutes.FilledRouteMatches | workers/src/handlers/api.js:74-80 | a pattern filled with non-empty segments is matched, and never under another method |
| ApiRoutes.ExtractParams | workers/src/handlers/api.js:90-103 | the loop builds the params object of the specification function |
| ApiRoutes.ParamsAtIndex | workers/src/handlers/api.js:95-100 | each `:name` holds the path segment at the same index (undefined past the end), and there are no other keys |
| ApiHandlers.MonitorRow | workers/src/handlers/api.js:368-379 | the inserted row has the usage columns, server_name and data_source; each usage is truthy or 0 |
| ApiHandlers.AcceptedRowIsReported | workers/src/handlers/api.js:358-379 | an accepted record is filed under the reported name, with each usage reported or else 0, source 'agent' |
| ApiHandlers.ReceiveServerData | workers/src/handlers/api.js:344-393 | bad JSON gives 400; a falsy timestamp or server_name gives 400; a name mismatch gives 400; otherwise one insert, then status 'online'; no write on any error |
| ApiHandlers.Credentials | workers/src/handlers/api.js:214-222 | null, or the encryption of the stringified ssh_credentials |
| ApiHandlers.CreatedServerRow | workers/src/handlers/api.js:202-215 | the stored row has location‖'Unknown', region = description‖region‖'Default', port‖22, method‖'both', interval‖300 |
| ApiHandlers.CreateServer | workers/src/handlers/api.js:186-234 | a missing name or ip_address gives 400 and no upsert; otherwise one upsert of the defaulted record |
| ApiHandlers.AgentAddress | workers/src/handlers/api.js:135-137 | CF-Connecting-IP, then X-Forwarded-For, then the body's ip_address |
| ApiHandlers.RegisteredAgentRow | workers/src/handlers/api.js:140-153 | method 'both', interval 300, seller 'Agent' and no credentials, whatever the agent sent |
| ApiHandlers.RegisterAgent | workers/src/handlers/api.js:125-181 | a missing name or ip_address gives 400 and no write; otherwise one upsert, and 'updated' iff the name already existed, else 'created' |
| ApiHandlers.AgentReplyReports | workers/src/handlers/api.js:162-174 | the reply names the action and echoes the stored name and address |
| ApiHandlers.UpdateEntries | workers/src/handlers/api.js:248-256 | null or undefined bodies throw |
| ApiHandlers.UpdateEntriesProtectCredentials | workers/src/handlers/api.js:251-256 | plain ssh_credentials never reach the table; their encryption does; other properties pass unchanged |
| ApiHandlers.UpdateEntriesRead | workers/src/handlers/api.js:251-256 | what each property of the entries handed to the table reads |
| ApiHandlers.UpdateServerApi | workers/src/handlers/api.js:239-264 | server name from the URL; the table changes as UpdateTable says for the entries; 500 iff the statement fails; a throw for a bad body |
| ApiHandlers.DeleteServerApi | workers/src/handlers/api.js:269-285 | removes exactly that server and answers success |
| ApiHandlers.MaskForList | workers/src/handlers/api.js:114-117 | encrypted_credentials becomes '***' iff set, null otherwise; other columns unchanged |
| ApiHandlers.MaskForListIdempotent | workers/src/handlers/api.js:114-117 | masking a listed row again changes nothing |
| ApiHandlers.SafeServers | workers/src/handlers/api.js:110-120 | every server is listed, each masked |
| ApiHandlers.MaskForDetail | workers/src/handlers/api.js:329-331 | set credentials become '***'; a falsy value is left as it is |
| ApiHandlers.MasksAgree | workers/src/handlers/api.js:114-117 | both masks agree on whether credentials are set |
| ApiHandlers.GetServerApi | workers/src/handlers/api.js:318-337 | 404 iff the name is unknown; otherwise the masked row |
| ApiHandlers.InferConfigType | workers/src/handlers/api.js:538-545 | 'number' iff a number, 'boolean' iff a boolean, 'json' iff an object (null and arrays included), 'string' otherwise |
| ApiHandlers.StoredReadBack | workers/src/handlers/api.js:538-545 | a string or boolean reads back as itself, a number via parseFloat, anything else via JSON.parse |
| ApiHandlers.ConfigAfterRead | workers/src/handlers/api.js:538-545 | after the loop, a written key reads its last written value; every other key reads as before |
| ApiHandlers.ConfigAfterPrefix | workers/src/handlers/api.js:538-545 | one more iteration writes one more entry |
| ApiHandlers.SetConfigApi | workers/src/handlers/api.js:529-551 | authentication by the corrected ValidateAuth with the configured password (see Findings: the source omits it); refused gives 401 and no write; otherwise an unparsable body throws, a null body gives 500, and each entry is written in order with its inferred type |
| ApiHandlers.SetConfigBodyReads | workers/src/handlers/api.js:535-545 | for an object body, every key sent reads back as sent; other keys are untouched |
| ApiHandlers.ConfigObjectReads | workers/src/handlers/api.js:499-519 | the all-config object agrees with reading each key alone |
| ApiHandlers.GetConfigApi | workers/src/handlers/api.js:490-524 | with a key, that key's value; without one, every stored key; 500 'Failed to get config' iff a row read throws in JSON.parse, for one key or for the listing |
| LiveSession.Emitted | workers/src/handlers/websocket.js:292-305 | a frame is written iff the socket is open, at most one per send |
| LiveSession.AuthState | workers/src/handlers/websocket.js:147-158 | a matching secret authenticates; agent with a truthy name sets isAgent and serverName; 'frontend' sets only isFrontend; otherwise it only authenticates |
| LiveSession.AuthKeepsCoherent | workers/src/handlers/websocket.js:147-158 | roles need authentication, and an agent needs its name |
| LiveSession.SecondAuthRebinds | workers/src/handlers/websocket.js:149-152 | a second agent auth re-binds serverName to the new name |
| LiveSession.PushEffects | workers/src/handlers/websocket.js:180-203 | save, then status 'online', then broadcast, stopping at the first failure |
| LiveSession.BroadcastIgnoresSubscriptions | workers/src/handlers/websocket.js:383-389 | whether a session is broadcast to does not depend on its subscriptions |
| LiveSession.WebSocketSession.constructor | workers/src/handlers/websocket.js:45-55 | an open, unauthenticated session with no role, serverName null and lastPing now |
| LiveSession.WebSocketSession.SetState | workers/src/handlers/websocket.js:147-158 | writes the handler-visible fields |
| LiveSession.WebSocketSession.Send | workers/src/handlers/websocket.js:292-305 | appends one frame only when open; nothing else changes |
| LiveSession.WebSocketSession.Initialize | workers/src/handlers/websocket.js:60-86 | sends welcome with the session id, then starts the heartbeat |
| LiveSession.WebSocketSession.HandleAuth | workers/src/handlers/websocket.js:135-169 | a wrong secret sends auth_failed, closes with 1008 and sets no role; a right one sets the roles, logs the agent's 'online' status, then sends auth_success |
| LiveSession.WebSocketSession.HandleMonitorData | workers/src/handlers/websocket.js:174-204 | unless authenticated agent with a name: an error reply and no store call; otherwise the PushEffects calls and an error reply on failure |
| LiveSession.WebSocketSession.HandlePing | workers/src/handlers/websocket.js:209-212 | lastPing := now and one pong, with no authentication needed |
| LiveSession.WebSocketSession.HandleFrontendConnect | workers/src/handlers/websocket.js:217-232 | unauthenticated gives an error; otherwise the server list is sent |
| LiveSession.WebSocketSession.HandleSubscribe | workers/src/handlers/websocket.js:237-264 | only an authenticated front-end subscribes; at most one monitor_update, sent only when the latest data is non-empty |
| LiveSession.WebSocketSession.HandleClose | workers/src/handlers/websocket.js:269-279 | the socket is closed, keeping an earlier close; an offline status is logged iff agent with a name; the heartbeat stops |
| LiveSession.ClosedSocketIsSilent | workers/src/handlers/websocket.js:292-305 | a closed socket stays closed and `send` writes nothing on it |
| LiveSession.WebSocketSession.HandleError | workers/src/handlers/websocket.js:284-287 | only the heartbeat stops |
| LiveSession.WebSocketSession.Tick | workers/src/handlers/websocket.js:332-346 | silence > 60000 ms closes with 1000 and sends no ping; otherwise one ping |
| LiveSession.WebSocketSession.HandleMessage | workers/src/handlers/websocket.js:91-130 | per type, the outcome of that handler as its own contract states it: a parse failure or a null message gives the 'Invalid message format' reply; auth and subscribe as AuthCaught and SubscribeCaught; monitor_data, ping and frontend_connect as their handlers; any other type changes nothing and sends nothing |
| LiveSession.WebSocketSession.AuthCaught | workers/src/handlers/websocket.js:99-101 | a null payload: only the error reply; a wrong secret: close with 1008 and auth_failed; the right one: the roles set, an agent marked online, and auth_success, or the error reply when that update is rejected |
| LiveSession.WebSocketSession.SubscribeCaught | workers/src/handlers/websocket.js:115-117 | not an authenticated front-end: the refusal; a null payload: the error reply; a falsy name: nothing; otherwise the name subscribed, the newest row requested and, if there is one, sent |
| LiveSession.KindOf | workers/src/handlers/websocket.js:98-121 | each of the five known types exactly when `type` strictly equals its name; every other value is the default case |
| LiveSession.SendData | workers/src/handlers/websocket.js:292 | undefined data becomes `{}`; any other value is kept |
| LiveSession.WebSocketManager.constructor | workers/src/handlers/websocket.js:362-366 | no sessions |
| LiveSession.WebSocketManager.AddSession | workers/src/handlers/websocket.js:394-396 | keyed by the session's id |
| LiveSession.WebSocketManager.RemoveSession | workers/src/handlers/websocket.js:398-400 | removes that id only |
| LiveSession.WebSocketManager.Broadcast | workers/src/handlers/websocket.js:380-392 | exactly the open front-end sessions get one frame each, of the message's type and data (`{}` for undefined data, the default of `send`), whatever their subscriptions; no session state changes |
| WorkerEntry.Route | workers/src/index.js:19-50 | OPTIONS is handled first; then the '/api/' prefix, '/ws' or '/websocket', '/health'; else not found |
| WorkerEntry.OwnPathsAreNotApi | workers/src/index.js:42-46 | the socket and health paths do not start with '/api/' |
| WorkerEntry.UnknownPathIsNotFound | workers/src/index.js:48-50 | every other request gets 404 |
| WorkerEntry.CronTaskFor | workers/src/index.js:69-84 | exactly one task for each of the three cron strings, none for any other |
| WorkerEntry.Scheduled | workers/src/index.js:61-89 | each cron runs its one task; the cleanup cron prunes with the 30-day default and keeps servers and config; an unknown cron leaves every table unchanged |
| WorkerEntry.FrontendIds | workers/src/index.js:233 | the sessions that are authenticated with a falsy serverName |
| WorkerEntry.Deliver | workers/src/index.js:232-242 | frames go on the sockets of the given ids, one each; the others are unchanged |
| WorkerEntry.DeliverNothing | workers/src/index.js:232-242 | an empty target set changes nothing |
| WorkerEntry.DeliverOneMore | workers/src/index.js:232-242 | one more target appends the frame to that socket alone |
| WorkerEntry.DeliverSingle | workers/src/index.js:235-240 | one write lands unless its send throws |
| WorkerEntry.WebSocketHandler.constructor | workers/src/index.js:95-100 | no sessions |
| WorkerEntry.WebSocketHandler.Accept | workers/src/index.js:102-117 | a new unauthenticated session, serverName null, lastPing now |
| WorkerEntry.WebSocketHandler.Drop | workers/src/index.js:125-133 | a close or error removes that session and no other |
| WorkerEntry.WebSocketHandler.Write | workers/src/index.js:236-239 | the frame lands iff send does not throw |
| WorkerEntry.WebSocketHandler.HandleAuth | workers/src/index.js:176-201 | right secret: authenticated, serverName := data.server_name, auth_success; wrong secret: auth_failed, the socket closed and the session removed |
| WorkerEntry.WebSocketHandler.BroadcastToFrontend | workers/src/index.js:230-243 | every front-end session is attempted; those whose send throws are removed; no others change |
| WorkerEntry.WebSocketHandler.Offer | workers/src/index.js:233-240 | one iteration of the broadcast loop |
| WorkerEntry.WebSocketHandler.HandleMonitorData | workers/src/index.js:203-228 | unauthenticated gives no effect; otherwise save, status, broadcast, stopping at a failure |
| WorkerEntry.WebSocketHandler.HandleMessage | workers/src/index.js:146-174 | an unknown session, a parse failure or a null message has no effect; auth and monitor_data as HandleAuth and HandleMonitorData state them (monitor_data from an unauthenticated connection does nothing); ping sets lastPing and sends pong even unauthenticated; any other type has no effect |
| WorkerEntry.BroadcastReachesOnlyFrontends | workers/src/index.js:232-242 | only front-end sockets receive the message, each at most once |
| WorkerEntry.AgentsDoNotReceive | workers/src/index.js:233 | a session bound to a server name never receives the broadcast |
| ClientSocket.Status | src/utils/websocket.js:29-34 | connecting ('processing'), then connected ('success'), then lastError ('error'), else 'default' |
| ClientSocket.StatusText | src/utils/websocket.js:36-41 | the text follows the same priority as the status |
| ClientSocket.StatusExclusive | src/utils/websocket.js:29-34 | under the handlers' invariant, 'success' iff connected and 'processing' iff connecting |
| ClientSocket.NextDelay | src/utils/websocket.js:245 | delay := min(2·delay, 30000), staying in [1000, 30000] |
| ClientSocket.DelayAfterClosedForm | src/utils/websocket.js:245 | after k failures the delay is min(1000·2^k, 30000) |
| ClientSocket.Notifications | src/utils/websocket.js:211-222 | one call per listener, in order |
| ClientSocket.Dispatch | src/utils/websocket.js:158-176 | the handler of the message's type, if one is registered, is called first with its data; after it come exactly the 'message' notifications with the whole message, then exactly the `message:<type>` notifications with the data |
| ClientSocket.Added | src/utils/websocket.js:193-199 | set.add keeps the elements unique and keeps a present listener in place |
| ClientSocket.Removed | src/utils/websocket.js:200-205 | set.delete removes exactly that listener |
| ClientSocket.RemovedAbsent | src/utils/websocket.js:200-205 | deleting an absent listener changes nothing |
| ClientSocket.AddThenRemove | src/utils/websocket.js:193-206 | unsubscribing a listener just subscribed restores the set |
| ClientSocket.Client.constructor | src/utils/websocket.js:9-19 | idle state, attempts 0, delay 1000, no handlers or listeners |
| ClientSocket.Client.Connect | src/utils/websocket.js:46-118 | nothing while connected or connecting; otherwise connecting := true and lastError := null, or the constructor's error is kept |
| ClientSocket.Client.Emit | src/utils/websocket.js:211-222 | every listener of the event is called, in order, even if one throws |
| ClientSocket.Client.Send | src/utils/websocket.js:133-153 | false and nothing sent when not connected; otherwise one frame and true |
| ClientSocket.Client.OnOpen | src/utils/websocket.js:60-77 | connected, not connecting, attempts 0, delay 1000; the auth frame when a token is stored |
| ClientSocket.Client.Cleanup | src/utils/websocket.js:227-231 | ws, connected and connecting cleared |
| ClientSocket.Client.OnClose | src/utils/websocket.js:88-99 | clears the socket; schedules a reconnect only below 5 attempts, adding one |
| ClientSocket.Client.OnError | src/utils/websocket.js:101-109 | keeps the error, stops connecting and emits 'error' |
| ClientSocket.Client.ReconnectTimer | src/utils/websocket.js:241-248 | the `attempts <= 5` guard always passes, so it is `connect()` as a reconnect: nothing while connected or connecting; otherwise an opening socket with a reconnect attempt pending, or, when construction throws, the error kept and the delay doubled up to 30 s |
| ClientSocket.Client.Disconnect | src/utils/websocket.js:123-128 | closes the socket if any and clears the state |
| ClientSocket.Client.HeartbeatTick | src/utils/websocket.js:255-261 | a ping while connected; otherwise the interval stops |
| ClientSocket.Client.StartHeartbeat | src/utils/websocket.js:264-266 | the 'pong' handler becomes the heartbeat's logger, replacing one the caller registered; every other type keeps its handler |
| ClientSocket.Client.HandleMessage | src/utils/websocket.js:158-176 | logs exactly Dispatch: the type's handler, then 'message', then 'message:<type>'; no state changes |
| ClientSocket.Client.OnMessage | src/utils/websocket.js:79-86 | a frame that does not parse, or parses to null, changes nothing; any other is dispatched as handleMessage does |
| ClientSocket.Client.RegisterHandler | src/utils/websocket.js:181-184 | one handler per type; a later one replaces an earlier |
| ClientSocket.Client.UnregisterHandler | src/utils/websocket.js:185-187 | deletes whatever handler the type then has |
| ClientSocket.Client.On | src/utils/websocket.js:193-199 | adds the listener to the event's set |
| ClientSocket.Client.Off | src/utils/websocket.js:200-205 | removes only that listener |
| ClientApi.ApiBaseUrl | src/utils/api.js:11-36 | the env URL iff set, non-empty and without 'placeholder'; then the '.pages.dev' rule, then localhost, else '/api' |
| ClientApi.PagesHost | src/utils/api.js:22-27 | `<project>.pages.dev` maps to `https://<project>-api.workers.dev` |
| ClientApi.PagesBeforeLocalhost | src/utils/api.js:22-32 | the Pages rule is tried before the localhost rule |
| ClientApi.StatusMessage | src/utils/api.js:108 | data.message if truthy, else 'HTTP <status> Error' |
| ClientApi.Browser.constructor | src/utils/api.js:51-54 | the stored token and the page address |
| ClientApi.Browser.WithToken | src/utils/api.js:48-66 | Authorization is 'Bearer <token>' iff a token is stored; other headers unchanged |
| ClientApi.Browser.OnFailure | src/utils/api.js:78-118 | 401 removes the token and goes to /login; the rejection message by failure kind |
| ClientApi.FormatError | src/utils/api.js:273-281 | response.data.message, then error.message, then '未知错误' |
| ClientApi.Chunks | src/utils/api.js:309-321 | some chunk remains iff the start is before the end |
| ClientApi.ChunkAt | src/utils/api.js:313-318 | chunk k starts k·concurrency after the start |
| ClientApi.ChunksTile | src/utils/api.js:313-318 | the chunks are consecutive, non-empty, at most `concurrency` long, and end at the last call |
| ClientApi.Batch | src/utils/api.js:309-321 | one settled result per call, in call order; the calls are issued in Chunks order |
| ClientApi.SettleAll | src/utils/api.js:315-316 | one report per call, in order |
| ClientHelpers.StatusColor | src/utils/helpers.js:216-224 | the mapped colour for online, offline, warning; '#8c8c8c' for anything else |
| ClientHelpers.FormatLatency | src/utils/helpers.js:231-237 | '-' iff negative, then the four quality buckets |
| ClientHelpers.AgeOf | src/utils/helpers.js:245-254 | seconds iff < 60; otherwise the count in the largest unit that fits, bounded by its unit |
| ClientHelpers.TimeDiff | src/utils/helpers.js:245-254 | the age text in that unit |
| ClientHelpers.AgeMonotone | src/utils/helpers.js:248-251 | for any two differences d1 ≤ d2, the age of d2 is in the same unit with a count no smaller, or in a larger unit |
| ClientHelpers.IsValidEmail | src/utils/helpers.js:196-199 | the pattern read as three runs of characters that are neither JavaScript `\s` whitespace nor '@', around one '@' and then a '.'; an accepted address has an '@' and at least five characters |
| ClientHelpers.EmailHasShape | src/utils/helpers.js:196-199 | an accepted e-mail has one '@', no whitespace, and a '.' after the '@' not next to it and not last |
| ClientHelpers.ShapeIsEmail | src/utils/helpers.js:196-199 | every string of that shape is accepted |
| ClientHelpers.EmailIffShape | src/utils/helpers.js:196-199 | the regex and the shape accept the same strings |
| ClientHelpers.IsValidIP | src/utils/helpers.js:206-209 | the front-end check is the Worker's IPv4 pattern alone: whatever it accepts the Worker accepts too, and it rejects every address with a ':', so every IPv6 address |
| ClientHelpers.FormatTime | src/utils/helpers.js:13-16 | '-' for a falsy time |
| ClientHelpers.FormatPercentage | src/utils/helpers.js:40-43 | '0%' for a falsy total |

## Left out

- Agent data `saveAgentData`, `SpeedTestService`, `MonitorService.checkOfflineServers` and `verifyAPIToken` are foreign calls. Their outcomes are parameters
  (`saveOk`, `statusOk`, `tokenCheck`) or recorded effects.
- WorkerEntry.Scheduled: the '*/5' and '*/10' crons hand the database to `MonitorService.checkOfflineServers` and `SpeedTestService.runConnectivityTests`. What they write is not part of this model, so the contract says nothing about the tables after them, only which task ran.
- `JSON.parse`, `atob` and dayjs are foreign calls. They are passed in as functions or results, `None` meaning that the call throws. In `getConfig`, `JSON.parse` is given as `parses`, the texts it accepts.
- Db.ConvertConfig: a 'json' row reads as `ParsedJson(text)`, the pending call `JSON.parse(text)`; the value it would produce is not modelled. Whether it throws is: Db.Database.GetConfig and ApiHandlers.GetConfigApi answer the throw from `parses`.
- The encryption service and `JSON.stringify` are passed in as total functions. An `encrypt` that throws (workers/src/handlers/api.js:218-222) is not modelled.
- Timestamps in frames and responses (`new Date().toISOString()`) are not modelled. The clock is the `now` parameter, which stamps rows and `lastPing`. It may step back: the inserts accept any `now`, and the newest-first results (Db.ReverseChronological, Db.LatestNewestFirst, Db.Reverse) are proved only for a chronological table, which the inserts keep only while `now` does not go back.
- Error messages that append `error.message` carry only their fixed text.
- Real sockets and transport: `WebSocketPair`, `accept` and the Durable Object `fetch('https://internal/broadcast')` are not modelled. The socket is a field, and the broadcast is a recorded effect.
- Timers: `setInterval` and `setTimeout` are I/O. The heartbeat and the reconnect timer are explicit methods (`Tick`, `HeartbeatTick`, `ReconnectTimer`). `StartHeartbeat` models only the handler registration of `startHeartbeat`.
- Concurrency: the model is sequential. It leaves out the interleaving of async handlers and the parallelism inside a `Promise.allSettled` chunk.
- Numbers are mathematical integers. These float-based functions are omitted:
  - `formatBytes`, `formatPercentage` of the Worker, `average` and `median`;
  - the `toFixed` ratio of the front-end's `formatPercentage`, which is a parameter.
- JsValue.ToJsString: a number is written as its decimal digits. For |n| ≥ 10^21 JavaScript writes exponent form ("1e+21"), and integers past 2^53 lose precision as doubles. Neither is modelled.
- WorkerHelpers.ValidNumericPort: the numeric half is stated only for |n| < 10^21. The source's `parseInt(String(n))` reads "1e+21" as 1, so it accepts every number ≥ 10^21 as a port, which the model does not capture.
- `parseFloat` on a stored 'number' config is recorded as the text it would parse, not as a float.
- SQL text and the D1 engine are not modelled. Ordering is modelled only for monitor_data, which is read newest first. `getServers` returns a map, so `ORDER BY name` is not modelled.
- `clearDatabase`, `getStats`, `getDashboard`, `getServerHistory`, `getConnectivityTests`, `triggerMonitor` and `runSpeedTest` are left out. They hold raw SQL or call foreign services.
- The Bearer branch of `validateAuth` is left out: it is the foreign `verifyAPIToken`.
- ApiHandlers.RegisterAgent does not pass on the `id` spread into `upsertServer`'s argument. `upsertServer` never binds that field.
- `generateId`, `crypto.randomUUID`, `deepClone` as a separate step, `debounce`, `throttle` and `safeJsonParse` are left out. They are randomness, timers or a plain `JSON` round trip. `sanitizeData` returns a new value, which covers `deepClone`.
- Prototype properties such as `toString` on JavaScript objects are not modelled. Property lookup sees own properties only.
- `JSON.stringify` dropping properties whose value is undefined is not modelled.
- `useMonitorWebSocket`, the page-visibility and online reconnection hooks, and the `wsUrl` constant of src/utils/websocket.js are left out. They are Vue and window plumbing.
- The model assumes `ws.send` does not throw while connected, and listener callbacks do not re-enter the client.
- ClientApi.Batch: requires `concurrency > 0`. For 0 or less the source's loop never advances and never ends, which a terminating method cannot express.
- `apiUtils.retry` (src/utils/api.js:286-304) has the same attempt-and-backoff loop as the Worker's `retry`. It is modelled by WorkerHelpers.Retry.
- WorkerHelpers.SanitizeData: a key is lower-cased ASCII letter by ASCII letter. JavaScript `toLowerCase` is full Unicode, so a key such as "\u212AEY" lowers to "key" in the source and is masked there, but not here.
- WorkerHelpers.SanitizeLeavesNoSecret: "sensitive" means sensitive under ASCII lower-casing, as in SanitizeData. A key that only full Unicode lower-casing makes sensitive is not covered.
- WorkerHelpers.SanitizeKeepsPublicData: "no sensitive key" is judged under ASCII lower-casing. A tree whose keys are sensitive only under full Unicode lower-casing is changed by the source.
- WorkerHelpers.TruncateString: lengths and the cut count Unicode characters. JavaScript `length` and `substring` count UTF-16 code units, so for text outside the Basic Multilingual Plane the two cut at different places.
- Db.LatestNewestFirst: rows with equal timestamps come out newest-inserted first. `ORDER BY timestamp DESC` leaves their order unspecified, and `CURRENT_TIMESTAMP` has one-second resolution, so with ties the source may return them, and choose which ones fall within `limit`, in another order.
- Db.Reverse: it is the ORDER BY only when no two rows share a timestamp. Ties are ordered as in Db.LatestNewestFirst.
- Db.ServerColumns: the source contains no `CREATE TABLE`. This column set is the columns the code writes or reads. An `updateServer` field that matches none of them, ignoring ASCII case, fails as an unknown column would. The schema's other constraints (NOT NULL, types) are not modelled; only the uniqueness of `name`, which `ON CONFLICT(name)` needs, is.
- Db.Database.UpdateServer: `updateServer` pastes each key into the SQL text. A key that carries SQL, such as `seller = 'x', status`, runs in the source; the model treats it as one field and fails it. Case-variant keys (`NAME`, `Status`) are modelled: SQLite resolves them, and `NAME` renames the row (Db.CaseVariantNameRenames).
- JsValue.OwnProps: JavaScript lists integer-like keys first, in ascending order, then the others in insertion order. The model keeps insertion order for every key, so SetConfigApi and UpdateServer may walk such entries in another order than the source.
- WorkerHelpers.GetClientIP: the X-Forwarded-For precedence is that of helpers.js. `registerAgent` takes the forwarded header whole, and ApiHandlers.AgentAddress models that.

## Findings

| source | as written | input that shows it | evidently intended | confidence | as-written member | corrected member |
|---|---|---|---|---|---|---|
| workers/src/utils/helpers.js:73 with workers/src/handlers/api.js:530 | `setConfig` calls `validateAuth(request)` without `env`, so `env?.ADMIN_PASSWORD` is undefined. `'admin'.split(':')` gives password undefined, and `undefined === undefined` admits it. | header `Authorization: Basic YWRtaW4=` (Base64 of `admin`) is admitted, and `admin:<real password>` is refused | Basic admission only for `admin:<configured password>`, and never when no password is configured | not executed | WorkerHelpers.ValidateAuthAsWritten, WorkerHelpers.AsWrittenAdminWithoutPassword | WorkerHelpers.ValidateAuth, WorkerHelpers.ValidateAuthBasic, WorkerHelpers.ValidateAuthNeedsPassword |
