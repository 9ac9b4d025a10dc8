/**
 * The front-end's HTTP client (src/utils/api.js): how the base address
 * is derived from the build setting and the page's host, what the
 * request and error interceptors do to the headers, the stored token and
 * the rejection, `apiUtils.formatError` and `apiUtils.batch`.
 *
 * The browser state the interceptors touch (the stored token and the
 * page address) is a small class; a call's outcome is given as a value.
 */
module ClientApi {
  import opened Wrappers
  import opened JsValue
  import Text
  import WorkerHelpers

  // -------------------------------------------------------- getApiBaseURL

  /** The address a Pages project's Worker is published under. */
  function WorkersAddress(host: string): string {
    "https://" + Text.Split(host, '.')[0] + "-api.workers.dev"
  }

  /**
   * `getApiBaseURL()`: the build setting unless it is empty or a
   * placeholder, else derived from the page's host name.
   */
  function ApiBaseUrl(envUrl: Option<string>, host: string): (r: string)
    ensures envUrl.Some? && envUrl.value != "" && !Text.Contains(envUrl.value, "placeholder") ==> r == envUrl.value
    ensures (envUrl.None? || envUrl.value == "" || Text.Contains(envUrl.value, "placeholder")) ==>
      && (Text.Contains(host, ".pages.dev") ==> r == WorkersAddress(host))
      && (!Text.Contains(host, ".pages.dev") && (host == "localhost" || host == "127.0.0.1") ==> r == "http://localhost:8787")
      && (!Text.Contains(host, ".pages.dev") && host != "localhost" && host != "127.0.0.1" ==> r == "/api")
  {
    if envUrl.Some? && envUrl.value != "" && !Text.Contains(envUrl.value, "placeholder") then envUrl.value
    else if Text.Contains(host, ".pages.dev") then WorkersAddress(host)
    else if host == "localhost" || host == "127.0.0.1" then "http://localhost:8787"
    else "/api"
  }

  /** A Pages host is named after its first label. */
  lemma PagesHost(project: string)
    requires '.' !in project
    ensures WorkersAddress(project + ".pages.dev") == "https://" + project + "-api.workers.dev"
  {
    var host := project + ".pages.dev";
    assert host == project + ['.'] + "pages.dev";
    Text.SplitPrefix(project, "pages.dev", '.');
  }

  /** The Pages rule comes first: even `localhost.pages.dev` is sent to its Worker. */
  lemma PagesBeforeLocalhost(envUrl: Option<string>, project: string)
    requires envUrl.None? && '.' !in project
    ensures ApiBaseUrl(envUrl, project + ".pages.dev") == "https://" + project + "-api.workers.dev"
  {
    var host := project + ".pages.dev";
    assert Text.OccursAt(host, ".pages.dev", |project|);
    PagesHost(project);
  }

  // ------------------------------------------------------------ interceptors

  /** Why a request failed, as axios reports it. */
  datatype Failure =
    | HttpStatus(status: int, data: Json)   // `error.response`: the server answered
    | NoResponse                            // `error.request` only: the network failed
    | Setup(error: Json)                    // neither: building the request threw

  /** How the error interceptor rejects. */
  datatype Rejection = NewError(message: string) | SameError(error: Json)

  /** The message of the error a failed response is rejected with. */
  function StatusMessage(status: int, data: Json): (m: string)
    ensures Truthy(Get(data, "message")) ==> m == ToJsString(Get(data, "message"))
    ensures !Truthy(Get(data, "message")) ==> m == "HTTP " + Text.IntToString(status) + " Error"
  {
    ToJsString(Or(Get(data, "message"), Str("HTTP " + Text.IntToString(status) + " Error")))
  }

  class Browser {
    var authToken: Option<string>   // localStorage 'auth_token'
    var location: string            // window.location.href

    constructor (token: Option<string>, href: string)
      ensures authToken == token && location == href
    {
      authToken := token;
      location := href;
    }

    /** The request interceptor: a stored token becomes a Bearer header. */
    method WithToken(headers: map<string, string>) returns (out: map<string, string>)
      ensures authToken.Some? && authToken.value != "" ==>
        "Authorization" in out && out["Authorization"] == "Bearer " + authToken.value
      ensures !(authToken.Some? && authToken.value != "") ==> out == headers
      ensures forall k :: k != "Authorization" ==> (k in out <==> k in headers) && (k in headers ==> out[k] == headers[k])
    {
      out := headers;
      if authToken.Some? && authToken.value != "" {
        out := out["Authorization" := "Bearer " + authToken.value];
      }
    }

    /**
     * The error interceptor: a 401 forgets the token and goes to the login
     * page; every failure is rejected with a readable message.
     */
    method OnFailure(failure: Failure) returns (rejection: Rejection)
      modifies this
      ensures failure.HttpStatus? ==> rejection == NewError(StatusMessage(failure.status, failure.data))
      ensures failure.NoResponse? ==> rejection == NewError("网络连接失败，请检查网络设置")
      ensures failure.Setup? ==> rejection == SameError(failure.error)
      ensures failure.HttpStatus? && failure.status == 401 ==> authToken.None? && location == "/login"
      ensures !(failure.HttpStatus? && failure.status == 401) ==> authToken == old(authToken) && location == old(location)
    {
      match failure
      case HttpStatus(status, data) =>
        if status == 401 {
          authToken := None;
          location := "/login";
        }
        rejection := NewError(StatusMessage(status, data));
      case NoResponse =>
        rejection := NewError("网络连接失败，请检查网络设置");
      case Setup(error) =>
        rejection := SameError(error);
    }
  }

  // ------------------------------------------------------------ formatError

  /**
   * `apiUtils.formatError(error)`: the server's message, else the error's
   * own, else '未知错误'; `None` when `error` itself is null or undefined.
   */
  function FormatError(error: Json): (r: Option<Json>)
    ensures r.None? <==> IsNullish(error)
    ensures r.Some? && Truthy(Get(Get(Get(error, "response"), "data"), "message")) ==>
      r.value == Get(Get(Get(error, "response"), "data"), "message")
    ensures r.Some? && !Truthy(Get(Get(Get(error, "response"), "data"), "message")) && Truthy(Get(error, "message")) ==>
      r.value == Get(error, "message")
    ensures r.Some? && !Truthy(Get(Get(Get(error, "response"), "data"), "message")) && !Truthy(Get(error, "message")) ==>
      r.value == Str("未知错误")
    ensures r.Some? ==> Truthy(r.value)
  {
    if IsNullish(error) then None
    else
      var server := Get(Get(Get(error, "response"), "data"), "message");
      if Truthy(server) then Some(server)
      else if Truthy(Get(error, "message")) then Some(Get(error, "message"))
      else Some(Str("未知错误"))
  }

  // ----------------------------------------------------------------- batch

  /** What `Promise.allSettled` reports for one call. */
  datatype Settled = Fulfilled(value: Json) | RejectedWith(reason: Json)

  function Settle(a: WorkerHelpers.Attempt): Settled {
    match a
    case Succeeds(v) => Fulfilled(v)
    case Throws(e) => RejectedWith(e)
  }

  /** The chunks `[start, end)` the loop issues from `start` on, each of `size` calls but the last. */
  function Chunks(n: nat, size: nat, start: nat): (r: seq<(nat, nat)>)
    requires size > 0
    ensures start < n <==> |r| > 0
    decreases n - start
  {
    if start >= n then [] else [(start, Min(start + size, n))] + Chunks(n, size, start + size)
  }

  /** The k-th chunk starts k chunks of `size` after `start`. */
  lemma {:induction false} ChunkAt(n: nat, size: nat, start: nat, k: nat)
    requires size > 0 && k < |Chunks(n, size, start)|
    ensures Chunks(n, size, start)[k] == (start + k * size, Min(start + k * size + size, n))
    decreases n - start
  {
    if k > 0 {
      ChunkAt(n, size, start + size, k - 1);
      assert start + size + (k - 1) * size == start + k * size;
    }
  }

  function Min(a: nat, b: nat): nat { if a < b then a else b }

  /** The chunks tile the calls: they are consecutive, non-empty, at most `size` long, and end at the last call. */
  lemma {:induction false} ChunksTile(n: nat, size: nat, start: nat)
    requires size > 0 && start <= n
    ensures var r := Chunks(n, size, start);
      && (|r| > 0 ==> r[0].0 == start && r[|r| - 1].1 == n)
      && (forall k :: 0 <= k < |r| ==> r[k].0 < r[k].1 <= r[k].0 + size)
      && (forall k :: 0 <= k < |r| - 1 ==> r[k].1 == r[k + 1].0)
    decreases n - start
  {
    if start < n {
      ChunksTile(n, size, if start + size <= n then start + size else n);
      if start + size > n {
        assert Chunks(n, size, start + size) == [];
      }
    }
  }

  /**
   * `apiUtils.batch(apiCalls, concurrency)`: the calls issued chunk by
   * chunk, `outcomes[i]` being how the i-th call ends; `rounds` are the
   * chunks in order. A non-positive `concurrency` never advances.
   */
  method Batch(outcomes: seq<WorkerHelpers.Attempt>, concurrency: int)
    returns (results: seq<Settled>, rounds: seq<(nat, nat)>)
    requires concurrency > 0
    ensures |results| == |outcomes|
    ensures forall i :: 0 <= i < |outcomes| ==> results[i] == Settle(outcomes[i])
    ensures rounds == Chunks(|outcomes|, concurrency, 0)
  {
    results := [];
    rounds := [];
    var i := 0;
    while i < |outcomes|
      invariant |results| == Min(i, |outcomes|)
      invariant forall j :: 0 <= j < |results| ==> results[j] == Settle(outcomes[j])
      invariant rounds + Chunks(|outcomes|, concurrency, i) == Chunks(|outcomes|, concurrency, 0)
      decreases |outcomes| - i
    {
      var end := Min(i + concurrency, |outcomes|);
      var settled := SettleAll(outcomes[i..end]);
      assert Chunks(|outcomes|, concurrency, i) == [(i, end)] + Chunks(|outcomes|, concurrency, i + concurrency);
      rounds := rounds + [(i, end)];
      results := results + settled;
      i := i + concurrency;
    }
  }

  /** `Promise.allSettled(batch.map(call => call()))`: one report per call, in order. */
  method SettleAll(calls: seq<WorkerHelpers.Attempt>) returns (r: seq<Settled>)
    ensures |r| == |calls| && forall j :: 0 <= j < |calls| ==> r[j] == Settle(calls[j])
  {
    r := [];
    for j := 0 to |calls|
      invariant |r| == j && forall k :: 0 <= k < j ==> r[k] == Settle(calls[k])
    {
      r := r + [Settle(calls[j])];
    }
  }
}
