/**
 * Route selection of the REST API (workers/src/handlers/api.js): the route
 * table in its insertion order, the exact `"METHOD path"` lookup, the
 * first-match scan over the dynamic `:param` patterns, and `extractParams`.
 *
 * A pattern's path becomes an anchored regular expression in which each
 * `:name` is replaced by `([^/]+)`. Every pattern of the table has its
 * parameters as whole `/`-separated segments and no other special
 * character, so that expression matches exactly the paths with as many
 * segments as the pattern, equal literal segments, and a non-empty
 * segment under each parameter. That segment comparison is what is
 * modelled here.
 */
module ApiRoutes {
  import opened Wrappers
  import opened JsValue
  import Text

  /** The keys of the `routes` object, in insertion order. */
  const Routes: seq<string> := [
    "GET /api/servers",
    "POST /api/servers",
    "PUT /api/servers/:name",
    "DELETE /api/servers/:name",
    "GET /api/servers/:name",
    "POST /api/agent/register",
    "POST /api/admin/clear-database",
    "GET /api/servers/:name/data",
    "POST /api/servers/:name/data",
    "GET /api/servers/:name/history",
    "POST /api/servers/:name/monitor",
    "POST /api/servers/:name/speedtest",
    "GET /api/servers/:name/connectivity",
    "GET /api/config",
    "POST /api/config",
    "GET /api/stats",
    "GET /api/dashboard"
  ]

  /** `const [routeMethod, routePath] = routePattern.split(' ')`. */
  function RouteMethod(key: string): string { Text.Split(key, ' ')[0] }

  function RoutePath(key: string): Option<string> {
    var parts := Text.Split(key, ' ');
    if |parts| >= 2 then Some(parts[1]) else None
  }

  predicate IsParam(segment: string) { |segment| > 0 && segment[0] == ':' }

  /** Each pattern segment matches its path segment: a parameter any non-empty one, a literal itself. */
  predicate SegmentsMatch(pattern: seq<string>, path: seq<string>) {
    |pattern| == |path|
    && forall i :: 0 <= i < |pattern| ==>
         if IsParam(pattern[i]) then path[i] != "" else path[i] == pattern[i]
  }

  /** The anchored pattern of `routePath` accepts `path`. */
  predicate PathMatches(routePath: string, path: string) {
    SegmentsMatch(Text.Split(routePath, '/'), Text.Split(path, '/'))
  }

  /** The test `matchDynamicRoute` applies to one route key. */
  predicate RouteMatches(key: string, verb: string, path: string) {
    RouteMethod(key) == verb
    && match RoutePath(key)
       case Some(p) => PathMatches(p, path)
       case None => false
  }

  /** The first route of `routes`, in order, whose pattern accepts the request. */
  function FirstMatch(routes: seq<string>, verb: string, path: string): (r: Option<nat>)
    ensures r.Some? ==> r.value < |routes| && RouteMatches(routes[r.value], verb, path)
    ensures r.Some? ==> forall j :: 0 <= j < r.value ==> !RouteMatches(routes[j], verb, path)
    ensures r.None? ==> forall j :: 0 <= j < |routes| ==> !RouteMatches(routes[j], verb, path)
  {
    if |routes| == 0 then None
    else if RouteMatches(routes[0], verb, path) then Some(0)
    else match FirstMatch(routes[1..], verb, path)
      case Some(k) => Some(k + 1)
      case None => None
  }

  /** `matchDynamicRoute(method, path, routes)`: the loop with its early return. */
  method MatchDynamicRoute(verb: string, path: string, routes: seq<string>) returns (found: Option<string>)
    ensures found.Some? <==> FirstMatch(routes, verb, path).Some?
    ensures found.Some? ==> found.value == routes[FirstMatch(routes, verb, path).value]
  {
    var i := 0;
    while i < |routes|
      invariant 0 <= i <= |routes|
      invariant forall j :: 0 <= j < i ==> !RouteMatches(routes[j], verb, path)
    {
      var key := routes[i];
      if RouteMethod(key) != verb {
        i := i + 1;
        continue;
      }
      var routePath := RoutePath(key);
      if routePath.Some? && PathMatches(routePath.value, path) {
        FirstMatchIs(routes, verb, path, i);
        return Some(key);
      }
      i := i + 1;
    }
    FirstMatchNone(routes, verb, path);
    return None;
  }

  lemma {:induction false} FirstMatchIs(routes: seq<string>, verb: string, path: string, i: nat)
    requires i < |routes| && RouteMatches(routes[i], verb, path)
    requires forall j :: 0 <= j < i ==> !RouteMatches(routes[j], verb, path)
    ensures FirstMatch(routes, verb, path) == Some(i)
  {
    if i > 0 {
      FirstMatchIs(routes[1..], verb, path, i - 1);
    }
  }

  lemma {:induction false} FirstMatchNone(routes: seq<string>, verb: string, path: string)
    requires forall j :: 0 <= j < |routes| ==> !RouteMatches(routes[j], verb, path)
    ensures FirstMatch(routes, verb, path) == None
  {
    if |routes| > 0 {
      FirstMatchNone(routes[1..], verb, path);
    }
  }

  /**
   * The handler `handleAPI` picks: the exact key first, then the first
   * dynamic match; `None` is the 404 'API endpoint not found'.
   */
  method LookupRoute(verb: string, path: string) returns (route: Option<string>)
    ensures verb + " " + path in Routes ==> route == Some(verb + " " + path)
    ensures verb + " " + path !in Routes ==>
      (route.Some? <==> FirstMatch(Routes, verb, path).Some?)
      && (route.Some? ==> route.value == Routes[FirstMatch(Routes, verb, path).value])
  {
    var key := verb + " " + path;
    if key in Routes {
      return Some(key);
    }
    route := MatchDynamicRoute(verb, path, Routes);
  }

  /** A dynamic match needs the same method and the same number of segments. */
  lemma MatchNeedsShape(key: string, verb: string, path: string)
    requires RouteMatches(key, verb, path)
    ensures RouteMethod(key) == verb
    ensures RoutePath(key).Some?
    ensures |Text.Split(path, '/')| == |Text.Split(RoutePath(key).value, '/')|
  {
  }

  /** The segments of a path written as '/'-joined segments. */
  lemma SplitPath(segments: seq<string>)
    requires |segments| >= 1 && forall i :: 0 <= i < |segments| ==> '/' !in segments[i]
    ensures Text.Split(Text.Join(segments, '/'), '/') == segments
  {
    Text.SplitJoin(segments, '/');
  }

  /** A route key is its method, one space, and its path. */
  lemma RouteKeyParts(verb: string, routePath: string)
    requires ' ' !in verb && ' ' !in routePath
    ensures RouteMethod(verb + " " + routePath) == verb
    ensures RoutePath(verb + " " + routePath) == Some(routePath)
  {
    assert verb + " " + routePath == verb + [' '] + routePath;
    Text.SplitPrefix(verb, routePath, ' ');
    Text.SplitNoSep(routePath, ' ');
  }

  /**
   * A route whose path is written as separator-free segments matches a
   * request of the same method exactly when the request's segments match
   * them one by one.
   */
  lemma RouteOfSegments(verb: string, pattern: seq<string>, path: string)
    requires ' ' !in verb && |pattern| >= 1
    requires forall i :: 0 <= i < |pattern| ==> ' ' !in pattern[i] && '/' !in pattern[i]
    ensures RouteMatches(verb + " " + Text.Join(pattern, '/'), verb, path)
        <==> SegmentsMatch(pattern, Text.Split(path, '/'))
  {
    Text.JoinExcludes(pattern, '/', ' ');
    RouteKeyParts(verb, Text.Join(pattern, '/'));
    SplitPath(pattern);
  }

  /**
   * Filling each `:name` of a pattern with a non-empty segment, and keeping
   * its literal segments, gives a path the route accepts; a request with a
   * different method is never accepted.
   */
  lemma FilledRouteMatches(verb: string, pattern: seq<string>, segments: seq<string>, other: string)
    requires ' ' !in verb && |pattern| >= 1 && |segments| == |pattern|
    requires forall i :: 0 <= i < |pattern| ==> ' ' !in pattern[i] && '/' !in pattern[i]
    requires forall i :: 0 <= i < |segments| ==> '/' !in segments[i]
    requires forall i :: 0 <= i < |pattern| ==>
      if IsParam(pattern[i]) then segments[i] != "" else segments[i] == pattern[i]
    requires other != verb
    ensures RouteMatches(verb + " " + Text.Join(pattern, '/'), verb, Text.Join(segments, '/'))
    ensures !RouteMatches(verb + " " + Text.Join(pattern, '/'), other, Text.Join(segments, '/'))
  {
    RouteOfSegments(verb, pattern, Text.Join(segments, '/'));
    SplitPath(segments);
  }

  // -------------------------------------------------------- extractParams

  /** The `params` object after visiting the first `|patternParts|` pattern segments. */
  function ParamsOf(pathParts: seq<string>, patternParts: seq<string>): seq<(string, Json)> {
    if |patternParts| == 0 then []
    else
      var i := |patternParts| - 1;
      var params := ParamsOf(pathParts, patternParts[..i]);
      if Text.StartsWith(patternParts[i], ":")
      then SetProp(params, patternParts[i][1..], if i < |pathParts| then Str(pathParts[i]) else Undefined)
      else params
  }

  /** `extractParams(path, pattern)`, the object given as its properties in order. */
  method ExtractParams(path: string, pattern: string) returns (params: seq<(string, Json)>)
    ensures params == ParamsOf(Text.Split(path, '/'), Text.Split(pattern, '/'))
  {
    var pathParts := Text.Split(path, '/');
    var patternParts := Text.Split(pattern, '/');
    params := [];
    var i := 0;
    while i < |patternParts|
      invariant 0 <= i <= |patternParts|
      invariant params == ParamsOf(pathParts, patternParts[..i])
    {
      assert patternParts[..i + 1][..i] == patternParts[..i];
      if Text.StartsWith(patternParts[i], ":") {
        var paramName := patternParts[i][1..];
        params := SetProp(params, paramName, if i < |pathParts| then Str(pathParts[i]) else Undefined);
      }
      i := i + 1;
    }
    assert patternParts[..i] == patternParts;
  }

  /** The names of the parameter segments are distinct. */
  predicate DistinctParams(patternParts: seq<string>) {
    forall i, j ::
      0 <= i < j < |patternParts| && Text.StartsWith(patternParts[i], ":") && Text.StartsWith(patternParts[j], ":")
      ==> patternParts[i][1..] != patternParts[j][1..]
  }

  /**
   * With distinct names, each `:name` holds the path segment at the same
   * index (undefined past the end of the path), and nothing else is a key.
   */
  lemma {:induction false} ParamsAtIndex(pathParts: seq<string>, patternParts: seq<string>)
    requires DistinctParams(patternParts)
    ensures forall i :: 0 <= i < |patternParts| && Text.StartsWith(patternParts[i], ":") ==>
      Get(Obj(ParamsOf(pathParts, patternParts)), patternParts[i][1..])
        == (if i < |pathParts| then Str(pathParts[i]) else Undefined)
    ensures forall k :: Has(Obj(ParamsOf(pathParts, patternParts)), k) ==>
      exists i :: 0 <= i < |patternParts| && Text.StartsWith(patternParts[i], ":") && patternParts[i][1..] == k
  {
    if |patternParts| > 0 {
      var n := |patternParts| - 1;
      var init := patternParts[..n];
      var last := patternParts[n];
      assert DistinctParams(init);
      ParamsAtIndex(pathParts, init);
      var before := ParamsOf(pathParts, init);
      if Text.StartsWith(last, ":") {
        var v := if n < |pathParts| then Str(pathParts[n]) else Undefined;
        forall i | 0 <= i < |patternParts| && Text.StartsWith(patternParts[i], ":")
          ensures Get(Obj(ParamsOf(pathParts, patternParts)), patternParts[i][1..])
            == (if i < |pathParts| then Str(pathParts[i]) else Undefined)
        {
          GetSetProp(before, last[1..], v, patternParts[i][1..]);
        }
        forall k | Has(Obj(ParamsOf(pathParts, patternParts)), k)
          ensures exists i :: 0 <= i < |patternParts| && Text.StartsWith(patternParts[i], ":") && patternParts[i][1..] == k
        {
          GetSetProp(before, last[1..], v, k);
          if k != last[1..] {
            var i :| 0 <= i < |init| && Text.StartsWith(init[i], ":") && init[i][1..] == k;
            assert patternParts[i] == init[i];
          }
        }
      } else {
        forall i | 0 <= i < |patternParts| && Text.StartsWith(patternParts[i], ":")
          ensures Get(Obj(ParamsOf(pathParts, patternParts)), patternParts[i][1..])
            == (if i < |pathParts| then Str(pathParts[i]) else Undefined)
        {
          assert i < n;
          assert patternParts[i] == init[i];
        }
        forall k | Has(Obj(ParamsOf(pathParts, patternParts)), k)
          ensures exists i :: 0 <= i < |patternParts| && Text.StartsWith(patternParts[i], ":") && patternParts[i][1..] == k
        {
          var i :| 0 <= i < |init| && Text.StartsWith(init[i], ":") && init[i][1..] == k;
          assert patternParts[i] == init[i];
        }
      }
    }
  }
}
