/**
 * The Worker's shared helpers (workers/src/utils/helpers.js): request
 * parameter validation, duration formatting, retry with exponential
 * backoff, address/port/domain validators, removal of secrets from a JSON
 * tree, client address lookup, truncation, HTML escaping and the Basic
 * branch of request authentication.
 */
module WorkerHelpers {
  import opened Wrappers
  import opened JsValue
  import Text

  // ------------------------------------------------------- validateParams

  /** A required field counts as missing when absent, null, undefined or ''. */
  predicate IsMissing(data: seq<(string, Json)>, field: string) {
    var v := Get(Obj(data), field);
    !Has(Obj(data), field) || v == Null || v == Undefined || v == Str("")
  }

  /** The missing fields, in the order of `fields`. */
  function MissingFields(data: seq<(string, Json)>, fields: seq<string>): seq<string> {
    if |fields| == 0 then []
    else
      var last := fields[|fields| - 1];
      MissingFields(data, fields[..|fields| - 1]) + (if IsMissing(data, last) then [last] else [])
  }

  /** A field is listed exactly when it is required and missing. */
  lemma {:induction false} MissingFieldsExact(data: seq<(string, Json)>, fields: seq<string>, f: string)
    ensures f in MissingFields(data, fields) <==> f in fields && IsMissing(data, f)
  {
    if |fields| > 0 {
      var init := fields[..|fields| - 1];
      MissingFieldsExact(data, init, f);
      assert fields == init + [fields[|fields| - 1]];
    }
  }

  /** `validateParams(data, requiredFields)`. */
  method ValidateParams(data: seq<(string, Json)>, requiredFields: seq<string>)
    returns (valid: bool, missing: seq<string>)
    ensures missing == MissingFields(data, requiredFields)
    ensures valid <==> forall f :: f in requiredFields ==> !IsMissing(data, f)
  {
    missing := [];
    var i := 0;
    while i < |requiredFields|
      invariant 0 <= i <= |requiredFields|
      invariant missing == MissingFields(data, requiredFields[..i])
    {
      var field := requiredFields[i];
      assert requiredFields[..i + 1][..i] == requiredFields[..i];
      if IsMissing(data, field) {
        missing := missing + [field];
      }
      i := i + 1;
    }
    assert requiredFields[..i] == requiredFields;
    valid := |missing| == 0;
    forall f | f in requiredFields
      ensures !IsMissing(data, f) || f in missing
    {
      MissingFieldsExact(data, requiredFields, f);
    }
    if |missing| > 0 {
      MissingFieldsExact(data, requiredFields, missing[0]);
    }
  }

  // ------------------------------------------------------- formatDuration

  /** The units `formatDuration` writes, largest first. */
  const DurationUnits: seq<(string, nat)> := [("d", 86400), ("h", 3600), ("m", 60), ("s", 1)]

  /** What the loop appends for `remaining` seconds and the units still to go. */
  function DurationPieces(remaining: int, units: seq<(string, nat)>): string
    requires forall j :: 0 <= j < |units| ==> units[j].1 > 0
  {
    if |units| == 0 then ""
    else if remaining >= units[0].1 then
      Text.NatToString(remaining / units[0].1) + units[0].0 + " "
        + DurationPieces(remaining % units[0].1, units[1..])
    else DurationPieces(remaining, units[1..])
  }

  /** The days/hours/minutes/seconds split of a non-negative count of seconds. */
  datatype Duration = Duration(days: nat, hours: nat, minutes: nat, seconds: nat)

  function Decompose(n: nat): (d: Duration)
    ensures d.days * 86400 + d.hours * 3600 + d.minutes * 60 + d.seconds == n
    ensures d.hours < 24 && d.minutes < 60 && d.seconds < 60
  {
    var r1 := n % 86400;
    var r2 := r1 % 3600;
    Duration(n / 86400, r1 / 3600, r2 / 60, r2 % 60)
  }

  /** One "<count><unit> " piece, omitted when the count is zero. */
  function Piece(count: nat, unit: string): string {
    if count > 0 then Text.NatToString(count) + unit + " " else ""
  }

  /** The minutes and seconds pieces of what is left under an hour. */
  lemma MinuteSecondPieces(r2: nat)
    requires r2 < 3600
    ensures DurationPieces(r2, DurationUnits[2..]) == Piece(r2 / 60, "m") + Piece(r2 % 60, "s")
  {
    var u: seq<(string, nat)> := DurationUnits[2..];
    assert |u[1..][1..]| == 0;
    assert DurationPieces(r2 % 60, u[1..]) == Piece(r2 % 60, "s");
  }

  /** The hours, minutes and seconds pieces of what is left under a day. */
  lemma HourMinuteSecondPieces(r1: nat)
    requires r1 < 86400
    ensures DurationPieces(r1, DurationUnits[1..])
      == Piece(r1 / 3600, "h") + Piece(r1 % 3600 / 60, "m") + Piece(r1 % 3600 % 60, "s")
  {
    MinuteSecondPieces(r1 % 3600);
    assert DurationUnits[1..][1..] == DurationUnits[2..];
  }

  /** The day piece, then the pieces of what is left under a day. */
  lemma DayPiece(n: nat)
    ensures DurationPieces(n, DurationUnits) == Piece(n / 86400, "d") + DurationPieces(n % 86400, DurationUnits[1..])
  {
    assert DurationUnits[0] == ("d", 86400);
    if n < 86400 {
      assert n / 86400 == 0 && n % 86400 == n;
    }
  }

  /** The loop writes exactly the non-zero components of the decomposition. */
  lemma DurationPiecesAreComponents(n: nat)
    ensures var d := Decompose(n);
      DurationPieces(n, DurationUnits)
        == Piece(d.days, "d") + Piece(d.hours, "h") + Piece(d.minutes, "m") + Piece(d.seconds, "s")
  {
    var r1 := n % 86400;
    var r2 := r1 % 3600;
    assert Decompose(n) == Duration(n / 86400, r1 / 3600, r2 / 60, r2 % 60);
    HourMinuteSecondPieces(r1);
    DayPiece(n);
    ConcatRegroup(Piece(n / 86400, "d"), Piece(r1 / 3600, "h"), Piece(r2 / 60, "m"), Piece(r2 % 60, "s"));
  }

  lemma ConcatRegroup(a: string, b: string, c: string, d: string)
    ensures a + (b + c + d) == a + b + c + d
  {
  }

  lemma ConcatAssoc(a: string, b: string, c: string)
    ensures a + b + c == a + (b + c)
  {
  }

  /** `formatDuration(seconds)` on a value that is not a number. */
  const ZeroDuration := "0s"

  /** `formatDuration(seconds)`: the loop over the units, then `trim() || '0s'`. */
  method FormatDuration(seconds: Json) returns (r: string)
    ensures !seconds.Num? ==> r == ZeroDuration
    ensures seconds.Num? && seconds.n <= 0 ==> r == ZeroDuration
    ensures seconds.Num? && seconds.n > 0 ==>
      var d := Decompose(seconds.n);
      r == Text.Trim(Piece(d.days, "d") + Piece(d.hours, "h") + Piece(d.minutes, "m") + Piece(d.seconds, "s"))
  {
    if !seconds.Num? {
      return ZeroDuration;
    }
    var result := AppendDurationPieces(seconds.n);
    var trimmed := Text.Trim(result);
    r := if trimmed == "" then ZeroDuration else trimmed;
    if seconds.n <= 0 {
      NoPiecesForNonPositive(seconds.n, DurationUnits);
    } else {
      DurationPiecesAreComponents(seconds.n);
      PositiveDurationHasPieces(seconds.n);
    }
  }

  /** The loop of `formatDuration`: one piece per unit that fits into what remains. */
  method AppendDurationPieces(n: int) returns (result: string)
    ensures result == DurationPieces(n, DurationUnits)
  {
    result := "";
    var remaining := n;
    var units := DurationUnits;
    var i := 0;
    while i < |units|
      invariant 0 <= i <= |units|
      invariant result + DurationPieces(remaining, units[i..]) == DurationPieces(n, units)
    {
      var unit := units[i];
      DurationPiecesStep(remaining, units, i);
      if remaining >= unit.1 {
        var piece := Text.NatToString(remaining / unit.1) + unit.0 + " ";
        ConcatAssoc(result, piece, DurationPieces(remaining % unit.1, units[i + 1..]));
        result := result + piece;
        remaining := remaining % unit.1;
      }
      i := i + 1;
    }
    assert |units[i..]| == 0;
  }

  /** One unit of the loop: its piece, if it fits, then the pieces of the units after it. */
  lemma DurationPiecesStep(remaining: int, units: seq<(string, nat)>, i: nat)
    requires i < |units| && forall j :: 0 <= j < |units| ==> units[j].1 > 0
    ensures DurationPieces(remaining, units[i..]) ==
      if remaining >= units[i].1 then
        Text.NatToString(remaining / units[i].1) + units[i].0 + " " + DurationPieces(remaining % units[i].1, units[i + 1..])
      else DurationPieces(remaining, units[i + 1..])
  {
    assert units[i..][1..] == units[i + 1..];
  }

  lemma {:induction false} NoPiecesForNonPositive(n: int, units: seq<(string, nat)>)
    requires n <= 0
    requires forall j :: 0 <= j < |units| ==> units[j].1 > 0
    ensures DurationPieces(n, units) == ""
  {
    if |units| > 0 {
      NoPiecesForNonPositive(n, units[1..]);
    }
  }

  /** A positive count of seconds writes at least one piece that survives trimming. */
  lemma PositiveDurationHasPieces(n: nat)
    requires n > 0
    ensures Text.Trim(DurationPieces(n, DurationUnits)) != ""
  {
    DurationPiecesAreComponents(n);
    var d := Decompose(n);
    var p := Piece(d.days, "d") + Piece(d.hours, "h") + Piece(d.minutes, "m") + Piece(d.seconds, "s");
    var first :=
      if d.days > 0 then Piece(d.days, "d")
      else if d.hours > 0 then Piece(d.hours, "h")
      else if d.minutes > 0 then Piece(d.minutes, "m")
      else Piece(d.seconds, "s");
    assert first != "" && Text.IsDigit(first[0]);
    assert p[0] == first[0];
    assert !Text.IsJsWhitespace(p[0]);
    assert Text.TrimStart(p) == p;
    assert Text.TrimEnd(p) != "";
  }

  // ---------------------------------------------------------------- retry

  /** What one call of the retried function does. */
  datatype Attempt = Succeeds(value: Json) | Throws(error: Json)

  /** How the retry settles; a non-positive attempt limit resolves to undefined. */
  datatype RetryResult = Resolved(value: Json) | Rejected(error: Json)

  /** Index of the first success among the first `limit` outcomes. */
  function FirstSuccess(outcomes: seq<Attempt>, limit: nat): (r: Option<nat>)
    requires limit <= |outcomes|
    ensures r.Some? ==> r.value < limit && outcomes[r.value].Succeeds?
    ensures r.Some? ==> forall j :: 0 <= j < r.value ==> outcomes[j].Throws?
    ensures r.None? ==> forall j :: 0 <= j < limit ==> outcomes[j].Throws?
  {
    if limit == 0 then None
    else match FirstSuccess(outcomes, limit - 1)
      case Some(k) => Some(k)
      case None => if outcomes[limit - 1].Succeeds? then Some(limit - 1) else None
  }

  function Pow2(k: nat): (p: nat)
    ensures p >= 1
  {
    if k == 0 then 1 else 2 * Pow2(k - 1)
  }

  /**
   * `retry(fn, maxAttempts, delay)`, with the outcome of the k-th call of
   * `fn` given as `outcomes[k]`. Returns how the promise settles, how many
   * calls were made, and the waits slept between them.
   */
  method Retry(outcomes: seq<Attempt>, maxAttempts: int, delay: int)
    returns (result: RetryResult, calls: nat, waits: seq<int>)
    requires maxAttempts <= |outcomes|
    ensures maxAttempts <= 0 ==> result == Resolved(Undefined) && calls == 0 && waits == []
    ensures maxAttempts > 0 ==> match FirstSuccess(outcomes, maxAttempts)
      case Some(k) => result == Resolved(outcomes[k].value) && calls == k + 1
      case None => result == Rejected(outcomes[maxAttempts - 1].error) && calls == maxAttempts
    ensures calls > 0 ==> |waits| == calls - 1
    ensures forall j :: 0 <= j < |waits| ==> waits[j] == delay * Pow2(j)
  {
    waits := [];
    calls := 0;
    var attempt := 1;
    while attempt <= maxAttempts
      invariant 1 <= attempt <= (if maxAttempts > 0 then maxAttempts else 1)
      invariant calls == attempt - 1
      invariant FirstSuccess(outcomes, attempt - 1).None?
      invariant |waits| == attempt - 1
      invariant forall j :: 0 <= j < |waits| ==> waits[j] == delay * Pow2(j)
      decreases maxAttempts - attempt
    {
      calls := calls + 1;
      match outcomes[attempt - 1]
      case Succeeds(v) =>
        return Resolved(v), calls, waits;
      case Throws(e) =>
        if attempt == maxAttempts {
          return Rejected(e), calls, waits;
        }
        waits := waits + [delay * Pow2(attempt - 1)];
        attempt := attempt + 1;
    }
    result := Resolved(Undefined);
  }

  // ------------------------------------------------------------ isValidIP

  /** One IPv4 octet of the source's pattern: 1 to 3 digits worth at most 255. */
  predicate IsOctet(p: string) {
    1 <= |p| <= 3 && Text.AllDigits(p) && Text.ValueOf(p, 10) <= 255
  }

  /** The dotted-quad pattern of `isValidIP`: it accepts only digits and dots, and some dot. */
  predicate IsValidIPv4(s: string)
    ensures IsValidIPv4(s) ==> '.' in s && forall k :: 0 <= k < |s| ==> Text.IsDigit(s[k]) || s[k] == '.'
  {
    var parts := Text.Split(s, '.');
    Text.SplitChars(s, '.', Text.IsDigit);
    |parts| == 4 && forall i :: 0 <= i < 4 ==> IsOctet(parts[i])
  }

  /** One group of the IPv6 pattern: 1 to 4 hexadecimal digits. */
  predicate IsHexGroup(p: string) {
    1 <= |p| <= 4 && forall i :: 0 <= i < |p| ==> Text.IsHexDigit(p[i])
  }

  /** Eight colon-separated groups, no abbreviation: only hexadecimal digits and colons, and some colon. */
  predicate IsValidIPv6(s: string)
    ensures IsValidIPv6(s) ==> ':' in s && forall k :: 0 <= k < |s| ==> Text.IsHexDigit(s[k]) || s[k] == ':'
  {
    var parts := Text.Split(s, ':');
    Text.SplitChars(s, ':', Text.IsHexDigit);
    |parts| == 8 && forall i :: 0 <= i < 8 ==> IsHexGroup(parts[i])
  }

  /** An accepted IPv6 address holds a ':' and no '.', so it is never an IPv4 address. */
  lemma IPv6HasColonNoDot(s: string)
    requires IsValidIPv6(s)
    ensures ':' in s && '.' !in s
  {
    var parts := Text.Split(s, ':');
    Text.JoinSplit(s, ':');
    assert s == parts[0] + [':'] + Text.Join(parts[1..], ':');
    assert s[|parts[0]|] == ':';
    forall i | 0 <= i < |parts|
      ensures '.' !in parts[i]
    {
      assert forall k :: 0 <= k < |parts[i]| ==> Text.IsHexDigit(parts[i][k]);
    }
    Text.JoinExcludes(parts, ':', '.');
  }

  /** `isValidIP(ip)` of the Worker: the IPv4 or the full IPv6 pattern, never both at once. */
  predicate IsValidIP(s: string)
    ensures IsValidIP(s) <==> (IsValidIPv4(s) != IsValidIPv6(s))
  {
    IsValidIPv4(s) || IsValidIPv6(s)
  }

  /** The dotted quad written from four numbers. */
  function FormatIPv4(a: nat, b: nat, c: nat, d: nat): string {
    Text.Join([Text.NatToString(a), Text.NatToString(b), Text.NatToString(c), Text.NatToString(d)], '.')
  }

  lemma OctetOfByte(n: nat)
    requires n <= 255
    ensures IsOctet(Text.NatToString(n))
  {
    Text.ValueOfNatToString(n);
    if n >= 10 {
      assert |Text.NatToString(n / 10)| <= 2 by {
        if n / 10 >= 10 {
          assert |Text.NatToString(n / 100)| == 1;
        }
      }
    }
  }

  lemma NoDotInDigits(s: string)
    requires Text.AllDigits(s)
    ensures '.' !in s && ':' !in s
  {
  }

  /** Every dotted quad of byte values is accepted. */
  lemma FormatIPv4IsValid(a: nat, b: nat, c: nat, d: nat)
    requires a <= 255 && b <= 255 && c <= 255 && d <= 255
    ensures IsValidIPv4(FormatIPv4(a, b, c, d))
    ensures IsValidIP(FormatIPv4(a, b, c, d))
  {
    var parts := [Text.NatToString(a), Text.NatToString(b), Text.NatToString(c), Text.NatToString(d)];
    forall i | 0 <= i < 4 ensures '.' !in parts[i] && IsOctet(parts[i]) {
      NoDotInDigits(parts[i]);
      var n := [a, b, c, d][i];
      OctetOfByte(n);
    }
    Text.SplitJoin(parts, '.');
  }

  /** An accepted address has exactly four byte values joined by dots. */
  lemma ValidIPv4Octets(s: string)
    requires IsValidIPv4(s)
    ensures var parts := Text.Split(s, '.');
      s == Text.Join(parts, '.') && forall i :: 0 <= i < 4 ==> Text.ValueOf(parts[i], 10) <= 255
  {
    Text.JoinSplit(s, '.');
  }

  // ---------------------------------------------------------- isValidPort

  /**
   * `isValidPort(port)`: `parseInt` of its text is an integer in 1..65535.
   * A boolean, null, undefined or an object has no leading integer and fails.
   */
  predicate IsValidPort(port: Json)
    ensures port.Bool? || port.Null? || port.Undefined? || port.Obj? ==> !IsValidPort(port)
  {
    Text.ParseIntNoDigit(ToJsString(port));
    match Text.ParseInt(ToJsString(port))
    case Some(p) => 1 <= p <= 65535
    case None => false
  }

  /**
   * A numeric port is valid exactly when it lies in 1..65535. For a number
   * this is stated below 10^21, where `String(n)` is its decimal digits.
   */
  lemma ValidNumericPort(n: int)
    ensures -1_000_000_000_000_000_000_000 < n < 1_000_000_000_000_000_000_000 ==>
      (IsValidPort(Num(n)) <==> 1 <= n <= 65535)
    ensures IsValidPort(Str(Text.IntToString(n))) <==> 1 <= n <= 65535
  {
    Text.ParseIntOfIntToString(n);
  }

  // -------------------------------------------------------- isValidDomain

  predicate IsAlnum(c: char) { Text.IsDigit(c) || Text.IsAsciiLetter(c) }

  /** One label: 1 to 63 letters, digits or '-', not starting or ending with '-'. */
  predicate IsLabel(l: string) {
    1 <= |l| <= 63 && IsAlnum(l[0]) && IsAlnum(l[|l| - 1])
    && forall i :: 0 <= i < |l| ==> IsAlnum(l[i]) || l[i] == '-'
  }

  /**
   * `isValidDomain(domain)`: dot-separated labels, at least one; so a
   * non-empty string of ASCII letters, digits, '-' and '.'.
   */
  predicate IsValidDomain(s: string)
    ensures IsValidDomain(s) ==> |s| > 0 && forall k :: 0 <= k < |s| ==> IsAlnum(s[k]) || s[k] == '-' || s[k] == '.'
  {
    var labels := Text.Split(s, '.');
    Text.SplitChars(s, '.', c => IsAlnum(c) || c == '-');
    assert |s| == 0 ==> !IsLabel(labels[0]);
    forall i :: 0 <= i < |labels| ==> IsLabel(labels[i])
  }

  /** Joining valid labels with dots gives a valid domain, and splits back into them. */
  lemma JoinLabelsIsDomain(labels: seq<string>)
    requires |labels| >= 1
    requires forall i :: 0 <= i < |labels| ==> IsLabel(labels[i])
    ensures IsValidDomain(Text.Join(labels, '.'))
    ensures Text.Split(Text.Join(labels, '.'), '.') == labels
  {
    assert forall i :: 0 <= i < |labels| ==> '.' !in labels[i];
    Text.SplitJoin(labels, '.');
  }

  /** Every address the IPv4 pattern accepts is also a well-formed domain name. */
  lemma IPv4IsDomain(s: string)
    requires IsValidIPv4(s)
    ensures IsValidDomain(s)
  {
    var parts := Text.Split(s, '.');
    forall i | 0 <= i < |parts| ensures IsLabel(parts[i]) {
      assert IsOctet(parts[i]);
    }
  }

  // --------------------------------------------------------- sanitizeData

  /** The fields `sanitizeData` hides when the caller names none. */
  const DefaultSensitiveFields: seq<string> := ["password", "secret", "token", "key"]

  /** The mask written over a sensitive value. */
  const Mask := Str("***")

  /** The lower-cased key contains one of the sensitive words (compared as given). */
  predicate IsSensitive(key: string, sensitive: seq<string>) {
    exists f :: f in sensitive && Text.Contains(Text.ToLower(key), f)
  }

  /**
   * What `cleanObject` leaves in the clone: a sensitive key's value becomes
   * '***', any other value whose `typeof` is 'object' is cleaned in turn.
   * An array is visited under its index keys "0", "1", ...
   */
  function Clean(v: Json, sensitive: seq<string>): Json
    decreases v
  {
    match v
    case Obj(props) =>
      Obj(seq(|props|, j requires 0 <= j < |props| =>
        (assert props[j] in props;
         (props[j].0,
          if IsSensitive(props[j].0, sensitive) then Mask
          else if TypeOf(props[j].1) == "object" then Clean(props[j].1, sensitive)
          else props[j].1))))
    case Arr(items) =>
      Arr(seq(|items|, j requires 0 <= j < |items| =>
        (assert items[j] in items;
         if IsSensitive(Text.NatToString(j), sensitive) then Mask
         else if TypeOf(items[j]) == "object" then Clean(items[j], sensitive)
         else items[j])))
    case _ => v
  }

  /** `sanitizeData(data, sensitiveFields)`: a cleaned deep copy; the input is untouched. */
  function SanitizeData(data: Json, sensitive: seq<string>): (r: Json)
    ensures TypeOf(r) == TypeOf(data)
    ensures data.Obj? ==>
      r.Obj? && |r.props| == |data.props| && forall j :: 0 <= j < |data.props| ==> r.props[j].0 == data.props[j].0
    ensures data.Arr? ==> r.Arr? && |r.items| == |data.items|
    ensures !data.Obj? && !data.Arr? ==> r == data
  {
    Clean(data, sensitive)
  }

  /** At every depth, a sensitive key holds the mask. */
  predicate Sanitized(v: Json, sensitive: seq<string>)
    decreases v
  {
    match v
    case Obj(props) =>
      forall j :: 0 <= j < |props| ==>
        (assert props[j] in props;
         if IsSensitive(props[j].0, sensitive) then props[j].1 == Mask else Sanitized(props[j].1, sensitive))
    case Arr(items) =>
      forall j :: 0 <= j < |items| ==>
        (assert items[j] in items;
         if IsSensitive(Text.NatToString(j), sensitive) then items[j] == Mask else Sanitized(items[j], sensitive))
    case _ => true
  }

  /** No sensitive value survives `sanitizeData`, however deep. */
  lemma {:induction false} SanitizeLeavesNoSecret(v: Json, sensitive: seq<string>)
    ensures Sanitized(SanitizeData(v, sensitive), sensitive)
    decreases v
  {
    match v
    case Obj(props) =>
      var r := SanitizeData(v, sensitive).props;
      forall j | 0 <= j < |r|
        ensures if IsSensitive(r[j].0, sensitive) then r[j].1 == Mask else Sanitized(r[j].1, sensitive)
      {
        assert props[j] in props;
        if !IsSensitive(props[j].0, sensitive) {
          SanitizeLeavesNoSecret(props[j].1, sensitive);
        }
      }
    case Arr(items) =>
      var r := SanitizeData(v, sensitive).items;
      forall j | 0 <= j < |r|
        ensures if IsSensitive(Text.NatToString(j), sensitive) then r[j] == Mask else Sanitized(r[j], sensitive)
      {
        assert items[j] in items;
        if !IsSensitive(Text.NatToString(j), sensitive) {
          SanitizeLeavesNoSecret(items[j], sensitive);
        }
      }
    case _ =>
  }

  /** Sanitizing twice changes nothing more. */
  lemma {:induction false} SanitizeIdempotent(v: Json, sensitive: seq<string>)
    ensures SanitizeData(SanitizeData(v, sensitive), sensitive) == SanitizeData(v, sensitive)
    decreases v
  {
    var once := SanitizeData(v, sensitive);
    match v
    case Obj(props) =>
      var twice := SanitizeData(once, sensitive);
      forall j | 0 <= j < |props| ensures twice.props[j] == once.props[j] {
        assert props[j] in props;
        if !IsSensitive(props[j].0, sensitive) && TypeOf(props[j].1) == "object" {
          SanitizeIdempotent(props[j].1, sensitive);
        }
      }
    case Arr(items) =>
      var twice := SanitizeData(once, sensitive);
      forall j | 0 <= j < |items| ensures twice.items[j] == once.items[j] {
        assert items[j] in items;
        if !IsSensitive(Text.NatToString(j), sensitive) && TypeOf(items[j]) == "object" {
          SanitizeIdempotent(items[j], sensitive);
        }
      }
    case _ =>
  }

  /** With no sensitive key anywhere, `sanitizeData` returns an equal copy. */
  predicate NoSensitiveKey(v: Json, sensitive: seq<string>)
    decreases v
  {
    match v
    case Obj(props) =>
      forall j :: 0 <= j < |props| ==>
        (assert props[j] in props;
         !IsSensitive(props[j].0, sensitive) && NoSensitiveKey(props[j].1, sensitive))
    case Arr(items) =>
      forall j :: 0 <= j < |items| ==>
        (assert items[j] in items;
         !IsSensitive(Text.NatToString(j), sensitive) && NoSensitiveKey(items[j], sensitive))
    case _ => true
  }

  lemma {:induction false} SanitizeKeepsPublicData(v: Json, sensitive: seq<string>)
    requires NoSensitiveKey(v, sensitive)
    ensures SanitizeData(v, sensitive) == v
    decreases v
  {
    match v
    case Obj(props) =>
      var r := SanitizeData(v, sensitive).props;
      forall j | 0 <= j < |props| ensures r[j] == props[j] {
        assert props[j] in props;
        SanitizeKeepsPublicData(props[j].1, sensitive);
      }
    case Arr(items) =>
      var r := SanitizeData(v, sensitive).items;
      forall j | 0 <= j < |items| ensures r[j] == items[j] {
        assert items[j] in items;
        SanitizeKeepsPublicData(items[j], sensitive);
      }
    case _ =>
  }

  /**
   * In any tree, a key that is not sensitive keeps its value: a leaf as it
   * was, an object or array sanitized in turn (the mask reaches it only
   * through its own sensitive keys).
   */
  lemma SanitizeKeepsNonSensitive(v: Json, sensitive: seq<string>, j: nat)
    ensures v.Obj? && j < |v.props| && !IsSensitive(v.props[j].0, sensitive) ==>
      SanitizeData(v, sensitive).props[j] ==
        (v.props[j].0, if TypeOf(v.props[j].1) == "object" then SanitizeData(v.props[j].1, sensitive)
                       else v.props[j].1)
    ensures v.Arr? && j < |v.items| && !IsSensitive(Text.NatToString(j), sensitive) ==>
      SanitizeData(v, sensitive).items[j] ==
        (if TypeOf(v.items[j]) == "object" then SanitizeData(v.items[j], sensitive) else v.items[j])
  {
  }

  /** A non-sensitive key whose subtree holds no sensitive key comes back unchanged. */
  lemma SanitizeKeepsPublicEntry(v: Json, sensitive: seq<string>, j: nat)
    requires v.Obj? && j < |v.props| && !IsSensitive(v.props[j].0, sensitive)
    requires NoSensitiveKey(v.props[j].1, sensitive)
    ensures SanitizeData(v, sensitive).props[j] == v.props[j]
  {
    SanitizeKeepsNonSensitive(v, sensitive, j);
    SanitizeKeepsPublicData(v.props[j].1, sensitive);
  }

  /** Keys such as 'Password' and 'api_key' are masked by the default list. */
  lemma DefaultListMasksVariants()
    ensures IsSensitive("Password", DefaultSensitiveFields)
    ensures IsSensitive("api_key", DefaultSensitiveFields)
  {
    UpperCasePasswordIsSensitive();
    ApiKeyIsSensitive();
  }

  lemma UpperCasePasswordIsSensitive()
    ensures IsSensitive("Password", DefaultSensitiveFields)
  {
    var lower := Text.ToLower("Password");
    assert lower == "password";
    assert Text.OccursAt(lower, "password", 0);
    assert Text.Contains(lower, "password") && "password" in DefaultSensitiveFields;
  }

  lemma ApiKeyIsSensitive()
    ensures IsSensitive("api_key", DefaultSensitiveFields)
  {
    var lower := Text.ToLower("api_key");
    assert lower == "api_key";
    assert lower[4..7] == "key";
    assert Text.OccursAt(lower, "key", 4);
    assert Text.Contains(lower, "key") && "key" in DefaultSensitiveFields;
  }

  // ---------------------------------------------------------- getClientIP

  /**
   * A request header as `headers.get` and a truthiness test see it; absent
   * is ''. A `Headers` object keeps names in lower case and lower-cases the
   * name it is asked for, so the map is keyed by lower-case names and
   * every lookup uses one.
   */
  function Header(headers: map<string, string>, name: string): string {
    if name in headers then headers[name] else ""
  }

  /** `getClientIP(request)`. */
  function GetClientIP(headers: map<string, string>): (ip: string)
    ensures Header(headers, "cf-connecting-ip") != "" ==> ip == Header(headers, "cf-connecting-ip")
    ensures Header(headers, "cf-connecting-ip") == "" && Header(headers, "x-forwarded-for") != "" ==>
      ',' !in ip && ip == Text.Trim(Text.Split(Header(headers, "x-forwarded-for"), ',')[0])
    ensures Header(headers, "cf-connecting-ip") == "" && Header(headers, "x-forwarded-for") == "" ==>
      ip == (if Header(headers, "x-real-ip") != "" then Header(headers, "x-real-ip") else "unknown")
  {
    var cf := Header(headers, "cf-connecting-ip");
    var xff := Header(headers, "x-forwarded-for");
    var realIP := Header(headers, "x-real-ip");
    if cf != "" then cf
    else if xff != "" then
      var first := Text.Split(xff, ',')[0];
      var t := Text.Trim(first);
      t
    else if realIP != "" then realIP
    else "unknown"
  }

  /** Behind a chain of proxies, the client is the first hop of X-Forwarded-For. */
  lemma ClientIsFirstForwardedHop(headers: map<string, string>, hops: seq<string>)
    requires |hops| >= 1 && forall i :: 0 <= i < |hops| ==> ',' !in hops[i]
    requires Header(headers, "cf-connecting-ip") == ""
    requires Header(headers, "x-forwarded-for") == Text.Join(hops, ',') != ""
    ensures GetClientIP(headers) == Text.Trim(hops[0])
  {
    FirstHop(Header(headers, "x-forwarded-for"), hops);
  }

  /** The first piece of a join is its first part. */
  lemma FirstHop(xff: string, hops: seq<string>)
    requires |hops| >= 1 && forall i :: 0 <= i < |hops| ==> ',' !in hops[i]
    requires xff == Text.Join(hops, ',')
    ensures Text.Split(xff, ',')[0] == hops[0]
  {
    Text.SplitJoin(hops, ',');
  }

  // ------------------------------------------------------- truncateString

  /** The length `truncateString` keeps when the caller gives none. */
  const DefaultMaxLength := 100

  /** `truncateString(str, maxLength)`. */
  function TruncateString(str: Json, maxLength: int): (r: string)
    ensures !str.Str? ==> r == ""
    ensures str.Str? && |str.s| <= maxLength ==> r == str.s
    ensures str.Str? && |str.s| > maxLength ==>
      var keep := if maxLength < 0 then 0 else maxLength;
      |r| == keep + 3 && r[..keep] == str.s[..keep] && r[keep..] == "..."
  {
    match str
    case Str(s) =>
      if |s| > maxLength then s[..if maxLength < 0 then 0 else maxLength] + "..." else s
    case _ => ""
  }

  // ----------------------------------------------------------- escapeHtml

  /** The five characters `escapeHtml` replaces. */
  predicate IsMarkup(c: char) { c == '&' || c == '<' || c == '>' || c == '"' || c == '\'' }

  function EscapeChar(c: char): string {
    if c == '&' then "&amp;"
    else if c == '<' then "&lt;"
    else if c == '>' then "&gt;"
    else if c == '"' then "&quot;"
    else if c == '\'' then "&#039;"
    else [c]
  }

  /** `escapeHtml(text)`: the output holds no '<', '>', '"' or "'". */
  function EscapeHtml(text: string): (r: string)
    ensures forall i :: 0 <= i < |r| ==> r[i] == '&' || !IsMarkup(r[i])
  {
    if |text| == 0 then "" else EscapeChar(text[0]) + EscapeHtml(text[1..])
  }

  /** The character and the length of the entity `t` starts with, if any. */
  function EntityAt(t: string): (r: Option<(char, nat)>)
    ensures r.Some? ==> 1 <= r.value.1 <= |t|
  {
    if Text.StartsWith(t, "&amp;") then Some(('&', 5))
    else if Text.StartsWith(t, "&lt;") then Some(('<', 4))
    else if Text.StartsWith(t, "&gt;") then Some(('>', 4))
    else if Text.StartsWith(t, "&quot;") then Some(('"', 6))
    else if Text.StartsWith(t, "&#039;") then Some(('\'', 6))
    else None
  }

  /** Reading the five entities back into their characters. */
  function UnescapeHtml(t: string): string
    decreases |t|
  {
    if |t| == 0 then ""
    else match EntityAt(t)
      case Some(entity) => [entity.0] + UnescapeHtml(t[entity.1..])
      case None => [t[0]] + UnescapeHtml(t[1..])
  }

  lemma EntityOfEscapedChar(c: char, rest: string)
    ensures EntityAt(EscapeChar(c) + rest) == if IsMarkup(c) then Some((c, |EscapeChar(c)|)) else None
  {
    var t := EscapeChar(c) + rest;
    if c == '&' {
      assert t[..5] == "&amp;";
    } else if c == '<' {
      assert t[..4] == "&lt;" && t[1] == 'l';
    } else if c == '>' {
      assert t[..4] == "&gt;" && t[1] == 'g';
    } else if c == '"' {
      assert t[..6] == "&quot;" && t[1] == 'q';
    } else if c == '\'' {
      assert t[..6] == "&#039;" && t[1] == '#';
    } else {
      assert t[0] == c;
    }
  }

  lemma UnescapeEscapedChar(c: char, rest: string)
    ensures UnescapeHtml(EscapeChar(c) + rest) == [c] + UnescapeHtml(rest)
  {
    var e := EscapeChar(c);
    EntityOfEscapedChar(c, rest);
    assert (e + rest)[|e|..] == rest;
  }

  /** Unescaping undoes `escapeHtml`. */
  lemma {:induction false} UnescapeEscape(s: string)
    ensures UnescapeHtml(EscapeHtml(s)) == s
  {
    if |s| > 0 {
      UnescapeEscape(s[1..]);
      UnescapeEscapedChar(s[0], EscapeHtml(s[1..]));
      assert [s[0]] + s[1..] == s;
    }
  }

  /** Text without the five characters passes through unchanged. */
  lemma {:induction false} EscapePlainText(s: string)
    requires forall i :: 0 <= i < |s| ==> !IsMarkup(s[i])
    ensures EscapeHtml(s) == s
  {
    if |s| > 0 {
      EscapePlainText(s[1..]);
      assert [s[0]] + s[1..] == s;
    }
  }

  // --------------------------------------------------------- validateAuth

  /** A header cannot start with both schemes. */
  lemma SchemesDisjoint(h: string)
    ensures !(Text.StartsWith(h, "Basic ") && Text.StartsWith(h, "Bearer "))
  {
    if Text.StartsWith(h, "Basic ") {
      assert h[1] == 'a';
    }
  }

  /** `{valid: true, payload: {username}}` or `{valid: false, error}`. */
  datatype AuthResult = Authorized(username: string) | Denied(error: string)

  /** `username` and `password` of `const [username, password] = credentials.split(':')`. */
  function Username(credentials: string): string { Text.Split(credentials, ':')[0] }

  function Password(credentials: string): Json {
    var parts := Text.Split(credentials, ':');
    if |parts| >= 2 then Str(parts[1]) else Undefined
  }

  /**
   * `validateAuth(request, env)` as written. `adminPassword` is
   * `env?.ADMIN_PASSWORD` (undefined when the caller passes no `env`),
   * `tokenCheck` is what `verifyAPIToken` resolves to, and `atob` decodes
   * Base64 (`None` when it throws).
   */
  function ValidateAuthAsWritten(authHeader: string, adminPassword: Json, tokenCheck: AuthResult,
                                 atob: string -> Option<string>): (r: AuthResult)
    ensures authHeader == "" ==> r == Denied("No authorization header")
    ensures r.Authorized? && Text.StartsWith(authHeader, "Basic ") ==>
      r.username == "admin" && atob(authHeader[6..]).Some?
      && StrictEq(Password(atob(authHeader[6..]).value), adminPassword)
  {
    SchemesDisjoint(authHeader);
    if authHeader == "" then Denied("No authorization header")
    else if Text.StartsWith(authHeader, "Bearer ") then tokenCheck
    else if Text.StartsWith(authHeader, "Basic ") then
      match atob(authHeader[6..])
      case None => Denied("Authentication failed")
      case Some(credentials) =>
        if Username(credentials) == "admin" && StrictEq(Password(credentials), adminPassword)
        then Authorized("admin")
        else Denied("Invalid credentials")
    else Denied("Invalid authorization format")
  }

  /**
   * The API handlers call `validateAuth(request)` without `env`, so the
   * configured password is undefined: the bare user name 'admin' with no
   * password is let in, and 'admin:<password>' never is.
   */
  lemma AsWrittenAdminWithoutPassword(header: string, tokenCheck: AuthResult, atob: string -> Option<string>)
    requires Text.StartsWith(header, "Basic ")
    ensures atob(header[6..]) == Some("admin") ==>
      ValidateAuthAsWritten(header, Undefined, tokenCheck, atob) == Authorized("admin")
    ensures forall p :: atob(header[6..]) == Some("admin:" + p) ==>
      ValidateAuthAsWritten(header, Undefined, tokenCheck, atob) == Denied("Invalid credentials")
  {
    SchemesDisjoint(header);
    if atob(header[6..]) == Some("admin") {
      NoSepSplit("admin");
      assert Username("admin") == "admin" && Password("admin") == Undefined;
    }
    forall p | atob(header[6..]) == Some("admin:" + p)
      ensures ValidateAuthAsWritten(header, Undefined, tokenCheck, atob) == Denied("Invalid credentials")
    {
      var credentials := "admin:" + p;
      assert credentials == "admin" + [':'] + p;
      Text.SplitPrefix("admin", p, ':');
      assert Username(credentials) == "admin" && Password(credentials).Str?;
    }
  }

  lemma NoSepSplit(s: string)
    requires ':' !in s
    ensures Text.Split(s, ':') == [s]
  {
    Text.SplitNoSep(s, ':');
  }

  /**
   * The evidently intended check: Basic credentials pass only when a
   * password is configured and the decoded text carries that password.
   */
  function ValidateAuth(authHeader: string, adminPassword: Json, tokenCheck: AuthResult,
                        atob: string -> Option<string>): (r: AuthResult)
    ensures authHeader == "" ==> r == Denied("No authorization header")
    ensures r.Authorized? && Text.StartsWith(authHeader, "Basic ") ==>
      adminPassword.Str? && atob(authHeader[6..]).Some?
      && Username(atob(authHeader[6..]).value) == "admin"
      && Password(atob(authHeader[6..]).value) == adminPassword
  {
    SchemesDisjoint(authHeader);
    if authHeader == "" then Denied("No authorization header")
    else if Text.StartsWith(authHeader, "Bearer ") then tokenCheck
    else if Text.StartsWith(authHeader, "Basic ") then
      match atob(authHeader[6..])
      case None => Denied("Authentication failed")
      case Some(credentials) =>
        if adminPassword.Str? && Username(credentials) == "admin" && Password(credentials) == adminPassword
        then Authorized("admin")
        else Denied("Invalid credentials")
    else Denied("Invalid authorization format")
  }

  /** 'admin:<password>' is let in exactly when `<password>` is the configured one. */
  lemma ValidateAuthBasic(header: string, password: string, configured: Json, tokenCheck: AuthResult,
                          atob: string -> Option<string>)
    requires Text.StartsWith(header, "Basic ") && ':' !in password
    requires atob(header[6..]) == Some("admin:" + password)
    ensures ValidateAuth(header, configured, tokenCheck, atob) == Authorized("admin")
        <==> configured == Str(password)
  {
    assert "admin:" + password == "admin" + [':'] + password;
    Text.SplitPrefix("admin", password, ':');
    NoSepSplit(password);
    SchemesDisjoint(header);
  }

  /** The corrected check never admits anyone without a configured password. */
  lemma ValidateAuthNeedsPassword(header: string, tokenCheck: AuthResult, atob: string -> Option<string>)
    requires Text.StartsWith(header, "Basic ")
    ensures ValidateAuth(header, Undefined, tokenCheck, atob).Authorized? ==> false
  {
    SchemesDisjoint(header);
  }
}
