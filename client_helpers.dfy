/**
 * The front-end formatters and validators of src/utils/helpers.js that
 * branch on their input: status colours, latency and age buckets, the
 * e-mail and IPv4 patterns, and the falsy guards of `formatTime` and
 * `formatPercentage`. Numbers are integers; the date library and the
 * floating-point formatting are parameters.
 */
module ClientHelpers {
  import opened JsValue
  import Text
  import WorkerHelpers

  // ------------------------------------------------------- getStatusColor

  /** The `colors` object. */
  const Colors: Json := Obj([("online", Str("#52c41a")), ("offline", Str("#ff4d4f")),
                             ("warning", Str("#fa8c16")), ("unknown", Str("#8c8c8c"))])

  /** `colors[status] || colors.unknown`; the key is `String(status)`. */
  function StatusColor(status: Json): (r: Json)
    ensures ToJsString(status) == "online" ==> r == Str("#52c41a")
    ensures ToJsString(status) == "offline" ==> r == Str("#ff4d4f")
    ensures ToJsString(status) == "warning" ==> r == Str("#fa8c16")
    ensures ToJsString(status) !in {"online", "offline", "warning"} ==> r == Str("#8c8c8c")
  {
    var key := ToJsString(status);
    var props := Colors.props;
    if key == "online" then FindKeyIs(props, key, 0); Or(Get(Colors, key), Str("#8c8c8c"))
    else if key == "offline" then FindKeyIs(props, key, 1); Or(Get(Colors, key), Str("#8c8c8c"))
    else if key == "warning" then FindKeyIs(props, key, 2); Or(Get(Colors, key), Str("#8c8c8c"))
    else if key == "unknown" then FindKeyIs(props, key, 3); Or(Get(Colors, key), Str("#8c8c8c"))
    else FindKeyAbsent(props, key); Or(Get(Colors, key), Str("#8c8c8c"))
  }

  // -------------------------------------------------------- formatLatency

  /** `formatLatency(latency)` in milliseconds. */
  function FormatLatency(latency: int): (r: string)
    ensures latency < 0 <==> r == "-"
    ensures 0 <= latency < 50 ==> r == Text.IntToString(latency) + "ms (优秀)"
    ensures 50 <= latency < 100 ==> r == Text.IntToString(latency) + "ms (良好)"
    ensures 100 <= latency < 200 ==> r == Text.IntToString(latency) + "ms (一般)"
    ensures 200 <= latency ==> r == Text.IntToString(latency) + "ms (较差)"
  {
    if latency < 0 then "-"
    else
      var text := Text.IntToString(latency);
      if latency < 50 then text + "ms (优秀)"
      else if latency < 100 then text + "ms (良好)"
      else if latency < 200 then text + "ms (一般)"
      else text + "ms (较差)"
  }

  // ---------------------------------------------------------- getTimeDiff

  /** The unit `getTimeDiff` reports an age in. */
  datatype Age = Seconds(secs: int) | Minutes(n: nat) | Hours(n: nat) | Days(n: nat)

  /** The bucket of an age of `diff` whole seconds, with the count in that unit. */
  function AgeOf(diff: int): (a: Age)
    ensures diff < 60 <==> a.Seconds?
    ensures a.Seconds? ==> a.secs == diff
    ensures a.Minutes? ==> 1 <= a.n < 60 && a.n * 60 <= diff < (a.n + 1) * 60
    ensures a.Hours? ==> 1 <= a.n < 24 && a.n * 3600 <= diff < (a.n + 1) * 3600
    ensures a.Days? ==> 1 <= a.n && a.n * 86400 <= diff < (a.n + 1) * 86400
    ensures a.Days? <==> 86400 <= diff
  {
    if diff < 60 then Seconds(diff)
    else if diff < 3600 then Minutes(diff / 60)
    else if diff < 86400 then Hours(diff / 3600)
    else Days(diff / 86400)
  }

  /** `getTimeDiff(start, end)` once the difference in seconds is known. */
  function TimeDiff(diff: int): (r: string)
    ensures diff < 60 ==> r == Text.IntToString(diff) + "秒前"
    ensures 60 <= diff < 3600 ==> r == Text.NatToString(diff / 60) + "分钟前"
    ensures 3600 <= diff < 86400 ==> r == Text.NatToString(diff / 3600) + "小时前"
    ensures 86400 <= diff ==> r == Text.NatToString(diff / 86400) + "天前"
  {
    match AgeOf(diff)
    case Seconds(n) => Text.IntToString(n) + "秒前"
    case Minutes(n) => Text.NatToString(n) + "分钟前"
    case Hours(n) => Text.NatToString(n) + "小时前"
    case Days(n) => Text.NatToString(n) + "天前"
  }

  /** The units from the smallest up. */
  function UnitRank(a: Age): nat {
    match a
    case Seconds(_) => 0
    case Minutes(_) => 1
    case Hours(_) => 2
    case Days(_) => 3
  }

  /** The number an age shows in its unit. */
  function Count(a: Age): int {
    if a.Seconds? then a.secs else a.n
  }

  /** `a` reads as no older than `b`: a smaller unit, or the same unit and a count no larger. */
  predicate NoOlder(a: Age, b: Age) {
    UnitRank(a) < UnitRank(b) || (UnitRank(a) == UnitRank(b) && Count(a) <= Count(b))
  }

  /** A later time never reads as a younger age: the unit never shrinks, and within a unit the count never drops. */
  lemma AgeMonotone(d1: int, d2: int)
    requires d1 <= d2
    ensures NoOlder(AgeOf(d1), AgeOf(d2))
  {
  }

  // ---------------------------------------------------- isValidEmail, isValidIP

  /** A non-empty run of characters that are neither whitespace nor '@'. */
  predicate Word(s: string) {
    |s| > 0 && forall i :: 0 <= i < |s| ==> !Text.IsJsWhitespace(s[i]) && s[i] != '@'
  }

  /**
   * The pattern `^[^\s@]+@[^\s@]+\.[^\s@]+$`, read as three runs around
   * an '@' and a '.'; the shortest accepted address has five characters.
   */
  predicate IsValidEmail(e: string)
    ensures IsValidEmail(e) ==> 5 <= |e| && '@' in e
  {
    exists at, dot :: 0 < at < dot < |e| - 1 && e[at] == '@' && e[dot] == '.'
      && Word(e[..at]) && Word(e[at + 1..dot]) && Word(e[dot + 1..])
  }

  /**
   * The same pattern stated without the runs: one '@' with something
   * before it, no whitespace and no second '@' anywhere, and a '.' after
   * the '@' that is neither next to it nor last.
   */
  predicate EmailShape(e: string) {
    exists at :: 0 < at < |e| && e[at] == '@' && SoleAt(e, at) && InnerDot(e, at)
  }

  predicate SoleAt(e: string, at: nat) {
    forall i :: 0 <= i < |e| ==> !Text.IsJsWhitespace(e[i]) && (e[i] == '@' ==> i == at)
  }

  predicate InnerDot(e: string, at: nat) {
    exists dot :: at + 1 < dot < |e| - 1 && e[dot] == '.'
  }

  lemma EmailHasShape(e: string)
    requires IsValidEmail(e)
    ensures EmailShape(e)
  {
    var at, dot :| 0 < at < dot < |e| - 1 && e[at] == '@' && e[dot] == '.'
      && Word(e[..at]) && Word(e[at + 1..dot]) && Word(e[dot + 1..]);
    forall i | 0 <= i < |e|
      ensures !Text.IsJsWhitespace(e[i]) && (e[i] == '@' ==> i == at)
    {
      if i < at {
        assert e[i] == e[..at][i];
      } else if at < i < dot {
        assert e[i] == e[at + 1..dot][i - at - 1];
      } else if dot < i {
        assert e[i] == e[dot + 1..][i - dot - 1];
      }
    }
    assert InnerDot(e, at);
  }

  lemma ShapeIsEmail(e: string)
    requires EmailShape(e)
    ensures IsValidEmail(e)
  {
    var at :| 0 < at < |e| && e[at] == '@' && SoleAt(e, at) && InnerDot(e, at);
    var dot :| at + 1 < dot < |e| - 1 && e[dot] == '.';
    assert Word(e[..at]);
    assert Word(e[at + 1..dot]);
    assert Word(e[dot + 1..]);
  }

  /** Both readings of the e-mail pattern accept the same strings. */
  lemma EmailIffShape(e: string)
    ensures IsValidEmail(e) <==> EmailShape(e)
  {
    if IsValidEmail(e) { EmailHasShape(e); }
    if EmailShape(e) { ShapeIsEmail(e); }
  }

  /**
   * `isValidIP` of the front-end: the dotted-quad pattern only, the same one
   * the Worker uses; every address with a ':', so every IPv6 address the
   * Worker accepts, is refused.
   */
  predicate IsValidIP(s: string)
    ensures IsValidIP(s) ==> WorkerHelpers.IsValidIP(s) && ':' !in s
  {
    WorkerHelpers.IsValidIPv4(s)
  }

  // -------------------------------------------- formatTime, formatPercentage

  /** `formatTime(time, format)`: '-' for a falsy time, else what the date library writes. */
  function FormatTime(time: Json, format: string, render: (Json, string) -> string): (r: string)
    ensures !Truthy(time) ==> r == "-"
    ensures Truthy(time) ==> r == render(time, format)
  {
    if !Truthy(time) then "-" else render(time, format)
  }

  /**
   * `formatPercentage(value, total, precision)`: '0%' for a falsy total
   * (which includes 0), else the fixed-point ratio `ratio` writes.
   */
  function FormatPercentage(value: Json, total: Json, precision: int, ratio: (Json, Json, int) -> string): (r: string)
    ensures !Truthy(total) ==> r == "0%"
    ensures Truthy(total) ==> r == ratio(value, total, precision) + "%"
  {
    if !Truthy(total) || StrictEq(total, Num(0)) then "0%" else ratio(value, total, precision) + "%"
  }
}
