/**
 * String primitives of JavaScript that the modelled code relies on:
 * number to decimal text, `split` and `join` on one separator character,
 * substring search, `trim`, the regular-expression class `\s`, ASCII
 * lower-casing and `parseInt` without a radix.
 */
module Text {
  import opened Wrappers

  // ---------------------------------------------------------------- digits

  predicate IsDigit(c: char) { '0' <= c <= '9' }

  predicate IsHexDigit(c: char) {
    IsDigit(c) || 'a' <= c <= 'f' || 'A' <= c <= 'F'
  }

  predicate IsAsciiLetter(c: char) { 'a' <= c <= 'z' || 'A' <= c <= 'Z' }

  predicate AllDigits(s: string) { forall i :: 0 <= i < |s| ==> IsDigit(s[i]) }

  function DigitChar(d: nat): (c: char)
    requires d < 10
    ensures IsDigit(c)
  {
    ('0' as int + d) as char
  }

  /** Value of one digit in base 10 or 16. */
  function DigitValue(c: char): (v: nat)
    requires IsHexDigit(c)
    ensures v < 16
    ensures IsDigit(c) ==> v < 10
  {
    if IsDigit(c) then c as int - '0' as int
    else if 'a' <= c <= 'f' then c as int - 'a' as int + 10
    else c as int - 'A' as int + 10
  }

  predicate IsRadixDigit(c: char, radix: nat) {
    if radix == 16 then IsHexDigit(c) else IsDigit(c)
  }

  /** Value of a digit string read most significant digit first. */
  function ValueOf(d: string, radix: nat): nat
    requires forall i :: 0 <= i < |d| ==> IsRadixDigit(d[i], radix)
  {
    if |d| == 0 then 0
    else
      var last := d[|d| - 1];
      assert IsRadixDigit(last, radix);
      ValueOf(d[..|d| - 1], radix) * radix + DigitValue(last)
  }

  /** Decimal text of a natural number, as `String(n)` writes it. */
  function NatToString(n: nat): (s: string)
    ensures |s| >= 1 && AllDigits(s)
  {
    if n < 10 then [DigitChar(n)] else NatToString(n / 10) + [DigitChar(n % 10)]
  }

  /** Decimal text of an integer, with a leading '-' when negative. */
  function IntToString(i: int): (s: string)
    ensures |s| >= 1
  {
    if i < 0 then "-" + NatToString(-i) else NatToString(i)
  }

  /** Reading back the decimal text of `n` gives `n`. */
  lemma {:induction false} ValueOfNatToString(n: nat)
    ensures ValueOf(NatToString(n), 10) == n
  {
    var s := NatToString(n);
    if n >= 10 {
      ValueOfNatToString(n / 10);
      assert s[..|s| - 1] == NatToString(n / 10);
    }
  }

  // ------------------------------------------------------- split and join

  /** `s.split(sep)`: the pieces between occurrences of `sep`, never empty. */
  function Split(s: string, sep: char): (parts: seq<string>)
    ensures |parts| >= 1
    ensures forall i :: 0 <= i < |parts| ==> sep !in parts[i]
  {
    if |s| == 0 then [""]
    else if s[0] == sep then [""] + Split(s[1..], sep)
    else
      var rest := Split(s[1..], sep);
      [[s[0]] + rest[0]] + rest[1..]
  }

  /** `parts.join(sep)`. */
  function Join(parts: seq<string>, sep: char): string
    requires |parts| >= 1
  {
    if |parts| == 1 then parts[0] else parts[0] + [sep] + Join(parts[1..], sep)
  }

  /** Joining the pieces of a split gives the original string back. */
  lemma {:induction false} JoinSplit(s: string, sep: char)
    ensures Join(Split(s, sep), sep) == s
  {
    if |s| > 0 {
      JoinSplit(s[1..], sep);
      var rest := Split(s[1..], sep);
      if s[0] != sep {
        if |rest| == 1 {
          assert Split(s, sep) == [[s[0]] + rest[0]];
        } else {
          assert Split(s, sep)[1..] == rest[1..];
        }
      }
    }
  }

  /** Splitting a join of separator-free pieces gives the pieces back. */
  lemma {:induction false} SplitJoin(parts: seq<string>, sep: char)
    requires |parts| >= 1
    requires forall i :: 0 <= i < |parts| ==> sep !in parts[i]
    ensures Split(Join(parts, sep), sep) == parts
  {
    if |parts| == 1 {
      SplitNoSep(parts[0], sep);
    } else {
      SplitJoin(parts[1..], sep);
      SplitPrefix(parts[0], Join(parts[1..], sep), sep);
      assert parts == [parts[0]] + parts[1..];
    }
  }

  /** A character in none of the pieces and not the separator is not in their join. */
  lemma {:induction false} JoinExcludes(parts: seq<string>, sep: char, c: char)
    requires |parts| >= 1 && c != sep
    requires forall i :: 0 <= i < |parts| ==> c !in parts[i]
    ensures c !in Join(parts, sep)
  {
    if |parts| > 1 {
      JoinExcludes(parts[1..], sep, c);
    }
  }

  /**
   * When every piece of a split holds only allowed characters, the string
   * holds only those and the separator; with two pieces or more it holds
   * the separator.
   */
  lemma SplitChars(s: string, sep: char, allowed: char -> bool)
    ensures (forall i, k :: 0 <= i < |Split(s, sep)| && 0 <= k < |Split(s, sep)[i]| ==> allowed(Split(s, sep)[i][k]))
      ==> forall k :: 0 <= k < |s| ==> s[k] == sep || allowed(s[k])
    ensures |Split(s, sep)| > 1 ==> sep in s
  {
    var parts := Split(s, sep);
    JoinSplit(s, sep);
    if forall i, k :: 0 <= i < |parts| && 0 <= k < |parts[i]| ==> allowed(parts[i][k]) {
      forall k | 0 <= k < |s|
        ensures s[k] == sep || allowed(s[k])
      {
        var c := s[k];
        if c != sep && !allowed(c) {
          JoinExcludes(parts, sep, c);
          assert false;
        }
      }
    }
    if sep !in s {
      SplitNoSep(s, sep);
    }
  }

  lemma {:induction false} SplitNoSep(s: string, sep: char)
    requires sep !in s
    ensures Split(s, sep) == [s]
  {
    if |s| > 0 {
      SplitNoSep(s[1..], sep);
      assert s == [s[0]] + s[1..];
    }
  }

  lemma {:induction false} SplitPrefix(p: string, rest: string, sep: char)
    requires sep !in p
    ensures Split(p + [sep] + rest, sep) == [p] + Split(rest, sep)
  {
    if |p| == 0 {
      assert p + [sep] + rest == [sep] + rest;
      assert ([sep] + rest)[1..] == rest;
    } else {
      SplitPrefix(p[1..], rest, sep);
      assert (p + [sep] + rest)[1..] == p[1..] + [sep] + rest;
      assert [p[0]] + p[1..] == p;
    }
  }

  // -------------------------------------------------------------- search

  predicate StartsWith(s: string, prefix: string) {
    |prefix| <= |s| && s[..|prefix|] == prefix
  }

  /** `sub` occurs in `s` starting at index `i`. */
  predicate OccursAt(s: string, sub: string, i: int) {
    0 <= i <= |s| - |sub| && s[i..i + |sub|] == sub
  }

  /** Substring search from index `from` on, as a recursive scan. */
  function ContainsFrom(s: string, sub: string, from: nat): (b: bool)
    requires from <= |s|
    ensures b <==> exists i :: from <= i && OccursAt(s, sub, i)
    decreases |s| - from
  {
    if |s| - from < |sub| then false
    else if s[from..from + |sub|] == sub then assert OccursAt(s, sub, from); true
    else ContainsFrom(s, sub, from + 1)
  }

  /** `s.includes(sub)`. */
  predicate Contains(s: string, sub: string) {
    ContainsFrom(s, sub, 0)
  }

  // ------------------------------------------------------------ whitespace

  /**
   * The characters JavaScript's `trim` removes and the regular-expression
   * class `\s` matches: WhiteSpace and LineTerminator of ECMAScript.
   */
  predicate IsJsWhitespace(c: char) {
    c == '\t' || c == '\n' || c == '\U{000B}' || c == '\U{000C}' || c == '\r' || c == ' '
    || c == '\U{00A0}' || c == '\U{1680}' || ('\U{2000}' <= c <= '\U{200A}')
    || c == '\U{2028}' || c == '\U{2029}' || c == '\U{202F}' || c == '\U{205F}'
    || c == '\U{3000}' || c == '\U{FEFF}'
  }

  function TrimStart(s: string): (t: string)
    ensures |t| <= |s| && t == s[|s| - |t|..]
    ensures |t| > 0 ==> !IsJsWhitespace(t[0])
    ensures forall i :: 0 <= i < |s| - |t| ==> IsJsWhitespace(s[i])
  {
    if |s| > 0 && IsJsWhitespace(s[0]) then TrimStart(s[1..]) else s
  }

  function TrimEnd(s: string): (t: string)
    ensures |t| <= |s| && t == s[..|t|]
    ensures |t| > 0 ==> !IsJsWhitespace(t[|t| - 1])
    ensures forall i :: |t| <= i < |s| ==> IsJsWhitespace(s[i])
  {
    if |s| > 0 && IsJsWhitespace(s[|s| - 1]) then TrimEnd(s[..|s| - 1]) else s
  }

  /** `s.trim()`. */
  function Trim(s: string): string { TrimEnd(TrimStart(s)) }

  // ------------------------------------------------------------ lower case

  function LowerChar(c: char): char {
    if 'A' <= c <= 'Z' then (c as int + 32) as char else c
  }

  /** `s.toLowerCase()` restricted to the ASCII letters. */
  function ToLower(s: string): (t: string)
    ensures |t| == |s| && forall i :: 0 <= i < |s| ==> t[i] == LowerChar(s[i])
  {
    if |s| == 0 then "" else [LowerChar(s[0])] + ToLower(s[1..])
  }

  // -------------------------------------------------------------- parseInt

  /** The longest prefix of `s` made of digits of the radix. */
  function LeadingDigits(s: string, radix: nat): (d: string)
    ensures |d| <= |s| && d == s[..|d|]
    ensures forall i :: 0 <= i < |d| ==> IsRadixDigit(d[i], radix)
    ensures |d| < |s| ==> !IsRadixDigit(s[|d|], radix)
  {
    if |s| > 0 && IsRadixDigit(s[0], radix) then [s[0]] + LeadingDigits(s[1..], radix) else ""
  }

  /** The unsigned part of `parseInt`: an optional `0x` prefix, then digits. */
  function ParseUnsigned(u: string): Option<nat> {
    var hex := |u| >= 2 && u[0] == '0' && (u[1] == 'x' || u[1] == 'X');
    var radix := if hex then 16 else 10;
    var d := LeadingDigits(if hex then u[2..] else u, radix);
    if |d| == 0 then None else Some(ValueOf(d, radix))
  }

  /**
   * `parseInt(s)` without a radix: leading whitespace is skipped, one sign
   * is read, a `0x`/`0X` prefix selects base 16, and the longest run of
   * digits that follows is the value; no digit at all is NaN (`None`).
   */
  function ParseInt(s: string): Option<int> {
    var t := TrimStart(s);
    if |t| > 0 && t[0] == '-' then
      match ParseUnsigned(t[1..])
      case None => None
      case Some(v) => Some(0 - v as int)
    else if |t| > 0 && t[0] == '+' then
      match ParseUnsigned(t[1..])
      case None => None
      case Some(v) => Some(v)
    else
      match ParseUnsigned(t)
      case None => None
      case Some(v) => Some(v)
  }

  /** A text that starts with an ASCII letter or '[' is NaN to `parseInt`. */
  lemma ParseIntNoDigit(s: string)
    ensures |s| > 0 && (IsAsciiLetter(s[0]) || s[0] == '[') ==> ParseInt(s).None?
  {
    if |s| > 0 && (IsAsciiLetter(s[0]) || s[0] == '[') {
      TrimStartNoWhitespace(s);
      assert !IsRadixDigit(s[0], 10);
    }
  }

  lemma LeadingDigitsAll(s: string)
    requires AllDigits(s)
    ensures LeadingDigits(s, 10) == s
  {
  }

  lemma ParseUnsignedOfNatToString(m: nat)
    ensures ParseUnsigned(NatToString(m)) == Some(m)
  {
    var s := NatToString(m);
    assert !(|s| >= 2 && (s[1] == 'x' || s[1] == 'X'));
    LeadingDigitsAll(s);
    ValueOfNatToString(m);
  }

  lemma TrimStartNoWhitespace(s: string)
    requires |s| > 0 && !IsJsWhitespace(s[0])
    ensures TrimStart(s) == s
  {
  }

  /** `parseInt` reads back the decimal text of a natural number. */
  lemma ParseIntOfNatToString(m: nat)
    ensures ParseInt(NatToString(m)) == Some(m)
  {
    var s := NatToString(m);
    TrimStartNoWhitespace(s);
    ParseUnsignedOfNatToString(m);
  }

  /** `parseInt(String(n))` is `n` for every integer `n`. */
  lemma ParseIntOfIntToString(n: int)
    ensures ParseInt(IntToString(n)) == Some(n)
  {
    if n >= 0 {
      ParseIntOfNatToString(n);
    } else {
      var s := IntToString(n);
      TrimStartNoWhitespace(s);
      assert s[1..] == NatToString(-n);
      ParseUnsignedOfNatToString(-n);
    }
  }
}
