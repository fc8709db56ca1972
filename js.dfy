/** The few JavaScript built-ins whose exact behaviour the backend's rules depend on:
    truthiness of optional strings, `startsWith`, `split(" ")[1]`, `String.prototype.trim`,
    `parseInt(x / d, 10)`, `Math.round(a / d)` and UTF-16 string length. */
module Js {

  datatype Option<+T> = None | Some(value: T)

  /** JavaScript truthiness of an optional string: `undefined` and `""` are falsy. */
  predicate Truthy(s: Option<string>)
  {
    s.Some? && s.value != ""
  }

  predicate StartsWith(s: string, prefix: string)
  {
    |prefix| <= |s| && s[..|prefix|] == prefix
  }

  // ---------------------------------------------------------------------------
  // s.split(" ")[1]
  // ---------------------------------------------------------------------------

  /** The text after the first space of `s`, or None when `s` has no space. */
  function AfterFirstSpace(s: string): (r: Option<string>)
    ensures r.None? <==> ' ' !in s
    ensures r.Some? ==> |r.value| < |s|
  {
    if s == [] then None
    else if s[0] == ' ' then Some(s[1..])
    else AfterFirstSpace(s[1..])
  }

  /** The longest prefix of `s` that holds no space. */
  function UpToSpace(s: string): (r: string)
    ensures ' ' !in r
    ensures |r| <= |s| && r == s[..|r|]
    ensures |r| < |s| ==> s[|r|] == ' '
  {
    if s == [] || s[0] == ' ' then [] else [s[0]] + UpToSpace(s[1..])
  }

  /** `s.split(" ")[1]`: the second space-separated field, `undefined` when `s` has no space. */
  function SplitSecond(s: string): (r: Option<string>)
    ensures r.None? <==> ' ' !in s
    ensures r.Some? ==> ' ' !in r.value
  {
    match AfterFirstSpace(s)
    case None => None
    case Some(rest) => Some(UpToSpace(rest))
  }

  lemma {:induction false} AfterFirstSpaceOfJoin(p: string, t: string)
    requires ' ' !in p
    ensures AfterFirstSpace(p + " " + t) == Some(t)
  {
    if p != [] {
      assert (p + " " + t)[1..] == p[1..] + " " + t;
      AfterFirstSpaceOfJoin(p[1..], t);
    } else {
      assert (p + " " + t)[1..] == t;
    }
  }

  lemma {:induction false} UpToSpaceOfSpaceFree(t: string)
    requires ' ' !in t
    ensures UpToSpace(t) == t
  {
    if t != [] {
      UpToSpaceOfSpaceFree(t[1..]);
    }
  }

  /** Splitting `p + " " + t` on spaces gives back `t` as the second field when neither part holds a space. */
  lemma SplitSecondOfJoin(p: string, t: string)
    requires ' ' !in p && ' ' !in t
    ensures SplitSecond(p + " " + t) == Some(t)
  {
    AfterFirstSpaceOfJoin(p, t);
    UpToSpaceOfSpaceFree(t);
  }

  // ---------------------------------------------------------------------------
  // String.prototype.trim
  // ---------------------------------------------------------------------------

  /** The WhiteSpace and LineTerminator code points that ECMAScript's `trim` removes. */
  predicate IsWhiteSpace(c: char)
  {
    var n := c as int;
    n == 0x09 || n == 0x0A || n == 0x0B || n == 0x0C || n == 0x0D || n == 0x20
    || n == 0xA0 || n == 0x1680 || (0x2000 <= n <= 0x200A) || n == 0x2028 || n == 0x2029
    || n == 0x202F || n == 0x205F || n == 0x3000 || n == 0xFEFF
  }

  /** Every character of `s[i..j]` is white space. */
  predicate WhiteBetween(s: string, i: nat, j: nat)
    requires i <= j <= |s|
  {
    forall k :: i <= k < j ==> IsWhiteSpace(s[k])
  }

  /** Index of the first non-white character of `s` at or after `b`, or `|s|`. */
  function ContentStart(s: string, b: nat): (r: nat)
    requires b <= |s| && WhiteBetween(s, 0, b)
    ensures b <= r <= |s| && WhiteBetween(s, 0, r)
    ensures r < |s| ==> !IsWhiteSpace(s[r])
    decreases |s| - b
  {
    if b == |s| || !IsWhiteSpace(s[b]) then b else ContentStart(s, b + 1)
  }

  /** Index just past the last non-white character of `s` before `e`, but not below `lo`. */
  function ContentEnd(s: string, lo: nat, e: nat): (r: nat)
    requires lo <= e <= |s| && WhiteBetween(s, e, |s|)
    ensures lo <= r <= e && WhiteBetween(s, r, |s|)
    ensures r > lo ==> !IsWhiteSpace(s[r - 1])
    decreases e
  {
    if e == lo || !IsWhiteSpace(s[e - 1]) then e else ContentEnd(s, lo, e - 1)
  }

  /** `s.trim()`: `s` without its leading and trailing white space. */
  function Trim(s: string): (r: string)
    ensures |r| <= |s|
    ensures r == [] || (!IsWhiteSpace(r[0]) && !IsWhiteSpace(r[|r| - 1]))
    ensures r == s[ContentStart(s, 0)..ContentEnd(s, ContentStart(s, 0), |s|)]
    ensures WhiteBetween(s, 0, ContentStart(s, 0))
    ensures WhiteBetween(s, ContentEnd(s, ContentStart(s, 0), |s|), |s|)
  {
    var b := ContentStart(s, 0);
    s[b..ContentEnd(s, b, |s|)]
  }

  /** A string with no white space at either end is its own trim. */
  lemma TrimOfTrimmed(s: string)
    requires s == [] || (!IsWhiteSpace(s[0]) && !IsWhiteSpace(s[|s| - 1]))
    ensures Trim(s) == s
  {
    if s != [] {
      assert ContentStart(s, 0) == 0;
      assert ContentEnd(s, 0, |s|) == |s|;
    }
  }

  /** Trimming twice is trimming once. */
  lemma TrimIdempotent(s: string)
    ensures Trim(Trim(s)) == Trim(s)
  {
    TrimOfTrimmed(Trim(s));
  }

  // ---------------------------------------------------------------------------
  // Numbers
  // ---------------------------------------------------------------------------

  /** `parseInt(a / d, 10)` for an integer `a`: the quotient truncated toward zero. */
  function TruncDiv(a: int, d: int): (q: int)
    requires d > 0
    ensures a >= 0 ==> q * d <= a < (q + 1) * d
    ensures a < 0 ==> (q - 1) * d < a <= q * d
  {
    if a >= 0 then a / d else -((-a) / d)
  }

  /** `Math.round(a / d)` for a non-negative `a`: the nearest integer, halves rounded up. */
  function RoundDiv(a: nat, d: nat): (r: nat)
    requires d > 0
    ensures 2 * d * r <= 2 * a + d < 2 * d * (r + 1)
  {
    (2 * a + d) / (2 * d)
  }

  /** Decimal digits of `n`, as template literals print a non-negative integer. */
  function NatToString(n: nat): (s: string)
    ensures |s| >= 1
    ensures forall i :: 0 <= i < |s| ==> '0' <= s[i] <= '9'
  {
    var d := [(48 + n % 10) as char];
    if n < 10 then d else NatToString(n / 10) + d
  }

  /** `s.length` in JavaScript: UTF-16 code units, two for a character outside the basic plane. */
  function Utf16Length(s: string): (n: nat)
    ensures |s| <= n <= 2 * |s|
  {
    if s == [] then 0
    else (if s[0] as int >= 0x10000 then 2 else 1) + Utf16Length(s[1..])
  }
}
