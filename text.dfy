/** String and byte primitives of the Kotlin/JVM standard library that the
    request compiler relies on: case-insensitive comparison, `trim`,
    `String.replace`, `joinToString`, `toString` of a number, the UTF-8
    encoder behind `toByteArray()` and `java.net.URLEncoder.encode(_, "UTF-8")`. */
module Text {
  import opened Wrappers

  newtype byte = x: int | 0 <= x < 256

  // ---------------------------------------------------------------------
  // Case

  predicate IsAsciiUpper(c: char) { 'A' <= c <= 'Z' }

  function LowerChar(c: char): (r: char)
    ensures IsAsciiUpper(c) ==> r as int == c as int + 32
    ensures !IsAsciiUpper(c) ==> r == c
  {
    if IsAsciiUpper(c) then (c as int + 32) as char else c
  }

  /** Lower-casing of ASCII letters; every other character is kept. For the
      ASCII text of media types this is exactly Kotlin's `lowercase()`. */
  function Lower(s: string): (r: string)
    ensures |r| == |s|
    ensures forall i :: 0 <= i < |s| ==> r[i] == LowerChar(s[i])
  {
    if s == [] then [] else [LowerChar(s[0])] + Lower(s[1..])
  }

  /** `a.equals(b, ignoreCase = true)` with ASCII case folding. */
  predicate EqualsIgnoreCase(a: string, b: string) {
    Lower(a) == Lower(b)
  }

  lemma LowerAppend(a: string, b: string)
    ensures Lower(a + b) == Lower(a) + Lower(b)
  {
    assert Lower(a + b) == Lower(a) + Lower(b);
  }

  predicate StartsWith(s: string, prefix: string) {
    |prefix| <= |s| && s[..|prefix|] == prefix
  }

  predicate EndsWith(s: string, suffix: string) {
    |suffix| <= |s| && s[|s| - |suffix|..] == suffix
  }

  /** `s.startsWith(prefix, ignoreCase = true)`. */
  predicate StartsWithIgnoreCase(s: string, prefix: string) {
    |prefix| <= |s| && EqualsIgnoreCase(s[..|prefix|], prefix)
  }

  // ---------------------------------------------------------------------
  // Searching

  /** `s.indexOf(c)`: the first index of `c`, or -1. */
  function IndexOf(s: string, c: char): (r: int)
    ensures -1 <= r < |s|
    ensures r == -1 <==> c !in s
    ensures r >= 0 ==> s[r] == c && c !in s[..r]
  {
    if s == [] then -1
    else if s[0] == c then 0
    else
      var k := IndexOf(s[1..], c);
      assert s[1..] == s[1..][..];
      if k == -1 then -1 else k + 1
  }

  // ---------------------------------------------------------------------
  // Whitespace and trim

  /** `Char.isWhitespace()` on the JVM: `Character.isWhitespace` or
      `Character.isSpaceChar` (Unicode categories Zs, Zl, Zp). */
  predicate IsWhitespace(c: char) {
    c == '\t' || c == '\n' || c == '\U{000B}' || c == '\U{000C}' || c == '\r'
    || ('\U{001C}' <= c <= '\U{001F}') || c == ' ' || c == '\U{00A0}' || c == '\U{1680}'
    || ('\U{2000}' <= c <= '\U{200A}') || c == '\U{2028}' || c == '\U{2029}'
    || c == '\U{202F}' || c == '\U{205F}' || c == '\U{3000}'
  }

  /** The first position at or after `i` that holds no whitespace, or
      `|s|`. */
  function SkipBlank(s: string, i: nat): (k: nat)
    requires i <= |s|
    ensures i <= k <= |s|
    ensures forall j :: i <= j < k ==> IsWhitespace(s[j])
    ensures k < |s| ==> !IsWhitespace(s[k])
    decreases |s| - i
  {
    if i == |s| || !IsWhitespace(s[i]) then i else SkipBlank(s, i + 1)
  }

  /** The end of `s[..j]` once its trailing whitespace is dropped, not going
      below `lo`. */
  function SkipBlankBack(s: string, lo: nat, j: nat): (k: nat)
    requires lo <= j <= |s|
    ensures lo <= k <= j
    ensures forall x :: k <= x < j ==> IsWhitespace(s[x])
    ensures k > lo ==> !IsWhitespace(s[k - 1])
    decreases j
  {
    if j == lo || !IsWhitespace(s[j - 1]) then j else SkipBlankBack(s, lo, j - 1)
  }

  /** Kotlin `trim()`: drops leading and trailing whitespace. */
  function Trim(s: string): (r: string)
    ensures |r| <= |s|
    ensures r == [] || (!IsWhitespace(r[0]) && !IsWhitespace(r[|r| - 1]))
  {
    var a := SkipBlank(s, 0);
    s[a..SkipBlankBack(s, a, |s|)]
  }

  /** `trim()` keeps a slice of its input and cuts only whitespace off
      either end. */
  lemma TrimCutsBlanks(s: string)
    ensures exists i, j ::
              0 <= i <= j <= |s| && Trim(s) == s[i..j]
              && (forall k :: 0 <= k < i ==> IsWhitespace(s[k]))
              && (forall k :: j <= k < |s| ==> IsWhitespace(s[k]))
  {
    var a := SkipBlank(s, 0);
    var b := SkipBlankBack(s, a, |s|);
    assert Trim(s) == s[a..b];
  }

  // ---------------------------------------------------------------------
  // Replace and join

  /** `s.replace(target, replacement)` of `java.lang.String`: every
      non-overlapping occurrence of `target`, found left to right, is
      replaced. */
  function ReplaceAll(s: string, target: string, replacement: string): string
    requires target != []
    decreases |s|
  {
    if |s| < |target| then s
    else if s[..|target|] == target then
      replacement + ReplaceAll(s[|target|..], target, replacement)
    else [s[0]] + ReplaceAll(s[1..], target, replacement)
  }

  /** `values.joinToString(sep)`. */
  function Join(values: seq<string>, sep: string): string {
    if values == [] then ""
    else if |values| == 1 then values[0]
    else values[0] + sep + Join(values[1..], sep)
  }

  // ---------------------------------------------------------------------
  // Numbers

  function DigitChar(d: nat): char
    requires d < 10
  {
    "0123456789"[d]
  }

  function NatString(n: nat): (r: string)
    ensures r != []
    ensures forall i :: 0 <= i < |r| ==> '0' <= r[i] <= '9'
    decreases n
  {
    if n < 10 then [DigitChar(n)] else NatString(n / 10) + [DigitChar(n % 10)]
  }

  /** `"$n"` for a Kotlin `Long`. */
  function DecimalString(n: int): (r: string)
    ensures r != []
    ensures n < 0 <==> r[0] == '-'
  {
    if n < 0 then "-" + NatString(-n) else NatString(n)
  }

  // ---------------------------------------------------------------------
  // UTF-8

  /** The UTF-8 encoding of one Unicode scalar value. */
  function Utf8Char(c: char): (r: seq<byte>)
    ensures 1 <= |r| <= 4
    ensures (c as int < 0x80) <==> |r| == 1
    ensures c as int < 0x80 ==> r == [c as int as byte]
  {
    var cp := c as int;
    if cp < 0x80 then [cp as byte]
    else if cp < 0x800 then [(0xC0 + cp / 64) as byte, (0x80 + cp % 64) as byte]
    else if cp < 0x10000 then
      [(0xE0 + cp / 4096) as byte, (0x80 + (cp / 64) % 64) as byte, (0x80 + cp % 64) as byte]
    else
      [(0xF0 + cp / 262144) as byte, (0x80 + (cp / 4096) % 64) as byte,
       (0x80 + (cp / 64) % 64) as byte, (0x80 + cp % 64) as byte]
  }

  /** `s.toByteArray()` (UTF-8). */
  function Utf8(s: string): (r: seq<byte>)
    ensures |r| >= |s|
  {
    if s == [] then [] else Utf8Char(s[0]) + Utf8(s[1..])
  }

  lemma {:induction false} Utf8Append(a: string, b: string)
    ensures Utf8(a + b) == Utf8(a) + Utf8(b)
  {
    if a == [] {
      assert a + b == b;
    } else {
      assert (a + b)[1..] == a[1..] + b;
      Utf8Append(a[1..], b);
    }
  }

  predicate IsContinuation(b: byte) { 0x80 <= b < 0xC0 }

  /** The character encoded at the start of `bs`, with its byte count; None
      for a malformed, overlong or surrogate sequence. */
  function Utf8DecodeOne(bs: seq<byte>): (r: Option<(char, nat)>)
    requires bs != []
    ensures r.Some? ==> 1 <= r.value.1 <= |bs|
  {
    var b0 := bs[0] as int;
    if b0 < 0x80 then Some((b0 as char, 1))
    else if 0xC0 <= b0 < 0xE0 && |bs| >= 2 && IsContinuation(bs[1]) then
      var cp := (b0 - 0xC0) * 64 + (bs[1] as int - 0x80);
      if cp >= 0x80 then Some((cp as char, 2)) else None
    else if 0xE0 <= b0 < 0xF0 && |bs| >= 3 && IsContinuation(bs[1]) && IsContinuation(bs[2]) then
      var cp := (b0 - 0xE0) * 4096 + (bs[1] as int - 0x80) * 64 + (bs[2] as int - 0x80);
      if cp >= 0x800 && !(0xD800 <= cp < 0xE000) then Some((cp as char, 3)) else None
    else if 0xF0 <= b0 < 0xF8 && |bs| >= 4 && IsContinuation(bs[1]) && IsContinuation(bs[2])
            && IsContinuation(bs[3]) then
      var cp := (b0 - 0xF0) * 262144 + (bs[1] as int - 0x80) * 4096
                + (bs[2] as int - 0x80) * 64 + (bs[3] as int - 0x80);
      if 0x10000 <= cp < 0x110000 then Some((cp as char, 4)) else None
    else None
  }

  /** `String(bytes)` on well-formed UTF-8; None where the JVM would put a
      replacement character. */
  function Utf8Decode(bs: seq<byte>): Option<string>
    decreases |bs|
  {
    if bs == [] then Some([])
    else match Utf8DecodeOne(bs)
      case None => None
      case Some((c, k)) =>
        match Utf8Decode(bs[k..])
        case None => None
        case Some(rest) => Some([c] + rest)
  }

  /** Each character's encoding decodes back to it. */
  lemma Utf8DecodeChar(c: char, rest: seq<byte>)
    ensures Utf8DecodeOne(Utf8Char(c) + rest) == Some((c, |Utf8Char(c)|))
  {
    var cp := c as int;
    if cp < 0x80 {
    } else if cp < 0x800 {
      DecodeTwo(c, rest);
    } else if cp < 0x10000 {
      DecodeThree(c, rest);
    } else {
      DecodeFour(c, rest);
    }
  }

  lemma DecodeTwo(c: char, rest: seq<byte>)
    requires 0x80 <= c as int < 0x800
    ensures Utf8DecodeOne(Utf8Char(c) + rest) == Some((c, 2))
  {
    var cp := c as int;
    assert (cp / 64) * 64 + cp % 64 == cp;
  }

  lemma DecodeThree(c: char, rest: seq<byte>)
    requires 0x800 <= c as int < 0x10000
    ensures Utf8DecodeOne(Utf8Char(c) + rest) == Some((c, 3))
  {
    var cp := c as int;
    var bs := Utf8Char(c) + rest;
    assert bs[0] as int - 0xE0 == cp / 4096;
    assert bs[1] as int - 0x80 == (cp / 64) % 64;
    assert bs[2] as int - 0x80 == cp % 64;
    assert (cp / 4096) * 4096 + ((cp / 64) % 64) * 64 + cp % 64 == cp;
  }

  lemma DecodeFour(c: char, rest: seq<byte>)
    requires 0x10000 <= c as int
    ensures Utf8DecodeOne(Utf8Char(c) + rest) == Some((c, 4))
  {
    var cp := c as int;
    var bs := Utf8Char(c) + rest;
    assert bs[0] as int - 0xF0 == cp / 262144;
    assert bs[1] as int - 0x80 == (cp / 4096) % 64;
    assert bs[2] as int - 0x80 == (cp / 64) % 64;
    assert bs[3] as int - 0x80 == cp % 64;
    var q1, q2, q3 := cp / 64, cp / 4096, cp / 262144;
    assert cp == q1 * 64 + cp % 64;
    assert q1 / 64 == q2 && q1 == q2 * 64 + q1 % 64;
    assert q2 / 64 == q3 && q2 == q3 * 64 + q2 % 64;
  }

  /** Decoding inverts `toByteArray()`. */
  lemma {:induction false} Utf8RoundTrip(s: string)
    ensures Utf8Decode(Utf8(s)) == Some(s)
  {
    if s != [] {
      var head := Utf8Char(s[0]);
      Utf8DecodeChar(s[0], Utf8(s[1..]));
      assert (head + Utf8(s[1..]))[|head|..] == Utf8(s[1..]);
      Utf8RoundTrip(s[1..]);
      assert [s[0]] + s[1..] == s;
    }
  }

  /** Characters `java.net.URLEncoder` leaves as they are. */
  predicate IsUrlSafe(c: char) {
    ('a' <= c <= 'z') || ('A' <= c <= 'Z') || ('0' <= c <= '9')
    || c == '.' || c == '-' || c == '*' || c == '_'
  }

  function HexDigit(d: nat): (r: char)
    requires d < 16
    ensures IsUrlSafe(r) && r != '.'
  {
    "0123456789ABCDEF"[d]
  }

  function PercentBytes(bs: seq<byte>): (r: string)
    ensures |r| == 3 * |bs|
    ensures forall i :: 0 <= i < |r| ==> r[i] == '%' || (IsUrlSafe(r[i]) && r[i] != '.')
  {
    if bs == [] then []
    else ['%', HexDigit(bs[0] as int / 16), HexDigit(bs[0] as int % 16)] + PercentBytes(bs[1..])
  }

  function UrlEncodeChar(c: char): (r: string)
    ensures r != []
    ensures IsUrlSafe(c) ==> r == [c]
    ensures forall i :: 0 <= i < |r| ==> r[i] == '+' || r[i] == '%' || IsUrlSafe(r[i])
    ensures c != '.' ==> '.' !in r
  {
    if IsUrlSafe(c) then [c]
    else if c == ' ' then "+"
    else PercentBytes(Utf8Char(c))
  }

  /** `URLEncoder.encode(s, "UTF-8")`: safe characters stay, a space becomes
      `+`, every other character becomes `%XY` per UTF-8 byte. */
  function UrlEncode(s: string): (r: string)
    ensures forall i :: 0 <= i < |r| ==> r[i] == '+' || r[i] == '%' || IsUrlSafe(r[i])
    ensures |r| >= |s|
  {
    if s == [] then [] else UrlEncodeChar(s[0]) + UrlEncode(s[1..])
  }

  /** An encoded value never contains a path separator or a line terminator,
      so substituting it cannot create a new path segment. */
  lemma UrlEncodeHasNoSlash(s: string)
    ensures '/' !in UrlEncode(s) && '\n' !in UrlEncode(s) && '\r' !in UrlEncode(s)
  {
  }

  /** A value made only of safe characters is encoded to itself. */
  lemma {:induction false} UrlEncodeSafeIdentity(s: string)
    requires forall i :: 0 <= i < |s| ==> IsUrlSafe(s[i])
    ensures UrlEncode(s) == s
  {
    if s != [] {
      UrlEncodeSafeIdentity(s[1..]);
    }
  }
}
