/** The PHP string functions the plugin relies on, with PHP's own semantics:
    `empty()` on a string, ASCII case folding (`strtolower`, `stripos`),
    `trim` with a character list, `explode`, integer formatting and
    `rawurlencode`. */
module Strings {

  /** PHP's `empty()` on a string: `""` and `"0"` are both empty. */
  predicate PhpEmpty(s: string) {
    s == "" || s == "0"
  }

  /** The characters PHP's `trim()` strips when no list is given. */
  const PhpWhitespace: set<char> := {' ', '\t', '\n', '\r', '\0', '\U{000B}'}

  function LowerChar(c: char): char {
    if 'A' <= c <= 'Z' then (c as int + 32) as char else c
  }

  /** `strtolower`: ASCII letters only, as PHP 8 does. */
  function Lower(s: string): (r: string)
    ensures |r| == |s|
    ensures forall i :: 0 <= i < |s| ==> r[i] == LowerChar(s[i])
  {
    seq(|s|, i requires 0 <= i < |s| => LowerChar(s[i]))
  }

  lemma LowerConcat(a: string, b: string)
    ensures Lower(a + b) == Lower(a) + Lower(b)
  {
  }

  /** A string without upper-case ASCII letters is its own lower case. */
  lemma LowerOfLower(s: string)
    requires forall k :: 0 <= k < |s| ==> !('A' <= s[k] <= 'Z')
    ensures Lower(s) == s
  {
  }

  predicate HasPrefix(s: string, p: string) {
    |p| <= |s| && s[..|p|] == p
  }

  predicate HasSuffix(s: string, p: string) {
    |p| <= |s| && s[|s| - |p|..] == p
  }

  /** `false !== strpos( $s, $t )`. */
  predicate Contains(s: string, t: string)
    decreases |s|
  {
    HasPrefix(s, t) || (|s| > 0 && Contains(s[1..], t))
  }

  /** A string contains only what is at least as long as the needle. */
  lemma {:induction false} ContainsLength(s: string, t: string)
    requires Contains(s, t)
    ensures |t| <= |s|
    decreases |s|
  {
    if !HasPrefix(s, t) {
      ContainsLength(s[1..], t);
    }
  }

  lemma {:induction false} ContainsAfter(x: string, t: string, y: string)
    ensures Contains(x + t + y, t)
    decreases |x|
  {
    if |x| == 0 {
      assert (x + t + y)[..|t|] == t;
    } else {
      assert (x + t + y)[1..] == x[1..] + t + y;
      ContainsAfter(x[1..], t, y);
    }
  }

  // ---------------------------------------------------------------------
  // trim( $s, $characters )

  /** The number of leading characters of `s` that belong to `cs`. */
  function LeadingIn(s: string, cs: set<char>): (n: nat)
    ensures n <= |s|
    ensures forall k :: 0 <= k < n ==> s[k] in cs
    ensures n < |s| ==> s[n] !in cs
  {
    if |s| == 0 || s[0] !in cs then 0 else 1 + LeadingIn(s[1..], cs)
  }

  /** The length of `s` once its trailing characters from `cs` are cut. */
  function EndWithout(s: string, cs: set<char>): (e: nat)
    ensures e <= |s|
    ensures forall k :: e <= k < |s| ==> s[k] in cs
    ensures e > 0 ==> s[e - 1] !in cs
  {
    if |s| == 0 || s[|s| - 1] !in cs then |s| else EndWithout(s[..|s| - 1], cs)
  }

  function TrimLeft(s: string, cs: set<char>): string {
    s[LeadingIn(s, cs)..]
  }

  function TrimRight(s: string, cs: set<char>): string {
    s[..EndWithout(s, cs)]
  }

  /** `trim( $s, $characters )`: strips characters of `cs` from both ends.
      The result neither starts nor ends with one of them, and it is empty
      exactly when every character of `s` is in `cs`. */
  function TrimChars(s: string, cs: set<char>): (r: string)
    ensures |r| <= |s|
    ensures |r| > 0 ==> r[0] !in cs && r[|r| - 1] !in cs
    ensures r == [] <==> forall k :: 0 <= k < |s| ==> s[k] in cs
  {
    var t := TrimLeft(s, cs);
    assert forall k :: 0 <= k < |t| ==> t[k] == s[LeadingIn(s, cs) + k];
    TrimRight(t, cs)
  }

  /** `trim( $s )` with PHP's default character list. */
  function Trim(s: string): (r: string)
    ensures |r| > 0 ==> r[0] !in PhpWhitespace && r[|r| - 1] !in PhpWhitespace
  {
    TrimChars(s, PhpWhitespace)
  }

  /** A string is left alone by `trim` exactly when it neither starts nor
      ends with a character of the list. */
  lemma TrimFixedPoint(s: string, cs: set<char>)
    ensures TrimChars(s, cs) == s <==> (s == [] || (s[0] !in cs && s[|s| - 1] !in cs))
  {
    if s != [] && s[0] !in cs && s[|s| - 1] !in cs {
      assert LeadingIn(s, cs) == 0;
      assert s[0..] == s;
    }
  }

  /** Trimming twice is trimming once. */
  lemma TrimIdempotent(s: string, cs: set<char>)
    ensures TrimChars(TrimChars(s, cs), cs) == TrimChars(s, cs)
  {
    TrimFixedPoint(TrimChars(s, cs), cs);
  }

  /** Padding a trimmed string with characters of the list on both sides
      does not change what `trim` returns. */
  lemma {:induction false} TrimPadded(x: string, s: string, y: string, cs: set<char>)
    requires forall k :: 0 <= k < |x| ==> x[k] in cs
    requires forall k :: 0 <= k < |y| ==> y[k] in cs
    requires s != [] && s[0] !in cs && s[|s| - 1] !in cs
    ensures TrimChars(x + s + y, cs) == s
  {
    var w := x + s + y;
    LeadingPadded(x, s + y, cs);
    assert w == x + (s + y);
    assert TrimLeft(w, cs) == s + y;
    EndPadded(s, y, cs);
  }

  lemma {:induction false} LeadingPadded(x: string, t: string, cs: set<char>)
    requires forall k :: 0 <= k < |x| ==> x[k] in cs
    requires t != [] && t[0] !in cs
    ensures LeadingIn(x + t, cs) == |x|
    decreases |x|
  {
    if |x| > 0 {
      assert (x + t)[1..] == x[1..] + t;
      LeadingPadded(x[1..], t, cs);
    }
  }

  lemma {:induction false} EndPadded(s: string, y: string, cs: set<char>)
    requires forall k :: 0 <= k < |y| ==> y[k] in cs
    requires s != [] && s[|s| - 1] !in cs
    ensures TrimRight(s + y, cs) == s
    decreases |y|
  {
    if |y| == 0 {
      assert s + y == s;
    } else {
      var w := s + y;
      assert w[..|w| - 1] == s + y[..|y| - 1];
      EndPadded(s, y[..|y| - 1], cs);
      assert (s + y)[..|s|] == s;
    }
  }

  // ---------------------------------------------------------------------
  // explode( $c, $s )

  /** The inverse of `explode`: the parts written back with `c` between them. */
  function Join(parts: seq<string>, c: char): string
    requires |parts| >= 1
  {
    if |parts| == 1 then parts[0] else parts[0] + [c] + Join(parts[1..], c)
  }

  /** `explode( $c, $s )`: the pieces of `s` between occurrences of `c`.
      No piece contains `c`, writing them back with `c` between them gives
      `s` again, and there is more than one piece exactly when `c` occurs
      in `s`. */
  function Split(s: string, c: char): (parts: seq<string>)
    ensures |parts| >= 1
    ensures forall i :: 0 <= i < |parts| ==> c !in parts[i]
    ensures Join(parts, c) == s
    ensures |parts| == 1 <==> c !in s
    decreases |s|
  {
    if |s| == 0 then
      [""]
    else
      var rest := Split(s[1..], c);
      if s[0] == c then
        assert s == [c] + s[1..];
        [""] + rest
      else
        var parts := [[s[0]] + rest[0]] + rest[1..];
        assert parts[1..] == rest[1..];
        assert s == [s[0]] + s[1..];
        parts
  }

  /** `explode` cuts at the first separator. */
  lemma {:induction false} SplitAtFirst(a: string, c: char, b: string)
    requires c !in a
    ensures Split(a + [c] + b, c) == [a] + Split(b, c)
    decreases |a|
  {
    var s := a + [c] + b;
    if |a| == 0 {
      assert s[1..] == b;
    } else {
      assert s[1..] == a[1..] + [c] + b;
      SplitAtFirst(a[1..], c, b);
      assert [a[0]] + a[1..] == a;
    }
  }

  // ---------------------------------------------------------------------
  // sprintf( '%d', $n )

  function DigitChar(d: nat): char
    requires d < 10
  {
    (48 + d) as char
  }

  /** The decimal digits of `n`, most significant first. */
  function NatToString(n: nat): (r: string)
    ensures |r| >= 1
    ensures forall k :: 0 <= k < |r| ==> '0' <= r[k] <= '9'
  {
    if n < 10 then [DigitChar(n)] else NatToString(n / 10) + [DigitChar(n % 10)]
  }

  /** The number a string of decimal digits stands for. */
  function DigitsValue(s: string): nat
    requires forall k :: 0 <= k < |s| ==> '0' <= s[k] <= '9'
  {
    if s == [] then 0 else DigitsValue(s[..|s| - 1]) * 10 + (s[|s| - 1] as int - '0' as int)
  }

  /** Reading the digits back gives the number. */
  lemma {:induction false} NatToStringRoundTrip(n: nat)
    ensures DigitsValue(NatToString(n)) == n
  {
    if n >= 10 {
      NatToStringRoundTrip(n / 10);
      var r := NatToString(n);
      assert r[..|r| - 1] == NatToString(n / 10);
    }
  }

  /** Distinct numbers are written differently. */
  lemma NatToStringInjective(a: nat, b: nat)
    ensures NatToString(a) == NatToString(b) <==> a == b
  {
    NatToStringRoundTrip(a);
    NatToStringRoundTrip(b);
  }

  /** `%d` formatting of an integer. */
  function IntToString(i: int): string {
    if i < 0 then "-" + NatToString(-i) else NatToString(i)
  }

  // ---------------------------------------------------------------------
  // rawurlencode( $s )

  /** The characters `rawurlencode` leaves as they are (RFC 3986, section 2.3). */
  predicate Unreserved(c: char) {
    ('A' <= c <= 'Z') || ('a' <= c <= 'z') || ('0' <= c <= '9') || c == '-' || c == '_' || c == '.' || c == '~'
  }

  predicate UpperHexDigit(c: char) {
    ('0' <= c <= '9') || ('A' <= c <= 'F')
  }

  /** The characters that can appear in the output of `rawurlencode`. */
  predicate UrlSafe(c: char) {
    Unreserved(c) || c == '%'
  }

  function HexChar(d: nat): (c: char)
    requires d < 16
    ensures UpperHexDigit(c)
  {
    "0123456789ABCDEF"[d]
  }

  /** The UTF-8 encoding of one code point. */
  function Utf8(cp: nat): (bytes: seq<nat>)
    requires cp < 0x11_0000
    ensures 1 <= |bytes| <= 4
    ensures forall k :: 0 <= k < |bytes| ==> bytes[k] < 256
  {
    if cp < 0x80 then [cp]
    else if cp < 0x800 then [0xC0 + cp / 0x40, 0x80 + cp % 0x40]
    else if cp < 0x1_0000 then [0xE0 + cp / 0x1000, 0x80 + (cp / 0x40) % 0x40, 0x80 + cp % 0x40]
    else [0xF0 + cp / 0x4_0000, 0x80 + (cp / 0x1000) % 0x40, 0x80 + (cp / 0x40) % 0x40, 0x80 + cp % 0x40]
  }

  /** `%XX` for every byte, upper-case hexadecimal. */
  function PercentBytes(bytes: seq<nat>): (r: string)
    requires forall k :: 0 <= k < |bytes| ==> bytes[k] < 256
    ensures |r| == 3 * |bytes|
    ensures forall k :: 0 <= k < |r| ==> r[k] == '%' || UpperHexDigit(r[k])
  {
    if bytes == [] then ""
    else ['%', HexChar(bytes[0] / 16), HexChar(bytes[0] % 16)] + PercentBytes(bytes[1..])
  }

  function EncodeChar(c: char): (r: string)
    ensures forall k :: 0 <= k < |r| ==> UrlSafe(r[k])
  {
    if Unreserved(c) then [c] else PercentBytes(Utf8(c as nat))
  }

  /** `rawurlencode`: the result is made only of unreserved characters and
      percent escapes, so in particular it never contains `/`; a string of
      unreserved characters is returned unchanged. */
  function RawUrlEncode(s: string): (r: string)
    ensures forall k :: 0 <= k < |r| ==> UrlSafe(r[k])
    ensures (forall k :: 0 <= k < |s| ==> Unreserved(s[k])) ==> r == s
  {
    if s == [] then ""
    else
      var r := EncodeChar(s[0]) + RawUrlEncode(s[1..]);
      assert Unreserved(s[0]) ==> [s[0]] + s[1..] == s;
      r
  }
}
