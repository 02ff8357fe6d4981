/**
 * String helpers shared by the models: decimal rendering of integers, padding,
 * ASCII case mapping, whitespace classes of Python and JavaScript, substring
 * search, comma segments and joining.
 */
module Text {

  predicate IsDigit(c: char) { '0' <= c <= '9' }

  predicate AllDigits(s: string) { forall i :: 0 <= i < |s| ==> IsDigit(s[i]) }

  function DigitChar(d: nat): (c: char)
    requires d < 10
    ensures IsDigit(c)
  {
    ('0' as int + d) as char
  }

  function DigitValue(c: char): (d: nat)
    requires IsDigit(c)
    ensures d < 10
  {
    c as int - '0' as int
  }

  /** Decimal rendering of a natural number, as Python's str() and JavaScript's toString() give it. */
  function NatToString(n: nat): (s: string)
    ensures |s| >= 1 && AllDigits(s)
    ensures |s| > 1 ==> s[0] != '0'
    decreases n
  {
    if n < 10 then [DigitChar(n)] else NatToString(n / 10) + [DigitChar(n % 10)]
  }

  /** Reads the digits of s as a decimal number. */
  function ParseNat(s: string): nat
    requires AllDigits(s)
  {
    if s == [] then 0 else ParseNat(s[..|s| - 1]) * 10 + DigitValue(s[|s| - 1])
  }

  /**
   * r reads as a clock h:m:s: two colons, minutes and seconds of two digits
   * each, hours of at least two digits, and the three fields read back as h,
   * m and s.
   */
  predicate ReadsAsClock(r: string, h: nat, m: nat, s: nat) {
    |r| >= 8 && r[|r| - 6] == ':' && r[|r| - 3] == ':'
    && AllDigits(r[..|r| - 6]) && AllDigits(r[|r| - 5..|r| - 3]) && AllDigits(r[|r| - 2..])
    && ParseNat(r[..|r| - 6]) == h && ParseNat(r[|r| - 5..|r| - 3]) == m && ParseNat(r[|r| - 2..]) == s
  }

  /** The pieces of h:m:s for minutes and seconds of two characters. */
  lemma ClockPieces(h: string, m: string, t: string)
    requires |m| == 2 && |t| == 2
    ensures var r := h + ":" + m + ":" + t;
      |r| == |h| + 6 && r[|r| - 6] == ':' && r[|r| - 3] == ':'
      && r[..|r| - 6] == h && r[|r| - 5..|r| - 3] == m && r[|r| - 2..] == t
  {
    var tail := ":" + m + ":" + t;
    var r := h + tail;
    assert |tail| == 6 && tail[0] == ':' && tail[3] == ':';
    assert tail[1..3] == m && tail[4..] == t;
    assert h + ":" + m + ":" + t == r;
    assert r[..|r| - 6] == h;
    assert r[|r| - 5..|r| - 3] == tail[1..3];
    assert r[|r| - 2..] == tail[4..];
  }

  /** Rendering a number and reading it back gives the number again. */
  lemma {:induction false} ParseNatToString(n: nat)
    ensures ParseNat(NatToString(n)) == n
    decreases n
  {
    if n >= 10 {
      var s := NatToString(n);
      assert s[..|s| - 1] == NatToString(n / 10);
      ParseNatToString(n / 10);
    }
  }

  /** Decimal rendering of an integer, with a leading '-' for negative numbers. */
  function IntToString(i: int): (s: string)
    ensures |s| >= 1
    ensures i >= 0 <==> IsDigit(s[0])
  {
    if i < 0 then "-" + NatToString(-i) else NatToString(i)
  }

  /** Different integers render to different strings. */
  lemma IntToStringInjective(a: int, b: int)
    requires IntToString(a) == IntToString(b)
    ensures a == b
  {
    if a < 0 {
      assert IntToString(a)[1..] == NatToString(-a);
      assert IntToString(b)[1..] == NatToString(-b);
      ParseNatToString(-a);
      ParseNatToString(-b);
    } else {
      ParseNatToString(a);
      ParseNatToString(b);
    }
  }

  function Repeat(c: char, n: nat): (s: string)
    ensures |s| == n && forall i :: 0 <= i < n ==> s[i] == c
  {
    if n == 0 then [] else [c] + Repeat(c, n - 1)
  }

  /** JavaScript's s.padStart(2, '0'). */
  function PadStart2(s: string): (r: string)
    ensures |s| >= 2 ==> r == s
    ensures |s| < 2 ==> |r| == 2 && r[2 - |s|..] == s && forall i :: 0 <= i < 2 - |s| ==> r[i] == '0'
  {
    if |s| >= 2 then s else Repeat('0', 2 - |s|) + s
  }

  /** A non-negative number below 100 rendered with exactly two digits (strftime's %H, %M, %S). */
  function TwoDigits(n: nat): (s: string)
    requires n < 100
    ensures |s| == 2 && AllDigits(s) && ParseNat(s) == n
  {
    TwoDigitsReadBack(n);
    PadStart2(NatToString(n))
  }

  lemma TwoDigitsReadBack(n: nat)
    requires n < 100
    ensures var r := PadStart2(NatToString(n)); |r| == 2 && AllDigits(r) && ParseNat(r) == n
  {
    var r := PadStart2(NatToString(n));
    if n < 10 {
      assert r == ['0', DigitChar(n)];
      assert r[..1] == ['0'] && ['0'][..0] == [];
      assert ParseNat(['0']) == 0;
    } else {
      ParseNatToString(n);
    }
  }

  /** The two characters of TwoDigits: a leading zero below ten, otherwise tens and units. */
  lemma TwoDigitsChars(n: nat)
    requires n < 100
    ensures n < 10 ==> TwoDigits(n) == ['0', DigitChar(n)]
    ensures n >= 10 ==> TwoDigits(n) == [DigitChar(n / 10), DigitChar(n % 10)]
  {
    if n >= 10 {
      assert NatToString(n / 10) == [DigitChar(n / 10)];
    }
  }

  function LowerChar(c: char): char {
    if 'A' <= c <= 'Z' then (c as int + 32) as char else c
  }

  function UpperChar(c: char): char {
    if 'a' <= c <= 'z' then (c as int - 32) as char else c
  }

  /** ASCII lower-casing (JavaScript's toLowerCase restricted to ASCII letters). */
  function ToLower(s: string): (r: string)
    ensures |r| == |s| && forall i :: 0 <= i < |s| ==> r[i] == LowerChar(s[i])
  {
    if s == [] then [] else [LowerChar(s[0])] + ToLower(s[1..])
  }

  /** ASCII upper-casing (Python's str.upper / JavaScript's toUpperCase restricted to ASCII letters). */
  function ToUpper(s: string): (r: string)
    ensures |r| == |s| && forall i :: 0 <= i < |s| ==> r[i] == UpperChar(s[i])
  {
    if s == [] then [] else [UpperChar(s[0])] + ToUpper(s[1..])
  }

  /** Upper-casing leaves a text without lower-case letters unchanged. */
  lemma ToUpperNoLower(s: string)
    requires forall i :: 0 <= i < |s| ==> !('a' <= s[i] <= 'z')
    ensures ToUpper(s) == s
  {
  }

  predicate IsAsciiLetter(c: char) { 'A' <= c <= 'Z' || 'a' <= c <= 'z' }

  /** The characters for which Python's str.isspace() is true. */
  predicate IsPySpace(c: char) {
    var n := c as int;
    (9 <= n <= 13) || (0x1c <= n <= 0x20) || n == 0x85 || n == 0xa0 || n == 0x1680
    || (0x2000 <= n <= 0x200a) || n == 0x2028 || n == 0x2029 || n == 0x202f
    || n == 0x205f || n == 0x3000
  }

  /** The characters JavaScript's String.prototype.trim removes (white space and line terminators). */
  predicate IsJsSpace(c: char) {
    var n := c as int;
    (9 <= n <= 13) || n == 0x20 || n == 0xa0 || n == 0x1680 || (0x2000 <= n <= 0x200a)
    || n == 0x2028 || n == 0x2029 || n == 0x202f || n == 0x205f || n == 0x3000 || n == 0xfeff
  }

  function TrimStart(s: string, isSpace: char -> bool): (r: string)
    ensures |r| <= |s| && r == s[|s| - |r|..]
    ensures r != [] ==> !isSpace(r[0])
    ensures forall i :: 0 <= i < |s| - |r| ==> isSpace(s[i])
  {
    if s != [] && isSpace(s[0]) then
      var r := TrimStart(s[1..], isSpace);
      assert forall i :: 1 <= i < |s| - |r| ==> s[i] == s[1..][i - 1];
      r
    else s
  }

  function TrimEnd(s: string, isSpace: char -> bool): (r: string)
    ensures |r| <= |s| && r == s[..|r|]
    ensures r != [] ==> !isSpace(r[|r| - 1])
    ensures forall i :: |r| <= i < |s| ==> isSpace(s[i])
  {
    if s != [] && isSpace(s[|s| - 1]) then TrimEnd(s[..|s| - 1], isSpace) else s
  }

  /** Python's str.strip() with no argument. */
  function PyStrip(s: string): string {
    TrimEnd(TrimStart(s, IsPySpace), IsPySpace)
  }

  /** JavaScript's String.prototype.trim(). */
  function JsTrim(s: string): string {
    TrimEnd(TrimStart(s, IsJsSpace), IsJsSpace)
  }

  /** JavaScript's s.includes(sub) and Python's `sub in s`. */
  predicate Contains(s: string, sub: string)
    decreases |s|
  {
    sub <= s || (s != [] && Contains(s[1..], sub))
  }

  /** sub occurs in s starting at position i. */
  predicate OccursAt(s: string, sub: string, i: int) {
    0 <= i && i + |sub| <= |s| && s[i..i + |sub|] == sub
  }

  /** Contains means an occurrence at some position. */
  lemma {:induction false} ContainsAt(s: string, sub: string)
    requires Contains(s, sub)
    ensures exists i :: OccursAt(s, sub, i)
    decreases |s|
  {
    if sub <= s {
      assert s[0..|sub|] == sub;
      assert OccursAt(s, sub, 0);
    } else {
      ContainsAt(s[1..], sub);
      var i :| OccursAt(s[1..], sub, i);
      assert s[i + 1..i + 1 + |sub|] == s[1..][i..i + |sub|];
      assert OccursAt(s, sub, i + 1);
    }
  }

  /** Python's s[:n]: a negative n counts from the end. */
  function SliceTo<T>(s: seq<T>, n: int): (r: seq<T>)
    ensures r <= s
    ensures 0 <= n ==> |r| == if n <= |s| then n else |s|
    ensures n < 0 ==> |r| == if |s| + n >= 0 then |s| + n else 0
  {
    if n >= 0 then (if n <= |s| then s[..n] else s)
    else if |s| + n >= 0 then s[..|s| + n] else []
  }

  /** The text before the first occurrence of sep (Python's s.split(sep)[0]). */
  function FirstSegment(s: string, sep: char): (r: string)
    ensures r <= s && sep !in r
    ensures |r| < |s| ==> s[|r|] == sep
  {
    if s == [] || s[0] == sep then [] else [s[0]] + FirstSegment(s[1..], sep)
  }

  /** What follows the first sep does not change the first segment. */
  lemma {:induction false} FirstSegmentBeforeSep(a: string, sep: char, b: string)
    ensures FirstSegment(a + [sep] + b, sep) == FirstSegment(a, sep)
    decreases |a|
  {
    if a == [] {
      assert (a + [sep] + b)[0] == sep;
    } else {
      assert (a + [sep] + b)[0] == a[0];
      assert (a + [sep] + b)[1..] == a[1..] + [sep] + b;
      FirstSegmentBeforeSep(a[1..], sep, b);
    }
  }

  /** The text after the last occurrence of sep (Python's s.split(sep)[-1]). */
  function LastSegment(s: string, sep: char): (r: string)
    ensures |r| <= |s| && r == s[|s| - |r|..] && sep !in r
    ensures |r| < |s| ==> s[|s| - |r| - 1] == sep
  {
    if s == [] || s[|s| - 1] == sep then [] else LastSegment(s[..|s| - 1], sep) + [s[|s| - 1]]
  }

  /** A text without sep is its own first segment. */
  lemma FirstSegmentWhole(s: string, sep: char)
    requires sep !in s
    ensures FirstSegment(s, sep) == s
  {
  }

  /** A text without sep is its own last segment. */
  lemma LastSegmentWhole(s: string, sep: char)
    requires sep !in s
    ensures LastSegment(s, sep) == s
  {
  }

  /** What comes before the last sep does not change the last segment. */
  lemma LastSegmentAfterSep(a: string, sep: char, b: string)
    requires sep !in b
    ensures LastSegment(a + [sep] + b, sep) == b
  {
    var s := a + [sep] + b;
    assert s[|s| - |b|..] == b;
    assert s[|s| - |b| - 1] == sep;
  }

  /** The parts joined with sep between consecutive parts (Python's sep.join, JavaScript's join). */
  function Join(parts: seq<string>, sep: string): string {
    if parts == [] then []
    else if |parts| == 1 then parts[0]
    else parts[0] + sep + Join(parts[1..], sep)
  }

  lemma {:induction false} JoinAppend(parts: seq<string>, p: string, sep: string)
    requires parts != []
    ensures Join(parts + [p], sep) == Join(parts, sep) + sep + p
    decreases |parts|
  {
    if |parts| == 1 {
      assert parts + [p] == [parts[0], p];
      assert [parts[0], p][1..] == [p];
    } else {
      assert (parts + [p])[1..] == parts[1..] + [p];
      JoinAppend(parts[1..], p, sep);
    }
  }
}
