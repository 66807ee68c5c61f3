/** String operations of the browser scripts, as ECMAScript defines them:
    the white-space class used by `\s` and `String.prototype.trim`,
    `includes`, `split(' ')`, ASCII upper-casing and decimal rendering. */
module Text {

  /** ECMAScript WhiteSpace and LineTerminator code points: what `\s`
      matches and what `trim` strips. */
  predicate IsWhiteSpace(c: char)
  {
    c == '\t' || c == '\n' || c == '\U{000B}' || c == '\U{000C}' || c == '\r' ||
    c == ' ' || c == '\U{00A0}' || c == '\U{1680}' ||
    ('\U{2000}' <= c <= '\U{200A}') ||
    c == '\U{2028}' || c == '\U{2029}' || c == '\U{202F}' || c == '\U{205F}' ||
    c == '\U{3000}' || c == '\U{FEFF}'
  }

  predicate NoWhiteSpace(s: string)
  {
    forall k :: 0 <= k < |s| ==> !IsWhiteSpace(s[k])
  }

  predicate AllWhiteSpace(s: string)
  {
    forall k :: 0 <= k < |s| ==> IsWhiteSpace(s[k])
  }

  /** Number of white-space characters at the front of `s`. */
  function LeadingSpace(s: string): (n: nat)
    ensures n <= |s|
    ensures forall k :: 0 <= k < n ==> IsWhiteSpace(s[k])
    ensures n < |s| ==> !IsWhiteSpace(s[n])
  {
    if |s| > 0 && IsWhiteSpace(s[0]) then 1 + LeadingSpace(s[1..]) else 0
  }

  /** Index where the white-space run at the end of `s` starts. */
  function TrailingSpaceStart(s: string): (n: nat)
    ensures n <= |s|
    ensures forall k :: n <= k < |s| ==> IsWhiteSpace(s[k])
    ensures n > 0 ==> !IsWhiteSpace(s[n - 1])
  {
    if |s| > 0 && IsWhiteSpace(s[|s| - 1]) then TrailingSpaceStart(s[..|s| - 1]) else |s|
  }

  /** `String.prototype.trim`: the slice of `s` left after dropping white
      space at both ends. */
  function Trim(s: string): (r: string)
    ensures |r| <= |s|
    ensures r == [] <==> AllWhiteSpace(s)
    ensures r != [] ==> !IsWhiteSpace(r[0]) && !IsWhiteSpace(r[|r| - 1])
    ensures exists i, j :: 0 <= i <= j <= |s| && r == s[i..j] && AllWhiteSpace(s[..i]) && AllWhiteSpace(s[j..])
  {
    var i := LeadingSpace(s);
    var j := TrailingSpaceStart(s[i..]);
    assert s[i..][..j] == s[i..i + j];
    assert AllWhiteSpace(s[..i]);
    var tail := s[i + j..];
    assert AllWhiteSpace(tail) by {
      forall k | 0 <= k < |tail| ensures IsWhiteSpace(tail[k]) {
        assert tail[k] == s[i..][j + k];
      }
    }
    s[i..i + j]
  }

  /** Trimming a string without white space at its ends leaves it as it is. */
  lemma TrimKeepsInner(s: string)
    requires s != [] ==> !IsWhiteSpace(s[0]) && !IsWhiteSpace(s[|s| - 1])
    ensures Trim(s) == s
  {
    assert LeadingSpace(s) == 0;
    if s != [] {
      assert s[0..] == s;
    }
  }

  /** `String.prototype.includes`. */
  predicate Includes(s: string, part: string)
  {
    |part| <= |s| && (s[..|part|] == part || Includes(s[1..], part))
  }

  /** Upper-casing of one character, ASCII letters only. */
  function UpperChar(c: char): char
  {
    if 'a' <= c <= 'z' then (c as int - 32) as char else c
  }

  /** `String.prototype.toUpperCase`, restricted to ASCII letters. */
  function ToUpperCase(s: string): (r: string)
    ensures |r| == |s|
    ensures forall k :: 0 <= k < |s| ==> r[k] == UpperChar(s[k])
  {
    seq(|s|, k requires 0 <= k < |s| => UpperChar(s[k]))
  }

  predicate NoLowerAscii(s: string)
  {
    forall k :: 0 <= k < |s| ==> !('a' <= s[k] <= 'z')
  }

  /** Upper-casing changes a string exactly when it holds a lower-case
      ASCII letter, and its result never holds one. */
  lemma ToUpperCaseFixedPoints(s: string)
    ensures ToUpperCase(s) == s <==> NoLowerAscii(s)
    ensures NoLowerAscii(ToUpperCase(s))
    ensures ToUpperCase(ToUpperCase(s)) == ToUpperCase(s)
  {
    if !NoLowerAscii(s) {
      var k :| 0 <= k < |s| && 'a' <= s[k] <= 'z';
      assert ToUpperCase(s)[k] != s[k];
    }
  }

  /** `s.indexOf(c)` for a character that occurs in `s`. */
  function IndexOf(s: string, c: char): (i: nat)
    requires c in s
    ensures i < |s| && s[i] == c && c !in s[..i]
  {
    if s[0] == c then 0 else
      assert s == [s[0]] + s[1..];
      var j := IndexOf(s[1..], c);
      assert s[..j + 1] == [s[0]] + s[1..][..j];
      j + 1
  }

  /** The first occurrence is the only index below which `c` does not occur. */
  lemma IndexOfUnique(s: string, c: char, i: nat)
    requires i < |s| && s[i] == c && c !in s[..i]
    ensures IndexOf(s, c) == i
  {
    var j := IndexOf(s, c);
    forall m | 0 <= m < i ensures s[m] != c {
      assert s[..i][m] == s[m];
    }
    forall m | 0 <= m < j ensures s[m] != c {
      assert s[..j][m] == s[m];
    }
  }

  /** `s.split(' ')`: the pieces between single spaces; an empty string or
      a doubled space yields empty pieces, as in ECMAScript. */
  function SplitOnSpace(s: string): (parts: seq<string>)
    ensures |parts| >= 1
    ensures forall k :: 0 <= k < |parts| ==> ' ' !in parts[k]
    decreases |s|
  {
    if ' ' in s then
      var i := IndexOf(s, ' ');
      [s[..i]] + SplitOnSpace(s[i + 1..])
    else
      [s]
  }

  /** `parts.join(' ')`. */
  function JoinWithSpace(parts: seq<string>): string
    requires |parts| >= 1
  {
    if |parts| == 1 then parts[0] else parts[0] + " " + JoinWithSpace(parts[1..])
  }

  /** Splitting on spaces and joining the pieces with spaces gives back the
      original string. */
  lemma {:induction false} JoinSplit(s: string)
    ensures JoinWithSpace(SplitOnSpace(s)) == s
    decreases |s|
  {
    if ' ' in s {
      var i := IndexOf(s, ' ');
      JoinSplit(s[i + 1..]);
      assert s == s[..i] + " " + s[i + 1..];
    }
  }

  /** Splitting a space-free piece, a space and a rest yields the piece
      followed by the pieces of the rest. */
  lemma SplitAfterPiece(piece: string, rest: string)
    requires ' ' !in piece
    ensures SplitOnSpace(piece + " " + rest) == [piece] + SplitOnSpace(rest)
  {
    var s := piece + " " + rest;
    assert s[|piece|] == ' ';
    assert s[..|piece|] == piece;
    IndexOfUnique(s, ' ', |piece|);
    assert s[|piece| + 1..] == rest;
  }

  /** Joining space-free pieces with spaces and splitting the result gives
      back the pieces. */
  lemma {:induction false} SplitJoin(parts: seq<string>)
    requires |parts| >= 1
    requires forall k :: 0 <= k < |parts| ==> ' ' !in parts[k]
    ensures SplitOnSpace(JoinWithSpace(parts)) == parts
  {
    if |parts| > 1 {
      SplitJoin(parts[1..]);
      SplitAfterPiece(parts[0], JoinWithSpace(parts[1..]));
      assert parts == [parts[0]] + parts[1..];
    }
  }

  function DigitChar(d: nat): char
    requires d < 10
  {
    "0123456789"[d]
  }

  /** Decimal rendering of a natural number, as `String(n)`. */
  function DecimalString(n: nat): (r: string)
    ensures |r| >= 1
    ensures forall k :: 0 <= k < |r| ==> '0' <= r[k] <= '9'
    ensures (r[0] == '0') == (n == 0)
  {
    if n < 10 then [DigitChar(n)] else DecimalString(n / 10) + [DigitChar(n % 10)]
  }

  /** Value of a string of decimal digits. */
  function DecimalValue(s: string): nat
    requires forall k :: 0 <= k < |s| ==> '0' <= s[k] <= '9'
  {
    if s == [] then 0 else 10 * DecimalValue(s[..|s| - 1]) + (s[|s| - 1] as int - '0' as int)
  }

  /** Reading back a rendered number yields the number. */
  lemma {:induction false} DecimalRoundTrip(n: nat)
    ensures DecimalValue(DecimalString(n)) == n
  {
    if n >= 10 {
      DecimalRoundTrip(n / 10);
      var r := DecimalString(n);
      assert r[..|r| - 1] == DecimalString(n / 10);
    }
  }

  /** Distinct numbers render as distinct strings. */
  lemma DecimalInjective(m: nat, n: nat)
    requires DecimalString(m) == DecimalString(n)
    ensures m == n
  {
    DecimalRoundTrip(m);
    DecimalRoundTrip(n);
  }
}
