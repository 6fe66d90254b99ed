/** The JavaScript string operations the core relies on, over `seq<char>`
    (Dafny chars are Unicode scalar values): `toLowerCase` on ASCII letters,
    `trim`, `split` on one character, `includes`, `padStart`, decimal
    rendering of integers, and `.length` counted in UTF-16 code units. */
module Strings {

  // ---------------------------------------------------------------- case

  function LowerChar(c: char): char {
    if 'A' <= c <= 'Z' then (c as int + 32) as char else c
  }

  /** `s.toLowerCase()` for ASCII letters; every other character is kept. */
  function Lower(s: string): (r: string)
    ensures |r| == |s|
    ensures forall i :: 0 <= i < |s| ==> r[i] == LowerChar(s[i])
    ensures forall i :: 0 <= i < |r| ==> !('A' <= r[i] <= 'Z')
  {
    seq(|s|, i requires 0 <= i < |s| => LowerChar(s[i]))
  }

  lemma LowerIdempotent(s: string)
    ensures Lower(Lower(s)) == Lower(s)
  {
    assert forall i :: 0 <= i < |s| ==> Lower(Lower(s))[i] == Lower(s)[i];
  }

  // ---------------------------------------------------------------- trim

  /** The characters `String.prototype.trim` removes: WhiteSpace and
      LineTerminator of ECMA-262 (section 12.2 and 12.3 of the 2023 edition). */
  predicate IsJsSpace(c: char) {
    c == '\t' || c == '\n' || c == '\U{000B}' || c == '\U{000C}' || c == '\r' || c == ' '
    || c == '\U{00A0}' || c == '\U{1680}' || ('\U{2000}' <= c <= '\U{200A}')
    || c == '\U{2028}' || c == '\U{2029}' || c == '\U{202F}' || c == '\U{205F}'
    || c == '\U{3000}' || c == '\U{FEFF}'
  }

  /** Where `trim` starts: the first index from `i` on that is not white
      space, or the end. */
  function TrimStartIndex(s: string, i: nat): (k: nat)
    requires i <= |s|
    ensures i <= k <= |s|
    ensures forall j :: i <= j < k ==> IsJsSpace(s[j])
    ensures k < |s| ==> !IsJsSpace(s[k])
    decreases |s| - i
  {
    if i < |s| && IsJsSpace(s[i]) then TrimStartIndex(s, i + 1) else i
  }

  /** Where `trim` ends: the last end at or below `j`, and not below `lo`,
      that follows a character that is not white space. */
  function TrimEndIndex(s: string, lo: nat, j: nat): (e: nat)
    requires lo <= j <= |s|
    ensures lo <= e <= j
    ensures forall m :: e <= m < j ==> IsJsSpace(s[m])
    ensures e > lo ==> !IsJsSpace(s[e - 1])
  {
    if j > lo && IsJsSpace(s[j - 1]) then TrimEndIndex(s, lo, j - 1) else j
  }

  /** `s.trim()`: `s` with the white space at either end cut off; what is
      left starts and ends with a visible character. */
  function Trim(s: string): (r: string)
    ensures |r| <= |s|
    ensures r == [] || (!IsJsSpace(r[0]) && !IsJsSpace(r[|r| - 1]))
  {
    var a := TrimStartIndex(s, 0);
    var b := TrimEndIndex(s, a, |s|);
    CutEndsVisible(s, a, b);
    s[a..b]
  }

  /** `Trim` cuts off white space only: it is the longest slice of `s`
      that neither starts nor ends with white space. */
  lemma TrimSlice(s: string)
    ensures exists a, b ::
              && 0 <= a <= b <= |s| && Trim(s) == s[a..b]
              && (forall i :: 0 <= i < a ==> IsJsSpace(s[i]))
              && (forall i :: b <= i < |s| ==> IsJsSpace(s[i]))
  {
    var a := TrimStartIndex(s, 0);
    var b := TrimEndIndex(s, a, |s|);
    assert Trim(s) == s[a..b];
  }

  /** `Trim` keeps every visible character of `s`. */
  lemma TrimKeeps(s: string)
    ensures forall c :: c in s && !IsJsSpace(c) ==> c in Trim(s)
  {
    var a := TrimStartIndex(s, 0);
    TrimKeepsVisible(s, a, TrimEndIndex(s, a, |s|));
  }

  /** Cutting where the first and last kept characters are visible leaves
      a slice that starts and ends with them. */
  lemma CutEndsVisible(s: string, a: nat, b: nat)
    requires a <= b <= |s|
    requires a < b ==> !IsJsSpace(s[a]) && !IsJsSpace(s[b - 1])
    ensures var r := s[a..b]; r == [] || (!IsJsSpace(r[0]) && !IsJsSpace(r[|r| - 1]))
  {
    if a < b {
      assert s[a..b][0] == s[a] && s[a..b][b - a - 1] == s[b - 1];
    }
  }

  /** A character that is not white space lies between the two cut points,
      so it survives the cut. */
  lemma TrimKeepsVisible(s: string, a: nat, b: nat)
    requires a <= b <= |s|
    requires forall i :: 0 <= i < a ==> IsJsSpace(s[i])
    requires forall i :: b <= i < |s| ==> IsJsSpace(s[i])
    ensures forall c :: c in s && !IsJsSpace(c) ==> c in s[a..b]
  {
    forall c | c in s && !IsJsSpace(c) ensures c in s[a..b] {
      var k :| 0 <= k < |s| && s[k] == c;
      assert s[a..b][k - a] == c;
    }
  }

  lemma TrimOfUnpadded(s: string)
    requires s == [] || (!IsJsSpace(s[0]) && !IsJsSpace(s[|s| - 1]))
    ensures Trim(s) == s
  {
    assert s[0..|s|] == s;
  }

  // ---------------------------------------------------------------- split

  /** `s.split(sep)` for a one-character separator: the maximal runs between
      separators, including the empty ones at either end. */
  function Split(s: string, sep: char): (parts: seq<string>)
    ensures |parts| >= 1
    ensures forall i :: 0 <= i < |parts| ==> sep !in parts[i]
    ensures |parts| == Occurrences(s, sep) + 1
  {
    if s == [] then [[]]
    else
      var rest := Split(s[1..], sep);
      if s[0] == sep then [[]] + rest
      else [[s[0]] + rest[0]] + rest[1..]
  }

  function Occurrences(s: string, c: char): nat {
    if s == [] then 0 else (if s[0] == c then 1 else 0) + Occurrences(s[1..], c)
  }

  lemma OccurrencesZero(s: string, c: char)
    ensures Occurrences(s, c) == 0 <==> c !in s
  {
    if s != [] { OccurrencesZero(s[1..], c); }
  }

  /** `parts.join(sep)`, the inverse of Split. */
  function Join(parts: seq<string>, sep: char): string
    requires |parts| >= 1
  {
    if |parts| == 1 then parts[0] else parts[0] + [sep] + Join(parts[1..], sep)
  }

  lemma {:induction false} JoinSplit(s: string, sep: char)
    ensures Join(Split(s, sep), sep) == s
  {
    if s != [] {
      JoinSplit(s[1..], sep);
      var rest := Split(s[1..], sep);
      if s[0] != sep {
        if |rest| == 1 {
          assert Join(rest, sep) == rest[0];
        } else {
          assert Join(rest, sep) == rest[0] + [sep] + Join(rest[1..], sep);
        }
      }
    }
  }

  /** Splitting at one separator occurrence splits each side independently. */
  lemma {:induction false} SplitAt(s: string, k: nat, sep: char)
    requires k < |s| && s[k] == sep
    ensures Split(s, sep) == Split(s[..k], sep) + Split(s[k + 1..], sep)
  {
    if k > 0 {
      var before := s[..k];
      SplitAt(s[1..], k - 1, sep);
      assert s[1..][..k - 1] == before[1..];
      assert s[1..][k..] == s[k + 1..];
      assert before[0] == s[0];
      if s[0] != sep {
        ExtendFirst(s[0], Split(before[1..], sep), Split(s[k + 1..], sep));
      }
    }
  }

  /** Prefixing the first part of `a + b` prefixes the first part of `a`. */
  lemma ExtendFirst(c: char, a: seq<string>, b: seq<string>)
    requires |a| >= 1
    ensures [[c] + (a + b)[0]] + (a + b)[1..] == ([[c] + a[0]] + a[1..]) + b
  {
    assert (a + b)[1..] == a[1..] + b;
  }

  lemma SplitAround(x: string, y: string, sep: char)
    ensures Split(x + [sep] + y, sep) == Split(x, sep) + Split(y, sep)
  {
    var s := x + [sep] + y;
    assert s[..|x|] == x && s[|x| + 1..] == y;
    SplitAt(s, |x|, sep);
  }

  /** When `s` has exactly one separator, the two parts are what lies before
      and after it. */
  lemma SplitAtSingle(s: string, sep: char, k: nat)
    requires k < |s| && s[k] == sep && sep !in s[..k] && sep !in s[k + 1..]
    ensures Split(s, sep) == [s[..k], s[k + 1..]]
  {
    SplitAt(s, k, sep);
    SplitNoSep(s[..k], sep);
    SplitNoSep(s[k + 1..], sep);
  }

  lemma SplitNoSep(s: string, sep: char)
    requires sep !in s
    ensures Split(s, sep) == [s]
  {
    if s != [] {
      SplitNoSep(s[1..], sep);
      assert [s[0]] + s[1..] == s;
    }
  }

  // ------------------------------------------------------------- includes

  function Contains(s: string, sub: string): (b: bool)
    ensures b <==> exists i :: 0 <= i <= |s| - |sub| && IsPrefix(sub, s[i..])
  {
    if IsPrefix(sub, s) then
      assert IsPrefix(sub, s[0..]);
      true
    else if |s| == 0 then false
    else
      var b := Contains(s[1..], sub);
      assert forall i :: 1 <= i <= |s| ==> s[i..] == s[1..][i - 1..];
      b
  }

  predicate IsPrefix(p: string, s: string) {
    |p| <= |s| && s[..|p|] == p
  }

  lemma ContainsItsPrefix(p: string, rest: string)
    ensures Contains(p + rest, p)
  {
    assert (p + rest)[..|p|] == p;
  }

  /** A text built by appending to `p` contains `p`. */
  lemma ContainsLead(p: string, a: string, b: string, c: string, d: string)
    ensures Contains(p + a + b + c + d, p)
  {
    assert p + a + b + c + d == p + (a + b + c + d);
    ContainsItsPrefix(p, a + b + c + d);
  }

  // ------------------------------------------------------------- numbers

  predicate IsDigit(c: char) { '0' <= c <= '9' }

  function DigitValue(c: char): (d: nat)
    requires IsDigit(c)
    ensures d < 10
  {
    c as int - '0' as int
  }

  function DigitChar(d: nat): (c: char)
    requires d < 10
    ensures IsDigit(c) && DigitValue(c) == d
  {
    ('0' as int + d) as char
  }

  /** `n.toString()` for a non-negative integer (below 10^21, where JavaScript
      switches to exponent notation). */
  function NatToString(n: nat): (r: string)
    ensures |r| >= 1 && forall i :: 0 <= i < |r| ==> IsDigit(r[i])
    ensures |r| > 1 ==> r[0] != '0'
  {
    if n < 10 then [DigitChar(n)] else NatToString(n / 10) + [DigitChar(n % 10)]
  }

  /** The value of a string of decimal digits. */
  function DigitsValue(s: string): nat
    requires forall i :: 0 <= i < |s| ==> IsDigit(s[i])
  {
    if s == [] then 0 else DigitsValue(s[..|s| - 1]) * 10 + DigitValue(s[|s| - 1])
  }

  lemma {:induction false} NatToStringRoundTrip(n: nat)
    ensures DigitsValue(NatToString(n)) == n
  {
    if n >= 10 {
      NatToStringRoundTrip(n / 10);
      var r := NatToString(n);
      assert r[..|r| - 1] == NatToString(n / 10);
    }
  }

  lemma NatToStringInjective(m: nat, n: nat)
    requires NatToString(m) == NatToString(n)
    ensures m == n
  {
    NatToStringRoundTrip(m);
    NatToStringRoundTrip(n);
  }

  /** `${i}` for an integer: a minus sign before the digits of a negative one. */
  function IntToString(i: int): (r: string)
    ensures |r| >= 1
    ensures i < 0 <==> r[0] == '-'
    ensures forall k :: 0 <= k < |r| ==> IsDigit(r[k]) || r[k] == '-'
  {
    if i < 0 then "-" + NatToString(-i) else NatToString(i)
  }

  lemma IntToStringInjective(i: int, j: int)
    requires IntToString(i) == IntToString(j)
    ensures i == j
  {
    if i < 0 && j < 0 {
      assert NatToString(-i) == IntToString(i)[1..];
      assert NatToString(-j) == IntToString(j)[1..];
      NatToStringInjective(-i, -j);
    } else if i >= 0 && j >= 0 {
      NatToStringInjective(i, j);
    }
  }

  /** `s.padStart(n, c)` for a one-character pad string. */
  function PadStart(s: string, n: nat, c: char): (r: string)
    ensures |r| == if |s| >= n then |s| else n
    ensures r[|r| - |s|..] == s
    ensures forall i :: 0 <= i < |r| - |s| ==> r[i] == c
  {
    if |s| >= n then s else seq(n - |s|, _ => c) + s
  }

  // ----------------------------------------------------------- UTF-16

  /** `s.length`: characters outside the Basic Multilingual Plane take two
      UTF-16 code units. */
  function Utf16Length(s: string): (n: nat)
    ensures |s| <= n <= 2 * |s|
  {
    if s == [] then 0 else (if s[0] as int >= 0x1_0000 then 2 else 1) + Utf16Length(s[1..])
  }
}
