/** The JavaScript string operations the worker applies to text: `substring(0, n)`,
    `split('\n')[0]`, `replace('.', '')`, `trim()` and the decimal rendering of
    integers. Strings are sequences of Unicode scalar values. */
module Text {

  function Min(a: int, b: int): int { if a < b then a else b }

  /** `s.substring(0, n)`: the first n characters, or all of s when it is shorter. */
  function Truncate(s: string, n: nat): (r: string)
    ensures |r| == Min(|s|, n) && r <= s
  {
    if |s| <= n then s else s[..n]
  }

  /** `s.split('\n')[0]`: everything before the first line feed. */
  function FirstLine(s: string): (r: string)
    ensures r <= s && '\n' !in r
    ensures |r| < |s| ==> s[|r|] == '\n'
  {
    if s == [] || s[0] == '\n' then [] else [s[0]] + FirstLine(s[1..])
  }

  /** The position of the first c in s, or |s| when there is none. */
  function FirstIndex(s: string, c: char): (k: nat)
    ensures k <= |s| && c !in s[..k]
    ensures k < |s| <==> c in s
    ensures k < |s| ==> s[k] == c
  {
    if s == [] then 0 else if s[0] == c then 0 else 1 + FirstIndex(s[1..], c)
  }

  /** `s.replace(c, '')` with a one-character string pattern: only the first
      occurrence of c is removed; without one, s is unchanged. */
  function RemoveFirst(s: string, c: char): (r: string)
    ensures c !in s ==> r == s
    ensures c in s ==> |r| == |s| - 1
  {
    if s == [] then []
    else if s[0] == c then s[1..]
    else [s[0]] + RemoveFirst(s[1..], c)
  }

  /** What is removed is the character at the first index of c. */
  lemma {:induction false} RemoveFirstAt(s: string, c: char)
    ensures var k := FirstIndex(s, c);
      RemoveFirst(s, c) == s[..k] + (if k < |s| then s[k + 1..] else [])
  {
    if s != [] && s[0] != c {
      var t := s[1..];
      RemoveFirstAt(t, c);
      var k := FirstIndex(t, c);
      assert FirstIndex(s, c) == k + 1;
      assert RemoveFirst(s, c) == [s[0]] + RemoveFirst(t, c);
      assert s[..k + 1] == [s[0]] + t[..k];
      if k < |t| {
        assert s[k + 2..] == t[k + 1..];
      }
    }
  }

  /** Removing the first c from a + [c] + b, where a has no c, leaves a + b. */
  lemma RemoveFirstSplit(a: string, c: char, b: string)
    requires c !in a
    ensures RemoveFirst(a + [c] + b, c) == a + b
  {
    var s := a + [c] + b;
    RemoveFirstAt(s, c);
    assert s[|a|] == c && s[..|a|] == a;
    assert FirstIndex(s, c) == |a|;
    assert s[|a| + 1..] == b;
  }

  /** The characters JavaScript's `\s` and `trim()` treat as white space:
      WhiteSpace and LineTerminator of ECMA-262. */
  predicate IsSpace(c: char) {
    c == '\t' || c == '\n' || c == '\U{000B}' || c == '\U{000C}' || c == '\r' ||
    c == ' ' || c == '\U{00A0}' || c == '\U{1680}' ||
    ('\U{2000}' <= c <= '\U{200A}') ||
    c == '\U{2028}' || c == '\U{2029}' || c == '\U{202F}' || c == '\U{205F}' ||
    c == '\U{3000}' || c == '\U{FEFF}'
  }

  /** The characters `.` in a JavaScript regular expression does not match. */
  predicate IsLineTerminator(c: char) {
    c == '\n' || c == '\r' || c == '\U{2028}' || c == '\U{2029}'
  }

  predicate AllSpace(s: string) {
    forall i :: 0 <= i < |s| ==> IsSpace(s[i])
  }

  /** Leading white space removed. */
  function TrimStart(s: string): (r: string)
    ensures |r| <= |s| && r == s[|s| - |r|..]
    ensures AllSpace(s[..|s| - |r|])
    ensures r == [] || !IsSpace(r[0])
  {
    if s != [] && IsSpace(s[0]) then TrimStart(s[1..]) else s
  }

  /** Trailing white space removed. */
  function TrimEnd(s: string): (r: string)
    ensures r <= s && AllSpace(s[|r|..])
    ensures r == [] || !IsSpace(r[|r| - 1])
  {
    if s != [] && IsSpace(s[|s| - 1]) then TrimEnd(s[..|s| - 1]) else s
  }

  /** `s.trim()`: the text after the leading white space (`a`
      characters), neither starting nor ending with white space. */
  function Trim(s: string): (r: string)
    ensures var a := |s| - |TrimStart(s)|;
      a + |r| <= |s| && r <= s[a..] && AllSpace(s[..a])
    ensures r == [] || (!IsSpace(r[0]) && !IsSpace(r[|r| - 1]))
  {
    TrimEnd(TrimStart(s))
  }

  /** What follows the trimmed text in s is white space. */
  lemma {:induction false} TrimSpaceAfter(s: string)
    ensures var r, a := Trim(s), |s| - |TrimStart(s)|;
      a + |r| <= |s| && AllSpace(s[a + |r|..])
  {
    var t := TrimStart(s);
    SpaceAfter(s, |s| - |t|, |TrimEnd(t)|, t);
  }

  /** A string trims to nothing exactly when it is all white space. */
  lemma TrimEmptyIff(s: string)
    ensures Trim(s) == [] <==> AllSpace(s)
  {
    var t := TrimStart(s);
    if t == [] {
      assert s[..|s|] == s;
    } else {
      assert t[0] == s[|s| - |t|] && !IsSpace(t[0]);
      assert t[0..] == t;
    }
  }

  /** A slice of a slice is a slice. */
  lemma SliceOfSlice(s: string, a: nat, b: nat, c: nat, e: nat)
    requires a <= b <= |s| && c <= e <= b - a
    ensures s[a..b][c..e] == s[a + c..a + e]
  {
    assert forall x :: 0 <= x < e - c ==> s[a..b][c..e][x] == s[a + c..a + e][x];
  }

  /** The three parts of a concatenation are where they were put. */
  lemma ConcatParts(a: string, b: string, c: string)
    ensures var s := a + b + c;
      s[..|a|] == a && s[|a|..|a| + |b|] == b && s[|a| + |b|..] == c
  {
  }

  /** White space at the end of a suffix of s is white space at the end of s. */
  lemma SpaceAfter(s: string, a: nat, m: nat, t: string)
    requires a <= |s| && t == s[a..] && m <= |t| && AllSpace(t[m..])
    ensures AllSpace(s[a + m..])
  {
    assert t[m..] == s[a + m..];
  }

  /** A slice of white space is white space. */
  lemma AllSpaceSlice(s: string, a: nat, b: nat)
    requires a <= b <= |s| && AllSpace(s)
    ensures AllSpace(s[a..b])
  {
    assert forall x :: 0 <= x < b - a ==> s[a..b][x] == s[a + x];
  }

  /** Within a white-space stretch of s, every smaller stretch is white space. */
  lemma AllSpaceWithin(s: string, a: nat, b: nat, c: nat, d: nat)
    requires a <= c <= d <= b <= |s| && AllSpace(s[a..b])
    ensures AllSpace(s[c..d])
  {
    forall x | 0 <= x < d - c
      ensures IsSpace(s[c..d][x])
    {
      assert s[c..d][x] == s[a..b][c - a + x];
    }
  }

  /** Leading white space does not change what `trimStart()` leaves. */
  lemma {:induction false} TrimStartSpacePrefix(a: string, b: string)
    requires AllSpace(a)
    ensures TrimStart(a + b) == TrimStart(b)
  {
    if a != [] {
      assert (a + b)[0] == a[0];
      assert (a + b)[1..] == a[1..] + b;
      TrimStartSpacePrefix(a[1..], b);
    } else {
      assert a + b == b;
    }
  }

  /** Leading white space does not change a trim. */
  lemma TrimSpacePrefix(a: string, b: string)
    requires AllSpace(a)
    ensures Trim(a + b) == Trim(b)
  {
    TrimStartSpacePrefix(a, b);
  }

  /** A string that does not start or end with white space is its own trim. */
  lemma TrimOfTrimmed(s: string)
    requires s == [] || (!IsSpace(s[0]) && !IsSpace(s[|s| - 1]))
    ensures Trim(s) == s
  {
  }

  predicate IsDigit(c: char) { '0' <= c <= '9' }

  predicate AllDigits(s: string) {
    forall i :: 0 <= i < |s| ==> IsDigit(s[i])
  }

  function DigitChar(d: nat): (c: char)
    requires d < 10
    ensures IsDigit(c) && (c as int) - ('0' as int) == d
  {
    (d + '0' as int) as char
  }

  /** Decimal text of n without leading zeros, as `String(n)` gives it. */
  function NatToDecimal(n: nat): (r: string)
    ensures |r| >= 1 && AllDigits(r)
    ensures |r| > 1 ==> r[0] != '0'
  {
    if n < 10 then [DigitChar(n)] else NatToDecimal(n / 10) + [DigitChar(n % 10)]
  }

  /** Decimal text of an integer, with a leading '-' when it is negative. */
  function IntToDecimal(i: int): (r: string)
    ensures |r| >= 1
    ensures i < 0 <==> r[0] == '-'
  {
    if i < 0 then "-" + NatToDecimal(-i) else NatToDecimal(i)
  }

  /** The number a string of decimal digits denotes. */
  function DecimalValue(s: string): nat
    requires AllDigits(s)
  {
    if s == [] then 0 else DecimalValue(s[..|s| - 1]) * 10 + ((s[|s| - 1] as int) - ('0' as int))
  }

  lemma {:induction false} DecimalRoundTrip(n: nat)
    ensures DecimalValue(NatToDecimal(n)) == n
  {
    if n >= 10 {
      var r := NatToDecimal(n);
      assert r[..|r| - 1] == NatToDecimal(n / 10);
      DecimalRoundTrip(n / 10);
    }
  }
}
