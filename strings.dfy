/**
 * The JavaScript string operations the core relies on: `toLowerCase`,
 * `trim`, `includes`, `Array.prototype.join`, and number-to-text conversion.
 */
module Strings {

  /** `'A'..'Z'` to `'a'..'z'`; every other character is left as it is. */
  function LowerChar(c: char): (r: char)
    ensures !('A' <= r <= 'Z')
    ensures 'A' <= c <= 'Z' ==> r as int == c as int + 32 && 'a' <= r <= 'z'
    ensures !('A' <= c <= 'Z') ==> r == c
  {
    if 'A' <= c <= 'Z' then (c as int - 'A' as int + 'a' as int) as char else c
  }

  /** `a` and `b` are the same character up to the case of an ASCII letter. */
  predicate SameLetter(a: char, b: char)
  {
    a == b || ('A' <= a <= 'Z' && b as int == a as int + 32) || ('A' <= b <= 'Z' && a as int == b as int + 32)
  }

  /** Two characters lower-case alike exactly when they differ at most in case. */
  lemma LowerCharEqual(a: char, b: char)
    ensures LowerChar(a) == LowerChar(b) <==> SameLetter(a, b)
  {
  }

  /** `s.toLowerCase()`, on the ASCII letters. */
  function ToLower(s: string): (r: string)
    ensures |r| == |s|
    ensures forall i :: 0 <= i < |s| ==> r[i] == LowerChar(s[i])
    ensures forall i :: 0 <= i < |r| ==> !('A' <= r[i] <= 'Z')
  {
    seq(|s|, i requires 0 <= i < |s| => LowerChar(s[i]))
  }

  /** `s` and `t` have the same length and differ at most in the case of ASCII letters. */
  predicate EqualIgnoringCase(s: string, t: string)
  {
    |s| == |t| && forall i :: 0 <= i < |s| ==> SameLetter(s[i], t[i])
  }

  /** Lower-casing makes two strings equal exactly when they differ at most in case. */
  lemma ToLowerEqual(s: string, t: string)
    ensures ToLower(s) == ToLower(t) <==> EqualIgnoringCase(s, t)
  {
    if ToLower(s) == ToLower(t) {
      forall i | 0 <= i < |s|
        ensures SameLetter(s[i], t[i])
      {
        assert ToLower(s)[i] == ToLower(t)[i];
        LowerCharEqual(s[i], t[i]);
      }
    }
    if EqualIgnoringCase(s, t) {
      forall i | 0 <= i < |s|
        ensures ToLower(s)[i] == ToLower(t)[i]
      {
        LowerCharEqual(s[i], t[i]);
      }
    }
  }

  /** Lower-casing twice is lower-casing once. */
  lemma ToLowerIdempotent(s: string)
    ensures ToLower(ToLower(s)) == ToLower(s)
  {
    forall i | 0 <= i < |s|
      ensures ToLower(ToLower(s))[i] == ToLower(s)[i]
    {
      assert !('A' <= ToLower(s)[i] <= 'Z');
    }
  }

  /** The WhiteSpace and LineTerminator characters that `String.prototype.trim` removes. */
  predicate IsJsWhitespace(c: char)
  {
    c == '\t' || c == '\n' || c == '\U{000B}' || c == '\U{000C}' || c == '\r' || c == ' '
    || c == '\U{00A0}' || c == '\U{1680}' || ('\U{2000}' <= c <= '\U{200A}')
    || c == '\U{2028}' || c == '\U{2029}' || c == '\U{202F}' || c == '\U{205F}'
    || c == '\U{3000}' || c == '\U{FEFF}'
  }

  /** Drops the leading whitespace: what is left is a suffix of `s` that does not start with whitespace. */
  function TrimStart(s: string): (r: string)
    ensures |r| <= |s| && r == s[|s| - |r|..]
    ensures r == [] || !IsJsWhitespace(r[0])
    ensures forall i :: 0 <= i < |s| - |r| ==> IsJsWhitespace(s[i])
  {
    if s != [] && IsJsWhitespace(s[0]) then TrimStart(s[1..]) else s
  }

  /** Drops the trailing whitespace: what is left is a prefix of `s` that does not end with whitespace. */
  function TrimEnd(s: string): (r: string)
    ensures |r| <= |s| && r == s[..|r|]
    ensures r == [] || !IsJsWhitespace(r[|r| - 1])
    ensures forall i :: |r| <= i < |s| ==> IsJsWhitespace(s[i])
  {
    if s != [] && IsJsWhitespace(s[|s| - 1]) then TrimEnd(s[..|s| - 1]) else s
  }

  /** `s` consists of whitespace only (the empty string included). */
  predicate IsBlank(s: string)
  {
    forall i :: 0 <= i < |s| ==> IsJsWhitespace(s[i])
  }

  /** Lower-casing neither creates nor removes whitespace, so blankness ignores case. */
  lemma BlankIgnoresCase(s: string)
    ensures IsBlank(ToLower(s)) <==> IsBlank(s)
  {
    forall i | 0 <= i < |s|
      ensures IsJsWhitespace(ToLower(s)[i]) <==> IsJsWhitespace(s[i])
    {
      assert ToLower(s)[i] == LowerChar(s[i]);
    }
  }

  /** A slice of a text without upper-case letters has none either. */
  lemma SliceHasNoUpper(s: string, i: nat, j: nat)
    requires i <= j <= |s|
    requires forall k :: 0 <= k < |s| ==> !('A' <= s[k] <= 'Z')
    ensures forall k :: 0 <= k < j - i ==> !('A' <= s[i..j][k] <= 'Z')
  {
    forall k | 0 <= k < j - i
      ensures !('A' <= s[i..j][k] <= 'Z')
    {
      assert s[i..j][k] == s[i + k];
    }
  }

  /** Every character of `s` outside the slice `s[i..j]` is whitespace. */
  predicate BlankOutside(s: string, i: int, j: int)
  {
    forall k :: 0 <= k < |s| && !(i <= k < j) ==> IsJsWhitespace(s[k])
  }

  /** `s.trim()`. */
  function Trim(s: string): (r: string)
    ensures r == [] <==> IsBlank(s)
    ensures r != [] ==> !IsJsWhitespace(r[0]) && !IsJsWhitespace(r[|r| - 1])
    ensures |r| <= |s|
    ensures s == [] || (!IsJsWhitespace(s[0]) && !IsJsWhitespace(s[|s| - 1])) ==> r == s
    ensures exists i, j :: 0 <= i <= j <= |s| && r == s[i..j] && BlankOutside(s, i, j)
  {
    TrimIsSlice(s);
    TrimEnd(TrimStart(s))
  }

  /** Trimming keeps the slice of `s` between its leading and its trailing whitespace. */
  lemma TrimIsSlice(s: string)
    ensures exists i, j :: 0 <= i <= j <= |s| && TrimEnd(TrimStart(s)) == s[i..j] && BlankOutside(s, i, j)
  {
    var t := TrimStart(s);
    var r := TrimEnd(t);
    var i, j := SliceOfSuffix(s, t, r);
  }

  /**
   * A prefix `r` of a suffix `t` of `s` is the slice of `s` that remains
   * once what precedes `t` and what follows `r` in `t` are dropped.
   */
  lemma SliceOfSuffix(s: string, t: string, r: string) returns (i: nat, j: nat)
    requires |t| <= |s| && t == s[|s| - |t|..]
    requires |r| <= |t| && r == t[..|r|]
    requires forall k :: 0 <= k < |s| - |t| ==> IsJsWhitespace(s[k])
    requires forall k :: |r| <= k < |t| ==> IsJsWhitespace(t[k])
    ensures i <= j <= |s| && r == s[i..j] && BlankOutside(s, i, j)
  {
    i, j := |s| - |t|, |s| - |t| + |r|;
    assert r == s[i..j];
    forall k | j <= k < |s|
      ensures IsJsWhitespace(s[k])
    {
      assert s[k] == t[k - i];
    }
  }

  predicate StartsWith(s: string, prefix: string)
  {
    |prefix| <= |s| && s[..|prefix|] == prefix
  }

  /** `sub` occurs in `s` starting at position `k`. */
  predicate OccursAt(s: string, sub: string, k: int)
  {
    0 <= k && k + |sub| <= |s| && s[k..k + |sub|] == sub
  }

  /** `s.includes(sub)`: `sub` occurs in `s` at some position. */
  function Contains(s: string, sub: string): (r: bool)
    ensures r <==> exists k :: OccursAt(s, sub, k)
  {
    ContainsFrom(s, sub, 0)
  }

  function ContainsFrom(s: string, sub: string, from: nat): (r: bool)
    ensures r <==> exists k :: from <= k && OccursAt(s, sub, k)
    decreases |s| - from
  {
    if from + |sub| > |s| then false
    else OccursAt(s, sub, from) || ContainsFrom(s, sub, from + 1)
  }

  /** `parts.join(sep)`. */
  function Join(parts: seq<string>, sep: string): (r: string)
  {
    if |parts| == 0 then ""
    else if |parts| == 1 then parts[0]
    else parts[0] + sep + Join(parts[1..], sep)
  }

  /** `s.indexOf(sep)`: the position of the first occurrence of `sep` in `s`, or -1. */
  function IndexOf(s: string, sep: string): (r: int)
    requires sep != ""
    ensures r == -1 || OccursAt(s, sep, r)
    ensures forall k :: 0 <= k && (r < 0 || k < r) ==> !OccursAt(s, sep, k)
  {
    IndexFrom(s, sep, 0)
  }

  function IndexFrom(s: string, sep: string, from: nat): (r: int)
    requires sep != ""
    ensures r == -1 || (from <= r && OccursAt(s, sep, r))
    ensures forall k :: from <= k && (r < 0 || k < r) ==> !OccursAt(s, sep, k)
    decreases |s| - from
  {
    if from + |sep| > |s| then -1
    else if OccursAt(s, sep, from) then from
    else IndexFrom(s, sep, from + 1)
  }

  /** `s.split(sep)`: the pieces between the occurrences of `sep`. */
  function Split(s: string, sep: string): (r: seq<string>)
    requires sep != ""
    ensures |r| >= 1
    decreases |s|
  {
    var i := IndexOf(s, sep);
    if i < 0 then [s] else [s[..i]] + Split(s[i + |sep|..], sep)
  }

  /** In `p + rest`, where `p` lacks the separator's first character, the first separator is the first one of `rest`. */
  lemma IndexOfAfterPiece(p: string, sep: string, rest: string)
    requires sep != "" && sep[0] !in p
    ensures IndexOf(p + rest, sep) == (if IndexOf(rest, sep) < 0 then -1 else |p| + IndexOf(rest, sep))
  {
    var s := p + rest;
    forall k | 0 <= k < |p|
      ensures !OccursAt(s, sep, k)
    {
      assert s[k] == p[k] != sep[0];
      assert k + |sep| <= |s| ==> s[k..k + |sep|][0] == s[k];
    }
    forall k | 0 <= k
      ensures OccursAt(s, sep, |p| + k) <==> OccursAt(rest, sep, k)
    {
      if |p| + k + |sep| <= |s| {
        assert s[|p| + k..|p| + k + |sep|] == rest[k..k + |sep|];
      }
    }
    var i, r := IndexOf(rest, sep), IndexOf(s, sep);
    if r >= 0 {
      assert r >= |p|;
      assert OccursAt(rest, sep, r - |p|);
      assert OccursAt(s, sep, |p| + i);
    }
    if i >= 0 {
      assert OccursAt(s, sep, |p| + i);
    }
  }

  /**
   * Joining pieces that do not contain the separator's first character can be
   * undone by splitting: `Split` is the inverse of `Join` on such pieces.
   */
  lemma {:induction false} SplitJoin(parts: seq<string>, sep: string)
    requires sep != "" && |parts| >= 1
    requires forall i :: 0 <= i < |parts| ==> sep[0] !in parts[i]
    ensures Split(Join(parts, sep), sep) == parts
  {
    if |parts| == 1 {
      IndexOfAfterPiece(parts[0], sep, "");
      assert parts[0] + "" == parts[0];
    } else {
      var p, tail := parts[0], Join(parts[1..], sep);
      assert Join(parts, sep) == p + (sep + tail);
      assert StartsWith(sep + tail, sep) by {
        assert (sep + tail)[..|sep|] == sep;
      }
      IndexOfAfterPiece(p, sep, sep + tail);
      assert (p + (sep + tail))[..|p|] == p;
      assert (p + (sep + tail))[|p| + |sep|..] == tail;
      SplitJoin(parts[1..], sep);
    }
  }

  /** Joining only non-empty pieces gives the empty string exactly when there are none. */
  lemma {:induction false} JoinEmpty(parts: seq<string>, sep: string)
    requires forall i :: 0 <= i < |parts| ==> parts[i] != ""
    ensures Join(parts, sep) == "" <==> parts == []
  {
    if |parts| >= 2 {
      assert |Join(parts, sep)| >= |parts[0]|;
    }
  }

  predicate IsDigit(c: char)
  {
    '0' <= c <= '9'
  }

  function DigitChar(d: int): (c: char)
    requires 0 <= d < 10
    ensures IsDigit(c) && c as int - '0' as int == d
  {
    ('0' as int + d) as char
  }

  /** The decimal text of `n`, as `String(n)` gives it: digits only, no leading zero. */
  function NatToString(n: nat): (r: string)
    ensures |r| >= 1
    ensures forall i :: 0 <= i < |r| ==> IsDigit(r[i])
    ensures r[0] == '0' ==> n == 0
  {
    if n < 10 then [DigitChar(n)] else NatToString(n / 10) + [DigitChar(n % 10)]
  }

  /** `String(i)` for an integer: a minus sign before the magnitude when negative. */
  function IntToString(i: int): (r: string)
    ensures i >= 0 ==> r == NatToString(i)
    ensures i < 0 ==> r == "-" + NatToString(-i)
  {
    if i < 0 then "-" + NatToString(-i) else NatToString(i)
  }

  /** The number a string of decimal digits denotes. */
  function DigitsValue(s: string): nat
    requires forall i :: 0 <= i < |s| ==> IsDigit(s[i])
  {
    if s == [] then 0
    else
      assert IsDigit(s[|s| - 1]);
      DigitsValue(s[..|s| - 1]) * 10 + (s[|s| - 1] as int - '0' as int)
  }

  /** The longest prefix of `s` made of digits. */
  function LeadingDigits(s: string): (r: string)
    ensures forall i :: 0 <= i < |r| ==> IsDigit(r[i])
    ensures StartsWith(s, r)
    ensures |r| < |s| ==> !IsDigit(s[|r|])
  {
    if s != [] && IsDigit(s[0]) then [s[0]] + LeadingDigits(s[1..]) else ""
  }

  /** Reading the digits of `NatToString(n)` back gives `n`. */
  lemma {:induction false} NatToStringRoundTrip(n: nat)
    ensures DigitsValue(NatToString(n)) == n
  {
    if n >= 10 {
      NatToStringRoundTrip(n / 10);
      var r := NatToString(n);
      assert r[..|r| - 1] == NatToString(n / 10);
    }
  }

  /** The digits `LeadingDigits` picks up at the head of a number's text followed by a non-digit. */
  lemma {:induction false} LeadingDigitsOfPrefix(d: string, rest: string)
    requires forall i :: 0 <= i < |d| ==> IsDigit(d[i])
    requires rest == [] || !IsDigit(rest[0])
    ensures LeadingDigits(d + rest) == d
  {
    if d == [] {
      assert d + rest == rest;
    } else {
      assert (d + rest)[1..] == d[1..] + rest;
      LeadingDigitsOfPrefix(d[1..], rest);
    }
  }
}
