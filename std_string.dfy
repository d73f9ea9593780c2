/**
 * The parts of std::string, <cctype>, <cstdlib> and boost::algorithm the core
 * relies on, with their edge cases: `npos`, size_t wrap-around, the clamping
 * of `substr`'s count, C-string truncation at NUL, whitespace as `isspace`
 * sees it in the "C" locale, and the lexicographic order of std::string.
 */
module StdString {

  /** size_t on the 64-bit targets the library is built for. */
  const SIZE_MODULUS: nat := 0x1_0000_0000_0000_0000
  /** std::string::npos, the largest size_t. */
  const NPOS: nat := SIZE_MODULUS - 1

  /** size_t addition, which wraps around. */
  function SizeAdd(a: nat, b: nat): (r: nat)
    ensures r < SIZE_MODULUS
  {
    (a + b) % SIZE_MODULUS
  }

  /** size_t subtraction, which wraps around. */
  function SizeSub(a: nat, b: nat): (r: nat)
    ensures r < SIZE_MODULUS
  {
    (a - b) % SIZE_MODULUS
  }

  /** `npos + 1 == 0` and `0 - 1 == npos` in size_t. */
  lemma NposWrapsAround()
    ensures SizeAdd(NPOS, 1) == 0
    ensures SizeSub(0, 1) == NPOS
  {
  }

  function Min(a: nat, b: nat): nat { if a <= b then a else b }

  /** Index of the first occurrence of c. */
  function IndexOf(s: string, c: char): (r: nat)
    requires c in s
    ensures r < |s| && s[r] == c && c !in s[..r]
  {
    if s[0] == c then 0 else 1 + IndexOf(s[1..], c)
  }

  /** Index of the last occurrence of c. */
  function LastIndexOf(s: string, c: char): (r: nat)
    requires c in s
    ensures r < |s| && s[r] == c && c !in s[r + 1..]
  {
    if s[|s| - 1] == c then |s| - 1 else LastIndexOf(s[..|s| - 1], c)
  }

  /** std::string::find_first_of(c): the first position holding c, or npos. */
  function FindFirstOf(s: string, c: char): (r: nat)
    ensures c !in s ==> r == NPOS
    ensures c in s ==> r < |s| && s[r] == c && c !in s[..r]
  {
    if c in s then IndexOf(s, c) else NPOS
  }

  /** std::string::find_last_of(c): the last position holding c, or npos. */
  function FindLastOf(s: string, c: char): (r: nat)
    ensures c !in s ==> r == NPOS
    ensures c in s ==> r < |s| && s[r] == c && c !in s[r + 1..]
  {
    if c in s then LastIndexOf(s, c) else NPOS
  }

  /**
   * std::string::substr(pos, count): at most `count` characters from `pos`;
   * a count reaching past the end is clamped. A `pos` beyond the end makes
   * std::string throw out_of_range, so it is a precondition here and every
   * call site proves that it cannot throw.
   */
  function Substr(s: string, pos: nat, count: nat): (r: string)
    requires pos <= |s|
    ensures |r| == Min(count, |s| - pos)
    ensures forall k :: 0 <= k < |r| ==> r[k] == s[pos + k]
  {
    s[pos..pos + Min(count, |s| - pos)]
  }

  /** std::string(buffer) of a char buffer: the characters before the first NUL. */
  function CString(buffer: string): (r: string)
    ensures '\0' !in r
    ensures '\0' !in buffer ==> r == buffer
    ensures '\0' in buffer ==> r == buffer[..IndexOf(buffer, '\0')]
  {
    if '\0' in buffer then buffer[..IndexOf(buffer, '\0')] else buffer
  }

  /** isspace in the "C" locale: space, \t, \n, \v, \f, \r. */
  predicate IsSpace(c: char)
  {
    c == ' ' || c == '\t' || c == '\n' || c == '\r' || c as int == 11 || c as int == 12
  }

  /** isalnum in the "C" locale. */
  predicate IsAlnum(c: char)
  {
    ('a' <= c <= 'z') || ('A' <= c <= 'Z') || ('0' <= c <= '9')
  }

  predicate IsDigit(c: char)
  {
    '0' <= c <= '9'
  }

  predicate AllSpace(s: string)
  {
    forall k :: 0 <= k < |s| ==> IsSpace(s[k])
  }

  predicate NoSpace(s: string)
  {
    forall k :: 0 <= k < |s| ==> !IsSpace(s[k])
  }

  /** boost::algorithm::trim_left: drop leading whitespace. */
  function TrimLeft(s: string): (r: string)
    ensures |r| <= |s| && r == s[|s| - |r|..]
    ensures |r| > 0 ==> !IsSpace(r[0])
    ensures AllSpace(s[..|s| - |r|])
  {
    if |s| > 0 && IsSpace(s[0]) then TrimLeft(s[1..]) else s
  }

  function TrimRight(s: string): (r: string)
    ensures |r| <= |s| && r == s[..|r|]
    ensures |r| > 0 ==> !IsSpace(r[|r| - 1])
    ensures forall k :: |r| <= k < |s| ==> IsSpace(s[k])
  {
    if |s| > 0 && IsSpace(s[|s| - 1]) then TrimRight(s[..|s| - 1]) else s
  }

  /** boost::algorithm::trim: drop leading and trailing whitespace. */
  function Trim(s: string): (r: string)
    ensures |r| <= |s|
    ensures |r| > 0 ==> !IsSpace(r[0]) && !IsSpace(r[|r| - 1])
    ensures AllSpace(s) ==> r == ""
  {
    var u := TrimRight(s);
    assert AllSpace(s) ==> u == "";
    TrimLeft(u)
  }

  /** A string that neither starts nor ends with whitespace is left alone by trim. */
  lemma TrimUnchanged(s: string)
    requires |s| > 0 ==> !IsSpace(s[0]) && !IsSpace(s[|s| - 1])
    ensures Trim(s) == s
  {
  }

  predicate StartsWith(s: string, prefix: string)
  {
    |prefix| <= |s| && s[..|prefix|] == prefix
  }

  /** needle occurs somewhere in hay (an empty needle occurs everywhere). */
  predicate Occurs(hay: string, needle: string)
    decreases |hay|
  {
    StartsWith(hay, needle) || (|hay| > 0 && Occurs(hay[1..], needle))
  }

  /**
   * `if (boost::algorithm::find_first(hay, needle))`: the returned range is
   * converted to bool, which is false for an empty range, so an empty needle
   * never matches.
   */
  predicate FindFirst(hay: string, needle: string)
  {
    |needle| > 0 && Occurs(hay, needle)
  }

  lemma {:induction false} OccursAt(hay: string, needle: string, i: nat)
    requires i + |needle| <= |hay| && hay[i..i + |needle|] == needle
    ensures Occurs(hay, needle)
  {
    if i > 0 {
      assert hay[1..][i - 1..i - 1 + |needle|] == hay[i..i + |needle|];
      OccursAt(hay[1..], needle, i - 1);
    } else {
      assert hay[..|needle|] == needle;
    }
  }

  /** A path containing the pattern matches it, a path without it does not. */
  lemma {:induction false} FindFirstPrefix(pattern: string, suffix: string)
    requires |pattern| > 0
    ensures FindFirst(pattern + suffix, pattern)
  {
    OccursAt(pattern + suffix, pattern, 0);
  }

  function LowerChar(c: char): char
  {
    if 'A' <= c <= 'Z' then (c as int - 'A' as int + 'a' as int) as char else c
  }

  /** boost::to_lower_copy in the "C" locale: ASCII upper case to lower case. */
  function ToLower(s: string): (r: string)
    ensures |r| == |s|
    ensures forall k :: 0 <= k < |s| ==> r[k] == LowerChar(s[k])
    ensures NoUpper(r)
  {
    if |s| == 0 then "" else ToLower(s[..|s| - 1]) + [LowerChar(s[|s| - 1])]
  }

  /** No ASCII upper-case letter in s. */
  predicate NoUpper(s: string)
  {
    forall k :: 0 <= k < |s| ==> !('A' <= s[k] <= 'Z')
  }

  function DigitChar(d: nat): char
    requires d < 10
  {
    ('0' as int + d) as char
  }

  /** The decimal text `ostream << n` writes for a non-negative int. */
  function NatToString(n: nat): (r: string)
    ensures |r| > 0
    ensures forall k :: 0 <= k < |r| ==> IsDigit(r[k])
  {
    if n < 10 then [DigitChar(n)] else NatToString(n / 10) + [DigitChar(n % 10)]
  }

  function DigitValue(c: char): nat
    requires IsDigit(c)
  {
    c as int - '0' as int
  }

  /** The value of a string of decimal digits. */
  function DigitsValue(s: string): nat
    requires forall k :: 0 <= k < |s| ==> IsDigit(s[k])
  {
    if |s| == 0 then 0 else 10 * DigitsValue(s[..|s| - 1]) + DigitValue(s[|s| - 1])
  }

  /** The decimal text of n reads back as n. */
  lemma {:induction false} NatToStringValue(n: nat)
    ensures DigitsValue(NatToString(n)) == n
  {
    if n >= 10 {
      NatToStringValue(n / 10);
      var s := NatToString(n);
      assert s[..|s| - 1] == NatToString(n / 10);
    }
  }

  /** The longest prefix of s made of decimal digits. */
  function DigitPrefix(s: string): (r: string)
    ensures |r| <= |s| && r == s[..|r|]
    ensures forall k :: 0 <= k < |r| ==> IsDigit(s[k])
    ensures |r| == |s| || !IsDigit(s[|r|])
  {
    if |s| > 0 && IsDigit(s[0]) then [s[0]] + DigitPrefix(s[1..]) else ""
  }

  /**
   * atoi: skip leading whitespace, read an optional sign and the digits that
   * follow; no digits gives 0. Values outside the range of int are undefined
   * behaviour in C and are not modelled: the result is unbounded.
   */
  function Atoi(s: string): (r: int)
    ensures r < 0 ==> |TrimLeft(s)| > 0 && TrimLeft(s)[0] == '-'
    ensures |TrimLeft(s)| == 0 || !(IsDigit(TrimLeft(s)[0]) || TrimLeft(s)[0] == '-' || TrimLeft(s)[0] == '+') ==> r == 0
  {
    var t := TrimLeft(s);
    if |t| > 0 && t[0] == '-' then 0 - DigitsValue(DigitPrefix(t[1..]))
    else if |t| > 0 && t[0] == '+' then DigitsValue(DigitPrefix(t[1..])) as int
    else DigitsValue(DigitPrefix(t)) as int
  }

  /** A string of digits is its own digit prefix, and no whitespace is trimmed from it. */
  lemma {:induction false} DigitsRead(d: string)
    requires |d| > 0 && forall k :: 0 <= k < |d| ==> IsDigit(d[k])
    ensures TrimLeft(d) == d && DigitPrefix(d) == d
  {
    assert !IsSpace(d[0]);
  }

  /** The decimal text of n, with or without a minus sign, is read back by atoi. */
  lemma {:induction false} AtoiReadsNatToString(n: nat)
    ensures Atoi(NatToString(n)) == n
    ensures Atoi("-" + NatToString(n)) == 0 - n
  {
    var d := NatToString(n);
    NatToStringValue(n);
    DigitsRead(d);
    NegativeRead(d);
  }

  lemma {:induction false} NegativeRead(d: string)
    requires |d| > 0 && forall k :: 0 <= k < |d| ==> IsDigit(d[k])
    ensures Atoi("-" + d) == 0 - DigitsValue(d)
  {
    var m := "-" + d;
    assert !IsSpace(m[0]);
    assert TrimLeft(m) == m;
    assert m[1..] == d;
    DigitsRead(d);
  }

  /** std::string's operator<: lexicographic order by character code. */
  predicate Less(a: string, b: string)
  {
    if |a| == 0 then |b| > 0
    else if |b| == 0 then false
    else if a[0] != b[0] then a[0] < b[0]
    else Less(a[1..], b[1..])
  }

  lemma {:induction false} LessIrreflexive(a: string)
    ensures !Less(a, a)
  {
    if |a| > 0 { LessIrreflexive(a[1..]); }
  }

  lemma {:induction false} LessTransitive(a: string, b: string, c: string)
    requires Less(a, b) && Less(b, c)
    ensures Less(a, c)
  {
    if |a| > 0 && |b| > 0 && |c| > 0 && a[0] == b[0] && b[0] == c[0] {
      LessTransitive(a[1..], b[1..], c[1..]);
    }
  }

  lemma {:induction false} LessTotal(a: string, b: string)
    ensures a == b || Less(a, b) || Less(b, a)
  {
    if |a| > 0 && |b| > 0 && a[0] == b[0] {
      LessTotal(a[1..], b[1..]);
      if a[1..] == b[1..] {
        assert a == [a[0]] + a[1..] && b == [b[0]] + b[1..];
      }
    }
  }

  lemma {:induction false} LessAsymmetric(a: string, b: string)
    requires Less(a, b)
    ensures !Less(b, a)
  {
    if |a| > 0 && |b| > 0 && a[0] == b[0] {
      LessAsymmetric(a[1..], b[1..]);
    }
  }

  /** Number of occurrences of c in s. */
  function Count(s: string, c: char): nat
  {
    if |s| == 0 then 0 else Count(s[..|s| - 1], c) + (if s[|s| - 1] == c then 1 else 0)
  }

  lemma {:induction false} CountAppend(a: string, b: string, c: char)
    ensures Count(a + b, c) == Count(a, c) + Count(b, c)
  {
    if |b| > 0 {
      assert (a + b)[..|a + b| - 1] == a + b[..|b| - 1];
      CountAppend(a, b[..|b| - 1], c);
    } else {
      assert a + b == a;
    }
  }

  lemma {:induction false} CountAbsent(s: string, c: char)
    requires c !in s
    ensures Count(s, c) == 0
  {
    if |s| > 0 {
      assert c !in s[..|s| - 1];
      CountAbsent(s[..|s| - 1], c);
    }
  }
}
