/** The parts of java.lang that the converter relies on: the exceptions it can
    end with, String searching, slicing, trimming and lower-casing, and the
    fixed-width integer arithmetic of int and long. */
module JavaLang {
  import opened Wrappers

  /** The exceptions a conversion can end with. ConversionException carries
      its message; JSONException names the key or text that was refused, and
      JSONArrayException is the JSONException of an array accessor, naming
      the index. */
  datatype Exception =
    | ConversionException(message: string)
    | JSONException(subject: string)
    | JSONArrayException(index: int)
    | NullPointerException
    | StringIndexOutOfBoundsException
    | ClassCastException

  // ---------------------------------------------------------------- searching

  /** String.indexOf(char): the first index of c, or -1. */
  function IndexOf(s: string, c: char): (r: int)
    ensures -1 <= r < |s|
    ensures r == -1 <==> c !in s
    ensures r >= 0 ==> s[r] == c && c !in s[..r]
  {
    if |s| == 0 then -1
    else if s[0] == c then 0
    else
      var k := IndexOf(s[1..], c);
      if k == -1 then -1 else k + 1
  }

  /** The first occurrence is the one with no c before it. */
  lemma IndexOfFirst(s: string, c: char, i: int)
    requires 0 <= i < |s| && s[i] == c && c !in s[..i]
    ensures IndexOf(s, c) == i
  {
    var r := IndexOf(s, c);
    assert s[..r + 1][r] == c;
  }

  /** String.lastIndexOf(char): the last index of c, or -1. */
  function LastIndexOf(s: string, c: char): (r: int)
    ensures -1 <= r < |s|
    ensures r == -1 <==> c !in s
    ensures r >= 0 ==> s[r] == c
  {
    if |s| == 0 then -1
    else if s[|s| - 1] == c then |s| - 1
    else
      var k := LastIndexOf(s[..|s| - 1], c);
      assert s == s[..|s| - 1] + [s[|s| - 1]];
      k
  }

  /** An occurrence with no c after it is the last one. */
  lemma LastIndexOfIs(s: string, c: char, i: int)
    requires 0 <= i < |s| && s[i] == c && c !in s[i + 1..]
    ensures LastIndexOf(s, c) == i
  {
    var r := LastIndexOf(s, c);
    LastIndexOfLast(s, c);
    NotAfter(s, c, r + 1, i);
    assert r >= 0;
    NotAfter(s, c, i + 1, r);
  }

  /** A character absent from s[lo..] is at no position from lo on. */
  lemma NotAfter(s: string, c: char, lo: int, j: int)
    requires 0 <= lo <= |s| && 0 <= j < |s|
    ensures c !in s[lo..] && lo <= j ==> s[j] != c
  {
    if c !in s[lo..] && lo <= j {
      assert s[lo..][j - lo] == s[j];
    }
  }

  /** No c follows the last occurrence. */
  lemma {:induction false} LastIndexOfLast(s: string, c: char)
    ensures c !in s[LastIndexOf(s, c) + 1..]
    decreases |s|
  {
    if |s| > 0 && s[|s| - 1] != c {
      var init := s[..|s| - 1];
      LastIndexOfLast(init, c);
      assert s == init + [s[|s| - 1]];
      assert s[LastIndexOf(s, c) + 1..] == init[LastIndexOf(init, c) + 1..] + [s[|s| - 1]];
    }
  }

  /** t occurs in s starting at index k. */
  predicate OccursAt(s: string, t: string, k: int)
  {
    0 <= k && k + |t| <= |s| && s[k..k + |t|] == t
  }

  /** String.indexOf(String): the first index at which t occurs in s, or -1. */
  function IndexOfString(s: string, t: string): (r: int)
    requires |t| > 0
    ensures r == -1 || 0 <= r <= |s| - |t|
    ensures r == -1 <==> forall k :: !OccursAt(s, t, k)
    ensures r >= 0 ==> OccursAt(s, t, r) && forall k :: 0 <= k < r ==> !OccursAt(s, t, k)
    decreases |s|
  {
    if |s| < |t| then -1
    else if s[..|t|] == t then
      assert OccursAt(s, t, 0);
      0
    else
      var k := IndexOfString(s[1..], t);
      assert !OccursAt(s, t, 0);
      ShiftOccurrence(s, t);
      assert k != -1 ==> OccursAt(s, t, k + 1);
      if k == -1 then -1 else k + 1
  }

  lemma ShiftOccurrence(s: string, t: string)
    requires |s| > 0
    ensures forall k :: k >= 1 ==> (OccursAt(s, t, k) <==> OccursAt(s[1..], t, k - 1))
  {
    forall k | k >= 1
      ensures OccursAt(s, t, k) <==> OccursAt(s[1..], t, k - 1)
    {
      if k + |t| <= |s| {
        assert s[1..][k - 1..k - 1 + |t|] == s[k..k + |t|];
      }
    }
  }

  /** String.contains. */
  predicate Contains(s: string, t: string)
  {
    exists k :: 0 <= k <= |s| - |t| && OccursAt(s, t, k)
  }

  /** String.startsWith. */
  predicate StartsWith(s: string, prefix: string)
  {
    prefix <= s
  }

  /** String.endsWith. */
  predicate EndsWith(s: string, suffix: string)
  {
    |suffix| <= |s| && s[|s| - |suffix|..] == suffix
  }

  // ---------------------------------------------------------------- slicing

  /** String.substring(begin, end), which throws unless 0 <= begin <= end <= length. */
  function Substring(s: string, begin: int, end: int): (r: Result<string, Exception>)
    ensures r.Success? <==> 0 <= begin <= end <= |s|
    ensures r.Success? ==> r.value == s[begin..end]
    ensures r.Failure? ==> r.error == StringIndexOutOfBoundsException
  {
    if 0 <= begin <= end <= |s| then Success(s[begin..end])
    else Failure(StringIndexOutOfBoundsException)
  }

  /** String.substring(begin), which throws unless 0 <= begin <= length. */
  function SubstringFrom(s: string, begin: int): (r: Result<string, Exception>)
    ensures r.Success? <==> 0 <= begin <= |s|
    ensures r.Success? ==> r.value == s[begin..]
    ensures r.Failure? ==> r.error == StringIndexOutOfBoundsException
  {
    if 0 <= begin <= |s| then Success(s[begin..])
    else Failure(StringIndexOutOfBoundsException)
  }

  // ---------------------------------------------------------------- trimming

  /** String.trim drops every character whose code is at most that of the space. */
  predicate IsTrimmed(c: char)
  {
    c <= ' '
  }

  function TrimStart(s: string): (r: string)
    ensures |r| <= |s| && r == s[|s| - |r|..]
    ensures forall k :: 0 <= k < |s| - |r| ==> IsTrimmed(s[k])
    ensures r != [] ==> !IsTrimmed(r[0])
  {
    if s != [] && IsTrimmed(s[0]) then
      var r := TrimStart(s[1..]);
      TrimStartStep(s, r);
      r
    else s
  }

  /** Dropping one more leading blank keeps TrimStart's facts about s. */
  lemma TrimStartStep(s: string, r: string)
    requires s != [] && IsTrimmed(s[0])
    requires |r| <= |s| - 1 && r == s[1..][|s| - 1 - |r|..]
    requires forall k :: 0 <= k < |s| - 1 - |r| ==> IsTrimmed(s[1..][k])
    ensures r == s[|s| - |r|..]
    ensures forall k :: 0 <= k < |s| - |r| ==> IsTrimmed(s[k])
  {
    assert s[1..][|s| - 1 - |r|..] == s[|s| - |r|..];
    forall k | 0 <= k < |s| - |r|
      ensures IsTrimmed(s[k])
    {
      if k > 0 {
        assert s[k] == s[1..][k - 1];
      }
    }
  }

  function TrimEnd(s: string): (r: string)
    ensures |r| <= |s| && r == s[..|r|]
    ensures forall k :: |r| <= k < |s| ==> IsTrimmed(s[k])
    ensures r != [] ==> !IsTrimmed(r[|r| - 1])
  {
    if s != [] && IsTrimmed(s[|s| - 1]) then TrimEnd(s[..|s| - 1]) else s
  }

  /** String.trim: s without its leading and trailing control characters and spaces. */
  function Trim(s: string): (r: string)
    ensures r == [] <==> forall k :: 0 <= k < |s| ==> IsTrimmed(s[k])
    ensures r != [] ==> !IsTrimmed(r[0]) && !IsTrimmed(r[|r| - 1])
    ensures (s == [] || (!IsTrimmed(s[0]) && !IsTrimmed(s[|s| - 1]))) ==> r == s
    ensures exists i :: TrimmedAt(s, r, i)
  {
    var t := TrimStart(s);
    var r := TrimEnd(t);
    assert r != [] ==> r[0] == t[0];
    assert t != [] ==> !IsTrimmed(t[0]);
    TrimmedBetween(s, t, r);
    r
  }

  /** Cutting blanks from the front of s and then from the back leaves the
      slice of s that starts after the front blanks. */
  lemma TrimmedBetween(s: string, t: string, r: string)
    requires |t| <= |s| && t == s[|s| - |t|..] && forall k :: 0 <= k < |s| - |t| ==> IsTrimmed(s[k])
    requires |r| <= |t| && r == t[..|r|] && forall k :: |r| <= k < |t| ==> IsTrimmed(t[k])
    ensures TrimmedAt(s, r, |s| - |t|)
  {
    var i := |s| - |t|;
    assert r == s[i..i + |r|];
    forall k | i + |r| <= k < |s|
      ensures IsTrimmed(s[k])
    {
      assert s[k] == t[k - i];
    }
  }

  /** r is the slice of s starting at i, and everything of s before and after
      that slice is blank. */
  predicate TrimmedAt(s: string, r: string, i: int)
  {
    && 0 <= i <= |s| - |r|
    && r == s[i..i + |r|]
    && (forall k :: 0 <= k < i ==> IsTrimmed(s[k]))
    && (forall k :: i + |r| <= k < |s| ==> IsTrimmed(s[k]))
  }

  // ---------------------------------------------------------------- case

  /** Character.toLowerCase restricted to the ASCII letters. */
  function LowerChar(c: char): char
  {
    if 'A' <= c <= 'Z' then (c as int + 32) as char else c
  }

  /** String.toLowerCase, lowering the ASCII letters. */
  function ToLower(s: string): (r: string)
    ensures |r| == |s|
  {
    if s == [] then [] else [LowerChar(s[0])] + ToLower(s[1..])
  }

  /** Each character of the lowered text is the lowered character. */
  lemma {:induction false} ToLowerAt(s: string, k: int)
    requires 0 <= k < |s|
    ensures ToLower(s)[k] == LowerChar(s[k])
  {
    if k > 0 {
      ToLowerAt(s[1..], k - 1);
    }
  }

  // ---------------------------------------------------------------- numbers

  const TWO_32: int := 0x1_0000_0000
  const TWO_64: int := 0x1_0000_0000_0000_0000

  /** Number.intValue of a long: the low 32 bits read as two's complement. */
  function ToInt32(n: int): (r: int)
    ensures -TWO_32 / 2 <= r < TWO_32 / 2
    ensures (r - n) % TWO_32 == 0
    ensures -TWO_32 / 2 <= n < TWO_32 / 2 ==> r == n
  {
    (n + TWO_32 / 2) % TWO_32 - TWO_32 / 2
  }

  /** Number.longValue: the low 64 bits read as two's complement. */
  function ToInt64(n: int): (r: int)
    ensures -TWO_64 / 2 <= r < TWO_64 / 2
    ensures (r - n) % TWO_64 == 0
    ensures -TWO_64 / 2 <= n < TWO_64 / 2 ==> r == n
  {
    (n + TWO_64 / 2) % TWO_64 - TWO_64 / 2
  }

  /** Java's % on int and long: truncating division's remainder, which takes the
      sign of the dividend. */
  function Rem(a: int, b: int): (r: int)
    requires b > 0
    ensures a >= 0 ==> 0 <= r < b
    ensures a < 0 ==> -b < r <= 0
  {
    if a >= 0 then a % b else -((-a) % b)
  }

  /** Java's / on int and long: division truncating toward zero. */
  function Div(a: int, b: int): (r: int)
    requires b > 0
    ensures r * b + Rem(a, b) == a
  {
    if a >= 0 then a / b else -((-a) / b)
  }

  function DigitChar(d: int): char
    requires 0 <= d < 10
  {
    ('0' as int + d) as char
  }

  predicate IsDigit(c: char)
  {
    '0' <= c <= '9'
  }

  /** The number a digit character stands for. */
  function DigitValue(c: char): int
  {
    c as int - '0' as int
  }

  /** The number a string of decimal digits stands for, most significant
      digit first. */
  function DigitsValue(s: string): int
    decreases |s|
  {
    if s == [] then 0 else DigitsValue(s[..|s| - 1]) * 10 + DigitValue(s[|s| - 1])
  }

  /** The number a decimal numeral with an optional leading '-' stands for. */
  function DecimalValue(s: string): int
  {
    if s != [] && s[0] == '-' then -DigitsValue(s[1..]) else DigitsValue(s)
  }

  /** The decimal digits of n, without leading zeros. */
  function Digits(n: nat): (r: string)
    ensures |r| >= 1
    ensures forall k :: 0 <= k < |r| ==> IsDigit(r[k])
    ensures r[0] == '0' ==> n == 0
  {
    if n < 10 then [DigitChar(n)] else Digits(n / 10) + [DigitChar(n % 10)]
  }

  /** Integer.toString and Long.toString: a '-' for negative numbers, then the
      digits of the magnitude. */
  function DecimalString(n: int): (r: string)
    ensures |r| >= 1
    ensures r[0] == '-' <==> n < 0
    ensures forall k :: (if n < 0 then 1 else 0) <= k < |r| ==> IsDigit(r[k])
  {
    if n < 0 then "-" + Digits(-n) else Digits(n)
  }

  /** The digits stand for n. */
  lemma {:induction false} DigitsHaveValue(n: nat)
    ensures DigitsValue(Digits(n)) == n
  {
    if n >= 10 {
      var prefix := Digits(n / 10);
      assert (prefix + [DigitChar(n % 10)])[..|prefix|] == prefix;
      DigitsHaveValue(n / 10);
    }
  }

  /** The numeral toString writes stands for n: the magnitude's digits after
      the sign, so reading it back gives n. */
  lemma DecimalStringValue(n: int)
    ensures n >= 0 ==> DigitsValue(DecimalString(n)) == n
    ensures n < 0 ==> DigitsValue(DecimalString(n)[1..]) == -n
    ensures DecimalValue(DecimalString(n)) == n
  {
    if n < 0 {
      assert ("-" + Digits(-n))[1..] == Digits(-n);
      DigitsHaveValue(-n);
    } else {
      DigitsHaveValue(n);
    }
  }

  /** Different numbers are written differently. */
  lemma DecimalStringInjective(m: int, n: int)
    requires DecimalString(m) == DecimalString(n)
    ensures m == n
  {
    DecimalStringValue(m);
    DecimalStringValue(n);
  }
}
