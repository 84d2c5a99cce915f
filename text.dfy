/**
 * The parts of Go's `strings`, `strconv` and `fmt` packages that the core
 * relies on, over strings seen as sequences of characters.
 */
module Text {

  import opened Common

  /** `pat` occurs in `s` starting at index `i`. */
  predicate OccursAt(s: string, pat: string, i: int) {
    0 <= i && i + |pat| <= |s| && s[i..i + |pat|] == pat
  }

  /** `s` begins with `prefix`. */
  predicate StartsWith(s: string, prefix: string) {
    |prefix| <= |s| && s[..|prefix|] == prefix
  }

  /** `strings.Index`: the first position at which `pat` occurs in `s`, or -1 when it does not occur. */
  function IndexOf(s: string, pat: string): (r: int)
    ensures r == -1 <==> forall i :: !OccursAt(s, pat, i)
    ensures r != -1 ==> 0 <= r && OccursAt(s, pat, r) && forall i :: 0 <= i < r ==> !OccursAt(s, pat, i)
  {
    IndexFrom(s, pat, 0)
  }

  /** The first occurrence of `pat` in `s` at or after `start`, or -1. */
  function IndexFrom(s: string, pat: string, start: nat): (r: int)
    decreases |s| - start
    ensures r == -1 <==> forall i :: start <= i ==> !OccursAt(s, pat, i)
    ensures r != -1 ==> start <= r && OccursAt(s, pat, r) && forall i :: start <= i < r ==> !OccursAt(s, pat, i)
  {
    if start + |pat| > |s| then -1
    else if s[start..start + |pat|] == pat then assert OccursAt(s, pat, start); start
    else IndexFrom(s, pat, start + 1)
  }

  /** The decimal digit character for `d`. */
  function DigitChar(d: nat): (c: char)
    requires d < 10
    ensures '0' <= c <= '9' && c as int - '0' as int == d
  {
    ['0', '1', '2', '3', '4', '5', '6', '7', '8', '9'][d]
  }

  predicate IsDigit(c: char) {
    '0' <= c <= '9'
  }

  /** The decimal numeral of `n`, most significant digit first, without leading zeros. */
  function DecimalNat(n: nat): (r: string)
    ensures |r| > 0
  {
    if n < 10 then [DigitChar(n)] else DecimalNat(n / 10) + [DigitChar(n % 10)]
  }

  /** `strconv.Itoa` and `fmt`'s `%v` on an integer: an optional minus sign, then the decimal numeral. */
  function FormatInt(n: int): (r: string)
    ensures |r| > 0
  {
    if n < 0 then "-" + DecimalNat(-n) else DecimalNat(n)
  }

  /** The value of a decimal digit character. */
  function DigitValue(c: char): (d: nat)
    requires IsDigit(c)
  {
    c as int - '0' as int
  }

  /** The value of a string of decimal digits. */
  function ParseDecimal(s: string): nat
    requires forall i :: 0 <= i < |s| ==> IsDigit(s[i])
  {
    if s == [] then 0
    else ParseDecimal(s[..|s| - 1]) * 10 + DigitValue(s[|s| - 1])
  }

  /** The inverse of `FormatInt`: an optional minus sign followed by decimal digits. */
  function ParseInt(s: string): Option<int> {
    if |s| > 0 && s[0] == '-' && AllDigits(s[1..]) then Some(0 - ParseDecimal(s[1..]))
    else if AllDigits(s) then Some(ParseDecimal(s))
    else None
  }

  predicate AllDigits(s: string) {
    |s| > 0 && forall i :: 0 <= i < |s| ==> IsDigit(s[i])
  }

  /**
   * The numeral is made of digits, starts with `0` only when it is `0`
   * itself, and reads back as `n`.
   */
  lemma {:induction false} DecimalNatRoundTrip(n: nat)
    ensures AllDigits(DecimalNat(n))
    ensures DecimalNat(n)[0] == '0' ==> n == 0 && DecimalNat(n) == "0"
    ensures ParseDecimal(DecimalNat(n)) == n
  {
    if n >= 10 {
      var init := DecimalNat(n / 10);
      var s := init + [DigitChar(n % 10)];
      DecimalNatRoundTrip(n / 10);
      assert s[..|s| - 1] == init;
      assert s[0] == init[0];
    }
  }

  /** Printing an integer and reading it back gives the integer: distinct integers print differently. */
  lemma FormatIntRoundTrip(n: int)
    ensures ParseInt(FormatInt(n)) == Some(n)
  {
    var digits := DecimalNat(if n < 0 then -n else n);
    DecimalNatRoundTrip(if n < 0 then -n else n);
    assert AllDigits(digits);
    if n < 0 {
      SignedRoundTrip(digits);
    } else {
      assert FormatInt(n) == digits;
      assert IsDigit(digits[0]);
    }
  }

  /** A minus sign followed by digits is read as the negated value of the digits. */
  lemma SignedRoundTrip(digits: string)
    requires AllDigits(digits)
    ensures ParseInt("-" + digits) == Some(0 - ParseDecimal(digits))
  {
    assert ("-" + digits)[1..] == digits;
  }

  /** The elements of `xs` printed with `FormatInt`, separated by single spaces. */
  function JoinInts(xs: seq<int>): string {
    if xs == [] then ""
    else if |xs| == 1 then FormatInt(xs[0])
    else FormatInt(xs[0]) + " " + JoinInts(xs[1..])
  }

  /** `fmt`'s `%v` on a `[]int64`: the elements between square brackets, separated by spaces. */
  function FormatIntSlice(xs: seq<int>): (r: string)
    ensures |r| >= 2 && r[0] == '[' && r[|r| - 1] == ']'
    ensures r == "[]" <==> xs == []
  {
    "[" + JoinInts(xs) + "]"
  }

  /** A printed integer is digits, after a minus sign when negative. */
  lemma FormatIntChars(n: int)
    ensures forall i :: 0 <= i < |FormatInt(n)| ==> FormatInt(n)[i] == '-' || IsDigit(FormatInt(n)[i])
  {
    var digits := DecimalNat(if n < 0 then -n else n);
    DecimalNatRoundTrip(if n < 0 then -n else n);
    assert forall i :: 0 <= i < |digits| ==> IsDigit(digits[i]);
  }

  /** Joined integers are digits, minus signs and the spaces between them. */
  lemma {:induction false} JoinIntsChars(xs: seq<int>)
    ensures forall i :: 0 <= i < |JoinInts(xs)| ==> JoinInts(xs)[i] == ' ' || JoinInts(xs)[i] == '-' || IsDigit(JoinInts(xs)[i])
  {
    if xs != [] {
      var head := FormatInt(xs[0]);
      FormatIntChars(xs[0]);
      if |xs| > 1 {
        var rest := JoinInts(xs[1..]);
        JoinIntsChars(xs[1..]);
        assert JoinInts(xs) == head + " " + rest;
        assert forall i :: |head| < i < |JoinInts(xs)| ==> JoinInts(xs)[i] == rest[i - |head| - 1];
      }
    }
  }

  /** Two words without `c`, each followed by `c` and more text, line up: the words are equal, and so are the rests. */
  lemma SplitAt(c: char, a: string, b: string, ra: string, rb: string)
    requires forall i :: 0 <= i < |a| ==> a[i] != c
    requires forall i :: 0 <= i < |b| ==> b[i] != c
    requires a + [c] + ra == b + [c] + rb
    ensures a == b && ra == rb
  {
    var s := a + [c] + ra;
    assert s[|a|] == c && s[|b|] == c;
    assert forall i :: 0 <= i < |a| ==> s[i] == a[i];
    assert forall i :: 0 <= i < |b| ==> s[i] == b[i];
    assert |a| == |b|;
    assert a == s[..|a|] == b;
    assert ra == s[|a| + 1..] == rb;
  }

  /** A word without `c` is never another such word followed by `c`. */
  lemma NotSplitAt(c: char, a: string, b: string, rb: string)
    requires forall i :: 0 <= i < |a| ==> a[i] != c
    ensures a != b + [c] + rb
  {
    var s := b + [c] + rb;
    assert s[|b|] == c;
    assert |b| < |a| ==> a[|b|] != c;
  }

  /** Joining is injective: two lists that print the same are the same list. */
  lemma {:induction false} JoinIntsInjective(xs: seq<int>, ys: seq<int>)
    requires JoinInts(xs) == JoinInts(ys)
    ensures xs == ys
  {
    if xs != [] && ys != [] {
      FormatIntChars(xs[0]);
      FormatIntChars(ys[0]);
      if |xs| == 1 && |ys| == 1 {
        FormatIntRoundTrip(xs[0]);
        FormatIntRoundTrip(ys[0]);
      } else if |xs| == 1 {
        NotSplitAt(' ', FormatInt(xs[0]), FormatInt(ys[0]), JoinInts(ys[1..]));
      } else if |ys| == 1 {
        NotSplitAt(' ', FormatInt(ys[0]), FormatInt(xs[0]), JoinInts(xs[1..]));
      } else {
        SplitAt(' ', FormatInt(xs[0]), FormatInt(ys[0]), JoinInts(xs[1..]), JoinInts(ys[1..]));
        FormatIntRoundTrip(xs[0]);
        FormatIntRoundTrip(ys[0]);
        JoinIntsInjective(xs[1..], ys[1..]);
        assert xs == [xs[0]] + xs[1..] && ys == [ys[0]] + ys[1..];
      }
    }
  }

  /** `%v` tells lists apart: two lists print the same exactly when they are equal, so the text names the ids in order. */
  lemma FormatIntSliceInjective(xs: seq<int>, ys: seq<int>)
    ensures FormatIntSlice(xs) == FormatIntSlice(ys) <==> xs == ys
  {
    if FormatIntSlice(xs) == FormatIntSlice(ys) {
      var s := FormatIntSlice(xs);
      assert JoinInts(xs) == s[1..|s| - 1] == JoinInts(ys);
      JoinIntsInjective(xs, ys);
    }
  }

  /** An occurrence inside a suffix of `s` is an occurrence in `s`, shifted by where the suffix starts. */
  lemma OccursInSuffix(s: string, pat: string, p: nat, i: int)
    requires p <= |s|
    ensures OccursAt(s[p..], pat, i) <==> OccursAt(s, pat, p + i) && 0 <= i
  {
    if 0 <= i && i + |pat| <= |s| - p {
      assert s[p..][i..i + |pat|] == s[p + i..p + i + |pat|];
    }
  }

  /** An occurrence inside a slice `s[lo..hi]` is an occurrence in `s`. */
  lemma OccursInSlice(s: string, pat: string, lo: nat, hi: nat, i: nat)
    requires lo <= hi <= |s|
    requires OccursAt(s[lo..hi], pat, i)
    ensures OccursAt(s, pat, lo + i) && lo + i + |pat| <= hi
  {
    var t := s[lo..hi];
    assert i + |pat| <= |t|;
    var u, v := t[i..i + |pat|], s[lo + i..lo + i + |pat|];
    assert u == v by {
      forall k | 0 <= k < |pat| ensures u[k] == v[k] {
        assert t[i + k] == s[lo + i + k];
      }
    }
  }
}
