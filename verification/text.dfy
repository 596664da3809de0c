/** String helpers shared by the fetcher and the ranking step: decimal
    formatting of integers as Python's format mini-language writes them,
    prefix tests, and the ASCII parts of `str.strip` and `str.upper`. */
module Text {

  predicate IsDigit(c: char) { '0' <= c <= '9' }

  /** The value of a non-empty run of decimal digits. */
  function DigitsValue(s: string): nat
    requires forall i :: 0 <= i < |s| ==> IsDigit(s[i])
  {
    if s == [] then 0
    else
      assert IsDigit(s[|s| - 1]);
      10 * DigitsValue(s[..|s| - 1]) + (s[|s| - 1] as int - '0' as int) as nat
  }

  /** `str(n)` for a natural number: its shortest decimal spelling. */
  function Decimal(n: nat): (r: string)
    ensures |r| >= 1
    ensures forall i :: 0 <= i < |r| ==> IsDigit(r[i])
    ensures |r| > 1 ==> r[0] != '0'
    ensures DigitsValue(r) == n
  {
    if n < 10 then ['0' + n as char]
    else
      var r := Decimal(n / 10) + ['0' + (n % 10) as char];
      assert r[..|r| - 1] == Decimal(n / 10);
      r
  }

  /** Two numbers with the same decimal spelling are equal. */
  lemma DecimalInjective(p: nat, q: nat)
    requires Decimal(p) == Decimal(q)
    ensures p == q
  {
  }

  /** Left-pads `s` with '0' up to `width` characters. */
  function ZeroPad(s: string, width: int): (r: string)
    ensures |r| == if |s| >= width then |s| else width
    ensures r[|r| - |s|..] == s
    ensures forall i :: 0 <= i < |r| - |s| ==> r[i] == '0'
    decreases width - |s|
  {
    if |s| >= width then s else ZeroPad(['0'] + s, width)
  }

  /** Python's `format(i, "0<width>d")`: a minus sign for negative numbers,
      counted in the width, then zero padding, then the digits. */
  function FormatInt(i: int, width: nat): (r: string)
    ensures i >= 0 ==> |r| == (if |Decimal(i)| >= width then |Decimal(i)| else width)
    ensures i >= 0 ==> r[|r| - |Decimal(i)|..] == Decimal(i)
    ensures i >= 0 ==> forall k :: 0 <= k < |r| - |Decimal(i)| ==> r[k] == '0'
    ensures i < 0 ==> |r| == 1 + (if |Decimal(-i)| >= width - 1 then |Decimal(-i)| else width - 1)
    ensures i < 0 ==> r[0] == '-' && r[|r| - |Decimal(-i)|..] == Decimal(-i)
    ensures i < 0 ==> forall k :: 1 <= k < |r| - |Decimal(-i)| ==> r[k] == '0'
  {
    if i < 0 then "-" + ZeroPad(Decimal(-i), width - 1)
    else ZeroPad(Decimal(i), width)
  }

  /** `s.startswith(p)`. */
  predicate StartsWith(s: string, p: string) {
    |p| <= |s| && s[..|p|] == p
  }

  /** The ASCII characters `str.strip()` removes: space, tab, line feed,
      carriage return, vertical tab, form feed, and the four separators
      U+001C to U+001F. */
  predicate IsSpace(c: char) {
    c == ' ' || c == '\t' || c == '\n' || c == '\r' || c == '\U{B}' || c == '\U{C}'
    || ('\U{1C}' <= c <= '\U{1F}')
  }

  /** The index of the first non-whitespace character at or after i, or
      |s| when there is none. */
  function SkipSpaces(s: string, i: nat): (k: nat)
    requires i <= |s|
    ensures i <= k <= |s|
    ensures forall t :: i <= t < k ==> IsSpace(s[t])
    ensures k < |s| ==> !IsSpace(s[k])
    decreases |s| - i
  {
    if i == |s| || !IsSpace(s[i]) then i else SkipSpaces(s, i + 1)
  }

  /** The end of s[lo..j] once its trailing whitespace is dropped. */
  function TrimEnd(s: string, lo: nat, j: nat): (k: nat)
    requires lo <= j <= |s|
    ensures lo <= k <= j
    ensures forall t :: k <= t < j ==> IsSpace(s[t])
    ensures k > lo ==> !IsSpace(s[k - 1])
    decreases j
  {
    if j == lo || !IsSpace(s[j - 1]) then j else TrimEnd(s, lo, j - 1)
  }

  /** `s.strip()`: `s` without its leading and trailing whitespace. */
  function Strip(s: string): (r: string)
    ensures |r| <= |s|
    ensures r != [] ==> !IsSpace(r[0]) && !IsSpace(r[|r| - 1])
  {
    var i := SkipSpaces(s, 0);
    s[i..TrimEnd(s, i, |s|)]
  }

  /** What `strip` removes is whitespace at either end: the result is the
      infix of `s` between a whitespace prefix and a whitespace suffix. */
  lemma StripIsInfix(s: string)
    ensures exists i, j ::
              && 0 <= i <= j <= |s| && Strip(s) == s[i..j]
              && (forall k :: 0 <= k < i ==> IsSpace(s[k]))
              && (forall k :: j <= k < |s| ==> IsSpace(s[k]))
  {
    var i := SkipSpaces(s, 0);
    var j := TrimEnd(s, i, |s|);
    assert Strip(s) == s[i..j];
    assert forall k :: j <= k < |s| ==> IsSpace(s[k]);
    assert forall k :: 0 <= k < i ==> IsSpace(s[k]);
  }

  /** A string without whitespace at either end is its own strip. */
  lemma StripKeepsTrimmed(s: string)
    requires s != [] ==> !IsSpace(s[0]) && !IsSpace(s[|s| - 1])
    ensures Strip(s) == s
  {
    assert SkipSpaces(s, 0) == 0;
    assert TrimEnd(s, 0, |s|) == |s|;
  }

  predicate IsLower(c: char) { 'a' <= c <= 'z' }

  function UpperChar(c: char): char {
    if IsLower(c) then c - 'a' + 'A' else c
  }

  /** `s.upper()` on ASCII letters: the same string with every lower-case
      letter replaced by its capital. */
  function Upper(s: string): (r: string)
    ensures |r| == |s|
    ensures forall i :: 0 <= i < |s| ==> r[i] == UpperChar(s[i])
    ensures forall i :: 0 <= i < |r| ==> !IsLower(r[i])
  {
    if s == [] then [] else [UpperChar(s[0])] + Upper(s[1..])
  }
}
