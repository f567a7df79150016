/** String helpers the views rely on: the white-space trimming of
    `String.prototype.trim` and the decimal text of a millisecond count. */
module Text {

  /** The characters `trim` removes: white space and line terminators. */
  predicate IsSpace(c: char)
  {
    || c == '\t' || c == '\n' || c == '\U{000B}' || c == '\U{000C}' || c == '\r'
    || c == ' ' || c == '\U{00A0}' || c == '\U{1680}'
    || ('\U{2000}' <= c <= '\U{200A}')
    || c == '\U{2028}' || c == '\U{2029}' || c == '\U{202F}' || c == '\U{205F}'
    || c == '\U{3000}' || c == '\U{FEFF}'
  }

  /** Every character of `s` is white space (the empty string included). */
  predicate Blank(s: string)
  {
    forall i :: 0 <= i < |s| ==> IsSpace(s[i])
  }

  /** The index of the first character at or after `k` that is not white
      space, or `|s|` if there is none. */
  function SkipSpaces(s: string, k: nat): (n: nat)
    requires k <= |s|
    ensures k <= n <= |s|
    ensures forall i :: k <= i < n ==> IsSpace(s[i])
    ensures n < |s| ==> !IsSpace(s[n])
    decreases |s| - k
  {
    if k == |s| || !IsSpace(s[k]) then k else SkipSpaces(s, k + 1)
  }

  /** The index just past the last character before `k`, and not before
      `lo`, that is not white space, or `lo` if there is none. */
  function SkipSpacesBack(s: string, lo: nat, k: nat): (n: nat)
    requires lo <= k <= |s|
    ensures lo <= n <= k
    ensures forall i :: n <= i < k ==> IsSpace(s[i])
    ensures n > lo ==> !IsSpace(s[n - 1])
    decreases k
  {
    if k == lo || !IsSpace(s[k - 1]) then k else SkipSpacesBack(s, lo, k - 1)
  }

  /** `s` without leading and trailing white space: an infix of `s` that is
      empty exactly when `s` is all white space. */
  function Trim(s: string): (r: string)
    ensures exists i, j :: 0 <= i <= j <= |s| && r == s[i..j] && Blank(s[..i]) && Blank(s[j..])
    ensures r == "" <==> Blank(s)
    ensures r != "" ==> !IsSpace(r[0]) && !IsSpace(r[|r| - 1])
  {
    var first := SkipSpaces(s, 0);
    var end := SkipSpacesBack(s, first, |s|);
    assert Blank(s[..first]) && Blank(s[end..]);
    s[first..end]
  }

  /** `!s.trim()`: whether trimming leaves nothing, which is exactly when
      `s` is all white space. */
  method TrimsToEmpty(s: string) returns (empty: bool)
    ensures empty <==> Blank(s)
  {
    empty := Trim(s) == "";
  }

  function Digit(d: nat): (c: char)
    requires d < 10
    ensures '0' <= c <= '9'
    ensures c as int - '0' as int == d
  {
    "0123456789"[d]
  }

  /** The decimal text of `n`, as `Number.prototype.toString` writes it for
      the values `Date.now()` takes (below 10^21, where it switches to
      exponent notation): digits only, and no leading zero unless `n` is
      zero. */
  function NumberText(n: nat): (r: string)
    ensures |r| >= 1
    ensures forall i :: 0 <= i < |r| ==> '0' <= r[i] <= '9'
    ensures r[0] == '0' ==> n == 0
  {
    if n < 10 then [Digit(n)] else NumberText(n / 10) + [Digit(n % 10)]
  }

  /** The number a string of decimal digits denotes. */
  function DigitsValue(s: string): int
    requires forall i :: 0 <= i < |s| ==> '0' <= s[i] <= '9'
  {
    if s == [] then 0 else 10 * DigitsValue(s[..|s| - 1]) + (s[|s| - 1] as int - '0' as int)
  }

  /** Reading the text back gives the number: the text determines `n`. */
  lemma {:induction false} NumberTextRoundTrip(n: nat)
    ensures DigitsValue(NumberText(n)) == n
  {
    var r := NumberText(n);
    if n >= 10 {
      NumberTextRoundTrip(n / 10);
      assert r[..|r| - 1] == NumberText(n / 10);
      assert r[|r| - 1] == Digit(n % 10);
      calc {
        DigitsValue(r);
        10 * DigitsValue(NumberText(n / 10)) + n % 10;
        10 * (n / 10) + n % 10;
      }
    } else {
      assert r == [Digit(n)];
    }
  }

  /** Different millisecond counts have different texts. */
  lemma NumberTextInjective(m: nat, n: nat)
    requires NumberText(m) == NumberText(n)
    ensures m == n
  {
    NumberTextRoundTrip(m);
    NumberTextRoundTrip(n);
  }
}
