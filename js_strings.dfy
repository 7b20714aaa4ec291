/** The few pieces of JavaScript string semantics the front end relies on:
    `String.prototype.trim`, the decimal `toString` of a non-negative integer
    (used for message ids), and a first-occurrence search. */
module JsStrings {

  /** ECMAScript's WhiteSpace and LineTerminator code points: the characters
      that `trim` removes from both ends of a string. */
  predicate IsWhiteSpace(c: char) {
    c in {'\t', '\n', '\U{000B}', '\U{000C}', '\r', ' ', '\U{00A0}', '\U{1680}',
          '\U{2028}', '\U{2029}', '\U{202F}', '\U{205F}', '\U{3000}', '\U{FEFF}'}
    || ('\U{2000}' <= c <= '\U{200A}')
  }

  /** Drops leading white space: the result is a suffix of `s`, everything cut
      off is white space, and what remains does not start with white space. */
  function TrimStart(s: string): (r: string)
    ensures |r| <= |s| && r == s[|s| - |r|..]
    ensures forall j :: 0 <= j < |s| - |r| ==> IsWhiteSpace(s[j])
    ensures r == "" || !IsWhiteSpace(r[0])
  {
    if s != "" && IsWhiteSpace(s[0]) then TrimStart(s[1..]) else s
  }

  /** Drops trailing white space: the result is a prefix of `s`, everything cut
      off is white space, and what remains does not end with white space. */
  function TrimEnd(s: string): (r: string)
    ensures |r| <= |s| && r == s[..|r|]
    ensures forall j :: |r| <= j < |s| ==> IsWhiteSpace(s[j])
    ensures r == "" || !IsWhiteSpace(r[|r| - 1])
  {
    if s != "" && IsWhiteSpace(s[|s| - 1]) then TrimEnd(s[..|s| - 1]) else s
  }

  /** `s.trim()` */
  function Trim(s: string): (r: string)
    ensures |r| <= |s|
    ensures r == "" || (!IsWhiteSpace(r[0]) && !IsWhiteSpace(r[|r| - 1]))
  {
    TrimEnd(TrimStart(s))
  }

  /** `!s.trim()`: nothing is left after trimming, which happens exactly when
      every character is white space (`BlankIffTrimmedEmpty`). */
  predicate IsBlank(s: string) {
    forall i :: 0 <= i < |s| ==> IsWhiteSpace(s[i])
  }

  /** `s.trim()` is empty exactly when `s` is blank. */
  lemma BlankIffTrimmedEmpty(s: string)
    ensures Trim(s) == "" <==> IsBlank(s)
  {
  }

  function DigitChar(d: nat): (c: char)
    requires d < 10
    ensures '0' <= c <= '9'
  {
    ['0', '1', '2', '3', '4', '5', '6', '7', '8', '9'][d]
  }

  function DigitValue(c: char): (d: nat)
    requires '0' <= c <= '9'
    ensures d < 10 && DigitChar(d) == c
  {
    if c == '0' then 0 else if c == '1' then 1 else if c == '2' then 2
    else if c == '3' then 3 else if c == '4' then 4 else if c == '5' then 5
    else if c == '6' then 6 else if c == '7' then 7 else if c == '8' then 8 else 9
  }

  predicate IsDecimal(s: string) {
    s != "" && forall i :: 0 <= i < |s| ==> '0' <= s[i] <= '9'
  }

  /** `n.toString()` for a non-negative integer: decimal digits, no leading zero. */
  function NumberToString(n: nat): (r: string)
    ensures IsDecimal(r)
    ensures r[0] == '0' ==> n == 0
  {
    if n < 10 then [DigitChar(n)] else NumberToString(n / 10) + [DigitChar(n % 10)]
  }

  /** Reads a string of decimal digits back as a number. */
  function ParseDecimal(s: string): nat
    requires forall i :: 0 <= i < |s| ==> '0' <= s[i] <= '9'
  {
    if s == "" then 0 else 10 * ParseDecimal(s[..|s| - 1]) + DigitValue(s[|s| - 1])
  }

  /** `toString` loses nothing: distinct clock readings give distinct ids. */
  lemma {:induction false} NumberToStringRoundTrip(n: nat)
    ensures ParseDecimal(NumberToString(n)) == n
  {
    var r := NumberToString(n);
    if n >= 10 {
      NumberToStringRoundTrip(n / 10);
      assert r[..|r| - 1] == NumberToString(n / 10);
      assert DigitValue(r[|r| - 1]) == n % 10;
    } else {
      assert DigitValue(r[0]) == n;
    }
  }

  /** Index of the first occurrence of `c` in `s`, or `|s|` when there is none. */
  function IndexOf(s: string, c: char): (i: nat)
    ensures i <= |s|
    ensures i < |s| ==> s[i] == c
    ensures forall j :: 0 <= j < i ==> s[j] != c
  {
    if s == "" then 0 else if s[0] == c then 0 else 1 + IndexOf(s[1..], c)
  }

  /** The first occurrence of `c` in `a + b` is found in `b` when `a` has none. */
  lemma {:induction false} IndexOfAfterPrefix(a: string, b: string, c: char)
    requires forall j :: 0 <= j < |a| ==> a[j] != c
    ensures IndexOf(a + b, c) == |a| + IndexOf(b, c)
  {
    if a != "" {
      assert (a + b)[0] == a[0];
      assert (a + b)[1..] == a[1..] + b;
      IndexOfAfterPrefix(a[1..], b, c);
    } else {
      assert a + b == b;
    }
  }
}
