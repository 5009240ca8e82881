/** Character classes of JavaScript regular expressions and the few string
    built-ins the renderer uses: `Array.prototype.join`, `String(number)` and
    `String.prototype.trim`. Strings are sequences of Unicode scalar values. */
module Strings {

  /** `\w` in a regular expression without the `u` or `i` flag. */
  predicate IsWordChar(c: char) {
    ('A' <= c <= 'Z') || ('a' <= c <= 'z') || ('0' <= c <= '9') || c == '_'
  }

  /** `\s`: the WhiteSpace and LineTerminator code points, which are also the
      ones `trim` strips. */
  predicate IsSpace(c: char) {
    || c == ' ' || c == '\t' || c == '\n' || c == '\r'
    || c == '\U{000B}' || c == '\U{000C}' || c == '\U{00A0}' || c == '\U{1680}'
    || ('\U{2000}' <= c <= '\U{200A}')
    || c == '\U{2028}' || c == '\U{2029}' || c == '\U{202F}' || c == '\U{205F}'
    || c == '\U{3000}' || c == '\U{FEFF}'
  }

  predicate AllWord(s: string) {
    forall i :: 0 <= i < |s| ==> IsWordChar(s[i])
  }

  predicate AllSpace(s: string) {
    forall i :: 0 <= i < |s| ==> IsSpace(s[i])
  }

  /** `xs.join(sep)`. */
  function Join(xs: seq<string>, sep: string): string {
    if |xs| == 0 then ""
    else if |xs| == 1 then xs[0]
    else xs[0] + sep + Join(xs[1..], sep)
  }

  /** Joining a list whose first item is extended on the left. */
  lemma JoinConsHead(a: string, xs: seq<string>, sep: string)
    requires |xs| > 0
    ensures Join([a + xs[0]] + xs[1..], sep) == a + Join(xs, sep)
  {
    var ys := [a + xs[0]] + xs[1..];
    assert ys[1..] == xs[1..];
  }

  // ---- String(number) for the integer fields ----

  predicate IsDigit(c: char) { '0' <= c <= '9' }

  function DigitChar(d: nat): (c: char)
    requires d < 10
    ensures IsDigit(c) && c as int - '0' as int == d
  {
    ('0' as int + d) as char
  }

  /** Decimal digits of `n`, most significant first, without leading zeros. */
  function NatToString(n: nat): (r: string)
    ensures |r| > 0 && forall i :: 0 <= i < |r| ==> IsDigit(r[i])
    ensures |r| > 1 ==> r[0] != '0'
  {
    if n < 10 then [DigitChar(n)] else NatToString(n / 10) + [DigitChar(n % 10)]
  }

  /** `String(n)` for an integer `n`. */
  function IntToString(n: int): (r: string)
    ensures IsIntString(r)
  {
    if n < 0 then "-" + NatToString(-n) else NatToString(n)
  }

  function DigitValue(c: char): (d: nat)
    requires IsDigit(c)
    ensures d < 10
  {
    c as int - '0' as int
  }

  /** Value of a string of decimal digits (the partner of `NatToString`). */
  function ParseNat(s: string): nat
    requires forall i :: 0 <= i < |s| ==> IsDigit(s[i])
  {
    if s == [] then 0 else 10 * ParseNat(s[..|s| - 1]) + DigitValue(s[|s| - 1])
  }

  /** An optional minus sign followed by digits, at least one character. */
  predicate IsIntString(s: string) {
    |s| > 0 && (s[0] == '-' || IsDigit(s[0])) && forall i :: 0 < i < |s| ==> IsDigit(s[i])
  }

  /** Value of an optional minus sign followed by decimal digits. */
  function ParseInt(s: string): int
    requires IsIntString(s)
  {
    if s[0] == '-' then -(ParseNat(s[1..]) as int) else ParseNat(s)
  }

  lemma {:induction false} NatStringRoundTrip(n: nat)
    ensures ParseNat(NatToString(n)) == n
  {
    if n >= 10 {
      NatStringRoundTrip(n / 10);
      var s := NatToString(n);
      assert s[..|s| - 1] == NatToString(n / 10);
    }
  }

  /** The decimal text of every integer reads back as that integer, so no two
      values of an integer field display the same. */
  lemma IntStringRoundTrip(n: int)
    ensures ParseInt(IntToString(n)) == n
  {
    if n < 0 {
      var s := IntToString(n);
      assert s[1..] == NatToString(-n);
      NatStringRoundTrip(-n);
    } else {
      NatStringRoundTrip(n);
    }
  }

  // ---- String.prototype.trim ----

  function TrimStart(s: string): (r: string)
    ensures |r| <= |s| && r == s[|s| - |r|..]
    ensures AllSpace(s[..|s| - |r|])
    ensures r == [] || !IsSpace(r[0])
  {
    if s != [] && IsSpace(s[0]) then
      var r := TrimStart(s[1..]);
      SpaceFront(s, r);
      r
    else s
  }

  /** A white-space character followed by a run of white space. */
  lemma SpaceFront(s: string, r: string)
    requires s != [] && IsSpace(s[0]) && |r| < |s|
    requires r == s[1..][|s| - 1 - |r|..] && AllSpace(s[1..][..|s| - 1 - |r|])
    ensures r == s[|s| - |r|..] && AllSpace(s[..|s| - |r|])
  {
    var k := |s| - |r|;
    forall i | 0 <= i < k
      ensures IsSpace(s[..k][i])
    {
      if i > 0 {
        assert s[..k][i] == s[1..][..k - 1][i - 1];
      }
    }
  }

  function TrimEnd(s: string): (r: string)
    ensures |r| <= |s| && r == s[..|r|]
    ensures AllSpace(s[|r|..])
    ensures r == [] || !IsSpace(r[|r| - 1])
  {
    if s != [] && IsSpace(s[|s| - 1]) then
      var r := TrimEnd(s[..|s| - 1]);
      SpaceBack(s, |r|);
      r
    else s
  }

  /** A run of white space followed by a white-space character. */
  lemma SpaceBack(s: string, k: nat)
    requires k < |s| && IsSpace(s[|s| - 1]) && AllSpace(s[..|s| - 1][k..])
    ensures AllSpace(s[k..]) && s[..|s| - 1][..k] == s[..k]
  {
    forall i | 0 <= i < |s| - k
      ensures IsSpace(s[k..][i])
    {
      if i < |s| - 1 - k {
        assert s[k..][i] == s[..|s| - 1][k..][i];
      }
    }
  }

  /** A text is its front, then a middle, then the rest. */
  lemma CutInThree(s: string, k: nat, m: nat)
    requires k + m <= |s|
    ensures s == s[..k] + (s[k..][..m] + s[k..][m..])
  {
    assert s[k..] == s[k..][..m] + s[k..][m..];
  }

  /** `s.trim()`. */
  function Trim(s: string): (r: string)
    ensures |r| <= |s|
    ensures r == [] || (!IsSpace(r[0]) && !IsSpace(r[|r| - 1]))
  {
    TrimEnd(TrimStart(s))
  }

  /** What `trim` keeps is `s` itself with white space cut off each end:
      `s` is white space, the trimmed text, white space. */
  lemma TrimInfix(s: string)
    ensures exists front, back :: s == front + (Trim(s) + back) && AllSpace(front) && AllSpace(back)
  {
    var t := TrimStart(s);
    var r := TrimEnd(t);
    assert Trim(s) == r;
    CutInThree(s, |s| - |t|, |r|);
    Surrounded(s, s[..|s| - |t|], r, t[|r|..]);
  }

  lemma Surrounded(s: string, front: string, r: string, back: string)
    requires s == front + (r + back) && AllSpace(front) && AllSpace(back)
    ensures exists f, b :: s == f + (r + b) && AllSpace(f) && AllSpace(b)
  {
  }

  /** A name trims to nothing exactly when it is made only of white space. */
  lemma TrimBlank(s: string)
    ensures Trim(s) == [] <==> AllSpace(s)
  {
    var t := TrimStart(s);
    if Trim(s) == [] {
      assert t[0..] == t;
      assert t == [];
      assert s[..|s|] == s;
    } else {
      assert t != [];
      assert t[0] == s[|s| - |t|];
      assert !IsSpace(s[|s| - |t|]);
    }
  }
}
