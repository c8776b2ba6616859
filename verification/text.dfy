/** The Python string operations the library relies on: `str.rfind`,
    slicing with a negative index, `str.strip`, `str.replace`, `str.upper`,
    `unicode()` of an integer and `os.path.basename`. */
module Text {
  import opened Common

  /** The characters Python 2's `str.strip()` removes: space, \t, \n, \v, \f, \r. */
  predicate IsWhitespace(c: char) {
    c == ' ' || 9 <= c as int <= 13
  }

  predicate IsLower(c: char) {
    'a' <= c <= 'z'
  }

  predicate IsDigit(c: char) {
    '0' <= c <= '9'
  }

  predicate AllDigits(s: string) {
    forall i :: 0 <= i < |s| ==> IsDigit(s[i])
  }

  /** ASCII upper-casing of one character. */
  function UpperChar(c: char): (u: char)
    ensures !IsLower(u)
    ensures !IsLower(c) ==> u == c
  {
    if IsLower(c) then (c as int - 32) as char else c
  }

  /** `s.rfind(c, 0, end)`: the last index below `end` holding `c`, or -1. */
  function RFind(s: string, c: char, end: nat): (ix: int)
    ensures -1 <= ix < end && ix < |s|
    ensures ix >= 0 ==> s[ix] == c
    ensures forall k :: ix < k < end && k < |s| ==> s[k] != c
  {
    RFindBelow(s, c, if end < |s| then end else |s|)
  }

  function RFindBelow(s: string, c: char, n: nat): (ix: int)
    requires n <= |s|
    ensures -1 <= ix < n
    ensures ix >= 0 ==> s[ix] == c
    ensures forall k :: ix < k < n ==> s[k] != c
  {
    if n == 0 then -1
    else if s[n - 1] == c then n - 1
    else RFindBelow(s, c, n - 1)
  }

  /** Python's reading of a slice bound `i` on a sequence of length `n`. */
  function SliceIndex(i: int, n: nat): (k: nat)
    ensures k <= n
    ensures 0 <= i <= n ==> k == i
    ensures -(n as int) <= i < 0 ==> k == n + i
  {
    if i < 0 then (if i + n < 0 then 0 else i + n)
    else if i > n then n
    else i
  }

  /** `s[:i]` */
  function SliceTo(s: string, i: int): string {
    s[..SliceIndex(i, |s|)]
  }

  /** `s[i:]` */
  function SliceFrom(s: string, i: int): string {
    s[SliceIndex(i, |s|)..]
  }

  function StripLeft(s: string): (r: string)
    ensures |r| <= |s| && r == s[|s| - |r|..]
    ensures r == [] || !IsWhitespace(r[0])
    ensures |s| > 0 && IsWhitespace(s[0]) ==> |r| < |s|
    ensures |s| > 0 && !IsWhitespace(s[0]) ==> r == s
  {
    if |s| > 0 && IsWhitespace(s[0]) then StripLeft(s[1..]) else s
  }

  function StripRight(s: string): (r: string)
    ensures |r| <= |s| && r == s[..|r|]
    ensures r == [] || !IsWhitespace(r[|r| - 1])
    ensures |s| > 0 && IsWhitespace(s[|s| - 1]) ==> |r| < |s|
    ensures |s| > 0 && !IsWhitespace(s[|s| - 1]) ==> r == s
  {
    if |s| > 0 && IsWhitespace(s[|s| - 1]) then StripRight(s[..|s| - 1]) else s
  }

  /** `s.strip()`: the longest infix of `s` without whitespace at either end. */
  function Strip(s: string): (r: string)
    ensures |r| <= |s|
    ensures r == [] || (!IsWhitespace(r[0]) && !IsWhitespace(r[|r| - 1]))
    ensures |s| > 0 && (IsWhitespace(s[0]) || IsWhitespace(s[|s| - 1])) ==> |r| < |s|
    ensures (forall i :: 0 <= i < |s| ==> !IsWhitespace(s[i])) ==> r == s
  {
    StripRight(StripLeft(s))
  }

  /** `r` is `s[i..j]`, and everything of `s` outside it is whitespace. */
  predicate TrimmedAt(s: string, r: string, i: int, j: int) {
    && 0 <= i <= j <= |s| && r == s[i..j]
    && (forall k :: 0 <= k < i ==> IsWhitespace(s[k]))
    && (forall k :: j <= k < |s| ==> IsWhitespace(s[k]))
  }

  /** What `strip()` keeps is the input between two runs of whitespace. */
  lemma {:induction false} StripIsInfix(s: string)
    ensures exists i, j :: TrimmedAt(s, Strip(s), i, j)
  {
    var left := StripLeft(s);
    var r := StripRight(left);
    assert |left| <= |s| && left == s[|s| - |left|..];
    assert |r| <= |left| && r == left[..|r|];
    StripLeftCutsWhitespace(s);
    StripRightCutsWhitespace(left);
    TrimmedOfParts(s, left, r);
    assert Strip(s) == r;
  }

  /** Everything `StripLeft` cuts off is whitespace. */
  lemma {:induction false} StripLeftCutsWhitespace(s: string)
    ensures forall k :: 0 <= k < |s| - |StripLeft(s)| ==> IsWhitespace(s[k])
  {
    if |s| > 0 && IsWhitespace(s[0]) {
      StripLeftCutsWhitespace(s[1..]);
      forall k | 1 <= k < |s| - |StripLeft(s)|
        ensures IsWhitespace(s[k])
      {
        assert s[k] == s[1..][k - 1];
      }
    }
  }

  /** Everything `StripRight` cuts off is whitespace. */
  lemma {:induction false} StripRightCutsWhitespace(s: string)
    ensures forall k :: |StripRight(s)| <= k < |s| ==> IsWhitespace(s[k])
  {
    if |s| > 0 && IsWhitespace(s[|s| - 1]) {
      StripRightCutsWhitespace(s[..|s| - 1]);
      forall k | |StripRight(s)| <= k < |s| - 1
        ensures IsWhitespace(s[k])
      {
        assert s[k] == s[..|s| - 1][k];
      }
    }
  }

  /** Cutting whitespace off the front of `s` and then off the back of what
      remains leaves an infix of `s` between two runs of whitespace. */
  lemma {:induction false} TrimmedOfParts(s: string, left: string, r: string)
    requires |left| <= |s| && left == s[|s| - |left|..]
    requires forall k :: 0 <= k < |s| - |left| ==> IsWhitespace(s[k])
    requires |r| <= |left| && r == left[..|r|]
    requires forall k :: |r| <= k < |left| ==> IsWhitespace(left[k])
    ensures exists i, j :: TrimmedAt(s, r, i, j)
  {
    var i := |s| - |left|;
    var j := i + |r|;
    forall k | 0 <= k < |r|
      ensures r[k] == s[i + k]
    {
      assert r[k] == left[k];
    }
    assert r == s[i..j];
    forall k | j <= k < |s|
      ensures IsWhitespace(s[k])
    {
      assert s[k] == left[k - i];
    }
    assert TrimmedAt(s, r, i, j);
  }

  /** `tag.replace("-", "_")` */
  function ReplaceDash(s: string): (r: string)
    ensures |r| == |s|
    ensures forall i :: 0 <= i < |s| ==> r[i] == (if s[i] == '-' then '_' else s[i])
    ensures '-' !in r
  {
    if s == [] then [] else [if s[0] == '-' then '_' else s[0]] + ReplaceDash(s[1..])
  }

  /** `os.path.basename(p)`: everything after the last '/'. */
  function Basename(p: string): (b: string)
    ensures '/' !in b
    ensures |b| <= |p| && b == p[|p| - |b|..]
    ensures |b| < |p| ==> p[|p| - |b| - 1] == '/'
  {
    p[RFind(p, '/', |p|) + 1..]
  }

  function DigitChar(d: nat): (c: char)
    requires d < 10
    ensures IsDigit(c)
  {
    ('0' as int + d) as char
  }

  function DigitValue(c: char): nat
    requires IsDigit(c)
  {
    c as int - '0' as int
  }

  /** `unicode(n)` for a natural number: its decimal digits. */
  function FromNat(n: nat): (s: string)
    ensures |s| >= 1 && AllDigits(s)
  {
    if n < 10 then [DigitChar(n)] else FromNat(n / 10) + [DigitChar(n % 10)]
  }

  /** `unicode(n)` for an integer. */
  function FromInt(n: int): (s: string)
    ensures |s| >= 1
  {
    if n < 0 then "-" + FromNat(-n) else FromNat(n)
  }

  /** The number a string of decimal digits denotes. */
  function DigitsValue(s: string): nat
    requires AllDigits(s)
  {
    if s == [] then 0 else 10 * DigitsValue(s[..|s| - 1]) + DigitValue(s[|s| - 1])
  }

  /** Reads back what `FromInt` writes. */
  function ParseInt(s: string): Option<int> {
    if |s| > 1 && s[0] == '-' && AllDigits(s[1..]) then Some(0 - DigitsValue(s[1..]) as int)
    else if |s| > 0 && AllDigits(s) then Some(DigitsValue(s))
    else None
  }

  lemma {:induction false} DigitsValueFromNat(n: nat)
    ensures DigitsValue(FromNat(n)) == n
  {
    if n >= 10 {
      var s := FromNat(n);
      assert s[..|s| - 1] == FromNat(n / 10);
      DigitsValueFromNat(n / 10);
    }
  }

  /** Rendering an integer and reading it back gives the integer. */
  lemma ParseIntFromInt(n: int)
    ensures ParseInt(FromInt(n)) == Some(n)
  {
    if n < 0 {
      var u := FromNat(-n);
      var s := FromInt(n);
      assert s == "-" + u;
      assert |s| > 1 && s[0] == '-' && s[1..] == u;
      DigitsValueFromNat(-n);
      assert ParseInt(s) == Some(0 - DigitsValue(u) as int);
    } else {
      var u := FromNat(n);
      assert FromInt(n) == u;
      assert IsDigit(u[0]);
      DigitsValueFromNat(n);
      assert ParseInt(u) == Some(DigitsValue(u));
    }
  }

  /** `postal_code.replace(" ", "").upper()` */
  function NormalisePostalCode(s: string): (r: string)
    ensures |r| == |s| - multiset(s)[' ']
    ensures forall i :: 0 <= i < |r| ==> r[i] != ' ' && !IsLower(r[i])
  {
    if s == [] then []
    else
      assert s == [s[0]] + s[1..];
      (if s[0] == ' ' then [] else [UpperChar(s[0])]) + NormalisePostalCode(s[1..])
  }

  /** A space is dropped wherever it stands: the code is the normalised text
      before it followed by the normalised text after it. */
  lemma {:induction false} NormaliseDropsSpace(a: string, b: string)
    ensures NormalisePostalCode(a + " " + b) == NormalisePostalCode(a) + NormalisePostalCode(b)
  {
    var front := a + " ";
    NormaliseConcat(front, b);
    NormaliseConcat(a, " ");
    var space: string := " ";
    assert space[1..] == [];
    assert NormalisePostalCode(space) == [];
    assert NormalisePostalCode(front) == NormalisePostalCode(a);
  }

  /** Normalising distributes over concatenation: a space is dropped and a
      letter raised wherever it stands. */
  lemma {:induction false} NormaliseConcat(a: string, b: string)
    ensures NormalisePostalCode(a + b) == NormalisePostalCode(a) + NormalisePostalCode(b)
  {
    if a != [] {
      var head := if a[0] == ' ' then [] else [UpperChar(a[0])];
      assert (a + b)[0] == a[0] && (a + b)[1..] == a[1..] + b;
      calc {
        NormalisePostalCode(a + b);
        head + NormalisePostalCode(a[1..] + b);
        { NormaliseConcat(a[1..], b); }
        head + (NormalisePostalCode(a[1..]) + NormalisePostalCode(b));
        (head + NormalisePostalCode(a[1..])) + NormalisePostalCode(b);
      }
    } else {
      assert a + b == b;
    }
  }

  /** A code without spaces or lower-case letters is left as it is. */
  lemma {:induction false} NormaliseFixesNormalised(s: string)
    requires forall i :: 0 <= i < |s| ==> s[i] != ' ' && !IsLower(s[i])
    ensures NormalisePostalCode(s) == s
  {
    if s != [] {
      NormaliseFixesNormalised(s[1..]);
    }
  }

  /** Normalising is idempotent. */
  lemma NormaliseIdempotent(s: string)
    ensures NormalisePostalCode(NormalisePostalCode(s)) == NormalisePostalCode(s)
  {
    NormaliseFixesNormalised(NormalisePostalCode(s));
  }

  /** A code without spaces keeps its length; each character is upper-cased in place. */
  lemma {:induction false} NormaliseWithoutSpaces(s: string)
    requires ' ' !in s
    ensures |NormalisePostalCode(s)| == |s|
    ensures forall i :: 0 <= i < |s| ==> NormalisePostalCode(s)[i] == UpperChar(s[i])
  {
    if s != [] {
      assert ' ' !in s[1..] by {
        forall i | 0 <= i < |s[1..]| ensures s[1..][i] != ' ' {
          assert s[1..][i] == s[i + 1];
        }
      }
      NormaliseWithoutSpaces(s[1..]);
    }
  }
}
