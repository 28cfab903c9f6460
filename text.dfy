/**
 * The few Python string operations the dashboard relies on, with Python's
 * semantics: `c * n`, `str.ljust`, `str.rjust`, `str.center` (as CPython
 * computes it) and `str(int)`. Strings are sequences of code points.
 */
module Text {

  function Max(a: int, b: int): int
  {
    if a < b then b else a
  }

  /** `c * n`: n copies of c, and the empty string when n is not positive. */
  function Repeat(c: char, n: int): (r: string)
    ensures |r| == Max(n, 0)
  {
    if n <= 0 then "" else Repeat(c, n - 1) + [c]
  }

  /** Every character of `c * n` is c. */
  lemma {:induction false} RepeatAll(c: char, n: int)
    ensures forall i :: 0 <= i < Max(n, 0) ==> Repeat(c, n)[i] == c
  {
    if n > 0 { RepeatAll(c, n - 1); }
  }

  /** `s.ljust(w)`: s, then spaces up to width w; never shortens s (see LJustShape). */
  function LJust(s: string, w: int): (r: string)
    ensures |r| == Max(w, |s|)
  {
    s + Repeat(' ', w - |s|)
  }

  /** `s.rjust(w)`: spaces up to width w, then s; never shortens s (see RJustShape). */
  function RJust(s: string, w: int): (r: string)
    ensures |r| == Max(w, |s|)
  {
    Repeat(' ', w - |s|) + s
  }

  /** The whole of s comes first, and only spaces follow it. */
  lemma LJustShape(s: string, w: int)
    ensures forall i :: 0 <= i < |s| ==> LJust(s, w)[i] == s[i]
    ensures forall i :: |s| <= i < Max(w, |s|) ==> LJust(s, w)[i] == ' '
  {
    RepeatAll(' ', w - |s|);
  }

  /** Only spaces come first, and the whole of s ends the result. */
  lemma RJustShape(s: string, w: int)
    ensures forall i :: 0 <= i < |s| ==> RJust(s, w)[Max(w, |s|) - |s| + i] == s[i]
    ensures forall i :: 0 <= i < Max(w, |s|) - |s| ==> RJust(s, w)[i] == ' '
  {
    RepeatAll(' ', w - |s|);
  }

  /**
   * The number of spaces CPython's `str.center` puts on the left of a string
   * of length n centred in width w: half the margin, rounded up only when both
   * the margin and the width are odd (`marg / 2 + (marg & width & 1)`).
   */
  function CenterLeft(n: nat, w: int): (left: nat)
    ensures left <= Max(w - n, 0)
    ensures -1 <= left - (Max(w - n, 0) - left) <= 1
  {
    if w <= n then 0
    else
      var marg := w - n;
      marg / 2 + (if marg % 2 == 1 && w % 2 == 1 then 1 else 0)
  }

  /** `s.center(w)`: s between left and right padding that differ by at most one (see CenterShape). */
  function Center(s: string, w: int): (r: string)
    ensures |r| == Max(w, |s|)
  {
    var left := CenterLeft(|s|, w);
    Repeat(' ', left) + s + Repeat(' ', Max(w - |s|, 0) - left)
  }

  /** Centring puts CenterLeft spaces before the whole of s and only spaces after it. */
  lemma CenterShape(s: string, w: int)
    ensures var r, left := Center(s, w), CenterLeft(|s|, w);
      && (forall i :: 0 <= i < |s| ==> r[left + i] == s[i])
      && (forall i :: 0 <= i < left ==> r[i] == ' ')
      && (forall i :: left + |s| <= i < |r| ==> r[i] == ' ')
  {
    var left := CenterLeft(|s|, w);
    RepeatAll(' ', left);
    RepeatAll(' ', Max(w - |s|, 0) - left);
  }

  predicate IsDigit(c: char)
  {
    '0' <= c <= '9'
  }

  function DigitChar(d: nat): (c: char)
    requires d < 10
    ensures IsDigit(c) && c as int - '0' as int == d
  {
    "0123456789"[d]
  }

  /** Decimal digits of n, without leading zeros ("0" for zero). */
  function NatToString(n: nat): (r: string)
    ensures 1 <= |r|
    ensures forall i :: 0 <= i < |r| ==> IsDigit(r[i])
    ensures 1 < |r| ==> r[0] != '0'
    ensures |r| == 1 <==> n < 10
    decreases n
  {
    if n < 10 then [DigitChar(n)] else NatToString(n / 10) + [DigitChar(n % 10)]
  }

  /** `str(n)`: a minus sign exactly for a negative n, then only digits. */
  function IntToString(n: int): (r: string)
    ensures 1 <= |r|
    ensures r[0] == '-' <==> n < 0
    ensures forall i :: (if n < 0 then 1 else 0) <= i < |r| ==> IsDigit(r[i])
    ensures var digits := if n < 0 then r[1..] else r; 1 < |digits| ==> digits[0] != '0'
  {
    if n < 0 then
      var r := "-" + NatToString(-n);
      assert r[1..] == NatToString(-n);
      r
    else NatToString(n)
  }

  function DigitValue(c: char): (d: nat)
    requires IsDigit(c)
    ensures d < 10
  {
    c as int - '0' as int
  }

  /** The value of a string of decimal digits; the reference `int(s)` reads back. */
  function ParseNat(s: string): nat
    requires forall i :: 0 <= i < |s| ==> IsDigit(s[i])
  {
    if s == [] then 0
    else ParseNat(s[..|s| - 1]) * 10 + DigitValue(s[|s| - 1])
  }

  function ParseInt(s: string): int
    requires s != [] && (s[0] == '-' || IsDigit(s[0]))
    requires forall i :: 1 <= i < |s| ==> IsDigit(s[i])
  {
    if s[0] == '-' then -(ParseNat(s[1..]) as int) else ParseNat(s)
  }

  lemma {:induction false} ParseNatToString(n: nat)
    ensures ParseNat(NatToString(n)) == n
    decreases n
  {
    if n >= 10 {
      var r := NatToString(n);
      assert r[..|r| - 1] == NatToString(n / 10);
      ParseNatToString(n / 10);
    }
  }

  /** `int(str(n)) == n`: the rendering of a count loses nothing. */
  lemma IntToStringRoundTrip(n: int)
    ensures ParseInt(IntToString(n)) == n
  {
    if n < 0 {
      var digits := NatToString(-n);
      assert IntToString(n) == "-" + digits;
      assert ("-" + digits)[1..] == digits;
      ParseNatToString(-n);
    } else {
      ParseNatToString(n);
    }
  }

}
