/**
 * Python's ordering of `str` values (code point by code point, a proper
 * prefix first) and the in-place sort `Stats.__init__` applies to the list
 * of coins it is given.
 */
module Ordering {

  /** `a <= b` for Python strings. */
  predicate Le(a: string, b: string)
    ensures a <= b ==> Le(a, b)
    ensures Le(a, b) && a != [] && b != [] ==> a[0] <= b[0]
  {
    if a == [] then true
    else if b == [] then false
    else if a[0] != b[0] then a[0] < b[0]
    else Le(a[1..], b[1..])
  }

  lemma {:induction false} LeTotal(a: string, b: string)
    ensures Le(a, b) || Le(b, a)
  {
    if a != [] && b != [] && a[0] == b[0] {
      LeTotal(a[1..], b[1..]);
    }
  }

  /**
   * The case that orders two coin names: after a common prefix of length k,
   * the string with the smaller code point at position k comes first.
   */
  lemma {:induction false} LexIsLe(a: string, b: string, k: nat)
    requires k < |a| && k < |b| && a[..k] == b[..k] && a[k] < b[k]
    ensures Le(a, b)
    decreases k
  {
    if k > 0 {
      assert a[0] == a[..k][0] == b[..k][0] == b[0];
      assert a[1..][..k - 1] == a[..k][1..];
      assert b[1..][..k - 1] == b[..k][1..];
      LexIsLe(a[1..], b[1..], k - 1);
    }
  }

  lemma {:induction false} LeTransitive(a: string, b: string, c: string)
    requires Le(a, b) && Le(b, c)
    ensures Le(a, c)
  {
    if a != [] && b != [] && c != [] && a[0] == b[0] == c[0] {
      LeTransitive(a[1..], b[1..], c[1..]);
    }
  }

  lemma {:induction false} LeAntisymmetric(a: string, b: string)
    requires Le(a, b) && Le(b, a)
    ensures a == b
  {
    if a != [] && b != [] {
      LeAntisymmetric(a[1..], b[1..]);
      assert a == [a[0]] + a[1..] && b == [b[0]] + b[1..];
    }
  }

  /** Ascending order, as `list.sort()` leaves a list of strings. */
  ghost predicate Sorted(s: seq<string>)
  {
    forall p, q :: 0 <= p < q < |s| ==> Le(s[p], s[q])
  }

  /** The first element of a sorted list is no larger than any element of it. */
  lemma HeadIsLeast(s: seq<string>, x: string)
    requires Sorted(s) && x in s
    ensures Le(s[0], x)
  {
    var i :| 0 <= i < |s| && s[i] == x;
    if i == 0 { LeTotal(x, x); }
  }

  lemma SortedTail(s: seq<string>)
    requires Sorted(s) && s != []
    ensures Sorted(s[1..])
  {
  }

  lemma TailMultiset(s: seq<string>)
    requires s != []
    ensures multiset(s[1..]) == multiset(s) - multiset{s[0]}
  {
    assert s == [s[0]] + s[1..];
  }

  /** Any two sorted arrangements of the same coins are the same list. */
  lemma {:induction false} SortedUnique(s: seq<string>, t: seq<string>)
    requires Sorted(s) && Sorted(t) && multiset(s) == multiset(t)
    ensures s == t
    decreases |s|
  {
    assert |s| == |multiset(s)| == |multiset(t)| == |t|;
    if s != [] {
      assert s[0] in multiset(t) && t[0] in multiset(s);
      HeadIsLeast(t, s[0]);
      HeadIsLeast(s, t[0]);
      LeAntisymmetric(s[0], t[0]);
      TailMultiset(s);
      TailMultiset(t);
      SortedTail(s);
      SortedTail(t);
      SortedUnique(s[1..], t[1..]);
    }
  }

  /** Insertion sort by adjacent swaps: `self.coins.sort()` on the caller's list. */
  method Sort(a: array<string>)
    modifies a
    ensures Sorted(a[..])
    ensures multiset(a[..]) == old(multiset(a[..]))
  {
    var i := 0;
    while i < a.Length
      invariant 0 <= i <= a.Length
      invariant Sorted(a[..i])
      invariant multiset(a[..]) == old(multiset(a[..]))
    {
      Insert(a, i);
      i := i + 1;
    }
    assert a[..a.Length] == a[..];
  }

  /**
   * The state of one insertion: a[..i + 1] is in order except that the
   * element being inserted, at j, may still be smaller than its left
   * neighbours (it is no larger than everything to its right).
   */
  ghost predicate SortedExcept(s: seq<string>, i: nat, j: nat)
    requires j <= i < |s|
  {
    forall p, q :: 0 <= p < q <= i && q != j ==> Le(s[p], s[q])
  }

  function Swapped(s: seq<string>, j: nat): (r: seq<string>)
    requires 0 < j < |s|
    ensures |r| == |s| && multiset(r) == multiset(s)
  {
    assert s == s[..j - 1] + [s[j - 1], s[j]] + s[j + 1..];
    s[..j - 1] + [s[j], s[j - 1]] + s[j + 1..]
  }

  lemma SwapStep(s: seq<string>, i: nat, j: nat)
    requires 0 < j <= i < |s|
    requires SortedExcept(s, i, j) && !Le(s[j - 1], s[j])
    ensures SortedExcept(Swapped(s, j), i, j - 1)
  {
    LeTotal(s[j - 1], s[j]);
    var r := Swapped(s, j);
    forall p, q | 0 <= p < q <= i && q != j - 1
      ensures Le(r[p], r[q])
    {
      var p' := if p == j - 1 then j else if p == j then j - 1 else p;
      var q' := if q == j then j - 1 else q;
      assert r[p] == s[p'] && r[q] == s[q'];
    }
  }

  lemma InsertDone(s: seq<string>, i: nat, j: nat)
    requires j <= i < |s|
    requires SortedExcept(s, i, j) && (j == 0 || Le(s[j - 1], s[j]))
    ensures Sorted(s[..i + 1])
  {
    forall p, q | 0 <= p < q <= i
      ensures Le(s[p], s[q])
    {
      if q == j && p < j - 1 {
        LeTransitive(s[p], s[j - 1], s[j]);
      }
    }
  }

  /** Moves a[i] down into the sorted prefix a[..i], making a[..i + 1] sorted. */
  method Insert(a: array<string>, i: nat)
    requires i < a.Length
    requires Sorted(a[..i])
    modifies a
    ensures Sorted(a[..i + 1])
    ensures multiset(a[..]) == old(multiset(a[..]))
  {
    var j := i;
    assert SortedExcept(a[..], i, j) by {
      assert forall p :: 0 <= p < i ==> a[..i][p] == a[p];
    }
    while 0 < j && !Le(a[j - 1], a[j])
      invariant 0 <= j <= i
      invariant multiset(a[..]) == old(multiset(a[..]))
      invariant SortedExcept(a[..], i, j)
    {
      ghost var s := a[..];
      SwapStep(s, i, j);
      a[j - 1], a[j] := a[j], a[j - 1];
      assert a[..] == Swapped(s, j);
      j := j - 1;
    }
    InsertDone(a[..], i, j);
  }
}
