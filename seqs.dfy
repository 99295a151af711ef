/**
 * The array primitives the observer list and the route parser use:
 * `indexOf` (first index of an element, or -1) and `splice(i, 1)`
 * (delete the element at index i), together with the no-duplicates
 * property and a reference definition of "every element except x".
 */
module Seqs {

  /** JavaScript `indexOf` on an array or a string: the first index holding x, or -1. */
  function IndexOf<T(==)>(s: seq<T>, x: T): (r: int)
    ensures r == -1 <==> x !in s
    ensures r != -1 ==> 0 <= r < |s| && s[r] == x && x !in s[..r]
  {
    if |s| == 0 then -1
    else if s[0] == x then 0
    else
      var k := IndexOf(s[1..], x);
      if k == -1 then -1
      else
        assert s[..k + 1] == [s[0]] + s[1..][..k];
        k + 1
  }

  /** JavaScript `splice(i, 1)`: the sequence with the element at index i deleted. */
  function RemoveAt<T>(s: seq<T>, i: nat): (r: seq<T>)
    requires i < |s|
    ensures |r| == |s| - 1
    ensures multiset(r) + multiset{s[i]} == multiset(s)
    ensures forall j :: 0 <= j < i ==> r[j] == s[j]
    ensures forall j :: i <= j < |r| ==> r[j] == s[j + 1]
  {
    assert s == s[..i] + [s[i]] + s[i + 1..];
    s[..i] + s[i + 1..]
  }

  /** No element occurs twice. */
  ghost predicate NoDuplicates<T>(s: seq<T>) {
    forall i, j :: 0 <= i < j < |s| ==> s[i] != s[j]
  }

  /** Reference definition: s with every occurrence of x dropped, the others in their order. */
  function Without<T(==)>(s: seq<T>, x: T): seq<T> {
    if |s| == 0 then []
    else if s[0] == x then Without(s[1..], x)
    else [s[0]] + Without(s[1..], x)
  }

  /** Dropping an absent element changes nothing. */
  lemma {:induction false} WithoutAbsent<T>(s: seq<T>, x: T)
    requires x !in s
    ensures Without(s, x) == s
  {
    if |s| > 0 {
      assert x !in s[1..];
      WithoutAbsent(s[1..], x);
    }
  }

  /**
   * In a list without duplicates, deleting the element at the first index of x
   * is the same as dropping every x: exactly one element goes and the others
   * keep their relative order.
   */
  lemma {:induction false} RemoveFirstIsWithout<T>(s: seq<T>, x: T)
    requires NoDuplicates(s) && x in s
    ensures RemoveAt(s, IndexOf(s, x)) == Without(s, x)
  {
    var i := IndexOf(s, x);
    if s[0] == x {
      assert x !in s[1..];
      WithoutAbsent(s[1..], x);
      assert RemoveAt(s, 0) == s[1..];
    } else {
      var t := s[1..];
      assert x in t;
      assert NoDuplicates(t);
      RemoveFirstIsWithout(t, x);
      assert IndexOf(t, x) == i - 1;
      assert RemoveAt(s, i) == [s[0]] + RemoveAt(t, i - 1);
    }
  }

  /** Deleting one element keeps a list free of duplicates, and the deleted x is gone. */
  lemma RemoveFirstKeepsNoDuplicates<T>(s: seq<T>, x: T)
    requires NoDuplicates(s) && x in s
    ensures NoDuplicates(RemoveAt(s, IndexOf(s, x)))
    ensures x !in RemoveAt(s, IndexOf(s, x))
  {
    var i := IndexOf(s, x);
    var r := RemoveAt(s, i);
    forall a, b | 0 <= a < b < |r|
      ensures r[a] != r[b]
    {
      var a' := if a < i then a else a + 1;
      var b' := if b < i then b else b + 1;
      assert r[a] == s[a'] && r[b] == s[b'] && a' < b';
    }
    forall k | 0 <= k < |r|
      ensures r[k] != x
    {
      var k' := if k < i then k else k + 1;
      assert r[k] == s[k'] && k' != i;
    }
  }

  /** Appending an absent element keeps a list free of duplicates. */
  lemma AppendKeepsNoDuplicates<T>(s: seq<T>, x: T)
    requires NoDuplicates(s) && x !in s
    ensures NoDuplicates(s + [x])
  {
    var t := s + [x];
    forall a, b | 0 <= a < b < |t|
      ensures t[a] != t[b]
    {
      if b == |s| {
        assert t[a] == s[a];
      }
    }
  }

  /** Deleting a just-appended absent element gives the list back: remove undoes add. */
  lemma RemoveUndoesAppend<T>(s: seq<T>, x: T)
    requires x !in s
    ensures IndexOf(s + [x], x) == |s|
    ensures RemoveAt(s + [x], |s|) == s
  {
    var t := s + [x];
    assert t[..|s|] == s;
    assert t[|s|] == x;
  }
}
