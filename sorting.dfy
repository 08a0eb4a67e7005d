/** Descending order on sequences of counts: a reference sort, the fact that
    a descending permutation is unique, and the in-place sort of an array
    (`std::sort` over reverse iterators). */
module Sorting {

  predicate Descending(s: seq<nat>) {
    forall p, q :: 0 <= p < q < |s| ==> s[p] >= s[q]
  }

  /** Puts `x` in front of the first element not larger than it. */
  function Insert(x: nat, s: seq<nat>): (r: seq<nat>)
    ensures |r| == |s| + 1
  {
    if s == [] || x >= s[0] then [x] + s else [s[0]] + Insert(x, s[1..])
  }

  /** The reference descending sort (insertion sort). */
  function SortDesc(s: seq<nat>): (r: seq<nat>)
    ensures |r| == |s|
  {
    if s == [] then [] else Insert(s[0], SortDesc(s[1..]))
  }

  lemma {:induction false} InsertPermutes(x: nat, s: seq<nat>)
    ensures multiset(Insert(x, s)) == multiset(s) + multiset{x}
  {
    if s != [] && x < s[0] {
      InsertPermutes(x, s[1..]);
      assert s == [s[0]] + s[1..];
    }
  }

  lemma {:induction false} InsertKeepsDescending(x: nat, s: seq<nat>)
    requires Descending(s)
    ensures Descending(Insert(x, s))
  {
    if s != [] && x < s[0] {
      var t := Insert(x, s[1..]);
      InsertKeepsDescending(x, s[1..]);
      InsertPermutes(x, s[1..]);
      forall q | 0 <= q < |t| ensures s[0] >= t[q] {
        assert t[q] in multiset(t);
        if t[q] != x {
          assert t[q] in multiset(s[1..]);
          var k :| 0 <= k < |s[1..]| && s[1..][k] == t[q];
          assert s[k + 1] == t[q];
        }
      }
    }
  }

  /** The reference sort returns a descending permutation of its input. */
  lemma {:induction false} SortDescCorrect(s: seq<nat>)
    ensures Descending(SortDesc(s))
    ensures multiset(SortDesc(s)) == multiset(s)
  {
    if s != [] {
      SortDescCorrect(s[1..]);
      InsertKeepsDescending(s[0], SortDesc(s[1..]));
      InsertPermutes(s[0], SortDesc(s[1..]));
      assert s == [s[0]] + s[1..];
    }
  }

  lemma HeadIsMaximum(s: seq<nat>, y: nat)
    requires Descending(s) && y in multiset(s)
    ensures s[0] >= y
  {
    var k :| 0 <= k < |s| && s[k] == y;
  }

  /** In a descending sequence, a maximum that occurs once sits at position
      0 and nowhere else. */
  lemma UniqueMaximumFirst(s: seq<nat>, v: nat)
    requires Descending(s) && multiset(s)[v] == 1
    requires forall x :: x in s ==> x <= v
    ensures s[0] == v
    ensures forall k :: 1 <= k < |s| ==> s[k] != v
  {
    assert v in multiset(s);
    HeadIsMaximum(s, v);
    assert s[0] in s;
    assert s[0] == v;
    assert s == [s[0]] + s[1..];
    assert multiset(s) == multiset{s[0]} + multiset(s[1..]);
    assert multiset(s[1..])[v] == 0;
    forall k | 1 <= k < |s| ensures s[k] != v {
      assert s[k] == s[1..][k - 1];
      assert s[1..][k - 1] in multiset(s[1..]);
    }
  }

  /** Two descending sequences with the same elements are equal, so every
      descending sort of a sequence, however it orders equal values, yields
      `SortDesc` of it. */
  lemma {:induction false} DescendingPermutationUnique(a: seq<nat>, b: seq<nat>)
    requires Descending(a) && Descending(b) && multiset(a) == multiset(b)
    ensures a == b
    decreases |a|
  {
    assert |a| == |multiset(a)| == |multiset(b)| == |b|;
    if a != [] {
      assert a[0] in multiset(b);
      assert b[0] in multiset(a);
      HeadIsMaximum(a, b[0]);
      HeadIsMaximum(b, a[0]);
      assert a[0] == b[0];
      assert a == [a[0]] + a[1..] && b == [b[0]] + b[1..];
      assert multiset(a) == multiset{a[0]} + multiset(a[1..]);
      assert multiset(b) == multiset{b[0]} + multiset(b[1..]);
      assert multiset(a[1..]) == multiset(a) - multiset{a[0]} == multiset(b) - multiset{b[0]} == multiset(b[1..]);
      DescendingPermutationUnique(a[1..], b[1..]);
    }
  }

  /** `s` with its elements at `j - 1` and `j` exchanged. */
  function SwapBelow(s: seq<nat>, j: nat): (r: seq<nat>)
    requires 0 < j < |s|
    ensures |r| == |s| && r[j - 1] == s[j] && r[j] == s[j - 1]
    ensures forall k :: 0 <= k < |s| && k != j - 1 && k != j ==> r[k] == s[k]
  {
    s[j - 1 := s[j]][j := s[j - 1]]
  }

  /** While `a[i]` moves left it sits at `j`: leaving it out, the first
      `i + 1` elements are descending, and it is larger than every element
      it has passed. */
  ghost predicate Sifting(s: seq<nat>, i: nat, j: nat) {
    j <= i < |s|
    && (forall p, q :: 0 <= p < q <= i && p != j && q != j ==> s[p] >= s[q])
    && (forall q :: j < q <= i ==> s[j] > s[q])
  }

  lemma SiftingStep(s: seq<nat>, i: nat, j: nat)
    requires Sifting(s, i, j) && 0 < j && s[j - 1] < s[j]
    ensures Sifting(SwapBelow(s, j), i, j - 1)
  {
  }

  lemma SiftingDone(s: seq<nat>, i: nat, j: nat)
    requires Sifting(s, i, j) && (j == 0 || s[j - 1] >= s[j])
    ensures Descending(s[..i + 1])
  {
  }

  /** Swapping below `n` keeps the elements below `n` and those from `n` on. */
  lemma SwapBelowKeeps(s: seq<nat>, j: nat, n: nat)
    requires 0 < j < n <= |s|
    ensures multiset(SwapBelow(s, j)[..n]) == multiset(s[..n])
    ensures SwapBelow(s, j)[n..] == s[n..]
  {
    assert SwapBelow(s, j)[..n] == SwapBelow(s[..n], j);
  }

  /** Two sequences that agree from position `n` on and hold the same
      elements before it hold the same elements. */
  lemma SamePrefixElements(s: seq<nat>, t: seq<nat>, n: nat)
    requires n <= |s| == |t|
    requires multiset(s[..n]) == multiset(t[..n]) && s[n..] == t[n..]
    ensures multiset(s) == multiset(t)
  {
    assert s == s[..n] + s[n..];
    assert t == t[..n] + t[n..];
  }

  /** Moves `a[i]` left past every smaller element, so that the first
      `i + 1` elements are in descending order. */
  method SiftLeft(a: array<nat>, i: nat)
    requires i < a.Length && Descending(a[..i])
    modifies a
    ensures Descending(a[..i + 1])
    ensures multiset(a[..i + 1]) == multiset(old(a[..i + 1]))
    ensures a[i + 1..] == old(a[i + 1..])
    ensures multiset(a[..]) == multiset(old(a[..]))
  {
    var j: nat := i;
    while j > 0 && a[j - 1] < a[j]
      invariant Sifting(a[..], i, j)
      invariant multiset(a[..i + 1]) == multiset(old(a[..i + 1]))
      invariant a[i + 1..] == old(a[i + 1..])
    {
      ghost var before := a[..];
      SiftingStep(before, i, j);
      SwapBelowKeeps(before, j, i + 1);
      a[j - 1], a[j] := a[j], a[j - 1];
      assert a[..] == SwapBelow(before, j);
      j := j - 1;
    }
    SiftingDone(a[..], i, j);
    SamePrefixElements(a[..], old(a[..]), i + 1);
  }

  /** Sorts `a` in place into descending order. */
  method SortDescending(a: array<nat>)
    modifies a
    ensures a[..] == SortDesc(old(a[..]))
  {
    var i := 0;
    while i < a.Length
      invariant i <= a.Length
      invariant Descending(a[..i])
      invariant multiset(a[..]) == multiset(old(a[..]))
    {
      SiftLeft(a, i);
      i := i + 1;
    }
    assert a[..a.Length] == a[..];
    SortDescCorrect(old(a[..]));
    DescendingPermutationUnique(a[..], SortDesc(old(a[..])));
  }
}
