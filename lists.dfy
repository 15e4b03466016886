/** Option: the outcome of an operation that the source can abandon by throwing. */
module Wrappers {
  datatype Option<+T> = None | Some(value: T)
}

/**
 * The few List<int> operations the evaluator relies on (Sort, Reverse, Select over a
 * list), written as functions over sequences, with the facts about them that the rest
 * of the model needs: sorting is a permutation into the unique sorted order, reversing
 * mirrors indices, and summing and mapping do not depend on the order of the elements.
 */
module Lists {

  /** Non-decreasing order, as List<int>.Sort leaves a list. */
  predicate Sorted(s: seq<int>)
  {
    forall i, j :: 0 <= i < j < |s| ==> s[i] <= s[j]
  }

  /** Strictly increasing. */
  predicate Ascending(s: seq<int>)
  {
    forall i, j :: 0 <= i < j < |s| ==> s[i] < s[j]
  }

  /** Strictly decreasing. */
  predicate Descending(s: seq<int>)
  {
    forall i, j :: 0 <= i < j < |s| ==> s[i] > s[j]
  }

  /** x placed into a sorted list before the first element not smaller than it. */
  function Insert(x: int, s: seq<int>): (r: seq<int>)
    requires Sorted(s)
    ensures Sorted(r)
    ensures |r| == |s| + 1
    ensures r[0] == x || (s != [] && r[0] == s[0])
  {
    if s == [] || x <= s[0] then [x] + s
    else
      var rest := Insert(x, s[1..]);
      assert forall k :: 0 <= k < |rest| ==> s[0] <= rest[k] by {
        assert s[0] <= rest[0];
      }
      [s[0]] + rest
  }

  lemma {:induction false} InsertMultiset(x: int, s: seq<int>)
    requires Sorted(s)
    ensures multiset(Insert(x, s)) == multiset(s) + multiset{x}
  {
    if s != [] && x > s[0] {
      InsertMultiset(x, s[1..]);
      assert s == [s[0]] + s[1..];
    }
  }

  /** Insertion sort: every list has a non-decreasing permutation. */
  function InsertionSort(s: seq<int>): (r: seq<int>)
    ensures Sorted(r)
    ensures multiset(r) == multiset(s)
  {
    if s == [] then []
    else
      assert s == [s[0]] + s[1..];
      InsertMultiset(s[0], InsertionSort(s[1..]));
      Insert(s[0], InsertionSort(s[1..]))
  }

  /** Every list has a non-decreasing permutation. */
  lemma SortExists(s: seq<int>)
    ensures exists r :: Sorted(r) && multiset(r) == multiset(s)
  {
    var r := InsertionSort(s);
    assert Sorted(r) && multiset(r) == multiset(s);
  }

  /**
   * List<int>.Sort: the non-decreasing permutation of the input. There is exactly one
   * (SortedUnique), so the result does not depend on how it is computed.
   */
  function Sort(s: seq<int>): (r: seq<int>)
    ensures Sorted(r)
    ensures multiset(r) == multiset(s)
  {
    SortExists(s);
    assert forall a, b :: Sorted(a) && Sorted(b) && multiset(a) == multiset(s) && multiset(b) == multiset(s) ==> a == b by {
      forall a, b | Sorted(a) && Sorted(b) && multiset(a) == multiset(s) && multiset(b) == multiset(s)
        ensures a == b
      {
        SortedUnique(a, b);
      }
    }
    var r :| Sorted(r) && multiset(r) == multiset(s);
    r
  }

  /** List<T>.Reverse. */
  function Reverse<T>(s: seq<T>): (r: seq<T>)
    ensures |r| == |s|
    ensures forall i :: 0 <= i < |s| ==> r[i] == s[|s| - 1 - i]
  {
    seq(|s|, i requires 0 <= i < |s| => s[|s| - 1 - i])
  }

  /** List<int>.Remove: drops the first occurrence of x, if any. */
  function RemoveFirst(s: seq<int>, x: int): (r: seq<int>)
    ensures multiset(r) == multiset(s) - multiset{x}
  {
    if s == [] then []
    else if s[0] == x then
      assert s == [s[0]] + s[1..];
      s[1..]
    else
      assert s == [s[0]] + s[1..];
      [s[0]] + RemoveFirst(s[1..], x)
  }

  function Sum(s: seq<int>): int
  {
    if s == [] then 0 else s[0] + Sum(s[1..])
  }

  /** The sequence of f applied to each element of s, in order. */
  function Map<A, B>(f: A -> B, s: seq<A>): (r: seq<B>)
  {
    seq(|s|, i requires 0 <= i < |s| => f(s[i]))
  }

  lemma {:induction false} ReverseMultiset<T>(s: seq<T>)
    ensures multiset(Reverse(s)) == multiset(s)
  {
    if s != [] {
      ReverseMultiset(s[1..]);
      assert s == [s[0]] + s[1..];
      assert Reverse(s) == Reverse(s[1..]) + [s[0]];
    }
  }

  lemma ReverseReverse<T>(s: seq<T>)
    ensures Reverse(Reverse(s)) == s
  {
  }

  lemma HasElement(b: multiset<int>)
    requires b != multiset{}
    ensures exists x :: x in b
  {
    assert (forall x :: x !in b) ==> b == multiset{};
  }

  /** Two sorted sequences with the same elements are the same sequence. */
  lemma {:induction false} SortedUnique(a: seq<int>, b: seq<int>)
    requires Sorted(a) && Sorted(b)
    requires multiset(a) == multiset(b)
    ensures a == b
  {
    if a != [] {
      assert |b| == |multiset(b)| == |multiset(a)| == |a|;
      assert a[0] in multiset(b);
      assert b[0] in multiset(a);
      var i :| 0 <= i < |b| && b[i] == a[0];
      var j :| 0 <= j < |a| && a[j] == b[0];
      assert b[0] <= b[i] && a[0] <= a[j];
      DropFirst(a, b);
      SortedUnique(a[1..], b[1..]);
    }
  }

  /** Removing the same first element from two permutations of each other leaves permutations. */
  lemma DropFirst(a: seq<int>, b: seq<int>)
    requires a != [] && b != [] && a[0] == b[0]
    requires multiset(a) == multiset(b)
    ensures multiset(a[1..]) == multiset(b[1..])
  {
    assert a == [a[0]] + a[1..];
    assert b == [b[0]] + b[1..];
    assert forall y :: multiset(a[1..])[y] == multiset(a)[y] - multiset{a[0]}[y];
    assert forall y :: multiset(b[1..])[y] == multiset(b)[y] - multiset{b[0]}[y];
  }

  /** Sorting an already sorted sequence changes nothing. */
  lemma SortSorted(s: seq<int>)
    requires Sorted(s)
    ensures Sort(s) == s
  {
    SortedUnique(Sort(s), s);
  }

  /** A strictly decreasing list sorts into its own reverse, so Reverse(Sort(s)) gives it back. */
  lemma SortDescending(s: seq<int>)
    requires Descending(s)
    ensures Reverse(Sort(s)) == s
  {
    ReverseMultiset(s);
    SortedUnique(Sort(s), Reverse(s));
    ReverseReverse(s);
  }

  /** Sorting and then reversing gives a non-increasing permutation. */
  lemma ReverseSort(s: seq<int>)
    ensures var r := Reverse(Sort(s));
      && |r| == |s| && multiset(r) == multiset(s)
      && forall i, j :: 0 <= i < j < |r| ==> r[i] >= r[j]
  {
    ReverseMultiset(Sort(s));
    assert |Sort(s)| == |multiset(Sort(s))| == |s|;
  }

  /** Appending an element smaller than all others keeps a list strictly decreasing. */
  lemma DescendingSnoc(s: seq<int>, x: int)
    requires Descending(s)
    requires forall y :: y in s ==> y > x
    ensures Descending(s + [x])
  {
    forall i, j | 0 <= i < j < |s + [x]|
      ensures (s + [x])[i] > (s + [x])[j]
    {
      assert (s + [x])[i] == s[i] && s[i] in s;
    }
  }

  /** A sorted sequence without repeated elements is strictly increasing. */
  lemma AscendingIfNoRepeats(s: seq<int>)
    requires Sorted(s)
    requires forall x :: multiset(s)[x] <= 1
    ensures Ascending(s)
  {
    forall i, j | 0 <= i < j < |s|
      ensures s[i] < s[j]
    {
      assert s == s[..i] + [s[i]] + s[i + 1..j] + [s[j]] + s[j + 1..];
      assert multiset(s)[s[i]] >= 1 + (if s[i] == s[j] then 1 else 0);
    }
  }

  lemma {:induction false} SumAppend(a: seq<int>, b: seq<int>)
    ensures Sum(a + b) == Sum(a) + Sum(b)
  {
    if a != [] {
      assert (a + b)[0] == a[0];
      assert (a + b)[1..] == a[1..] + b;
      SumAppend(a[1..], b);
    } else {
      assert a + b == b;
    }
  }

  /**
   * For two permutations of each other: the first element of a occurs in b at some index,
   * and taking it out of both leaves permutations of each other.
   */
  lemma PermutationTail<T>(a: seq<T>, b: seq<T>) returns (i: nat)
    requires a != [] && multiset(a) == multiset(b)
    ensures i < |b| && b[i] == a[0]
    ensures multiset(a[1..]) == multiset(b[..i] + b[i + 1..])
  {
    assert a[0] in multiset(b);
    i :| 0 <= i < |b| && b[i] == a[0];
    assert b == b[..i] + [b[i]] + b[i + 1..];
    assert a == [a[0]] + a[1..];
    assert multiset(b[..i] + b[i + 1..]) == multiset(b) - multiset{b[i]};
  }

  /** The sum is the element at index i plus the sum of the others. */
  lemma SumRemoveAt(b: seq<int>, i: nat)
    requires i < |b|
    ensures Sum(b) == b[i] + Sum(b[..i] + b[i + 1..])
  {
    var x, front, back := b[i], b[..i], b[i + 1..];
    assert b == front + ([x] + back);
    assert Sum([x]) == x by {
      assert [x][1..] == [];
    }
    SumAppend(front, [x] + back);
    SumAppend([x], back);
    SumAppend(front, back);
  }

  /** Sum does not depend on the order of the elements. */
  lemma {:induction false} SumPermutation(a: seq<int>, b: seq<int>)
    requires multiset(a) == multiset(b)
    ensures Sum(a) == Sum(b)
    decreases |a|
  {
    if a == [] {
      assert |b| == |multiset(b)| == 0;
    } else {
      var i := PermutationTail(a, b);
      SumPermutation(a[1..], b[..i] + b[i + 1..]);
      SumRemoveAt(b, i);
    }
  }

  lemma MapAppend<A, B>(f: A -> B, a: seq<A>, b: seq<A>)
    ensures Map(f, a + b) == Map(f, a) + Map(f, b)
  {
  }

  /** Mapping a list gives f of the element at index i together with the mapped others. */
  lemma MapRemoveAt<A, B>(f: A -> B, b: seq<A>, i: nat)
    requires i < |b|
    ensures multiset(Map(f, b)) == multiset{f(b[i])} + multiset(Map(f, b[..i] + b[i + 1..]))
  {
    assert b == b[..i] + ([b[i]] + b[i + 1..]);
    MapAppend(f, b[..i], [b[i]] + b[i + 1..]);
    MapAppend(f, [b[i]], b[i + 1..]);
    MapAppend(f, b[..i], b[i + 1..]);
  }

  /** Applying f element-wise to two permutations of each other gives permutations of each other. */
  lemma {:induction false} MapPermutation<A, B>(f: A -> B, a: seq<A>, b: seq<A>)
    requires multiset(a) == multiset(b)
    ensures multiset(Map(f, a)) == multiset(Map(f, b))
    decreases |a|
  {
    if a == [] {
      assert |b| == |multiset(b)| == 0;
    } else {
      var i := PermutationTail(a, b);
      MapPermutation(f, a[1..], b[..i] + b[i + 1..]);
      MapRemoveAt(f, b, i);
      assert Map(f, a) == [f(a[0])] + Map(f, a[1..]);
    }
  }
}
