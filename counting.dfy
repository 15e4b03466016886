/**
 * Facts about the value-to-count dictionary of EvaluateHand and the lists GetRank and
 * FillValues derive from it: how one card changes the dictionary, that the counts add up
 * to the number of cards, the shape of the count profile, and how many keys each
 * filtering pass of FillValues keeps.
 */
module Counting {
  import opened Lists
  import opened Cards
  import opened Evaluation

  /** One more copy of v raises the count of v by one and leaves every other count alone. */
  lemma TallyAdd(bag: multiset<int>, v: int)
    ensures Tally(bag + multiset{v}) == Tally(bag)[v := CountOf(Tally(bag), v) + 1]
  {
    var a := Tally(bag + multiset{v});
    var b := Tally(bag)[v := CountOf(Tally(bag), v) + 1];
    assert a.Keys == b.Keys;
    forall x | x in a
      ensures a[x] == b[x]
    {
    }
  }

  /** Counting the cards one at a time gives each value the number of cards that have it. */
  lemma {:induction false} CountMapTally(cards: seq<Card>)
    ensures CountMap(cards) == Tally(multiset(Values(cards)))
  {
    if cards != [] {
      var init := cards[..|cards| - 1];
      var last := cards[|cards| - 1];
      CountMapTally(init);
      assert cards == init + [last];
      assert Values(cards) == Values(init) + [last.value];
      TallyAdd(multiset(Values(init)), last.value);
    } else {
      assert multiset(Values(cards)) == multiset{};
    }
  }

  /** The keys of the dictionary are exactly the values of the cards, and every count is at least one. */
  lemma CountMapKeys(cards: seq<Card>)
    ensures forall v :: v in CountMap(cards) <==> exists i :: 0 <= i < |cards| && cards[i].value == v
    ensures forall v :: v in CountMap(cards) ==> 2 <= v <= 14 && CountMap(cards)[v] >= 1
  {
    CountMapTally(cards);
    var vs := Values(cards);
    forall v
      ensures v in multiset(vs) <==> exists i :: 0 <= i < |cards| && cards[i].value == v
    {
      if v in vs {
        var i :| 0 <= i < |vs| && vs[i] == v;
        assert cards[i].value == v;
      }
      if exists i :: 0 <= i < |cards| && cards[i].value == v {
        var i :| 0 <= i < |cards| && cards[i].value == v;
        assert vs[i] == v;
      }
    }
  }

  /** n copies of k. */
  function Copies(k: int, n: nat): (r: multiset<int>)
    ensures |r| == n
    ensures forall y :: r[y] == if y == k then n else 0
  {
    if n == 0 then multiset{} else Copies(k, n - 1) + multiset{k}
  }

  predicate Distinct(s: seq<int>)
  {
    forall i, j :: 0 <= i < j < |s| ==> s[i] != s[j]
  }

  /** Removing every copy of one element from a bag. */
  lemma RemoveAll(bag: multiset<int>, k: int)
    ensures var rest := bag - Copies(k, bag[k]);
      && |bag| == |rest| + bag[k]
      && (forall y :: rest[y] == if y == k then 0 else bag[y])
  {
    var rest := bag - Copies(k, bag[k]);
    assert forall y :: rest[y] == if y == k then 0 else bag[y];
    assert bag == rest + Copies(k, bag[k]);
  }

  lemma DistinctTail(ks: seq<int>)
    requires ks != [] && Distinct(ks)
    ensures Distinct(ks[1..]) && ks[0] !in ks[1..]
  {
    forall i, j | 0 <= i < j < |ks[1..]|
      ensures ks[1..][i] != ks[1..][j]
    {
      assert ks[1..][i] == ks[i + 1] && ks[1..][j] == ks[j + 1];
    }
    forall j | 0 <= j < |ks[1..]|
      ensures ks[1..][j] != ks[0]
    {
      assert ks[1..][j] == ks[j + 1];
    }
  }

  /** Counts of keys other than k are the same in a bag and in the bag without k. */
  lemma CountsWithout(bag: multiset<int>, rest: multiset<int>, k: int, ks: seq<int>)
    requires k !in ks
    requires forall y :: y != k ==> rest[y] == bag[y]
    ensures Counts(Tally(bag), ks) == Counts(Tally(rest), ks)
  {
  }

  /** Counts over a list split into its first key and the rest. */
  lemma CountsCons(temp: map<int, int>, ks: seq<int>)
    requires ks != []
    ensures Counts(temp, ks) == [CountOf(temp, ks[0])] + Counts(temp, ks[1..])
  {
  }

  /** Summing the counts over a list that names every value of the bag once gives the size of the bag. */
  lemma {:induction false} SumCounts(bag: multiset<int>, ks: seq<int>)
    requires Distinct(ks)
    requires forall x :: x in bag <==> x in ks
    ensures Sum(Counts(Tally(bag), ks)) == |bag|
    decreases |ks|
  {
    if ks == [] {
      assert (forall x :: x !in bag) ==> bag == multiset{};
    } else {
      var k := ks[0];
      var rest := bag - Copies(k, bag[k]);
      RemoveAll(bag, k);
      DistinctTail(ks);
      assert forall x :: x in rest <==> x in ks[1..];
      SumCounts(rest, ks[1..]);
      CountsWithout(bag, rest, k, ks[1..]);
      CountsCons(Tally(bag), ks);
      assert CountOf(Tally(bag), k) == bag[k];
    }
  }

  /** Counts over two listings of the same keys are permutations of each other. */
  lemma CountsPermutation(temp: map<int, int>, a: seq<int>, b: seq<int>)
    requires multiset(a) == multiset(b)
    ensures multiset(Counts(temp, a)) == multiset(Counts(temp, b))
  {
    var f := v => CountOf(temp, v);
    assert Map(f, a) == Counts(temp, a);
    assert Map(f, b) == Counts(temp, b);
    MapPermutation(f, a, b);
  }

  /** The key list FillValues walks is strictly descending. */
  lemma DescKeysDescending(temp: map<int, int>)
    ensures Descending(DescKeys(temp))
  {
  }

  /** The descending key list lists every key once. */
  lemma DescKeysFacts(temp: map<int, int>)
    ensures Descending(DescKeys(temp)) && Distinct(DescKeys(temp))
    ensures |DescKeys(temp)| == |temp|
    ensures forall x :: x in DescKeys(temp) <==> x in temp
  {
    var ks := Keys(temp);
    ReverseMultiset(ks);
    assert forall x :: x in DescKeys(temp) <==> x in multiset(DescKeys(temp));
  }

  /** The first key of the descending key list is the largest key. */
  lemma DescKeysMax(temp: map<int, int>)
    requires |temp| > 0
    ensures DescKeys(temp)[0] in temp
    ensures forall x :: x in temp ==> x <= DescKeys(temp)[0]
  {
    var vals := DescKeys(temp);
    DescKeysFacts(temp);
    assert vals[0] in vals;
    forall x | x in temp
      ensures x <= vals[0]
    {
      assert x in vals;
      var i :| 0 <= i < |vals| && vals[i] == x;
    }
  }

  /**
   * The count profile GetRank switches on lists the count of every key once, in
   * non-increasing order; the counts add up to the number of cards and none is zero.
   */
  lemma ProfileFacts(cards: seq<Card>)
    ensures var temp := CountMap(cards);
      var p := Profile(temp);
      && |p| == |temp|
      && (forall i, j :: 0 <= i < j < |p| ==> p[i] >= p[j])
      && (forall i :: 0 <= i < |p| ==> p[i] >= 1)
      && Sum(p) == |cards|
  {
    var temp := CountMap(cards);
    var c := Counts(temp, DescKeys(temp));
    CountsOfHand(cards);
    SortedCounts(c);
  }

  /** The counts of the descending key list are positive and add up to the number of cards. */
  lemma CountsOfHand(cards: seq<Card>)
    ensures var temp := CountMap(cards);
      && (forall y :: y in multiset(Counts(temp, DescKeys(temp))) ==> y >= 1)
      && Sum(Counts(temp, DescKeys(temp))) == |cards|
  {
    var temp := CountMap(cards);
    var ks := DescKeys(temp);
    DescKeysFacts(temp);
    CountMapTally(cards);
    CountMapKeys(cards);
    CountsPositive(temp, ks);
    SumCounts(multiset(Values(cards)), ks);
    assert |multiset(Values(cards))| == |Values(cards)| == |cards|;
  }

  /** Positive counts sorted into non-increasing order stay positive and keep their sum. */
  lemma SortedCounts(c: seq<int>)
    requires forall y :: y in multiset(c) ==> y >= 1
    ensures var p := Reverse(Sort(c));
      && |p| == |c| && multiset(p) == multiset(c)
      && (forall i, j :: 0 <= i < j < |p| ==> p[i] >= p[j])
      && (forall i :: 0 <= i < |p| ==> p[i] >= 1)
      && Sum(p) == Sum(c)
  {
    var p := Reverse(Sort(c));
    ReverseSort(c);
    forall i | 0 <= i < |p|
      ensures p[i] >= 1
    {
      assert p[i] in multiset(c);
    }
    SumPermutation(p, c);
  }

  /** The counts of keys of a dictionary whose counts are all positive are positive. */
  lemma CountsPositive(temp: map<int, int>, ks: seq<int>)
    requires forall x :: x in temp ==> temp[x] >= 1
    requires forall x :: x in ks ==> x in temp
    ensures forall y :: y in multiset(Counts(temp, ks)) ==> y >= 1
  {
    forall y | y in multiset(Counts(temp, ks))
      ensures y >= 1
    {
      var j :| 0 <= j < |ks| && Counts(temp, ks)[j] == y;
      assert ks[j] in ks;
    }
  }

  /** Counts over a list with one more key at the end. */
  lemma CountsSnoc(temp: map<int, int>, s: seq<int>)
    requires s != []
    ensures Counts(temp, s) == Counts(temp, s[..|s| - 1]) + [CountOf(temp, s[|s| - 1])]
  {
  }

  /** A filtering pass of FillValues keeps as many keys as there are keys with that count. */
  lemma {:induction false} WithCountSize(temp: map<int, int>, s: seq<int>, c: int)
    ensures |WithCount(temp, s, c)| == multiset(Counts(temp, s))[c]
    ensures |WithoutCount(temp, s, c)| == |s| - multiset(Counts(temp, s))[c]
  {
    if s != [] {
      WithCountSize(temp, s[..|s| - 1], c);
      CountsSnoc(temp, s);
    }
  }

  /** The keys a counting pass keeps: those of s with count c. */
  lemma {:induction false} WithCountMembers(temp: map<int, int>, s: seq<int>, c: int)
    ensures forall x :: x in WithCount(temp, s, c) <==> x in s && CountOf(temp, x) == c
  {
    if s != [] {
      WithCountMembers(temp, s[..|s| - 1], c);
      assert s == s[..|s| - 1] + [s[|s| - 1]];
    }
  }

  /** The keys the other pass keeps: those of s with a count other than c. */
  lemma {:induction false} WithoutCountMembers(temp: map<int, int>, s: seq<int>, c: int)
    ensures forall x :: x in WithoutCount(temp, s, c) <==> x in s && CountOf(temp, x) != c
  {
    if s != [] {
      WithoutCountMembers(temp, s[..|s| - 1], c);
      assert s == s[..|s| - 1] + [s[|s| - 1]];
    }
  }

  /** Both passes keep the order of s, so a descending key list gives descending results. */
  lemma {:induction false} PassesDescending(temp: map<int, int>, s: seq<int>, c: int)
    requires Descending(s)
    ensures Descending(WithCount(temp, s, c)) && Descending(WithoutCount(temp, s, c))
  {
    if s != [] {
      var init := s[..|s| - 1];
      var last := s[|s| - 1];
      assert Descending(init);
      PassesDescending(temp, init, c);
      WithCountMembers(temp, init, c);
      WithoutCountMembers(temp, init, c);
      assert s == init + [last];
      assert forall x :: x in init ==> x > last;
      DescendingSnoc(WithCount(temp, init, c), last);
      DescendingSnoc(WithoutCount(temp, init, c), last);
    }
  }

  /** A key the counting pass keeps has count c. */
  lemma Kept(temp: map<int, int>, s: seq<int>, c: int, x: int)
    requires x in WithCount(temp, s, c)
    ensures x in s && CountOf(temp, x) == c
  {
    WithCountMembers(temp, s, c);
  }

  /** A key the other pass keeps has a count other than c. */
  lemma KeptOther(temp: map<int, int>, s: seq<int>, c: int, x: int)
    requires x in WithoutCount(temp, s, c)
    ensures x in s && CountOf(temp, x) != c
  {
    WithoutCountMembers(temp, s, c);
  }
}
