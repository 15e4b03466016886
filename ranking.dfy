/**
 * What GetRank (Poker/Hand.cs) assigns, stated over the cards: the count profile of a
 * hand is one of the partitions of its number of cards, so a five-card hand whose
 * straight test completes never gets Error; each rank corresponds to one shape of the
 * count bag; the all-distinct case is split by the straight and same-suit tests; and
 * the outcome depends only on the multiset of cards, not on their order.
 */
module Ranking {
  import opened Wrappers
  import opened Lists
  import opened Cards
  import opened Evaluation
  import opened Counting
  import opened Straights

  predicate NonIncreasing(p: seq<int>)
  {
    forall i, j :: 0 <= i < j < |p| ==> p[i] >= p[j]
  }

  predicate Positive(p: seq<int>)
  {
    forall i :: 0 <= i < |p| ==> p[i] >= 1
  }

  /** The count profiles GetRank names: the partitions of five except five of a kind. */
  predicate NamedShape(p: seq<int>)
  {
    p == [1, 1, 1, 1, 1] || p == [2, 1, 1, 1] || p == [2, 2, 1] || p == [3, 1, 1] || p == [3, 2] || p == [4, 1]
  }

  lemma {:induction false} SumAtLeastLength(p: seq<int>)
    requires Positive(p)
    ensures Sum(p) >= |p|
  {
    if p != [] {
      assert Positive(p[1..]) by {
        forall i | 0 <= i < |p[1..]|
          ensures p[1..][i] >= 1
        {
          assert p[1..][i] == p[i + 1];
        }
      }
      SumAtLeastLength(p[1..]);
    }
  }

  lemma SumTail(p: seq<int>, i: nat)
    requires i < |p|
    ensures Sum(p[i..]) == p[i] + Sum(p[i + 1..])
  {
    assert p[i..][1..] == p[i + 1..];
  }

  /** Every named profile adds up to five. */
  lemma NamedShapeSum(p: seq<int>)
    requires NamedShape(p)
    ensures Sum(p) == 5 && |p| >= 2
  {
    forall i | 0 <= i < |p|
      ensures Sum(p[i..]) == p[i] + Sum(p[i + 1..])
    {
      SumTail(p, i);
    }
    assert p[|p|..] == [] && p[0..] == p;
  }

  /** Sum written out for a list of at most five elements. */
  lemma SumSmall(p: seq<int>)
    requires 1 <= |p| <= 5
    ensures Sum(p) == p[0] + (if |p| > 1 then p[1] else 0) + (if |p| > 2 then p[2] else 0)
      + (if |p| > 3 then p[3] else 0) + (if |p| > 4 then p[4] else 0)
  {
    forall i | 0 <= i < |p|
      ensures Sum(p[i..]) == p[i] + Sum(p[i + 1..])
    {
      SumTail(p, i);
    }
    assert p[|p|..] == [] && p[0..] == p;
  }

  /**
   * The non-increasing lists of positive counts that add up to five: five of a kind and
   * the six profiles GetRank names.
   */
  lemma Partitions(p: seq<int>)
    ensures NonIncreasing(p) && Positive(p) && Sum(p) == 5 ==> p == [5] || NamedShape(p)
  {
    if NonIncreasing(p) && Positive(p) && Sum(p) == 5 {
      SumAtLeastLength(p);
      SumSmall(p);
      if |p| <= 2 {
        PartitionsShort(p);
      } else {
        PartitionsLong(p);
      }
    }
  }

  lemma PartitionsShort(p: seq<int>)
    requires 1 <= |p| <= 2 && NonIncreasing(p) && Positive(p)
    requires p[0] + (if |p| > 1 then p[1] else 0) == 5
    ensures p == [5] || p == [4, 1] || p == [3, 2]
  {
    if |p| == 1 {
      assert p == [p[0]];
    } else {
      assert p[0] >= p[1];
      assert p == [p[0], p[1]];
    }
  }

  lemma PartitionsLong(p: seq<int>)
    requires 3 <= |p| <= 5 && NonIncreasing(p) && Positive(p)
    requires p[0] + p[1] + p[2] + (if |p| > 3 then p[3] else 0) + (if |p| > 4 then p[4] else 0) == 5
    ensures p == [3, 1, 1] || p == [2, 2, 1] || p == [2, 1, 1, 1] || p == [1, 1, 1, 1, 1]
  {
    assert p[0] >= p[1] >= p[2] >= 1;
    if |p| == 3 {
      assert p == [p[0], p[1], p[2]];
    } else if |p| == 4 {
      assert p[2] >= p[3] >= 1;
      assert p == [p[0], p[1], p[2], p[3]];
    } else {
      assert p[2] >= p[3] >= p[4] >= 1;
      assert p == [p[0], p[1], p[2], p[3], p[4]];
    }
  }

  /** The facts about the profile of a hand that the rank depends on. */
  lemma ProfileShape(cards: seq<Card>)
    ensures var p := Profile(CountMap(cards));
      && |p| == |CountMap(cards)|
      && NonIncreasing(p) && Positive(p) && Sum(p) == |cards|
  {
    ProfileFacts(cards);
  }

  /** The rank of a hand whose evaluation completes, from its profile. */
  lemma RankOf(cards: seq<Card>)
    requires |cards| > 0 && Evaluate(cards).Some?
    ensures Evaluate(cards).value.rank ==
      Classify(Profile(CountMap(cards)), StraightOf(CountMap(cards)).value, SameSuit(cards), Keys(CountMap(cards))[0])
  {
  }

  /** Each rank GetRank assigns comes from one count profile; NotSet is never assigned. */
  lemma ClassifyShape(q: seq<int>, straight: bool, sameSuit: bool, lowest: int)
    ensures var rank := Classify(q, straight, sameSuit, lowest);
      && (rank == HighCard || rank == Flush || rank == Straight || rank == StraightFlush || rank == RoyalFlush
          ==> q == [1, 1, 1, 1, 1])
      && (rank == Pair ==> q == [2, 1, 1, 1])
      && (rank == TwoPairs ==> q == [2, 2, 1])
      && (rank == ThreeOfAKind ==> q == [3, 1, 1])
      && (rank == FullHouse ==> q == [3, 2])
      && (rank == FourOfAKind ==> q == [4, 1])
      && rank != NotSet
  {
  }

  /** A single distinct value always makes the straight test read past the end of the keys. */
  lemma SingleValue(temp: map<int, int>)
    requires |temp| > 0
    ensures |temp| == 1 ==> StraightOf(temp) == None
  {
    if |temp| == 1 {
      StraightOfFewer(temp);
    }
  }

  /**
   * Over profiles with more than one entry: the rank is never NotSet, and it is Error
   * exactly when the counts do not add up to five.
   */
  lemma ClassifyError(q: seq<int>, n: int, straight: bool, sameSuit: bool, lowest: int)
    requires NonIncreasing(q) && Positive(q) && Sum(q) == n && |q| != 1
    ensures Classify(q, straight, sameSuit, lowest) != NotSet
    ensures Classify(q, straight, sameSuit, lowest) == Error <==> n != 5
  {
    Partitions(q);
    if NamedShape(q) {
      NamedShapeSum(q);
    }
  }

  /**
   * A hand whose evaluation completes is never left at NotSet, and it gets Error exactly
   * when it does not have five cards: every five-card hand whose straight test completes
   * has one of the named profiles.
   */
  lemma RankErrorIffNotFive(cards: seq<Card>)
    requires |cards| > 0 && Evaluate(cards).Some?
    ensures Evaluate(cards).value.rank != NotSet
    ensures Evaluate(cards).value.rank == Error <==> |cards| != 5
  {
    var temp := CountMap(cards);
    ProfileShape(cards);
    SingleValue(temp);
    RankOf(cards);
    ClassifyError(Profile(temp), |cards|, StraightOf(temp).value, SameSuit(cards), Keys(temp)[0]);
  }

  /** The counts of the values of a hand, one per distinct value: how many values occur once, twice, ... */
  ghost function CountBag(temp: map<int, int>): multiset<int>
  {
    multiset(Counts(temp, Keys(temp)))
  }

  /** The elements of a bag in non-increasing order. */
  ghost function Shape(bag: multiset<int>): (r: seq<int>)
    ensures multiset(r) == bag && NonIncreasing(r)
  {
    var s := SortedBag(bag);
    ReverseMultiset(s);
    Reverse(s)
  }

  /** The profile GetRank switches on is the count bag in non-increasing order. */
  lemma ProfileIsShape(temp: map<int, int>)
    ensures Profile(temp) == Shape(CountBag(temp))
  {
    var c := Counts(temp, DescKeys(temp));
    ReverseMultiset(Keys(temp));
    CountsPermutation(temp, DescKeys(temp), Keys(temp));
    SortListing(c, CountBag(temp));
  }

  /** A straight of the rank table: five consecutive values, or the wheel 2, 3, 4, 5, ace. */
  predicate IsStraight(keys: seq<int>)
  {
    Consecutive(keys) || keys == [2, 3, 4, 5, 14]
  }

  /**
   * Five cards of five distinct values: the evaluation always completes, and the rank is
   * HighCard, Flush, Straight, StraightFlush or RoyalFlush according to whether the values
   * are a straight and the suits all equal; a straight flush is royal exactly when its
   * values are ten to ace.
   */
  lemma DistinctRanks(cards: seq<Card>)
    requires |cards| == 5 && |CountMap(cards)| == 5
    ensures Evaluate(cards).Some?
    ensures var rank := Evaluate(cards).value.rank;
      var straight := IsStraight(Keys(CountMap(cards)));
      var sameSuit := SameSuit(cards);
      && (rank == HighCard <==> !straight && !sameSuit)
      && (rank == Flush <==> !straight && sameSuit)
      && (rank == Straight <==> straight && !sameSuit)
      && (rank == StraightFlush <==> straight && sameSuit && Keys(CountMap(cards)) != [10, 11, 12, 13, 14])
      && (rank == RoyalFlush <==> straight && sameSuit && Keys(CountMap(cards)) == [10, 11, 12, 13, 14])
  {
    var temp := CountMap(cards);
    DistinctProfile(cards);
    CountMapKeys(cards);
    StraightOfFive(temp);
    RoyalKeys(Keys(temp));
    RankOf(cards);
  }

  /** Five cards of five distinct values: every value once. */
  lemma DistinctProfile(cards: seq<Card>)
    requires |cards| == 5 && |CountMap(cards)| == 5
    ensures Profile(CountMap(cards)) == [1, 1, 1, 1, 1]
  {
    ProfileShape(cards);
    Partitions(Profile(CountMap(cards)));
  }

  /** A straight starting at ten is ten to ace. */
  lemma RoyalKeys(keys: seq<int>)
    requires |keys| == 5
    ensures IsStraight(keys) && keys[0] == 10 <==> keys == [10, 11, 12, 13, 14]
  {
    if IsStraight(keys) && keys[0] == 10 {
      assert keys != [2, 3, 4, 5, 14];
      assert keys[1] == keys[0] + 1 && keys[2] == keys[1] + 1;
      assert keys[3] == keys[2] + 1 && keys[4] == keys[3] + 1;
      assert keys == [10, 11, 12, 13, 14];
    }
  }

  /** The same-suit flag says that any two cards of the hand share a suit. */
  lemma SameSuitAll(cards: seq<Card>)
    ensures SameSuit(cards) <==> forall c, d :: c in cards && d in cards ==> c.suit == d.suit
  {
    if SameSuit(cards) {
      forall c, d | c in cards && d in cards
        ensures c.suit == d.suit
      {
        var i :| 0 <= i < |cards| && cards[i] == c;
        var j :| 0 <= j < |cards| && cards[j] == d;
      }
    }
  }

  /** Reordering the cards changes neither the dictionary, nor the flag, nor the rank and tie-break list. */
  lemma EvaluatePermutation(a: seq<Card>, b: seq<Card>)
    requires |a| > 0 && multiset(a) == multiset(b)
    ensures |b| > 0
    ensures CountMap(a) == CountMap(b) && SameSuit(a) == SameSuit(b)
    ensures Evaluate(a) == Evaluate(b)
  {
    assert |b| == |multiset(b)| == |multiset(a)| == |a|;
    var f := (c: Card) => c.value;
    assert Map(f, a) == Values(a);
    assert Map(f, b) == Values(b);
    MapPermutation(f, a, b);
    CountMapTally(a);
    CountMapTally(b);
    SameSuitAll(a);
    SameSuitAll(b);
    assert forall c :: c in a <==> c in b by {
      forall c
        ensures c in a <==> c in b
      {
        assert c in a <==> c in multiset(a);
        assert c in b <==> c in multiset(b);
      }
    }
  }
}
