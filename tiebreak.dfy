/**
 * The tie-break list FillValues (Poker/Hand.cs) builds, rank by rank, and the facts
 * GetResult relies on: the length of the list depends only on the rank, so two hands of
 * the same rank are compared position by position over lists of equal length.
 */
module TieBreaks {
  import opened Wrappers
  import opened Lists
  import opened Cards
  import opened Evaluation
  import opened Counting
  import opened Ranking
  import opened Comparison

  /** The length of the tie-break list of each rank. */
  function KeyCount(rank: Rank): nat
  {
    match rank
    case HighCard | Flush => 5
    case Pair => 4
    case TwoPairs | ThreeOfAKind => 3
    case FullHouse | FourOfAKind => 2
    case Straight | StraightFlush | RoyalFlush => 1
    case Error | NotSet => 0
  }

  /** A key's count is one of the counts of any list that holds the key. */
  lemma CountIn(temp: map<int, int>, ks: seq<int>, x: int)
    requires x in ks
    ensures CountOf(temp, x) in multiset(Counts(temp, ks))
  {
    var j :| 0 <= j < |ks| && ks[j] == x;
    assert Counts(temp, ks)[j] == CountOf(temp, x);
  }

  /** The counts of the descending keys are the entries of the profile, one per key. */
  lemma DescCounts(temp: map<int, int>)
    ensures multiset(Counts(temp, DescKeys(temp))) == multiset(Profile(temp))
    ensures |Profile(temp)| == |DescKeys(temp)| == |temp|
  {
    var c := Counts(temp, DescKeys(temp));
    ReverseMultiset(Sort(c));
    assert |Sort(c)| == |multiset(Sort(c))| == |c|;
    DescKeysFacts(temp);
  }

  /** Every entry after the first is 1. */
  predicate SinglesAfterFirst(q: seq<int>)
  {
    forall i :: 1 <= i < |q| ==> q[i] == 1
  }

  /** A list of ones holds 1 as many times as it is long. */
  lemma {:induction false} OnesCount(s: seq<int>)
    requires forall i :: 0 <= i < |s| ==> s[i] == 1
    ensures multiset(s)[1] == |s|
  {
    if s != [] {
      assert s == [1] + s[1..];
      OnesCount(s[1..]);
    }
  }

  /** A profile of one repeated count followed by singles holds 1 once per single. */
  lemma SinglesCount(q: seq<int>)
    requires |q| >= 1 && q[0] != 1 && SinglesAfterFirst(q)
    ensures multiset(q)[1] == |q| - 1
  {
    assert q == [q[0]] + q[1..];
    OnesCount(q[1..]);
  }

  /**
   * The two passes for Pair, ThreeOfAKind and FourOfAKind over a key list whose counts
   * are one repeated count and singles: the repeated key first, then the singles.
   */
  lemma GroupedPasses(temp: map<int, int>, vals: seq<int>, q: seq<int>)
    requires multiset(Counts(temp, vals)) == multiset(q)
    requires |vals| == |q| >= 1 && q[0] != 1 && SinglesAfterFirst(q)
    ensures var v := GroupedValues(temp, vals);
      && |v| == |q|
      && CountOf(temp, v[0]) == q[0]
      && v[1..] == WithCount(temp, vals, 1)
  {
    SinglesCount(q);
    WithCountSize(temp, vals, 1);
    var w := WithoutCount(temp, vals, 1);
    var s := WithCount(temp, vals, 1);
    assert |w| == 1 && w[0] in w;
    KeptOther(temp, vals, 1, w[0]);
    CountIn(temp, vals, w[0]);
    assert CountOf(temp, w[0]) in q;
    assert (w + s)[0] == w[0] && (w + s)[1..] == s;
  }

  /** The two passes for FullHouse: the key counted three times, then the key counted twice. */
  lemma FullHousePasses(temp: map<int, int>, vals: seq<int>)
    requires multiset(Counts(temp, vals))[3] == 1 && multiset(Counts(temp, vals))[2] == 1
    ensures var v := FullHouseValues(temp, vals);
      |v| == 2 && CountOf(temp, v[0]) == 3 && CountOf(temp, v[1]) == 2
  {
    WithCountSize(temp, vals, 3);
    WithCountSize(temp, vals, 2);
    var w3 := WithCount(temp, vals, 3);
    var w2 := WithCount(temp, vals, 2);
    Kept(temp, vals, 3, w3[0]);
    Kept(temp, vals, 2, w2[0]);
  }

  /** The passes for TwoPairs over a descending key list: the two pairs highest first, then the single. */
  lemma TwoPairsPasses(temp: map<int, int>, vals: seq<int>)
    requires Descending(vals)
    requires multiset(Counts(temp, vals))[2] == 2 && multiset(Counts(temp, vals))[1] == 1
    ensures var v := TwoPairsValues(temp, vals);
      && |v| == 3 && v[0] > v[1]
      && CountOf(temp, v[0]) == 2 && CountOf(temp, v[1]) == 2 && CountOf(temp, v[2]) == 1
  {
    WithCountSize(temp, vals, 2);
    WithCountSize(temp, vals, 1);
    PassesDescending(temp, vals, 2);
    var w2 := WithCount(temp, vals, 2);
    var w1 := WithCount(temp, vals, 1);
    SortDescending(w2);
    Kept(temp, vals, 2, w2[0]);
    Kept(temp, vals, 2, w2[1]);
    Kept(temp, vals, 1, w1[0]);
  }

  lemma FullHouseProfile(q: seq<int>)
    requires q == [3, 2]
    ensures multiset(q)[3] == 1 && multiset(q)[2] == 1
  {
  }

  lemma TwoPairsProfile(q: seq<int>)
    requires q == [2, 2, 1]
    ensures multiset(q)[2] == 2 && multiset(q)[1] == 1
  {
  }

  /** The count of the repeated value of a Pair, ThreeOfAKind or FourOfAKind. */
  function Multiple(rank: Rank): int
  {
    if rank == Pair then 2 else if rank == ThreeOfAKind then 3 else 4
  }

  /** HighCard and Flush: all five keys, highest first. */
  lemma AllValuesOf(temp: map<int, int>, rank: Rank)
    requires |temp| > 0 && Profile(temp) == [1, 1, 1, 1, 1]
    requires rank == HighCard || rank == Flush
    ensures var v := TieBreak(rank, temp);
      |v| == 5 && Descending(v) && forall x :: x in v <==> x in temp
  {
    DescCounts(temp);
    DescKeysFacts(temp);
  }

  /** The profiles of Pair, ThreeOfAKind and FourOfAKind: one repeated count, the rest singles. */
  lemma GroupedProfile(rank: Rank, q: seq<int>)
    requires || (rank == Pair && q == [2, 1, 1, 1])
             || (rank == ThreeOfAKind && q == [3, 1, 1])
             || (rank == FourOfAKind && q == [4, 1])
    ensures |q| == KeyCount(rank) && q[0] == Multiple(rank) && SinglesAfterFirst(q)
  {
  }

  lemma GroupedLength(temp: map<int, int>, rank: Rank)
    requires |temp| > 0
    requires || (rank == Pair && Profile(temp) == [2, 1, 1, 1])
             || (rank == ThreeOfAKind && Profile(temp) == [3, 1, 1])
             || (rank == FourOfAKind && Profile(temp) == [4, 1])
    ensures |TieBreak(rank, temp)| == KeyCount(rank)
  {
    GroupedProfile(rank, Profile(temp));
    DescCounts(temp);
    GroupedPasses(temp, DescKeys(temp), Profile(temp));
  }

  lemma FullHouseLength(temp: map<int, int>)
    requires |temp| > 0 && Profile(temp) == [3, 2]
    ensures |TieBreak(FullHouse, temp)| == 2
  {
    DescCounts(temp);
    FullHouseProfile(Profile(temp));
    FullHousePasses(temp, DescKeys(temp));
  }

  lemma TwoPairsLength(temp: map<int, int>)
    requires |temp| > 0 && Profile(temp) == [2, 2, 1]
    ensures |TieBreak(TwoPairs, temp)| == 3
  {
    DescCounts(temp);
    TwoPairsProfile(Profile(temp));
    DescKeysDescending(temp);
    TwoPairsPasses(temp, DescKeys(temp));
  }

  /** The length of the tie-break list of each rank GetRank can assign. */
  lemma TieBreakLengthOf(temp: map<int, int>, rank: Rank, straight: bool, sameSuit: bool, lowest: int)
    requires |temp| > 0
    requires rank == Classify(Profile(temp), straight, sameSuit, lowest)
    ensures |TieBreak(rank, temp)| == KeyCount(rank)
  {
    ClassifyShape(Profile(temp), straight, sameSuit, lowest);
    match rank
    case HighCard | Flush => AllValuesOf(temp, rank);
    case Pair | ThreeOfAKind | FourOfAKind => GroupedLength(temp, rank);
    case FullHouse => FullHouseLength(temp);
    case TwoPairs => TwoPairsLength(temp);
    case _ =>
  }

  /** The rank and the tie-break list of a hand whose evaluation completes. */
  lemma EvaluateParts(cards: seq<Card>, e: Evaluation)
    requires |cards| > 0 && Evaluate(cards) == Some(e)
    ensures |CountMap(cards)| > 0 && StraightOf(CountMap(cards)).Some?
    ensures e.rank == Classify(Profile(CountMap(cards)), StraightOf(CountMap(cards)).value, SameSuit(cards), Keys(CountMap(cards))[0])
    ensures e.values == TieBreak(e.rank, CountMap(cards))
  {
  }

  /** The length of the tie-break list is fixed by the rank. */
  lemma TieBreakLength(cards: seq<Card>, e: Evaluation)
    requires |cards| > 0 && Evaluate(cards) == Some(e)
    ensures |e.values| == KeyCount(e.rank)
  {
    EvaluateParts(cards, e);
    var temp := CountMap(cards);
    TieBreakLengthOf(temp, e.rank, StraightOf(temp).value, SameSuit(cards), Keys(temp)[0]);
  }

  /** HighCard and Flush: every distinct value once, highest first. */
  lemma TieBreakAllValues(cards: seq<Card>, e: Evaluation)
    requires |cards| > 0 && Evaluate(cards) == Some(e)
    requires e.rank == HighCard || e.rank == Flush
    ensures |e.values| == 5 && Descending(e.values)
    ensures forall x :: x in e.values <==> x in CountMap(cards)
  {
    EvaluateParts(cards, e);
    var temp := CountMap(cards);
    AllValuesOfRank(temp, e, StraightOf(temp).value, SameSuit(cards), Keys(temp)[0]);
  }

  /** TieBreakAllValues for a dictionary ranked HighCard or Flush. */
  lemma AllValuesOfRank(temp: map<int, int>, e: Evaluation, straight: bool, sameSuit: bool, lowest: int)
    requires |temp| > 0 && e.rank == Classify(Profile(temp), straight, sameSuit, lowest)
    requires e.values == TieBreak(e.rank, temp)
    requires e.rank == HighCard || e.rank == Flush
    ensures |e.values| == 5 && Descending(e.values)
    ensures forall x :: x in e.values <==> x in temp
  {
    ClassifyShape(Profile(temp), straight, sameSuit, lowest);
    AllValuesOf(temp, e.rank);
  }

  /** The single values of a hand, highest first, each once. */
  lemma Singles(temp: map<int, int>)
    ensures var s := WithCount(temp, DescKeys(temp), 1);
      Descending(s) && forall x :: x in s <==> x in temp && temp[x] == 1
  {
    DescKeysFacts(temp);
    PassesDescending(temp, DescKeys(temp), 1);
    WithCountMembers(temp, DescKeys(temp), 1);
  }

  /**
   * Pair, ThreeOfAKind and FourOfAKind: the repeated value first, then every single value,
   * highest first.
   */
  lemma TieBreakGrouped(cards: seq<Card>, e: Evaluation)
    requires |cards| > 0 && Evaluate(cards) == Some(e)
    requires e.rank == Pair || e.rank == ThreeOfAKind || e.rank == FourOfAKind
    ensures |e.values| == KeyCount(e.rank)
    ensures CountOf(CountMap(cards), e.values[0]) == Multiple(e.rank)
    ensures Descending(e.values[1..])
    ensures forall x :: x in e.values[1..] <==> x in CountMap(cards) && CountMap(cards)[x] == 1
  {
    EvaluateParts(cards, e);
    var temp := CountMap(cards);
    GroupedOfRank(temp, e, StraightOf(temp).value, SameSuit(cards), Keys(temp)[0]);
  }

  /** TieBreakGrouped for a dictionary ranked Pair, ThreeOfAKind or FourOfAKind. */
  lemma GroupedOfRank(temp: map<int, int>, e: Evaluation, straight: bool, sameSuit: bool, lowest: int)
    requires |temp| > 0 && e.rank == Classify(Profile(temp), straight, sameSuit, lowest)
    requires e.values == TieBreak(e.rank, temp)
    requires e.rank == Pair || e.rank == ThreeOfAKind || e.rank == FourOfAKind
    ensures |e.values| == KeyCount(e.rank)
    ensures CountOf(temp, e.values[0]) == Multiple(e.rank)
    ensures Descending(e.values[1..])
    ensures forall x :: x in e.values[1..] <==> x in temp && temp[x] == 1
  {
    ClassifyShape(Profile(temp), straight, sameSuit, lowest);
    GroupedProfile(e.rank, Profile(temp));
    DescCounts(temp);
    GroupedPasses(temp, DescKeys(temp), Profile(temp));
    Singles(temp);
  }

  /** FullHouse: the value held three times, then the value held twice. */
  lemma TieBreakFullHouse(cards: seq<Card>, e: Evaluation)
    requires |cards| > 0 && Evaluate(cards) == Some(e)
    requires e.rank == FullHouse
    ensures |e.values| == 2
    ensures CountOf(CountMap(cards), e.values[0]) == 3 && CountOf(CountMap(cards), e.values[1]) == 2
  {
    EvaluateParts(cards, e);
    var temp := CountMap(cards);
    FullHouseOfRank(temp, e, StraightOf(temp).value, SameSuit(cards), Keys(temp)[0]);
  }

  /** TieBreakFullHouse for a dictionary ranked FullHouse. */
  lemma FullHouseOfRank(temp: map<int, int>, e: Evaluation, straight: bool, sameSuit: bool, lowest: int)
    requires |temp| > 0 && e.rank == Classify(Profile(temp), straight, sameSuit, lowest)
    requires e.values == TieBreak(e.rank, temp)
    requires e.rank == FullHouse
    ensures |e.values| == 2
    ensures CountOf(temp, e.values[0]) == 3 && CountOf(temp, e.values[1]) == 2
  {
    ClassifyShape(Profile(temp), straight, sameSuit, lowest);
    DescCounts(temp);
    FullHouseProfile(Profile(temp));
    FullHousePasses(temp, DescKeys(temp));
  }

  /** TwoPairs: the higher pair, the lower pair, then the single value. */
  lemma TieBreakTwoPairs(cards: seq<Card>, e: Evaluation)
    requires |cards| > 0 && Evaluate(cards) == Some(e)
    requires e.rank == TwoPairs
    ensures |e.values| == 3 && e.values[0] > e.values[1]
    ensures CountOf(CountMap(cards), e.values[0]) == 2 && CountOf(CountMap(cards), e.values[1]) == 2
    ensures CountOf(CountMap(cards), e.values[2]) == 1
  {
    EvaluateParts(cards, e);
    var temp := CountMap(cards);
    TwoPairsOfRank(temp, e, StraightOf(temp).value, SameSuit(cards), Keys(temp)[0]);
  }

  /** TieBreakTwoPairs for a dictionary ranked TwoPairs. */
  lemma TwoPairsOfRank(temp: map<int, int>, e: Evaluation, straight: bool, sameSuit: bool, lowest: int)
    requires |temp| > 0 && e.rank == Classify(Profile(temp), straight, sameSuit, lowest)
    requires e.values == TieBreak(e.rank, temp)
    requires e.rank == TwoPairs
    ensures |e.values| == 3 && e.values[0] > e.values[1]
    ensures CountOf(temp, e.values[0]) == 2 && CountOf(temp, e.values[1]) == 2
    ensures CountOf(temp, e.values[2]) == 1
  {
    ClassifyShape(Profile(temp), straight, sameSuit, lowest);
    DescCounts(temp);
    TwoPairsProfile(Profile(temp));
    DescKeysDescending(temp);
    TwoPairsPasses(temp, DescKeys(temp));
  }

  /** The list for Straight, StraightFlush and RoyalFlush is the largest key alone. */
  lemma LargestOf(temp: map<int, int>, rank: Rank)
    requires |temp| > 0
    requires rank == Straight || rank == StraightFlush || rank == RoyalFlush
    ensures var v := TieBreak(rank, temp);
      |v| == 1 && v[0] in temp && forall x :: x in temp ==> x <= v[0]
  {
    DescKeysMax(temp);
  }

  /** Straight, StraightFlush and RoyalFlush: the single largest value, 14 for the wheel too. */
  lemma TieBreakStraight(cards: seq<Card>, e: Evaluation)
    requires |cards| > 0 && Evaluate(cards) == Some(e)
    requires e.rank == Straight || e.rank == StraightFlush || e.rank == RoyalFlush
    ensures |e.values| == 1 && e.values[0] in CountMap(cards)
    ensures forall x :: x in CountMap(cards) ==> x <= e.values[0]
  {
    EvaluateParts(cards, e);
    LargestOf(CountMap(cards), e.rank);
  }

  /**
   * Two hands whose evaluation completes: equal ranks give tie-break lists of equal
   * length, swapping the hands swaps Win and Loss, and the result is Draw exactly when
   * rank and tie-break list are the same.
   */
  lemma CompareHands(a: seq<Card>, ea: Evaluation, b: seq<Card>, eb: Evaluation)
    requires |a| > 0 && Evaluate(a) == Some(ea)
    requires |b| > 0 && Evaluate(b) == Some(eb)
    ensures ea.rank == eb.rank ==> |ea.values| == |eb.values|
    ensures Compare(eb.rank, eb.values, ea.rank, ea.values) == Flip(Compare(ea.rank, ea.values, eb.rank, eb.values))
    ensures Compare(ea.rank, ea.values, eb.rank, eb.values) == Draw <==> ea == eb
  {
    TieBreakLength(a, ea);
    TieBreakLength(b, eb);
    CompareFlip(ea.rank, ea.values, eb.rank, eb.values);
    CompareDraw(ea.rank, ea.values, eb.rank, eb.values);
  }

  /** The same cards in any order draw. */
  lemma ReorderedDraw(a: seq<Card>, b: seq<Card>, e: Evaluation)
    requires |a| > 0 && multiset(a) == multiset(b) && Evaluate(a) == Some(e)
    ensures |b| > 0 && Evaluate(b) == Some(e)
    ensures Compare(e.rank, e.values, e.rank, e.values) == Draw
  {
    EvaluatePermutation(a, b);
    CompareHands(a, e, b, e);
  }
}
