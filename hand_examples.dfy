/**
 * The hands of Poker/TestHands.cs, evaluated with the model: each lemma states the rank
 * and the tie-break list EvaluateHand gives for one hand (the tests check the rank only).
 * The cards are written as ParseHand reads the hand text. One more hand, "2C 2H 3D 4C 5S",
 * shows the straight test reading past the end of the key list.
 *
 * Each hand has its dictionary (…Map), facts about literal lists (…Lists), facts about the
 * dictionary (…Dict, …List) and the evaluation (…Example), which joins them through
 * EvaluateFrom, EvaluateDistinct or EvaluateFails.
 */
module HandExamples {
  import opened Wrappers
  import opened Lists
  import opened Cards
  import opened Evaluation
  import opened Counting
  import opened Straights
  import opened Ranking
  import opened TieBreaks
  import opened Comparison

  /** A strictly increasing list holds each element once. */
  lemma {:induction false} AscendingCount(s: seq<int>, x: int)
    requires Ascending(s)
    ensures multiset(s)[x] == if x in s then 1 else 0
  {
    if s != [] {
      assert s == [s[0]] + s[1..];
      AscendingCount(s[1..], x);
    }
  }

  /** An ascending list holding exactly the keys is the key list. */
  lemma KeysOf(temp: map<int, int>, ks: seq<int>)
    requires Ascending(ks)
    requires forall x :: x in temp <==> x in ks
    ensures Keys(temp) == ks
  {
    forall x
      ensures multiset(ks)[x] == multiset(temp.Keys)[x]
    {
      AscendingCount(ks, x);
    }
    assert multiset(ks) == multiset(temp.Keys);
    SortedUnique(ks, Keys(temp));
  }

  /** The dictionary after one more card. */
  lemma CountMapPrefix(cards: seq<Card>, i: nat)
    requires i < |cards|
    ensures CountMap(cards[..i + 1]) == CountMap(cards[..i])[cards[i].value := CountOf(CountMap(cards[..i]), cards[i].value) + 1]
  {
    assert cards[..i + 1][..i] == cards[..i];
  }

  /** The dictionary of five cards, card by card. */
  lemma CountMapFive(cards: seq<Card>)
    requires |cards| == 5
    ensures CountMap(cards) ==
      var m0: map<int, int> := map[];
      var m1 := m0[cards[0].value := CountOf(m0, cards[0].value) + 1];
      var m2 := m1[cards[1].value := CountOf(m1, cards[1].value) + 1];
      var m3 := m2[cards[2].value := CountOf(m2, cards[2].value) + 1];
      var m4 := m3[cards[3].value := CountOf(m3, cards[3].value) + 1];
      m4[cards[4].value := CountOf(m4, cards[4].value) + 1]
  {
    assert cards[..0] == [];
    CountMapPrefix(cards, 0);
    CountMapPrefix(cards, 1);
    CountMapPrefix(cards, 2);
    CountMapPrefix(cards, 3);
    CountMapPrefix(cards, 4);
    assert cards[..5] == cards;
  }

  /** The profile of a dictionary whose counts are non-decreasing in key order: the counts reversed. */
  lemma ProfileOf(temp: map<int, int>, ks: seq<int>)
    requires Keys(temp) == ks && Sorted(Counts(temp, ks))
    ensures Profile(temp) == Reverse(Counts(temp, ks))
  {
    ReverseMultiset(ks);
    CountsPermutation(temp, DescKeys(temp), ks);
    SortListing(Counts(temp, DescKeys(temp)), multiset(Counts(temp, ks)));
    SortListing(Counts(temp, ks), multiset(Counts(temp, ks)));
    SortSorted(Counts(temp, ks));
  }

  /**
   * The grouped passes over a list whose first key is not counted once and whose other
   * keys are: the first key, then the others in order, so the list is unchanged.
   */
  lemma {:induction false} GroupedInOrder(temp: map<int, int>, vals: seq<int>)
    requires |vals| >= 1 && CountOf(temp, vals[0]) != 1
    requires forall i :: 1 <= i < |vals| ==> CountOf(temp, vals[i]) == 1
    ensures WithoutCount(temp, vals, 1) == [vals[0]] && WithCount(temp, vals, 1) == vals[1..]
    decreases |vals|
  {
    if |vals| == 1 {
      assert vals[..0] == [];
    } else {
      var init := vals[..|vals| - 1];
      assert forall i :: 0 <= i < |init| ==> init[i] == vals[i];
      GroupedInOrder(temp, init);
      assert vals[1..] == init[1..] + [vals[|vals| - 1]];
    }
  }

  /**
   * The evaluation of a hand, from facts about its dictionary: the ascending key list ks
   * (with neither both a 2 and an ace, so the straight test scans ks as it is), the counts
   * c along ks when they do not decrease, so that the profile is c reversed, and the
   * descending key list ds.
   */
  lemma EvaluateFrom(cards: seq<Card>, temp: map<int, int>, ks: seq<int>, c: seq<int>, ds: seq<int>, straight: bool, rank: Rank)
    requires |cards| > 0 && CountMap(cards) == temp
    requires Ascending(ks) && (forall x :: x in temp <==> x in ks) && !(2 in temp && 14 in temp)
    requires Counts(temp, ks) == c && Sorted(c) && Reverse(ks) == ds
    requires ScanKeys(ks) == Some(straight)
    requires rank == Classify(Reverse(c), straight, SameSuit(cards), ks[0])
    ensures Evaluate(cards) == Some(Evaluation(rank, TieBreakOf(rank, temp, ds)))
  {
    assert cards[|cards| - 1].value in temp;
    KeysOf(temp, ks);
    ProfileOf(temp, ks);
    StraightKeysPlain(temp);
  }

  /** As EvaluateFrom, where the straight test reads past the end of the key list. */
  lemma EvaluateFails(cards: seq<Card>, temp: map<int, int>, ks: seq<int>)
    requires |cards| > 0 && CountMap(cards) == temp
    requires Ascending(ks) && (forall x :: x in temp <==> x in ks) && !(2 in temp && 14 in temp)
    requires ScanKeys(ks) == None
    ensures Evaluate(cards) == None
  {
    assert cards[|cards| - 1].value in temp;
    KeysOf(temp, ks);
    StraightKeysPlain(temp);
  }

  /**
   * The evaluation of five cards of five distinct values with the ascending key list ks
   * and the descending key list ds: the rank table's all-distinct case.
   */
  lemma EvaluateDistinct(cards: seq<Card>, temp: map<int, int>, ks: seq<int>, ds: seq<int>, straight: bool, sameSuit: bool, rank: Rank)
    requires |cards| == 5 && CountMap(cards) == temp && SameSuit(cards) == sameSuit
    requires |ks| == 5 && Ascending(ks) && (forall x :: x in temp <==> x in ks) && Reverse(ks) == ds
    requires IsStraight(ks) == straight && rank == Classify([1, 1, 1, 1, 1], straight, sameSuit, ks[0])
    ensures Evaluate(cards) == Some(Evaluation(rank, TieBreakOf(rank, temp, ds)))
  {
    KeysOf(temp, ks);
    assert |temp| == 5;
    DistinctProfile(cards);
    CountMapKeys(cards);
    StraightOfFive(temp);
  }

  // "AC 4H 7D KC 2S" (HighCard): a 2 and an ace, so the straight test reads the ace as 1.

  lemma HighCardMap()
    ensures CountMap([Card(14, Clubs), Card(4, Hearts), Card(7, Diamonds), Card(13, Clubs), Card(2, Spades)])
      == map[14 := 1, 4 := 1, 7 := 1, 13 := 1, 2 := 1]
    ensures !SameSuit([Card(14, Clubs), Card(4, Hearts), Card(7, Diamonds), Card(13, Clubs), Card(2, Spades)])
  {
    var cards := [Card(14, Clubs), Card(4, Hearts), Card(7, Diamonds), Card(13, Clubs), Card(2, Spades)];
    CountMapFive(cards);
    assert cards[1].suit != cards[0].suit;
  }

  lemma HighCardLists()
    ensures Ascending([2, 4, 7, 13, 14]) && Reverse([2, 4, 7, 13, 14]) == [14, 13, 7, 4, 2]
    ensures !IsStraight([2, 4, 7, 13, 14]) && Classify([1, 1, 1, 1, 1], false, false, 2) == HighCard
  {
    assert !Consecutive([2, 4, 7, 13, 14]) by {
      assert [2, 4, 7, 13, 14][1] != [2, 4, 7, 13, 14][0] + 1;
    }
  }

  lemma HighCardDict(temp: map<int, int>)
    requires temp == map[14 := 1, 4 := 1, 7 := 1, 13 := 1, 2 := 1]
    ensures forall x :: x in temp <==> x in [2, 4, 7, 13, 14]
    ensures TieBreakOf(HighCard, temp, [14, 13, 7, 4, 2]) == [14, 13, 7, 4, 2]
  {
  }

  /** "AC 4H 7D KC 2S" is a HighCard hand, compared card by card from the ace down. */
  lemma HighCardExample()
    ensures Evaluate([Card(14, Clubs), Card(4, Hearts), Card(7, Diamonds), Card(13, Clubs), Card(2, Spades)])
      == Some(Evaluation(HighCard, [14, 13, 7, 4, 2]))
  {
    var cards := [Card(14, Clubs), Card(4, Hearts), Card(7, Diamonds), Card(13, Clubs), Card(2, Spades)];
    var temp := map[14 := 1, 4 := 1, 7 := 1, 13 := 1, 2 := 1];
    HighCardMap();
    HighCardLists();
    HighCardDict(temp);
    EvaluateDistinct(cards, temp, [2, 4, 7, 13, 14], [14, 13, 7, 4, 2], false, false, HighCard);
  }

  // "KC KH 7D 2C 5S" (Pair): a pair of kings, then 7, 5, 2.

  lemma PairMap()
    ensures CountMap([Card(13, Clubs), Card(13, Hearts), Card(7, Diamonds), Card(2, Clubs), Card(5, Spades)])
      == map[13 := 2, 7 := 1, 2 := 1, 5 := 1]
  {
    CountMapFive([Card(13, Clubs), Card(13, Hearts), Card(7, Diamonds), Card(2, Clubs), Card(5, Spades)]);
  }

  lemma PairLists()
    ensures Ascending([2, 5, 7, 13]) && Sorted([1, 1, 1, 2]) && Reverse([2, 5, 7, 13]) == [13, 7, 5, 2]
    ensures ScanKeys([2, 5, 7, 13]) == Some(false)
    ensures Classify(Reverse([1, 1, 1, 2]), false, false, 2) == Pair
  {
    assert Reverse([1, 1, 1, 2]) == [2, 1, 1, 1];
  }

  lemma PairDict(temp: map<int, int>)
    requires temp == map[13 := 2, 7 := 1, 2 := 1, 5 := 1]
    ensures (forall x :: x in temp <==> x in [2, 5, 7, 13]) && !(2 in temp && 14 in temp)
    ensures Counts(temp, [2, 5, 7, 13]) == [1, 1, 1, 2]
  {
  }

  lemma PairList(temp: map<int, int>)
    requires temp == map[13 := 2, 7 := 1, 2 := 1, 5 := 1]
    ensures TieBreakOf(Pair, temp, [13, 7, 5, 2]) == [13, 7, 5, 2]
  {
    assert CountOf(temp, 13) == 2 && CountOf(temp, 7) == 1 && CountOf(temp, 5) == 1 && CountOf(temp, 2) == 1;
    var vals := [13, 7, 5, 2];
    assert vals[1] == 7 && vals[2] == 5 && vals[3] == 2 && vals[1..] == [7, 5, 2];
    GroupedInOrder(temp, vals);
  }

  /** "KC KH 7D 2C 5S" is a Pair of kings with kickers 7, 5, 2. */
  lemma PairExample()
    ensures Evaluate([Card(13, Clubs), Card(13, Hearts), Card(7, Diamonds), Card(2, Clubs), Card(5, Spades)])
      == Some(Evaluation(Pair, [13, 7, 5, 2]))
  {
    var cards := [Card(13, Clubs), Card(13, Hearts), Card(7, Diamonds), Card(2, Clubs), Card(5, Spades)];
    var temp := map[13 := 2, 7 := 1, 2 := 1, 5 := 1];
    PairMap();
    PairLists();
    PairDict(temp);
    PairList(temp);
    EvaluateFrom(cards, temp, [2, 5, 7, 13], [1, 1, 1, 2], [13, 7, 5, 2], false, Pair);
  }

  // "KC KH 7D 7C 5S" (TwoPairs): kings and sevens, then 5.

  lemma TwoPairsMap()
    ensures CountMap([Card(13, Clubs), Card(13, Hearts), Card(7, Diamonds), Card(7, Clubs), Card(5, Spades)])
      == map[13 := 2, 7 := 2, 5 := 1]
  {
    CountMapFive([Card(13, Clubs), Card(13, Hearts), Card(7, Diamonds), Card(7, Clubs), Card(5, Spades)]);
  }

  lemma TwoPairsLists()
    ensures Ascending([5, 7, 13]) && Sorted([1, 2, 2]) && Reverse([5, 7, 13]) == [13, 7, 5]
    ensures ScanKeys([5, 7, 13]) == Some(false)
    ensures Classify(Reverse([1, 2, 2]), false, false, 5) == TwoPairs
  {
    assert Reverse([1, 2, 2]) == [2, 2, 1];
  }

  lemma TwoPairsDict(temp: map<int, int>)
    requires temp == map[13 := 2, 7 := 2, 5 := 1]
    ensures (forall x :: x in temp <==> x in [5, 7, 13]) && !(2 in temp && 14 in temp)
    ensures Counts(temp, [5, 7, 13]) == [1, 2, 2]
  {
  }

  lemma TwoPairsCounted(temp: map<int, int>)
    requires temp == map[13 := 2, 7 := 2, 5 := 1]
    ensures WithCount(temp, [13, 7, 5], 2) == [13, 7] && WithCount(temp, [13, 7, 5], 1) == [5]
  {
    assert [13, 7][..1] == [13] && [13, 7, 5][..2] == [13, 7];
    assert WithCount(temp, [13], 1) == WithCount(temp, [13][..0], 1);
    assert WithCount(temp, [13], 2) == [13] && WithCount(temp, [13], 1) == [];
    assert WithCount(temp, [13, 7], 2) == [13, 7] && WithCount(temp, [13, 7], 1) == [];
  }

  lemma TwoPairsList(temp: map<int, int>)
    requires temp == map[13 := 2, 7 := 2, 5 := 1]
    ensures TieBreakOf(TwoPairs, temp, [13, 7, 5]) == [13, 7, 5]
  {
    TwoPairsCounted(temp);
    SortDescending([13, 7]);
  }

  /** "KC KH 7D 7C 5S" is TwoPairs: kings over sevens, then the 5. */
  lemma TwoPairsExample()
    ensures Evaluate([Card(13, Clubs), Card(13, Hearts), Card(7, Diamonds), Card(7, Clubs), Card(5, Spades)])
      == Some(Evaluation(TwoPairs, [13, 7, 5]))
  {
    var cards := [Card(13, Clubs), Card(13, Hearts), Card(7, Diamonds), Card(7, Clubs), Card(5, Spades)];
    var temp := map[13 := 2, 7 := 2, 5 := 1];
    TwoPairsMap();
    TwoPairsLists();
    TwoPairsDict(temp);
    TwoPairsList(temp);
    EvaluateFrom(cards, temp, [5, 7, 13], [1, 2, 2], [13, 7, 5], false, TwoPairs);
  }

  // "KC KH KD 7C 5S" (ThreeOfAKind): three kings, then 7 and 5.

  lemma ThreeOfAKindMap()
    ensures CountMap([Card(13, Clubs), Card(13, Hearts), Card(13, Diamonds), Card(7, Clubs), Card(5, Spades)])
      == map[13 := 3, 7 := 1, 5 := 1]
  {
    CountMapFive([Card(13, Clubs), Card(13, Hearts), Card(13, Diamonds), Card(7, Clubs), Card(5, Spades)]);
  }

  lemma ThreeOfAKindLists()
    ensures Ascending([5, 7, 13]) && Sorted([1, 1, 3]) && Reverse([5, 7, 13]) == [13, 7, 5]
    ensures ScanKeys([5, 7, 13]) == Some(false)
    ensures Classify(Reverse([1, 1, 3]), false, false, 5) == ThreeOfAKind
  {
    assert Reverse([1, 1, 3]) == [3, 1, 1];
  }

  lemma ThreeOfAKindDict(temp: map<int, int>)
    requires temp == map[13 := 3, 7 := 1, 5 := 1]
    ensures (forall x :: x in temp <==> x in [5, 7, 13]) && !(2 in temp && 14 in temp)
    ensures Counts(temp, [5, 7, 13]) == [1, 1, 3]
  {
  }

  lemma ThreeOfAKindList(temp: map<int, int>)
    requires temp == map[13 := 3, 7 := 1, 5 := 1]
    ensures TieBreakOf(ThreeOfAKind, temp, [13, 7, 5]) == [13, 7, 5]
  {
    assert CountOf(temp, 13) == 3 && CountOf(temp, 7) == 1 && CountOf(temp, 5) == 1;
    var vals := [13, 7, 5];
    assert vals[1] == 7 && vals[2] == 5 && vals[1..] == [7, 5];
    GroupedInOrder(temp, vals);
  }

  /** "KC KH KD 7C 5S" is ThreeOfAKind: the kings, then the kickers 7 and 5. */
  lemma ThreeOfAKindExample()
    ensures Evaluate([Card(13, Clubs), Card(13, Hearts), Card(13, Diamonds), Card(7, Clubs), Card(5, Spades)])
      == Some(Evaluation(ThreeOfAKind, [13, 7, 5]))
  {
    var cards := [Card(13, Clubs), Card(13, Hearts), Card(13, Diamonds), Card(7, Clubs), Card(5, Spades)];
    var temp := map[13 := 3, 7 := 1, 5 := 1];
    ThreeOfAKindMap();
    ThreeOfAKindLists();
    ThreeOfAKindDict(temp);
    ThreeOfAKindList(temp);
    EvaluateFrom(cards, temp, [5, 7, 13], [1, 1, 3], [13, 7, 5], false, ThreeOfAKind);
  }

  // "3C 4H 5D 6C 7S" (Straight): five values in a row, of mixed suits.

  lemma StraightMap()
    ensures CountMap([Card(3, Clubs), Card(4, Hearts), Card(5, Diamonds), Card(6, Clubs), Card(7, Spades)])
      == map[3 := 1, 4 := 1, 5 := 1, 6 := 1, 7 := 1]
    ensures !SameSuit([Card(3, Clubs), Card(4, Hearts), Card(5, Diamonds), Card(6, Clubs), Card(7, Spades)])
  {
    var cards := [Card(3, Clubs), Card(4, Hearts), Card(5, Diamonds), Card(6, Clubs), Card(7, Spades)];
    CountMapFive(cards);
    assert cards[1].suit != cards[0].suit;
  }

  lemma StraightLists()
    ensures Ascending([3, 4, 5, 6, 7]) && Reverse([3, 4, 5, 6, 7]) == [7, 6, 5, 4, 3]
    ensures IsStraight([3, 4, 5, 6, 7]) && Classify([1, 1, 1, 1, 1], true, false, 3) == Straight
  {
  }

  lemma StraightDict(temp: map<int, int>)
    requires temp == map[3 := 1, 4 := 1, 5 := 1, 6 := 1, 7 := 1]
    ensures forall x :: x in temp <==> x in [3, 4, 5, 6, 7]
    ensures TieBreakOf(Straight, temp, [7, 6, 5, 4, 3]) == [7]
  {
  }

  /** "3C 4H 5D 6C 7S" is a Straight to the 7. */
  lemma StraightExample()
    ensures Evaluate([Card(3, Clubs), Card(4, Hearts), Card(5, Diamonds), Card(6, Clubs), Card(7, Spades)])
      == Some(Evaluation(Straight, [7]))
  {
    var cards := [Card(3, Clubs), Card(4, Hearts), Card(5, Diamonds), Card(6, Clubs), Card(7, Spades)];
    var temp := map[3 := 1, 4 := 1, 5 := 1, 6 := 1, 7 := 1];
    StraightMap();
    StraightLists();
    StraightDict(temp);
    EvaluateDistinct(cards, temp, [3, 4, 5, 6, 7], [7, 6, 5, 4, 3], true, false, Straight);
  }

  // "2C 3H 4D 5C AS" (Straight): the wheel, whose tie-break key is the ace, 14.

  lemma WheelMap()
    ensures CountMap([Card(2, Clubs), Card(3, Hearts), Card(4, Diamonds), Card(5, Clubs), Card(14, Spades)])
      == map[2 := 1, 3 := 1, 4 := 1, 5 := 1, 14 := 1]
    ensures !SameSuit([Card(2, Clubs), Card(3, Hearts), Card(4, Diamonds), Card(5, Clubs), Card(14, Spades)])
  {
    var cards := [Card(2, Clubs), Card(3, Hearts), Card(4, Diamonds), Card(5, Clubs), Card(14, Spades)];
    CountMapFive(cards);
    assert cards[1].suit != cards[0].suit;
  }

  lemma WheelLists()
    ensures Ascending([2, 3, 4, 5, 14]) && Reverse([2, 3, 4, 5, 14]) == [14, 5, 4, 3, 2]
    ensures IsStraight([2, 3, 4, 5, 14]) && Classify([1, 1, 1, 1, 1], true, false, 2) == Straight
  {
  }

  lemma WheelDict(temp: map<int, int>)
    requires temp == map[2 := 1, 3 := 1, 4 := 1, 5 := 1, 14 := 1]
    ensures forall x :: x in temp <==> x in [2, 3, 4, 5, 14]
    ensures TieBreakOf(Straight, temp, [14, 5, 4, 3, 2]) == [14]
  {
  }

  /** "2C 3H 4D 5C AS" is a Straight (the ace plays low), and its tie-break list is [14]. */
  lemma WheelExample()
    ensures Evaluate([Card(2, Clubs), Card(3, Hearts), Card(4, Diamonds), Card(5, Clubs), Card(14, Spades)])
      == Some(Evaluation(Straight, [14]))
  {
    var cards := [Card(2, Clubs), Card(3, Hearts), Card(4, Diamonds), Card(5, Clubs), Card(14, Spades)];
    var temp := map[2 := 1, 3 := 1, 4 := 1, 5 := 1, 14 := 1];
    WheelMap();
    WheelLists();
    WheelDict(temp);
    EvaluateDistinct(cards, temp, [2, 3, 4, 5, 14], [14, 5, 4, 3, 2], true, false, Straight);
  }

  // "KC QC 9C 8C 2C" (Flush): five clubs, not in a row.

  lemma FlushMap()
    ensures CountMap([Card(13, Clubs), Card(12, Clubs), Card(9, Clubs), Card(8, Clubs), Card(2, Clubs)])
      == map[13 := 1, 12 := 1, 9 := 1, 8 := 1, 2 := 1]
    ensures SameSuit([Card(13, Clubs), Card(12, Clubs), Card(9, Clubs), Card(8, Clubs), Card(2, Clubs)])
  {
    CountMapFive([Card(13, Clubs), Card(12, Clubs), Card(9, Clubs), Card(8, Clubs), Card(2, Clubs)]);
  }

  lemma FlushLists()
    ensures Ascending([2, 8, 9, 12, 13]) && Reverse([2, 8, 9, 12, 13]) == [13, 12, 9, 8, 2]
    ensures !IsStraight([2, 8, 9, 12, 13]) && Classify([1, 1, 1, 1, 1], false, true, 2) == Flush
  {
    assert !Consecutive([2, 8, 9, 12, 13]) by {
      assert [2, 8, 9, 12, 13][1] != [2, 8, 9, 12, 13][0] + 1;
    }
  }

  lemma FlushDict(temp: map<int, int>)
    requires temp == map[13 := 1, 12 := 1, 9 := 1, 8 := 1, 2 := 1]
    ensures forall x :: x in temp <==> x in [2, 8, 9, 12, 13]
    ensures TieBreakOf(Flush, temp, [13, 12, 9, 8, 2]) == [13, 12, 9, 8, 2]
  {
  }

  /** "KC QC 9C 8C 2C" is a Flush, compared card by card from the king down. */
  lemma FlushExample()
    ensures Evaluate([Card(13, Clubs), Card(12, Clubs), Card(9, Clubs), Card(8, Clubs), Card(2, Clubs)])
      == Some(Evaluation(Flush, [13, 12, 9, 8, 2]))
  {
    var cards := [Card(13, Clubs), Card(12, Clubs), Card(9, Clubs), Card(8, Clubs), Card(2, Clubs)];
    var temp := map[13 := 1, 12 := 1, 9 := 1, 8 := 1, 2 := 1];
    FlushMap();
    FlushLists();
    FlushDict(temp);
    EvaluateDistinct(cards, temp, [2, 8, 9, 12, 13], [13, 12, 9, 8, 2], false, true, Flush);
  }

  // "KC KH KD 7C 7S" (FullHouse): three kings and two sevens.

  lemma FullHouseMap()
    ensures CountMap([Card(13, Clubs), Card(13, Hearts), Card(13, Diamonds), Card(7, Clubs), Card(7, Spades)])
      == map[13 := 3, 7 := 2]
  {
    CountMapFive([Card(13, Clubs), Card(13, Hearts), Card(13, Diamonds), Card(7, Clubs), Card(7, Spades)]);
  }

  lemma FullHouseLists()
    ensures Ascending([7, 13]) && Sorted([2, 3]) && Reverse([7, 13]) == [13, 7]
    ensures ScanKeys([7, 13]) == Some(false)
    ensures Classify(Reverse([2, 3]), false, false, 7) == FullHouse
  {
    assert Reverse([2, 3]) == [3, 2];
  }

  lemma FullHouseDict(temp: map<int, int>)
    requires temp == map[13 := 3, 7 := 2]
    ensures (forall x :: x in temp <==> x in [7, 13]) && !(2 in temp && 14 in temp)
    ensures Counts(temp, [7, 13]) == [2, 3]
    ensures TieBreakOf(FullHouse, temp, [13, 7]) == [13, 7]
  {
    assert [13, 7][..1] == [13];
    assert WithCount(temp, [13], 2) == WithCount(temp, [13][..0], 2);
    assert WithCount(temp, [13], 3) == [13] && WithCount(temp, [13], 2) == [];
    assert WithCount(temp, [13, 7], 3) == [13] && WithCount(temp, [13, 7], 2) == [7];
  }

  /** "KC KH KD 7C 7S" is a FullHouse: kings full of sevens. */
  lemma FullHouseExample()
    ensures Evaluate([Card(13, Clubs), Card(13, Hearts), Card(13, Diamonds), Card(7, Clubs), Card(7, Spades)])
      == Some(Evaluation(FullHouse, [13, 7]))
  {
    var cards := [Card(13, Clubs), Card(13, Hearts), Card(13, Diamonds), Card(7, Clubs), Card(7, Spades)];
    var temp := map[13 := 3, 7 := 2];
    FullHouseMap();
    FullHouseLists();
    FullHouseDict(temp);
    EvaluateFrom(cards, temp, [7, 13], [2, 3], [13, 7], false, FullHouse);
  }

  // "KC KH KD KS 5S" (FourOfAKind): four kings and a 5.

  lemma FourOfAKindMap()
    ensures CountMap([Card(13, Clubs), Card(13, Hearts), Card(13, Diamonds), Card(13, Spades), Card(5, Spades)])
      == map[13 := 4, 5 := 1]
  {
    CountMapFive([Card(13, Clubs), Card(13, Hearts), Card(13, Diamonds), Card(13, Spades), Card(5, Spades)]);
  }

  lemma FourOfAKindLists()
    ensures Ascending([5, 13]) && Sorted([1, 4]) && Reverse([5, 13]) == [13, 5]
    ensures ScanKeys([5, 13]) == Some(false)
    ensures Classify(Reverse([1, 4]), false, false, 5) == FourOfAKind
  {
    assert Reverse([1, 4]) == [4, 1];
  }

  lemma FourOfAKindDict(temp: map<int, int>)
    requires temp == map[13 := 4, 5 := 1]
    ensures (forall x :: x in temp <==> x in [5, 13]) && !(2 in temp && 14 in temp)
    ensures Counts(temp, [5, 13]) == [1, 4]
  {
  }

  lemma FourOfAKindList(temp: map<int, int>)
    requires temp == map[13 := 4, 5 := 1]
    ensures TieBreakOf(FourOfAKind, temp, [13, 5]) == [13, 5]
  {
    assert CountOf(temp, 13) == 4 && CountOf(temp, 5) == 1;
    var vals := [13, 5];
    assert vals[1] == 5 && vals[1..] == [5];
    GroupedInOrder(temp, vals);
  }

  /** "KC KH KD KS 5S" is FourOfAKind: the kings, then the 5. */
  lemma FourOfAKindExample()
    ensures Evaluate([Card(13, Clubs), Card(13, Hearts), Card(13, Diamonds), Card(13, Spades), Card(5, Spades)])
      == Some(Evaluation(FourOfAKind, [13, 5]))
  {
    var cards := [Card(13, Clubs), Card(13, Hearts), Card(13, Diamonds), Card(13, Spades), Card(5, Spades)];
    var temp := map[13 := 4, 5 := 1];
    FourOfAKindMap();
    FourOfAKindLists();
    FourOfAKindDict(temp);
    FourOfAKindList(temp);
    EvaluateFrom(cards, temp, [5, 13], [1, 4], [13, 5], false, FourOfAKind);
  }

  // "3C 4C 5C 6C 7C" (StraightFlush): five clubs in a row, lowest 3.

  lemma StraightFlushMap()
    ensures CountMap([Card(3, Clubs), Card(4, Clubs), Card(5, Clubs), Card(6, Clubs), Card(7, Clubs)])
      == map[3 := 1, 4 := 1, 5 := 1, 6 := 1, 7 := 1]
    ensures SameSuit([Card(3, Clubs), Card(4, Clubs), Card(5, Clubs), Card(6, Clubs), Card(7, Clubs)])
  {
    CountMapFive([Card(3, Clubs), Card(4, Clubs), Card(5, Clubs), Card(6, Clubs), Card(7, Clubs)]);
  }

  lemma StraightFlushLists()
    ensures Ascending([3, 4, 5, 6, 7]) && Reverse([3, 4, 5, 6, 7]) == [7, 6, 5, 4, 3]
    ensures IsStraight([3, 4, 5, 6, 7]) && Classify([1, 1, 1, 1, 1], true, true, 3) == StraightFlush
  {
  }

  lemma StraightFlushDict(temp: map<int, int>)
    requires temp == map[3 := 1, 4 := 1, 5 := 1, 6 := 1, 7 := 1]
    ensures forall x :: x in temp <==> x in [3, 4, 5, 6, 7]
    ensures TieBreakOf(StraightFlush, temp, [7, 6, 5, 4, 3]) == [7]
  {
  }

  /** "3C 4C 5C 6C 7C" is a StraightFlush to the 7. */
  lemma StraightFlushExample()
    ensures Evaluate([Card(3, Clubs), Card(4, Clubs), Card(5, Clubs), Card(6, Clubs), Card(7, Clubs)])
      == Some(Evaluation(StraightFlush, [7]))
  {
    var cards := [Card(3, Clubs), Card(4, Clubs), Card(5, Clubs), Card(6, Clubs), Card(7, Clubs)];
    var temp := map[3 := 1, 4 := 1, 5 := 1, 6 := 1, 7 := 1];
    StraightFlushMap();
    StraightFlushLists();
    StraightFlushDict(temp);
    EvaluateDistinct(cards, temp, [3, 4, 5, 6, 7], [7, 6, 5, 4, 3], true, true, StraightFlush);
  }

  // "TH JH QH KH AH" (RoyalFlush): ten to ace, all hearts.

  lemma RoyalFlushMap()
    ensures CountMap([Card(10, Hearts), Card(11, Hearts), Card(12, Hearts), Card(13, Hearts), Card(14, Hearts)])
      == map[10 := 1, 11 := 1, 12 := 1, 13 := 1, 14 := 1]
    ensures SameSuit([Card(10, Hearts), Card(11, Hearts), Card(12, Hearts), Card(13, Hearts), Card(14, Hearts)])
  {
    CountMapFive([Card(10, Hearts), Card(11, Hearts), Card(12, Hearts), Card(13, Hearts), Card(14, Hearts)]);
  }

  lemma RoyalFlushLists()
    ensures Ascending([10, 11, 12, 13, 14]) && Reverse([10, 11, 12, 13, 14]) == [14, 13, 12, 11, 10]
    ensures IsStraight([10, 11, 12, 13, 14]) && Classify([1, 1, 1, 1, 1], true, true, 10) == RoyalFlush
  {
  }

  lemma RoyalFlushDict(temp: map<int, int>)
    requires temp == map[10 := 1, 11 := 1, 12 := 1, 13 := 1, 14 := 1]
    ensures forall x :: x in temp <==> x in [10, 11, 12, 13, 14]
    ensures TieBreakOf(RoyalFlush, temp, [14, 13, 12, 11, 10]) == [14]
  {
  }

  /** "TH JH QH KH AH" is a RoyalFlush, with the ace as its tie-break key. */
  lemma RoyalFlushExample()
    ensures Evaluate([Card(10, Hearts), Card(11, Hearts), Card(12, Hearts), Card(13, Hearts), Card(14, Hearts)])
      == Some(Evaluation(RoyalFlush, [14]))
  {
    var cards := [Card(10, Hearts), Card(11, Hearts), Card(12, Hearts), Card(13, Hearts), Card(14, Hearts)];
    var temp := map[10 := 1, 11 := 1, 12 := 1, 13 := 1, 14 := 1];
    RoyalFlushMap();
    RoyalFlushLists();
    RoyalFlushDict(temp);
    EvaluateDistinct(cards, temp, [10, 11, 12, 13, 14], [14, 13, 12, 11, 10], true, true, RoyalFlush);
  }

  // "2C 2H 3D 4C 5S": four distinct values in a row, so the straight test reads past the end.

  lemma OutOfRangeMap()
    ensures CountMap([Card(2, Clubs), Card(2, Hearts), Card(3, Diamonds), Card(4, Clubs), Card(5, Spades)])
      == map[2 := 2, 3 := 1, 4 := 1, 5 := 1]
  {
    CountMapFive([Card(2, Clubs), Card(2, Hearts), Card(3, Diamonds), Card(4, Clubs), Card(5, Spades)]);
  }

  lemma OutOfRangeDict(temp: map<int, int>)
    requires temp == map[2 := 2, 3 := 1, 4 := 1, 5 := 1]
    ensures forall x :: x in temp <==> x in [2, 3, 4, 5]
    ensures !(2 in temp && 14 in temp)
  {
  }

  /** "2C 2H 3D 4C 5S" has no evaluation: FindStraight throws on it. */
  lemma OutOfRangeExample()
    ensures Evaluate([Card(2, Clubs), Card(2, Hearts), Card(3, Diamonds), Card(4, Clubs), Card(5, Spades)]) == None
  {
    var cards := [Card(2, Clubs), Card(2, Hearts), Card(3, Diamonds), Card(4, Clubs), Card(5, Spades)];
    var temp := map[2 := 2, 3 := 1, 4 := 1, 5 := 1];
    OutOfRangeMap();
    assert Ascending([2, 3, 4, 5]) && ScanKeys([2, 3, 4, 5]) == None;
    OutOfRangeDict(temp);
    EvaluateFails(cards, temp, [2, 3, 4, 5]);
  }

  // "AD 4D 8D KS 2H" (HighCard): the second hand of a comparison with "AC 4H 7D KC 2S".

  lemma OtherHighCardMap()
    ensures CountMap([Card(14, Diamonds), Card(4, Diamonds), Card(8, Diamonds), Card(13, Spades), Card(2, Hearts)])
      == map[14 := 1, 4 := 1, 8 := 1, 13 := 1, 2 := 1]
    ensures !SameSuit([Card(14, Diamonds), Card(4, Diamonds), Card(8, Diamonds), Card(13, Spades), Card(2, Hearts)])
  {
    var cards := [Card(14, Diamonds), Card(4, Diamonds), Card(8, Diamonds), Card(13, Spades), Card(2, Hearts)];
    CountMapFive(cards);
    assert cards[3].suit != cards[0].suit;
  }

  lemma OtherHighCardLists()
    ensures Ascending([2, 4, 8, 13, 14]) && Reverse([2, 4, 8, 13, 14]) == [14, 13, 8, 4, 2]
    ensures !IsStraight([2, 4, 8, 13, 14]) && Classify([1, 1, 1, 1, 1], false, false, 2) == HighCard
  {
    assert !Consecutive([2, 4, 8, 13, 14]) by {
      assert [2, 4, 8, 13, 14][1] != [2, 4, 8, 13, 14][0] + 1;
    }
  }

  lemma OtherHighCardDict(temp: map<int, int>)
    requires temp == map[14 := 1, 4 := 1, 8 := 1, 13 := 1, 2 := 1]
    ensures forall x :: x in temp <==> x in [2, 4, 8, 13, 14]
    ensures TieBreakOf(HighCard, temp, [14, 13, 8, 4, 2]) == [14, 13, 8, 4, 2]
  {
  }

  /** "AD 4D 8D KS 2H" is a HighCard hand with list 14, 13, 8, 4, 2. */
  lemma OtherHighCardExample()
    ensures Evaluate([Card(14, Diamonds), Card(4, Diamonds), Card(8, Diamonds), Card(13, Spades), Card(2, Hearts)])
      == Some(Evaluation(HighCard, [14, 13, 8, 4, 2]))
  {
    var cards := [Card(14, Diamonds), Card(4, Diamonds), Card(8, Diamonds), Card(13, Spades), Card(2, Hearts)];
    var temp := map[14 := 1, 4 := 1, 8 := 1, 13 := 1, 2 := 1];
    OtherHighCardMap();
    OtherHighCardLists();
    OtherHighCardDict(temp);
    EvaluateDistinct(cards, temp, [2, 4, 8, 13, 14], [14, 13, 8, 4, 2], false, false, HighCard);
  }

  // "TD JD QD KD AD" (RoyalFlush): ten to ace, all diamonds.

  lemma OtherRoyalFlushMap()
    ensures CountMap([Card(10, Diamonds), Card(11, Diamonds), Card(12, Diamonds), Card(13, Diamonds), Card(14, Diamonds)])
      == map[10 := 1, 11 := 1, 12 := 1, 13 := 1, 14 := 1]
    ensures SameSuit([Card(10, Diamonds), Card(11, Diamonds), Card(12, Diamonds), Card(13, Diamonds), Card(14, Diamonds)])
  {
    CountMapFive([Card(10, Diamonds), Card(11, Diamonds), Card(12, Diamonds), Card(13, Diamonds), Card(14, Diamonds)]);
  }

  /** "TD JD QD KD AD" is a RoyalFlush with list 14. */
  lemma OtherRoyalFlushExample()
    ensures Evaluate([Card(10, Diamonds), Card(11, Diamonds), Card(12, Diamonds), Card(13, Diamonds), Card(14, Diamonds)])
      == Some(Evaluation(RoyalFlush, [14]))
  {
    var cards := [Card(10, Diamonds), Card(11, Diamonds), Card(12, Diamonds), Card(13, Diamonds), Card(14, Diamonds)];
    var temp := map[10 := 1, 11 := 1, 12 := 1, 13 := 1, 14 := 1];
    OtherRoyalFlushMap();
    RoyalFlushLists();
    RoyalFlushDict(temp);
    EvaluateDistinct(cards, temp, [10, 11, 12, 13, 14], [14, 13, 12, 11, 10], true, true, RoyalFlush);
  }

  /** The lists 14, 13, 7, 4, 2 and 14, 13, 8, 4, 2 first differ at index 2, where 7 < 8. */
  lemma HighCardListsLose()
    ensures Compare(HighCard, [14, 13, 7, 4, 2], HighCard, [14, 13, 8, 4, 2]) == Loss
  {
    var a, b := [14, 13, 7, 4, 2], [14, 13, 8, 4, 2];
    assert a[1..] == [13, 7, 4, 2] && b[1..] == [13, 8, 4, 2];
    assert a[1..][1..] == [7, 4, 2] && b[1..][1..] == [8, 4, 2];
    assert Lex([7, 4, 2], [8, 4, 2]) == Loss;
  }

  /**
   * GetResult of "AC 4H 7D KC 2S" against "AD 4D 8D KS 2H": both are HighCard, the lists
   * agree on 14 and 13 and then 7 is below 8, so the first hand loses.
   */
  lemma HighCardLoses()
    ensures Evaluate([Card(14, Clubs), Card(4, Hearts), Card(7, Diamonds), Card(13, Clubs), Card(2, Spades)])
      == Some(Evaluation(HighCard, [14, 13, 7, 4, 2]))
    ensures Evaluate([Card(14, Diamonds), Card(4, Diamonds), Card(8, Diamonds), Card(13, Spades), Card(2, Hearts)])
      == Some(Evaluation(HighCard, [14, 13, 8, 4, 2]))
    ensures Compare(HighCard, [14, 13, 7, 4, 2], HighCard, [14, 13, 8, 4, 2]) == Loss
  {
    HighCardExample();
    OtherHighCardExample();
    HighCardListsLose();
  }

  /** GetResult of "TH JH QH KH AH" against "TD JD QD KD AD": two royal flushes draw. */
  lemma RoyalFlushesDraw()
    ensures Evaluate([Card(10, Hearts), Card(11, Hearts), Card(12, Hearts), Card(13, Hearts), Card(14, Hearts)])
      == Some(Evaluation(RoyalFlush, [14]))
    ensures Evaluate([Card(10, Diamonds), Card(11, Diamonds), Card(12, Diamonds), Card(13, Diamonds), Card(14, Diamonds)])
      == Some(Evaluation(RoyalFlush, [14]))
    ensures Compare(RoyalFlush, [14], RoyalFlush, [14]) == Draw
  {
    RoyalFlushExample();
    OtherRoyalFlushExample();
  }
}
