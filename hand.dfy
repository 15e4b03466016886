/**
 * The Hand class of Poker/Hand.cs: a hand text is parsed into cards, the cards are
 * counted into a value-to-count dictionary, and from the dictionary the rank and the
 * tie-break list are filled in. Each method does what the source does step by step and
 * is proved to compute the functions of the Evaluation module.
 *
 * The source's constructor throws on a malformed hand and where FindStraight reads past
 * the end of its key list; Create returns None in those cases. Dictionary keys come
 * out of KeyList in an unspecified order, as they come out of a Dictionary.
 */
module Poker {
  import opened Wrappers
  import opened Lists
  import opened Cards
  import opened Evaluation
  import opened Counting
  import opened Straights
  import opened Ranking
  import opened TieBreaks
  import opened Comparison

  /** temp.Keys.ToList(): the keys of the dictionary, each once, in some order. */
  method KeyList(temp: map<int, int>) returns (keys: seq<int>)
    ensures multiset(keys) == multiset(temp.Keys)
  {
    keys := [];
    var rest := temp.Keys;
    while rest != {}
      invariant rest <= temp.Keys
      invariant multiset(keys) + multiset(rest) == multiset(temp.Keys)
      decreases |rest|
    {
      assert (forall x :: x !in rest) ==> rest == {};
      var k :| k in rest;
      keys := keys + [k];
      rest := rest - {k};
    }
  }

  /** Sorting any listing of the keys gives the ascending key list. */
  lemma SortedKeyList(temp: map<int, int>, keys: seq<int>)
    requires multiset(keys) == multiset(temp.Keys)
    ensures Sort(keys) == Keys(temp)
  {
    SortListing(keys, multiset(temp.Keys));
  }

  /** The counts of any listing of the keys, sorted and reversed, are the profile. */
  lemma ListedProfile(temp: map<int, int>, keys: seq<int>)
    requires multiset(keys) == multiset(temp.Keys)
    ensures Reverse(Sort(Counts(temp, keys))) == Profile(temp)
  {
    ReverseMultiset(Keys(temp));
    CountsPermutation(temp, keys, DescKeys(temp));
    var bag := multiset(Counts(temp, keys));
    SortListing(Counts(temp, keys), bag);
    SortListing(Counts(temp, DescKeys(temp)), bag);
  }

  /**
   * The loop of EvaluateHand: each card's value counted into the dictionary, and each
   * suit compared with the first card's.
   */
  method CountCards(cards: seq<Card>) returns (temp: map<int, int>, sameSuit: bool)
    requires |cards| > 0
    ensures temp == CountMap(cards)
    ensures sameSuit == SameSuit(cards)
  {
    temp := map[];
    sameSuit := true;
    var compareSuit := cards[0].suit;
    var i := 0;
    while i < |cards|
      invariant 0 <= i <= |cards|
      invariant temp == CountMap(cards[..i])
      invariant sameSuit <==> forall k :: 0 <= k < i ==> cards[k].suit == compareSuit
    {
      var c := cards[i];
      assert cards[..i + 1][..i] == cards[..i];
      ghost var before := temp;
      if c.value !in temp {
        temp := temp[c.value := 0];
      }
      temp := temp[c.value := temp[c.value] + 1];
      assert temp == before[c.value := CountOf(before, c.value) + 1];
      if c.suit != compareSuit {
        sameSuit := false;
      }
      i := i + 1;
    }
    assert cards[..i] == cards;
  }

  /** What FillValues leaves when values starts empty is the tie-break list of the rank. */
  lemma FilledFromEmpty(rank: Rank, temp: map<int, int>, values: seq<int>)
    requires |temp| > 0
    requires rank != TwoPairs ==> values == [] + TieBreak(rank, temp)
    requires rank == TwoPairs ==> (values ==
      Reverse(Sort([] + WithCount(temp, DescKeys(temp), 2))) + WithCount(temp, DescKeys(temp), 1))
    ensures values == TieBreak(rank, temp)
  {
    if rank == TwoPairs {
      assert [] + WithCount(temp, DescKeys(temp), 2) == WithCount(temp, DescKeys(temp), 2);
    } else {
      assert [] + TieBreak(rank, temp) == TieBreak(rank, temp);
    }
  }

  /** What an evaluation always satisfies: a list as long as the rank fixes, and Error only off five cards. */
  lemma EvaluationFacts(cards: seq<Card>, e: Evaluation)
    requires |cards| > 0 && Evaluate(cards) == Some(e)
    ensures |e.values| == KeyCount(e.rank)
    ensures e.rank != NotSet && (e.rank == Error <==> |cards| != 5)
  {
    TieBreakLength(cards, e);
    RankErrorIffNotFive(cards);
  }

  /** Evaluate, as EvaluateHand goes about it: the dictionary and the suit flag first, then the rest. */
  lemma EvaluateSteps(cards: seq<Card>, temp: map<int, int>, sameSuit: bool)
    requires |cards| > 0 && temp == CountMap(cards) && sameSuit == SameSuit(cards)
    ensures |temp| > 0 && Evaluate(cards) == EvaluateCounts(temp, sameSuit)
  {
    assert cards[|cards| - 1].value in temp.Keys;
  }

  /** What GetRank and then FillValues leave behind is the evaluation of the dictionary, or FindStraight failed. */
  lemma RatedOutcome(temp: map<int, int>, sameSuit: bool, ok: bool, rank: Rank, values: seq<int>)
    requires ok <==> StraightOf(temp).Some?
    requires ok ==> |temp| > 0 && rank == Classify(Profile(temp), StraightOf(temp).value, sameSuit, Keys(temp)[0])
    requires ok && rank != TwoPairs ==> values == [] + TieBreak(rank, temp)
    requires ok && rank == TwoPairs ==> (values ==
      Reverse(Sort([] + WithCount(temp, DescKeys(temp), 2))) + WithCount(temp, DescKeys(temp), 1))
    ensures ok <==> |temp| > 0 && EvaluateCounts(temp, sameSuit).Some?
    ensures ok ==> EvaluateCounts(temp, sameSuit) == Some(Evaluation(rank, values))
  {
    if ok {
      FilledFromEmpty(rank, temp, values);
    }
  }

  /** The tie-break list of each rank, case by case. */
  lemma TieBreakCases(rank: Rank, temp: map<int, int>)
    requires |temp| > 0
    ensures rank == HighCard || rank == Flush ==> TieBreak(rank, temp) == DescKeys(temp)
    ensures rank == Pair || rank == ThreeOfAKind || rank == FourOfAKind ==>
      TieBreak(rank, temp) == GroupedValues(temp, DescKeys(temp))
    ensures rank == Straight || rank == StraightFlush || rank == RoyalFlush ==>
      TieBreak(rank, temp) == [DescKeys(temp)[0]]
    ensures rank == FullHouse ==> TieBreak(rank, temp) == FullHouseValues(temp, DescKeys(temp))
    ensures rank == Error || rank == NotSet ==> TieBreak(rank, temp) == []
  {
  }

  /** vals in FillValues: the keys listed, sorted and reversed. */
  method DescKeyList(temp: map<int, int>) returns (vals: seq<int>)
    ensures vals == DescKeys(temp)
  {
    vals := KeyList(temp);
    SortedKeyList(temp, vals);
    vals := Sort(vals);
    vals := Reverse(vals);
  }

  /** Every entry of the descending key list is a key of the dictionary. */
  lemma DescKeysIn(temp: map<int, int>)
    ensures forall i :: 0 <= i < |DescKeys(temp)| ==> DescKeys(temp)[i] in temp
  {
    DescKeysFacts(temp);
    forall i | 0 <= i < |DescKeys(temp)|
      ensures DescKeys(temp)[i] in temp
    {
      assert DescKeys(temp)[i] in DescKeys(temp);
    }
  }

  /** The loop of FindStraight: from index 1 to 4, each key one more than the one before. */
  method ScanLoop(keys: seq<int>) returns (r: Option<bool>)
    requires |keys| > 0
    ensures r == Scan(keys, 1)
  {
    var first := keys[0];
    var ix := 1;
    while ix < 5
      invariant 1 <= ix <= 5 && ix - 1 < |keys|
      invariant first == keys[ix - 1]
      invariant Scan(keys, ix) == Scan(keys, 1)
    {
      if ix >= |keys| {
        return None;
      }
      if keys[ix] != first + 1 {
        return Some(false);
      }
      first := keys[ix];
      ix := ix + 1;
    }
    return Some(true);
  }

  /**
   * FindStraight: Some(true) when the (ace-low adjusted) sorted keys start with five
   * consecutive values, Some(false) when a gap is found first, None where the source
   * reads past the end of the key list.
   */
  method FindStraight(temp: map<int, int>) returns (r: Option<bool>)
    ensures r == StraightOf(temp)
  {
    var keys := KeyList(temp);
    if 2 in keys && 14 in keys {
      keys := RemoveFirst(keys, 14);
      keys := keys + [1];
    }
    assert multiset(keys) == AceLow(multiset(temp.Keys));
    SortListing(keys, AceLow(multiset(temp.Keys)));
    keys := Sort(keys);
    if |keys| == 0 {
      return None;
    }
    r := ScanLoop(keys);
  }

  /**
   * The loop of GetResult: position by position along the first list, the first
   * difference decides; the second list is read at the same positions only.
   */
  method CompareValues(mine: seq<int>, theirs: seq<int>) returns (res: Result)
    requires |mine| <= |theirs|
    ensures res == Lex(mine, theirs)
  {
    var ix := 0;
    while ix < |mine|
      invariant 0 <= ix <= |mine|
      invariant mine[..ix] == theirs[..ix]
    {
      if mine[ix] > theirs[ix] {
        LexDecidedAt(mine, theirs, ix);
        return Win;
      } else if mine[ix] < theirs[ix] {
        LexDecidedAt(mine, theirs, ix);
        return Loss;
      }
      assert mine[..ix + 1] == mine[..ix] + [mine[ix]];
      assert theirs[..ix + 1] == theirs[..ix] + [theirs[ix]];
      ix := ix + 1;
    }
    LexDrawPrefix(mine, theirs);
    return Draw;
  }

  class Hand {
    var cards: seq<Card>
    var rank: Rank
    var values: seq<int>

    /**
     * What every constructed hand satisfies: at least one card, and the rank and
     * tie-break list are the evaluation of the cards (so as long as the rank fixes).
     */
    ghost predicate Valid()
      reads this
    {
      && |cards| > 0
      && Evaluate(cards) == Some(Evaluation(rank, values))
      && |values| == KeyCount(rank)
    }

    /** The field initialisers: no cards, rank NotSet, no values. */
    constructor Empty()
      ensures cards == [] && rank == NotSet && values == []
    {
      cards := [];
      rank := NotSet;
      values := [];
    }

    /**
     * The constructor Hand(string): FillCards, then EvaluateHand. None where the source
     * throws: a token that is not a card, or FindStraight reading past its key list.
     */
    static method Create(text: string) returns (h: Option<Hand>)
      ensures h.Some? <==> ParseHand(text).Some? && Evaluate(ParseHand(text).value).Some?
      ensures h.Some? ==> fresh(h.value) && h.value.Valid() && h.value.cards == ParseHand(text).value
      ensures h.Some? ==> h.value.rank != NotSet && (h.value.rank == Error <==> |h.value.cards| != 5)
    {
      var hand := new Hand.Empty();
      var ok := hand.FillCards(text);
      if !ok {
        return None;
      }
      ghost var parsed := hand.cards;
      assert parsed == ParseHand(text).value;
      ok := hand.EvaluateHand();
      assert hand.cards == parsed;
      if !ok {
        return None;
      }
      ghost var e := Evaluation(hand.rank, hand.values);
      EvaluationFacts(parsed, e);
      return Some(hand);
    }

    /**
     * FillCards: one card per space-separated token, appended in order. Fails at the
     * first token without a value code first and a suit code second; the cards of the
     * tokens before it have been added by then.
     */
    method FillCards(text: string) returns (ok: bool)
      modifies this`cards
      ensures ok <==> ParseHand(text).Some?
      ensures ok ==> cards == old(cards) + ParseHand(text).value
      ensures !ok ==> old(cards) <= cards
      ensures !ok ==> exists i :: (0 <= i < |Split(text)| && ParseCard(Split(text)[i]).None?
        && ParseTokens(Split(text)[..i]) == Some(cards[|old(cards)|..]))
    {
      var tokens := Split(text);
      var i := 0;
      while i < |tokens|
        invariant 0 <= i <= |tokens|
        invariant ParseTokens(tokens[..i]).Some?
        invariant cards == old(cards) + ParseTokens(tokens[..i]).value
      {
        var parts := tokens[i];
        assert tokens[..i + 1][..i] == tokens[..i];
        if |parts| < 1 {
          ParseTokensSome(tokens);
          assert cards[|old(cards)|..] == ParseTokens(tokens[..i]).value;
          return false;
        }
        var value := ValueOf(parts[0]);
        if value.None? {
          ParseTokensSome(tokens);
          assert cards[|old(cards)|..] == ParseTokens(tokens[..i]).value;
          return false;
        }
        if |parts| < 2 {
          ParseTokensSome(tokens);
          assert cards[|old(cards)|..] == ParseTokens(tokens[..i]).value;
          return false;
        }
        var suit := SuitOf(parts[1]);
        if suit.None? {
          ParseTokensSome(tokens);
          assert cards[|old(cards)|..] == ParseTokens(tokens[..i]).value;
          return false;
        }
        cards := cards + [Card(value.value, suit.value)];
        i := i + 1;
      }
      assert tokens[..i] == tokens;
      return true;
    }

    /**
     * EvaluateHand: counts each card value into a dictionary and checks every suit
     * against the first card's (CountCards), then GetRank and FillValues (Rate).
     */
    method EvaluateHand() returns (ok: bool)
      requires |cards| > 0 && values == []
      modifies this`rank, this`values
      ensures ok <==> Evaluate(cards).Some?
      ensures ok ==> Evaluate(cards) == Some(Evaluation(rank, values))
    {
      var hand := cards;
      var temp, sameSuit := CountCards(hand);
      ok := Rate(temp, sameSuit);
      EvaluateSteps(hand, temp, sameSuit);
    }

    /**
     * The last two steps of EvaluateHand: GetRank, then FillValues unless FindStraight
     * threw.
     */
    method Rate(temp: map<int, int>, sameSuit: bool) returns (ok: bool)
      requires values == []
      modifies this`rank, this`values
      ensures ok <==> |temp| > 0 && EvaluateCounts(temp, sameSuit).Some?
      ensures ok ==> EvaluateCounts(temp, sameSuit) == Some(Evaluation(rank, values))
    {
      ok := GetRank(temp, sameSuit);
      if ok {
        FillValues(temp);
      }
      RatedOutcome(temp, sameSuit, ok, rank, values);
    }

    /**
     * GetRank: fails where FindStraight does; otherwise sets the rank from the count
     * profile, the straight and same-suit flags and the smallest key, in the source's
     * order of assignments.
     */
    method GetRank(temp: map<int, int>, sameSuit: bool) returns (ok: bool)
      modifies this`rank
      ensures ok <==> StraightOf(temp).Some?
      ensures ok ==> |temp| > 0 && rank == Classify(Profile(temp), StraightOf(temp).value, sameSuit, Keys(temp)[0])
      ensures !ok ==> rank == old(rank)
    {
      var straight := FindStraight(temp);
      if straight.None? {
        return false;
      }
      StraightKeysSize(temp);
      var listed := KeyList(temp);
      var profile := Reverse(Sort(Counts(temp, listed)));
      ListedProfile(temp, listed);
      var keys := KeyList(temp);
      SortedKeyList(temp, keys);
      keys := Sort(keys);
      RankOfProfile(profile, straight.value, sameSuit, keys);
      return true;
    }

    /**
     * The switch of GetRank on the joined profile, with the source's order of
     * assignments in the 11111 case; keys is the sorted key list.
     */
    method RankOfProfile(profile: seq<int>, straight: bool, sameSuit: bool, keys: seq<int>)
      requires |keys| > 0
      modifies this`rank
      ensures rank == Classify(profile, straight, sameSuit, keys[0])
    {
      if profile == [1, 1, 1, 1, 1] {
        rank := HighCard;
        if sameSuit {
          rank := Flush;
        }
        if straight && rank != Flush {
          rank := Straight;
        }
        if straight && sameSuit {
          rank := if keys[0] == 10 then RoyalFlush else StraightFlush;
        }
      } else if profile == [2, 1, 1, 1] {
        rank := Pair;
      } else if profile == [2, 2, 1] {
        rank := TwoPairs;
      } else if profile == [3, 1, 1] {
        rank := ThreeOfAKind;
      } else if profile == [3, 2] {
        rank := FullHouse;
      } else if profile == [4, 1] {
        rank := FourOfAKind;
      } else {
        rank := Error;
      }
    }

    /** foreach (var val in vals) if (temp[val] == c) values.Add(val); */
    method AddWithCount(temp: map<int, int>, vals: seq<int>, c: int)
      requires forall i :: 0 <= i < |vals| ==> vals[i] in temp
      modifies this`values
      ensures values == old(values) + WithCount(temp, vals, c)
    {
      var i := 0;
      while i < |vals|
        invariant 0 <= i <= |vals|
        invariant values == old(values) + WithCount(temp, vals[..i], c)
      {
        assert vals[..i + 1][..i] == vals[..i];
        if temp[vals[i]] == c {
          values := values + [vals[i]];
        }
        i := i + 1;
      }
      assert vals[..i] == vals;
    }

    /** foreach (var val in vals) if (temp[val] != c) values.Add(val); */
    method AddWithoutCount(temp: map<int, int>, vals: seq<int>, c: int)
      requires forall i :: 0 <= i < |vals| ==> vals[i] in temp
      modifies this`values
      ensures values == old(values) + WithoutCount(temp, vals, c)
    {
      var i := 0;
      while i < |vals|
        invariant 0 <= i <= |vals|
        invariant values == old(values) + WithoutCount(temp, vals[..i], c)
      {
        assert vals[..i + 1][..i] == vals[..i];
        if temp[vals[i]] != c {
          values := values + [vals[i]];
        }
        i := i + 1;
      }
      assert vals[..i] == vals;
    }

    /**
     * FillValues: appends the tie-break list of the rank to values. For TwoPairs the
     * source sorts and reverses the whole of values after adding the pairs, so what
     * was there before is sorted in with them.
     */
    method FillValues(temp: map<int, int>)
      requires |temp| > 0
      modifies this`values
      ensures rank != TwoPairs ==> values == old(values) + TieBreak(rank, temp)
      ensures rank == TwoPairs ==> (values ==
        Reverse(Sort(old(values) + WithCount(temp, DescKeys(temp), 2))) + WithCount(temp, DescKeys(temp), 1))
    {
      var vals := DescKeyList(temp);
      DescKeysIn(temp);
      TieBreakCases(rank, temp);
      match rank
      case HighCard | Flush =>
        values := values + vals;
      case Pair | ThreeOfAKind | FourOfAKind =>
        FillGrouped(temp, vals);
      case Straight | StraightFlush | RoyalFlush =>
        values := values + [vals[0]];
      case FullHouse =>
        FillFullHouse(temp, vals);
      case TwoPairs =>
        FillTwoPairs(temp, vals);
      case _ =>
    }

    /** The Pair, ThreeOfAKind and FourOfAKind case of FillValues: the grouped keys, then the single ones. */
    method FillGrouped(temp: map<int, int>, vals: seq<int>)
      requires forall i :: 0 <= i < |vals| ==> vals[i] in temp
      modifies this`values
      ensures values == old(values) + GroupedValues(temp, vals)
    {
      AddWithoutCount(temp, vals, 1);
      AddWithCount(temp, vals, 1);
    }

    /** The FullHouse case of FillValues: the key counted three times, then the one counted twice. */
    method FillFullHouse(temp: map<int, int>, vals: seq<int>)
      requires forall i :: 0 <= i < |vals| ==> vals[i] in temp
      modifies this`values
      ensures values == old(values) + FullHouseValues(temp, vals)
    {
      AddWithCount(temp, vals, 3);
      AddWithCount(temp, vals, 2);
    }

    /** The TwoPairs case of FillValues: the pairs, then the whole list sorted and reversed, then the single key. */
    method FillTwoPairs(temp: map<int, int>, vals: seq<int>)
      requires forall i :: 0 <= i < |vals| ==> vals[i] in temp
      modifies this`values
      ensures values == Reverse(Sort(old(values) + WithCount(temp, vals, 2))) + WithCount(temp, vals, 1)
    {
      AddWithCount(temp, vals, 2);
      values := Sort(values);
      values := Reverse(values);
      AddWithCount(temp, vals, 1);
    }

    /** RankValue: the rank of a hand is never NotSet, and Error exactly without five cards. */
    function RankValue(): (r: Rank)
      reads this
      requires Valid()
      ensures r != NotSet && (r == Error <==> |cards| != 5)
    {
      RankErrorIffNotFive(cards);
      rank
    }

    /**
     * GetResult: a higher rank wins; with equal ranks the first position where the
     * tie-break lists differ decides, and a draw only between equal ranks and lists.
     */
    method GetResult(other: Hand) returns (res: Result)
      requires Valid() && other.Valid()
      ensures res == Compare(rank, values, other.rank, other.values)
      ensures res == Draw <==> rank == other.rank && values == other.values
    {
      CompareDraw(rank, values, other.rank, other.values);
      if Ordinal(rank) > Ordinal(other.rank) {
        return Win;
      }
      if Ordinal(rank) < Ordinal(other.rank) {
        return Loss;
      }
      OrdinalInjective(rank, other.rank);
      res := CompareValues(values, other.values);
    }
  }
}
