/**
 * What Poker/Hand.cs computes for a list of cards, as functions: the value-to-count
 * dictionary and the same-suit flag of EvaluateHand, the straight test of FindStraight,
 * the rank GetRank assigns and the tie-break list FillValues builds. The Hand class
 * (hand.dfy) computes the same things step by step and is proved equal to these.
 *
 * The source reads the dictionary's keys and values in enumeration order and sorts them
 * before every use; the functions here use the ascending key list, and the methods show
 * that any enumeration order gives the same results.
 */
module Evaluation {
  import opened Wrappers
  import opened Lists
  import opened Cards

  /** The Ranks enum. */
  datatype Rank =
    | Error | NotSet
    | HighCard | Pair | TwoPairs | ThreeOfAKind | Straight
    | Flush | FullHouse | FourOfAKind | StraightFlush | RoyalFlush

  /** The integer each rank stands for; GetResult compares ranks by it. */
  function Ordinal(r: Rank): int
  {
    match r
    case Error => -1
    case NotSet => 0
    case HighCard => 1
    case Pair => 2
    case TwoPairs => 3
    case ThreeOfAKind => 4
    case Straight => 5
    case Flush => 6
    case FullHouse => 7
    case FourOfAKind => 8
    case StraightFlush => 9
    case RoyalFlush => 10
  }

  /** The values of the cards, in card order. */
  function Values(cards: seq<Card>): seq<int>
  {
    seq(|cards|, i requires 0 <= i < |cards| => cards[i].value)
  }

  /** The dictionary EvaluateHand builds: each value that occurs, mapped to how many cards have it. */
  function Tally(bag: multiset<int>): map<int, int>
  {
    map v | v in bag :: bag[v]
  }

  /**
   * The value-to-count dictionary of a list of cards, built card by card as EvaluateHand
   * does: a value not yet present enters with count 0, then its count goes up by one.
   */
  function CountMap(cards: seq<Card>): map<int, int>
  {
    if cards == [] then map[]
    else
      var m := CountMap(cards[..|cards| - 1]);
      var v := cards[|cards| - 1].value;
      m[v := CountOf(m, v) + 1]
  }

  /** The sameSuit flag of EvaluateHand: every card has the suit of the first. */
  predicate SameSuit(cards: seq<Card>)
  {
    forall i :: 0 <= i < |cards| ==> cards[i].suit == cards[0].suit
  }

  function CountOf(temp: map<int, int>, v: int): int
  {
    if v in temp then temp[v] else 0
  }

  /** The counts of the keys ks, in the order of ks (temp.Values.ToList() when ks is the key order). */
  function Counts(temp: map<int, int>, ks: seq<int>): seq<int>
  {
    seq(|ks|, i requires 0 <= i < |ks| => CountOf(temp, ks[i]))
  }

  /** Some list holding exactly the elements of b. */
  ghost function Enumerate(b: multiset<int>): (r: seq<int>)
    ensures multiset(r) == b
    decreases |b|
  {
    if b == multiset{} then []
    else
      HasElement(b);
      var x :| x in b;
      [x] + Enumerate(b - multiset{x})
  }

  /** Every bag can be listed in non-decreasing order. */
  lemma SortedBagExists(b: multiset<int>)
    ensures exists r :: Sorted(r) && multiset(r) == b
  {
    var r := Sort(Enumerate(b));
    assert Sorted(r) && multiset(r) == b;
  }

  /** The elements of b in non-decreasing order: what sorting any list holding exactly b gives. */
  ghost function SortedBag(b: multiset<int>): (r: seq<int>)
    ensures Sorted(r) && multiset(r) == b
  {
    SortedBagExists(b);
    var r :| Sorted(r) && multiset(r) == b;
    r
  }

  /** Sorting any list holding b gives SortedBag(b), whatever order the list was in. */
  lemma SortListing(s: seq<int>, b: multiset<int>)
    requires multiset(s) == b
    ensures Sort(s) == SortedBag(b)
  {
    SortedUnique(Sort(s), SortedBag(b));
  }

  /** temp.Keys.ToList() after Sort(): the keys, strictly ascending. */
  ghost function Keys(temp: map<int, int>): (r: seq<int>)
    ensures Ascending(r) && multiset(r) == multiset(temp.Keys)
    ensures |r| == |temp|
  {
    var r := SortedBag(multiset(temp.Keys));
    AscendingIfNoRepeats(r);
    assert |r| == |multiset(r)| == |multiset(temp.Keys)| == |temp.Keys|;
    r
  }

  /** `vals` in FillValues: the keys, strictly descending. */
  ghost function DescKeys(temp: map<int, int>): seq<int>
  {
    Reverse(Keys(temp))
  }

  /**
   * The count profile GetRank switches on: the counts sorted descending. The source joins
   * them into a string ("2111"); the list is kept here.
   */
  ghost function Profile(temp: map<int, int>): seq<int>
  {
    Reverse(Sort(Counts(temp, DescKeys(temp))))
  }

  /** FindStraight's rewrite of the key list: when 2 and 14 both occur, 14 is removed and 1 added. */
  function AceLow(keys: multiset<int>): multiset<int>
  {
    if 2 in keys && 14 in keys then keys - multiset{14} + multiset{1} else keys
  }

  /** The key list FindStraight scans: the rewritten keys, sorted. */
  ghost function StraightKeys(temp: map<int, int>): seq<int>
  {
    SortedBag(AceLow(multiset(temp.Keys)))
  }

  /**
   * The loop of FindStraight from index ix on: each key must be one more than the one
   * before it, up to index 4. None where the loop reads past the end of the list, which
   * throws in the source.
   */
  function Scan(keys: seq<int>, ix: nat): Option<bool>
    requires 0 < ix <= 5
    decreases 5 - ix
  {
    if ix == 5 then Some(true)
    else if ix >= |keys| then None
    else if keys[ix] != keys[ix - 1] + 1 then Some(false)
    else Scan(keys, ix + 1)
  }

  /** FindStraight on a sorted key list: reading keys[0] of an empty list also throws. */
  function ScanKeys(keys: seq<int>): Option<bool>
  {
    if keys == [] then None else Scan(keys, 1)
  }

  /** What FindStraight returns for a dictionary, or None where it throws. */
  ghost function StraightOf(temp: map<int, int>): Option<bool>
  {
    ScanKeys(StraightKeys(temp))
  }

  /**
   * The rank GetRank assigns for a count profile, the straight flag, the same-suit flag
   * and the smallest key (before the ace-low rewrite).
   */
  function Classify(profile: seq<int>, straight: bool, sameSuit: bool, lowest: int): Rank
  {
    if profile == [1, 1, 1, 1, 1] then
      if straight && sameSuit then (if lowest == 10 then RoyalFlush else StraightFlush)
      else if straight then Straight
      else if sameSuit then Flush
      else HighCard
    else if profile == [2, 1, 1, 1] then Pair
    else if profile == [2, 2, 1] then TwoPairs
    else if profile == [3, 1, 1] then ThreeOfAKind
    else if profile == [3, 2] then FullHouse
    else if profile == [4, 1] then FourOfAKind
    else Error
  }

  /** The elements of s whose count is c, in the order of s. */
  function WithCount(temp: map<int, int>, s: seq<int>, c: int): seq<int>
  {
    if s == [] then []
    else
      var init := WithCount(temp, s[..|s| - 1], c);
      if CountOf(temp, s[|s| - 1]) == c then init + [s[|s| - 1]] else init
  }

  /** The elements of s whose count is not c, in the order of s. */
  function WithoutCount(temp: map<int, int>, s: seq<int>, c: int): seq<int>
  {
    if s == [] then []
    else
      var init := WithoutCount(temp, s[..|s| - 1], c);
      if CountOf(temp, s[|s| - 1]) != c then init + [s[|s| - 1]] else init
  }

  /** Pair, ThreeOfAKind and FourOfAKind: the keys not counted once, then the keys counted once. */
  function GroupedValues(temp: map<int, int>, vals: seq<int>): seq<int>
  {
    WithoutCount(temp, vals, 1) + WithCount(temp, vals, 1)
  }

  /** FullHouse: the keys counted three times, then the keys counted twice. */
  function FullHouseValues(temp: map<int, int>, vals: seq<int>): seq<int>
  {
    WithCount(temp, vals, 3) + WithCount(temp, vals, 2)
  }

  /** TwoPairs: the keys counted twice, sorted and reversed, then the keys counted once. */
  function TwoPairsValues(temp: map<int, int>, vals: seq<int>): seq<int>
  {
    Reverse(Sort(WithCount(temp, vals, 2))) + WithCount(temp, vals, 1)
  }

  /** The tie-break list FillValues builds for a rank from the descending key list vals. */
  function TieBreakOf(rank: Rank, temp: map<int, int>, vals: seq<int>): seq<int>
    requires |vals| > 0
  {
    match rank
    case HighCard | Flush => vals
    case Pair | ThreeOfAKind | FourOfAKind => GroupedValues(temp, vals)
    case Straight | StraightFlush | RoyalFlush => [vals[0]]
    case FullHouse => FullHouseValues(temp, vals)
    case TwoPairs => TwoPairsValues(temp, vals)
    case _ => []
  }

  /** The tie-break list FillValues builds for a rank. */
  ghost function TieBreak(rank: Rank, temp: map<int, int>): seq<int>
    requires |temp| > 0
  {
    TieBreakOf(rank, temp, DescKeys(temp))
  }

  /** The rank and the tie-break list of a hand. */
  datatype Evaluation = Evaluation(rank: Rank, values: seq<int>)

  /** GetRank followed by FillValues, or None where FindStraight throws. */
  ghost function EvaluateCounts(temp: map<int, int>, sameSuit: bool): Option<Evaluation>
    requires |temp| > 0
  {
    match StraightOf(temp)
    case None => None
    case Some(straight) =>
      var rank := Classify(Profile(temp), straight, sameSuit, Keys(temp)[0]);
      Some(Evaluation(rank, TieBreak(rank, temp)))
  }

  /** EvaluateHand on a list of cards: rank and tie-break list, or None where it throws. */
  ghost function Evaluate(cards: seq<Card>): Option<Evaluation>
    requires |cards| > 0
  {
    var temp := CountMap(cards);
    assert cards[|cards| - 1].value in temp.Keys;
    EvaluateCounts(temp, SameSuit(cards))
  }
}
