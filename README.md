# Poker hand evaluator, modelled in Dafny

A model of `Poker/Hand.cs`, a five-card poker hand evaluator. A `Hand` is built from a
text such as `"KC KH KD 7C 5S"`:

- `FillCards` turns each space-separated token into a `Card` (value 2..14, one of four
  suits) through two lookup tables.
- `EvaluateHand` counts the card values into a value-to-count dictionary and checks
  whether every card has the suit of the first.
- `GetRank` picks one of the ranks `HighCard` .. `RoyalFlush` from the descending count
  profile, the straight test `FindStraight` and the same-suit flag.
- `FillValues` builds the tie-break list of the rank.
- `GetResult` compares two hands: the rank ordinal first, then the tie-break lists
  position by position.

`Hand` is a Dafny class with the source's three fields (`cards`, `rank`, `values`). Its
methods do what the source does step by step, with the same loops, the same order of
assignments and the same in-place sort of `values` for two pairs. Each method is proved
to compute a pure function of module `Evaluation`. The properties of the hand
categories are proved about those functions.

Modules, one concept each:

- `Wrappers` (lists.dfy): the `Option` type.
- `Lists` (lists.dfy): `List<int>.Sort`/`Reverse` as functions on sequences.
- `Cards` (cards.dfy): the tables, tokens, parsing and formatting.
- `Evaluation` (evaluation.dfy): the specification functions.
- `Counting` (counting.dfy): facts about the dictionary.
- `Straights` (straights.dfy): `FindStraight` in closed form.
- `Ranking` (ranking.dfy): the rank table.
- `TieBreaks` (tiebreak.dfy): the tie-break lists.
- `Comparison` (comparison.dfy): `GetResult`.
- `Poker` (hand.dfy): the `Hand` class and its helper methods.
- `HandExamples` (hand_examples.dfy): the hands of `Poker/TestHands.cs`, evaluated.

Hand construction throws in two places, and the model returns `None` in both:

- Parsing fails on an unknown value or suit code, or on a token shorter than two
  characters.
- `FindStraight` reads `keys[ix]` for `ix` up to 4 even when the dictionary has fewer
  than five keys. When those keys are consecutive (after the ace-low rewrite), it reads
  past the end of the list. Examples are `"2C 2H 3D 4C 5S"` and `"KC KH KD QC QS"`.
  The model keeps this read as a failure, so `Hand.Create` returns `None` for such
  hands.

Where the code differs from the textbook rules of the game, the model follows the code:

- The tie-break key of the wheel (ace, 2, 3, 4, 5) is 14, not 5, because `vals[0]` is
  taken from the unrewritten keys.
- The ace is read as 1 whenever a 2 and an ace both occur, not only for the exact values
  {2, 3, 4, 5, ace}. For five distinct values this makes no difference
  (`Straights.StraightOfFive`).
- There is no check on the number of tokens or their length. Characters after the second
  are ignored. Any number of cards is evaluated, and in the model a hand whose
  `FindStraight` completes gets `Error` exactly when it does not have five cards
  (`Ranking.RankErrorIffNotFive`); see the profile collision under "## Left out" for
  the hands with eleven or more cards of one value, where the source differs.

## Model

| member | source | states |
|---|---|---|
| Cards.ParseCard | Poker/Hand.cs:67-68 | a token is read as a card from its first character through the value table and its second through the suit table; None when it is shorter than two characters or either lookup fails |
| Evaluation.Evaluate | Poker/Hand.cs:47-61 | EvaluateHand: the dictionary and the suit flag of the cards, then their evaluation |
| Evaluation.EvaluateCounts | Poker/Hand.cs:59-60 | GetRank followed by FillValues: None where FindStraight throws, otherwise the rank of the profile, straight flag, suit flag and smallest key, with the tie-break list of that rank |
| Evaluation.CountMap | Poker/Hand.cs:49-55 | the dictionary built card by card: a new value enters with 0, then its count goes up by one |
| Evaluation.SameSuit | Poker/Hand.cs:50-56 | every card has the suit of the first card |
| Evaluation.Counts | Poker/Hand.cs:75 | the counts of a list of keys, in the order of the keys |
| Evaluation.DescKeys | Poker/Hand.cs:115-117 | the keys, sorted and reversed |
| Evaluation.Profile | Poker/Hand.cs:75-78 | the counts, sorted and reversed, kept as a list instead of the joined string |
| Evaluation.Classify | Poker/Hand.cs:81-110 | the switch on the profile: 11111 gives HighCard, Flush, Straight, StraightFlush or RoyalFlush by the two flags and whether the smallest key is 10; 2111, 221, 311, 32 and 41 give Pair, TwoPairs, ThreeOfAKind, FullHouse and FourOfAKind; anything else gives Error |
| Evaluation.AceLow | Poker/Hand.cs:151-155 | when the keys hold both 2 and 14, 14 is replaced by 1 |
| Evaluation.StraightKeys | Poker/Hand.cs:150-156 | the rewritten keys, sorted |
| Evaluation.Scan | Poker/Hand.cs:158-166 | from index ix to 4, each key must be one more than the previous one; false at the first that is not, None at the first index past the end of the list |
| Evaluation.ScanKeys | Poker/Hand.cs:157-166 | None for an empty list (keys[0] throws), otherwise the scan from index 1 |
| Evaluation.StraightOf | Poker/Hand.cs:148-167 | FindStraight: the scan of the rewritten, sorted keys |
| Evaluation.WithCount | Poker/Hand.cs:128 | the keys of a list whose count equals c, in list order |
| Evaluation.WithoutCount | Poker/Hand.cs:127 | the keys of a list whose count differs from c, in list order |
| Evaluation.GroupedValues | Poker/Hand.cs:124-129 | the keys not counted once, then the keys counted once |
| Evaluation.FullHouseValues | Poker/Hand.cs:135-138 | the keys counted three times, then the keys counted twice |
| Evaluation.TwoPairsValues | Poker/Hand.cs:139-144 | the keys counted twice, sorted and reversed, then the keys counted once |
| Evaluation.TieBreakOf | Poker/Hand.cs:118-145 | the switch on the rank over a descending key list: all keys for HighCard and Flush, the first key for the three straights, the grouped, full-house and two-pairs lists for their ranks, nothing for Error and NotSet |
| Evaluation.TieBreak | Poker/Hand.cs:113-146 | FillValues on an empty list: the switch over the descending keys |
| Evaluation.Ordinal | Poker/Hand.cs:197-208 | the integer of each Ranks member, -1 for Error up to 10 for RoyalFlush |
| Comparison.Lex | Poker/Hand.cs:175-182 | walks the first list: Win at the first position where it is larger, Loss where smaller, Draw when it ends |
| Comparison.Compare | Poker/Hand.cs:171-183 | GetResult: the larger rank integer wins, the smaller loses, equal ranks go to the list walk |
| Cards.ValueOf | Poker/Hand.cs:20-32 | the value table maps a character exactly when it is one of 2-9, T, J, Q, K, A, to 2..14 in that order |
| Cards.ValueCode | Poker/Hand.cs:20-32 | each card value has exactly one code in the value table |
| Cards.SuitOf | Poker/Hand.cs:34-37 | the suit table maps a character exactly when it is one of H, C, D, S, to the four suits in that order |
| Cards.SuitCode | Poker/Hand.cs:34-37 | each suit has exactly one code in the suit table |
| Cards.Split | Poker/Hand.cs:65 | the text is cut at every single space into at least one space-free token, and joining them back with spaces gives the text |
| Cards.SplitJoin | Poker/Hand.cs:65 | splitting space-free tokens joined by single spaces gives the same tokens back |
| Cards.ParseCardCodes | Poker/Hand.cs:67-68 | a token is a card exactly when it has at least two characters, a value code first and a suit code second; characters after the second are ignored |
| Cards.ParseFormatCard | Poker/Hand.cs:67-68 | the two-character token of any card parses back to that card |
| Cards.ParseTokens | Poker/Hand.cs:65-69 | parsing gives one card per token |
| Cards.ParseTokensSome | Poker/Hand.cs:65-69 | the tokens parse exactly when every one of them is a card |
| Cards.ParseTokensAt | Poker/Hand.cs:65-69 | card k is the card of token k, in token order |
| Cards.ParseHand | Poker/Hand.cs:63-70 | a parsed hand has at least one card |
| Cards.ParseFormatHand | Poker/Hand.cs:63-70 | the text form of any non-empty list of cards parses back to the same cards |
| Poker.Hand.FillCards | Poker/Hand.cs:63-70 | succeeds exactly when the text parses, then appends the parsed cards in order; on failure the cards of the tokens before the first bad one have been appended |
| Poker.Hand.Empty | Poker/Hand.cs:14-16 | a new hand has no cards, rank NotSet and no values |
| Poker.Hand.Create | Poker/Hand.cs:40-45 | a hand is built exactly when the text parses and the evaluation completes; it then holds the parsed cards and their evaluation, its rank is never NotSet, and it is Error exactly when there are not five cards |
| Poker.CountCards | Poker/Hand.cs:49-57 | the loop builds the value-to-count dictionary of the cards and the flag that every suit equals the first card's |
| Poker.Hand.EvaluateHand | Poker/Hand.cs:47-61 | completes exactly when the evaluation of the cards does, and leaves rank and values equal to it |
| Poker.Hand.Rate | Poker/Hand.cs:59-60 | GetRank then FillValues leave the evaluation of the dictionary, and fail exactly where FindStraight throws |
| Counting.CountMapTally | Poker/Hand.cs:52-55 | counting card by card gives each value the number of cards that have it |
| Counting.CountMapKeys | Poker/Hand.cs:52-55 | the keys of the dictionary are exactly the card values, each in 2..14 and counted at least once |
| Counting.CountsOfHand | Poker/Hand.cs:52-55 | the counts of the dictionary are positive and add up to the number of cards |
| Counting.ProfileFacts | Poker/Hand.cs:75-77 | the profile has one entry per distinct value, is non-increasing, positive and adds up to the number of cards |
| Ranking.SameSuitAll | Poker/Hand.cs:50-56 | the suit flag holds exactly when every two cards of the hand have the same suit |
| Poker.KeyList | Poker/Hand.cs:79 | the listed keys are the dictionary's keys, each once, in an unspecified order |
| Poker.SortedKeyList | Poker/Hand.cs:79-80 | sorting any listing of the keys gives the strictly ascending key list |
| Evaluation.Keys | Poker/Hand.cs:79-80 | the sorted key list is strictly ascending and holds every key once |
| Poker.ListedProfile | Poker/Hand.cs:75-77 | the counts of any listing of the keys, sorted and reversed, are the profile |
| Ranking.ProfileIsShape | Poker/Hand.cs:75-77 | the profile is the bag of counts in non-increasing order, whatever the key order |
| Lists.Sort | Poker/Hand.cs:76 | sorting gives a non-decreasing permutation of the list |
| Lists.Reverse | Poker/Hand.cs:77 | reversing mirrors every index |
| Lists.SortedUnique | Poker/Hand.cs:76 | two sorted permutations of each other are equal, so the sort's result does not depend on the input order |
| Lists.RemoveFirst | Poker/Hand.cs:153 | removing drops one occurrence of the element |
| Poker.FindStraight | Poker/Hand.cs:148-167 | the method returns what the straight test of the dictionary gives, or None where it reads past its key list |
| Poker.ScanLoop | Poker/Hand.cs:157-166 | the loop with its running first compares keys 1 to 4 with their predecessors, failing where an index is past the end |
| Straights.ScanKeysResult | Poker/Hand.cs:156-166 | on a sorted key list: true when the first five are consecutive, false when not, and a read past the end when the list is empty or shorter than five and consecutive |
| Straights.StraightKeysSize | Poker/Hand.cs:150-156 | the ace-low rewrite keeps the number of keys |
| Straights.StraightOfFewer | Poker/Hand.cs:157-160 | with fewer than five distinct values the test never gives true, and reads past the end exactly when the rewritten values are consecutive, always for a single value |
| Straights.StraightOfFiveWheel | Poker/Hand.cs:151-155 | with five distinct values including a 2 and an ace, the ace is scanned as 1, so it is a straight exactly for 2, 3, 4, 5, ace |
| Straights.StraightOfFive | Poker/Hand.cs:148-167 | five distinct card values are a straight exactly when they are five consecutive integers or 2, 3, 4, 5, ace |
| Poker.Hand.GetRank | Poker/Hand.cs:72-111 | fails exactly where FindStraight throws; otherwise it sets the rank from the profile, the two flags and the smallest key |
| Poker.Hand.RankOfProfile | Poker/Hand.cs:81-110 | the switch with the source's sequence of assignments in the all-distinct case gives the rank of the rank table |
| Ranking.ClassifyShape | Poker/Hand.cs:81-110 | each rank comes from exactly one profile: the five all-distinct ranks from 11111, Pair from 2111, TwoPairs from 221, ThreeOfAKind from 311, FullHouse from 32, FourOfAKind from 41; NotSet is never assigned |
| Ranking.NamedShapeSum | Poker/Hand.cs:83-104 | every named profile adds up to five and has at least two entries |
| Ranking.Partitions | Poker/Hand.cs:81-109 | the non-increasing positive profiles that add up to five are five of a kind and the six named ones |
| Ranking.ClassifyError | Poker/Hand.cs:107-109 | for a profile with more than one entry, the rank is never NotSet, and it is Error exactly when the counts do not add up to five |
| Ranking.SingleValue | Poker/Hand.cs:157-160 | a hand of a single distinct value always makes the straight test read past the end |
| Ranking.RankErrorIffNotFive | Poker/Hand.cs:72-110 | a completed evaluation is never NotSet, and is Error exactly when the hand does not have five cards, so no five-card hand whose straight test completes is Error |
| Ranking.DistinctRanks | Poker/Hand.cs:83-90 | five distinct values always evaluate, to HighCard, Flush, Straight, StraightFlush or RoyalFlush by the straight and same-suit tests, and to RoyalFlush exactly for a same-suit 10 to ace |
| Ranking.DistinctProfile | Poker/Hand.cs:83 | five cards of five distinct values have profile 11111 |
| Ranking.RoyalKeys | Poker/Hand.cs:89 | a straight whose smallest value is 10 is exactly 10, J, Q, K, A |
| Ranking.EvaluatePermutation | Poker/Hand.cs:47-80 | reordering the cards changes neither the dictionary, nor the suit flag, nor the rank and tie-break list |
| Poker.Hand.FillValues | Poker/Hand.cs:113-146 | appends the tie-break list of the rank; for TwoPairs it sorts in place whatever values held together with the pairs |
| Poker.DescKeyList | Poker/Hand.cs:115-117 | the sorted, reversed key list is the strictly descending key list |
| Poker.DescKeysIn | Poker/Hand.cs:115-117 | every entry of the descending key list is a key of the dictionary |
| Poker.Hand.AddWithCount | Poker/Hand.cs:136-137 | the pass appends the keys with the given count, in list order |
| Poker.Hand.AddWithoutCount | Poker/Hand.cs:127 | the pass appends the keys with a count other than the given one, in list order |
| Poker.Hand.FillGrouped | Poker/Hand.cs:124-129 | Pair, ThreeOfAKind and FourOfAKind append the keys not counted once, then those counted once |
| Poker.Hand.FillFullHouse | Poker/Hand.cs:135-138 | FullHouse appends the key counted three times, then the one counted twice |
| Poker.Hand.FillTwoPairs | Poker/Hand.cs:139-144 | TwoPairs appends the pairs, sorts and reverses the whole list, then appends the single key |
| Counting.DescKeysFacts | Poker/Hand.cs:115-117 | the descending key list is strictly descending and holds every key once |
| Counting.DescKeysMax | Poker/Hand.cs:133 | the first entry of the descending key list is the largest key |
| Counting.WithCountSize | Poker/Hand.cs:136-143 | a pass keeps as many keys as have that count |
| Counting.WithCountMembers | Poker/Hand.cs:136-143 | a pass keeps exactly the keys of the list with that count |
| Counting.WithoutCountMembers | Poker/Hand.cs:127 | the other pass keeps exactly the keys with a different count |
| Counting.PassesDescending | Poker/Hand.cs:127-143 | both passes keep a descending list descending |
| TieBreaks.GroupedPasses | Poker/Hand.cs:127-128 | for one repeated count and singles, the repeated key comes first, then the singles |
| TieBreaks.FullHousePasses | Poker/Hand.cs:136-137 | for FullHouse, the key counted three times comes first, then the key counted twice |
| TieBreaks.TwoPairsPasses | Poker/Hand.cs:140-143 | for TwoPairs, the two pairs come highest first, then the single key |
| TieBreaks.TieBreakLengthOf | Poker/Hand.cs:113-146 | the list has the length fixed by the rank: 5, 4, 3, 3, 1, 5, 2, 2, 1, 1 from HighCard to RoyalFlush |
| TieBreaks.TieBreakLength | Poker/Hand.cs:113-146 | the tie-break list of every completed evaluation has the length fixed by its rank |
| TieBreaks.TieBreakAllValues | Poker/Hand.cs:120-123 | HighCard and Flush list all five distinct values, strictly descending |
| TieBreaks.TieBreakGrouped | Poker/Hand.cs:124-129 | Pair, ThreeOfAKind and FourOfAKind list the repeated value, then every single value strictly descending |
| TieBreaks.TieBreakFullHouse | Poker/Hand.cs:135-138 | FullHouse lists the value held three times, then the value held twice |
| TieBreaks.TieBreakTwoPairs | Poker/Hand.cs:139-144 | TwoPairs lists the higher pair, the lower pair, then the single value |
| TieBreaks.LargestOf | Poker/Hand.cs:130-134 | for Straight, StraightFlush and RoyalFlush the list is the largest key alone |
| TieBreaks.TieBreakStraight | Poker/Hand.cs:130-134 | Straight, StraightFlush and RoyalFlush list the single largest value, 14 for the wheel |
| Comparison.OrdinalInjective | Poker/Hand.cs:197-208 | different ranks stand for different integers |
| Comparison.LexDecidedAt | Poker/Hand.cs:176-181 | the first position where the lists differ decides: Win when the first list is larger there, Loss when smaller |
| Comparison.LexDrawPrefix | Poker/Hand.cs:175-182 | the loop gives Draw exactly when the first list equals the start of the second |
| Comparison.LexFlip | Poker/Hand.cs:175-182 | comparing equal-length lists the other way round swaps Win and Loss |
| Comparison.LexWinTransitive | Poker/Hand.cs:175-182 | wins between equal-length lists chain |
| Comparison.CompareFlip | Poker/Hand.cs:171-183 | swapping the hands swaps Win and Loss (antisymmetry) |
| Comparison.CompareDraw | Poker/Hand.cs:171-183 | the result is Draw exactly when ranks and lists are equal, so a hand drawn against itself is a Draw (reflexivity) |
| Comparison.CompareWinTransitive | Poker/Hand.cs:171-183 | if the first hand beats the second and the second the third, the first beats the third |
| Poker.CompareValues | Poker/Hand.cs:175-182 | the index loop reads the second list only at positions of the first, and returns the position-by-position comparison |
| Poker.Hand.GetResult | Poker/Hand.cs:171-183 | a higher rank ordinal wins and a lower one loses; equal ranks are decided by the lists; Draw exactly for equal rank and list |
| TieBreaks.CompareHands | Poker/Hand.cs:171-183 | between two evaluated hands equal ranks give equal-length lists, so the comparison of the model never reads past the other list; swapping the hands swaps Win and Loss; Draw exactly for equal evaluations |
| TieBreaks.ReorderedDraw | Poker/Hand.cs:171-183 | the same cards in any order evaluate the same and draw |
| Poker.Hand.RankValue | Poker/Hand.cs:169 | the rank of a built hand is never NotSet, and is Error exactly when it does not have five cards |
| HandExamples.KeysOf | Poker/Hand.cs:79-80 | a strictly ascending list holding exactly the keys is the sorted key list |
| HandExamples.ProfileOf | Poker/Hand.cs:75-77 | when the counts do not decrease in key order, the profile is those counts reversed |
| HandExamples.GroupedInOrder | Poker/Hand.cs:124-129 | when only the first key of a list is not counted once, the two passes give that key and then the others, in order |
| HandExamples.EvaluateFrom | Poker/Hand.cs:47-146 | the evaluation of a hand from its keys, counts, straight test and descending keys, when the ace-low rewrite does not apply |
| HandExamples.EvaluateFails | Poker/Hand.cs:148-160 | a hand whose keys make the straight test read past the end has no evaluation |
| HandExamples.EvaluateDistinct | Poker/Hand.cs:83-90 | the evaluation of five distinct values from their keys, the straight test and the same-suit flag |
| HandExamples.HighCardExample | Poker/TestHands.cs:21 | "AC 4H 7D KC 2S" is HighCard with list 14, 13, 7, 4, 2, although the ace is scanned as 1 |
| HandExamples.PairExample | Poker/TestHands.cs:22 | "KC KH 7D 2C 5S" is Pair with list 13, 7, 5, 2 |
| HandExamples.TwoPairsExample | Poker/TestHands.cs:23 | "KC KH 7D 7C 5S" is TwoPairs with list 13, 7, 5 |
| HandExamples.ThreeOfAKindExample | Poker/TestHands.cs:24 | "KC KH KD 7C 5S" is ThreeOfAKind with list 13, 7, 5 |
| HandExamples.StraightExample | Poker/TestHands.cs:25 | "3C 4H 5D 6C 7S" is Straight with list 7 |
| HandExamples.WheelExample | Poker/TestHands.cs:26 | "2C 3H 4D 5C AS" is Straight with list 14 |
| HandExamples.FlushExample | Poker/TestHands.cs:27 | "KC QC 9C 8C 2C" is Flush with list 13, 12, 9, 8, 2 |
| HandExamples.FullHouseExample | Poker/TestHands.cs:28 | "KC KH KD 7C 7S" is FullHouse with list 13, 7 |
| HandExamples.FourOfAKindExample | Poker/TestHands.cs:29 | "KC KH KD KS 5S" is FourOfAKind with list 13, 5 |
| HandExamples.StraightFlushExample | Poker/TestHands.cs:30 | "3C 4C 5C 6C 7C" is StraightFlush with list 7 |
| HandExamples.RoyalFlushExample | Poker/TestHands.cs:31 | "TH JH QH KH AH" is RoyalFlush with list 14 |
| HandExamples.OtherHighCardExample | Poker/Hand.cs:47-146 | "AD 4D 8D KS 2H" is HighCard with list 14, 13, 8, 4, 2 |
| HandExamples.OtherRoyalFlushExample | Poker/Hand.cs:47-146 | "TD JD QD KD AD" is RoyalFlush with list 14 |
| HandExamples.HighCardLoses | Poker/Hand.cs:171-183 | "AC 4H 7D KC 2S" against "AD 4D 8D KS 2H": equal ranks, lists equal up to 7 against 8, so the first hand loses |
| HandExamples.RoyalFlushesDraw | Poker/Hand.cs:171-183 | "TH JH QH KH AH" against "TD JD QD KD AD": equal ranks and lists, a draw |
| HandExamples.OutOfRangeExample | Poker/Hand.cs:157-160 | "2C 2H 3D 4C 5S" has no evaluation: its four consecutive keys make the straight test read past the end |

## Left out

- The static constructor that fills the two lookup dictionaries (`Poker/Hand.cs:18-38`) is modelled as the pure table functions `Cards.ValueOf` and `Cards.SuitOf`.
- `Card`'s public setters are not modelled. A card is an immutable value, because nothing in `Poker/Hand.cs` changes a card after it is created.
- The exception types (`KeyNotFoundException`, `IndexOutOfRangeException`, `ArgumentOutOfRangeException`) are not modelled. Every throw is `None`, and `Poker.Hand.Create` returns `None` in place of the throwing constructor.
- The joined profile string is modelled as the descending list of counts. For counts of 10 or more the strings can collide (counts 11, 1, 1, 1 join to "11111"), and the model does not reproduce that collision. It would need a hand with at least eleven cards of one value: a count of 10 joins to "10", which matches no profile label. For example, eleven "KC" tokens followed by "2C 5D 9S" are `HighCard` in the source and `Error` in the model. Such a hand can also make the source's `GetResult` throw: eleven "AC" tokens followed by "KD QS 9H" are `HighCard` with values 14, 13, 12, 9 in the source, and "AH KH QD 9S 2C" compared against it reads `other.values[4]` past the end (`Poker/Hand.cs:176-178`). The model has no such third throw site.
- Dictionary enumeration order is not fixed. `Poker.KeyList` chooses an arbitrary order, and every result is proved independent of it.
- `Lists.Sort` is specified as the unique sorted permutation, not as .NET's introsort. Only its result matters.
- Poker.Hand.EvaluateHand: requires `values == []`. The source calls it only from the constructor, on a fresh hand. `Poker.Hand.Rate` has the same precondition.
- Poker.Hand.FillValues: requires a non-empty dictionary. It is only called after `GetRank` succeeded, which needs at least one key.
- Poker.Hand.RankValue: requires a hand built by `Poker.Hand.Create`. Rank `NotSet` of a hand whose construction threw cannot be observed in the source.
- Poker.Hand.GetResult: requires both hands to be built by `Poker.Hand.Create`. Under that requirement, equal ranks give lists of equal length in the model, so the comparison never reads past `other.values`. In the source this holds only for hands with no value counted eleven or more times; see the profile collision above.
- The `Test()` method of `Poker/TestHands.cs` is not modelled. It calls a `Total()` method that `Poker/Hand.cs` does not have.
- The hand examples start from the card list its hand text parses to. Parsing the literal text is not restated per hand, because `Cards.ParseFormatHand` covers every card list. Each example states the rank the test checks and also the tie-break list.
