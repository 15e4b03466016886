/**
 * FindStraight (Poker/Hand.cs) in closed form. The loop compares keys[1..4] with their
 * predecessors, so on a sorted key list it answers whether the first five keys are
 * consecutive, and it reads past the end exactly when there are fewer than five keys
 * and all of them are consecutive.
 */
module Straights {
  import opened Wrappers
  import opened Lists
  import opened Cards
  import opened Evaluation
  import opened Counting

  /** Each element is one more than the one before it. */
  predicate Consecutive(s: seq<int>)
  {
    forall i :: 0 < i < |s| ==> s[i] == s[i - 1] + 1
  }

  lemma ConsecutivePrefix(keys: seq<int>, n: nat)
    requires n <= |keys|
    ensures Consecutive(keys[..n]) <==> forall i :: 0 < i < n ==> keys[i] == keys[i - 1] + 1
  {
    assert forall i :: 0 <= i < n ==> keys[..n][i] == keys[i];
  }

  /** What the scan loop returns, once keys[..ix] are known to be consecutive. */
  lemma {:induction false} ScanFrom(keys: seq<int>, ix: nat)
    requires 0 < ix <= 5 && ix <= |keys|
    requires Consecutive(keys[..ix])
    ensures Scan(keys, ix) ==
      if |keys| >= 5 then Some(Consecutive(keys[..5]))
      else if Consecutive(keys) then None
      else Some(false)
    decreases 5 - ix
  {
    if ix == 5 {
    } else if ix == |keys| {
      assert keys[..ix] == keys;
    } else if keys[ix] != keys[ix - 1] + 1 {
      if |keys| >= 5 {
        assert keys[..5][ix] != keys[..5][ix - 1] + 1;
      }
    } else {
      ConsecutivePrefix(keys, ix);
      ConsecutivePrefix(keys, ix + 1);
      ScanFrom(keys, ix + 1);
    }
  }

  /**
   * FindStraight on a sorted key list: true when the first five keys are consecutive,
   * false when they are not, and a read past the end (None) when the list is empty or
   * holds fewer than five keys that are all consecutive.
   */
  lemma ScanKeysResult(keys: seq<int>)
    ensures ScanKeys(keys) ==
      if |keys| >= 5 then Some(Consecutive(keys[..5]))
      else if keys == [] || Consecutive(keys) then None
      else Some(false)
  {
    if keys != [] {
      ScanFrom(keys, 1);
    }
  }

  /** The ace-low rewrite keeps the number of keys. */
  lemma StraightKeysSize(temp: map<int, int>)
    ensures |StraightKeys(temp)| == |temp|
  {
    var k := multiset(temp.Keys);
    assert |StraightKeys(temp)| == |multiset(StraightKeys(temp))| == |AceLow(k)|;
    if 2 in k && 14 in k {
      assert |k - multiset{14}| == |k| - 1;
    }
  }

  /**
   * With fewer than five distinct values FindStraight either answers false or reads past
   * the end of the key list, and it reads past the end exactly when the (ace-low
   * rewritten) values are consecutive; a single value, as in five cards of one value,
   * always reads past the end.
   */
  lemma StraightOfFewer(temp: map<int, int>)
    requires 0 < |temp| < 5
    ensures StraightOf(temp) != Some(true)
    ensures StraightOf(temp) == None <==> Consecutive(StraightKeys(temp))
    ensures |temp| == 1 ==> StraightOf(temp) == None
  {
    StraightKeysSize(temp);
    ScanKeysResult(StraightKeys(temp));
  }

  /** Every key is a card value, 2..14. */
  predicate CardKeys(temp: map<int, int>)
  {
    forall v :: v in temp ==> 2 <= v <= 14
  }

  /** The ascending key list of such a dictionary stays within 2..14. */
  lemma KeysBounds(temp: map<int, int>)
    requires CardKeys(temp)
    ensures forall i :: 0 <= i < |Keys(temp)| ==> 2 <= Keys(temp)[i] <= 14
  {
    var keys := Keys(temp);
    forall i | 0 <= i < |keys|
      ensures 2 <= keys[i] <= 14
    {
      assert keys[i] in multiset(keys);
    }
  }

  /** Five distinct values without both a 2 and an ace: no rewrite, the key list is scanned as it is. */
  lemma StraightOfFivePlain(temp: map<int, int>)
    requires |temp| == 5
    requires !(2 in temp && 14 in temp)
    ensures StraightOf(temp) == Some(Consecutive(Keys(temp)))
  {
    StraightKeysPlain(temp);
    ScanFive(Keys(temp));
  }

  /** Five keys are scanned in full. */
  lemma ScanFive(keys: seq<int>)
    requires |keys| == 5
    ensures ScanKeys(keys) == Some(Consecutive(keys))
  {
    ScanKeysResult(keys);
    assert keys[..5] == keys;
  }

  /** Without both a 2 and an ace FindStraight scans the sorted keys unchanged. */
  lemma StraightKeysPlain(temp: map<int, int>)
    requires !(2 in temp && 14 in temp)
    ensures StraightKeys(temp) == Keys(temp)
  {
    assert AceLow(multiset(temp.Keys)) == multiset(temp.Keys);
  }

  /** Without both a 2 and an ace the keys are not those of the wheel. */
  lemma NotWheel(temp: map<int, int>)
    requires !(2 in temp && 14 in temp)
    ensures Keys(temp) != [2, 3, 4, 5, 14]
  {
    var keys := Keys(temp);
    assert forall i :: 0 <= i < |keys| ==> keys[i] in multiset(keys);
  }

  /** A 2 and an ace among five distinct card values are the smallest and the largest. */
  lemma WheelEnds(temp: map<int, int>)
    requires |temp| == 5 && CardKeys(temp)
    requires 2 in temp && 14 in temp
    ensures Keys(temp)[0] == 2 && Keys(temp)[4] == 14
  {
    var keys := Keys(temp);
    KeysBounds(temp);
    assert 2 in multiset(keys) && 14 in multiset(keys);
    var i2 :| 0 <= i2 < 5 && keys[i2] == 2;
    var i14 :| 0 <= i14 < 5 && keys[i14] == 14;
  }

  /** Replacing the ace at the end of the key list by a 1 at the front is the ace-low rewrite. */
  lemma AceLowBag(keys: seq<int>, mk: multiset<int>)
    requires |keys| == 5 && multiset(keys) == mk
    requires keys[4] == 14 && 2 in mk
    ensures multiset([1] + keys[..4]) == AceLow(mk)
  {
    assert keys == keys[..4] + [keys[4]];
    assert 14 in mk by {
      assert keys[4] in multiset(keys);
    }
  }

  lemma AceLowSorted(keys: seq<int>)
    requires |keys| == 5 && Ascending(keys) && keys[0] == 2
    ensures Sorted([1] + keys[..4])
  {
    var low := [1] + keys[..4];
    forall i, j | 0 <= i < j < |low|
      ensures low[i] <= low[j]
    {
      assert low[j] == keys[j - 1];
      if i > 0 {
        assert low[i] == keys[i - 1];
      }
    }
  }

  /** The rewritten key list: 1 followed by the keys other than the ace. */
  lemma WheelKeys(temp: map<int, int>)
    requires |temp| == 5 && CardKeys(temp)
    requires 2 in temp && 14 in temp
    ensures StraightKeys(temp) == [1] + Keys(temp)[..4]
  {
    var keys := Keys(temp);
    WheelEnds(temp);
    var low := [1] + keys[..4];
    AceLowBag(keys, multiset(temp.Keys));
    AceLowSorted(keys);
    SortedUnique(low, StraightKeys(temp));
  }

  /** Five distinct card values including a 2 and an ace: the ace is scanned as a 1. */
  lemma StraightOfFiveWheel(temp: map<int, int>)
    requires |temp| == 5 && CardKeys(temp)
    requires 2 in temp && 14 in temp
    ensures StraightOf(temp) == Some(Keys(temp) == [2, 3, 4, 5, 14])
    ensures !Consecutive(Keys(temp))
  {
    WheelEnds(temp);
    WheelKeys(temp);
    WheelScan(Keys(temp));
  }

  /** Scanning 1 followed by the first four of five keys running from 2 to 14. */
  lemma WheelScan(keys: seq<int>)
    requires |keys| == 5 && keys[0] == 2 && keys[4] == 14
    ensures ScanKeys([1] + keys[..4]) == Some(keys == [2, 3, 4, 5, 14])
    ensures !Consecutive(keys)
  {
    var low := [1] + keys[..4];
    ScanKeysResult(low);
    assert low[..5] == low;
    if Consecutive(low) {
      assert low[1] == 2 && low[2] == 3 && low[3] == 4 && low[4] == 5;
      assert keys == [2, 3, 4, 5, 14];
    }
    assert keys[4] != keys[3] + 1 || keys[3] != keys[2] + 1 || keys[2] != keys[1] + 1 || keys[1] != keys[0] + 1;
  }

  /**
   * Five distinct card values make a straight exactly when they are five consecutive
   * integers, or exactly 2, 3, 4, 5 and the ace read as 1.
   */
  lemma StraightOfFive(temp: map<int, int>)
    requires |temp| == 5 && CardKeys(temp)
    ensures StraightOf(temp) == Some(Consecutive(Keys(temp)) || Keys(temp) == [2, 3, 4, 5, 14])
  {
    if 2 in temp && 14 in temp {
      StraightOfFiveWheel(temp);
    } else {
      StraightOfFivePlain(temp);
      NotWheel(temp);
    }
  }
}
