/**
 * GetResult (Poker/Hand.cs): the outcome of one hand against another, from the first
 * hand's side. A higher rank wins outright; equal ranks are decided by the first
 * position where the tie-break lists differ, and equal lists are a draw.
 */
module Comparison {
  import opened Evaluation

  /** The Results enum. */
  datatype Result = Win | Loss | Draw

  /** The outcome seen from the other hand. */
  function Flip(r: Result): Result
  {
    match r
    case Win => Loss
    case Loss => Win
    case Draw => Draw
  }

  /** Different ranks stand for different integers. */
  lemma OrdinalInjective(r1: Rank, r2: Rank)
    ensures Ordinal(r1) == Ordinal(r2) ==> r1 == r2
  {
  }

  /**
   * The loop of GetResult: walk the first list, comparing position by position; the
   * second list is read at the same positions only, so it must be at least as long.
   */
  function Lex(a: seq<int>, b: seq<int>): Result
    requires |a| <= |b|
  {
    if a == [] then Draw
    else if a[0] > b[0] then Win
    else if a[0] < b[0] then Loss
    else Lex(a[1..], b[1..])
  }

  /** GetResult on the ranks and tie-break lists of two hands. */
  function Compare(r1: Rank, v1: seq<int>, r2: Rank, v2: seq<int>): Result
    requires r1 == r2 ==> |v1| <= |v2|
  {
    if Ordinal(r1) > Ordinal(r2) then Win
    else if Ordinal(r1) < Ordinal(r2) then Loss
    else
      OrdinalInjective(r1, r2);
      Lex(v1, v2)
  }

  /**
   * The first position where the lists differ decides: Win when the first list's element
   * there is larger, Loss when it is smaller.
   */
  lemma {:induction false} LexDecidedAt(a: seq<int>, b: seq<int>, k: nat)
    requires |a| <= |b| && k < |a|
    requires a[..k] == b[..k] && a[k] != b[k]
    ensures Lex(a, b) == if a[k] > b[k] then Win else Loss
  {
    if k > 0 {
      assert a[0] == a[..k][0] == b[..k][0] == b[0];
      assert a[1..][..k - 1] == a[..k][1..] == b[..k][1..] == b[1..][..k - 1];
      LexDecidedAt(a[1..], b[1..], k - 1);
    }
  }

  /** With no differing position the result is Draw, and only then. */
  lemma {:induction false} LexDrawPrefix(a: seq<int>, b: seq<int>)
    requires |a| <= |b|
    ensures Lex(a, b) == Draw <==> a == b[..|a|]
  {
    if a != [] {
      LexDrawPrefix(a[1..], b[1..]);
      assert a == [a[0]] + a[1..];
      assert b[..|a|] == [b[0]] + b[1..][..|a| - 1];
    }
  }

  /** Comparing lists of equal length the other way round swaps Win and Loss. */
  lemma {:induction false} LexFlip(a: seq<int>, b: seq<int>)
    requires |a| == |b|
    ensures Lex(b, a) == Flip(Lex(a, b))
  {
    if a != [] {
      LexFlip(a[1..], b[1..]);
    }
  }

  /** Lex is transitive on wins between lists of equal length. */
  lemma {:induction false} LexWinTransitive(a: seq<int>, b: seq<int>, c: seq<int>)
    requires |a| == |b| == |c|
    requires Lex(a, b) == Win && Lex(b, c) == Win
    ensures Lex(a, c) == Win
  {
    if a[0] == b[0] && b[0] == c[0] {
      LexWinTransitive(a[1..], b[1..], c[1..]);
    } else if a[0] == b[0] {
      assert b[0] > c[0];
    } else if b[0] == c[0] {
      assert a[0] > b[0];
    }
  }

  /** Swapping the hands swaps Win and Loss (antisymmetry), for lists as long as the rank fixes. */
  lemma CompareFlip(r1: Rank, v1: seq<int>, r2: Rank, v2: seq<int>)
    requires r1 == r2 ==> |v1| == |v2|
    ensures Compare(r2, v2, r1, v1) == Flip(Compare(r1, v1, r2, v2))
  {
    OrdinalInjective(r1, r2);
    if Ordinal(r1) == Ordinal(r2) {
      LexFlip(v1, v2);
    }
  }

  /** A hand drawn against itself, and a draw only between equal ranks and equal lists. */
  lemma CompareDraw(r1: Rank, v1: seq<int>, r2: Rank, v2: seq<int>)
    requires r1 == r2 ==> |v1| == |v2|
    ensures Compare(r1, v1, r2, v2) == Draw <==> r1 == r2 && v1 == v2
  {
    OrdinalInjective(r1, r2);
    if Ordinal(r1) == Ordinal(r2) {
      LexDrawPrefix(v1, v2);
      assert v2[..|v1|] == v2;
    }
  }

  /** Wins chain: if the first hand beats the second and the second the third, the first beats the third. */
  lemma CompareWinTransitive(r1: Rank, v1: seq<int>, r2: Rank, v2: seq<int>, r3: Rank, v3: seq<int>)
    requires r1 == r2 ==> |v1| == |v2|
    requires r2 == r3 ==> |v2| == |v3|
    requires r1 == r3 ==> |v1| == |v3|
    requires Compare(r1, v1, r2, v2) == Win && Compare(r2, v2, r3, v3) == Win
    ensures Compare(r1, v1, r3, v3) == Win
  {
    OrdinalInjective(r1, r2);
    OrdinalInjective(r2, r3);
    if r1 == r2 && r2 == r3 {
      LexWinTransitive(v1, v2, v3);
    }
  }
}
