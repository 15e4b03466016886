/**
 * Cards and the text form of a hand (Poker/Hand.cs, the two lookup tables, FillCards and Card).
 *
 * A hand is written as tokens separated by single spaces; each token's first character
 * is a value code and its second a suit code. The source checks neither the number of
 * tokens nor their length: every token becomes one card, characters after the second
 * are ignored, and an unknown code or a token shorter than two characters makes the
 * constructor throw, which is None here.
 */
module Cards {
  import opened Wrappers
  import opened Lists

  datatype Suit = Hearts | Clubs | Diamonds | Spades

  /** The values the value table can produce: 2..9, then 10 (T) to 14 (A). */
  type CardValue = v: int | 2 <= v <= 14 witness 2

  datatype Card = Card(value: CardValue, suit: Suit)

  /** The value codes, in the order of the values 2..14 they stand for. */
  const ValueCodes: string := "23456789TJQKA"

  /** The suit codes, in the order of the Suit constructors. */
  const SuitCodes: string := "HCDS"

  /** The value table: a character maps to a value exactly when it is one of the codes. */
  function ValueOf(c: char): (r: Option<CardValue>)
    ensures r.Some? <==> c in ValueCodes
    ensures r.Some? ==> ValueCodes[r.value - 2] == c
  {
    match c
    case '2' => Some(2)
    case '3' => Some(3)
    case '4' => Some(4)
    case '5' => Some(5)
    case '6' => Some(6)
    case '7' => Some(7)
    case '8' => Some(8)
    case '9' => Some(9)
    case 'T' => Some(10)
    case 'J' => Some(11)
    case 'Q' => Some(12)
    case 'K' => Some(13)
    case 'A' => Some(14)
    case _ => None
  }

  /** The code that the value table maps to v; it is the only one. */
  function ValueCode(v: CardValue): (c: char)
    ensures ValueOf(c) == Some(v)
    ensures forall d :: ValueOf(d) == Some(v) ==> d == c
  {
    ValueCodes[v - 2]
  }

  function SuitIndex(s: Suit): (i: nat)
    ensures i < |SuitCodes|
  {
    match s
    case Hearts => 0
    case Clubs => 1
    case Diamonds => 2
    case Spades => 3
  }

  /** The suit table: a character maps to a suit exactly when it is one of the codes. */
  function SuitOf(c: char): (r: Option<Suit>)
    ensures r.Some? <==> c in SuitCodes
    ensures r.Some? ==> SuitCodes[SuitIndex(r.value)] == c
  {
    match c
    case 'H' => Some(Hearts)
    case 'C' => Some(Clubs)
    case 'D' => Some(Diamonds)
    case 'S' => Some(Spades)
    case _ => None
  }

  /** The code that the suit table maps to s; it is the only one. */
  function SuitCode(s: Suit): (c: char)
    ensures SuitOf(c) == Some(s)
    ensures forall d :: SuitOf(d) == Some(s) ==> d == c
  {
    SuitCodes[SuitIndex(s)]
  }

  function IndexOf(s: string, c: char): (i: nat)
    requires c in s
    ensures i < |s| && s[i] == c && c !in s[..i]
  {
    if s[0] == c then 0
    else
      assert s == [s[0]] + s[1..];
      1 + IndexOf(s[1..], c)
  }

  /** The pieces of s between single spaces; Join puts them back together. */
  function Split(s: string): (r: seq<string>)
    ensures |r| >= 1
    ensures forall k :: 0 <= k < |r| ==> ' ' !in r[k]
    ensures Join(r) == s
    decreases |s|
  {
    if ' ' !in s then [s]
    else
      var i := IndexOf(s, ' ');
      assert s == s[..i] + " " + s[i + 1..];
      [s[..i]] + Split(s[i + 1..])
  }

  /** The tokens, separated by single spaces. */
  function Join(tokens: seq<string>): string
    requires |tokens| >= 1
  {
    if |tokens| == 1 then tokens[0] else tokens[0] + " " + Join(tokens[1..])
  }

  /** Splitting the join of space-free tokens gives the tokens back. */
  lemma {:induction false} SplitJoin(tokens: seq<string>)
    requires |tokens| >= 1
    requires forall k :: 0 <= k < |tokens| ==> ' ' !in tokens[k]
    ensures Split(Join(tokens)) == tokens
  {
    var s := Join(tokens);
    if |tokens| > 1 {
      var t := tokens[0];
      assert s == t + " " + Join(tokens[1..]);
      assert s[|t|] == ' ' && s[..|t|] == t;
      assert ' ' in s;
      assert IndexOf(s, ' ') == |t|;
      assert s[|t| + 1..] == Join(tokens[1..]);
      SplitJoin(tokens[1..]);
    }
  }

  /** One token to one card: the value code first, then the suit code. */
  function ParseCard(token: string): Option<Card>
  {
    if |token| < 1 then None
    else match ValueOf(token[0])
      case None => None
      case Some(v) =>
        if |token| < 2 then None
        else match SuitOf(token[1])
          case None => None
          case Some(s) => Some(Card(v, s))
  }

  /** The two-character token of a card. */
  function FormatCard(c: Card): string
  {
    [ValueCode(c.value), SuitCode(c.suit)]
  }

  /**
   * A token is a card exactly when it has at least two characters, a value code first
   * and a suit code second; the card's own token is then the first two characters.
   */
  lemma ParseCardCodes(token: string)
    ensures ParseCard(token).Some? <==> |token| >= 2 && token[0] in ValueCodes && token[1] in SuitCodes
    ensures ParseCard(token).Some? ==> FormatCard(ParseCard(token).value) == token[..2]
  {
  }

  lemma ParseFormatCard(c: Card)
    ensures ParseCard(FormatCard(c)) == Some(c)
  {
  }

  /** The cards of the tokens, in token order; None as soon as one token is not a card. */
  function ParseTokens(tokens: seq<string>): (r: Option<seq<Card>>)
    ensures r.Some? ==> |r.value| == |tokens|
  {
    if tokens == [] then Some([])
    else
      var last := |tokens| - 1;
      match ParseTokens(tokens[..last])
      case None => None
      case Some(cards) =>
        match ParseCard(tokens[last])
        case None => None
        case Some(c) => Some(cards + [c])
  }

  /** The tokens parse exactly when each of them is a card. */
  lemma {:induction false} ParseTokensSome(tokens: seq<string>)
    ensures ParseTokens(tokens).Some? <==> forall k :: 0 <= k < |tokens| ==> ParseCard(tokens[k]).Some?
  {
    if tokens != [] {
      var last := |tokens| - 1;
      var init := tokens[..last];
      ParseTokensSome(init);
      if ParseTokens(init).None? {
        var k :| 0 <= k < last && ParseCard(init[k]).None?;
        assert init[k] == tokens[k];
      } else {
        assert forall k :: 0 <= k < last ==> init[k] == tokens[k];
      }
    }
  }

  /** Card k of a parsed hand is the card of token k. */
  lemma {:induction false} ParseTokensAt(tokens: seq<string>)
    requires ParseTokens(tokens).Some?
    ensures forall k :: 0 <= k < |tokens| ==> Some(ParseTokens(tokens).value[k]) == ParseCard(tokens[k])
  {
    if tokens != [] {
      var last := |tokens| - 1;
      var init := tokens[..last];
      ParseTokensAt(init);
      forall k | 0 <= k < |tokens|
        ensures Some(ParseTokens(tokens).value[k]) == ParseCard(tokens[k])
      {
        if k < last {
          assert init[k] == tokens[k];
        }
      }
    }
  }

  /** The cards that FillCards adds for a hand text, or None where it throws. */
  function ParseHand(text: string): (r: Option<seq<Card>>)
    ensures r.Some? ==> |r.value| >= 1
  {
    ParseTokens(Split(text))
  }

  /** The text form of a non-empty list of cards. */
  function FormatHand(cards: seq<Card>): string
    requires |cards| >= 1
  {
    Join(Map(FormatCard, cards))
  }

  /** Parsing the text form of any non-empty list of cards gives the same cards back. */
  lemma ParseFormatHand(cards: seq<Card>)
    requires |cards| >= 1
    ensures ParseHand(FormatHand(cards)) == Some(cards)
  {
    var tokens := Map(FormatCard, cards);
    forall k | 0 <= k < |tokens|
      ensures ' ' !in tokens[k] && ParseCard(tokens[k]) == Some(cards[k])
    {
      ParseFormatCard(cards[k]);
    }
    SplitJoin(tokens);
    ParseTokensSome(tokens);
    ParseTokensAt(tokens);
    var r := ParseTokens(tokens);
    assert r.value == cards;
  }
}
