/**
 Scoring of a hand, shared by the player and the dealer (the `Hand` mixin).
 A hand is the sequence of its cards in the order they were dealt.
 */
module Hands {
  import opened Cards

  /** Blackjack::BLACKJACK_AMOUNT: the best total; any total above it is bust. */
  const BlackjackAmount: int := 21

  /** `String#to_i` of the face value: the leading number of "2".."10",
      and 0 for "Jack", "Queen", "King" and "Ace", which start with a letter. */
  function FaceInteger(r: Rank): int
  {
    match r
    case Pip(n) => n
    case _ => 0
  }

  /** The reference value of a card with every Ace counted low:
      number cards at face value, Jack, Queen and King at 10, Ace at 1. */
  function HardValue(r: Rank): int
  {
    match r
    case Pip(n) => n
    case Jack => 10
    case Queen => 10
    case King => 10
    case Ace => 1
  }

  /** One pass of the scoring loop: the running sum after a card of rank `r`.
      An Ace is taken high when that keeps the sum at 21 or under; any other
      face value counts its number, or 10 when it has none. */
  function AddRank(sum: int, r: Rank): (s: int)
    ensures sum + 1 <= s <= sum + 11
    ensures r.Ace? ==> (s == sum + 11 <==> sum + 11 <= BlackjackAmount)
    ensures r.Ace? ==> (s == sum + 1 <==> sum + 11 > BlackjackAmount)
    ensures !r.Ace? ==> s == sum + HardValue(r)
  {
    if r == Ace then
      if sum + 11 <= BlackjackAmount then sum + 11 else sum + 1
    else
      var v := FaceInteger(r);
      sum + (if v == 0 then 10 else v)
  }

  /** The scoring loop of `Hand#total` from a running sum: a left-to-right
      fold in which each Ace sees only the cards before it. */
  function TotalFrom(sum: int, cards: seq<Card>): (t: int)
    ensures sum + |cards| <= t <= sum + 11 * |cards|
    decreases |cards|
  {
    if cards == [] then sum else TotalFrom(AddRank(sum, cards[0].rank), cards[1..])
  }

  /** `Hand#total`: the fold started from 0. */
  function Total(cards: seq<Card>): (t: int)
    ensures |cards| <= t <= 11 * |cards|
  {
    TotalFrom(0, cards)
  }

  /** `Hand#is_busted?`: the total is over 21. Two cards total at most 21
      (an Ace after an Ace counts 1), so only a hand of three or more cards
      can be bust. */
  function IsBusted(cards: seq<Card>): (busted: bool)
    ensures busted <==> Total(cards) > BlackjackAmount
    ensures busted ==> |cards| >= 3
  {
    ShortHandNotBust(cards);
    Total(cards) > BlackjackAmount
  }

  /** At most two cards total at most 21: a second Ace after an Ace counts 1. */
  lemma ShortHandNotBust(cards: seq<Card>)
    ensures |cards| <= 2 ==> Total(cards) <= BlackjackAmount
  {
    if |cards| == 2 {
      assert [cards[0]] + [cards[1]] == cards;
      TotalAppendCard([cards[0]], cards[1]);
    }
  }

  /** The loop of `Hand#total` as written: a running total over the face values. */
  method ComputeTotal(cards: seq<Card>) returns (total: int)
    ensures total == Total(cards)
  {
    total := 0;
    for i := 0 to |cards|
      invariant total == Total(cards[..i])
    {
      var val := cards[i].rank;
      if val == Ace {
        if total + 11 <= BlackjackAmount {
          total := total + 11;
        } else {
          total := total + 1;
        }
      } else {
        var n := FaceInteger(val);
        total := total + (if n == 0 then 10 else n);
      }
      TotalAppendCard(cards[..i], cards[i]);
      assert cards[..i + 1] == cards[..i] + [cards[i]];
    }
    assert cards[..|cards|] == cards;
  }

  /** Folding over two hands one after the other is folding over their concatenation. */
  lemma {:induction false} TotalFromAppend(sum: int, a: seq<Card>, b: seq<Card>)
    ensures TotalFrom(sum, a + b) == TotalFrom(TotalFrom(sum, a), b)
    decreases |a|
  {
    if a == [] {
      assert a + b == b;
    } else {
      assert (a + b)[0] == a[0];
      assert (a + b)[1..] == a[1..] + b;
      TotalFromAppend(AddRank(sum, a[0].rank), a[1..], b);
    }
  }

  /** The total after one more card depends only on the total before it and
      the new card: an Ace adds 11 when that stays at 21 or under and 1
      otherwise, any other card adds its value. */
  lemma TotalAppendCard(cards: seq<Card>, c: Card)
    ensures Total(cards + [c]) == AddRank(Total(cards), c.rank)
  {
    TotalFromAppend(0, cards, [c]);
    assert [c][1..] == [];
  }

  /** `Hand#add_card`: the new card goes last and the earlier cards stay. */
  function AddCard(cards: seq<Card>, c: Card): (r: seq<Card>)
    ensures |r| == |cards| + 1 && r[..|cards|] == cards && r[|cards|] == c
    ensures Total(cards) + 1 <= Total(r) <= Total(cards) + 11
  {
    TotalAppendCard(cards, c);
    cards + [c]
  }

  /** Adding cards never lowers the total: every extra card adds 1 to 11. */
  lemma TotalGrows(cards: seq<Card>, more: seq<Card>)
    ensures Total(cards) + |more| <= Total(cards + more) <= Total(cards) + 11 * |more|
  {
    TotalFromAppend(0, cards, more);
  }

  /** A bust hand stays bust whatever is added to it. */
  lemma BustPersists(cards: seq<Card>, more: seq<Card>)
    requires IsBusted(cards)
    ensures IsBusted(cards + more)
  {
    TotalGrows(cards, more);
  }

  /** The sum of the reference values, every Ace counted 1. */
  function HardSum(cards: seq<Card>): (s: int)
    ensures |cards| <= s <= 10 * |cards|
  {
    if cards == [] then 0
    else HardSum(cards[..|cards| - 1]) + HardValue(cards[|cards| - 1].rank)
  }

  predicate HasAce(cards: seq<Card>)
  {
    exists i :: 0 <= i < |cards| && cards[i].rank == Ace
  }

  /** The usual blackjack count: all Aces at 1, then one Ace raised to 11
      when that does not take the hand over 21. */
  function BestTotal(cards: seq<Card>): int
  {
    var hard := HardSum(cards);
    if HasAce(cards) && hard + 10 <= BlackjackAmount then hard + 10 else hard
  }

  /** Splitting off the last card of a hand, for the reference definitions. */
  lemma SplitLast(cards: seq<Card>, init: seq<Card>, c: Card)
    requires cards == init + [c]
    ensures HardSum(cards) == HardSum(init) + HardValue(c.rank)
    ensures HasAce(cards) <==> HasAce(init) || c.rank == Ace
  {
  }

  /** Without Aces the total is the plain sum of the card values. */
  lemma {:induction false} NoAceTotalIsSum(cards: seq<Card>)
    requires !HasAce(cards)
    ensures Total(cards) == HardSum(cards)
    decreases |cards|
  {
    if cards != [] {
      var init, c := cards[..|cards| - 1], cards[|cards| - 1];
      assert cards == init + [c];
      SplitLast(cards, init, c);
      NoAceTotalIsSum(init);
      TotalAppendCard(init, c);
    }
  }

  /** What the greedy fold keeps true about its result, hand by hand. */
  lemma {:induction false} GreedyInvariant(cards: seq<Card>)
    ensures Total(cards) >= HardSum(cards)
    ensures !HasAce(cards) ==> Total(cards) == HardSum(cards)
    ensures HasAce(cards) && HardSum(cards) + 10 <= BlackjackAmount ==> Total(cards) >= HardSum(cards) + 10
    ensures Total(cards) <= BlackjackAmount ==> Total(cards) == BestTotal(cards)
    decreases |cards|
  {
    if cards != [] {
      var init, c := cards[..|cards| - 1], cards[|cards| - 1];
      assert cards == init + [c];
      SplitLast(cards, init, c);
      GreedyInvariant(init);
      TotalAppendCard(init, c);
      if HasAce(init) {
        assert |init| > 0;
      }
    }
  }

  /** The greedy fold never scores a hand below the usual count... */
  lemma TotalAtLeastBest(cards: seq<Card>)
    ensures Total(cards) >= BestTotal(cards)
  {
    GreedyInvariant(cards);
  }

  /** ...and agrees with it on every hand it does not call bust. */
  lemma TotalIsBestUnlessBusted(cards: seq<Card>)
    requires !IsBusted(cards)
    ensures Total(cards) == BestTotal(cards)
  {
    GreedyInvariant(cards);
  }

  /** Ten, Ace, Ace scores 22 and is bust, although the usual count is 12. */
  lemma TenAceAceBusts(s1: Suit, s2: Suit, s3: Suit)
    ensures var h := [Card(s1, Pip(10)), Card(s2, Ace), Card(s3, Ace)];
      Total(h) == 22 && IsBusted(h) && BestTotal(h) == 12
  {
    var h := [Card(s1, Pip(10)), Card(s2, Ace), Card(s3, Ace)];
    assert h == [Card(s1, Pip(10)), Card(s2, Ace)] + [Card(s3, Ace)];
    assert [Card(s1, Pip(10)), Card(s2, Ace)] == [Card(s1, Pip(10))] + [Card(s2, Ace)];
    TotalAppendCard([Card(s1, Pip(10))], Card(s2, Ace));
    TotalAppendCard([Card(s1, Pip(10)), Card(s2, Ace)], Card(s3, Ace));
    SplitLast(h, [Card(s1, Pip(10)), Card(s2, Ace)], Card(s3, Ace));
    assert h[1].rank == Ace;
  }

  /** The score depends on the order of the cards: Ace, 10, 5 scores 26 (the Ace
      was already taken high), while 5, 10, Ace scores 16. */
  lemma ScoreDependsOnOrder(s1: Suit, s2: Suit, s3: Suit)
    ensures Total([Card(s1, Ace), Card(s2, Pip(10)), Card(s3, Pip(5))]) == 26
    ensures Total([Card(s3, Pip(5)), Card(s2, Pip(10)), Card(s1, Ace)]) == 16
  {
    var a, t, f := Card(s1, Ace), Card(s2, Pip(10)), Card(s3, Pip(5));
    assert [a, t, f] == [a] + [t] + [f];
    assert [f, t, a] == [f] + [t] + [a];
    TotalAppendCard([a], t);
    TotalAppendCard([a] + [t], f);
    TotalAppendCard([f], t);
    TotalAppendCard([f] + [t], a);
  }
}
