/**
 The deck (`Deck`): all 52 suit/face-value pairs, shuffled, drawn from the end.
 The randomness of the shuffle is a parameter: the index chosen at each swap.
 */
module Decks {
  import opened Optional
  import opened Cards

  const DeckSize: int := 52

  /** The suit order of the deck-building loop: 'H', 'D', 'S', 'C'. */
  function SuitAt(i: int): Suit
    requires 0 <= i < 4
  {
    if i == 0 then Hearts else if i == 1 then Diamonds else if i == 2 then Spades else Clubs
  }

  function SuitIndex(s: Suit): (i: int)
    ensures 0 <= i < 4 && SuitAt(i) == s
    ensures forall j :: 0 <= j < 4 && SuitAt(j) == s ==> j == i
  {
    match s
    case Hearts => 0
    case Diamonds => 1
    case Spades => 2
    case Clubs => 3
  }

  /** The face-value order of the inner loop: "2".."10", "Jack", "Queen", "King", "Ace". */
  function RankAt(i: int): Rank
    requires 0 <= i < 13
  {
    if i < 9 then Pip(i + 2)
    else if i == 9 then Jack
    else if i == 10 then Queen
    else if i == 11 then King
    else Ace
  }

  function RankIndex(r: Rank): (i: int)
    ensures 0 <= i < 13 && RankAt(i) == r
    ensures forall j :: 0 <= j < 13 && RankAt(j) == r ==> j == i
  {
    match r
    case Pip(n) => n - 2
    case Jack => 9
    case Queen => 10
    case King => 11
    case Ace => 12
  }

  /** The deck before shuffling, in the order the two nested loops append:
      every face value of Hearts, then of Diamonds, Spades and Clubs. */
  function FreshDeck(): (d: seq<Card>)
    ensures |d| == DeckSize
    ensures forall c: Card :: d[13 * SuitIndex(c.suit) + RankIndex(c.rank)] == c
  {
    var d := seq(52, i requires 0 <= i < 52 => Card(SuitAt(i / 13), RankAt(i % 13)));
    assert forall c: Card :: d[13 * SuitIndex(c.suit) + RankIndex(c.rank)] == c by {
      forall c: Card ensures d[13 * SuitIndex(c.suit) + RankIndex(c.rank)] == c {
        DivMod13(SuitIndex(c.suit), RankIndex(c.rank));
      }
    }
    d
  }

  /** Every one of the 52 possible cards occurs exactly once. */
  ghost predicate ExactlyOnce(d: seq<Card>)
  {
    forall c: Card :: multiset(d)[c] == 1
  }

  predicate Distinct<T(==)>(s: seq<T>)
  {
    forall i, j :: 0 <= i < j < |s| ==> s[i] != s[j]
  }

  /** In a sequence without repeats an element occurs once or not at all. */
  lemma {:induction false} DistinctCount<T>(s: seq<T>, x: T)
    requires Distinct(s)
    ensures multiset(s)[x] == if x in s then 1 else 0
    decreases |s|
  {
    if s != [] {
      assert s == [s[0]] + s[1..];
      assert Distinct(s[1..]) by {
        forall i, j | 0 <= i < j < |s[1..]| ensures s[1..][i] != s[1..][j] {
          assert s[1..][i] == s[i + 1] && s[1..][j] == s[j + 1];
        }
      }
      DistinctCount(s[1..], x);
      if x == s[0] {
        assert x !in s[1..] by {
          forall k | 0 <= k < |s[1..]| ensures s[1..][k] != x {
            assert s[1..][k] == s[k + 1];
          }
        }
      }
    }
  }

  lemma DivMod13(a: int, b: int)
    requires 0 <= a && 0 <= b < 13
    ensures (13 * a + b) / 13 == a && (13 * a + b) % 13 == b
  {
  }

  /** The unshuffled deck holds each of the 52 cards exactly once. */
  lemma FreshDeckExactlyOnce()
    ensures ExactlyOnce(FreshDeck())
  {
    var d := FreshDeck();
    assert Distinct(d) by {
      forall i, j | 0 <= i < j < |d| ensures d[i] != d[j] {
        assert i / 13 != j / 13 || i % 13 != j % 13;
        if i / 13 != j / 13 {
          var _ := SuitIndex(SuitAt(i / 13));
        } else {
          var _ := RankIndex(RankAt(i % 13));
        }
      }
    }
    forall c: Card ensures multiset(d)[c] == 1 {
      var s, r := SuitIndex(c.suit), RankIndex(c.rank);
      DivMod13(s, r);
      assert d[13 * s + r] == c;
      DistinctCount(d, c);
    }
  }

  /** `Deck#initialize` up to the shuffle: the two nested loops of appends. */
  method BuildDeck() returns (cards: seq<Card>)
    ensures cards == FreshDeck()
  {
    cards := [];
    for s := 0 to 4
      invariant cards == FreshDeck()[..13 * s]
    {
      for k := 0 to 13
        invariant cards == FreshDeck()[..13 * s + k]
      {
        DivMod13(s, k);
        assert FreshDeck()[13 * s + k] == Card(SuitAt(s), RankAt(k));
        assert FreshDeck()[..13 * s + k + 1] == FreshDeck()[..13 * s + k] + [Card(SuitAt(s), RankAt(k))];
        cards := cards + [Card(SuitAt(s), RankAt(k))];
      }
    }
  }

  /** `Array#shuffle!`: walking down from the last position, position `i`
      swaps with `picks[i]`, a random index no greater than `i`. */
  method Shuffle(d: seq<Card>, picks: seq<int>) returns (s: seq<Card>)
    requires |picks| == |d|
    requires forall i :: 0 <= i < |d| ==> 0 <= picks[i] <= i
    ensures |s| == |d| && multiset(s) == multiset(d)
  {
    s := d;
    var i := |d|;
    while i > 0
      invariant 0 <= i <= |d| && |s| == |d|
      invariant multiset(s) == multiset(d)
    {
      i := i - 1;
      var j := picks[i];
      var a, b := s[i], s[j];
      s := s[i := b][j := a];
    }
  }

  /** `Deck#initialize`: a fresh deck, shuffled. */
  method NewDeck(picks: seq<int>) returns (cards: seq<Card>)
    requires |picks| == DeckSize
    requires forall i :: 0 <= i < DeckSize ==> 0 <= picks[i] <= i
    ensures |cards| == DeckSize && ExactlyOnce(cards)
  {
    cards := BuildDeck();
    FreshDeckExactlyOnce();
    cards := Shuffle(cards, picks);
  }

  /** `Deck#draw_card` (`Array#pop`): the last card and the deck without it,
      or nothing from an empty deck. */
  function DrawCard(deck: seq<Card>): (o: Option<(Card, seq<Card>)>)
    ensures o.None? <==> deck == []
    ensures o.Some? ==> o.value.1 + [o.value.0] == deck
  {
    if deck == [] then None else Some((deck[|deck| - 1], deck[..|deck| - 1]))
  }

  /** `n` draws in a row: the cards in the order drawn and what is left. */
  function DrawMany(deck: seq<Card>, n: nat): (o: Option<(seq<Card>, seq<Card>)>)
    ensures o.Some? <==> n <= |deck|
    ensures o.Some? ==> |o.value.0| == n && o.value.1 == deck[..|deck| - n]
    ensures o.Some? ==> forall k :: 0 <= k < n ==> o.value.0[k] == deck[|deck| - 1 - k]
    ensures o.Some? ==> multiset(o.value.0) + multiset(o.value.1) == multiset(deck)
    decreases n
  {
    if n == 0 then Some(([], deck))
    else
      match DrawCard(deck)
      case None => None
      case Some((c, rest)) =>
        match DrawMany(rest, n - 1)
        case None => None
        case Some((more, left)) => Some(([c] + more, left))
  }

  /** Drawing a whole deck deals every card exactly once and empties it;
      one more draw finds nothing. */
  lemma DrawWholeDeck(deck: seq<Card>)
    requires |deck| == DeckSize && ExactlyOnce(deck)
    ensures DrawMany(deck, DeckSize).Some?
    ensures var (drawn, left) := DrawMany(deck, DeckSize).value; left == [] && ExactlyOnce(drawn)
    ensures DrawMany(deck, DeckSize + 1).None?
  {
    var (drawn, left) := DrawMany(deck, DeckSize).value;
    assert left == [];
    assert multiset(drawn) == multiset(deck);
  }
}
