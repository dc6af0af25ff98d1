/**
 One round of the game (`Blackjack`) as a state machine over an explicit
 state: the deck, both hands and the phase of the round. Terminal reads are a
 scripted sequence of input lines, already stripped of their line ending.
 */
module Game {
  import opened Optional
  import opened Cards
  import opened Decks
  import opened Hands

  /** Blackjack::DEALER_HIT_LIMIT: the dealer draws while under it. */
  const DealerHitLimit: int := 17

  datatype Side = Player | Dealer

  /** What `blackjack_or_bust?` can report about a hand. */
  datatype Early = Blackjack | Bust

  /** The end of a round from the player's point of view. */
  datatype Result = Win | Lose | Tie

  /** Where the program stops with an exception: a draw from an empty deck
      gives `nil`, which has no face value to score, and a read past the end
      of the input gives `nil`, which cannot be chomped. */
  datatype Crash = EmptyDeck | EndOfInput

  /** How a round ends: settled early by `blackjack_or_bust?` for one side,
      decided by `who_won?`, or stopped by a crash. */
  datatype Ending = Settled(side: Side, early: Early) | Compared(result: Result) | Crashed(crash: Crash)

  datatype Phase = Dealing | Dealt | PlayerTurn | PlayerStood | DealerTurn | Over(ending: Ending)

  datatype Round = Round(deck: seq<Card>, player: seq<Card>, dealer: seq<Card>, phase: Phase)

  function HandOf(r: Round, side: Side): seq<Card>
  {
    if side == Player then r.player else r.dealer
  }

  /** Every card of the round, wherever it is. */
  function Holdings(r: Round): multiset<Card>
  {
    multiset(r.deck) + multiset(r.player) + multiset(r.dealer)
  }

  /** The number of cards in play. It is the size of `Holdings(r)`
      (`CardCountIsSize`); contracts state it next to `Holdings` as a sum of
      lengths so that the solver need not reason about multiset sizes. */
  function CardCount(r: Round): nat
  {
    |r.deck| + |r.player| + |r.dealer|
  }

  lemma CardCountIsSize(r: Round)
    ensures CardCount(r) == |Holdings(r)|
  {
  }

  /** An early ending agrees with the hand that caused it: a side's blackjack
      means its total is 21, its bust that its total is over 21. */
  predicate SettledAgrees(r: Round)
  {
    r.phase.Over? && r.phase.ending.Settled? ==>
      && (r.phase.ending.early == Blackjack ==> Total(HandOf(r, r.phase.ending.side)) == BlackjackAmount)
      && (r.phase.ending.early == Bust ==> Total(HandOf(r, r.phase.ending.side)) > BlackjackAmount)
  }

  /** `blackjack_or_bust?` without its messages: blackjack on exactly 21,
      else bust over 21, else nothing. */
  function BlackjackOrBust(cards: seq<Card>): (e: Option<Early>)
    ensures e == Some(Blackjack) <==> Total(cards) == BlackjackAmount
    ensures e == Some(Bust) <==> IsBusted(cards)
    ensures e == None <==> !IsBusted(cards) && Total(cards) != BlackjackAmount
  {
    if Total(cards) == BlackjackAmount then Some(Blackjack)
    else if IsBusted(cards) then Some(Bust)
    else None
  }

  /** `who_won?` without its messages: a strict three-way comparison of totals. */
  function WhoWon(playerTotal: int, dealerTotal: int): (r: Result)
    ensures r == Win <==> playerTotal > dealerTotal
    ensures r == Lose <==> playerTotal < dealerTotal
    ensures r == Tie <==> playerTotal == dealerTotal
  {
    if playerTotal > dealerTotal then Win
    else if playerTotal < dealerTotal then Lose
    else Tie
  }

  /** What the program announces for the player at the end of a round:
      the player wins on their own blackjack or the dealer's bust, and loses
      on their own bust or the dealer's blackjack. */
  function Announced(e: Ending): (o: Option<Result>)
    ensures o.None? <==> e.Crashed?
    ensures e.Settled? ==> (o == Some(Win) <==> (e.side == Player) == (e.early == Blackjack))
    ensures e.Settled? ==> (o == Some(Lose) <==> (e.side == Player) != (e.early == Blackjack))
    ensures e.Compared? ==> o == Some(e.result)
  {
    match e
    case Settled(Player, Blackjack) => Some(Win)
    case Settled(Player, Bust) => Some(Lose)
    case Settled(Dealer, Blackjack) => Some(Lose)
    case Settled(Dealer, Bust) => Some(Win)
    case Compared(res) => Some(res)
    case Crashed(_) => None
  }

  /** Moving the deck's last card into a hand keeps every card of the round. */
  lemma MoveLastCard(r: Round, r': Round)
    requires |r.deck| > 0
    requires r'.deck == r.deck[..|r.deck| - 1]
    requires || (r'.player == r.player + [r.deck[|r.deck| - 1]] && r'.dealer == r.dealer)
             || (r'.dealer == r.dealer + [r.deck[|r.deck| - 1]] && r'.player == r.player)
    ensures Holdings(r') == Holdings(r) && CardCount(r') == CardCount(r)
  {
    assert r.deck == r'.deck + [r.deck[|r.deck| - 1]];
  }

  /** `deck.draw_card` handed to one side's `add_card`: the deck's last card
      moves to the end of that side's hand; nothing when the deck is empty. */
  function Draw(r: Round, side: Side): (o: Option<Round>)
    ensures o.None? <==> r.deck == []
    ensures o.Some? && side == Player ==>
      o.value == r.(deck := r.deck[..|r.deck| - 1], player := r.player + [r.deck[|r.deck| - 1]])
    ensures o.Some? && side == Dealer ==>
      o.value == r.(deck := r.deck[..|r.deck| - 1], dealer := r.dealer + [r.deck[|r.deck| - 1]])
    ensures o.Some? ==> Holdings(o.value) == Holdings(r) && CardCount(o.value) == CardCount(r)
    ensures o.Some? ==> Total(HandOf(r, side)) < Total(HandOf(o.value, side))
  {
    match DrawCard(r.deck)
    case None => None
    case Some((c, rest)) =>
      var r' := r.(deck := rest);
      var r'' := if side == Player then r'.(player := AddCard(r.player, c)) else r'.(dealer := AddCard(r.dealer, c));
      MoveLastCard(r, r'');
      Some(r'')
  }

  /** Two pair-deals in a row take the last four cards of the deck. */
  lemma DealTwice(r: Round, r1: Round, r2: Round)
    requires |r.deck| >= 4
    requires r1 == r.(deck := r.deck[..|r.deck| - 2], player := r.player + [r.deck[|r.deck| - 1]],
                      dealer := r.dealer + [r.deck[|r.deck| - 2]])
    requires r2 == r1.(deck := r1.deck[..|r1.deck| - 2], player := r1.player + [r1.deck[|r1.deck| - 1]],
                       dealer := r1.dealer + [r1.deck[|r1.deck| - 2]])
    ensures var d, n := r.deck, |r.deck|;
      r2 == r.(deck := d[..n - 4], player := r.player + [d[n - 1], d[n - 3]],
               dealer := r.dealer + [d[n - 2], d[n - 4]])
  {
  }

  /** One card to the player, then one to the dealer. */
  function DealPair(r: Round): (o: Option<Round>)
    ensures o.None? <==> |r.deck| < 2
    ensures o.Some? ==> Holdings(o.value) == Holdings(r) && CardCount(o.value) == CardCount(r)
    ensures o.Some? ==>
      var d, n := r.deck, |r.deck|;
      o.value == r.(deck := d[..n - 2], player := r.player + [d[n - 1]], dealer := r.dealer + [d[n - 2]])
  {
    if |r.deck| < 2 then None
    else
      var d, n := r.deck, |r.deck|;
      var r1 := Draw(r, Player).value;
      assert r1 == r.(deck := d[..n - 1], player := r.player + [d[n - 1]]);
      var r2 := Draw(r1, Dealer).value;
      assert d[..n - 1][..n - 2] == d[..n - 2];
      Some(r2)
  }

  /** `deal_cards`: four draws, to the player, the dealer, the player and
      the dealer; nothing when the deck runs out on the way. */
  function DealCards(r: Round): (o: Option<Round>)
    ensures o.None? <==> |r.deck| < 4
    ensures o.Some? ==> Holdings(o.value) == Holdings(r) && CardCount(o.value) == CardCount(r)
    ensures o.Some? ==>
      var d, n := r.deck, |r.deck|;
      o.value == r.(deck := d[..n - 4], player := r.player + [d[n - 1], d[n - 3]],
                    dealer := r.dealer + [d[n - 2], d[n - 4]])
  {
    var r1 :- DealPair(r);
    var r2 :- DealPair(r1);
    DealTwice(r, r1, r2);
    Some(r2)
  }

  /** The deal: the player gets the last and third-last cards of the deck,
      the dealer the second- and fourth-last, and the deck loses those four. */
  function Deal(r: Round): (r': Round)
    requires r.phase == Dealing
    ensures Holdings(r') == Holdings(r) && CardCount(r') == CardCount(r)
    ensures |r.deck| >= 4 ==>
      var n := |r.deck|;
      && r'.phase == Dealt
      && r'.deck == r.deck[..n - 4]
      && r'.player == r.player + [r.deck[n - 1], r.deck[n - 3]]
      && r'.dealer == r.dealer + [r.deck[n - 2], r.deck[n - 4]]
    ensures |r.deck| < 4 ==> r' == r.(phase := Over(Crashed(EmptyDeck)))
  {
    match DealCards(r)
    case None => r.(phase := Over(Crashed(EmptyDeck)))
    case Some(r') => r'.(phase := Dealt)
  }

  /** A call of `blackjack_or_bust?` on one side: the round ends when it
      reports something and moves on to `next` otherwise. */
  function Settle(r: Round, side: Side, next: Phase): (r': Round)
    ensures r'.deck == r.deck && r'.player == r.player && r'.dealer == r.dealer
    ensures Total(HandOf(r, side)) == BlackjackAmount ==> r'.phase == Over(Settled(side, Blackjack))
    ensures Total(HandOf(r, side)) > BlackjackAmount ==> r'.phase == Over(Settled(side, Bust))
    ensures Total(HandOf(r, side)) < BlackjackAmount ==> r'.phase == next
  {
    match BlackjackOrBust(HandOf(r, side))
    case Some(e) => r.(phase := Over(Settled(side, e)))
    case None => r.(phase := next)
  }

  /** The start of `player_turn`: the check on the two dealt cards. */
  function BeginPlayerTurn(r: Round): (r': Round)
    requires r.phase == Dealt
    ensures r'.deck == r.deck && r'.player == r.player && r'.dealer == r.dealer
    ensures r'.phase == PlayerTurn <==> Total(r.player) < BlackjackAmount
    ensures r'.phase != PlayerTurn ==> r'.phase.Over? && r'.phase.ending.Settled? && r'.phase.ending.side == Player
    ensures SettledAgrees(r')
  {
    Settle(r, Player, PlayerTurn)
  }

  /** One pass of the loop of `player_turn` on one input line. Anything but
      "y" or "n" is refused and changes nothing; "n" stands; "y" draws one
      card for the player and checks the new total. */
  function PlayerStep(r: Round, line: string): (r': Round)
    requires r.phase == PlayerTurn
    ensures Holdings(r') == Holdings(r) && CardCount(r') == CardCount(r)
    ensures r'.dealer == r.dealer
    ensures line != "y" && line != "n" ==> r' == r
    ensures line == "n" ==> r' == r.(phase := PlayerStood)
    ensures line == "y" && r.deck != [] ==>
      && r'.deck == r.deck[..|r.deck| - 1]
      && r'.player == r.player + [r.deck[|r.deck| - 1]]
      && Total(r'.player) > Total(r.player)
      && (r'.phase == PlayerTurn <==> Total(r'.player) < BlackjackAmount)
      && (r'.phase != PlayerTurn ==> r'.phase.Over? && r'.phase.ending.Settled? && r'.phase.ending.side == Player)
    ensures line == "y" && r.deck == [] ==> r' == r.(phase := Over(Crashed(EmptyDeck)))
    ensures r.player <= r'.player && |r'.player| <= |r.player| + 1
    ensures r'.phase == PlayerStood ==> r'.player == r.player
    ensures r'.phase == PlayerTurn || r'.phase == PlayerStood
      || (r'.phase.Over? && (r'.phase.ending.Crashed? || (r'.phase.ending.Settled? && r'.phase.ending.side == Player)))
    ensures SettledAgrees(r')
  {
    if line != "y" && line != "n" then r
    else if line == "n" then r.(phase := PlayerStood)
    else
      match Draw(r, Player)
      case None => r.(phase := Over(Crashed(EmptyDeck)))
      case Some(r1) => Settle(r1, Player, PlayerTurn)
  }

  /** One pass of the loop of `player_turn`: the loop condition (not bust),
      then one input line read and acted on. A bust hand leaves the loop
      without reading; a missing line stops the program. */
  function PlayerPass(r: Round, inputs: seq<string>): (res: (Round, seq<string>))
    requires r.phase == PlayerTurn
    ensures var (r', rest) := res;
      && (rest == inputs || (inputs != [] && rest == inputs[1..]))
      && (r'.phase == PlayerTurn ==> inputs != [] && rest == inputs[1..])
    ensures var (r', rest) := res;
      && Holdings(r') == Holdings(r) && CardCount(r') == CardCount(r)
      && r'.dealer == r.dealer
      && r.player <= r'.player
      && |r'.player| - |r.player| <= |inputs| - |rest|
    ensures var (r', rest) := res;
      && (r'.phase == PlayerTurn ==> Total(r'.player) < BlackjackAmount || r'.player == r.player)
      && (r'.phase == PlayerStood ==> r'.player == r.player)
      && (r'.phase == PlayerTurn || r'.phase == PlayerStood
          || (r'.phase.Over? && (r'.phase.ending.Crashed? || (r'.phase.ending.Settled? && r'.phase.ending.side == Player))))
    ensures IsBusted(r.player) ==> res == (r.(phase := PlayerStood), inputs)
    ensures !IsBusted(r.player) && inputs == [] ==> res.0.phase == Over(Crashed(EndOfInput))
    ensures !IsBusted(r.player) && inputs != [] ==> res.1 == inputs[1..]
    ensures SettledAgrees(res.0)
  {
    if IsBusted(r.player) then (r.(phase := PlayerStood), inputs)
    else if inputs == [] then (r.(phase := Over(Crashed(EndOfInput))), inputs)
    else (PlayerStep(r, inputs[0]), inputs[1..])
  }

  /** The loop of `player_turn`, one input line per pass, until the player
      stands, the round is settled, or the program stops. The loop's own
      condition (not bust) leaves it too, but a bust hand has already ended
      the round by then. */
  function PlayerLoop(r: Round, inputs: seq<string>): (res: (Round, seq<string>))
    requires r.phase == PlayerTurn
    ensures var (r', rest) := res;
      && r'.phase != PlayerTurn
      && |rest| <= |inputs| && rest == inputs[|inputs| - |rest|..]
    ensures var (r', rest) := res;
      && Holdings(r') == Holdings(r) && CardCount(r') == CardCount(r)
      && r'.dealer == r.dealer
      && r.player <= r'.player
      && |r'.player| - |r.player| <= |inputs| - |rest|
    ensures var (r', rest) := res;
      && (r'.phase == PlayerStood ==> Total(r'.player) < BlackjackAmount || r'.player == r.player)
      && (r'.phase == PlayerStood || (r'.phase.Over? && (r'.phase.ending.Crashed? || (r'.phase.ending.Settled? && r'.phase.ending.side == Player))))
    ensures SettledAgrees(res.0)
    decreases |inputs|
  {
    var (r1, rest1) := PlayerPass(r, inputs);
    assert inputs[|inputs| - |rest1|..] == rest1;
    if r1.phase == PlayerTurn then
      var (r2, rest) := PlayerLoop(r1, rest1);
      assert rest1[|rest1| - |rest|..] == inputs[|inputs| - |rest|..];
      (r2, rest)
    else
      (r1, rest1)
  }

  /** The start of `dealer_turn`: the check on the dealer's two cards. */
  function BeginDealerTurn(r: Round): (r': Round)
    requires r.phase == PlayerStood
    ensures r'.deck == r.deck && r'.player == r.player && r'.dealer == r.dealer
    ensures r'.phase == DealerTurn <==> Total(r.dealer) < BlackjackAmount
    ensures r'.phase != DealerTurn ==> r'.phase.Over? && r'.phase.ending.Settled? && r'.phase.ending.side == Dealer
    ensures SettledAgrees(r')
  {
    Settle(r, Dealer, DealerTurn)
  }

  /** How far the dealer's total is below the hit limit. */
  function Headroom(r: Round): nat
  {
    if Total(r.dealer) < DealerHitLimit then DealerHitLimit - Total(r.dealer) else 0
  }

  /** One pass of the loop of `dealer_turn`: under 17 the dealer draws one
      card and the new total is checked; at 17 or more the dealer stays and
      `who_won?` compares the totals. */
  function DealerStep(r: Round): (r': Round)
    requires r.phase == DealerTurn
    ensures Holdings(r') == Holdings(r) && CardCount(r') == CardCount(r)
    ensures r'.player == r.player
    ensures Total(r.dealer) < DealerHitLimit && r.deck != [] ==>
      && r'.deck == r.deck[..|r.deck| - 1]
      && r'.dealer == r.dealer + [r.deck[|r.deck| - 1]]
      && (r'.phase == DealerTurn <==> Total(r'.dealer) < BlackjackAmount)
      && (r'.phase != DealerTurn ==> r'.phase.Over? && r'.phase.ending.Settled? && r'.phase.ending.side == Dealer)
    ensures Total(r.dealer) < DealerHitLimit && r.deck == [] ==> r' == r.(phase := Over(Crashed(EmptyDeck)))
    ensures Total(r.dealer) >= DealerHitLimit ==>
      r' == r.(phase := Over(Compared(WhoWon(Total(r.player), Total(r.dealer)))))
    ensures r'.phase == DealerTurn ==> Headroom(r') < Headroom(r)
    ensures SettledAgrees(r')
  {
    if Total(r.dealer) < DealerHitLimit then
      match Draw(r, Dealer)
      case None => r.(phase := Over(Crashed(EmptyDeck)))
      case Some(r1) => Settle(r1, Dealer, DealerTurn)
    else
      r.(phase := Over(Compared(WhoWon(Total(r.player), Total(r.dealer)))))
  }

  /** The loop of `dealer_turn`. It ends because every draw raises the
      dealer's total by at least one. */
  function DealerLoop(r: Round): (r': Round)
    requires r.phase == DealerTurn
    ensures r'.phase.Over?
    ensures Holdings(r') == Holdings(r) && CardCount(r') == CardCount(r)
    ensures r'.player == r.player
    ensures r.dealer <= r'.dealer
    ensures r'.phase.ending.Crashed? ==> r'.phase.ending.crash == EmptyDeck
    ensures r'.phase.ending.Settled? ==> r'.phase.ending.side == Dealer
    ensures r'.phase.ending.Compared? ==>
      && DealerHitLimit <= Total(r'.dealer)
      && (Total(r.dealer) < BlackjackAmount ==> Total(r'.dealer) < BlackjackAmount)
      && r'.phase.ending.result == WhoWon(Total(r'.player), Total(r'.dealer))
    ensures SettledAgrees(r')
    decreases Headroom(r)
  {
    var r1 := DealerStep(r);
    if r1.phase == DealerTurn then
      assert r.dealer <= r1.dealer && Total(r1.dealer) < BlackjackAmount;
      DealerLoop(r1)
    else
      r1
  }

  /** `dealer_turn` followed by `who_won?`, once the player has stood. */
  function DealerTurnAndResult(r: Round): (r': Round)
    requires r.phase == PlayerStood
    ensures r'.phase.Over?
    ensures Holdings(r') == Holdings(r) && CardCount(r') == CardCount(r)
    ensures r'.player == r.player && r.dealer <= r'.dealer
    ensures r'.phase.ending.Crashed? ==> r'.phase.ending.crash == EmptyDeck
    ensures r'.phase.ending.Settled? ==> r'.phase.ending.side == Dealer
    ensures r'.phase.ending.Compared? ==>
      && DealerHitLimit <= Total(r'.dealer) < BlackjackAmount
      && r'.phase.ending.result == WhoWon(Total(r'.player), Total(r'.dealer))
    ensures SettledAgrees(r')
  {
    var r1 := BeginDealerTurn(r);
    if r1.phase == DealerTurn then DealerLoop(r1) else r1
  }

  /** `player_turn`: the check on the two dealt cards, then the loop. It ends
      with the player standing under 21 or with the round over for the player. */
  function TakePlayerTurn(r: Round, inputs: seq<string>): (res: (Round, seq<string>))
    requires r.phase == Dealt
    ensures var (r', rest) := res;
      && (r'.phase == PlayerStood
          || (r'.phase.Over? && (r'.phase.ending.Crashed? || (r'.phase.ending.Settled? && r'.phase.ending.side == Player))))
      && |rest| <= |inputs| && rest == inputs[|inputs| - |rest|..]
    ensures var (r', rest) := res;
      && Holdings(r') == Holdings(r) && CardCount(r') == CardCount(r)
      && r'.dealer == r.dealer
      && r.player <= r'.player
    ensures res.0.phase == PlayerStood ==> Total(res.0.player) < BlackjackAmount
    ensures SettledAgrees(res.0)
  {
    var r1 := BeginPlayerTurn(r);
    if r1.phase != PlayerTurn then
      assert inputs[|inputs| - |inputs|..] == inputs;
      (r1, inputs)
    else
      PlayerLoop(r1, inputs)
  }

  /** `player_turn` and everything after it, once the cards are dealt. */
  function PlayFromDeal(r: Round, inputs: seq<string>): (res: (Round, seq<string>))
    requires r.phase == Dealt
    ensures var (r', rest) := res;
      && r'.phase.Over?
      && Holdings(r') == Holdings(r) && CardCount(r') == CardCount(r)
      && |rest| <= |inputs| && rest == inputs[|inputs| - |rest|..]
    ensures var (r', rest) := res;
      r'.phase.ending.Compared? ==>
        && Total(r'.player) < BlackjackAmount
        && DealerHitLimit <= Total(r'.dealer) < BlackjackAmount
        && r'.phase.ending.result == WhoWon(Total(r'.player), Total(r'.dealer))
    ensures var (r', rest) := res;
      r'.phase.ending.Settled? && r'.phase.ending.side == Player ==> r'.dealer == r.dealer
    ensures SettledAgrees(res.0)
  {
    var (r1, rest) := TakePlayerTurn(r, inputs);
    if r1.phase == PlayerStood then
      var r2 := DealerTurnAndResult(r1);
      assert r2.player == r1.player && Total(r1.player) < BlackjackAmount;
      assert Holdings(r2) == Holdings(r1) == Holdings(r);
      (r2, rest)
    else
      assert r1.phase.Over? && r1.dealer == r.dealer;
      (r1, rest)
  }

  /** One round from a shuffled deck and the player's answers (`start`
      without the name prompt and the replay): the deal, the player's turn,
      the dealer's turn and the comparison. Returns the final state and the
      input lines left unread. */
  function PlayRound(deck: seq<Card>, inputs: seq<string>): (res: (Round, seq<string>))
    ensures var (r, rest) := res;
      && r.phase.Over?
      && Holdings(r) == multiset(deck)
      && CardCount(r) == |deck|
      && |rest| <= |inputs| && rest == inputs[|inputs| - |rest|..]
    ensures var (r, rest) := res;
      r.phase.ending.Compared? ==>
        && Total(r.player) < BlackjackAmount
        && DealerHitLimit <= Total(r.dealer) < BlackjackAmount
        && r.phase.ending.result == WhoWon(Total(r.player), Total(r.dealer))
    ensures var (r, rest) := res;
      |deck| >= 4 && r.phase.ending.Settled? && r.phase.ending.side == Player ==> |r.dealer| == 2
    ensures SettledAgrees(res.0)
  {
    var r := Deal(Round(deck, [], [], Dealing));
    if r.phase == Dealt then PlayFromDeal(r, inputs) else (r, inputs)
  }

  /** Within the player's turn the deck cannot run out: every card in the
      player's hand adds at least 1 to a total still under 21. */
  lemma {:induction false} PlayerLoopKeepsCards(r: Round, inputs: seq<string>)
    requires r.phase == PlayerTurn
    requires CardCount(r) == DeckSize && |r.dealer| == 2 && Total(r.player) < BlackjackAmount
    ensures PlayerLoop(r, inputs).0.phase != Over(Crashed(EmptyDeck))
    decreases |inputs|
  {
    var (r1, rest) := PlayerPass(r, inputs);
    if inputs != [] {
      assert |r.deck| > 0;
      assert r1 == PlayerStep(r, inputs[0]);
    }
    if r1.phase == PlayerTurn {
      PlayerLoopKeepsCards(r1, rest);
    }
  }

  /** Within the dealer's turn the deck cannot run out: the dealer draws only
      under 17, so holds at most 16 cards, and the player at most 20. */
  lemma {:induction false} DealerLoopKeepsCards(r: Round)
    requires r.phase == DealerTurn
    requires CardCount(r) == DeckSize && Total(r.player) < BlackjackAmount
    ensures DealerLoop(r).phase != Over(Crashed(EmptyDeck))
    decreases Headroom(r)
  {
    var r1 := DealerStep(r);
    if Total(r.dealer) < DealerHitLimit {
      assert |r.deck| > 0;
    }
    if r1.phase == DealerTurn {
      DealerLoopKeepsCards(r1);
    }
  }

  /** After a deal of 52 cards in play, neither turn draws from an empty deck. */
  lemma PlayFromDealKeepsCards(r: Round, inputs: seq<string>)
    requires r.phase == Dealt && CardCount(r) == DeckSize && |r.dealer| == 2
    ensures PlayFromDeal(r, inputs).0.phase != Over(Crashed(EmptyDeck))
  {
    var r1 := BeginPlayerTurn(r);
    if r1.phase == PlayerTurn {
      PlayerLoopKeepsCards(r1, inputs);
      var (r2, rest) := PlayerLoop(r1, inputs);
      assert TakePlayerTurn(r, inputs) == (r2, rest);
      if r2.phase == PlayerStood {
        var r3 := BeginDealerTurn(r2);
        if r3.phase == DealerTurn {
          DealerLoopKeepsCards(r3);
        }
      }
    }
  }

  /** A round played from a full deck never draws from an empty one. */
  lemma FullDeckNeverRunsOut(deck: seq<Card>, inputs: seq<string>)
    requires |deck| == DeckSize
    ensures PlayRound(deck, inputs).0.phase != Over(Crashed(EmptyDeck))
  {
    var r0 := Round(deck, [], [], Dealing);
    var r := Deal(r0);
    assert r.phase == Dealt && CardCount(r) == CardCount(r0) == DeckSize && |r.dealer| == 2;
    PlayFromDealKeepsCards(r, inputs);
    assert PlayRound(deck, inputs) == PlayFromDeal(r, inputs);
  }

  /** A hit that takes the player over 21 ends the round as the player's
      bust, which the program announces as a loss. */
  lemma HitPastTwentyOneLoses(r: Round)
    requires r.phase == PlayerTurn && r.deck != []
    requires Total(r.player + [r.deck[|r.deck| - 1]]) > BlackjackAmount
    ensures PlayerStep(r, "y").phase == Over(Settled(Player, Bust))
    ensures Announced(PlayerStep(r, "y").phase.ending) == Some(Lose)
  {
  }

  /** A blackjack on the player's two dealt cards ends the round at once:
      the player wins, no input is read and the dealer never plays. */
  lemma DealtBlackjackEndsRound(deck: seq<Card>, inputs: seq<string>)
    requires |deck| >= 4
    requires Total([deck[|deck| - 1], deck[|deck| - 3]]) == BlackjackAmount
    ensures var (r, rest) := PlayRound(deck, inputs);
      && r.phase == Over(Settled(Player, Blackjack))
      && Announced(r.phase.ending) == Some(Win)
      && rest == inputs
      && |r.dealer| == 2
  {
  }
}
