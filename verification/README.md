# Blackjack round, modelled in Dafny

A model of the game logic of `oo_blackjack.rb`, a one-player terminal
blackjack game against a dealer who follows a fixed rule. The model covers:

- the cards (`Card`): a suit and one of the thirteen face values;
- the deck (`Deck`): all 52 suit/face-value pairs built by two nested loops,
  shuffled, and drawn from the end;
- the scoring shared by player and dealer (`Hand`): a single left-to-right
  pass in which each Ace counts 11 when the running sum plus 11 stays at 21
  or under and 1 otherwise, number cards count their number, and Jack, Queen
  and King count 10; a hand is bust over 21;
- one round (`Blackjack`) as a state machine over an explicit state
  `Round(deck, player, dealer, phase)`. The deal goes player, dealer,
  player, dealer. `blackjack_or_bust?` checks for 21 before it checks for
  bust, and ends the round when either holds. The player's loop reads one
  line per pass: "y" draws a card, "n" stands, and any other line is refused
  without drawing. The dealer draws while under 17. `who_won?` compares the
  two totals strictly.

Modules: `Optional` (the `Option` type), `Cards`, `Decks`, `Hands`, `Game`.

The terminal is replaced by parameters. The player's answers are a sequence
of input lines with the line ending already removed. The shuffle's random
choices are a sequence of indices, one per swap. A round can also end in a
way the program never announces: the Ruby code would raise an exception
there. `Crashed(EmptyDeck)` stands for a draw from an empty deck, where
`Array#pop` gives `nil` and scoring `nil` fails. `Crashed(EndOfInput)`
stands for a read past the end of the input, where `gets` gives `nil` and
`nil.chomp` fails. `FullDeckNeverRunsOut` proves that the first cannot happen
in a round played from a 52-card deck.

Three behaviours of the code are easy to miss, and the model keeps each one:

- Ace, 10, 5 scores 26, not 16. The Ace is valued before the 10 and the 5
  are seen, and it is never lowered afterwards (`Hands.ScoreDependsOnOrder`).
- A replay does not build a fresh deck: `deck = Deck.new` at line 224
  assigns a local variable, so the next round draws from the old deck.
  Replay is not modelled.
- Drawing from an empty deck is not reported. `Array#pop` gives `nil`, and
  the program fails later, when that `nil` is scored.

## Model

| member | source | states |
|---|---|---|
| Hands.AddRank | oo_blackjack.rb:60-69 | one scoring step adds 1 to 11; an Ace adds 11 exactly when the running sum plus 11 is at most 21, and 1 exactly when it is more; any other card adds its value, 10 for Jack/Queen/King |
| Hands.TotalFrom | oo_blackjack.rb:59-71 | scoring k cards from a running sum adds at least k and at most 11k to it |
| Hands.Total | oo_blackjack.rb:56-72 | a hand's total is at least its number of cards and at most 11 times that number |
| Hands.ComputeTotal | oo_blackjack.rb:56-72 | the running-total loop over the face values computes the left fold `Total` |
| Hands.TotalFromAppend | oo_blackjack.rb:59-71 | scoring a concatenation is scoring the second part starting from the first part's total |
| Hands.TotalAppendCard | oo_blackjack.rb:60-68 | the total after one more card is determined by the previous total and that card alone |
| Hands.AddCard | oo_blackjack.rb:74-76 | the card is appended last, the earlier cards are unchanged, and the total rises by 1 to 11 |
| Hands.TotalGrows | oo_blackjack.rb:56-76 | appending k cards raises the total by at least k and at most 11k |
| Hands.IsBusted | oo_blackjack.rb:78-80 | a hand is bust exactly when its total is over 21, and a bust hand has at least three cards |
| Hands.ShortHandNotBust | oo_blackjack.rb:60-80 | a hand of at most two cards totals at most 21, so it is never bust |
| Hands.BustPersists | oo_blackjack.rb:78-80 | a hand whose total is over 21 stays over 21 after any further cards |
| Hands.NoAceTotalIsSum | oo_blackjack.rb:68 | without Aces the total equals the plain sum of card values, with Jack/Queen/King at 10 |
| Hands.GreedyInvariant | oo_blackjack.rb:60-66 | the greedy total is at least the all-Aces-low sum, at least 10 more when an Ace could be high, and equals the usual blackjack count whenever it is 21 or less |
| Hands.TotalAtLeastBest | oo_blackjack.rb:60-66 | the greedy total is never below the usual blackjack count (all Aces low, one raised to 11 if that stays at 21 or under) |
| Hands.TotalIsBestUnlessBusted | oo_blackjack.rb:60-66 | on a hand that is not bust, the greedy total equals the usual blackjack count |
| Hands.TenAceAceBusts | oo_blackjack.rb:60-80 | 10, Ace, Ace scores 22 and is bust, while the usual count gives 12 |
| Hands.ScoreDependsOnOrder | oo_blackjack.rb:60-66 | Ace, 10, 5 scores 26 but 5, 10, Ace scores 16: the score depends on card order |
| Decks.FreshDeck | oo_blackjack.rb:31-37 | the unshuffled deck has 52 cards, and the card of the s-th suit (H, D, S, C) and k-th face value (2..10, Jack, Queen, King, Ace) sits at position 13s + k |
| Decks.FreshDeckExactlyOnce | oo_blackjack.rb:31-37 | the unshuffled deck holds each of the 52 suit/face-value pairs exactly once |
| Decks.BuildDeck | oo_blackjack.rb:31-37 | the two nested loops append the cards suit by suit (H, D, S, C), each suit 2..10, Jack, Queen, King, Ace |
| Decks.Shuffle | oo_blackjack.rb:38 | the swap loop of `shuffle!` returns a permutation of the deck: same length, same multiset of cards |
| Decks.NewDeck | oo_blackjack.rb:31-39 | a new deck has 52 cards and each card exactly once, whatever the random choices |
| Decks.DrawCard | oo_blackjack.rb:41-43 | drawing from an empty deck gives nothing; otherwise it gives the last card, and the rest plus that card is the old deck |
| Decks.DrawMany | oo_blackjack.rb:41-43 | n draws succeed exactly when the deck has at least n cards; they give the last n cards from the end backwards and keep all the cards |
| Decks.DrawWholeDeck | oo_blackjack.rb:41-43 | drawing a new deck 52 times gives every card exactly once and empties it; a 53rd draw finds nothing |
| Game.BlackjackOrBust | oo_blackjack.rb:147-162 | blackjack exactly when the total is 21, bust exactly when it is over 21, nothing exactly when it is under 21 |
| Game.WhoWon | oo_blackjack.rb:210-216 | exactly one of win, lose or tie: win iff the player's total is greater, lose iff smaller, tie iff equal |
| Game.Announced | oo_blackjack.rb:147-162 | the player wins on their own blackjack or the dealer's bust and loses on their own bust or the dealer's blackjack |
| Game.Draw | oo_blackjack.rb:183-185 | a draw moves the deck's last card to the end of one side's hand, leaves the other hand alone, and keeps every card of the round |
| Game.DealPair | oo_blackjack.rb:136-137 | one card to the player then one to the dealer takes the deck's last two cards in that order |
| Game.DealCards | oo_blackjack.rb:135-140 | the four draws succeed exactly when the deck has at least four cards, and keep every card of the round |
| Game.Deal | oo_blackjack.rb:135-140 | after the deal the player holds the last and third-last cards, the dealer the second- and fourth-last, and the deck has lost those four |
| Game.Settle | oo_blackjack.rb:147-162 | the check ends the round as that side's blackjack on 21 and bust over 21, and moves on under 21 without touching cards |
| Game.BeginPlayerTurn | oo_blackjack.rb:165-167 | the player's turn goes on exactly when the dealt total is under 21; otherwise the round is settled for the player, as Blackjack only on 21 and Bust only over 21 |
| Game.PlayerStep | oo_blackjack.rb:170-188 | a line other than "y"/"n" changes nothing; "n" stands with nothing drawn; "y" moves exactly one card from the deck to the player and the turn goes on exactly when the new total is under 21; a hit that ends the turn is the player's Blackjack only on 21 and Bust only over 21 |
| Game.PlayerPass | oo_blackjack.rb:169-188 | a bust hand leaves the loop without reading; with no line left the program stops; otherwise exactly one line is read, the dealer's hand is untouched, the player's only grows, every card is kept, and a settled ending agrees with the player's total |
| Game.PlayerLoop | oo_blackjack.rb:169-189 | the loop ends, reads input only from the front, leaves the dealer's hand alone, only appends to the player's hand, draws no more cards than lines read, keeps every card, and ends as Blackjack only on 21 and Bust only over 21 |
| Game.BeginDealerTurn | oo_blackjack.rb:192-194 | the dealer's turn goes on exactly when the dealer's two cards total under 21; otherwise the round is the dealer's Blackjack on 21 or Bust over 21 |
| Game.DealerStep | oo_blackjack.rb:195-203 | under 17 the dealer draws exactly one card; at 17 or more the round is decided by comparing totals; a further pass leaves less headroom below 17; a draw that ends the round is the dealer's Blackjack only on 21 and Bust only over 21 |
| Game.DealerLoop | oo_blackjack.rb:195-203 | the dealer's loop ends, only appends to the dealer's hand, and a round decided by comparison has the dealer at 17 or more, and a settled ending agrees with the dealer's total |
| Game.DealerTurnAndResult | oo_blackjack.rb:192-216 | after the player stands, a round decided by comparison has the dealer between 17 and 20 and the result is the strict comparison; a settled ending agrees with the dealer's total |
| Game.TakePlayerTurn | oo_blackjack.rb:164-190 | the player's turn reads input only from the front, keeps every card, leaves the dealer's hand alone, and ends with the player standing under 21 or the round over for the player, its Blackjack at 21 and its Bust over 21 |
| Game.PlayFromDeal | oo_blackjack.rb:238-240 | from the deal on, the round ends, keeps every card, and leaves the dealer's hand alone when the player's turn settles it, and every Blackjack ending has the settling side at 21 and every Bust ending over 21 |
| Game.PlayRound | oo_blackjack.rb:233-240 | a round always ends; deck plus both hands hold exactly the cards of the starting deck; a compared round has the player under 21 and the dealer between 17 and 20; a Blackjack ending has the settling side at exactly 21 and a Bust ending over 21 |
| Game.PlayerLoopKeepsCards | oo_blackjack.rb:169-189 | with 52 cards in play the player's turn never draws from an empty deck |
| Game.DealerLoopKeepsCards | oo_blackjack.rb:195-203 | with 52 cards in play the dealer's turn never draws from an empty deck |
| Game.PlayFromDealKeepsCards | oo_blackjack.rb:238-240 | after a deal with 52 cards in play, neither the player's nor the dealer's turn draws from an empty deck |
| Game.FullDeckNeverRunsOut | oo_blackjack.rb:233-241 | a round played from a 52-card deck never draws from an empty deck |
| Game.HitPastTwentyOneLoses | oo_blackjack.rb:178-188 | a "y" whose card takes the player over 21 ends the round as the player's bust, announced as a loss |
| Game.DealtBlackjackEndsRound | oo_blackjack.rb:147-154 | a dealt 21 for the player ends the round at once as a win, reads no input, and the dealer never draws |

## Left out

- Terminal output: `puts`, `Card#to_s`, `find_suit`, `show_hand`, the two `show_flop` variants, `show_flops` and every message. They only format text. The hidden first dealer card is a display matter, so it is not modelled.
- `set_player_name` and the player's name: the name appears only in messages.
- `system 'clear'`: a screen side effect.
- `play_again?`, the restart through `start` and `exit`. An early result is the terminal phase `Over(Settled(..))`. Replay is not modelled, and in the code it does not replace the deck anyway (line 224 assigns a local variable).
- Randomness: the random index of each swap in `shuffle!` is a parameter `picks` with `picks[i] <= i`.
- Decks.Shuffle: states only that the result is a permutation of the deck. It does not state that every ordering is reachable or that the orderings are equally likely, which is about the random source.
- `gets` and `chomp`: the player's answers are a sequence of lines already stripped of their line ending. The name prompt and the replay prompt read no modelled input.
- The exceptions the Ruby code would raise are modelled as `Crashed(..)` endings, without the rest of the program's state.
- Game.Deal: on a deck of fewer than four cards the model ends the round at once as `Crashed(EmptyDeck)` with the hands as they were. The code first appends the cards there are and a `nil` for each missing one. With three cards the player gets two real cards, and the dealer gets one card and a `nil`. The player's check still runs, so a dealt 21 is announced as a win, and running out of input ends the program with an `EndOfInput` failure; only a stand, a hit or a dealer check reaches the `nil`. Such a short deck arises only on a replay, which is not modelled.
- `require 'pry'` and the script's last line, `Blackjack.new.start`: process start-up.

Ruby integers do not overflow, so the model's unbounded `int` is exact.
