/** The optional value returned where the game's Ruby code would return `nil`. */
module Optional {

  datatype Option<+T> = None | Some(value: T) {

    // A missing value stops a `:-` chain.
    predicate IsFailure() {
      None?
    }

    // What a stopped `:-` chain yields, at the enclosing value type.
    function PropagateFailure<U>(): Option<U>
      requires None?
    {
      None
    }

    // The card or state carried on the success path.
    function Extract(): T
      requires Some?
    {
      value
    }
  }
}

/** Playing cards: a suit and a face value, as built by the deck. */
module Cards {

  /** The four suits, written 'H', 'D', 'S' and 'C' in the game. */
  datatype Suit = Hearts | Diamonds | Spades | Clubs

  /** The face value of a number card: "2" up to "10". */
  type PipValue = n: int | 2 <= n <= 10 witness 2

  /** The thirteen face values. A number card is a `Pip`. */
  datatype Rank = Pip(n: PipValue) | Jack | Queen | King | Ace

  datatype Card = Card(suit: Suit, rank: Rank)
}
