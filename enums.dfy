/** The `Coin` and `State` enums and `value_in_cents`. */
module Enums {
  import opened RustInts

  datatype State = Pennsylvania

  datatype Coin = Penny | Nickel | Dime | Quarter(state: State)

  /**
    `value_in_cents`: an exhaustive match from a coin to its value in cents.
    Each value belongs to exactly one kind of coin.
  */
  function ValueInCents(coin: Coin): (cents: U8)
    ensures cents in {1, 5, 10, 25}
    ensures cents == 1 <==> coin.Penny?
    ensures cents == 5 <==> coin.Nickel?
    ensures cents == 10 <==> coin.Dime?
    ensures cents == 25 <==> coin.Quarter?
  {
    match coin
    case Penny => 1
    case Nickel => 5
    case Dime => 10
    case Quarter(_) => 25
  }

  /** The state a quarter carries does not affect its value. */
  lemma QuarterValueIgnoresState(s: State, t: State)
    ensures ValueInCents(Quarter(s)) == ValueInCents(Quarter(t)) == 25
  {
  }

  /** Two coins are worth the same exactly when they are the same kind of coin. */
  lemma SameValueIffSameKind(a: Coin, b: Coin)
    ensures ValueInCents(a) == ValueInCents(b) <==>
      (a.Penny? && b.Penny?) || (a.Nickel? && b.Nickel?) ||
      (a.Dime? && b.Dime?) || (a.Quarter? && b.Quarter?)
  {
  }

  /** Every value lies between a penny's and a quarter's. */
  lemma ValueBounds(coin: Coin)
    ensures ValueInCents(Penny) <= ValueInCents(coin) <= ValueInCents(Quarter(Pennsylvania))
  {
  }
}
