/** Result values shared by both variants of the engine: the error channel of the
    throwing operations and the status of the two customer-facing operations. */
module Outcomes {

  datatype Option<T> = None | Some(value: T)

  /** What a throwing constructor either builds or throws. */
  datatype Result<T, E> = Success(value: T) | Failure(error: E)

  /** The errors a drink's constructor throws, in the order it checks for them. */
  datatype DrinkError = InvalidPrice | InvalidQuantity | InvalidSlot

  /** The errors addCoins and addCash throw on a negative amount. */
  datatype PoolError = NegativeCoinAmount | NegativeCashAmount

  /** How buyDrink ended: success, or the first of its checks that failed. */
  datatype BuyStatus = Purchased | DrinkNotFound | OutOfStock | InsufficientPayment | InsufficientChange

  /** How refillDrink ended: success, or the check that failed. */
  datatype RefillStatus = Refilled | RefillNotFound | AboveRefillThreshold
}
