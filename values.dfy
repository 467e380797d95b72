/** Value types shared by the signal engine of the crypto notificator. */
module Values {

  /** The NaN sentinel of an average series is `None`; a computed average is `Some`. */
  datatype Option<+T> = None | Some(value: T)

  /** One record of the price history: `date` is the epoch in milliseconds, `close` the price. */
  datatype Point = Point(date: int, close: real)

  /** The two kinds of crossover and of notification. */
  datatype Direction = Buy | Sell

  /** The close prices of a price history, in order. */
  function Closes(data: seq<Point>): seq<real>
  {
    seq(|data|, k requires 0 <= k < |data| => data[k].close)
  }
}
