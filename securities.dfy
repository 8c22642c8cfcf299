/**
 * The records of the backtester (src/Security/Security.js, src/Position/Position.js):
 * a minute bar, a security with its bar series and current price, and a position.
 */
module Securities {

  /** One minute aggregate of one symbol. Prices are in cents. */
  datatype Bar = Bar(
    timestamp: string,
    openPrice: int,
    highPrice: int,
    lowPrice: int,
    closePrice: int,
    volume: int)

  /**
   * A security tracked by the market data: its symbol, the price of the last bar
   * revealed so far, and its whole bar series.
   */
  datatype Security = Security(symbol: string, price: int, data: seq<Bar>)

  /** `new Security(symbol, data)`: the series is kept as given and the price starts at 0. */
  function NewSecurity(symbol: string, data: seq<Bar>): Security
  {
    Security(symbol, 0, data)
  }

  /** A holding of some quantity of one symbol. */
  datatype Position = Position(symbol: string, quantity: int)

  /** `new Position(symbol, quantity = 0)`. */
  function NewPosition(symbol: string, quantity: int := 0): Position
  {
    Position(symbol, quantity)
  }
}
