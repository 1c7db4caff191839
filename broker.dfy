/**
 * The values that cross the boundary to the broker's gateway: the daily bars
 * it delivers, and the contracts, orders and requests the clients send.
 */
module Broker {
  import opened Wrappers

  /** One daily bar of a historical-data reply: its date as the feed formats
      it, and its closing price. */
  datatype Bar = Bar(date: string, close: real)

  /** The close column of a series of bars, in arrival order. */
  function Closes(bars: seq<Bar>): seq<real> {
    seq(|bars|, i requires 0 <= i < |bars| => bars[i].close)
  }

  datatype Contract = Contract(symbol: string, secType: string, exchange: string, currency: string)

  /** A US stock routed through the broker's smart router; every client
      builds its contracts this way. */
  function StockContract(symbol: string): (c: Contract)
    ensures c.symbol == symbol
    ensures c.secType == "STK" && c.exchange == "SMART" && c.currency == "USD"
  {
    Contract(symbol, "STK", "SMART", "USD")
  }

  /**
   * An order ticket. `eTradeOnly` and `firmQuoteOnly` are `None` when the
   * client leaves them at the library's defaults.
   */
  datatype Order = Order(action: string, orderType: string, totalQuantity: int,
                         eTradeOnly: Option<bool>, firmQuoteOnly: Option<bool>)

  /** One `placeOrder(orderId, contract, order)` call. */
  datatype Submission = Submission(orderId: int, contract: Contract, order: Order)

  /** One `reqHistoricalData` call (the arguments that vary between clients). */
  datatype HistoricalRequest = HistoricalRequest(reqId: int, contract: Contract, duration: string,
                                                 barSize: string, whatToShow: string, regularHoursOnly: bool)
}
