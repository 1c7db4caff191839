/**
 * The single-symbol client: one append-only series, a flag raised by the
 * completion callback, and a three-way moving-average rule that places at
 * most one fixed-size market order.
 */
module SingleSymbolTrading {
  import opened Wrappers
  import opened Python
  import opened Broker
  import opened MovingAverage

  const STOCK_SYMBOL: string := "AAPL"
  const QUANTITY: int := 10

  /**
   * The decision of `check_strategy_and_trade`: BUY above the 200-close mean,
   * SELL below it, nothing on equality or while the mean is undefined. An
   * empty series has no last close to read.
   */
  function TrendAction(closes: seq<real>): (r: Result<Option<string>, Exception>)
    ensures r.Failure? <==> closes == []
    ensures r.Failure? ==> r.error == IndexError
    ensures r == Success(Some("BUY")) <==>
      closes != [] && Average(closes).Some? && Last(closes) > Average(closes).value
    ensures r == Success(Some("SELL")) <==>
      closes != [] && Average(closes).Some? && Last(closes) < Average(closes).value
    ensures r == Success(None) <==>
      closes != [] && (Average(closes).None? || Last(closes) == Average(closes).value)
  {
    CompareWithAverage(closes);
    if closes == [] then Failure(IndexError)
    else if Above(closes) then Success(Some("BUY"))
    else if Below(closes) then Success(Some("SELL"))
    else Success(None)
  }

  /** On a non-empty series this client buys exactly when the multi-symbol
      client's signal is 1; when the signal is 0 it sells or does nothing. */
  lemma TrendActionAgreesWithLongSignal(closes: seq<real>)
    requires closes != []
    ensures TrendAction(closes) == Success(Some("BUY")) <==> LongSignal(closes) == 1
    ensures LongSignal(closes) == 0 <==>
      TrendAction(closes) == Success(Some("SELL")) || TrendAction(closes) == Success(None)
  {
  }

  /** The ticket `place_order` builds. */
  function MarketOrder(action: string): (order: Order)
    ensures order.action == action && order.orderType == "MKT" && order.totalQuantity == QUANTITY
  {
    Order(action, "MKT", QUANTITY, None, None)
  }

  class IBapi {
    /** Bars received so far, in arrival order. */
    var data: seq<Bar>
    var historicalDataReceived: bool
    /** `None` until `nextValidId` has run (the attribute does not exist yet). */
    var nextOrderId: Option<int>

    constructor ()
      ensures data == [] && !historicalDataReceived && nextOrderId == None
    {
      data := [];
      historicalDataReceived := false;
      nextOrderId := None;
    }

    /** `historicalData`: append one bar, whatever the request id. */
    method HistoricalData(reqId: int, bar: Bar)
      modifies this
      ensures data == old(data) + [bar]
      ensures historicalDataReceived == old(historicalDataReceived) && nextOrderId == old(nextOrderId)
    {
      data := data + [bar];
    }

    /** `historicalDataEnd`: raise the flag the main thread waits on. */
    method HistoricalDataEnd(reqId: int)
      modifies this
      ensures historicalDataReceived
      ensures data == old(data) && nextOrderId == old(nextOrderId)
    {
      historicalDataReceived := true;
    }

    /** `nextValidId`: seed the order-id counter and issue the single
        historical-data request. */
    method NextValidId(orderId: int) returns (request: HistoricalRequest)
      modifies this
      ensures nextOrderId == Some(orderId)
      ensures request == HistoricalRequest(1, StockContract(STOCK_SYMBOL), "2 Y", "1 day", "ADJUSTED_LAST", true)
      ensures data == old(data) && historicalDataReceived == old(historicalDataReceived)
    {
      nextOrderId := Some(orderId);
      request := HistoricalRequest(1, StockContract(STOCK_SYMBOL), "2 Y", "1 day", "ADJUSTED_LAST", true);
    }

    /** `place_order`: submit under the current order id, then advance it by
        one. Before `nextValidId` the counter does not exist. */
    method PlaceOrder(action: string) returns (r: Result<Submission, Exception>)
      modifies this
      ensures data == old(data) && historicalDataReceived == old(historicalDataReceived)
      ensures old(nextOrderId).None? ==> r == Failure(AttributeError) && nextOrderId == None
      ensures old(nextOrderId).Some? ==>
        && r == Success(Submission(old(nextOrderId).value, StockContract(STOCK_SYMBOL), MarketOrder(action)))
        && nextOrderId == Some(old(nextOrderId).value + 1)
    {
      if nextOrderId.None? {
        return Failure(AttributeError);
      }
      var order := MarketOrder(action);
      var orderId := nextOrderId.value;
      nextOrderId := Some(nextOrderId.value + 1);
      r := Success(Submission(orderId, StockContract(STOCK_SYMBOL), order));
    }

    /** `check_strategy_and_trade`: at most one order, chosen by `TrendAction`
        on the closes received so far. */
    method CheckStrategyAndTrade() returns (r: Result<Option<Submission>, Exception>)
      modifies this
      ensures data == old(data) && historicalDataReceived == old(historicalDataReceived)
      ensures var decision := TrendAction(Closes(data));
        && (decision.Failure? ==> r == Failure(decision.error) && nextOrderId == old(nextOrderId))
        && (decision == Success(None) ==> r == Success(None) && nextOrderId == old(nextOrderId))
        && (decision.Success? && decision.value.Some? && old(nextOrderId).None? ==>
              r == Failure(AttributeError) && nextOrderId == None)
        && (decision.Success? && decision.value.Some? && old(nextOrderId).Some? ==>
              && r == Success(Some(Submission(old(nextOrderId).value, StockContract(STOCK_SYMBOL),
                                              MarketOrder(decision.value.value))))
              && nextOrderId == Some(old(nextOrderId).value + 1))
    {
      var closes := Closes(data);
      if closes == [] {
        return Failure(IndexError);
      }
      if Above(closes) {
        var placed := PlaceOrder("BUY");
        r := if placed.Failure? then Failure(placed.error) else Success(Some(placed.value));
      } else if Below(closes) {
        var placed := PlaceOrder("SELL");
        r := if placed.Failure? then Failure(placed.error) else Success(Some(placed.value));
      } else {
        r := Success(None);
      }
    }
  }
}
