/**
 * The earliest client: a series and a 0/1 position per request id, and
 * module-level code that always places exactly one fixed-size market order
 * for request 1's position.
 */
module EarlyTrading {
  import opened Wrappers
  import opened Python
  import opened Broker
  import opened MovingAverage

  const STOCK_SYMBOL: string := "AAPL"
  const QUANTITY: int := 10

  /** The action chosen from the positions: BUY exactly when request 1's
      position is 1, SELL otherwise, including when it has none. */
  function OrderAction(positions: map<int, int>): (action: string)
    ensures action == "BUY" || action == "SELL"
    ensures action == "BUY" <==> 1 in positions && positions[1] == 1
  {
    var current := if 1 in positions then positions[1] else 0;
    if current == 1 then "BUY" else "SELL"
  }

  /** The ticket the module-level code builds. */
  function SignalOrder(positions: map<int, int>): (order: Order)
    ensures order.orderType == "MKT" && order.totalQuantity == QUANTITY
    ensures order.action == OrderAction(positions)
    ensures order.eTradeOnly == Some(false) && order.firmQuoteOnly == Some(false)
  {
    Order(OrderAction(positions), "MKT", QUANTITY, Some(false), Some(false))
  }

  class IBapi {
    /** Bars received so far, per request id. */
    var data: map<int, seq<Bar>>
    /** Latest 0/1 position per completed request id. */
    var positions: map<int, int>
    /** `None` until `nextValidId` has run (the attribute does not exist yet). */
    var nextOrderId: Option<int>

    /** A series exists only once its first bar has arrived. */
    ghost predicate Valid()
      reads this
    {
      forall r :: r in data ==> data[r] != []
    }

    constructor ()
      ensures Valid()
      ensures data == map[] && positions == map[] && nextOrderId == None
    {
      data := map[];
      positions := map[];
      nextOrderId := None;
    }

    /** `historicalData`: append one bar to its request's series. */
    method HistoricalData(reqId: int, bar: Bar)
      requires Valid()
      modifies this
      ensures Valid()
      ensures reqId in data
      ensures data[reqId] == (if reqId in old(data) then old(data)[reqId] else []) + [bar]
      ensures forall r :: r != reqId ==> (r in data <==> r in old(data)) && (r in data ==> data[r] == old(data)[r])
      ensures positions == old(positions) && nextOrderId == old(nextOrderId)
    {
      if reqId !in data {
        data := data[reqId := []];
      }
      data := data[reqId := data[reqId] + [bar]];
    }

    /** `historicalDataEnd`: record the request's position from its series; a
        request that received no bars raises KeyError and changes nothing. */
    method HistoricalDataEnd(reqId: int) returns (error: Option<Exception>)
      requires Valid()
      modifies this
      ensures Valid()
      ensures data == old(data) && nextOrderId == old(nextOrderId)
      ensures reqId !in data ==> error == Some(KeyError) && positions == old(positions)
      ensures reqId in data ==>
        error == None && positions == old(positions)[reqId := LongSignal(Closes(data[reqId]))]
    {
      if reqId !in data {
        return Some(KeyError);
      }
      positions := positions[reqId := LongSignal(Closes(data[reqId]))];
      error := None;
    }

    /** `nextValidId`: seed the order-id counter. */
    method NextValidId(orderId: int)
      requires Valid()
      modifies this
      ensures Valid()
      ensures nextOrderId == Some(orderId)
      ensures data == old(data) && positions == old(positions)
    {
      nextOrderId := Some(orderId);
    }
  }

  /**
   * The module-level order: always exactly one, for request 1's position,
   * under the current order id, which then advances by one. Without a seeded
   * counter reading it raises AttributeError.
   */
  method PlaceSignalOrder(app: IBapi) returns (r: Result<Submission, Exception>)
    modifies app
    ensures app.data == old(app.data) && app.positions == old(app.positions)
    ensures old(app.nextOrderId).None? ==> r == Failure(AttributeError) && app.nextOrderId == None
    ensures old(app.nextOrderId).Some? ==>
      && r == Success(Submission(old(app.nextOrderId).value, StockContract(STOCK_SYMBOL), SignalOrder(app.positions)))
      && app.nextOrderId == Some(old(app.nextOrderId).value + 1)
  {
    var order := SignalOrder(app.positions);
    if app.nextOrderId.None? {
      return Failure(AttributeError);
    }
    var orderId := app.nextOrderId.value;
    app.nextOrderId := Some(app.nextOrderId.value + 1);
    r := Success(Submission(orderId, StockContract(STOCK_SYMBOL), order));
  }
}
