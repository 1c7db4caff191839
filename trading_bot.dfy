/**
 * The multi-symbol live-trading client: a gateway client whose callbacks
 * accumulate one price series per historical-data request, derive a 0/1
 * signal per symbol once a request completes, raise a completion flag once
 * every configured symbol has a signal, and track ownership from executions;
 * and the reconciliation loop that turns signals and ownership into market
 * orders, each consuming the next order id.
 */
module TradingBot {
  import opened Wrappers
  import opened Python
  import opened Sequences
  import OrderedDict
  import opened Broker
  import opened MovingAverage

  /** Shares sold when a held symbol turns flat, whatever is actually held. */
  const SELL_QUANTITY: int := 10

  // ---------------------------------------------------------------------------
  // Pure helpers: contracts, orders, error filter, request ids
  // ---------------------------------------------------------------------------

  /** `create_market_order(action, quantity)` */
  function CreateMarketOrder(action: string, quantity: int): (order: Order)
    ensures order.orderType == "MKT" && order.totalQuantity == quantity
    ensures order.action == Upper(action)
    ensures order.eTradeOnly == Some(false) && order.firmQuoteOnly == Some(false)
  {
    Order(Upper(action), "MKT", quantity, Some(false), Some(false))
  }

  /** Codes of the gateway's informational connectivity notices. */
  const INFORMATIONAL_CODES: set<int> := (set c | 2100 <= c <= 2110) + {2158}

  datatype ErrorLog = ErrorLog(reqId: int, code: int, message: string)

  /** The `error` callback: the error it logs, if any. */
  function ReportError(reqId: int, code: int, message: string): (logged: Option<ErrorLog>)
    ensures logged.None? <==> code in INFORMATIONAL_CODES
    ensures logged.Some? ==> logged.value == ErrorLog(reqId, code, message)
  {
    if 2100 <= code <= 2110 || code == 2158 then None else Some(ErrorLog(reqId, code, message))
  }

  /** `symbols[reqId - 1]`, the symbol a completing request belongs to; ids
      from `1 - n` to 0 count back from the end of the list. */
  function SymbolForRequest(symbols: seq<string>, reqId: int): (r: Result<string, Exception>)
    ensures r.Success? <==> 1 - |symbols| <= reqId <= |symbols|
    ensures r.Failure? ==> r.error == IndexError
    ensures r.Success? ==> r.value in symbols
    ensures 1 <= reqId <= |symbols| ==> r == Success(symbols[reqId - 1])
    ensures 1 - |symbols| <= reqId <= 0 ==> r == Success(symbols[|symbols| + reqId - 1])
  {
    match ListIndex(|symbols|, reqId - 1)
    case None => Failure(IndexError)
    case Some(k) => Success(symbols[k])
  }

  /** `{symbol: i + 1 for i, symbol in enumerate(symbols)}`: a repeated symbol
      keeps the id of its last occurrence. */
  function RequestIdMap(symbols: seq<string>): (m: map<string, int>)
    ensures m.Keys == Elements(symbols)
    ensures forall s :: s in m ==> 1 <= m[s] <= |symbols| && symbols[m[s] - 1] == s
    ensures forall s, j :: s in m && m[s] <= j < |symbols| ==> symbols[j] != s
  {
    if symbols == [] then map[]
    else
      var init := symbols[..|symbols| - 1];
      assert symbols == init + [symbols[|symbols| - 1]];
      RequestIdMap(init)[symbols[|symbols| - 1] := |symbols|]
  }

  /** The request id a symbol is requested under and the symbol that request's
      completion is filed under agree, for every configured symbol. */
  lemma RequestIdsRoundTrip(symbols: seq<string>, i: nat)
    requires Distinct(symbols) && i < |symbols|
    ensures RequestIdMap(symbols)[symbols[i]] == i + 1
    ensures SymbolForRequest(symbols, i + 1) == Success(symbols[i])
  {
    var m := RequestIdMap(symbols);
    assert symbols[i] in Elements(symbols);
    var j := m[symbols[i]] - 1;
    assert symbols[j] == symbols[i];
  }

  /** The historical-data requests issued for the configured symbols, in order. */
  method RequestHistory(symbols: seq<string>) returns (requests: seq<HistoricalRequest>)
    ensures |requests| == |symbols|
    ensures forall i :: 0 <= i < |symbols| ==>
      requests[i] == HistoricalRequest(i + 1, StockContract(symbols[i]), "1 Y", "1 day", "ADJUSTED_LAST", true)
  {
    requests := [];
    for i := 0 to |symbols|
      invariant |requests| == i
      invariant forall k :: 0 <= k < i ==>
        requests[k] == HistoricalRequest(k + 1, StockContract(symbols[k]), "1 Y", "1 day", "ADJUSTED_LAST", true)
    {
      requests := requests + [HistoricalRequest(i + 1, StockContract(symbols[i]), "1 Y", "1 day", "ADJUSTED_LAST", true)];
    }
  }

  // ---------------------------------------------------------------------------
  // Batch completion
  // ---------------------------------------------------------------------------

  /** `len(signals) == len(symbols)`, checked after a completion has recorded
      a signal (so never with no symbols). */
  function Complete(signals: OrderedDict.Dict<string, int>, symbols: seq<string>): (done: bool)
    ensures done ==> signals != [] && |signals| == |symbols|
    ensures signals != [] ==> (done <==> |signals| == |symbols|)
  {
    |symbols| > 0 && |signals| == |symbols|
  }

  /** Signals are keyed by configured symbols, so there are never more
      signals than distinct symbols. */
  lemma SignalsBounded(signals: OrderedDict.Dict<string, int>, symbols: seq<string>)
    requires OrderedDict.UniqueKeys(signals)
    requires forall p :: p in signals ==> p.0 in symbols
    ensures |signals| <= |Elements(symbols)| <= |symbols|
    ensures Elements(OrderedDict.Keys(signals)) <= Elements(symbols)
  {
    var keys := OrderedDict.Keys(signals);
    forall s | s in Elements(keys) ensures s in Elements(symbols) {
      var i :| 0 <= i < |keys| && keys[i] == s;
      assert signals[i] in signals;
    }
    DistinctIffFullCount(keys);
    DistinctIffFullCount(symbols);
    SubsetCount(Elements(keys), Elements(symbols));
  }

  /** With distinct symbols, the count test means every symbol has a signal. */
  lemma CompleteIffEverySymbolSignalled(signals: OrderedDict.Dict<string, int>, symbols: seq<string>)
    requires OrderedDict.UniqueKeys(signals)
    requires forall p :: p in signals ==> p.0 in symbols
    requires Distinct(symbols)
    ensures Complete(signals, symbols) <==>
      |symbols| > 0 && forall s :: s in symbols ==> s in OrderedDict.Keys(signals)
  {
    var keys := OrderedDict.Keys(signals);
    SignalsBounded(signals, symbols);
    DistinctIffFullCount(keys);
    DistinctIffFullCount(symbols);
    SubsetCount(Elements(keys), Elements(symbols));
    if Complete(signals, symbols) {
      assert |keys| == |signals|;
      assert Elements(keys) == Elements(symbols);
      forall s | s in symbols ensures s in keys {
        assert s in Elements(symbols);
      }
    }
    if forall s :: s in symbols ==> s in keys {
      forall s | s in Elements(symbols) ensures s in Elements(keys) {
        assert s in keys;
      }
      assert Elements(symbols) == Elements(keys);
      assert |keys| == |signals|;
    }
  }

  /** With a symbol configured twice the count test can never succeed. */
  lemma NeverCompleteWithRepeatedSymbol(signals: OrderedDict.Dict<string, int>, symbols: seq<string>)
    requires OrderedDict.UniqueKeys(signals)
    requires forall p :: p in signals ==> p.0 in symbols
    requires !Distinct(symbols)
    ensures !Complete(signals, symbols)
  {
    SignalsBounded(signals, symbols);
    DistinctIffFullCount(symbols);
  }

  // ---------------------------------------------------------------------------
  // The gateway client
  // ---------------------------------------------------------------------------

  class IBapi {
    const symbols: seq<string>
    /** Bars received so far, per request id. */
    var data: map<int, seq<Bar>>
    /** Signal per symbol, in the order symbols first completed. */
    var signals: OrderedDict.Dict<string, int>
    var ownedStocks: map<string, bool>
    /** `None` until the gateway announces the first valid order id. */
    var nextOrderId: Option<int>
    /** Whether the completion event has been set. */
    var dataReceived: bool

    ghost predicate Valid()
      reads this
    {
      && OrderedDict.UniqueKeys(signals)
      && (forall p :: p in signals ==> p.0 in symbols && (p.1 == 0 || p.1 == 1))
      && (forall r :: r in data ==> data[r] != [])
      && (dataReceived <==> Complete(signals, symbols))
    }

    constructor (symbols: seq<string>)
      ensures Valid()
      ensures this.symbols == symbols
      ensures data == map[] && signals == [] && nextOrderId == None && !dataReceived
      ensures ownedStocks.Keys == Elements(symbols)
      ensures forall s :: s in ownedStocks ==> !ownedStocks[s]
    {
      this.symbols := symbols;
      data := map[];
      signals := [];
      ownedStocks := map s | s in symbols :: false;
      nextOrderId := None;
      dataReceived := false;
    }

    /** `historicalData`: append one bar to its request's series. */
    method HistoricalData(reqId: int, bar: Bar)
      requires Valid()
      modifies this
      ensures Valid()
      ensures reqId in data
      ensures data[reqId] == (if reqId in old(data) then old(data)[reqId] else []) + [bar]
      ensures forall r :: r != reqId ==> (r in data <==> r in old(data)) && (r in data ==> data[r] == old(data)[r])
      ensures signals == old(signals) && ownedStocks == old(ownedStocks)
      ensures nextOrderId == old(nextOrderId) && dataReceived == old(dataReceived)
    {
      if reqId !in data {
        data := data[reqId := []];
      }
      data := data[reqId := data[reqId] + [bar]];
    }

    /**
     * `historicalDataEnd`: file the request's signal under its symbol and set
     * the completion event once there are as many signals as symbols. An id
     * outside the symbol list raises IndexError, a request that received no
     * bars raises KeyError; neither changes anything.
     */
    method HistoricalDataEnd(reqId: int) returns (error: Option<Exception>)
      requires Valid()
      modifies this
      ensures Valid()
      ensures data == old(data) && ownedStocks == old(ownedStocks) && nextOrderId == old(nextOrderId)
      ensures SymbolForRequest(symbols, reqId).Failure? ==>
        error == Some(IndexError) && signals == old(signals) && dataReceived == old(dataReceived)
      ensures SymbolForRequest(symbols, reqId).Success? && reqId !in data ==>
        error == Some(KeyError) && signals == old(signals) && dataReceived == old(dataReceived)
      ensures SymbolForRequest(symbols, reqId).Success? && reqId in data ==>
        && error == None
        && signals == OrderedDict.Put(old(signals), SymbolForRequest(symbols, reqId).value,
                                      LongSignal(Closes(data[reqId])))
        && dataReceived == (old(dataReceived) || |signals| == |symbols|)
    {
      var symbol := SymbolForRequest(symbols, reqId);
      if symbol.Failure? {
        return Some(symbol.error);
      }
      if reqId !in data {
        return Some(KeyError);
      }
      var signal := LongSignal(Closes(data[reqId]));
      ghost var before := signals;
      OrderedDict.PutUnique(signals, symbol.value, signal);
      OrderedDict.PutItems(signals, symbol.value, signal);
      OrderedDict.PutSize(signals, symbol.value, signal);
      signals := OrderedDict.Put(signals, symbol.value, signal);
      SignalsBounded(signals, symbols);
      if |signals| == |symbols| {
        dataReceived := true;
      }
      error := None;
    }

    /** `nextValidId`: seed the order-id counter. */
    method NextValidId(orderId: int)
      requires Valid()
      modifies this
      ensures Valid()
      ensures nextOrderId == Some(orderId)
      ensures data == old(data) && signals == old(signals)
      ensures ownedStocks == old(ownedStocks) && dataReceived == old(dataReceived)
    {
      nextOrderId := Some(orderId);
    }

    /** `execDetails`: a fill on the buy side ("BOT") marks the symbol owned, on
        the sell side ("SLD") not owned; any other side changes nothing. */
    method ExecDetails(symbol: string, side: string)
      requires Valid()
      modifies this
      ensures Valid()
      ensures ownedStocks ==
        if side == "BOT" then old(ownedStocks)[symbol := true]
        else if side == "SLD" then old(ownedStocks)[symbol := false]
        else old(ownedStocks)
      ensures data == old(data) && signals == old(signals)
      ensures nextOrderId == old(nextOrderId) && dataReceived == old(dataReceived)
    {
      if side == "BOT" {
        ownedStocks := ownedStocks[symbol := true];
      } else if side == "SLD" {
        ownedStocks := ownedStocks[symbol := false];
      }
    }
  }

  // ---------------------------------------------------------------------------
  // Reconciliation and dispatch
  // ---------------------------------------------------------------------------

  /** `owned_stocks.get(symbol, False)` */
  function OwnedOf(owned: map<string, bool>, symbol: string): (isOwned: bool)
    ensures symbol in owned ==> isOwned == owned[symbol]
    ensures symbol !in owned ==> !isOwned
  {
    symbol in owned && owned[symbol]
  }

  /** What the loop reads besides signals and ownership. */
  datatype TradeContext = TradeContext(reqIds: map<string, int>, data: map<int, seq<Bar>>, capital: real)

  /** `app.data[symbol_reqId_map[symbol]][-1][1]`: the close of the symbol's
      latest bar. A symbol without a request id, or a request without bars,
      raises KeyError; an empty series raises IndexError. */
  function LastPrice(ctx: TradeContext, symbol: string): (r: Result<real, Exception>)
    ensures r == Failure(KeyError) <==> symbol !in ctx.reqIds || ctx.reqIds[symbol] !in ctx.data
    ensures r == Failure(IndexError) <==>
      symbol in ctx.reqIds && ctx.reqIds[symbol] in ctx.data && ctx.data[ctx.reqIds[symbol]] == []
    ensures r.Success? <==>
      symbol in ctx.reqIds && ctx.reqIds[symbol] in ctx.data && ctx.data[ctx.reqIds[symbol]] != []
    ensures r.Success? ==>
      var bars := ctx.data[ctx.reqIds[symbol]];
      bars != [] && r.value == bars[|bars| - 1].close
  {
    if symbol !in ctx.reqIds || ctx.reqIds[symbol] !in ctx.data then Failure(KeyError)
    else if ctx.data[ctx.reqIds[symbol]] == [] then Failure(IndexError)
    else Success(Last(Closes(ctx.data[ctx.reqIds[symbol]])))
  }

  /** `int(CAPITAL_PER_TRADE / last_price)`: with positive capital and price,
      the largest whole number of shares the capital pays for. */
  function BuyQuantity(capital: real, price: real): (r: Result<int, Exception>)
    ensures r.Failure? <==> price == 0.0
    ensures r.Failure? ==> r.error == ZeroDivisionError
    ensures r.Success? && capital >= 0.0 && price > 0.0 ==>
      r.value >= 0 && r.value as real * price <= capital < (r.value + 1) as real * price
  {
    if price == 0.0 then Failure(ZeroDivisionError)
    else
      ScaleQuotientBounds(capital, price, Int(capital / price));
      Success(Int(capital / price))
  }

  lemma ScaleQuotientBounds(capital: real, price: real, q: int)
    requires price != 0.0
    requires capital >= 0.0 && price > 0.0 ==> q as real <= capital / price < (q + 1) as real
    ensures capital >= 0.0 && price > 0.0 ==> q as real * price <= capital < (q + 1) as real * price
  {
    if capital >= 0.0 && price > 0.0 {
      assert (capital / price) * price == capital;
      assert q as real * price <= (capital / price) * price;
      assert (capital / price) * price < (q + 1) as real * price;
    }
  }

  /** The share count a buy would be for: `int(CAPITAL_PER_TRADE / last_price)`
      at the symbol's latest close, raising where the lookup or the division
      raises. */
  function Purchase(ctx: TradeContext, symbol: string): (r: Result<int, Exception>)
    ensures LastPrice(ctx, symbol).Failure? ==> r == Failure(LastPrice(ctx, symbol).error)
    ensures LastPrice(ctx, symbol).Success? ==> r == BuyQuantity(ctx.capital, LastPrice(ctx, symbol).value)
  {
    match LastPrice(ctx, symbol)
    case Failure(e) => Failure(e)
    case Success(price) => BuyQuantity(ctx.capital, price)
  }

  /** One trade decision: a symbol, "BUY" or "SELL", and a share count. */
  datatype Intent = Intent(symbol: string, action: string, quantity: int)

  /**
   * The reconciliation table for one symbol: buy when long and not held
   * (skipped when the quantity is not positive), sell a fixed lot when flat
   * and held, otherwise do nothing. Only the buy branch can raise.
   */
  function Decide(symbol: string, signal: int, isOwned: bool, ctx: TradeContext): (r: Result<Option<Intent>, Exception>)
    ensures r.Failure? <==> signal == 1 && !isOwned && Purchase(ctx, symbol).Failure?
    ensures r.Failure? ==> r.error == Purchase(ctx, symbol).error
    ensures r.Success? && r.value.Some? ==> r.value.value.symbol == symbol
    ensures r.Success? && r.value.Some? && r.value.value.action == "BUY" ==>
      signal == 1 && !isOwned && r.value.value.quantity > 0
    ensures r.Success? && r.value.Some? && r.value.value.action != "BUY" ==>
      r.value.value.action == "SELL" && signal == 0 && isOwned && r.value.value.quantity == SELL_QUANTITY
    ensures signal == 1 && !isOwned && Purchase(ctx, symbol).Success? ==>
      r == (if Purchase(ctx, symbol).value > 0 then Success(Some(Intent(symbol, "BUY", Purchase(ctx, symbol).value)))
            else Success(None))
    ensures signal == 0 && isOwned ==> r == Success(Some(Intent(symbol, "SELL", SELL_QUANTITY)))
    ensures !(signal == 1 && !isOwned) && !(signal == 0 && isOwned) ==> r == Success(None)
  {
    if signal == 1 && !isOwned then
      match Purchase(ctx, symbol)
      case Failure(e) => Failure(e)
      case Success(quantity) =>
        if quantity > 0 then Success(Some(Intent(symbol, "BUY", quantity))) else Success(None)
    else if signal == 0 && isOwned then
      Success(Some(Intent(symbol, "SELL", SELL_QUANTITY)))
    else
      Success(None)
  }

  /** The `placeOrder` call that carries out an intent under an order id: a
      stock contract for the intent's symbol and a market order for its share
      count, whose action is the intent's own. */
  function Submit(orderId: int, intent: Intent): (s: Submission)
    ensures s.orderId == orderId && s.contract == StockContract(intent.symbol)
    ensures s.order.orderType == "MKT" && s.order.totalQuantity == intent.quantity
    ensures s.order == CreateMarketOrder(intent.action, intent.quantity)
    ensures s.order.eTradeOnly == Some(false) && s.order.firmQuoteOnly == Some(false)
    ensures intent.action == "BUY" || intent.action == "SELL" ==> s.order.action == intent.action
  {
    UpperKeepsUpperCase(intent.action);
    Submission(orderId, StockContract(intent.symbol), CreateMarketOrder(intent.action, intent.quantity))
  }

  datatype DispatchResult = DispatchResult(placed: seq<Submission>, owned: map<string, bool>,
                                           nextId: int, failure: Option<Exception>)

  /**
   * The loop over `signals.items()`: each decision with an action is
   * submitted under the current order id, flips the symbol's ownership and
   * advances the id; the first exception ends the loop, leaving the orders
   * already placed.
   */
  function Dispatch(items: OrderedDict.Dict<string, int>, ctx: TradeContext,
                    owned: map<string, bool>, nextId: int): (r: DispatchResult)
    ensures |r.placed| <= |items|
    decreases |items|
  {
    if items == [] then DispatchResult([], owned, nextId, None)
    else
      var (symbol, signal) := items[0];
      match Decide(symbol, signal, OwnedOf(owned, symbol), ctx)
      case Failure(e) => DispatchResult([], owned, nextId, Some(e))
      case Success(None) => Dispatch(items[1..], ctx, owned, nextId)
      case Success(Some(intent)) =>
        var rest := Dispatch(items[1..], ctx, owned[symbol := intent.action == "BUY"], nextId + 1);
        DispatchResult([Submit(nextId, intent)] + rest.placed, rest.owned, rest.nextId, rest.failure)
  }

  /** Only the buy branch's lookups and division raise: a missing symbol,
      request or bar, or a zero price. */
  lemma {:induction false} DispatchFailsOnlyInBuyLookups(items: OrderedDict.Dict<string, int>, ctx: TradeContext,
                                                         owned: map<string, bool>, nextId: int)
    ensures var r := Dispatch(items, ctx, owned, nextId);
      r.failure.Some? ==> r.failure.value in {KeyError, IndexError, ZeroDivisionError}
    decreases |items|
  {
    if items != [] {
      var (symbol, signal) := items[0];
      match Decide(symbol, signal, OwnedOf(owned, symbol), ctx)
      case Failure(e) =>
        assert LastPrice(ctx, symbol).Failure? ==> LastPrice(ctx, symbol).error in {KeyError, IndexError};
      case Success(None) =>
        DispatchFailsOnlyInBuyLookups(items[1..], ctx, owned, nextId);
      case Success(Some(intent)) =>
        DispatchFailsOnlyInBuyLookups(items[1..], ctx, owned[symbol := intent.action == "BUY"], nextId + 1);
    }
  }

  datatype Plan = Plan(intents: seq<Intent>, failure: Option<Exception>)

  /** Reference reconciliation: every symbol decided against the ownership
      snapshot taken before any order is placed, up to the first exception. */
  function PlanTrades(items: OrderedDict.Dict<string, int>, ctx: TradeContext, owned: map<string, bool>): Plan
    decreases |items|
  {
    if items == [] then Plan([], None)
    else
      match Decide(items[0].0, items[0].1, OwnedOf(owned, items[0].0), ctx)
      case Failure(e) => Plan([], Some(e))
      case Success(None) => PlanTrades(items[1..], ctx, owned)
      case Success(Some(intent)) =>
        var rest := PlanTrades(items[1..], ctx, owned);
        Plan([intent] + rest.intents, rest.failure)
  }

  function IntentSymbols(intents: seq<Intent>): seq<string> {
    seq(|intents|, i requires 0 <= i < |intents| => intents[i].symbol)
  }

  /** Intents numbered with consecutive order ids from `firstId`. */
  function Numbered(intents: seq<Intent>, firstId: int): seq<Submission> {
    seq(|intents|, i requires 0 <= i < |intents| => Submit(firstId + i, intents[i]))
  }

  function TradedSymbols(placed: seq<Submission>): seq<string> {
    seq(|placed|, i requires 0 <= i < |placed| => placed[i].contract.symbol)
  }

  lemma NumberedCons(intent: Intent, intents: seq<Intent>, firstId: int)
    ensures Numbered([intent] + intents, firstId) == [Submit(firstId, intent)] + Numbered(intents, firstId + 1)
  {
    assert forall i :: 1 <= i <= |intents| ==> ([intent] + intents)[i] == intents[i - 1];
  }

  lemma TradedSymbolsCons(s: Submission, placed: seq<Submission>)
    ensures TradedSymbols([s] + placed) == [s.contract.symbol] + TradedSymbols(placed)
  {
    assert forall i :: 1 <= i <= |placed| ==> ([s] + placed)[i] == placed[i - 1];
  }

  /** Every order uses the counter's current value and advances it by one: the
      ids are consecutive from the first, and only symbols with signals trade. */
  lemma {:induction false} DispatchNumbersOrders(items: OrderedDict.Dict<string, int>, ctx: TradeContext,
                                                 owned: map<string, bool>, nextId: int)
    ensures var r := Dispatch(items, ctx, owned, nextId);
      && |r.placed| <= |items|
      && r.nextId == nextId + |r.placed|
      && (forall i :: 0 <= i < |r.placed| ==> r.placed[i].orderId == nextId + i)
      && (forall i :: 0 <= i < |r.placed| ==> r.placed[i].contract.symbol in OrderedDict.Keys(items))
    decreases |items|
  {
    if items != [] {
      OrderedDict.KeysOfTail(items);
      var (symbol, signal) := items[0];
      match Decide(symbol, signal, OwnedOf(owned, symbol), ctx)
      case Failure(e) =>
      case Success(None) =>
        DispatchNumbersOrders(items[1..], ctx, owned, nextId);
      case Success(Some(intent)) =>
        var rest := Dispatch(items[1..], ctx, owned[symbol := intent.action == "BUY"], nextId + 1);
        DispatchNumbersOrders(items[1..], ctx, owned[symbol := intent.action == "BUY"], nextId + 1);
        assert forall i :: 1 <= i <= |rest.placed| ==> ([Submit(nextId, intent)] + rest.placed)[i] == rest.placed[i - 1];
    }
  }

  /** Order ids are pairwise distinct and strictly increasing, and lie between
      the counter's value before and after the loop. */
  lemma OrderIdsStrictlyIncrease(items: OrderedDict.Dict<string, int>, ctx: TradeContext,
                                 owned: map<string, bool>, nextId: int)
    ensures var r := Dispatch(items, ctx, owned, nextId);
      && (forall i, j :: 0 <= i < j < |r.placed| ==> r.placed[i].orderId < r.placed[j].orderId)
      && (forall i :: 0 <= i < |r.placed| ==> nextId <= r.placed[i].orderId < r.nextId)
  {
    DispatchNumbersOrders(items, ctx, owned, nextId);
  }

  /** Decisions read ownership only for the symbols being decided. */
  lemma {:induction false} PlanReadsOwnSymbols(items: OrderedDict.Dict<string, int>, ctx: TradeContext,
                                               o1: map<string, bool>, o2: map<string, bool>)
    requires forall k :: k in OrderedDict.Keys(items) ==> OwnedOf(o1, k) == OwnedOf(o2, k)
    ensures PlanTrades(items, ctx, o1) == PlanTrades(items, ctx, o2)
    decreases |items|
  {
    if items != [] {
      OrderedDict.KeysOfTail(items);
      PlanReadsOwnSymbols(items[1..], ctx, o1, o2);
    }
  }

  /**
   * Because every symbol appears once among the signals, placing orders one
   * at a time while flipping ownership submits exactly the reference plan,
   * numbered from the counter's starting value, and fails where it fails.
   */
  lemma {:induction false} DispatchFollowsPlan(items: OrderedDict.Dict<string, int>, ctx: TradeContext,
                                               owned: map<string, bool>, nextId: int)
    requires OrderedDict.UniqueKeys(items)
    ensures var r := Dispatch(items, ctx, owned, nextId);
      var p := PlanTrades(items, ctx, owned);
      r.placed == Numbered(p.intents, nextId) && r.failure == p.failure && r.nextId == nextId + |p.intents|
    decreases |items|
  {
    if items != [] {
      OrderedDict.KeysOfTail(items);
      DistinctTail(OrderedDict.Keys(items));
      var (symbol, signal) := items[0];
      match Decide(symbol, signal, OwnedOf(owned, symbol), ctx)
      case Failure(e) =>
      case Success(None) =>
        DispatchFollowsPlan(items[1..], ctx, owned, nextId);
      case Success(Some(intent)) =>
        var owned' := owned[symbol := intent.action == "BUY"];
        DispatchFollowsPlan(items[1..], ctx, owned', nextId + 1);
        PlanReadsOwnSymbols(items[1..], ctx, owned', owned);
        var rest := PlanTrades(items[1..], ctx, owned);
        NumberedCons(intent, rest.intents, nextId);
    }
  }

  /**
   * The reference plan follows the reconciliation table: a BUY only for a
   * symbol whose signal is 1 and that is not held, and never for zero or
   * fewer shares; a SELL of the fixed lot only for a held symbol whose signal
   * is 0. Each symbol is traded at most once.
   */
  lemma {:induction false} PlanFollowsTable(items: OrderedDict.Dict<string, int>, ctx: TradeContext, owned: map<string, bool>)
    requires OrderedDict.UniqueKeys(items)
    ensures var p := PlanTrades(items, ctx, owned);
      && |p.intents| <= |items|
      && Distinct(IntentSymbols(p.intents))
      && forall it :: it in p.intents ==>
        || (it.action == "BUY" && OrderedDict.Get(items, it.symbol) == Some(1)
            && !OwnedOf(owned, it.symbol) && it.quantity > 0
            && Purchase(ctx, it.symbol) == Success(it.quantity))
        || (it.action == "SELL" && OrderedDict.Get(items, it.symbol) == Some(0)
            && OwnedOf(owned, it.symbol) && it.quantity == SELL_QUANTITY)
    decreases |items|
  {
    if items != [] {
      OrderedDict.KeysOfTail(items);
      DistinctTail(OrderedDict.Keys(items));
      PlanFollowsTable(items[1..], ctx, owned);
      PlanSymbols(items[1..], ctx, owned);
      var rest := PlanTrades(items[1..], ctx, owned);
      forall it | it in rest.intents
        ensures OrderedDict.Get(items, it.symbol) == OrderedDict.Get(items[1..], it.symbol)
      {
        assert it.symbol in OrderedDict.Keys(items[1..]);
      }
      match Decide(items[0].0, items[0].1, OwnedOf(owned, items[0].0), ctx)
      case Failure(e) =>
      case Success(None) =>
      case Success(Some(intent)) =>
        var syms := IntentSymbols(rest.intents);
        assert IntentSymbols([intent] + rest.intents) == [intent.symbol] + syms;
        assert intent.symbol == items[0].0;
        assert intent.symbol !in syms by {
          forall i | 0 <= i < |syms| ensures syms[i] != intent.symbol {
            assert rest.intents[i] in rest.intents;
            assert syms[i] in OrderedDict.Keys(items[1..]);
          }
        }
        DistinctCons(intent.symbol, syms);
    }
  }

  /** Planned symbols come from the signals. */
  lemma {:induction false} PlanSymbols(items: OrderedDict.Dict<string, int>, ctx: TradeContext, owned: map<string, bool>)
    ensures forall it :: it in PlanTrades(items, ctx, owned).intents ==> it.symbol in OrderedDict.Keys(items)
    decreases |items|
  {
    if items != [] {
      OrderedDict.KeysOfTail(items);
      PlanSymbols(items[1..], ctx, owned);
    }
  }

  /** When the loop runs to the end, every symbol's decision succeeded and
      every decision with an action is in the plan. */
  lemma {:induction false} PlanCoversEverySymbol(items: OrderedDict.Dict<string, int>, ctx: TradeContext, owned: map<string, bool>)
    requires PlanTrades(items, ctx, owned).failure == None
    ensures forall j :: 0 <= j < |items| ==>
      var d := Decide(items[j].0, items[j].1, OwnedOf(owned, items[j].0), ctx);
      d.Success? && (d.value.Some? ==> d.value.value in PlanTrades(items, ctx, owned).intents)
    decreases |items|
  {
    if items != [] {
      PlanCoversEverySymbol(items[1..], ctx, owned);
      forall j | 1 <= j < |items| ensures items[j] == items[1..][j - 1] { }
    }
  }

  /** Every traded symbol's ownership is flipped (a BUY only happens when not
      owned, a SELL only when owned) and every other symbol's is unchanged. */
  lemma {:induction false} OwnershipTogglesTradedSymbols(items: OrderedDict.Dict<string, int>, ctx: TradeContext,
                                                         owned: map<string, bool>, nextId: int)
    requires OrderedDict.UniqueKeys(items)
    ensures var r := Dispatch(items, ctx, owned, nextId);
      forall x :: OwnedOf(r.owned, x) == (OwnedOf(owned, x) != (x in TradedSymbols(r.placed)))
    decreases |items|
  {
    if items != [] {
      OrderedDict.KeysOfTail(items);
      DistinctTail(OrderedDict.Keys(items));
      var (symbol, signal) := items[0];
      var r := Dispatch(items, ctx, owned, nextId);
      match Decide(symbol, signal, OwnedOf(owned, symbol), ctx)
      case Failure(e) =>
      case Success(None) =>
        OwnershipTogglesTradedSymbols(items[1..], ctx, owned, nextId);
      case Success(Some(intent)) =>
        var owned' := owned[symbol := intent.action == "BUY"];
        var rest := Dispatch(items[1..], ctx, owned', nextId + 1);
        OwnershipTogglesTradedSymbols(items[1..], ctx, owned', nextId + 1);
        DispatchNumbersOrders(items[1..], ctx, owned', nextId + 1);
        TradedSymbolsCons(Submit(nextId, intent), rest.placed);
        assert symbol !in TradedSymbols(rest.placed);
    }
  }

  /** One step of the loop at position `i` of the signals: what remains to be
      placed after the orders already placed, by the decision taken there. */
  lemma DispatchStep(items: OrderedDict.Dict<string, int>, i: nat, ctx: TradeContext,
                     owned: map<string, bool>, nextId: int, placed: seq<Submission>, whole: DispatchResult)
    requires i < |items|
    requires var rest := Dispatch(items[i..], ctx, owned, nextId);
      whole == DispatchResult(placed + rest.placed, rest.owned, rest.nextId, rest.failure)
    ensures var d := Decide(items[i].0, items[i].1, OwnedOf(owned, items[i].0), ctx);
      && (d.Failure? ==> whole == DispatchResult(placed, owned, nextId, Some(d.error)))
      && (d == Success(None) ==>
            var rest := Dispatch(items[i + 1..], ctx, owned, nextId);
            whole == DispatchResult(placed + rest.placed, rest.owned, rest.nextId, rest.failure))
      && (d.Success? && d.value.Some? ==>
            var intent := d.value.value;
            var rest := Dispatch(items[i + 1..], ctx, owned[items[i].0 := intent.action == "BUY"], nextId + 1);
            whole == DispatchResult((placed + [Submit(nextId, intent)]) + rest.placed, rest.owned, rest.nextId, rest.failure))
  {
    assert items[i..][0] == items[i] && items[i..][1..] == items[i + 1..];
    var d := Decide(items[i].0, items[i].1, OwnedOf(owned, items[i].0), ctx);
    if d.Success? && d.value.Some? {
      var intent := d.value.value;
      var rest := Dispatch(items[i + 1..], ctx, owned[items[i].0 := intent.action == "BUY"], nextId + 1);
      assert placed + ([Submit(nextId, intent)] + rest.placed) == (placed + [Submit(nextId, intent)]) + rest.placed;
    }
  }

  /**
   * The loop over `app.signals.items()` from `main`: each signal is decided
   * against the ownership held when it is reached, an order is submitted
   * under the current id, the symbol's ownership flips and the id advances;
   * the first exception ends the loop. The outcome is `Dispatch`'s.
   */
  method DispatchSignals(app: IBapi, ctx: TradeContext) returns (placed: seq<Submission>, failure: Option<Exception>)
    requires app.nextOrderId.Some?
    modifies app
    ensures app.data == old(app.data) && app.signals == old(app.signals) && app.dataReceived == old(app.dataReceived)
    ensures var r := Dispatch(app.signals, ctx, old(app.ownedStocks), old(app.nextOrderId).value);
      placed == r.placed && failure == r.failure && app.ownedStocks == r.owned && app.nextOrderId == Some(r.nextId)
  {
    placed, failure := [], None;
    var items := app.signals;
    ghost var whole := Dispatch(items, ctx, app.ownedStocks, app.nextOrderId.value);
    var i := 0;
    while i < |items|
      invariant 0 <= i <= |items|
      invariant app.nextOrderId.Some?
      invariant app.data == old(app.data) && app.signals == items && app.dataReceived == old(app.dataReceived)
      invariant var rest := Dispatch(items[i..], ctx, app.ownedStocks, app.nextOrderId.value);
        whole == DispatchResult(placed + rest.placed, rest.owned, rest.nextId, rest.failure)
      decreases |items| - i
    {
      var (symbol, signal) := items[i];
      var owned, nextId := app.ownedStocks, app.nextOrderId.value;
      DispatchStep(items, i, ctx, owned, nextId, placed, whole);
      var decision := Decide(symbol, signal, OwnedOf(owned, symbol), ctx);
      if decision.Failure? {
        failure := Some(decision.error);
        return;
      }
      if decision.value.Some? {
        var intent := decision.value.value;
        placed := placed + [Submission(nextId, StockContract(symbol), CreateMarketOrder(intent.action, intent.quantity))];
        app.ownedStocks := owned[symbol := intent.action == "BUY"];
        app.nextOrderId := Some(nextId + 1);
      }
      i := i + 1;
    }
  }

  /**
   * The reconciliation part of `main`: nothing happens unless the completion
   * event was set; otherwise the signals are dispatched in order, reading
   * prices through the symbol-to-request-id map.
   */
  method PlaceTrades(app: IBapi, capital: real) returns (placed: seq<Submission>, failure: Option<Exception>)
    requires app.Valid() && app.nextOrderId.Some?
    modifies app
    ensures app.Valid()
    ensures app.data == old(app.data) && app.signals == old(app.signals) && app.dataReceived == old(app.dataReceived)
    ensures !app.dataReceived ==>
      placed == [] && failure == None && app.ownedStocks == old(app.ownedStocks) && app.nextOrderId == old(app.nextOrderId)
    ensures app.dataReceived ==>
      var r := Dispatch(app.signals, TradeContext(RequestIdMap(app.symbols), app.data, capital),
                        old(app.ownedStocks), old(app.nextOrderId).value);
      placed == r.placed && failure == r.failure && app.ownedStocks == r.owned && app.nextOrderId == Some(r.nextId)
  {
    placed, failure := [], None;
    if !app.dataReceived {
      return;
    }
    var ctx := TradeContext(RequestIdMap(app.symbols), app.data, capital);
    placed, failure := DispatchSignals(app, ctx);
  }
}
