# Moving-average trading clients, modelled in Dafny

The repository trades US stocks through a brokerage gateway on a 200-day
moving-average rule. Three versions of the same gateway client exist; each is
modelled here as a Dafny class whose methods are the client's callbacks, plus
the code that turns the resulting signals into market orders.

- `trading_bot.py` (module `TradingBot`, the main client). The client keeps a
  series of (date, close) bars per historical-data request. When a request
  completes, the client derives a 0/1 signal for the request's symbol. It sets
  a completion flag once there are as many signals as configured symbols, and
  tracks ownership from execution reports. The reconciliation loop of `main`
  walks the signals in dictionary order. It buys `int(capital / last close)`
  shares of a long symbol that is not held, but only if that number is
  positive. It sells a fixed 10 shares of a flat symbol that is held. Each
  order takes the current order id and then advances it by one.
- `Trading.py` (module `SingleSymbolTrading`). One series and one completion
  flag. A three-way rule buys above the mean, sells below it, and does nothing
  on equality or with fewer than 200 closes. Orders are fixed at 10 shares.
- `TradingProject/Trading.py` (module `EarlyTrading`). A series and a 0/1
  position per request id. Module-level code always places exactly one order:
  BUY if request 1's position is 1, otherwise SELL.

Shared modules:
- `MovingAverage` holds the window of 200 and the signal rule. "Last close
  above the mean of the last 200 closes" is computed as
  `200 * last > sum(last 200)` and proved equal to the comparison with the
  mean. An undefined mean (fewer than 200 closes) compares false both ways, as
  pandas' NaN does.
- `OrderedDict` models a Python `dict` as its items in insertion order. Order
  matters because `main` iterates `signals.items()`, and that order decides
  which order id each symbol gets.
- `Python` holds the runtime rules the code depends on: negative list
  indexing, `int()` truncating toward zero, `str.upper`, and the exceptions
  raised (KeyError, IndexError, ZeroDivisionError, AttributeError). Each
  exception is an error outcome, not a precondition.
- `Broker` holds bars, contracts, orders, order submissions and
  historical-data requests.

Prices are exact `real`s. Broker calls (`placeOrder`, `reqHistoricalData`)
become returned values: the sequence of `Submission`s a method would submit,
or the request it would issue. The completion event becomes the
`dataReceived` field. The 60-second wait of `main` is not modelled: the
reconciliation reads whatever flag state the callbacks reached.

Facts the proofs bring out:
- Completion is tested by count (`len(signals) == len(symbols)`). If a symbol
  is configured twice, the flag can never be set, so `main` always times out
  and places no orders (`NeverCompleteWithRepeatedSymbol`). With distinct
  symbols, the flag is set exactly when every symbol has a signal.
- `symbols[reqId - 1]` uses Python indexing. A completion for request id 0
  files its signal under the last symbol; an id beyond the list raises
  IndexError.
- Ownership changes as orders are placed, yet each symbol occurs once among the
  signals. So the loop places exactly what deciding every symbol against the
  ownership snapshot taken before the loop would place (`DispatchFollowsPlan`).

Behaviour worth noting:
- On a timeout, `main` returns without placing any orders, even when some
  signals have been computed (trading_bot.py:134-136).
- Ownership is set when an order is submitted, before any fill is reported;
  `execDetails` later overwrites it from the fill's side.
- A completion for a request that received no bars raises KeyError at the
  `self.data[reqId]` lookup (trading_bot.py:37), so that symbol gets no
  signal.
- The 200-close window is the same for every symbol.
- The order-id counter is a plain field of the client, read and then
  incremented by one after each order.

## Model

| member | source | states |
|---|---|---|
| `Python.ListIndex` | trading_bot.py:36 | `xs[k]` succeeds exactly for `-n <= k < n`; a negative `k` counts from the end |
| `Python.Int` | trading_bot.py:145 | `int(x)` truncates toward zero: the result is within 1 of `x`, on the zero side |
| `Python.Upper` | trading_bot.py:93 | `action.upper()` keeps the length, turns each lower-case letter into its upper-case counterpart, leaves no lower-case letter, and leaves other characters unchanged |
| `OrderedDict.PutKeys` | trading_bot.py:46 | assigning `signals[symbol]` keeps an existing symbol's place in iteration order; a new symbol is appended at the end |
| `OrderedDict.PutSize` | trading_bot.py:46-52 | a repeated completion for a symbol leaves the number of signals unchanged; a first completion adds one |
| `OrderedDict.PutGet` | trading_bot.py:46 | after the assignment, the symbol reads the new signal and every other symbol reads what it read before |
| `OrderedDict.GetItem` | trading_bot.py:139 | when keys are unique, looking up an item's key gives that item's value |
| `Broker.StockContract` | trading_bot.py:82-88 | the contract carries the given symbol and is always a stock (STK) routed through SMART in USD |
| `MovingAverage.CompareWithAverage` | trading_bot.py:41-46 | `200*last > sum(last 200)` holds exactly when the 200-close mean is defined and the last close exceeds it; the same holds for `<` |
| `MovingAverage.LongSignal` | trading_bot.py:41-50 | the signal is 0 or 1; it is 1 exactly when there are at least 200 closes and the last close is strictly above their mean |
| `MovingAverage.FlatHistoryIsNotLong` | trading_bot.py:46 | a constant price history gives signal 0: equality with the mean resolves to flat |
| `TradingBot.CreateMarketOrder` | trading_bot.py:90-98 | a market order for the given quantity, with the action upper-cased and both unsupported flags cleared |
| `TradingBot.ReportError` | trading_bot.py:77-80 | an error is logged exactly when its code is not 2100–2110 or 2158; the log carries the request id, code and message unchanged |
| `TradingBot.SymbolForRequest` | trading_bot.py:36 | a completion for request id r is filed under `symbols[r-1]` for `1 <= r <= n` and under `symbols[n+r-1]` for `1-n <= r <= 0` (so id 0 files under the last symbol); any other id raises IndexError |
| `TradingBot.RequestIdMap` | trading_bot.py:102 | every configured symbol is mapped to an id in 1..n that points back at it; a repeated symbol keeps the id of its last occurrence |
| `TradingBot.RequestIdsRoundTrip` | trading_bot.py:102-118 | for distinct symbols, `SYMBOLS[i]` is requested under id i+1 and that request's completion is filed under `SYMBOLS[i]` |
| `TradingBot.RequestHistory` | trading_bot.py:115-128 | one daily-bar request per symbol, in order; request i is for `SYMBOLS[i]` under id i+1 |
| `TradingBot.Complete` | trading_bot.py:52 | once a signal has been recorded, the flag test holds exactly when the number of signals equals the number of configured symbols, and it never holds with no signals |
| `TradingBot.SignalsBounded` | trading_bot.py:46-52 | there are never more signals than distinct configured symbols |
| `TradingBot.CompleteIffEverySymbolSignalled` | trading_bot.py:52-53 | with distinct symbols, the count test succeeds exactly when every configured symbol has a signal |
| `TradingBot.NeverCompleteWithRepeatedSymbol` | trading_bot.py:52-53 | with a symbol configured twice, the count test never succeeds |
| `TradingBot.IBapi.constructor` | trading_bot.py:17-24 | no data, no signals, no order id and no completion at the start; every configured symbol is not owned |
| `TradingBot.IBapi.HistoricalData` | trading_bot.py:26-30 | the request's series is created on its first bar and grows by exactly that bar at the end; other requests and all other state are unchanged |
| `TradingBot.IBapi.HistoricalDataEnd` | trading_bot.py:32-53 | files `LongSignal` of the request's closes under its symbol; the flag becomes set once the count reaches the number of symbols and stays set; IndexError or KeyError leave everything unchanged |
| `TradingBot.IBapi.NextValidId` | trading_bot.py:55-58 | the counter takes the value the broker supplied; nothing else changes |
| `TradingBot.IBapi.ExecDetails` | trading_bot.py:66-75 | a "BOT" fill marks the symbol owned and a "SLD" fill marks it not owned; any other side and every other symbol are unchanged |
| `TradingBot.BuyQuantity` | trading_bot.py:144-147 | a zero price raises ZeroDivisionError; otherwise, with non-negative capital and a positive price, the quantity is the most whole shares the capital pays for |
| `TradingBot.OwnedOf` | trading_bot.py:140 | `owned_stocks.get(symbol, False)`: the stored flag for a known symbol, False for an unknown one |
| `TradingBot.LastPrice` | trading_bot.py:143-144 | succeeds exactly when the symbol has a request id whose series is non-empty, and then gives the close of that series's latest bar; KeyError when the symbol has no request id or its request has no bars, IndexError for an empty series |
| `TradingBot.Purchase` | trading_bot.py:143-145 | a lookup failure propagates; otherwise the share count is `BuyQuantity` of the capital at the latest close |
| `TradingBot.Decide` | trading_bot.py:139-162 | for a long, unowned symbol: raises exactly what the price lookup or the division raises, otherwise BUY of `int(capital / last close)` shares when that is positive and nothing when it is not; SELL of 10 exactly when the signal is 0 and the symbol is owned; nothing in every other case |
| `TradingBot.Submit` | trading_bot.py:149-150 | the submission carries the given order id, a stock contract for the intent's symbol, and the `create_market_order` ticket: MKT for the intent's share count, with eTradeOnly and firmQuoteOnly cleared, and the intent's BUY or SELL unchanged as action |
| `TradingBot.Dispatch` | trading_bot.py:139-162 | the loop places at most one order per signal |
| `TradingBot.DispatchFailsOnlyInBuyLookups` | trading_bot.py:143-145 | the only exceptions that can end the loop are KeyError, IndexError and ZeroDivisionError from the buy branch's lookups and division |
| `TradingBot.DispatchNumbersOrders` | trading_bot.py:150-161 | the k-th order placed uses the starting id plus k; the counter ends advanced by the number of orders; only symbols with signals are traded |
| `TradingBot.OrderIdsStrictlyIncrease` | trading_bot.py:150-161 | order ids are pairwise distinct and strictly increasing, and lie between the counter's values before and after the loop |
| `TradingBot.DispatchFollowsPlan` | trading_bot.py:139-162 | placing orders one by one while flipping ownership submits exactly the plan decided from the ownership snapshot before the loop, numbered from the starting id, and stops at the same exception |
| `TradingBot.PlanFollowsTable` | trading_bot.py:139-162 | every planned BUY is for a symbol with signal 1 that is not owned, for exactly the positive quantity `Purchase` computes from its latest close; every SELL is 10 shares of an owned symbol with signal 0; no symbol is traded twice |
| `TradingBot.PlanCoversEverySymbol` | trading_bot.py:139-162 | if the loop runs to the end, every symbol's decision succeeded and every decision to trade appears in the plan |
| `TradingBot.OwnershipTogglesTradedSymbols` | trading_bot.py:139-162 | after the loop, every traded symbol's ownership is flipped and every other symbol's ownership is unchanged |
| `TradingBot.DispatchSignals` | trading_bot.py:139-162 | the orders submitted, the final ownership, the counter and any exception are those of `Dispatch` over the signals in order; data, signals and the flag are unchanged |
| `TradingBot.PlaceTrades` | trading_bot.py:132-162 | without the completion flag, no orders and no change; otherwise the orders, the final ownership, the counter and any exception are those of `Dispatch` over the signals in order, with prices read through the symbol-to-request-id map; the client's invariant is kept |
| `SingleSymbolTrading.TrendAction` | Trading.py:52-66 | an empty series raises IndexError; otherwise BUY when the last close is above the 200-close mean, SELL when below, nothing on equality or with fewer than 200 closes |
| `SingleSymbolTrading.TrendActionAgreesWithLongSignal` | Trading.py:58-66 | on a non-empty series this client buys exactly when the main client's signal is 1 |
| `SingleSymbolTrading.MarketOrder` | Trading.py:68-72 | a market order for 10 shares with the given action |
| `SingleSymbolTrading.IBapi.constructor` | Trading.py:16-19 | an empty series, the flag down, and no order id |
| `SingleSymbolTrading.IBapi.HistoricalData` | Trading.py:21-22 | the series grows by exactly that bar at the end |
| `SingleSymbolTrading.IBapi.HistoricalDataEnd` | Trading.py:24-26 | raises the flag that ends the main wait loop; no other method sets it |
| `SingleSymbolTrading.IBapi.NextValidId` | Trading.py:28-42 | the counter takes the value the broker supplied, and the single 2-year daily request for AAPL is issued |
| `SingleSymbolTrading.IBapi.PlaceOrder` | Trading.py:68-77 | submits under the current id and advances the counter by exactly one; before `nextValidId` it raises AttributeError |
| `SingleSymbolTrading.IBapi.CheckStrategyAndTrade` | Trading.py:52-66 | exactly one BUY or SELL as `TrendAction` decides, or no order; errors change nothing |
| `EarlyTrading.OrderAction` | TradingProject/Trading.py:84-88 | always BUY or SELL; BUY exactly when request 1's position is 1; a missing position counts as 0 |
| `EarlyTrading.SignalOrder` | TradingProject/Trading.py:87-94 | a market order for 10 shares with that action and both unsupported flags cleared |
| `EarlyTrading.IBapi.constructor` | TradingProject/Trading.py:11-14 | no series, no positions and no order id |
| `EarlyTrading.IBapi.HistoricalData` | TradingProject/Trading.py:16-20 | the request's series is created on its first bar and grows by exactly that bar; other requests are unchanged; every stored series stays non-empty |
| `EarlyTrading.IBapi.HistoricalDataEnd` | TradingProject/Trading.py:22-29 | the request's position becomes `LongSignal` of its (non-empty) closes; a request with no bars raises KeyError and changes nothing |
| `EarlyTrading.IBapi.NextValidId` | TradingProject/Trading.py:31-33 | the counter takes the value the broker supplied |
| `EarlyTrading.PlaceSignalOrder` | TradingProject/Trading.py:83-96 | always exactly one order, under the current id, after which the counter advances by one; without a seeded counter it raises AttributeError |

## Left out

- Threads, `app.run`, `threading.Event.wait(timeout=60)`, `time.sleep` and
  the polling loops: these only schedule the callbacks. The completion event is
  the `dataReceived` field, and the model does not decide when the wait ends.
- Broker I/O: `connect`, `disconnect`, `reqHistoricalData`, `placeOrder`.
  Requests and submissions are returned as values. A refused connection is not
  modelled.
- Logging and `print`; the `orderStatus` and `openOrder` callbacks, and
  `execDetails` in `TradingProject/Trading.py`, which only log.
- pandas date parsing and `set_index`. They only keep the arrival order of the
  bars. A date that fails to parse is not modelled.
- Floating point: prices and the capital are exact reals, and a NaN close is
  not modelled.
- The capital per trade and the symbol list come from a `config` module, which
  is not part of this model; they are parameters.
- `Python.Upper`: only ASCII letters are upper-cased. The code only ever
  passes "BUY" and "SELL".
- `Trading.py` defines `check_strategy_and_trade` but never calls it. It is
  modelled as a method that a caller may invoke.
- `backtester.py`, `backtest_dividend.py` and `TradingProject/Final Project.py`:
  floating-point return statistics, downloads and plotting.
