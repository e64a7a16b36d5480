# PolyTrader strategy SDK and market maker, in Dafny

This project models the Python side of the PolyTrader trading system: the
strategy SDK that strategies import (`python_strategies/sdk/__init__.py`)
and the example market-making strategy built on it
(`python_strategies/examples/market_maker.py`).

- `base.dfy` — module `Base`: `Option` (Python's `None`), `Result` (a call
  that may raise) and `Min` (Python's two-argument `min`).
- `sdk.dfy` — module `Sdk`: the `OrderSide` and `OrderType`
  enums with their string values; the `MarketState`, `Position` and `Order`
  records; the shared market-data table (class `MarketData`, with `Get`,
  `GetAll` and the simplified one-level `Orderbook`); the queue of orders a
  strategy run places (class `Trading`, whose `pending` field is the
  class-level `_pending_orders` list); the first-match `get_position` scan;
  and the `buy`/`sell` wrappers with their default order types.
- `market_maker.dfy` — module `MarketMaker`: the strategy's settings
  (`SPREAD_PERCENT`, `ORDER_SIZE`, `MAX_POSITION`) and their overrides, the
  quote computation, the BUY and SELL legs proposed per market, the whole
  proposal over the target markets, the three-rule `risk_check`, and the
  module state (class `Strategy`: settings plus the per-market last price
  that `on_tick` keeps).

State the source changes in place is a class: `Trading.pending` is a
`seq<Order>` that `PlaceOrder` appends to and `ClearPendingOrders`
reassigns; `Strategy.settings` and `Strategy.lastPrices` are the module
globals that `initialize` and `on_tick` reassign. Each such method states
its whole new state in terms of the old one. The loops of `get_position`
and `propose_orders` are methods with loop invariants, proved equal to the
reference functions `FindPosition` and `AllOrders`, whose own contracts
state first-match, the position cap, the held-size bound and the LIMIT-only,
target-order shape of the proposal.

Prices, sizes and balances are `real`. Python's `round(price, 4)` on the
emitted prices is a parameter `round4: real -> real` of the proposal; every
price property is stated on the quote before rounding, and the emitted
price is stated to be `round4` of it.

Positions are records carrying `marketId` and `size`. The source's
`get_position` reads the attribute `pos.market_id`, while the market maker
calls `position.get('size', 0)` as if positions were dicts; the model reads
the record's `size` field in both places rather than reproducing that
mismatch.

A market's entry in `market_data` is a dict the strategy reads with
`dict.get`; the model keeps, for each of `token_id`, `midpoint` and
`spread`, whether the key is missing, holds `None`, or holds a value
(`Field`), plus whether the dict has other keys. Only a missing market or
an empty dict is skipped. A `None` token id is passed through to the
orders, and a `None` midpoint or spread makes the quote arithmetic raise
`TypeError`, which ends the whole proposal (`Proposal` is a `Result`).

## Model

| member | source | states |
|---|---|---|
| `Base.Min` | python_strategies/examples/market_maker.py:81 | the result is one of the two arguments and no greater than either |
| `Sdk.ParseSide` | python_strategies/sdk/__init__.py:17-19 | a side is found exactly for the strings "BUY" and "SELL", and the side found has that string as its value; for any other string no side has it as its value (the `ValueError` case) |
| `Sdk.ParseType` | python_strategies/sdk/__init__.py:21-27 | an order type is found exactly for one of the six values, and its value is the string looked up; for any other string no type has it as its value |
| `Sdk.SideRoundTrip` | python_strategies/sdk/__init__.py:17-19 | every side is found again from its own string value |
| `Sdk.TypeRoundTrip` | python_strategies/sdk/__init__.py:21-27 | every order type is found again from its own string value |
| `Sdk.MakeOrder` | python_strategies/sdk/__init__.py:121-128 | the order is built exactly when both side and type are enum values; an invalid side is reported before an invalid type; on success market id, token id, size and price are carried over and the side and type have the given strings as values |
| `Sdk.MarketData.constructor` | python_strategies/sdk/__init__.py:76 | the table holds exactly the markets the executor supplies |
| `Sdk.MarketData.Get` | python_strategies/sdk/__init__.py:78-81 | a market's state is returned exactly when the market is in the table, and it is the table's entry |
| `Sdk.MarketData.GetAll` | python_strategies/sdk/__init__.py:83-86 | the returned table equals the stored one, and the table is not modified |
| `Sdk.MarketData.Orderbook` | python_strategies/sdk/__init__.py:88-97 | bids and asks are both empty exactly when `Get` finds no market; otherwise one bid level at the market's bid and one ask level at its ask, each of quantity 100 |
| `Sdk.Trading.constructor` | python_strategies/sdk/__init__.py:105 | the queue starts empty |
| `Sdk.Trading.PlaceOrder` | python_strategies/sdk/__init__.py:107-139 | on valid side and type the queue becomes the old queue plus exactly the built order at its end, and the reply is `queued = true` echoing market id, side, type, size and price as given; otherwise the error is returned and the queue is unchanged |
| `Sdk.Trading.CancelOrder` | python_strategies/sdk/__init__.py:141-145 | the reply always says cancelled, with the given id; the method modifies nothing, so the queue is untouched |
| `Sdk.Trading.GetPendingOrders` | python_strategies/sdk/__init__.py:147-150 | the result equals the queue, and the queue is not modified |
| `Sdk.Trading.ClearPendingOrders` | python_strategies/sdk/__init__.py:152-155 | the queue is empty afterwards |
| `Sdk.FindPosition` | python_strategies/sdk/__init__.py:166-171 | none exactly when no position is held in the market; otherwise a position at some index that holds the market while no earlier position does (the first match) |
| `Sdk.GetPosition` | python_strategies/sdk/__init__.py:166-171 | the front-to-back scan with early return gives the same answer as `FindPosition` |
| `Sdk.Buy` | python_strategies/sdk/__init__.py:173-188 | queues an order with side BUY and the given order type (default LIMIT), all other fields passed through; an invalid order type leaves the queue unchanged |
| `Sdk.Sell` | python_strategies/sdk/__init__.py:190-205 | queues an order with side SELL and the given order type (default MARKET), all other fields passed through; an invalid order type leaves the queue unchanged |
| `Sdk.BuyDefaultQueues` | python_strategies/sdk/__init__.py:173-188 | with its default type, `buy` always builds a BUY LIMIT order carrying the given fields |
| `Sdk.SellDefaultQueues` | python_strategies/sdk/__init__.py:190-205 | with its default type, `sell` always builds a SELL MARKET order carrying the given fields |
| `MarketMaker.Configure` | python_strategies/examples/market_maker.py:22-28 | each of spread percent, order size and max position takes the configured value when present and keeps the current one when absent |
| `MarketMaker.ConfigureIdempotent` | python_strategies/examples/market_maker.py:22-28 | applying the same configuration twice is the same as applying it once |
| `MarketMaker.Field.Read` | python_strategies/examples/market_maker.py:67-68 | `dict.get(key, default)`: the default when the key is missing, `None` exactly when the key holds `None`, otherwise the held value |
| `MarketMaker.Field.Value` | python_strategies/examples/market_maker.py:85 | `dict.get(key)`: a value exactly when the key holds one, and then that value |
| `MarketMaker.CurrentSize` | python_strategies/examples/market_maker.py:64-65 | 0 when no position holds the market; otherwise the size of the position at the first index holding it |
| `MarketMaker.QuotePrices` | python_strategies/examples/market_maker.py:70-77 | before rounding, sell minus buy is at least the market spread and the two quotes are centred on the midpoint; when the percentage quotes are narrower than the spread they are exactly midpoint minus and plus half the spread, otherwise midpoint times (1 minus/plus spread percent) |
| `MarketMaker.BuyLeg` | python_strategies/examples/market_maker.py:79-90 | a BUY is proposed exactly when current size is below the cap, the size `min(ORDER_SIZE, MAX_POSITION - current)` is positive and the balance covers size times buy price; it is a LIMIT order of that size at the rounded buy price, so current size plus its size stays within the cap |
| `MarketMaker.SellLeg` | python_strategies/examples/market_maker.py:92-102 | a SELL is proposed exactly when a positive position is held; it is a LIMIT order of size `min(ORDER_SIZE, current)` at the rounded sell price, never more than is held |
| `MarketMaker.MarketOrders` | python_strategies/examples/market_maker.py:59-102 | raises `TypeError` (for that market) exactly when a present, non-empty entry holds `None` under `midpoint` or `spread`; a missing or empty entry gets no orders; otherwise at most two orders, all LIMIT and for that market, BUY before SELL when there are two; every BUY keeps the position within the cap and every SELL is at most the held size |
| `MarketMaker.AllOrders` | python_strategies/examples/market_maker.py:52-105 | raises exactly when some target market raises, and then the error names the first such target; otherwise at most two orders per entry of the target list, each for a target market whose entry is not skipped, all LIMIT; every BUY keeps that market's position within the cap and every SELL is at most its held size |
| `MarketMaker.AllOrdersAppend` | python_strategies/examples/market_maker.py:59-102 | the proposal for two runs of target markets is the first run's proposal followed by the second's: orders come out in target-market order |
| `MarketMaker.ThenAssociative` | python_strategies/examples/market_maker.py:59-102 | running three stretches of the loop in sequence does not depend on grouping: the first exception wins, otherwise the orders are concatenated in order |
| `MarketMaker.AllOrdersStep` | python_strategies/examples/market_maker.py:59-102 | one more target market appends exactly that market's orders, or raises its exception if the prefix did not raise |
| `MarketMaker.AllOrdersStopsAtError` | python_strategies/examples/market_maker.py:59-102 | once a prefix of the target list raises, the whole proposal raises the same exception |
| `MarketMaker.RiskCheck` | python_strategies/examples/market_maker.py:107-133 | an order is accepted exactly when it is not a BUY taking the position above `MAX_POSITION`, not a SELL of more than is held, and its price lies in [0.01, 0.99] |
| `MarketMaker.ProposalsPassPositionRules` | python_strategies/examples/market_maker.py:116-125 | when the proposal does not raise, every order it contains passes the risk check's two position rules, so the check accepts it exactly when its price is in [0.01, 0.99] |
| `MarketMaker.Strategy.constructor` | python_strategies/examples/market_maker.py:13-20 | settings start at spread 0.02, order size 10, max position 100, with no last prices |
| `MarketMaker.Strategy.Initialize` | python_strategies/examples/market_maker.py:22-30 | the new settings are `Configure` of the old ones with the configuration; the last prices are unchanged |
| `MarketMaker.Strategy.OnTick` | python_strategies/examples/market_maker.py:32-45 | the ticked market's last price becomes its midpoint (0.5 when missing), the key set gains at most that market, every other market's entry is unchanged, and the settings are unchanged |
| `MarketMaker.Strategy.ProposeForMarket` | python_strategies/examples/market_maker.py:60-102 | one pass of the proposal loop yields exactly `MarketOrders` for that market, including its `TypeError` |
| `MarketMaker.Strategy.QuoteMarket` | python_strategies/examples/market_maker.py:70-102 | the quote and the two appends yield exactly `BuyLeg` followed by `SellLeg` at the prices `QuotePrices` gives |
| `MarketMaker.Strategy.ProposeOrders` | python_strategies/examples/market_maker.py:47-105 | the loop over target markets, which stops at the first exception, yields exactly `AllOrders` over them, and so every property of `AllOrders` |

## Left out

- Logging: `log` and its `print`, the "Market Maker initialized" and "Proposing N orders" lines, the risk check's failure messages, and the "price moved" message of `on_tick` together with `REFRESH_THRESHOLD`, which only feeds that message. These are output only.
- `round(price, 4)`: Python rounds the binary float, which has no counterpart over `real`; the proposal takes the rounding as the parameter `round4`.
- Floating point in general: prices, sizes and balances are exact reals, with no IEEE rounding or overflow.
- The `_broker` hook and the executor that fills `MarketData._data` and drains the pending queue are stubs outside these files; the market-data table is given to the constructor, and nothing models the executor.
- `get_market` only forwards to `MarketData.get`, which `Sdk.MarketData.Get` models.
- The SDK's `TradingMode` enum and `Context` dataclass are not used by the core; the market maker's context is modelled as the record `MarketMaker.Context` holding the keys it reads.
- Missing keys in the market maker's context (`parameters`, `market_ids`, `positions`, `balance`, `market_data`) and in configuration values that are present but `None`: the model's records always carry these fields.
- `MarketMaker.RiskCheck` takes orders of the shape `propose_orders` emits; an order dict without `size` or `price` (read as 0 by `dict.get`) is not modelled.
- The SDK's enum constructors also accept enum members, not just strings; `place_order` is modelled on strings only, as its signature says.
- The broker, ledger, slippage and fee simulator, risk gate, kill switch and analytics engine of the trading system are TypeScript modules; they are not part of this model.
- `get`, `get_all` and `get_pending_orders` return the table's or the queue's own entries, which are mutable dataclass objects in Python; the model returns values and does not capture a caller changing an entry in place through them.
- A tick whose `midpoint` key holds `None`: Python stores `None` as the last price (or raises when a last price exists); the model's `Tick.midpoint` being absent stands for the missing key only.
- Other exceptions in `propose_orders` (a non-numeric midpoint or spread, a market entry that is not a dict, a position whose size is `None`) are not modelled; only the `None` midpoint or spread is.
- The class-level queue and market-data table are shared by every user of the class in Python; the model has one object standing for that shared state and does not model aliasing between several such objects.
