/** The strategy SDK: order sides and types, the records strategies see,
    the shared market-data table, the queue of orders a strategy places
    during a run, and the helpers `get_position`, `buy` and `sell`. */
module Sdk {
  import opened Base

  datatype OrderSide = BUY | SELL

  datatype OrderType = MARKET | LIMIT | GTC | GTD | FOK | FAK

  /** The string value of a side, as the enum stores it. */
  function SideName(side: OrderSide): string {
    match side
    case BUY => "BUY"
    case SELL => "SELL"
  }

  /** The string value of an order type, as the enum stores it. */
  function TypeName(t: OrderType): string {
    match t
    case MARKET => "MARKET"
    case LIMIT => "LIMIT"
    case GTC => "GTC"
    case GTD => "GTD"
    case FOK => "FOK"
    case FAK => "FAK"
  }

  /** Looking a side up by its value, `OrderSide(s)`; absent when Python
      would raise `ValueError`. */
  function ParseSide(s: string): (r: Option<OrderSide>)
    ensures r.Some? ==> SideName(r.value) == s
    ensures r.None? ==> forall side: OrderSide :: SideName(side) != s
  {
    if s == "BUY" then Some(BUY)
    else if s == "SELL" then Some(SELL)
    else None
  }

  /** Looking an order type up by its value, `OrderType(s)`; absent when
      Python would raise `ValueError`. */
  function ParseType(s: string): (r: Option<OrderType>)
    ensures r.Some? ==> TypeName(r.value) == s
    ensures r.None? ==> forall t: OrderType :: TypeName(t) != s
  {
    if s == "MARKET" then Some(MARKET)
    else if s == "LIMIT" then Some(LIMIT)
    else if s == "GTC" then Some(GTC)
    else if s == "GTD" then Some(GTD)
    else if s == "FOK" then Some(FOK)
    else if s == "FAK" then Some(FAK)
    else None
  }

  /** Every side is found again from its own value. */
  lemma SideRoundTrip(side: OrderSide)
    ensures ParseSide(SideName(side)) == Some(side)
  {
  }

  /** Every order type is found again from its own value. */
  lemma TypeRoundTrip(t: OrderType)
    ensures ParseType(TypeName(t)) == Some(t)
  {
  }

  datatype MarketState = MarketState(
    marketId: string,
    tokenId: string,
    bid: real,
    ask: real,
    midpoint: real,
    spread: real,
    volume: real,
    lastPrice: Option<real>)

  datatype Position = Position(
    marketId: string,
    tokenId: string,
    size: real,
    avgEntryPrice: real,
    currentPrice: Option<real>,
    realizedPnl: real,
    unrealizedPnl: real)

  datatype Order = Order(
    marketId: string,
    tokenId: string,
    side: OrderSide,
    orderType: OrderType,
    size: real,
    price: Option<real>)

  /** The reason `place_order` raises: a side or an order type that is not
      one of the enum's values. */
  datatype SdkError = InvalidSide(side: string) | InvalidOrderType(orderType: string)

  /** One price level of the simplified book: `[price, quantity]`. */
  datatype Level = Level(price: real, quantity: int)

  datatype Book = Book(bids: seq<Level>, asks: seq<Level>)

  /** The quantity every level of the simplified book shows. */
  const BookDepth := 100

  /** What `place_order` returns: `queued` and an echo of the arguments
      (the token id is not echoed). */
  datatype PlaceReply = PlaceReply(
    queued: bool,
    marketId: string,
    side: string,
    orderType: string,
    size: real,
    price: Option<real>)

  datatype CancelReply = CancelReply(cancelled: bool, orderId: string)

  /** The `Order(...)` construction inside `place_order`: the side is
      converted first, then the order type; the first one that is not an
      enum value is the error. All other fields are carried over. */
  function MakeOrder(marketId: string, tokenId: string, side: string, orderType: string,
                     size: real, price: Option<real>): (r: Result<Order, SdkError>)
    ensures r.Ok? <==> ParseSide(side).Some? && ParseType(orderType).Some?
    ensures ParseSide(side).None? ==> r == Err(InvalidSide(side))
    ensures ParseSide(side).Some? && ParseType(orderType).None? ==> r == Err(InvalidOrderType(orderType))
    ensures r.Ok? ==> && r.value.marketId == marketId && r.value.tokenId == tokenId
                      && SideName(r.value.side) == side && TypeName(r.value.orderType) == orderType
                      && r.value.size == size && r.value.price == price
  {
    match ParseSide(side)
    case None => Err(InvalidSide(side))
    case Some(s) =>
      match ParseType(orderType)
      case None => Err(InvalidOrderType(orderType))
      case Some(t) => Ok(Order(marketId, tokenId, s, t, size, price))
  }

  /** The market-data table the executor fills in before a run. */
  class MarketData {
    var data: map<string, MarketState>

    constructor (initial: map<string, MarketState>)
      ensures data == initial
    {
      data := initial;
    }

    /** `MarketData.get`: the state of one market, absent when unknown. */
    function Get(marketId: string): (r: Option<MarketState>)
      reads this
      ensures r.Some? <==> marketId in data
      ensures r.Some? ==> r.value == data[marketId]
    {
      if marketId in data then Some(data[marketId]) else None
    }

    /** `MarketData.get_all`: a copy of the whole table. */
    method GetAll() returns (all: map<string, MarketState>)
      ensures all == data
    {
      all := data;
    }

    /** `MarketData.orderbook`: one bid level and one ask level at the
        market's quotes, each of quantity 100; both sides empty for an
        unknown market. */
    function Orderbook(marketId: string): (b: Book)
      reads this
      ensures |b.bids| == |b.asks| <= 1
      ensures Get(marketId).None? <==> b.bids == []
      ensures Get(marketId).None? ==> b.asks == []
      ensures Get(marketId).Some? ==>
                && b.bids == [Level(Get(marketId).value.bid, BookDepth)]
                && b.asks == [Level(Get(marketId).value.ask, BookDepth)]
    {
      match Get(marketId)
      case None => Book([], [])
      case Some(market) => Book([Level(market.bid, BookDepth)], [Level(market.ask, BookDepth)])
    }
  }

  /** The queue of orders a strategy run has placed and the executor has
      not yet drained (class-level state of `Trading`). */
  class Trading {
    var pending: seq<Order>

    constructor ()
      ensures pending == []
    {
      pending := [];
    }

    /** `Trading.place_order`: appends exactly one order at the end of the
        queue and echoes its arguments with `queued = true`; an invalid side
        or order type raises, and then the queue is left as it was. */
    method PlaceOrder(marketId: string, tokenId: string, side: string, orderType: string,
                      size: real, price: Option<real> := None)
      returns (r: Result<PlaceReply, SdkError>)
      modifies this
      ensures MakeOrder(marketId, tokenId, side, orderType, size, price).Ok? ==>
                && pending == old(pending) + [MakeOrder(marketId, tokenId, side, orderType, size, price).value]
                && r == Ok(PlaceReply(true, marketId, side, orderType, size, price))
      ensures MakeOrder(marketId, tokenId, side, orderType, size, price).Err? ==>
                && pending == old(pending)
                && r == Err(MakeOrder(marketId, tokenId, side, orderType, size, price).error)
    {
      var order := MakeOrder(marketId, tokenId, side, orderType, size, price);
      match order
      case Err(e) =>
        r := Err(e);
      case Ok(o) =>
        pending := pending + [o];
        r := Ok(PlaceReply(true, marketId, side, orderType, size, price));
    }

    /** `Trading.cancel_order`: always reports the id as cancelled; the
        queue is not touched (nothing is modified). */
    method CancelOrder(orderId: string) returns (r: CancelReply)
      ensures r.cancelled && r.orderId == orderId
    {
      r := CancelReply(true, orderId);
    }

    /** `Trading.get_pending_orders`: the queue's contents, as a value that
        later changes to the queue cannot reach. */
    method GetPendingOrders() returns (orders: seq<Order>)
      ensures orders == pending
    {
      orders := pending;
    }

    /** `Trading.clear_pending_orders`: empties the queue. */
    method ClearPendingOrders()
      modifies this
      ensures pending == []
    {
      pending := [];
    }
  }

  /** The first position held in `marketId`, or none when no position is. */
  function FindPosition(positions: seq<Position>, marketId: string): (r: Option<Position>)
    ensures r.None? <==> forall i :: 0 <= i < |positions| ==> positions[i].marketId != marketId
    ensures r.Some? ==> exists i :: 0 <= i < |positions| && positions[i] == r.value && FirstMatchAt(positions, marketId, i)
  {
    if positions == [] then None
    else if positions[0].marketId == marketId then
      assert FirstMatchAt(positions, marketId, 0);
      Some(positions[0])
    else
      var r := FindPosition(positions[1..], marketId);
      assert r.Some? ==> exists i :: 0 <= i < |positions| && positions[i] == r.value && FirstMatchAt(positions, marketId, i) by {
        if r.Some? {
          var k :| 0 <= k < |positions[1..]| && positions[1..][k] == r.value && FirstMatchAt(positions[1..], marketId, k);
          assert FirstMatchAt(positions, marketId, k + 1);
        }
      }
      r
  }

  /** Position `i` is held in `marketId` and no earlier one is. */
  ghost predicate FirstMatchAt(positions: seq<Position>, marketId: string, i: int)
  {
    && 0 <= i < |positions|
    && positions[i].marketId == marketId
    && forall j :: 0 <= j < i ==> positions[j].marketId != marketId
  }

  /** `get_position`: a scan from the front that stops at the first
      position held in the market. */
  method GetPosition(positions: seq<Position>, marketId: string) returns (r: Option<Position>)
    ensures r == FindPosition(positions, marketId)
  {
    var i := 0;
    while i < |positions|
      invariant 0 <= i <= |positions|
      invariant forall j :: 0 <= j < i ==> positions[j].marketId != marketId
    {
      if positions[i].marketId == marketId {
        return Some(positions[i]);
      }
      i := i + 1;
    }
    r := None;
  }

  /** `buy`: places an order with side BUY, by default a LIMIT order. */
  method Buy(trading: Trading, marketId: string, tokenId: string, size: real,
             price: Option<real> := None, orderType: string := "LIMIT")
    returns (r: Result<PlaceReply, SdkError>)
    modifies trading
    ensures MakeOrder(marketId, tokenId, "BUY", orderType, size, price).Ok? ==>
              && trading.pending == old(trading.pending) + [Order(marketId, tokenId, BUY, ParseType(orderType).value, size, price)]
              && r == Ok(PlaceReply(true, marketId, "BUY", orderType, size, price))
    ensures MakeOrder(marketId, tokenId, "BUY", orderType, size, price).Err? ==>
              && trading.pending == old(trading.pending)
              && r == Err(InvalidOrderType(orderType))
  {
    r := trading.PlaceOrder(marketId, tokenId, "BUY", orderType, size, price);
  }

  /** `sell`: places an order with side SELL, by default a MARKET order. */
  method Sell(trading: Trading, marketId: string, tokenId: string, size: real,
              price: Option<real> := None, orderType: string := "MARKET")
    returns (r: Result<PlaceReply, SdkError>)
    modifies trading
    ensures MakeOrder(marketId, tokenId, "SELL", orderType, size, price).Ok? ==>
              && trading.pending == old(trading.pending) + [Order(marketId, tokenId, SELL, ParseType(orderType).value, size, price)]
              && r == Ok(PlaceReply(true, marketId, "SELL", orderType, size, price))
    ensures MakeOrder(marketId, tokenId, "SELL", orderType, size, price).Err? ==>
              && trading.pending == old(trading.pending)
              && r == Err(InvalidOrderType(orderType))
  {
    r := trading.PlaceOrder(marketId, tokenId, "SELL", orderType, size, price);
  }

  /** With its default order type, `buy` never raises and queues a BUY LIMIT
      order carrying the given fields. */
  lemma BuyDefaultQueues(marketId: string, tokenId: string, size: real, price: Option<real>)
    ensures MakeOrder(marketId, tokenId, "BUY", "LIMIT", size, price) == Ok(Order(marketId, tokenId, BUY, LIMIT, size, price))
  {
  }

  /** With its default order type, `sell` never raises and queues a SELL
      MARKET order carrying the given fields. */
  lemma SellDefaultQueues(marketId: string, tokenId: string, size: real, price: Option<real>)
    ensures MakeOrder(marketId, tokenId, "SELL", "MARKET", size, price) == Ok(Order(marketId, tokenId, SELL, MARKET, size, price))
  {
  }
}
