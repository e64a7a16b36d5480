/** The example market-making strategy: it quotes a BUY below and a SELL
    above each target market's midpoint, sized by its settings and the
    current position, and vets single orders with a three-rule risk check. */
module MarketMaker {
  import opened Base
  import opened Sdk

  /** The strategy's tunable module globals. */
  datatype Settings = Settings(spreadPercent: real, orderSize: real, maxPosition: real)

  /** SPREAD_PERCENT = 0.02, ORDER_SIZE = 10, MAX_POSITION = 100. */
  const DefaultSettings := Settings(0.02, 10.0, 100.0)

  /** Midpoint and spread assumed for a market entry that lacks them. */
  const DefaultMidpoint := 0.5
  const DefaultSpread := 0.1

  /** The bounds of the risk check's price sanity rule. */
  const MinPrice := 0.01
  const MaxPrice := 0.99

  /** The overrides `initialize` may find in its configuration. */
  datatype Config = Config(spreadPercent: Option<real>, orderSize: Option<real>, maxPosition: Option<real>)

  /** A key of a market entry as `dict.get` sees it: missing, present but
      holding `None`, or holding a value. */
  datatype Field<T> = Missing | Null | Held(value: T) {

    /** `entry.get(key, default)`: the default for a missing key, `None`
        (here: absent) for a key holding `None`. */
    function Read(default: T): (r: Option<T>)
      ensures Missing? ==> r == Some(default)
      ensures Null? <==> r.None?
      ensures Held? ==> r == Some(value)
    {
      match this
      case Missing => Some(default)
      case Null => None
      case Held(v) => Some(v)
    }

    /** `entry.get(key)` without a default: `None` unless a value is held. */
    function Value(): (r: Option<T>)
      ensures r.Some? <==> Held?
      ensures Held? ==> r.value == value
    {
      if Held? then Some(value) else None
    }
  }

  /** One market's entry in the context's market data: the three keys the
      strategy reads, and whether the dict holds any other key. */
  datatype MarketEntry = MarketEntry(
    tokenId: Field<string>,
    midpoint: Field<real>,
    spread: Field<real>,
    hasOtherKeys: bool)
  {
    /** A dict with no key at all, which Python treats as false. */
    predicate IsEmpty() {
      tokenId.Missing? && midpoint.Missing? && spread.Missing? && !hasOtherKeys
    }
  }

  /** What `propose_orders` reads from its context. */
  datatype Context = Context(
    targetMarkets: seq<string>,
    positions: seq<Position>,
    balance: real,
    marketData: map<string, MarketEntry>)

  /** One order as `propose_orders` emits it (and `risk_check` reads it). */
  datatype ProposedOrder = ProposedOrder(
    marketId: string,
    tokenId: Option<string>,
    side: OrderSide,
    orderType: OrderType,
    size: real,
    price: real)

  /** A market update passed to `on_tick`; either key may be missing. */
  datatype Tick = Tick(marketId: Option<string>, midpoint: Option<real>)

  /** The pair of quote prices, before rounding. */
  datatype Quote = Quote(buyPrice: real, sellPrice: real)

  /** `initialize`: each setting present in the configuration replaces the
      current one; the others are kept. */
  function Configure(s: Settings, config: Config): (r: Settings)
    ensures config.spreadPercent.None? ==> r.spreadPercent == s.spreadPercent
    ensures config.spreadPercent.Some? ==> r.spreadPercent == config.spreadPercent.value
    ensures config.orderSize.None? ==> r.orderSize == s.orderSize
    ensures config.orderSize.Some? ==> r.orderSize == config.orderSize.value
    ensures config.maxPosition.None? ==> r.maxPosition == s.maxPosition
    ensures config.maxPosition.Some? ==> r.maxPosition == config.maxPosition.value
  {
    Settings(config.spreadPercent.GetOr(s.spreadPercent),
             config.orderSize.GetOr(s.orderSize),
             config.maxPosition.GetOr(s.maxPosition))
  }

  /** Applying the same configuration twice is the same as applying it once. */
  lemma ConfigureIdempotent(s: Settings, config: Config)
    ensures Configure(Configure(s, config), config) == Configure(s, config)
  {
  }

  /** The size of the position held in a market, 0 when none is held. */
  function CurrentSize(positions: seq<Position>, marketId: string): (size: real)
    ensures (forall i :: 0 <= i < |positions| ==> positions[i].marketId != marketId) ==> size == 0.0
    ensures forall i :: FirstMatchAt(positions, marketId, i) ==> size == positions[i].size
  {
    match FindPosition(positions, marketId)
    case Some(p) =>
      assert forall i :: FirstMatchAt(positions, marketId, i) ==> positions[i] == p by {
        forall i | FirstMatchAt(positions, marketId, i) ensures positions[i] == p {
          var k :| 0 <= k < |positions| && positions[k] == p && FirstMatchAt(positions, marketId, k);
          assert !(k < i) && !(i < k);
        }
      }
      p.size
    case None => 0.0
  }

  /** The quotes: `spreadPercent` either side of the midpoint, widened to
      `midpoint -/+ spread/2` when that is narrower than the market spread.
      Either way they are centred on the midpoint and at least the market
      spread apart. */
  function QuotePrices(spreadPercent: real, midpoint: real, spread: real): (q: Quote)
    ensures q.sellPrice - q.buyPrice >= spread
    ensures q.buyPrice + q.sellPrice == 2.0 * midpoint
    ensures midpoint * (1.0 + spreadPercent) - midpoint * (1.0 - spreadPercent) < spread ==>
              q == Quote(midpoint - spread / 2.0, midpoint + spread / 2.0)
    ensures midpoint * (1.0 + spreadPercent) - midpoint * (1.0 - spreadPercent) >= spread ==>
              q == Quote(midpoint * (1.0 - spreadPercent), midpoint * (1.0 + spreadPercent))
  {
    var buyPrice := midpoint * (1.0 - spreadPercent);
    var sellPrice := midpoint * (1.0 + spreadPercent);
    if sellPrice - buyPrice < spread then Quote(midpoint - spread / 2.0, midpoint + spread / 2.0)
    else Quote(buyPrice, sellPrice)
  }

  /** The BUY a market gets, if any: of size `min(orderSize, maxPosition -
      current)`, only while below the position cap, for a positive size the
      balance can pay for at the unrounded price. */
  function BuyLeg(s: Settings, balance: real, current: real, marketId: string, tokenId: Option<string>,
                  buyPrice: real, round4: real -> real): (r: seq<ProposedOrder>)
    ensures |r| <= 1
    ensures r != [] <==> && current < s.maxPosition
                         && Min(s.orderSize, s.maxPosition - current) > 0.0
                         && balance >= Min(s.orderSize, s.maxPosition - current) * buyPrice
    ensures r != [] ==> && r[0].marketId == marketId && r[0].tokenId == tokenId
                        && r[0].side == BUY && r[0].orderType == LIMIT
                        && r[0].size == Min(s.orderSize, s.maxPosition - current)
                        && r[0].price == round4(buyPrice)
    ensures r != [] ==> 0.0 < r[0].size <= s.orderSize && current + r[0].size <= s.maxPosition
                        && r[0].size * buyPrice <= balance
  {
    if current < s.maxPosition then
      var buySize := Min(s.orderSize, s.maxPosition - current);
      if buySize > 0.0 && balance >= buySize * buyPrice then
        [ProposedOrder(marketId, tokenId, BUY, LIMIT, buySize, round4(buyPrice))]
      else []
    else []
  }

  /** The SELL a market gets, if any: only when a position is held, of size
      `min(orderSize, current)`, so never more than is held. */
  function SellLeg(s: Settings, current: real, marketId: string, tokenId: Option<string>,
                   sellPrice: real, round4: real -> real): (r: seq<ProposedOrder>)
    ensures |r| <= 1
    ensures r != [] <==> current > 0.0
    ensures r != [] ==> && r[0].marketId == marketId && r[0].tokenId == tokenId
                        && r[0].side == SELL && r[0].orderType == LIMIT
                        && r[0].size == Min(s.orderSize, current)
                        && r[0].price == round4(sellPrice)
    ensures r != [] ==> r[0].size <= current && r[0].size <= s.orderSize
  {
    if current > 0.0 then [ProposedOrder(marketId, tokenId, SELL, LIMIT, Min(s.orderSize, current), round4(sellPrice))]
    else []
  }

  /** Whether `propose_orders` skips a market: absent from the market data,
      or present with an empty entry. */
  predicate Skipped(ctx: Context, marketId: string) {
    marketId !in ctx.marketData || ctx.marketData[marketId].IsEmpty()
  }

  /** Whether quoting a market raises `TypeError`: it is not skipped and its
      midpoint or spread key holds `None`, which Python cannot multiply or
      compare. */
  predicate RaisesTypeError(ctx: Context, marketId: string) {
    && !Skipped(ctx, marketId)
    && (ctx.marketData[marketId].midpoint.Null? || ctx.marketData[marketId].spread.Null?)
  }

  /** The exception that aborts `propose_orders`, with the market being
      quoted when it was raised. */
  datatype ProposeError = TypeError(marketId: string)

  /** The outcome of proposing: the orders, or the exception raised. */
  type Proposal = Result<seq<ProposedOrder>, ProposeError>

  /** The orders of `first` followed by those of `second`; an exception in
      `first` stops everything, as an exception out of the loop does. */
  function Then(first: Proposal, second: Proposal): Proposal {
    if first.Err? then first
    else if second.Err? then second
    else Ok(first.value + second.value)
  }

  /** The orders proposed for one target market: none when it is skipped,
      `TypeError` when its midpoint or spread holds `None`, otherwise its BUY
      leg followed by its SELL leg at the quote prices (rounded by
      `round4`). */
  function MarketOrders(s: Settings, ctx: Context, marketId: string, round4: real -> real): (r: Proposal)
    ensures r.Err? <==> RaisesTypeError(ctx, marketId)
    ensures r.Err? ==> r.error == TypeError(marketId)
    ensures Skipped(ctx, marketId) ==> r == Ok([])
    ensures r.Ok? ==> |r.value| <= 2
    ensures r.Ok? ==> forall o :: o in r.value ==> o.marketId == marketId && o.orderType == LIMIT
    ensures r.Ok? && |r.value| == 2 ==> r.value[0].side == BUY && r.value[1].side == SELL
    ensures r.Ok? ==> forall o :: o in r.value && o.side == BUY ==>
              CurrentSize(ctx.positions, marketId) + o.size <= s.maxPosition
    ensures r.Ok? ==> forall o :: o in r.value && o.side == SELL ==>
              0.0 < CurrentSize(ctx.positions, marketId) && o.size <= CurrentSize(ctx.positions, marketId)
  {
    if Skipped(ctx, marketId) then Ok([])
    else
      var market := ctx.marketData[marketId];
      var midpoint := market.midpoint.Read(DefaultMidpoint);
      var spread := market.spread.Read(DefaultSpread);
      if midpoint.None? || spread.None? then Err(TypeError(marketId))
      else
        var current := CurrentSize(ctx.positions, marketId);
        var q := QuotePrices(s.spreadPercent, midpoint.value, spread.value);
        Ok(BuyLeg(s, ctx.balance, current, marketId, market.tokenId.Value(), q.buyPrice, round4)
           + SellLeg(s, current, marketId, market.tokenId.Value(), q.sellPrice, round4))
  }

  /** Target `i` is the first one whose quoting raises. */
  ghost predicate FirstRaisingAt(ctx: Context, targets: seq<string>, i: int) {
    && 0 <= i < |targets|
    && RaisesTypeError(ctx, targets[i])
    && forall j :: 0 <= j < i ==> !RaisesTypeError(ctx, targets[j])
  }

  /** All orders proposed for `targets`, market by market in target order;
      the first target whose quoting raises aborts the whole proposal. */
  function AllOrders(s: Settings, ctx: Context, targets: seq<string>, round4: real -> real): (r: Proposal)
    ensures r.Err? <==> exists i :: 0 <= i < |targets| && RaisesTypeError(ctx, targets[i])
    ensures r.Err? ==> exists i :: FirstRaisingAt(ctx, targets, i) && targets[i] == r.error.marketId
    ensures r.Ok? ==> |r.value| <= 2 * |targets|
    ensures r.Ok? ==> forall o :: o in r.value ==> o.marketId in targets && !Skipped(ctx, o.marketId) && o.orderType == LIMIT
    ensures r.Ok? ==> forall o :: o in r.value && o.side == BUY ==>
              CurrentSize(ctx.positions, o.marketId) + o.size <= s.maxPosition
    ensures r.Ok? ==> forall o :: o in r.value && o.side == SELL ==>
              o.size <= CurrentSize(ctx.positions, o.marketId)
  {
    if targets == [] then Ok([])
    else
      var init, last := targets[..|targets| - 1], targets[|targets| - 1];
      var prefix := AllOrders(s, ctx, init, round4);
      assert prefix.Err? ==> exists i :: FirstRaisingAt(ctx, targets, i) && targets[i] == prefix.error.marketId by {
        if prefix.Err? {
          var i :| FirstRaisingAt(ctx, init, i) && init[i] == prefix.error.marketId;
          assert FirstRaisingAt(ctx, targets, i);
        }
      }
      assert prefix.Ok? && RaisesTypeError(ctx, last) ==> FirstRaisingAt(ctx, targets, |targets| - 1) by {
        if prefix.Ok? && RaisesTypeError(ctx, last) {
          forall j | 0 <= j < |targets| - 1 ensures !RaisesTypeError(ctx, targets[j]) {
            assert init[j] == targets[j];
          }
        }
      }
      assert (exists i :: 0 <= i < |targets| && RaisesTypeError(ctx, targets[i])) ==>
             prefix.Err? || RaisesTypeError(ctx, last) by {
        if exists i :: 0 <= i < |targets| && RaisesTypeError(ctx, targets[i]) {
          var i :| 0 <= i < |targets| && RaisesTypeError(ctx, targets[i]);
          if i < |targets| - 1 { assert init[i] == targets[i]; }
        }
      }
      Then(prefix, MarketOrders(s, ctx, last, round4))
  }

  /** An exception stops proposing wherever it happens, so sequencing
      proposals is associative. */
  lemma ThenAssociative(a: Proposal, b: Proposal, c: Proposal)
    ensures Then(Then(a, b), c) == Then(a, Then(b, c))
  {
    if a.Ok? && b.Ok? && c.Ok? {
      assert (a.value + b.value) + c.value == a.value + (b.value + c.value);
    }
  }

  /** Proposing for two runs of targets one after the other gives the first
      run's orders and then the second's, unless the first raises. */
  lemma {:induction false} AllOrdersAppend(s: Settings, ctx: Context, t1: seq<string>, t2: seq<string>, round4: real -> real)
    ensures AllOrders(s, ctx, t1 + t2, round4) == Then(AllOrders(s, ctx, t1, round4), AllOrders(s, ctx, t2, round4))
  {
    if t2 == [] {
      assert t1 + t2 == t1;
      var a := AllOrders(s, ctx, t1, round4);
      if a.Ok? { assert a.value + [] == a.value; }
    } else {
      var init, last := t2[..|t2| - 1], t2[|t2| - 1];
      assert (t1 + t2)[..|t1 + t2| - 1] == t1 + init;
      assert (t1 + t2)[|t1 + t2| - 1] == last;
      calc {
        AllOrders(s, ctx, t1 + t2, round4);
        Then(AllOrders(s, ctx, t1 + init, round4), MarketOrders(s, ctx, last, round4));
        { AllOrdersAppend(s, ctx, t1, init, round4); }
        Then(Then(AllOrders(s, ctx, t1, round4), AllOrders(s, ctx, init, round4)), MarketOrders(s, ctx, last, round4));
        { ThenAssociative(AllOrders(s, ctx, t1, round4), AllOrders(s, ctx, init, round4), MarketOrders(s, ctx, last, round4)); }
        Then(AllOrders(s, ctx, t1, round4), AllOrders(s, ctx, t2, round4));
      }
    }
  }

  /** Proposing for one more target appends that market's orders, or its
      exception. */
  lemma AllOrdersStep(s: Settings, ctx: Context, targets: seq<string>, i: nat, round4: real -> real)
    requires i < |targets|
    ensures AllOrders(s, ctx, targets[..i + 1], round4) ==
            Then(AllOrders(s, ctx, targets[..i], round4), MarketOrders(s, ctx, targets[i], round4))
  {
    assert targets[..i + 1][..i] == targets[..i];
  }

  /** Once a prefix of the targets raises, the whole proposal raises the
      same exception: later targets are never quoted. */
  lemma AllOrdersStopsAtError(s: Settings, ctx: Context, targets: seq<string>, i: nat, round4: real -> real)
    requires i <= |targets|
    requires AllOrders(s, ctx, targets[..i], round4).Err?
    ensures AllOrders(s, ctx, targets, round4) == AllOrders(s, ctx, targets[..i], round4)
  {
    assert targets[..i] + targets[i..] == targets;
    AllOrdersAppend(s, ctx, targets[..i], targets[i..], round4);
  }

  /** `risk_check`: rejects a BUY that would take the position above the
      cap, a SELL of more than is held, and any price outside
      [0.01, 0.99]; accepts everything else. */
  function RiskCheck(s: Settings, order: ProposedOrder, positions: seq<Position>): (ok: bool)
    ensures ok <==> && !(order.side == BUY && CurrentSize(positions, order.marketId) + order.size > s.maxPosition)
                    && !(order.side == SELL && order.size > CurrentSize(positions, order.marketId))
                    && MinPrice <= order.price <= MaxPrice
  {
    var current := CurrentSize(positions, order.marketId);
    if order.side == BUY && current + order.size > s.maxPosition then false
    else if order.side == SELL && order.size > current then false
    else if order.price < MinPrice || order.price > MaxPrice then false
    else true
  }

  /** Every proposed order passes the risk check's position rules, so the
      check decides it on its price alone. */
  lemma ProposalsPassPositionRules(s: Settings, ctx: Context, round4: real -> real, o: ProposedOrder)
    requires AllOrders(s, ctx, ctx.targetMarkets, round4).Ok?
    requires o in AllOrders(s, ctx, ctx.targetMarkets, round4).value
    ensures RiskCheck(s, o, ctx.positions) <==> MinPrice <= o.price <= MaxPrice
  {
  }

  /** The module state of the strategy: its settings and the last midpoint
      seen per market. */
  class Strategy {
    var settings: Settings
    var lastPrices: map<Option<string>, real>

    constructor ()
      ensures settings == DefaultSettings && lastPrices == map[]
    {
      settings := DefaultSettings;
      lastPrices := map[];
    }

    /** `initialize`: applies the configuration's overrides. */
    method Initialize(config: Config)
      modifies this
      ensures settings == Configure(old(settings), config)
      ensures lastPrices == old(lastPrices)
    {
      settings := Configure(settings, config);
    }

    /** `on_tick`: records the ticked market's midpoint (0.5 when missing)
        as its last price; every other market's entry is unchanged. */
    method OnTick(tick: Tick)
      modifies this
      ensures settings == old(settings)
      ensures tick.marketId in lastPrices && lastPrices[tick.marketId] == tick.midpoint.GetOr(DefaultMidpoint)
      ensures lastPrices.Keys == old(lastPrices).Keys + {tick.marketId}
      ensures forall k :: k in old(lastPrices) && k != tick.marketId ==> lastPrices[k] == old(lastPrices)[k]
    {
      var midpoint := tick.midpoint.GetOr(DefaultMidpoint);
      lastPrices := lastPrices[tick.marketId := midpoint];
    }

    /** The body of `propose_orders`' loop for one target market: nothing
        for a skipped market, `TypeError` for a midpoint or spread holding
        `None`, else the BUY it can afford within the cap and then the SELL
        of part of what it holds. */
    method ProposeForMarket(ctx: Context, marketId: string, round4: real -> real)
      returns (r: Proposal)
      ensures r == MarketOrders(settings, ctx, marketId, round4)
    {
      if marketId !in ctx.marketData || ctx.marketData[marketId].IsEmpty() {
        return Ok([]);
      }
      var market := ctx.marketData[marketId];
      var position := GetPosition(ctx.positions, marketId);
      var currentSize := if position.Some? then position.value.size else 0.0;
      assert currentSize == CurrentSize(ctx.positions, marketId);
      var midpoint := market.midpoint.Read(DefaultMidpoint);
      var spread := market.spread.Read(DefaultSpread);
      if midpoint.None? || spread.None? {
        return Err(TypeError(marketId));
      }
      var marketOrders := QuoteMarket(ctx.balance, currentSize, marketId, market.tokenId.Value(),
                                      midpoint.value, spread.value, round4);
      r := Ok(marketOrders);
    }

    /** The quoting part of the loop body: the quotes, then the BUY the balance
        can afford within the cap, then the SELL of part of what is held. */
    method QuoteMarket(balance: real, currentSize: real, marketId: string, tokenId: Option<string>,
                       midpoint: real, spread: real, round4: real -> real)
      returns (marketOrders: seq<ProposedOrder>)
      ensures var q := QuotePrices(settings.spreadPercent, midpoint, spread);
              marketOrders == BuyLeg(settings, balance, currentSize, marketId, tokenId, q.buyPrice, round4)
                              + SellLeg(settings, currentSize, marketId, tokenId, q.sellPrice, round4)
    {
      var quote := QuotePrices(settings.spreadPercent, midpoint, spread);
      var buyPrice, sellPrice := quote.buyPrice, quote.sellPrice;

      marketOrders := [];
      if currentSize < settings.maxPosition {
        var buySize := Min(settings.orderSize, settings.maxPosition - currentSize);
        if buySize > 0.0 && balance >= buySize * buyPrice {
          marketOrders := marketOrders + [ProposedOrder(marketId, tokenId, BUY, LIMIT, buySize, round4(buyPrice))];
        }
      }
      assert marketOrders == BuyLeg(settings, balance, currentSize, marketId, tokenId, buyPrice, round4);

      if currentSize > 0.0 {
        var sellSize := Min(settings.orderSize, currentSize);
        marketOrders := marketOrders + [ProposedOrder(marketId, tokenId, SELL, LIMIT, sellSize, round4(sellPrice))];
      }
    }

    /** `propose_orders`: walks the target markets in order and appends
        each market's orders, as `AllOrders` describes; a `TypeError` while
        quoting a market ends the walk. */
    method ProposeOrders(ctx: Context, round4: real -> real) returns (r: Proposal)
      ensures r == AllOrders(settings, ctx, ctx.targetMarkets, round4)
    {
      var targets := ctx.targetMarkets;
      var orders: seq<ProposedOrder> := [];
      var i := 0;
      while i < |targets|
        invariant 0 <= i <= |targets|
        invariant AllOrders(settings, ctx, targets[..i], round4) == Ok(orders)
      {
        var marketOrders := ProposeForMarket(ctx, targets[i], round4);
        AllOrdersStep(settings, ctx, targets, i, round4);
        if marketOrders.Err? {
          AllOrdersStopsAtError(settings, ctx, targets, i + 1, round4);
          return marketOrders;
        }
        orders := orders + marketOrders.value;
        i := i + 1;
      }
      assert targets[..i] == targets;
      r := Ok(orders);
    }
  }
}
