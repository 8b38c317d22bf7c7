/** The execution engine (backend/utils/orderExecutor.js) as steps on the
    store: converting a price-source answer, refreshing the markets, executing
    one order and one matching tick. */
module OrderExecutor {
  import opened Common
  import opened Ledger
  import opened Orders
  import opened OrderBook
  import opened TradingStore

  /** `fetchRealPrices`: the answer `data` of the price source (keyed by its
      coin ids) converted into a map keyed by base asset. */
  method FetchRealPrices(data: map<string, CoinQuote>) returns (priceMap: map<string, PriceData>)
    ensures priceMap == PriceMap(CryptoPrices, data)
  {
    priceMap := map[];
    var i := 0;
    while i < |CryptoPrices|
      invariant 0 <= i <= |CryptoPrices|
      invariant priceMap == PriceMap(CryptoPrices[..i], data)
    {
      var (symbol, coingeckoId) := CryptoPrices[i];
      assert CryptoPrices[..i + 1][..i] == CryptoPrices[..i];
      if coingeckoId in data {
        priceMap := priceMap[symbol := ToPriceData(data[coingeckoId])];
      }
      i := i + 1;
    }
    assert CryptoPrices[..i] == CryptoPrices;
  }

  /** The `prisma.cryptoMarket.upsert` of one fetched base asset. */
  method UpsertMarket(ex: Exchange, baseAsset: string, priceData: PriceData, now: int)
    modifies ex
    ensures ex.Snapshot() == old(ex.Snapshot()).(markets := Upsert(old(ex.markets), baseAsset, priceData, now))
  {
    var symbol := UsdtSymbol(baseAsset);
    if symbol in ex.markets {
      ex.markets := ex.markets[symbol := ex.markets[symbol].(
        lastPrice := priceData.price, volume24h := priceData.volume24h, lastUpdated := now)];
    } else {
      ex.markets := ex.markets[symbol := Market(symbol, baseAsset, "USDT", priceData.price, priceData.volume24h, now)];
    }
  }

  /** The loop of `updateMarketData`: upsert the market of every base in
      `bases` that has a price, in order. */
  method RefreshMarkets(ex: Exchange, bases: seq<string>, prices: map<string, PriceData>, now: int)
    modifies ex
    ensures ex.Snapshot() == old(ex.Snapshot()).(markets := Refresh(old(ex.markets), bases, prices, now))
  {
    ghost var b0 := ex.Snapshot();
    var i := 0;
    while i < |bases|
      invariant 0 <= i <= |bases|
      invariant ex.Snapshot() == b0.(markets := Refresh(b0.markets, bases[..i], prices, now))
    {
      var baseAsset := bases[i];
      assert bases[..i + 1][..i] == bases[..i];
      if baseAsset in prices {
        UpsertMarket(ex, baseAsset, prices[baseAsset], now);
      }
      i := i + 1;
    }
    assert bases[..i] == bases;
  }

  /** `updateMarketData`: fetch, then upsert `<BASE>/USDT` for every base the
      answer priced; `now` is the time of the call. */
  method UpdateMarketData(ex: Exchange, data: map<string, CoinQuote>, now: int)
    modifies ex
    ensures ex.Snapshot() == old(ex.Snapshot()).(markets := Refresh(old(ex.markets), BasesOf(CryptoPrices), PriceMap(CryptoPrices, data), now))
  {
    var prices := FetchRealPrices(data);
    RefreshMarkets(ex, BasesOf(CryptoPrices), prices, now);
  }

  /** `executeOrder(order, executionPrice)`. */
  method ExecuteOrder(ex: Exchange, order: Order, executionPrice: real)
    requires order.id < |ex.orders|
    modifies ex
    ensures ex.Snapshot() == Execute(old(ex.Snapshot()), order, executionPrice)
  {
    var userId := order.userId;
    var baseAsset := BaseOf(order.symbol);
    if userId !in ex.portfolios {
      return;
    }
    var assets := ex.portfolios[userId];
    var totalValue := executionPrice * order.quantity;
    assert Trade(order.id, userId, order.symbol, order.side, executionPrice, order.quantity, totalValue) == TradeOf(order, executionPrice);
    if order.side == Buy {
      assets := assets.(avail := assets.avail[baseAsset := Avail(assets, baseAsset) + order.quantity]);
      assets := assets.(lockedIn := assets.lockedIn - order.totalCost);
    } else {
      assets := assets.(avail := assets.avail[Usdt := Avail(assets, Usdt) + totalValue]);
      assets := assets.(locked := assets.locked[baseAsset := Held(assets, Base(baseAsset)) - order.quantity]);
    }
    ex.trades := ex.trades + [Trade(order.id, userId, order.symbol, order.side, executionPrice, order.quantity, totalValue)];
    ex.orders := ex.orders[order.id := ex.orders[order.id].(status := Filled, filledQuantity := order.quantity)];
    ex.portfolios := ex.portfolios[userId := assets];
  }

  /** One pass of the loop body of `matchOrdersWithPrices`: look up the
      order's market, skip the order when there is none, and execute it at
      the market's last price when the match rule holds. */
  method MatchOrder(ex: Exchange, order: Order)
    requires order.id < |ex.orders|
    modifies ex
    ensures ex.Snapshot() == Step(old(ex.Snapshot()), order)
  {
    if order.symbol in ex.markets {
      var currentPrice := ex.markets[order.symbol].lastPrice;
      if ShouldExecute(order, currentPrice) {
        ExecuteOrder(ex, order, currentPrice);
      }
    }
  }

  /** `matchOrdersWithPrices`: read the open orders once, then match each
      of them in turn. */
  method MatchOrdersWithPrices(ex: Exchange)
    requires forall i :: 0 <= i < |ex.orders| ==> ex.orders[i].id == i
    modifies ex
    ensures ex.Snapshot() == MatchOrders(old(ex.Snapshot()))
  {
    ghost var b0 := ex.Snapshot();
    var openOrders := OpenOrders(ex.orders);
    OpenOrderIds(b0.orders);
    var i := 0;
    assert openOrders[..0] == [];
    assert Tick(b0, openOrders[..0]) == b0;
    while i < |openOrders|
      invariant 0 <= i <= |openOrders|
      invariant ex.Snapshot() == Tick(b0, openOrders[..i])
    {
      MatchOrder(ex, openOrders[i]);
      TickSnoc(b0, openOrders, i);
      i := i + 1;
    }
    assert openOrders[..i] == openOrders;
  }
}
