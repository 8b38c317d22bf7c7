/** The trading state as one value, and what each step of the trading backend
    does to it: placing an order (POST /orders), cancelling one
    (DELETE /orders/:orderId), executing one (`executeOrder`), one matching
    tick (`matchOrdersWithPrices`) and a market refresh (`updateMarketData`).
    The imperative store in exchange.dfy is proved to follow these functions. */
module OrderBook {
  import opened Common
  import opened Ledger
  import opened Orders

  /** Portfolios by user id, the order table (an order's id is its index), the
      trade table and the markets by symbol. */
  datatype Book = Book(
    portfolios: map<nat, Portfolio>, orders: seq<Order>, trades: seq<Trade>, markets: map<string, Market>)

  /** The body of POST /orders; an absent or empty field is "" or 0. */
  datatype PlaceRequest = PlaceRequest(symbol: string, side: string, orderType: string, price: real, quantity: real)

  datatype TradingError =
    | MissingFields
    | InvalidSide
    | InvalidOrderType
    | InsufficientUsdt(have: real, need: real)
    | InsufficientAsset(asset: string, have: real, need: real)
    | OrderNotFound
    | Unauthorized
    | NotCancellable(status: Status)
    | PortfolioMissing  // the source dereferences a missing portfolio and answers 500

  datatype Outcome<T> = Ok(value: T) | Err(error: TradingError)

  /** Some required field is falsy (JavaScript `!x` on a string or a number). */
  predicate MissingField(req: PlaceRequest) {
    req.symbol == "" || req.side == "" || req.orderType == "" || req.price == 0.0 || req.quantity == 0.0
  }

  /** The validation chain of POST /orders, in the source's order. */
  function ValidatePlacement(req: PlaceRequest): (r: Outcome<(Side, OrderType)>)
    ensures r == Err(MissingFields) <==> MissingField(req)
    ensures r == Err(InvalidSide) <==> !MissingField(req) && ParseSide(req.side).None?
    ensures r == Err(InvalidOrderType) <==>
      !MissingField(req) && ParseSide(req.side).Some? && ParseOrderType(req.orderType).None?
    ensures r.Ok? <==> !MissingField(req) && ParseSide(req.side).Some? && ParseOrderType(req.orderType).Some?
    ensures r.Ok? ==> r.value == (ParseSide(req.side).value, ParseOrderType(req.orderType).value)
  {
    if MissingField(req) then Err(MissingFields)
    else match ParseSide(req.side)
      case None => Err(InvalidSide)
      case Some(side) =>
        match ParseOrderType(req.orderType)
        case None => Err(InvalidOrderType)
        case Some(t) => Ok((side, t))
  }

  /** Get-or-create: a user without a portfolio gets `{ USDT: 10000 }`. */
  function WithPortfolio(b: Book, u: nat): (r: Book)
    ensures u in r.portfolios
    ensures u in b.portfolios ==> r == b
    ensures u !in b.portfolios ==> r.portfolios[u] == NewPortfolio
    ensures forall v :: v != u ==> (v in r.portfolios <==> v in b.portfolios)
    ensures forall v :: v in b.portfolios ==> r.portfolios[v] == b.portfolios[v]
    ensures r.orders == b.orders && r.trades == b.trades && r.markets == b.markets
  {
    if u in b.portfolios then b else b.(portfolios := b.portfolios[u := NewPortfolio])
  }

  /** The order row POST /orders writes for a valid request. */
  function NewOrder(id: nat, u: nat, req: PlaceRequest, side: Side, t: OrderType): Order {
    Order(id, u, req.symbol, side, t, req.price, req.quantity, req.price * req.quantity, Open, 0.0)
  }

  /** Whether the portfolio covers a valid request: `price * quantity` USDT
      for a BUY, `quantity` of the symbol's base asset for a SELL. */
  predicate Covered(p: Portfolio, side: Side, req: PlaceRequest) {
    match side
    case Buy => Avail(p, Usdt) >= req.price * req.quantity
    case Sell => Avail(p, BaseOf(req.symbol)) >= req.quantity
  }

  /** The refusal of a request the portfolio does not cover. */
  function Shortfall(p: Portfolio, side: Side, req: PlaceRequest): TradingError {
    match side
    case Buy => InsufficientUsdt(Avail(p, Usdt), req.price * req.quantity)
    case Sell => InsufficientAsset(BaseOf(req.symbol), Avail(p, BaseOf(req.symbol)), req.quantity)
  }

  /** The portfolio once the request's funds are locked. */
  function Locked(p: Portfolio, side: Side, req: PlaceRequest): Portfolio {
    match side
    case Buy => LockQuote(p, req.price * req.quantity)
    case Sell => LockBase(p, BaseOf(req.symbol), req.quantity)
  }

  /** POST /orders. Validation failures leave everything as it was; once the
      request is valid the portfolio is created if missing, even when the
      balance check then fails. The request is accepted exactly when the
      portfolio covers it: a BUY locks `price * quantity` USDT, a SELL locks
      `quantity` of the symbol's base asset. */
  function Place(b: Book, u: nat, req: PlaceRequest): (r: (Book, Outcome<nat>))
    ensures ValidatePlacement(req).Err? ==> r.0 == b && r.1 == Err(ValidatePlacement(req).error)
    ensures ValidatePlacement(req).Ok? ==> u in r.0.portfolios
    ensures ValidatePlacement(req).Ok? ==>
      (r.1.Ok? <==> Covered(WithPortfolio(b, u).portfolios[u], ValidatePlacement(req).value.0, req))
    ensures r.1.Err? ==> r.0 == b || r.0 == WithPortfolio(b, u)
    ensures r.1.Ok? ==>
      && ValidatePlacement(req).Ok?
      && r.1.value == |b.orders|
      && r.0.orders == b.orders + [NewOrder(|b.orders|, u, req, ValidatePlacement(req).value.0, ValidatePlacement(req).value.1)]
      && r.0.portfolios[u] == Locked(WithPortfolio(b, u).portfolios[u], ValidatePlacement(req).value.0, req)
      && r.0.trades == b.trades && r.0.markets == b.markets
      && (forall v :: v != u ==> (v in r.0.portfolios <==> v in b.portfolios))
      && (forall v :: v != u && v in b.portfolios ==> r.0.portfolios[v] == b.portfolios[v])
  {
    match ValidatePlacement(req)
    case Err(e) => (b, Err(e))
    case Ok((side, t)) =>
      var b1 := WithPortfolio(b, u);
      var p := b1.portfolios[u];
      if !Covered(p, side, req) then (b1, Err(Shortfall(p, side, req)))
      else
        (b1.(portfolios := b1.portfolios[u := Locked(p, side, req)],
             orders := b1.orders + [NewOrder(|b.orders|, u, req, side, t)]), Ok(|b.orders|))
  }

  /** The portfolio once a cancelled order's funds are released: a BUY gives
      back its whole `totalCost`, a SELL `quantity - filledQuantity`. */
  function Unlocked(p: Portfolio, o: Order): Portfolio {
    match o.side
    case Buy => UnlockQuote(p, o.totalCost)
    case Sell => UnlockBase(p, BaseOf(o.symbol), o.quantity - o.filledQuantity)
  }

  /** DELETE /orders/:orderId. Fails with not-found, then unauthorized, then
      not-cancellable unless OPEN or PARTIALLY_FILLED. A BUY gives back its
      whole `totalCost`; a SELL gives back `quantity - filledQuantity`. */
  function Cancel(b: Book, u: nat, id: nat): (r: (Book, Outcome<Order>))
    ensures id >= |b.orders| ==> r == (b, Err(OrderNotFound))
    ensures id < |b.orders| && b.orders[id].userId != u ==> r == (b, Err(Unauthorized))
    ensures id < |b.orders| && b.orders[id].userId == u && !IsOpen(b.orders[id].status)
      ==> r == (b, Err(NotCancellable(b.orders[id].status)))
    ensures id < |b.orders| && b.orders[id].userId == u && IsOpen(b.orders[id].status)
      ==> (r.1.Ok? <==> u in b.portfolios)
    ensures id < |b.orders| && b.orders[id].userId == u && IsOpen(b.orders[id].status) && u !in b.portfolios
      ==> r == (b, Err(PortfolioMissing))
    ensures r.1.Err? ==> r.0 == b
    ensures r.1.Ok? ==>
      && id < |b.orders| && b.orders[id].userId == u && IsOpen(b.orders[id].status) && u in b.portfolios
      && r.1.value == b.orders[id].(status := Cancelled)
      && r.0.orders == b.orders[id := b.orders[id].(status := Cancelled)]
      && r.0.trades == b.trades && r.0.markets == b.markets
      && r.0.portfolios.Keys == b.portfolios.Keys
      && r.0.portfolios[u] == Unlocked(b.portfolios[u], b.orders[id])
      && (forall v :: v != u && v in b.portfolios ==> r.0.portfolios[v] == b.portfolios[v])
  {
    if id >= |b.orders| then (b, Err(OrderNotFound))
    else
      var o := b.orders[id];
      if o.userId != u then (b, Err(Unauthorized))
      else if !IsOpen(o.status) then (b, Err(NotCancellable(o.status)))
      else if u !in b.portfolios then (b, Err(PortfolioMissing))
      else
        var o' := o.(status := Cancelled);
        (b.(portfolios := b.portfolios[u := Unlocked(b.portfolios[u], o)], orders := b.orders[id := o']), Ok(o'))
  }

  /** The trade an execution writes. */
  function TradeOf(o: Order, executionPrice: real): (t: Trade)
    ensures t.orderId == o.id && t.userId == o.userId && t.symbol == o.symbol && t.side == o.side
    ensures t.executionPrice == executionPrice && t.quantity == o.quantity
    ensures t.totalValue == executionPrice * o.quantity
  {
    Trade(o.id, o.userId, o.symbol, o.side, executionPrice, o.quantity, executionPrice * o.quantity)
  }

  /** The portfolio after settling `o` at `executionPrice`. */
  function Settle(p: Portfolio, o: Order, executionPrice: real): Portfolio {
    match o.side
    case Buy => SettleBuy(p, BaseOf(o.symbol), o.quantity, o.totalCost)
    case Sell => SettleSell(p, BaseOf(o.symbol), o.quantity, executionPrice * o.quantity)
  }

  /** `executeOrder(order, executionPrice)`. Without a portfolio nothing
      happens. Otherwise the portfolio is settled, one trade is written and the
      stored order becomes FILLED with `filledQuantity = quantity`. */
  function Execute(b: Book, o: Order, executionPrice: real): (r: Book)
    requires o.id < |b.orders|
    ensures o.userId !in b.portfolios ==> r == b
    ensures o.userId in b.portfolios ==>
      && r.trades == b.trades + [TradeOf(o, executionPrice)]
      && r.orders == b.orders[o.id := b.orders[o.id].(status := Filled, filledQuantity := o.quantity)]
      && r.portfolios == b.portfolios[o.userId := Settle(b.portfolios[o.userId], o, executionPrice)]
    ensures r.markets == b.markets && |r.orders| == |b.orders| && r.portfolios.Keys == b.portfolios.Keys
  {
    if o.userId !in b.portfolios then b
    else
      var stored := b.orders[o.id];
      Book(b.portfolios[o.userId := Settle(b.portfolios[o.userId], o, executionPrice)],
           b.orders[o.id := stored.(status := Filled, filledQuantity := o.quantity)],
           b.trades + [TradeOf(o, executionPrice)],
           b.markets)
  }

  /** One iteration of the tick loop: skip an order whose market is absent,
      otherwise execute it at the market's last price when the rule matches. */
  function Step(b: Book, o: Order): (r: Book)
    requires o.id < |b.orders|
    ensures o.symbol !in b.markets ==> r == b
    ensures o.symbol in b.markets && !ShouldExecute(o, b.markets[o.symbol].lastPrice) ==> r == b
    ensures o.symbol in b.markets && ShouldExecute(o, b.markets[o.symbol].lastPrice)
      ==> r == Execute(b, o, b.markets[o.symbol].lastPrice)
  {
    if o.symbol !in b.markets then b
    else
      var price := b.markets[o.symbol].lastPrice;
      if ShouldExecute(o, price) then Execute(b, o, price) else b
  }

  /** `matchOrdersWithPrices` over the open orders read at its start. */
  function Tick(b: Book, os: seq<Order>): (r: Book)
    requires forall i :: 0 <= i < |os| ==> os[i].id < |b.orders|
    ensures |r.orders| == |b.orders| && r.markets == b.markets && r.portfolios.Keys == b.portfolios.Keys
    ensures |r.trades| <= |b.trades| + |os|
  {
    if os == [] then b
    else
      var last := os[|os| - 1];
      var mid := Tick(b, os[..|os| - 1]);
      Step(mid, last)
  }

  /** Extending the processed prefix by one order is one more step. */
  lemma TickSnoc(b: Book, os: seq<Order>, i: nat)
    requires i < |os| && forall k :: 0 <= k < |os| ==> os[k].id < |b.orders|
    ensures Tick(b, os[..i + 1]) == Step(Tick(b, os[..i]), os[i])
  {
    assert os[..i + 1][..i] == os[..i];
  }

  /** A tick from the open orders of the current table. */
  function MatchOrders(b: Book): (r: Book)
    requires forall i :: 0 <= i < |b.orders| ==> b.orders[i].id == i
    ensures |r.orders| == |b.orders| && r.markets == b.markets
  {
    OpenOrderIds(b.orders);
    Tick(b, OpenOrders(b.orders))
  }

  /** In a table whose ids are positions, every open order read from it has
      an id inside the table. */
  lemma OpenOrderIds(os: seq<Order>)
    requires forall i :: 0 <= i < |os| ==> os[i].id == i
    ensures forall k :: 0 <= k < |OpenOrders(os)| ==> OpenOrders(os)[k].id < |os|
  {
    var open := OpenOrders(os);
    forall k | 0 <= k < |open| ensures open[k].id < |os| {
      assert open[k] in os;
    }
  }

  // ----- market refresh -----

  /** CRYPTO_PRICES_MAP: each tracked base asset and its price-source id, in
      declaration order. */
  const CryptoPrices: seq<(string, string)> := [
    ("BTC", "bitcoin"), ("ETH", "ethereum"), ("BNB", "binancecoin"), ("XRP", "ripple"),
    ("ADA", "cardano"), ("SOL", "solana"), ("DOGE", "dogecoin"), ("USDC", "usd-coin"),
    ("USDT", "tether"), ("LINK", "chainlink"), ("MATIC", "matic-network"), ("AVAX", "avalanche-2"),
    ("ATOM", "cosmos"), ("NEAR", "near"), ("FTM", "fantom"), ("ARB", "arbitrum"),
    ("OP", "optimism"), ("LIDO", "lido-dao")]

  /** No base asset is listed twice. */
  predicate DistinctBases(table: seq<(string, string)>) {
    forall i, j :: 0 <= i < j < |table| ==> table[i].0 != table[j].0
  }

  lemma CryptoPricesDistinct()
    ensures DistinctBases(CryptoPrices)
  {
  }

  /** One coin of the price source's answer: its USD price and, when given,
      its 24-hour volume. */
  datatype CoinQuote = CoinQuote(usd: real, usd24hVol: Option<real>)

  /** A fetched quote for one base asset. */
  datatype PriceData = PriceData(price: real, volume24h: real)

  /** `{ price: usd, volume24h: usd_24h_vol || 0 }`. */
  function ToPriceData(q: CoinQuote): (d: PriceData)
    ensures d.price == q.usd
    ensures q.usd24hVol.None? ==> d.volume24h == 0.0
    ensures q.usd24hVol.Some? ==> d.volume24h == q.usd24hVol.value
  {
    PriceData(q.usd, match q.usd24hVol case None => 0.0 case Some(v) => v)
  }

  /** The price map `fetchRealPrices` builds from the source's answer `data`:
      the table is walked in order and every base whose id the answer contains
      gets that coin's quote. */
  function PriceMap(table: seq<(string, string)>, data: map<string, CoinQuote>): map<string, PriceData> {
    if table == [] then map[]
    else
      var (base, id) := table[|table| - 1];
      var mid := PriceMap(table[..|table| - 1], data);
      if id in data then mid[base := ToPriceData(data[id])] else mid
  }

  /** The price map has an entry for exactly the listed bases the answer
      priced and, when no base is listed twice, each holds its own coin's quote. */
  lemma {:induction false} PriceMapEntries(table: seq<(string, string)>, data: map<string, CoinQuote>)
    ensures forall i :: 0 <= i < |table| && table[i].1 in data ==> table[i].0 in PriceMap(table, data)
    ensures forall k :: k in PriceMap(table, data) ==>
      exists i :: 0 <= i < |table| && table[i].0 == k && table[i].1 in data
    ensures DistinctBases(table) ==> forall i :: 0 <= i < |table| && table[i].1 in data ==>
      PriceMap(table, data)[table[i].0] == ToPriceData(data[table[i].1])
  {
    if table != [] {
      var pre := table[..|table| - 1];
      PriceMapEntries(pre, data);
      assert forall i :: 0 <= i < |pre| ==> pre[i] == table[i];
    }
  }

  /** The base assets of a table, in order. */
  function BasesOf(table: seq<(string, string)>): (bases: seq<string>)
    ensures |bases| == |table|
    ensures forall i :: 0 <= i < |table| ==> bases[i] == table[i].0
  {
    if table == [] then [] else BasesOf(table[..|table| - 1]) + [table[|table| - 1].0]
  }

  /** The upsert of one fetched base asset into the markets, keyed `<BASE>/USDT`. */
  function Upsert(markets: map<string, Market>, base: string, pd: PriceData, now: int): (r: map<string, Market>)
    ensures r.Keys == markets.Keys + {UsdtSymbol(base)}
    ensures forall s :: s in markets && s != UsdtSymbol(base) ==> r[s] == markets[s]
    ensures UsdtSymbol(base) in markets ==>
      r[UsdtSymbol(base)] == markets[UsdtSymbol(base)].(lastPrice := pd.price, volume24h := pd.volume24h, lastUpdated := now)
    ensures UsdtSymbol(base) !in markets ==>
      r[UsdtSymbol(base)] == Market(UsdtSymbol(base), base, "USDT", pd.price, pd.volume24h, now)
  {
    var symbol := UsdtSymbol(base);
    if symbol in markets then
      markets[symbol := markets[symbol].(lastPrice := pd.price, volume24h := pd.volume24h, lastUpdated := now)]
    else
      markets[symbol := Market(symbol, base, "USDT", pd.price, pd.volume24h, now)]
  }

  /** `updateMarketData`: one upsert per base of `bases` that has a price, in
      order. */
  function Refresh(markets: map<string, Market>, bases: seq<string>, prices: map<string, PriceData>, now: int)
    : (r: map<string, Market>)
    ensures markets.Keys <= r.Keys
  {
    if bases == [] then markets
    else
      var last := bases[|bases| - 1];
      var mid := Refresh(markets, bases[..|bases| - 1], prices, now);
      if last in prices then Upsert(mid, last, prices[last], now) else mid
  }

  /** Different bases give different market symbols. */
  lemma UsdtSymbolInjective(a: string, c: string)
    requires UsdtSymbol(a) == UsdtSymbol(c)
    ensures a == c
  {
    assert |a| == |c|;
    assert a == UsdtSymbol(a)[..|a|];
    assert c == UsdtSymbol(c)[..|c|];
  }

  /** After a refresh every priced base has its market `<BASE>/USDT` with the
      fetched price, volume and time (created with quote asset USDT when it was
      absent), no other market has changed, and no other market has appeared. */
  lemma {:induction false} RefreshUpserts(
    markets: map<string, Market>, bases: seq<string>, prices: map<string, PriceData>, now: int)
    ensures var r := Refresh(markets, bases, prices, now);
      && (forall a :: a in bases && a in prices ==>
            && UsdtSymbol(a) in r
            && r[UsdtSymbol(a)].lastPrice == prices[a].price
            && r[UsdtSymbol(a)].volume24h == prices[a].volume24h
            && r[UsdtSymbol(a)].lastUpdated == now
            && (UsdtSymbol(a) !in markets ==>
                  r[UsdtSymbol(a)] == Market(UsdtSymbol(a), a, "USDT", prices[a].price, prices[a].volume24h, now)))
      && (forall s :: s in markets && (forall a :: a in bases && a in prices ==> s != UsdtSymbol(a)) ==> r[s] == markets[s])
      && (forall s :: s in r ==> s in markets || exists a :: a in bases && a in prices && s == UsdtSymbol(a))
  {
    if bases != [] {
      var pre := bases[..|bases| - 1];
      var last := bases[|bases| - 1];
      assert bases == pre + [last];
      RefreshUpserts(markets, pre, prices, now);
      var mid := Refresh(markets, pre, prices, now);
      var r := Refresh(markets, bases, prices, now);
      if last in prices {
        assert r == Upsert(mid, last, prices[last], now);
        var pd := prices[last];
        forall a | a in bases && a in prices
          ensures UsdtSymbol(a) in r
          ensures r[UsdtSymbol(a)].lastPrice == prices[a].price
          ensures r[UsdtSymbol(a)].volume24h == prices[a].volume24h
          ensures r[UsdtSymbol(a)].lastUpdated == now
          ensures UsdtSymbol(a) !in markets ==>
            r[UsdtSymbol(a)] == Market(UsdtSymbol(a), a, "USDT", prices[a].price, prices[a].volume24h, now)
        {
          if a == last {
            if UsdtSymbol(last) in mid && UsdtSymbol(last) !in markets {
              var a' :| a' in pre && a' in prices && UsdtSymbol(last) == UsdtSymbol(a');
              UsdtSymbolInjective(a', last);
            }
          } else {
            assert a in pre;
            if UsdtSymbol(a) == UsdtSymbol(last) {
              UsdtSymbolInjective(a, last);
            }
          }
        }
      }
    }
  }
}
