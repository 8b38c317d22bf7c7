/** Orders, trades and markets of the trading backend, the match rule of the
    execution engine (backend/utils/orderExecutor.js) and the status filters
    of the order listings (backend/routes/trading.js). */
module Orders {
  import opened Common

  datatype Side = Buy | Sell
  datatype OrderType = Limit | MarketOrder
  datatype Status = Open | PartiallyFilled | Filled | Cancelled

  /** An order row. `id` is its position in the order table. */
  datatype Order = Order(
    id: nat, userId: nat, symbol: string, side: Side, orderType: OrderType,
    price: real, quantity: real, totalCost: real, status: Status, filledQuantity: real)

  /** A trade row, written once per execution. */
  datatype Trade = Trade(
    orderId: nat, userId: nat, symbol: string, side: Side,
    executionPrice: real, quantity: real, totalValue: real)

  /** A market row, keyed by its symbol. */
  datatype Market = Market(
    symbol: string, baseAsset: string, quoteAsset: string,
    lastPrice: real, volume24h: real, lastUpdated: int)

  /** `['OPEN', 'PARTIALLY_FILLED'].includes(status)`: the statuses a tick scans
      and a cancel accepts. */
  predicate IsOpen(s: Status) {
    s == Open || s == PartiallyFilled
  }

  /** `['FILLED', 'CANCELLED'].includes(status)`: the statuses of the history listing. */
  predicate IsClosed(s: Status) {
    s == Filled || s == Cancelled
  }

  /** Every status is listed by exactly one of the two listings. */
  lemma OpenOrClosed(s: Status)
    ensures IsOpen(s) != IsClosed(s)
  {
  }

  /** `['BUY', 'SELL'].includes(side)`. */
  function ParseSide(s: string): (r: Option<Side>)
    ensures r == Some(Buy) <==> s == "BUY"
    ensures r == Some(Sell) <==> s == "SELL"
    ensures r.None? <==> s != "BUY" && s != "SELL"
  {
    if s == "BUY" then Some(Buy) else if s == "SELL" then Some(Sell) else None
  }

  /** `['LIMIT', 'MARKET'].includes(orderType)`. */
  function ParseOrderType(s: string): (r: Option<OrderType>)
    ensures r == Some(Limit) <==> s == "LIMIT"
    ensures r == Some(MarketOrder) <==> s == "MARKET"
    ensures r.None? <==> s != "LIMIT" && s != "MARKET"
  {
    if s == "LIMIT" then Some(Limit) else if s == "MARKET" then Some(MarketOrder) else None
  }

  /** The match rule of a tick: a BUY executes when the last price is at or
      below the order's price, a SELL when it is at or above. The order type
      plays no part: a MARKET order waits for its own price like a LIMIT one. */
  predicate ShouldExecute(o: Order, lastPrice: real) {
    match o.side
    case Buy => lastPrice <= o.price
    case Sell => lastPrice >= o.price
  }

  lemma MatchRule(o: Order, lastPrice: real, t: OrderType)
    ensures o.side == Buy ==> (ShouldExecute(o, lastPrice) <==> lastPrice <= o.price)
    ensures o.side == Sell ==> (ShouldExecute(o, lastPrice) <==> lastPrice >= o.price)
    ensures ShouldExecute(o.(orderType := t), lastPrice) == ShouldExecute(o, lastPrice)
  {
  }

  /** `findMany({ where: { status: { in: ['OPEN', 'PARTIALLY_FILLED'] } } })`:
      the open orders of the table, in table order. */
  function OpenOrders(os: seq<Order>): (r: seq<Order>)
    ensures |r| <= |os|
    ensures forall o :: o in r <==> o in os && IsOpen(o.status)
  {
    if os == [] then []
    else (if IsOpen(os[0].status) then [os[0]] else []) + OpenOrders(os[1..])
  }

  /** The orders of `user` whose status satisfies the filter, newest first
      (`orderBy: { createdAt: 'desc' }`, creation order being table order). */
  function UserOrders(os: seq<Order>, user: nat, open: bool): (r: seq<Order>)
    ensures |r| <= |os|
    ensures forall o :: o in r <==> o in os && o.userId == user && IsOpen(o.status) == open
  {
    if os == [] then []
    else
      var last := os[|os| - 1];
      assert os == os[..|os| - 1] + [last];
      (if last.userId == user && IsOpen(last.status) == open then [last] else [])
        + UserOrders(os[..|os| - 1], user, open)
  }

  /** GET /orders/open: the user's OPEN and PARTIALLY_FILLED orders, newest first. */
  function ListOpenOrders(os: seq<Order>, user: nat): (r: seq<Order>)
    ensures forall o :: o in r <==> o in os && o.userId == user && IsOpen(o.status)
  {
    UserOrders(os, user, true)
  }

  /** GET /orders/history: the user's FILLED and CANCELLED orders, newest first,
      `skip: offset`, `take: limit`. */
  function ListOrderHistory(os: seq<Order>, user: nat, limit: nat, offset: nat): (r: seq<Order>)
    ensures |r| <= limit
    ensures forall o :: o in r ==> o in os && o.userId == user && IsClosed(o.status)
  {
    var all := UserOrders(os, user, false);
    var from := if offset <= |all| then offset else |all|;
    var to := if from + limit <= |all| then from + limit else |all|;
    assert forall o :: o in all[from..to] ==> o in all;
    all[from..to]
  }

  /** All orders of `user`, newest first. */
  function OrdersOf(os: seq<Order>, user: nat): (r: seq<Order>)
    ensures forall o :: o in r <==> o in os && o.userId == user
  {
    if os == [] then []
    else
      var last := os[|os| - 1];
      assert os == os[..|os| - 1] + [last];
      (if last.userId == user then [last] else []) + OrdersOf(os[..|os| - 1], user)
  }

  /** Every order of a user is in exactly one of the two listings. */
  lemma {:induction false} ListingsPartition(os: seq<Order>, user: nat)
    ensures |UserOrders(os, user, true)| + |UserOrders(os, user, false)| == |OrdersOf(os, user)|
  {
    if os != [] {
      ListingsPartition(os[..|os| - 1], user);
    }
  }
}
