/** The trading routes (backend/routes/trading.js) as steps on the store:
    fetching the portfolio, placing an order and cancelling one. */
module Trading {
  import opened Common
  import opened Ledger
  import opened Orders
  import opened OrderBook
  import opened TradingStore

  /** GET /portfolio: the caller's portfolio, created with 10000 USDT on first access. */
  method GetPortfolio(ex: Exchange, u: nat) returns (p: Portfolio)
    modifies ex
    ensures ex.Snapshot() == WithPortfolio(old(ex.Snapshot()), u)
    ensures p == ex.portfolios[u]
    ensures u !in old(ex.portfolios) ==> p == NewPortfolio
  {
    if u !in ex.portfolios {
      ex.portfolios := ex.portfolios[u := NewPortfolio];
    }
    p := ex.portfolios[u];
  }

  /** POST /orders. */
  method PlaceOrder(ex: Exchange, u: nat, req: PlaceRequest) returns (r: Outcome<nat>)
    modifies ex
    ensures (ex.Snapshot(), r) == Place(old(ex.Snapshot()), u, req)
  {
    if req.symbol == "" || req.side == "" || req.orderType == "" || req.price == 0.0 || req.quantity == 0.0 {
      return Err(MissingFields);
    }
    if req.side != "BUY" && req.side != "SELL" {
      return Err(InvalidSide);
    }
    if req.orderType != "LIMIT" && req.orderType != "MARKET" {
      return Err(InvalidOrderType);
    }
    var side := if req.side == "BUY" then Buy else Sell;
    var orderType := if req.orderType == "LIMIT" then Limit else MarketOrder;
    assert ValidatePlacement(req) == Ok((side, orderType));
    var assets := GetPortfolio(ex, u);
    ghost var before := assets;
    var totalCost := req.price * req.quantity;
    if req.side == "BUY" {
      var usdtBalance := Avail(assets, Usdt);
      if usdtBalance < totalCost {
        return Err(InsufficientUsdt(usdtBalance, totalCost));
      }
      assets := assets.(avail := assets.avail[Usdt := usdtBalance - totalCost]);
      assets := assets.(lockedIn := assets.lockedIn + totalCost);
    }
    if req.side == "SELL" {
      var base := BaseOf(req.symbol);
      var cryptoBalance := Avail(assets, base);
      if cryptoBalance < req.quantity {
        return Err(InsufficientAsset(base, cryptoBalance, req.quantity));
      }
      assets := assets.(avail := assets.avail[base := cryptoBalance - req.quantity]);
      assets := assets.(locked := assets.locked[base := Held(assets, Base(base)) + req.quantity]);
    }
    assert assets == Locked(before, side, req);
    var id := |ex.orders|;
    ex.orders := ex.orders + [Order(id, u, req.symbol, side, orderType, req.price, req.quantity, totalCost, Open, 0.0)];
    ex.portfolios := ex.portfolios[u := assets];
    r := Ok(id);
  }

  /** DELETE /orders/:orderId. */
  method CancelOrder(ex: Exchange, u: nat, id: nat) returns (r: Outcome<Order>)
    modifies ex
    ensures (ex.Snapshot(), r) == Cancel(old(ex.Snapshot()), u, id)
  {
    if id >= |ex.orders| {
      return Err(OrderNotFound);
    }
    var order := ex.orders[id];
    if order.userId != u {
      return Err(Unauthorized);
    }
    if !IsOpen(order.status) {
      return Err(NotCancellable(order.status));
    }
    if u !in ex.portfolios {
      return Err(PortfolioMissing);
    }
    var assets := ex.portfolios[u];
    var base := BaseOf(order.symbol);
    if order.side == Buy {
      assets := assets.(avail := assets.avail[Usdt := Avail(assets, Usdt) + order.totalCost]);
      assets := assets.(lockedIn := assets.lockedIn - order.totalCost);
    } else {
      var rest := order.quantity - order.filledQuantity;
      assets := assets.(avail := assets.avail[base := Avail(assets, base) + rest]);
      assets := assets.(locked := assets.locked[base := Held(assets, Base(base)) - rest]);
    }
    var updated := order.(status := Cancelled);
    ex.orders := ex.orders[id := updated];
    ex.portfolios := ex.portfolios[u := assets];
    r := Ok(updated);
  }
}
