/** The trading tables as a mutable store: the portfolio, order, trade and
    market tables the trading routes and the execution engine read and write. */
module TradingStore {
  import opened Ledger
  import opened Orders
  import opened OrderBook

  class Exchange {
    var portfolios: map<nat, Portfolio>
    var orders: seq<Order>
    var trades: seq<Trade>
    var markets: map<string, Market>

    /** The tables as one value, for the specifications of the steps. */
    function Snapshot(): (b: Book)
      reads this
      ensures b.portfolios == portfolios && b.orders == orders && b.trades == trades && b.markets == markets
    {
      Book(portfolios, orders, trades, markets)
    }

    /** Empty tables. */
    constructor ()
      ensures Snapshot() == Book(map[], [], [], map[])
    {
      portfolios := map[];
      orders := [];
      trades := [];
      markets := map[];
    }
  }
}
