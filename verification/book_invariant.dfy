/** What the trading steps keep true. The USDT a portfolio holds under
    `_lockedIn` and the base assets it holds under `_locked` are exactly what
    its open orders reserve: a BUY reserves its `totalCost`, a SELL its
    unfilled quantity of the symbol's base asset. */
module BookInvariant {
  import opened Common
  import opened Ledger
  import opened Orders
  import opened OrderBook

  /** What order `o` reserves in `pot` of user `u`. */
  function Share(o: Order, u: nat, pot: Pot): real {
    if o.userId != u || !IsOpen(o.status) then 0.0
    else match pot
      case Quote => if o.side == Buy then o.totalCost else 0.0
      case Base(a) => if o.side == Sell && BaseOf(o.symbol) == a then o.quantity - o.filledQuantity else 0.0
  }

  /** What the open orders of `os` reserve in `pot` of user `u`. */
  function Reserved(os: seq<Order>, u: nat, pot: Pot): real {
    if os == [] then 0.0 else Reserved(os[..|os| - 1], u, pot) + Share(os[|os| - 1], u, pot)
  }

  /** The ledger invariant: ids are positions, every order's owner has a
      portfolio, open orders are unfilled, and every held pot equals what the
      owner's open orders reserve. */
  ghost predicate Balanced(b: Book) {
    && (forall i :: 0 <= i < |b.orders| ==> b.orders[i].id == i)
    && (forall i :: 0 <= i < |b.orders| ==> b.orders[i].userId in b.portfolios)
    && (forall i :: 0 <= i < |b.orders| && IsOpen(b.orders[i].status) ==> b.orders[i].filledQuantity == 0.0)
    && (forall u, pot :: u in b.portfolios ==> Held(b.portfolios[u], pot) == Reserved(b.orders, u, pot))
  }

  /** A well-formed order row: positive price and quantity, cost their product. */
  predicate PositiveOrder(o: Order) {
    o.price > 0.0 && o.quantity > 0.0 && o.totalCost == o.price * o.quantity
  }

  /** Balanced, with positive orders, non-negative spendable amounts and
      non-negative market prices. */
  ghost predicate Solvent(b: Book) {
    && Balanced(b)
    && PositiveOrders(b.orders)
    && Spendable(b.portfolios)
    && PricesNonNegative(b.markets)
  }

  predicate PositiveOrders(os: seq<Order>) {
    forall i :: 0 <= i < |os| ==> PositiveOrder(os[i])
  }

  /** No spendable amount of any portfolio is negative. */
  ghost predicate Spendable(ps: map<nat, Portfolio>) {
    forall u, a :: u in ps ==> Avail(ps[u], a) >= 0.0
  }

  predicate PricesNonNegative(ms: map<string, Market>) {
    forall s :: s in ms ==> ms[s].lastPrice >= 0.0
  }

  /** Replacing one portfolio by one with no negative spendable amount keeps
      every spendable amount non-negative. */
  lemma SpendableUpdate(ps: map<nat, Portfolio>, u: nat, p: Portfolio)
    requires Spendable(ps)
    requires forall a :: Avail(p, a) >= 0.0
    ensures Spendable(ps[u := p])
  {
    var ps' := ps[u := p];
    forall v, a | v in ps' ensures Avail(ps'[v], a) >= 0.0 {
      if v != u {
        assert ps'[v] == ps[v];
      }
    }
  }

  // ----- sums -----

  lemma {:induction false} ReservedAppend(os: seq<Order>, o: Order, u: nat, pot: Pot)
    ensures Reserved(os + [o], u, pot) == Reserved(os, u, pot) + Share(o, u, pot)
  {
    assert (os + [o])[..|os|] == os;
  }

  /** Replacing one order changes the sum by the difference of the two shares. */
  lemma {:induction false} ReservedUpdate(os: seq<Order>, k: nat, o: Order, u: nat, pot: Pot)
    requires k < |os|
    ensures Reserved(os[k := o], u, pot) == Reserved(os, u, pot) - Share(os[k], u, pot) + Share(o, u, pot)
  {
    var n := |os| - 1;
    var os' := os[k := o];
    if k == n {
      assert os'[..n] == os[..n];
    } else {
      assert os'[..n] == os[..n][k := o];
      ReservedUpdate(os[..n], k, o, u, pot);
    }
  }

  /** A user who owns no order has nothing reserved. */
  lemma {:induction false} ReservedOfStranger(os: seq<Order>, u: nat, pot: Pot)
    requires forall i :: 0 <= i < |os| ==> os[i].userId != u
    ensures Reserved(os, u, pot) == 0.0
  {
    if os != [] {
      ReservedOfStranger(os[..|os| - 1], u, pot);
    }
  }

  /** Positive, unfilled open orders reserve a non-negative amount. */
  lemma {:induction false} ReservedNonNegative(os: seq<Order>, u: nat, pot: Pot)
    requires forall i :: 0 <= i < |os| ==> PositiveOrder(os[i])
    requires forall i :: 0 <= i < |os| && IsOpen(os[i].status) ==> os[i].filledQuantity == 0.0
    ensures Reserved(os, u, pot) >= 0.0
  {
    if os != [] {
      var o := os[|os| - 1];
      ReservedNonNegative(os[..|os| - 1], u, pot);
      if IsOpen(o.status) {
        assert o.price * o.quantity > 0.0;
      }
    }
  }

  /** In a solvent book no pot is negative. */
  lemma HeldNonNegative(b: Book, u: nat, pot: Pot)
    requires Solvent(b) && u in b.portfolios
    ensures Held(b.portfolios[u], pot) >= 0.0
  {
    ReservedNonNegative(b.orders, u, pot);
  }

  // ----- lazy portfolio creation -----

  lemma WithPortfolioBalanced(b: Book, u: nat)
    requires Balanced(b)
    ensures Balanced(WithPortfolio(b, u))
  {
    if u !in b.portfolios {
      var b1 := WithPortfolio(b, u);
      forall v, pot | v in b1.portfolios
        ensures Held(b1.portfolios[v], pot) == Reserved(b1.orders, v, pot)
      {
        if v == u {
          ReservedOfStranger(b.orders, u, pot);
        }
      }
    }
  }

  lemma WithPortfolioSolvent(b: Book, u: nat)
    requires Solvent(b)
    ensures Solvent(WithPortfolio(b, u))
  {
    WithPortfolioBalanced(b, u);
  }

  // ----- placement -----

  /** Locking for a new order adds to each pot exactly the order's share. */
  lemma LockedShare(p: Portfolio, id: nat, u: nat, req: PlaceRequest, side: Side, t: OrderType, pot: Pot)
    ensures Held(Locked(p, side, req), pot) == Held(p, pot) + Share(NewOrder(id, u, req, side, t), u, pot)
  {
    match side
    case Buy =>
      if pot != Quote {
        assert Held(LockQuote(p, req.price * req.quantity), pot) == Held(p, pot);
      }
    case Sell =>
      if pot != Base(BaseOf(req.symbol)) {
        assert Held(LockBase(p, BaseOf(req.symbol), req.quantity), pot) == Held(p, pot);
      }
  }

  /** Every placement keeps the held pots equal to what the open orders
      reserve, whatever the price and quantity. */
  lemma PlaceBalanced(b: Book, u: nat, req: PlaceRequest)
    requires Balanced(b)
    ensures Balanced(Place(b, u, req).0)
  {
    var r := Place(b, u, req);
    if ValidatePlacement(req).Ok? {
      var b1 := WithPortfolio(b, u);
      WithPortfolioBalanced(b, u);
      if r.1.Ok? {
        var (side, t) := ValidatePlacement(req).value;
        var o := NewOrder(|b.orders|, u, req, side, t);
        assert r.0.orders == b1.orders + [o];
        forall v, pot | v in r.0.portfolios
          ensures Held(r.0.portfolios[v], pot) == Reserved(r.0.orders, v, pot)
        {
          ReservedAppend(b1.orders, o, v, pot);
          if v == u {
            LockedShare(b1.portfolios[u], |b.orders|, u, req, side, t, pot);
          } else {
            assert r.0.portfolios[v] == b1.portfolios[v];
          }
        }
        assert forall i :: 0 <= i < |r.0.orders| ==> r.0.orders[i] == if i < |b.orders| then b.orders[i] else o;
      }
    }
  }

  /** With a positive price and quantity a placement keeps the book solvent. */
  lemma PlaceSolvent(b: Book, u: nat, req: PlaceRequest)
    requires Solvent(b)
    requires req.price > 0.0 && req.quantity > 0.0
    ensures Solvent(Place(b, u, req).0)
  {
    PlaceBalanced(b, u, req);
    PlacePositive(b, u, req);
    PlaceSpendable(b, u, req);
  }

  lemma PlacePositive(b: Book, u: nat, req: PlaceRequest)
    requires PositiveOrders(b.orders)
    requires req.price > 0.0 && req.quantity > 0.0
    ensures PositiveOrders(Place(b, u, req).0.orders)
  {
    var r := Place(b, u, req);
    if r.1.Ok? {
      var (side, t) := ValidatePlacement(req).value;
      var o := NewOrder(|b.orders|, u, req, side, t);
      assert PositiveOrder(o);
      forall i | 0 <= i < |r.0.orders| ensures PositiveOrder(r.0.orders[i]) {
        if i < |b.orders| {
          assert r.0.orders[i] == b.orders[i];
        }
      }
    }
  }

  lemma PlaceSpendable(b: Book, u: nat, req: PlaceRequest)
    requires Spendable(b.portfolios)
    ensures Spendable(Place(b, u, req).0.portfolios)
  {
    var r := Place(b, u, req);
    var b1 := WithPortfolio(b, u);
    assert Spendable(b1.portfolios) by {
      forall v, a | v in b1.portfolios ensures Avail(b1.portfolios[v], a) >= 0.0 {
        if v !in b.portfolios {
          NewPortfolioAmounts();
        }
      }
    }
    if r.1.Ok? {
      var p := b1.portfolios[u];
      var side := ValidatePlacement(req).value.0;
      var p' := Locked(p, side, req);
      assert Covered(p, side, req);
      forall v, a | v in r.0.portfolios ensures Avail(r.0.portfolios[v], a) >= 0.0 {
        if v != u {
          assert r.0.portfolios[v] == b.portfolios[v];
        } else {
          assert Avail(p, a) >= 0.0;
        }
      }
    }
  }

  /** The source accepts a negative price: a BUY at price -1 for quantity 1
      raises the spendable USDT of a fresh portfolio above its starting amount
      and drives `_lockedIn` below zero. */
  lemma NegativePriceBuy(b: Book, u: nat)
    requires u !in b.portfolios
    ensures var r := Place(b, u, PlaceRequest("BTC/USDT", "BUY", "LIMIT", -1.0, 1.0));
      && r.1 == Ok(|b.orders|)
      && Avail(r.0.portfolios[u], Usdt) == StartingUsdt + 1.0
      && Held(r.0.portfolios[u], Quote) == -1.0
  {
  }

  // ----- cancellation -----

  lemma CancelBalanced(b: Book, u: nat, id: nat)
    requires Balanced(b)
    ensures Balanced(Cancel(b, u, id).0)
  {
    var r := Cancel(b, u, id);
    if r.1.Ok? {
      var o := b.orders[id];
      var o' := o.(status := Cancelled);
      forall v, pot | v in r.0.portfolios
        ensures Held(r.0.portfolios[v], pot) == Reserved(r.0.orders, v, pot)
      {
        ReservedUpdate(b.orders, id, o', v, pot);
      }
    }
  }

  lemma CancelSolvent(b: Book, u: nat, id: nat)
    requires Solvent(b)
    ensures Solvent(Cancel(b, u, id).0)
  {
    CancelBalanced(b, u, id);
    CancelPositive(b, u, id);
    CancelSpendable(b, u, id);
  }

  lemma CancelPositive(b: Book, u: nat, id: nat)
    requires PositiveOrders(b.orders)
    ensures PositiveOrders(Cancel(b, u, id).0.orders)
  {
    var r := Cancel(b, u, id);
    forall i | 0 <= i < |r.0.orders| ensures PositiveOrder(r.0.orders[i]) {
      assert PositiveOrder(b.orders[i]);
    }
  }

  /** Releasing an open order's funds keeps spendable amounts non-negative:
      open orders are unfilled, so a SELL gives back its positive quantity. */
  lemma CancelSpendable(b: Book, u: nat, id: nat)
    requires Spendable(b.portfolios) && PositiveOrders(b.orders)
    requires forall i :: 0 <= i < |b.orders| && IsOpen(b.orders[i].status) ==> b.orders[i].filledQuantity == 0.0
    ensures Spendable(Cancel(b, u, id).0.portfolios)
  {
    var r := Cancel(b, u, id);
    if r.1.Ok? {
      var o := b.orders[id];
      var p := b.portfolios[u];
      assert PositiveOrder(o) && o.filledQuantity == 0.0;
      forall v, a | v in r.0.portfolios ensures Avail(r.0.portfolios[v], a) >= 0.0 {
        if v != u {
          assert r.0.portfolios[v] == b.portfolios[v];
        } else {
          assert Avail(p, a) >= 0.0;
        }
      }
    }
  }

  /** Placing an order and cancelling it gives back every amount of the
      portfolio the placement started from. */
  lemma PlaceThenCancel(b: Book, u: nat, req: PlaceRequest)
    requires Place(b, u, req).1.Ok?
    ensures var (b1, r1) := Place(b, u, req);
      var (b2, r2) := Cancel(b1, u, r1.value);
      && r2.Ok?
      && r2.value.status == Cancelled
      && SameAmounts(b2.portfolios[u], WithPortfolio(b, u).portfolios[u])
      && (forall v :: v != u && v in b.portfolios ==> b2.portfolios[v] == b.portfolios[v])
  {
    var (b1, r1) := Place(b, u, req);
    var p := WithPortfolio(b, u).portfolios[u];
    var o := b1.orders[r1.value];
    var (side, t) := ValidatePlacement(req).value;
    assert o == NewOrder(|b.orders|, u, req, side, t);
    match side
    case Buy => QuoteLockRoundTrip(p, req.price * req.quantity);
    case Sell => BaseLockRoundTrip(p, BaseOf(req.symbol), req.quantity);
  }

  /** A cancelled order cannot be cancelled again, and the second attempt
      changes nothing. */
  lemma CancelTwice(b: Book, u: nat, id: nat)
    requires Cancel(b, u, id).1.Ok?
    ensures var b1 := Cancel(b, u, id).0;
      Cancel(b1, u, id) == (b1, Err(NotCancellable(Cancelled)))
  {
  }

  // ----- execution -----

  /** Executing an open order stored at its id keeps the book balanced. */
  lemma ExecuteBalanced(b: Book, o: Order, price: real)
    requires Balanced(b)
    requires o.id < |b.orders| && b.orders[o.id] == o && IsOpen(o.status)
    ensures Balanced(Execute(b, o, price))
  {
    var r := Execute(b, o, price);
    var o' := o.(status := Filled, filledQuantity := o.quantity);
    assert r.orders == b.orders[o.id := o'];
    forall v, pot | v in r.portfolios
      ensures Held(r.portfolios[v], pot) == Reserved(r.orders, v, pot)
    {
      ReservedUpdate(b.orders, o.id, o', v, pot);
    }
  }

  lemma ExecuteSolvent(b: Book, o: Order, price: real)
    requires Solvent(b) && price >= 0.0
    requires o.id < |b.orders| && b.orders[o.id] == o && IsOpen(o.status)
    ensures Solvent(Execute(b, o, price))
  {
    ExecuteBalanced(b, o, price);
    var r := Execute(b, o, price);
    if o.userId in b.portfolios {
      assert PositiveOrder(o);
      assert price * o.quantity >= 0.0;
      var o' := o.(status := Filled, filledQuantity := o.quantity);
      assert r.orders == b.orders[o.id := o'];
      assert PositiveOrders(r.orders) by {
        forall i | 0 <= i < |r.orders| ensures PositiveOrder(r.orders[i]) {
          assert PositiveOrder(b.orders[i]);
        }
      }
      var p := b.portfolios[o.userId];
      var p' := Settle(p, o, price);
      assert forall a :: Avail(p', a) >= 0.0 by {
        forall a ensures Avail(p', a) >= 0.0 {
          assert Avail(p, a) >= 0.0;
        }
      }
      SpendableUpdate(b.portfolios, o.userId, p');
    }
  }

  /** After execution the order is FILLED: no later tick picks it up and it
      can no longer be cancelled. */
  lemma ExecutedIsFinal(b: Book, o: Order, price: real)
    requires Balanced(b)
    requires o.id < |b.orders| && b.orders[o.id] == o
    ensures var r := Execute(b, o, price);
      && r.orders[o.id].status == Filled
      && r.orders[o.id].filledQuantity == o.quantity
      && r.orders[o.id] !in OpenOrders(r.orders)
      && Cancel(r, o.userId, o.id) == (r, Err(NotCancellable(Filled)))
  {
  }

  // ----- ticks -----

  /** The orders a tick works through: open, stored at their id, each once. */
  ghost predicate TickInput(b: Book, os: seq<Order>) {
    && (forall i :: 0 <= i < |os| ==> os[i].id < |b.orders| && b.orders[os[i].id] == os[i] && IsOpen(os[i].status))
    && (forall i, j :: 0 <= i < j < |os| ==> os[i].id != os[j].id)
  }

  /** A tick leaves alone every order it was not given. */
  lemma {:induction false} TickFrame(b: Book, os: seq<Order>, k: nat)
    requires forall i :: 0 <= i < |os| ==> os[i].id < |b.orders|
    requires k < |b.orders| && forall i :: 0 <= i < |os| ==> os[i].id != k
    ensures Tick(b, os).orders[k] == b.orders[k]
  {
    if os != [] {
      TickFrame(b, os[..|os| - 1], k);
    }
  }

  lemma {:induction false} TickBalanced(b: Book, os: seq<Order>)
    requires Balanced(b) && TickInput(b, os)
    ensures Balanced(Tick(b, os))
  {
    if os != [] {
      var pre := os[..|os| - 1];
      var last := os[|os| - 1];
      TickBalanced(b, pre);
      var mid := Tick(b, pre);
      TickFrame(b, pre, last.id);
      if last.symbol in mid.markets {
        ExecuteBalanced(mid, last, mid.markets[last.symbol].lastPrice);
      }
    }
  }

  lemma {:induction false} TickSolvent(b: Book, os: seq<Order>)
    requires Solvent(b) && TickInput(b, os)
    ensures Solvent(Tick(b, os))
  {
    if os != [] {
      var pre := os[..|os| - 1];
      var last := os[|os| - 1];
      TickSolvent(b, pre);
      var mid := Tick(b, pre);
      TickFrame(b, pre, last.id);
      if last.symbol in mid.markets {
        ExecuteSolvent(mid, last, mid.markets[last.symbol].lastPrice);
      }
    }
  }

  /** The open orders of a table whose ids are positions are a valid tick
      input. */
  lemma {:induction false} OpenOrdersAreTickInput(b: Book)
    requires forall i :: 0 <= i < |b.orders| ==> b.orders[i].id == i
    ensures TickInput(b, OpenOrders(b.orders))
  {
    OpenOrdersIncreasing(b.orders);
    var os := OpenOrders(b.orders);
    forall i | 0 <= i < |os|
      ensures os[i].id < |b.orders| && b.orders[os[i].id] == os[i]
    {
      assert os[i] in b.orders;
    }
  }

  /** Ids strictly increase along `os`. */
  predicate IdsIncrease(os: seq<Order>) {
    forall i, j :: 0 <= i < j < |os| ==> os[i].id < os[j].id
  }

  lemma {:induction false} OpenOrdersIncreasing(os: seq<Order>)
    requires IdsIncrease(os)
    ensures IdsIncrease(OpenOrders(os))
  {
    if os != [] {
      var rest := OpenOrders(os[1..]);
      OpenOrdersIncreasing(os[1..]);
      if IsOpen(os[0].status) {
        forall k | 0 <= k < |rest| ensures os[0].id < rest[k].id {
          var m :| 0 <= m < |os[1..]| && os[1..][m] == rest[k];
          assert os[m + 1] == rest[k];
        }
        PrependIncreasing(os[0], rest);
      }
    }
  }

  lemma PrependIncreasing(o: Order, rest: seq<Order>)
    requires IdsIncrease(rest)
    requires forall k :: 0 <= k < |rest| ==> o.id < rest[k].id
    ensures IdsIncrease([o] + rest)
  {
    var r := [o] + rest;
    forall i, j | 0 <= i < j < |r| ensures r[i].id < r[j].id {
      assert r[j] == rest[j - 1];
      if i > 0 {
        assert r[i] == rest[i - 1];
      }
    }
  }

  /** A whole matching tick keeps the book balanced, and solvent. */
  lemma MatchOrdersSolvent(b: Book)
    requires Solvent(b)
    ensures Solvent(MatchOrders(b))
  {
    OpenOrdersAreTickInput(b);
    TickSolvent(b, OpenOrders(b.orders));
  }

  // ----- refresh -----

  /** A refresh with non-negative prices keeps the book solvent. */
  lemma {:induction false} RefreshSolvent(b: Book, bases: seq<string>, prices: map<string, PriceData>, now: int)
    requires Solvent(b)
    requires forall a :: a in prices ==> prices[a].price >= 0.0
    ensures Solvent(b.(markets := Refresh(b.markets, bases, prices, now)))
  {
    if bases != [] {
      RefreshSolvent(b, bases[..|bases| - 1], prices, now);
    }
  }
}
