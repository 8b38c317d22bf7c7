/** The `assets` object of a portfolio as backend/routes/trading.js stores
    it: the spendable balances and the two locked pots share one key space,
    `_lockedIn` holding the USDT of open BUY orders and `_locked` an object
    holding the base assets of open SELL orders. `Ledger.Portfolio` keeps the
    three parts apart. This module models the SELL lock on the shared object
    as written, proves that it agrees with `Ledger.LockBase` for every base
    asset other than the two pot names, and shows what happens when the base
    asset of a SELL is itself named `_lockedIn` or `_locked`. */
module AssetsObject {
  import opened Common
  import opened Ledger
  import opened Orders
  import opened OrderBook
  import opened BookInvariant

  const LockedInKey: string := "_lockedIn"
  const LockedKey: string := "_locked"

  /** A value under a key of `assets`: a number, NaN, or an object of numbers
      (the `_locked` pot). */
  datatype JsValue = Num(n: real) | NaN | Obj(fields: map<string, real>)

  type Assets = map<string, JsValue>

  /** `assets[k]`. An absent key gives `undefined`, which behaves as NaN under
      both `|| 0` and `- q`, so it is read as NaN. */
  function Read(a: Assets, k: string): JsValue {
    if k in a then a[k] else NaN
  }

  /** `v || 0`: NaN (and 0) read as 0; an object is truthy and stays. */
  function OrZero(v: JsValue): (r: JsValue)
    ensures !r.NaN?
  {
    if v.NaN? then Num(0.0) else v
  }

  /** `v < q` for a number `q`: an object converts to NaN, so it is never
      below anything. */
  predicate Below(v: JsValue, q: real) {
    v.Num? && v.n < q
  }

  /** `v - q`: anything but a number gives NaN. */
  function Minus(v: JsValue, q: real): JsValue {
    if v.Num? then Num(v.n - q) else NaN
  }

  /** What the SELL branch does: it refuses, throws, or leaves a new object. */
  datatype Lock = Insufficient | Throws | Locks(assets: Assets)

  /** The SELL branch of order placement on the stored object:
      `if ((assets[base] || 0) < qty) refuse; assets[base] -= qty;
      assets._locked = assets._locked || {};
      assets._locked[base] = (assets._locked[base] || 0) + qty`.
      Setting a property of a non-zero number throws in the module's strict
      code. */
  function LockSell(a: Assets, base: string, qty: real): (r: Lock)
    ensures r == Insufficient <==> Below(OrZero(Read(a, base)), qty)
  {
    if Below(OrZero(Read(a, base)), qty) then Insufficient
    else
      var a1 := a[base := Minus(Read(a, base), qty)];
      var pot := Read(a1, LockedKey);
      if pot.Obj? then Locks(a1[LockedKey := Obj(pot.fields[base := Amount(pot.fields, base) + qty])])
      else if pot.Num? && pot.n != 0.0 then Throws
      else Locks(a1[LockedKey := Obj(map[base := qty])])
  }

  /** No spendable balance is kept under a pot's name. */
  predicate PotKeysFree(p: Portfolio) {
    LockedInKey !in p.avail && LockedKey !in p.avail
  }

  /** The object the source stores for a portfolio. */
  function Stored(p: Portfolio): (a: Assets)
    requires PotKeysFree(p)
    ensures forall k :: k != LockedInKey && k != LockedKey ==> Read(a, k) == if k in p.avail then Num(p.avail[k]) else NaN
    ensures Read(a, LockedInKey) == Num(p.lockedIn) && Read(a, LockedKey) == Obj(p.locked)
  {
    (map k | k in p.avail :: Num(p.avail[k]))[LockedInKey := Num(p.lockedIn)][LockedKey := Obj(p.locked)]
  }

  /** Two objects without NaN values that read the same everywhere are
      equal. */
  lemma SameReads(a: Assets, b: Assets)
    requires forall k :: k in a ==> !a[k].NaN?
    requires forall k :: k in b ==> !b[k].NaN?
    requires forall k :: Read(a, k) == Read(b, k)
    ensures a == b
  {
    assert a.Keys == b.Keys by {
      forall k | k in a ensures k in b {
        assert Read(a, k) == a[k];
      }
      forall k | k in b ensures k in a {
        assert Read(b, k) == b[k];
      }
    }
    forall k | k in a ensures a[k] == b[k] {
      assert Read(a, k) == a[k] && Read(b, k) == b[k];
    }
  }

  /** Storing a portfolio after one spendable balance and the SELL pot
      change is storing the old one and writing those two keys. */
  lemma StoredUpdate(p: Portfolio, base: string, v: real, locked: map<string, real>)
    requires PotKeysFree(p) && base != LockedInKey && base != LockedKey
    ensures PotKeysFree(Portfolio(p.avail[base := v], p.lockedIn, locked))
    ensures Stored(Portfolio(p.avail[base := v], p.lockedIn, locked))
         == Stored(p)[base := Num(v)][LockedKey := Obj(locked)]
  {
    var q := Portfolio(p.avail[base := v], p.lockedIn, locked);
    var got := Stored(p)[base := Num(v)][LockedKey := Obj(locked)];
    forall k ensures Read(got, k) == Read(Stored(q), k) {
      if k == base {
        assert Read(got, k) == Num(v);
      } else if k != LockedKey && k != LockedInKey {
        assert Read(got, k) == Read(Stored(p), k);
      }
    }
    SameReads(got, Stored(q));
  }

  /** For every base asset other than the two pot names, the SELL lock on the
      stored object is `LockBase` on the portfolio: refused exactly when the
      spendable balance is below the quantity, and otherwise the object of
      the locked portfolio. */
  lemma LockSellAgrees(p: Portfolio, base: string, qty: real)
    requires PotKeysFree(p) && base != LockedInKey && base != LockedKey
    requires qty > 0.0
    ensures Avail(p, base) < qty ==> LockSell(Stored(p), base, qty) == Insufficient
    ensures Avail(p, base) >= qty ==>
      && PotKeysFree(LockBase(p, base, qty))
      && LockSell(Stored(p), base, qty) == Locks(Stored(LockBase(p, base, qty)))
  {
    var a := Stored(p);
    if Avail(p, base) >= qty {
      assert base in p.avail;
      var v := Avail(p, base) - qty;
      var locked := p.locked[base := Held(p, Base(base)) + qty];
      assert LockBase(p, base, qty) == Portfolio(p.avail[base := v], p.lockedIn, locked);
      var a1 := a[base := Num(v)];
      assert Read(a1, LockedKey) == Obj(p.locked);
      assert LockSell(a, base, qty) == Locks(a1[LockedKey := Obj(locked)]);
      StoredUpdate(p, base, v, locked);
    }
  }

  /** A SELL of the symbol `_lockedIn/USDT` reads the BUY pot as a spendable
      balance. With a quantity up to what the user's open BUY orders hold, the
      source accepts it, takes the quantity out of `_lockedIn` and books it
      under `_locked._lockedIn`: the BUY pot then falls short of what the open
      BUY orders reserve by exactly that quantity. The model refuses the
      request, since nothing spendable is named `_lockedIn`. */
  lemma LockedInAliasBreaksPot(b: Book, u: nat, req: PlaceRequest)
    requires Balanced(b) && u in b.portfolios && PotKeysFree(b.portfolios[u])
    requires req.symbol == UsdtSymbol(LockedInKey) && req.side == "SELL" && req.orderType == "LIMIT" && req.price > 0.0
    requires 0.0 < req.quantity <= Held(b.portfolios[u], Quote)
    ensures var r := LockSell(Stored(b.portfolios[u]), BaseOf(req.symbol), req.quantity);
      && r.Locks?
      && Read(r.assets, LockedInKey) == Num(Reserved(b.orders, u, Quote) - req.quantity)
      && Read(r.assets, LockedKey) == Obj(b.portfolios[u].locked[LockedInKey := Amount(b.portfolios[u].locked, LockedInKey) + req.quantity])
    ensures Place(b, u, req) == (b, Err(InsufficientAsset(LockedInKey, 0.0, req.quantity)))
  {
    var p := b.portfolios[u];
    assert '/' !in LockedInKey;
    assert BaseOf(req.symbol) == LockedInKey;
    assert ValidatePlacement(req) == Ok((Sell, Limit));
    assert Held(p, Quote) == Reserved(b.orders, u, Quote);
  }

  /** A SELL of the symbol `_locked/USDT` reads the SELL pot object as its
      balance. An object is never below a number, so any positive quantity is
      accepted; `_locked - qty` is NaN, `NaN || {}` is a fresh object, and the
      pot is left holding only the new entry: every reservation of the user's
      open SELL orders is erased. The model refuses the request. */
  lemma LockedAliasErasesReservations(b: Book, u: nat, req: PlaceRequest)
    requires u in b.portfolios && PotKeysFree(b.portfolios[u])
    requires req.symbol == UsdtSymbol(LockedKey) && req.side == "SELL" && req.orderType == "LIMIT" && req.price > 0.0
    requires req.quantity > 0.0
    ensures var r := LockSell(Stored(b.portfolios[u]), BaseOf(req.symbol), req.quantity);
      r.Locks? && Read(r.assets, LockedKey) == Obj(map[LockedKey := req.quantity])
    ensures Place(b, u, req) == (b, Err(InsufficientAsset(LockedKey, 0.0, req.quantity)))
  {
    assert '/' !in LockedKey;
    assert BaseOf(req.symbol) == LockedKey;
    assert ValidatePlacement(req) == Ok((Sell, Limit));
  }
}
