/** The portfolio ledger of the trading backend (backend/routes/trading.js,
    backend/utils/orderExecutor.js). The source keeps one JSON object of
    assets per user: spendable amounts keyed by asset name, the USDT held by
    open BUY orders under the key `_lockedIn`, and the base assets held by
    open SELL orders under `_locked[base]`. Here those three parts are three
    fields, so a base asset named `_lockedIn` or `_locked` is just an asset
    with no balance; in the source it shares its key with a pot, and module
    `AssetsObject` models that case. Every read treats an absent key as
    zero, as `(x || 0)` does. */
module Ledger {
  import opened Common

  const Usdt: string := "USDT"

  /** The USDT a lazily created portfolio starts with. */
  const StartingUsdt: real := 10000.0

  datatype Portfolio = Portfolio(avail: map<string, real>, lockedIn: real, locked: map<string, real>)

  /** A reserved pot: the USDT BUY orders hold (`_lockedIn`) or the base asset
      SELL orders hold (`_locked[asset]`). */
  datatype Pot = Quote | Base(asset: string)

  /** `assets[a] || 0`. */
  function Avail(p: Portfolio, a: string): real {
    Amount(p.avail, a)
  }

  /** `assets._lockedIn || 0`, or `assets._locked[a] || 0`. */
  function Held(p: Portfolio, pot: Pot): real {
    match pot
    case Quote => p.lockedIn
    case Base(a) => Amount(p.locked, a)
  }

  /** `{ USDT: 10000 }`, the portfolio created on first access. */
  const NewPortfolio: Portfolio := Portfolio(map[Usdt := StartingUsdt], 0.0, map[])

  lemma NewPortfolioAmounts()
    ensures Avail(NewPortfolio, Usdt) == StartingUsdt
    ensures forall a :: a != Usdt ==> Avail(NewPortfolio, a) == 0.0
    ensures forall pot :: Held(NewPortfolio, pot) == 0.0
  {
  }

  /** Two portfolios that read the same everywhere (absent keys as zero). */
  ghost predicate SameAmounts(p: Portfolio, q: Portfolio) {
    && (forall a :: Avail(p, a) == Avail(q, a))
    && (forall pot :: Held(p, pot) == Held(q, pot))
  }

  /** Placing a BUY: `assets.USDT -= cost; assets._lockedIn += cost`. */
  function LockQuote(p: Portfolio, cost: real): (r: Portfolio)
    ensures Avail(r, Usdt) == Avail(p, Usdt) - cost
    ensures Held(r, Quote) == Held(p, Quote) + cost
    ensures forall a :: a != Usdt ==> Avail(r, a) == Avail(p, a)
    ensures forall pot :: pot != Quote ==> Held(r, pot) == Held(p, pot)
  {
    Portfolio(p.avail[Usdt := Avail(p, Usdt) - cost], p.lockedIn + cost, p.locked)
  }

  /** Placing a SELL: `assets[base] -= qty; assets._locked[base] += qty`. */
  function LockBase(p: Portfolio, base: string, qty: real): (r: Portfolio)
    ensures Avail(r, base) == Avail(p, base) - qty
    ensures Held(r, Base(base)) == Held(p, Base(base)) + qty
    ensures forall a :: a != base ==> Avail(r, a) == Avail(p, a)
    ensures forall pot :: pot != Base(base) ==> Held(r, pot) == Held(p, pot)
  {
    Portfolio(p.avail[base := Avail(p, base) - qty], p.lockedIn, p.locked[base := Held(p, Base(base)) + qty])
  }

  /** Cancelling a BUY: the cost goes back from `_lockedIn` to USDT. */
  function UnlockQuote(p: Portfolio, cost: real): (r: Portfolio)
    ensures Avail(r, Usdt) == Avail(p, Usdt) + cost
    ensures Held(r, Quote) == Held(p, Quote) - cost
    ensures forall a :: a != Usdt ==> Avail(r, a) == Avail(p, a)
    ensures forall pot :: pot != Quote ==> Held(r, pot) == Held(p, pot)
  {
    Portfolio(p.avail[Usdt := Avail(p, Usdt) + cost], p.lockedIn - cost, p.locked)
  }

  /** Cancelling a SELL: the remaining quantity goes back from `_locked[base]`. */
  function UnlockBase(p: Portfolio, base: string, qty: real): (r: Portfolio)
    ensures Avail(r, base) == Avail(p, base) + qty
    ensures Held(r, Base(base)) == Held(p, Base(base)) - qty
    ensures forall a :: a != base ==> Avail(r, a) == Avail(p, a)
    ensures forall pot :: pot != Base(base) ==> Held(r, pot) == Held(p, pot)
  {
    Portfolio(p.avail[base := Avail(p, base) + qty], p.lockedIn, p.locked[base := Held(p, Base(base)) - qty])
  }

  /** Settling a BUY: the bought quantity becomes spendable and the cost locked
      at placement leaves `_lockedIn`; spendable USDT does not move. */
  function SettleBuy(p: Portfolio, base: string, qty: real, cost: real): (r: Portfolio)
    ensures Avail(r, base) == Avail(p, base) + qty
    ensures Held(r, Quote) == Held(p, Quote) - cost
    ensures forall a :: a != base ==> Avail(r, a) == Avail(p, a)
    ensures forall pot :: pot != Quote ==> Held(r, pot) == Held(p, pot)
  {
    Portfolio(p.avail[base := Avail(p, base) + qty], p.lockedIn - cost, p.locked)
  }

  /** Settling a SELL: the proceeds become spendable USDT and the sold quantity
      leaves `_locked[base]`; the spendable base asset does not move. */
  function SettleSell(p: Portfolio, base: string, qty: real, proceeds: real): (r: Portfolio)
    ensures Avail(r, Usdt) == Avail(p, Usdt) + proceeds
    ensures Held(r, Base(base)) == Held(p, Base(base)) - qty
    ensures forall a :: a != Usdt ==> Avail(r, a) == Avail(p, a)
    ensures forall pot :: pot != Base(base) ==> Held(r, pot) == Held(p, pot)
  {
    Portfolio(p.avail[Usdt := Avail(p, Usdt) + proceeds], p.lockedIn, p.locked[base := Held(p, Base(base)) - qty])
  }

  /** Locking and then unlocking the same USDT amount changes no amount. */
  lemma QuoteLockRoundTrip(p: Portfolio, cost: real)
    ensures SameAmounts(UnlockQuote(LockQuote(p, cost), cost), p)
  {
    var q := UnlockQuote(LockQuote(p, cost), cost);
    forall a ensures Avail(q, a) == Avail(p, a) {
      if a == Usdt { } else { }
    }
    forall pot ensures Held(q, pot) == Held(p, pot) {
      if pot == Quote { } else { }
    }
  }

  /** Locking and then unlocking the same base quantity changes no amount. */
  lemma BaseLockRoundTrip(p: Portfolio, base: string, qty: real)
    ensures SameAmounts(UnlockBase(LockBase(p, base, qty), base, qty), p)
  {
    var q := UnlockBase(LockBase(p, base, qty), base, qty);
    forall a ensures Avail(q, a) == Avail(p, a) {
      if a == base { } else { }
    }
    forall pot ensures Held(q, pot) == Held(p, pot) {
      if pot == Base(base) { } else { }
    }
  }

  /** A lock moves value inside one asset: spendable plus held is unchanged. */
  lemma LockConserves(p: Portfolio, base: string, cost: real, qty: real)
    ensures Avail(LockQuote(p, cost), Usdt) + Held(LockQuote(p, cost), Quote) == Avail(p, Usdt) + Held(p, Quote)
    ensures Avail(LockBase(p, base, qty), base) + Held(LockBase(p, base, qty), Base(base))
         == Avail(p, base) + Held(p, Base(base))
  {
  }
}
