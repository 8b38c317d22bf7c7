/** POST /api/transfer (backend/routes/transfer.js): moving an amount between
    the spot, futures and options balances of the caller. */
module Transfer {
  import opened Common
  import opened History
  import opened Backend

  datatype Account = Spot | Futures | Options

  /** The request body; a missing amount is 0. */
  datatype TransferRequest = TransferRequest(fromAccount: string, toAccount: string, amount: real)

  /** `['spot', 'futures', 'options'].includes(name)`. */
  function ParseAccount(name: string): (r: Option<Account>)
    ensures r == Some(Spot) <==> name == "spot"
    ensures r == Some(Futures) <==> name == "futures"
    ensures r == Some(Options) <==> name == "options"
  {
    if name == "spot" then Some(Spot)
    else if name == "futures" then Some(Futures)
    else if name == "options" then Some(Options)
    else None
  }

  /** `user[`${account}Balance`]`. */
  function Balance(u: User, a: Account): real {
    match a
    case Spot => u.spotBalance
    case Futures => u.futuresBalance
    case Options => u.optionsBalance
  }

  /** The sum of the three trading balances. */
  function Total(u: User): real {
    u.spotBalance + u.futuresBalance + u.optionsBalance
  }

  /** The validation chain, in the source's order: amount, then distinct
      accounts, then known account names. */
  function CheckTransfer(req: TransferRequest): (r: Result<(Account, Account)>)
    ensures r == Err(InvalidAmount) <==> BadAmount(req.amount)
    ensures r == Err(SameAccount) <==> !BadAmount(req.amount) && req.fromAccount == req.toAccount
    ensures r == Err(InvalidAccount) <==>
      !BadAmount(req.amount) && req.fromAccount != req.toAccount
      && (ParseAccount(req.fromAccount).None? || ParseAccount(req.toAccount).None?)
    ensures r.Ok? ==>
      && r.value == (ParseAccount(req.fromAccount).value, ParseAccount(req.toAccount).value)
      && r.value.0 != r.value.1
  {
    if BadAmount(req.amount) then Err(InvalidAmount)
    else if req.fromAccount == req.toAccount then Err(SameAccount)
    else match (ParseAccount(req.fromAccount), ParseAccount(req.toAccount))
      case (Some(from), Some(to)) => Ok((from, to))
      case _ => Err(InvalidAccount)
  }

  /** The user after `{ decrement: amount }` on one balance and
      `{ increment: amount }` on another. */
  function Transferred(u: User, from: Account, to: Account, amount: real): (r: User)
    requires from != to
    ensures Balance(r, from) == Balance(u, from) - amount
    ensures Balance(r, to) == Balance(u, to) + amount
    ensures forall a :: a != from && a != to ==> Balance(r, a) == Balance(u, a)
    ensures Total(r) == Total(u)
    ensures r == u.(spotBalance := r.spotBalance, futuresBalance := r.futuresBalance, optionsBalance := r.optionsBalance)
  {
    var u1 := match from
      case Spot => u.(spotBalance := u.spotBalance - amount)
      case Futures => u.(futuresBalance := u.futuresBalance - amount)
      case Options => u.(optionsBalance := u.optionsBalance - amount);
    match to
    case Spot => u1.(spotBalance := u1.spotBalance + amount)
    case Futures => u1.(futuresBalance := u1.futuresBalance + amount)
    case Options => u1.(optionsBalance := u1.optionsBalance + amount)
  }

  /** The `transfer.completed` history meta and the audit details. */
  function TransferMeta(req: TransferRequest): (m: Meta)
    ensures Formattable(m)
  {
    map["from" := Str(req.fromAccount), "to" := Str(req.toAccount), "amount" := Num(req.amount)]
  }

  /** POST /api/transfer. */
  method SubmitTransfer(db: Database, caller: Caller, req: TransferRequest, now: int) returns (r: Result<User>)
    modifies db
    ensures CheckTransfer(req).Err? ==> r == Err(CheckTransfer(req).error)
    ensures r.Ok? <==>
      && CheckTransfer(req).Ok?
      && caller.id < |old(db.users)|
      && req.amount <= Balance(old(db.users)[caller.id], CheckTransfer(req).value.0)
    ensures r.Err? ==> db.users == old(db.users) && db.history == old(db.history) && db.auditLog == old(db.auditLog)
    ensures r.Ok? ==>
      var (from, to) := CheckTransfer(req).value;
      && r.value == Transferred(old(db.users)[caller.id], from, to, req.amount)
      && db.users == old(db.users)[caller.id := r.value]
      && db.history == old(db.history) + [NewRow(caller.id, "transfer.completed", TransferMeta(req), now)]
      && db.auditLog == old(db.auditLog) + [AuditRow("transfer", caller.id, caller.email, TransferMeta(req))]
    ensures db.withdrawals == old(db.withdrawals) && db.deposits == old(db.deposits)
  {
    if req.amount <= 0.0 {
      return Err(InvalidAmount);
    }
    if req.fromAccount == req.toAccount {
      return Err(SameAccount);
    }
    var from := ParseAccount(req.fromAccount);
    var to := ParseAccount(req.toAccount);
    if from.None? || to.None? {
      return Err(InvalidAccount);
    }
    if caller.id >= |db.users| {
      return Err(UserNotFound);
    }
    var user := db.users[caller.id];
    var sourceBalance := Balance(user, from.value);
    if req.amount > sourceBalance {
      return Err(InsufficientBalance);
    }
    var updated := Transferred(user, from.value, to.value, req.amount);
    db.users := db.users[caller.id := updated];
    db.history := db.history + [NewRow(caller.id, "transfer.completed", TransferMeta(req), now)];
    db.auditLog := db.auditLog + [AuditRow("transfer", caller.id, caller.email, TransferMeta(req))];
    r := Ok(updated);
  }
}
