/** Deposit requests (backend/routes/deposit.js): a user announces a deposit,
    an administrator confirms it (and the balance is credited) or rejects it. */
module Deposits {
  import opened Common
  import opened History
  import opened Backend

  /** The request body; absent strings are `None`, an absent amount is 0. */
  datatype DepositRequest = DepositRequest(
    amount: real, network: Option<string>, asset: Option<string>, walletAddress: Option<string>)

  /** How long an announced deposit stays open: 30 minutes, in milliseconds. */
  const DepositWindow: int := 30 * 60000

  /** The row `deposit.create` writes for a request by `userId` at `now`. */
  function NewDeposit(userId: nat, req: DepositRequest, now: int): (d: Deposit)
    ensures d.userId == userId && d.amount == req.amount && d.status == Pending
    ensures d.network == Fallback(req.network, "TRC20") && d.asset == Fallback(req.asset, "USDT")
    ensures d.walletAddress == req.walletAddress
    ensures d.expiresAt == now + 1800000
    ensures d.confirmedAt.None? && d.rejectedAt.None? && d.rejectionReason.None?
  {
    Deposit(userId, req.amount, Fallback(req.network, "TRC20"), Fallback(req.asset, "USDT"),
      req.walletAddress, Pending, now + DepositWindow, None, None, None)
  }

  /** `{ id, amount, network, asset }` with the request's own (undefaulted)
      network and asset. */
  function SubmittedMeta(id: nat, req: DepositRequest): (m: Meta)
    ensures Formattable(m)
    ensures "id" in m && m["id"] == Num(id as real)
    ensures "amount" in m && m["amount"] == Num(req.amount)
    ensures "network" in m <==> req.network.Some?
    ensures "asset" in m <==> req.asset.Some?
  {
    WithOptional(WithOptional(map["id" := Num(id as real), "amount" := Num(req.amount)], "network", req.network), "asset", req.asset)
  }

  /** `amount || deposit.amount`: the administrator's amount unless it is
      missing (zero); a negative one is used as given. */
  function CreditedAmount(given: real, stored: real): (r: real)
    ensures given != 0.0 ==> r == given
    ensures given == 0.0 ==> r == stored
  {
    if given != 0.0 then given else stored
  }

  /** POST /api/deposit: a PENDING deposit; no balance moves. A caller with no
      user row makes the insert fail, and nothing is written. */
  method SubmitDeposit(db: Database, caller: Caller, req: DepositRequest, now: int) returns (r: Result<Deposit>)
    requires db.Valid()
    modifies db
    ensures db.Valid()
    ensures BadAmount(req.amount) ==> r == Err(InvalidAmount)
    ensures r.Ok? <==> !BadAmount(req.amount) && caller.id < |old(db.users)|
    ensures r.Err? ==> db.deposits == old(db.deposits) && db.history == old(db.history)
    ensures r.Ok? ==>
      && r.value == NewDeposit(caller.id, req, now)
      && db.deposits == old(db.deposits) + [r.value]
      && db.history == old(db.history) + [NewRow(caller.id, "deposit.submitted", SubmittedMeta(|old(db.deposits)|, req), now)]
    ensures db.users == old(db.users) && db.withdrawals == old(db.withdrawals) && db.auditLog == old(db.auditLog)
  {
    if req.amount <= 0.0 {
      return Err(InvalidAmount);
    }
    if caller.id >= |db.users| {
      return Err(UserNotFound);
    }
    var id := |db.deposits|;
    var deposit := NewDeposit(caller.id, req, now);
    db.deposits := db.deposits + [deposit];
    db.history := db.history + [NewRow(caller.id, "deposit.submitted", SubmittedMeta(id, req), now)];
    r := Ok(deposit);
  }

  /** POST /api/deposit/:id/confirm. There is no status check: a deposit
      already confirmed or rejected is confirmed and credited again. */
  method ConfirmDeposit(db: Database, caller: Caller, id: nat, amount: real, now: int) returns (r: Result<Deposit>)
    requires db.Valid()
    modifies db
    ensures db.Valid()
    ensures caller.role != Admin ==> r == Err(AdminRequired)
    ensures caller.role == Admin && id >= |old(db.deposits)| ==> r == Err(NotFound)
    ensures r.Ok? <==> caller.role == Admin && id < |old(db.deposits)|
    ensures r.Err? ==>
      && db.users == old(db.users) && db.deposits == old(db.deposits)
      && db.history == old(db.history) && db.auditLog == old(db.auditLog)
    ensures r.Ok? ==>
      var d := old(db.deposits)[id];
      var u := old(db.users)[d.userId];
      var credited := CreditedAmount(amount, d.amount);
      && r.value == d.(status := Confirmed, confirmedAt := Some(now))
      && db.deposits == old(db.deposits)[id := r.value]
      && db.users == old(db.users)[d.userId := u.(balance := u.balance + credited)]
      && db.history == old(db.history) + [NewRow(d.userId, "deposit.confirmed", IdAmountMeta(id, credited), now)]
      && db.auditLog == old(db.auditLog) + [AuditRow("confirm_deposit", d.userId, caller.email, map["depositId" := Num(id as real), "amount" := Num(credited)])]
    ensures db.withdrawals == old(db.withdrawals)
  {
    if caller.role != Admin {
      return Err(AdminRequired);
    }
    if id >= |db.deposits| {
      return Err(NotFound);
    }
    var deposit := db.deposits[id];
    var depositAmount := CreditedAmount(amount, deposit.amount);
    var dep := deposit.(status := Confirmed, confirmedAt := Some(now));
    db.deposits := db.deposits[id := dep];
    var usr := db.users[deposit.userId];
    db.users := db.users[deposit.userId := usr.(balance := usr.balance + depositAmount)];
    db.history := db.history + [NewRow(deposit.userId, "deposit.confirmed", IdAmountMeta(id, depositAmount), now)];
    db.auditLog := db.auditLog + [AuditRow("confirm_deposit", deposit.userId, caller.email,
      map["depositId" := Num(id as real), "amount" := Num(depositAmount)])];
    r := Ok(dep);
  }

  /** POST /api/deposit/:id/reject: REJECTED with a reason; no balance moves.
      An unknown id makes the update throw, which leaves everything as it was. */
  method RejectDeposit(db: Database, caller: Caller, id: nat, reason: Option<string>, now: int) returns (r: Result<Deposit>)
    requires db.Valid()
    modifies db
    ensures db.Valid()
    ensures caller.role != Admin ==> r == Err(AdminRequired)
    ensures r.Ok? <==> caller.role == Admin && id < |old(db.deposits)|
    ensures r.Err? ==> db.deposits == old(db.deposits) && db.history == old(db.history) && db.auditLog == old(db.auditLog)
    ensures r.Ok? ==>
      var d := old(db.deposits)[id];
      && r.value == d.(status := Rejected, rejectedAt := Some(now), rejectionReason := Some(Fallback(reason, "Verification failed")))
      && db.deposits == old(db.deposits)[id := r.value]
      && db.history == old(db.history) + [NewRow(d.userId, "deposit.rejected", WithOptional(map["id" := Num(id as real)], "reason", reason), now)]
      && db.auditLog == old(db.auditLog) + [AuditRow("reject_deposit", d.userId, caller.email, WithOptional(map["depositId" := Num(id as real)], "reason", reason))]
    ensures db.users == old(db.users) && db.withdrawals == old(db.withdrawals)
  {
    if caller.role != Admin {
      return Err(AdminRequired);
    }
    if id >= |db.deposits| {
      return Err(NotFound);
    }
    var deposit := db.deposits[id].(status := Rejected, rejectedAt := Some(now), rejectionReason := Some(Fallback(reason, "Verification failed")));
    db.deposits := db.deposits[id := deposit];
    db.Record(NewRow(deposit.userId, "deposit.rejected", WithOptional(map["id" := Num(id as real)], "reason", reason), now),
      AuditRow("reject_deposit", deposit.userId, caller.email, WithOptional(map["depositId" := Num(id as real)], "reason", reason)));
    r := Ok(deposit);
  }
}
