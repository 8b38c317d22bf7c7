/** Withdrawal requests (backend/routes/withdrawal.js): a user submits one,
    an administrator approves it (and the balance is debited) or rejects it. */
module Withdrawals {
  import opened Common
  import opened History
  import opened Backend

  /** The submission checks, in the source's order. */
  function CheckWithdrawal(amount: real, u: User): (r: Option<ApiError>)
    ensures r == Some(InvalidAmount) <==> BadAmount(amount)
    ensures r == Some(AccountFrozen) <==> !BadAmount(amount) && u.frozen
    ensures r == Some(KycRequired) <==> !BadAmount(amount) && !u.frozen && u.kycLocked
    ensures r == Some(InsufficientBalance) <==> !BadAmount(amount) && !u.frozen && !u.kycLocked && amount > u.balance
    ensures r.None? <==> 0.0 < amount <= u.balance && !u.frozen && !u.kycLocked
  {
    if BadAmount(amount) then Some(InvalidAmount)
    else if u.frozen then Some(AccountFrozen)
    else if u.kycLocked then Some(KycRequired)
    else if amount > u.balance then Some(InsufficientBalance)
    else None
  }

  /** POST /api/withdrawal: a PENDING request; the balance does not move. */
  method SubmitWithdrawal(db: Database, caller: Caller, amount: real, now: int) returns (r: Result<nat>)
    requires db.Valid()
    modifies db
    ensures db.Valid()
    ensures BadAmount(amount) ==> r == Err(InvalidAmount)
    ensures !BadAmount(amount) && caller.id >= |old(db.users)| ==> r == Err(UserNotFound)
    ensures !BadAmount(amount) && caller.id < |old(db.users)| ==>
      match CheckWithdrawal(amount, old(db.users)[caller.id])
      case Some(e) => r == Err(e)
      case None => r == Ok(|old(db.withdrawals)|)
    ensures r.Err? ==> db.withdrawals == old(db.withdrawals) && db.history == old(db.history)
    ensures r.Ok? ==>
      && db.withdrawals == old(db.withdrawals) + [Withdrawal(caller.id, amount, Pending, None, None, None)]
      && db.history == old(db.history) + [NewRow(caller.id, "withdraw.request", IdAmountMeta(r.value, amount), now)]
    ensures db.users == old(db.users) && db.deposits == old(db.deposits) && db.auditLog == old(db.auditLog)
  {
    if amount <= 0.0 {
      return Err(InvalidAmount);
    }
    if caller.id >= |db.users| {
      return Err(UserNotFound);
    }
    var user := db.users[caller.id];
    if user.frozen {
      return Err(AccountFrozen);
    }
    if user.kycLocked {
      return Err(KycRequired);
    }
    if amount > user.balance {
      return Err(InsufficientBalance);
    }
    var id := |db.withdrawals|;
    db.withdrawals := db.withdrawals + [Withdrawal(caller.id, amount, Pending, None, None, None)];
    db.history := db.history + [NewRow(caller.id, "withdraw.request", IdAmountMeta(id, amount), now)];
    r := Ok(id);
  }

  /** The request after approval: APPROVED at `now`, whatever it was before. */
  function Approve(w: Withdrawal, now: int): (r: Withdrawal)
    ensures r.status == Approved && r.approvedAt == Some(now)
    ensures r.userId == w.userId && r.amount == w.amount
    ensures r.rejectedAt == w.rejectedAt && r.rejectionReason == w.rejectionReason
  {
    w.(status := Approved, approvedAt := Some(now))
  }

  /** The two updates of an approval: the request is marked approved and its
      amount is taken from the owner's balance. */
  method ApproveAndDebit(db: Database, id: nat, now: int) returns (wd: Withdrawal)
    requires db.Valid() && id < |db.withdrawals|
    modifies db
    ensures db.Valid()
    ensures wd == Approve(old(db.withdrawals)[id], now)
    ensures db.withdrawals == old(db.withdrawals)[id := wd]
    ensures
      var u := old(db.users)[wd.userId];
      db.users == old(db.users)[wd.userId := u.(balance := u.balance - wd.amount)]
    ensures db.history == old(db.history) && db.auditLog == old(db.auditLog) && db.deposits == old(db.deposits)
  {
    var withdrawal := db.withdrawals[id];
    wd := Approve(withdrawal, now);
    db.withdrawals := db.withdrawals[id := wd];
    var usr := db.users[withdrawal.userId];
    db.users := db.users[withdrawal.userId := usr.(balance := usr.balance - withdrawal.amount)];
  }

  /** POST /api/withdrawal/:id/approve. There is no status check: a request
      already approved or rejected is approved and debited again. */
  method ApproveWithdrawal(db: Database, caller: Caller, id: nat, now: int) returns (r: Result<Withdrawal>)
    requires db.Valid()
    modifies db
    ensures db.Valid()
    ensures caller.role != Admin ==> r == Err(AdminRequired)
    ensures caller.role == Admin && id >= |old(db.withdrawals)| ==> r == Err(NotFound)
    ensures r.Err? ==>
      && db.users == old(db.users) && db.withdrawals == old(db.withdrawals)
      && db.history == old(db.history) && db.auditLog == old(db.auditLog)
    ensures r.Ok? <==> caller.role == Admin && id < |old(db.withdrawals)|
    ensures r.Ok? ==>
      var w := old(db.withdrawals)[id];
      var u := old(db.users)[w.userId];
      && r.value == Approve(w, now)
      && db.withdrawals == old(db.withdrawals)[id := r.value]
      && db.users == old(db.users)[w.userId := u.(balance := u.balance - w.amount)]
      && db.history == old(db.history) + [NewRow(w.userId, "withdraw.approved", IdAmountMeta(id, w.amount), now)]
      && db.auditLog == old(db.auditLog) + [AuditRow("approve_withdrawal", w.userId, caller.email, map["withdrawalId" := Num(id as real), "amount" := Num(w.amount)])]
    ensures db.deposits == old(db.deposits)
  {
    if caller.role != Admin {
      return Err(AdminRequired);
    }
    if id >= |db.withdrawals| {
      return Err(NotFound);
    }
    var withdrawal := db.withdrawals[id];
    var wd := ApproveAndDebit(db, id, now);
    db.Record(NewRow(withdrawal.userId, "withdraw.approved", IdAmountMeta(id, withdrawal.amount), now),
      AuditRow("approve_withdrawal", withdrawal.userId, caller.email, map["withdrawalId" := Num(id as real), "amount" := Num(withdrawal.amount)]));
    r := Ok(wd);
  }

  /** POST /api/withdrawal/:id/reject: REJECTED with a reason; no balance moves.
      An unknown id makes the update throw, which leaves everything as it was. */
  method RejectWithdrawal(db: Database, caller: Caller, id: nat, reason: Option<string>, now: int) returns (r: Result<Withdrawal>)
    requires db.Valid()
    modifies db
    ensures db.Valid()
    ensures caller.role != Admin ==> r == Err(AdminRequired)
    ensures r.Ok? <==> caller.role == Admin && id < |old(db.withdrawals)|
    ensures r.Err? ==> db.withdrawals == old(db.withdrawals) && db.history == old(db.history) && db.auditLog == old(db.auditLog)
    ensures r.Ok? ==>
      var w := old(db.withdrawals)[id];
      && r.value == w.(status := Rejected, rejectedAt := Some(now), rejectionReason := Some(Fallback(reason, "Request denied")))
      && db.withdrawals == old(db.withdrawals)[id := r.value]
      && db.history == old(db.history) + [NewRow(w.userId, "withdraw.rejected", map["id" := Num(id as real)], now)]
      && db.auditLog == old(db.auditLog) + [AuditRow("reject_withdrawal", w.userId, caller.email, WithOptional(map["withdrawalId" := Num(id as real)], "reason", reason))]
    ensures db.users == old(db.users) && db.deposits == old(db.deposits)
  {
    if caller.role != Admin {
      return Err(AdminRequired);
    }
    if id >= |db.withdrawals| {
      return Err(NotFound);
    }
    var withdrawal := db.withdrawals[id].(status := Rejected, rejectedAt := Some(now), rejectionReason := Some(Fallback(reason, "Request denied")));
    db.withdrawals := db.withdrawals[id := withdrawal];
    db.Record(NewRow(withdrawal.userId, "withdraw.rejected", map["id" := Num(id as real)], now),
      AuditRow("reject_withdrawal", withdrawal.userId, caller.email, WithOptional(map["withdrawalId" := Num(id as real)], "reason", reason)));
    r := Ok(withdrawal);
  }
}
