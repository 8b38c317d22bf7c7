/** POST /api/ai/subscribe (backend/routes/ai.js): the simulated trading bot.
    A subscription is paid from the testing balance or the deposited balance,
    earns a fixed return at once, and is capped per calendar day. */
module AiSubscription {
  import opened Common
  import opened History
  import opened Backend

  datatype Tier = Testing | Deposited

  /** The request body; an absent or zero number and an absent or empty
      string take the source's defaults. */
  datatype SubscribeRequest = SubscribeRequest(
    amount: real, strategy: Option<string>, positionSize: real, stopLoss: real, takeProfit: real)

  /** The return earned at once: 10% on testing funds, 150% on deposits. */
  function Rate(t: Tier): real {
    match t
    case Testing => 0.1
    case Deposited => 1.5
  }

  /** Subscriptions allowed per day: two on testing funds, one on deposits. */
  function DailyCap(t: Tier): nat {
    match t
    case Testing => 2
    case Deposited => 1
  }

  /** The `subscriptionType` text stored in the history meta. */
  function Label(t: Tier): string {
    match t
    case Testing => "testing"
    case Deposited => "deposited"
  }

  /** `(returnRate * 100) + '%'`; both products are exact in doubles. */
  function RateText(t: Tier): string {
    match t
    case Testing => "10%"
    case Deposited => "150%"
  }

  /** The balance a tier draws on. */
  function Funds(u: User, t: Tier): real {
    match t
    case Testing => u.testingBalance
    case Deposited => u.balance
  }

  /** The tier chosen for `amount`: testing when the amount is in
      [100, 500] and covered by the testing balance, otherwise deposited
      when it is in [100, 10000] and covered by the balance. */
  function ChooseTier(amount: real, u: User): (r: Option<Tier>)
    ensures r == Some(Testing) <==> 100.0 <= amount <= 500.0 && u.testingBalance >= amount
    ensures r == Some(Deposited) <==>
      !(100.0 <= amount <= 500.0 && u.testingBalance >= amount) && 100.0 <= amount <= 10000.0 && u.balance >= amount
    ensures r.Some? ==> 100.0 <= amount <= Funds(u, r.value)
  {
    if 100.0 <= amount <= 500.0 && u.testingBalance >= amount then Some(Testing)
    else if 100.0 <= amount <= 10000.0 && u.balance >= amount then Some(Deposited)
    else None
  }

  /** Whether a history row is one of `userId`'s subscriptions of tier `t`
      made at or after `dayStart`. */
  predicate CountsToday(row: HistoryRow, userId: nat, dayStart: int, t: Tier) {
    && row.userId == userId
    && row.action == "ai.subscription"
    && row.createdAt >= dayStart
    && "subscriptionType" in row.meta
    && row.meta["subscriptionType"] == Str(Label(t))
  }

  /** The number of rows `CountsToday` selects: none exactly when no row
      counts, all of them exactly when every row counts. */
  function TodayCount(history: seq<HistoryRow>, userId: nat, dayStart: int, t: Tier): (n: nat)
    ensures n <= |history|
    ensures n == 0 <==> forall i :: 0 <= i < |history| ==> !CountsToday(history[i], userId, dayStart, t)
    ensures n == |history| <==> forall i :: 0 <= i < |history| ==> CountsToday(history[i], userId, dayStart, t)
  {
    if history == [] then 0
    else
      var init := history[..|history| - 1];
      assert forall i :: 0 <= i < |init| ==> init[i] == history[i];
      var last := if CountsToday(history[|history| - 1], userId, dayStart, t) then 1 else 0;
      TodayCount(init, userId, dayStart, t) + last
  }

  /** The `ai.subscription` meta. */
  function SubscriptionMeta(t: Tier, req: SubscribeRequest): (m: Meta)
    ensures Formattable(m)
    ensures "subscriptionType" in m && m["subscriptionType"] == Str(Label(t))
    ensures "profit" in m && m["profit"] == Num(req.amount * Rate(t))
  {
    map[
      "subscriptionAmount" := Num(req.amount),
      "profit" := Num(req.amount * Rate(t)),
      "returnRate" := Str(RateText(t)),
      "subscriptionType" := Str(Label(t)),
      "strategy" := Str(Fallback(req.strategy, "moderate")),
      "positionSize" := Num(if req.positionSize != 0.0 then req.positionSize else 5.0),
      "stopLoss" := Num(if req.stopLoss != 0.0 then req.stopLoss else 3.0),
      "takeProfit" := Num(if req.takeProfit != 0.0 then req.takeProfit else 6.0)]
  }

  /** The `ai.profit` meta. */
  function ProfitMeta(t: Tier, amount: real): (m: Meta)
    ensures Formattable(m)
  {
    map[
      "profit" := Num(amount * Rate(t)),
      "returnRate" := Str(RateText(t)),
      "fromSubscription" := Num(amount),
      "subscriptionType" := Str(Label(t))]
  }

  /** The two rows one subscription writes, both at `now`. */
  function SubscriptionRows(userId: nat, t: Tier, req: SubscribeRequest, now: int): (rows: seq<HistoryRow>)
    ensures |rows| == 2
    ensures rows[0].action == "ai.subscription" && rows[1].action == "ai.profit"
  {
    [ NewRow(userId, "ai.subscription", SubscriptionMeta(t, req), now),
      NewRow(userId, "ai.profit", ProfitMeta(t, req.amount), now) ]
  }

  /** The user after paying `amount` from the tier's balance and being
      credited the profit at once. */
  function Subscribed(u: User, t: Tier, amount: real): (r: User)
    ensures Funds(r, t) == Funds(u, t) + amount * (Rate(t) - 1.0)
    ensures t == Testing ==> r.balance == u.balance
    ensures t == Deposited ==> r.testingBalance == u.testingBalance
    ensures r.spotBalance == u.spotBalance && r.futuresBalance == u.futuresBalance && r.optionsBalance == u.optionsBalance
    ensures r.email == u.email && r.password == u.password && r.frozen == u.frozen
  {
    match t
    case Testing => u.(testingBalance := u.testingBalance - amount + amount * Rate(t))
    case Deposited => u.(balance := u.balance - amount + amount * Rate(t))
  }

  lemma {:induction false} TodayCountAppend(history: seq<HistoryRow>, rows: seq<HistoryRow>, userId: nat, dayStart: int, t: Tier)
    ensures TodayCount(history + rows, userId, dayStart, t) == TodayCount(history, userId, dayStart, t) + TodayCount(rows, userId, dayStart, t)
    decreases |rows|
  {
    if rows == [] {
      assert history + rows == history;
    } else {
      var last := rows[|rows| - 1];
      assert (history + rows)[..|history + rows| - 1] == history + rows[..|rows| - 1];
      assert (history + rows)[|history + rows| - 1] == last;
      TodayCountAppend(history, rows[..|rows| - 1], userId, dayStart, t);
    }
  }

  /** A subscription adds exactly one to that day's count of its own tier
      (when it is made on or after the day's start) and nothing to the
      other tier's count or to any other user's. */
  lemma SubscriptionCountsOnce(history: seq<HistoryRow>, userId: nat, t: Tier, req: SubscribeRequest, now: int, dayStart: int, who: nat, t': Tier)
    ensures TodayCount(history + SubscriptionRows(userId, t, req, now), who, dayStart, t')
      == TodayCount(history, who, dayStart, t') + (if who == userId && t' == t && now >= dayStart then 1 else 0)
  {
    var rows := SubscriptionRows(userId, t, req, now);
    TodayCountAppend(history, rows, who, dayStart, t');
    assert rows[..1][..0] == [];
    assert rows[..|rows| - 1] == rows[..1];
    assert Label(t) == Label(t') <==> t == t';
  }

  /** POST /api/ai/subscribe at time `now`, where `dayStart` is the start of
      the current day. */
  method Subscribe(db: Database, caller: Caller, req: SubscribeRequest, dayStart: int, now: int) returns (r: Result<User>)
    modifies db
    ensures caller.id >= |old(db.users)| ==> r == Err(UserNotFound)
    ensures caller.id < |old(db.users)| && ChooseTier(req.amount, old(db.users)[caller.id]).None? ==> r == Err(InvalidSubscription)
    ensures caller.id < |old(db.users)| && ChooseTier(req.amount, old(db.users)[caller.id]).Some? ==>
      var t := ChooseTier(req.amount, old(db.users)[caller.id]).value;
      var used := TodayCount(old(db.history), caller.id, dayStart, t);
      if used >= DailyCap(t) then r == Err(DailyLimit(used, DailyCap(t)))
      else r == Ok(Subscribed(old(db.users)[caller.id], t, req.amount))
    ensures r.Err? ==> db.users == old(db.users) && db.history == old(db.history)
    ensures r.Ok? ==>
      var t := ChooseTier(req.amount, old(db.users)[caller.id]).value;
      && db.users == old(db.users)[caller.id := r.value]
      && db.history == old(db.history) + SubscriptionRows(caller.id, t, req, now)
    ensures db.withdrawals == old(db.withdrawals) && db.deposits == old(db.deposits) && db.auditLog == old(db.auditLog)
  {
    if caller.id >= |db.users| {
      return Err(UserNotFound);
    }
    var user := db.users[caller.id];
    var tier := ChooseTier(req.amount, user);
    if tier.None? {
      return Err(InvalidSubscription);
    }
    var t := tier.value;
    var todayCount := TodayCount(db.history, caller.id, dayStart, t);
    if todayCount >= DailyCap(t) {
      return Err(DailyLimit(todayCount, DailyCap(t)));
    }
    db.history := db.history + SubscriptionRows(caller.id, t, req, now);
    var updated := Subscribed(user, t, req.amount);
    db.users := db.users[caller.id := updated];
    r := Ok(updated);
  }

  /** The daily cap holds: when a day's subscriptions of a tier are within
      the cap, another successful subscription keeps them within it, since
      it is allowed only while the count is below the cap. */
  lemma DailyCapKept(history: seq<HistoryRow>, userId: nat, t: Tier, req: SubscribeRequest, now: int, dayStart: int)
    requires TodayCount(history, userId, dayStart, t) < DailyCap(t)
    ensures TodayCount(history + SubscriptionRows(userId, t, req, now), userId, dayStart, t) <= DailyCap(t)
  {
    SubscriptionCountsOnce(history, userId, t, req, now, dayStart, userId, t);
  }
}
