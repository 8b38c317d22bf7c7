/** The backend's user-facing tables (users, history, withdrawals, deposits,
    audit log) as one mutable store, and the records they hold. Row ids are
    positions in their table. The routes in transfer.dfy, withdrawal.dfy,
    deposit.dfy, ai.dfy and auth.dfy are steps on this store. */
module Backend {
  import opened Common
  import opened History

  datatype Role = Member | Admin

  /** A user row (the columns the modelled routes read or write). */
  datatype User = User(
    email: string, password: string, name: string, role: Role,
    balance: real, spotBalance: real, futuresBalance: real, optionsBalance: real, testingBalance: real,
    frozen: bool, kycLocked: bool, emailVerified: bool,
    verificationCode: Option<string>, verificationCodeExpires: Option<int>, lastLoginAt: Option<int>)

  /** A history row: its owner, the action and meta `createHistoryEntry` was
      given, and its time. The row's message column is a function of the
      action and meta (`Message` below), so it is not stored twice. */
  datatype HistoryRow = HistoryRow(userId: nat, action: string, meta: Meta, createdAt: int)

  datatype RequestStatus = Pending | Approved | Confirmed | Rejected

  datatype Withdrawal = Withdrawal(
    userId: nat, amount: real, status: RequestStatus,
    approvedAt: Option<int>, rejectedAt: Option<int>, rejectionReason: Option<string>)

  datatype Deposit = Deposit(
    userId: nat, amount: real, network: string, asset: string, walletAddress: Option<string>,
    status: RequestStatus, expiresAt: int,
    confirmedAt: Option<int>, rejectedAt: Option<int>, rejectionReason: Option<string>)

  /** An audit row; `details` stands for the JSON text of that object. */
  datatype AuditRow = AuditRow(action: string, targetId: nat, performedBy: string, details: Meta)

  /** The authenticated caller (`req.user`). */
  datatype Caller = Caller(id: nat, email: string, role: Role)

  datatype ApiError =
    | InvalidAmount
    | SameAccount
    | InvalidAccount
    | UserNotFound
    | InsufficientBalance
    | AccountFrozen
    | KycRequired
    | AdminRequired
    | NotFound
    | InvalidSubscription
    | DailyLimit(used: nat, limit: nat)
    | ValidationFailed
    | EmailTaken
    | InvalidCredentials
    | AlreadyVerified
    | InvalidCode
    | CodeExpired

  datatype Result<T> = Ok(value: T) | Err(error: ApiError)

  /** `!amount || amount <= 0`: a missing (zero) or negative amount. */
  predicate BadAmount(amount: real) {
    amount <= 0.0
  }

  /** The history row a route writes with `createHistoryEntry(action, meta)`;
      every route passes a meta the formatter cannot throw on. */
  function NewRow(userId: nat, action: string, meta: Meta, now: int): HistoryRow
    requires Formattable(meta)
  {
    HistoryRow(userId, action, meta, now)
  }

  /** The message column of a written row: the message `createHistoryEntry`
      builds from the row's action and meta, which never throws for them. */
  function Message(row: HistoryRow, f: Formatters): (m: string)
    requires Formattable(row.meta)
    ensures CreateHistoryEntry(row.action, row.meta, f) == Some(Entry(row.action, m, row.meta))
  {
    FormattableMeta(BackendTable, row.action, row.meta, f);
    CreateHistoryEntry(row.action, row.meta, f).value.message
  }

  /** `s || fallback` for an optional request string: a missing or empty
      value gives the fallback. */
  function Fallback(s: Option<string>, fallback: string): (r: string)
    ensures s.Some? && s.value != "" ==> r == s.value
    ensures s.None? || s.value == "" ==> r == fallback
  {
    if s.Some? && s.value != "" then s.value else fallback
  }

  /** `{ ...m, key: v }` as stored in JSON: an undefined `v` is dropped, an
      empty string is kept. */
  function WithOptional(m: Meta, key: string, v: Option<string>): (r: Meta)
    ensures key in r <==> key in m || v.Some?
    ensures v.Some? ==> r[key] == Str(v.value)
    ensures Given(m, "fields").None? && Given(m, "profit").None? && key != "fields" && key != "profit" ==> Formattable(r)
  {
    if v.Some? then m[key := Str(v.value)] else m
  }

  /** Adding an optional key keeps every other key and its value. */
  lemma WithOptionalKeepsOthers(m: Meta, key: string, v: Option<string>, k: string)
    requires k in m && k != key
    ensures k in WithOptional(m, key, v) && WithOptional(m, key, v)[k] == m[k]
  {
  }

  /** `{ id, amount }`: the meta of a withdrawal request or approval and of
      a deposit confirmation. */
  function IdAmountMeta(id: nat, amount: real): (m: Meta)
    ensures Formattable(m)
  {
    map["id" := Num(id as real), "amount" := Num(amount)]
  }

  /** `findUnique({ where: { email } })`: the first user with that email. */
  function FindByEmail(users: seq<User>, email: string): (r: Option<nat>)
    ensures r.Some? ==> r.value < |users| && users[r.value].email == email
    ensures r.Some? ==> forall j :: 0 <= j < r.value ==> users[j].email != email
    ensures r.None? <==> forall j :: 0 <= j < |users| ==> users[j].email != email
  {
    FirstIndex(users, (u: User) => u.email == email)
  }

  class Database {
    var users: seq<User>
    var history: seq<HistoryRow>
    var withdrawals: seq<Withdrawal>
    var deposits: seq<Deposit>
    var auditLog: seq<AuditRow>
    /** Number formatting used by the history formatter. */
    const fmt: Formatters
    /** Password hashing; `bcrypt.compare(p, h)` is `hash(p) == h`. */
    const hash: string -> string

    /** Every withdrawal and deposit belongs to an existing user. */
    ghost predicate Valid()
      reads this
    {
      && (forall i :: 0 <= i < |withdrawals| ==> withdrawals[i].userId < |users|)
      && (forall i :: 0 <= i < |deposits| ==> deposits[i].userId < |users|)
    }

    constructor (fmt: Formatters, hash: string -> string)
      ensures this.fmt == fmt && this.hash == hash
      ensures users == [] && history == [] && withdrawals == [] && deposits == [] && auditLog == []
      ensures Valid()
    {
      this.fmt := fmt;
      this.hash := hash;
      users := [];
      history := [];
      withdrawals := [];
      deposits := [];
      auditLog := [];
    }

    /** Appends one history row and one audit row, as an administrator's
        decision on a request does; nothing else changes. */
    method Record(row: HistoryRow, audit: AuditRow)
      modifies this
      ensures history == old(history) + [row] && auditLog == old(auditLog) + [audit]
      ensures users == old(users) && withdrawals == old(withdrawals) && deposits == old(deposits)
      ensures old(Valid()) ==> Valid()
    {
      history := history + [row];
      auditLog := auditLog + [audit];
    }
  }
}
