/** Accounts (backend/routes/auth.js): registration, login, and the one-time
    code that verifies an e-mail address or resets a password. Password
    hashing is the store's `hash` function; the generated code and the clock
    are parameters; whether an address passes `isEmail` is the flag
    `emailOk`, and addresses are taken as already normalised. */
module Auth {
  import opened Common
  import opened History
  import opened Backend

  /** How long a code stays valid: 15 minutes, in milliseconds. */
  const CodeLifetime: int := 15 * 60 * 1000

  /** The reply of forgot-password, whether or not the address is known. */
  const ResetCodeSent: string := "If an account exists with this email, a password reset code has been sent."

  /** The text before the first `@` (`email.split('@')[0]`). */
  function LocalPart(email: string): (r: string)
    ensures |r| <= |email| && r == email[..|r|]
    ensures '@' !in r
    ensures |r| < |email| ==> email[|r|] == '@'
  {
    if email == [] || email[0] == '@' then "" else [email[0]] + LocalPart(email[1..])
  }

  /** No two users share an address (the column is unique). */
  predicate EmailsDistinct(users: seq<User>) {
    forall i, j :: 0 <= i < j < |users| ==> users[i].email != users[j].email
  }

  /** The row `user.create` writes at registration. */
  function NewUser(email: string, passwordHash: string, name: Option<string>, code: string, now: int): (u: User)
    ensures u.email == email && u.password == passwordHash && u.role == Member
    ensures u.name == Fallback(name, LocalPart(email))
    ensures !u.emailVerified && !u.frozen && !u.kycLocked
    ensures u.verificationCode == Some(code) && u.verificationCodeExpires == Some(now + 900000)
    ensures u.balance == 0.0 && u.spotBalance == 0.0 && u.futuresBalance == 0.0 && u.optionsBalance == 0.0 && u.testingBalance == 0.0
  {
    User(email, passwordHash, Fallback(name, LocalPart(email)), Member,
      0.0, 0.0, 0.0, 0.0, 0.0, false, false, false,
      Some(code), Some(now + CodeLifetime), None)
  }

  /** The code checks shared by verify-email and reset-password: the code
      must match, then it must carry an expiry that `now` has not passed. */
  function CheckCode(u: User, code: string, now: int): (r: Option<ApiError>)
    ensures r == Some(InvalidCode) <==> u.verificationCode != Some(code)
    ensures r == Some(CodeExpired) <==>
      u.verificationCode == Some(code) && (u.verificationCodeExpires.None? || now > u.verificationCodeExpires.value)
    ensures r.None? <==>
      u.verificationCode == Some(code) && u.verificationCodeExpires.Some? && now <= u.verificationCodeExpires.value
  {
    if u.verificationCode != Some(code) then Some(InvalidCode)
    else if u.verificationCodeExpires.None? || now > u.verificationCodeExpires.value then Some(CodeExpired)
    else None
  }

  /** The login checks after validation: the same error for an unknown
      address and a wrong password; a frozen account is refused only once
      the password matched. */
  function CheckLogin(users: seq<User>, hash: string -> string, email: string, password: string): (r: Result<nat>)
    ensures r == Err(InvalidCredentials) <==>
      FindByEmail(users, email).None? || hash(password) != users[FindByEmail(users, email).value].password
    ensures r == Err(AccountFrozen) <==>
      && FindByEmail(users, email).Some?
      && hash(password) == users[FindByEmail(users, email).value].password
      && users[FindByEmail(users, email).value].frozen
    ensures r.Ok? ==> r.value == FindByEmail(users, email).value && !users[r.value].frozen
  {
    match FindByEmail(users, email)
    case None => Err(InvalidCredentials)
    case Some(i) =>
      if hash(password) != users[i].password then Err(InvalidCredentials)
      else if users[i].frozen then Err(AccountFrozen)
      else Ok(i)
  }

  /** The user after a successful verification. */
  function Verified(u: User): (r: User)
    ensures r.emailVerified && r.verificationCode.None? && r.verificationCodeExpires.None?
    ensures r.email == u.email && r.password == u.password && r.frozen == u.frozen
  {
    u.(emailVerified := true, verificationCode := None, verificationCodeExpires := None)
  }

  /** The user after a successful password reset. */
  function PasswordReset(u: User, passwordHash: string): (r: User)
    ensures r.password == passwordHash && r.verificationCode.None? && r.verificationCodeExpires.None?
    ensures r.email == u.email && r.frozen == u.frozen && r.emailVerified == u.emailVerified
  {
    u.(password := passwordHash, verificationCode := None, verificationCodeExpires := None)
  }

  /** `{ email }`. */
  function EmailMeta(email: string): (m: Meta)
    ensures Formattable(m)
  {
    map["email" := Str(email)]
  }

  /** POST /api/auth/register; `code` is the generated verification code. */
  method Register(db: Database, emailOk: bool, email: string, password: string, name: Option<string>, code: string, now: int) returns (r: Result<nat>)
    modifies db
    ensures !emailOk || |password| < 6 ==> r == Err(ValidationFailed)
    ensures emailOk && |password| >= 6 && FindByEmail(old(db.users), email).Some? ==> r == Err(EmailTaken)
    ensures r.Ok? <==> emailOk && |password| >= 6 && FindByEmail(old(db.users), email).None?
    ensures r.Err? ==> db.users == old(db.users) && db.history == old(db.history)
    ensures r.Ok? ==>
      && r.value == |old(db.users)|
      && db.users == old(db.users) + [NewUser(email, db.hash(password), name, code, now)]
      && db.history == old(db.history) + [NewRow(r.value, "account.created", EmailMeta(email), now)]
    ensures db.withdrawals == old(db.withdrawals) && db.deposits == old(db.deposits) && db.auditLog == old(db.auditLog)
  {
    if !emailOk || |password| < 6 {
      return Err(ValidationFailed);
    }
    var existing := FindByEmail(db.users, email);
    if existing.Some? {
      return Err(EmailTaken);
    }
    var hashedPassword := db.hash(password);
    var verificationCodeExpires := now + CodeLifetime;
    var id := |db.users|;
    db.users := db.users + [User(email, hashedPassword, Fallback(name, LocalPart(email)), Member,
      0.0, 0.0, 0.0, 0.0, 0.0, false, false, false, Some(code), Some(verificationCodeExpires), None)];
    db.history := db.history + [NewRow(id, "account.created", EmailMeta(email), now)];
    r := Ok(id);
  }

  /** POST /api/auth/login. */
  method Login(db: Database, emailOk: bool, email: string, password: string, now: int) returns (r: Result<nat>)
    modifies db
    ensures !emailOk || password == "" ==> r == Err(ValidationFailed)
    ensures emailOk && password != "" ==> r == CheckLogin(old(db.users), db.hash, email, password)
    ensures r.Err? ==> db.users == old(db.users) && db.history == old(db.history)
    ensures r.Ok? ==>
      && db.users == old(db.users)[r.value := old(db.users)[r.value].(lastLoginAt := Some(now))]
      && db.history == old(db.history) + [NewRow(r.value, "account.login", map[], now)]
    ensures db.withdrawals == old(db.withdrawals) && db.deposits == old(db.deposits) && db.auditLog == old(db.auditLog)
  {
    if !emailOk || password == "" {
      return Err(ValidationFailed);
    }
    var found := FindByEmail(db.users, email);
    if found.None? {
      return Err(InvalidCredentials);
    }
    var id := found.value;
    var user := db.users[id];
    if db.hash(password) != user.password {
      return Err(InvalidCredentials);
    }
    if user.frozen {
      return Err(AccountFrozen);
    }
    db.users := db.users[id := user.(lastLoginAt := Some(now))];
    db.history := db.history + [NewRow(id, "account.login", map[], now)];
    r := Ok(id);
  }

  /** POST /api/auth/verify-email. */
  method VerifyEmail(db: Database, emailOk: bool, email: string, code: string, now: int) returns (r: Result<nat>)
    modifies db
    ensures !emailOk || |code| != 6 ==> r == Err(ValidationFailed)
    ensures emailOk && |code| == 6 && FindByEmail(old(db.users), email).None? ==> r == Err(UserNotFound)
    ensures emailOk && |code| == 6 && FindByEmail(old(db.users), email).Some? ==>
      var u := old(db.users)[FindByEmail(old(db.users), email).value];
      if u.emailVerified then r == Err(AlreadyVerified)
      else if CheckCode(u, code, now).Some? then r == Err(CheckCode(u, code, now).value)
      else r == Ok(FindByEmail(old(db.users), email).value)
    ensures r.Err? ==> db.users == old(db.users) && db.history == old(db.history)
    ensures r.Ok? ==>
      && db.users == old(db.users)[r.value := Verified(old(db.users)[r.value])]
      && db.history == old(db.history) + [NewRow(r.value, "account.verified", EmailMeta(email), now)]
    ensures db.withdrawals == old(db.withdrawals) && db.deposits == old(db.deposits) && db.auditLog == old(db.auditLog)
  {
    if !emailOk || |code| != 6 {
      return Err(ValidationFailed);
    }
    var found := FindByEmail(db.users, email);
    if found.None? {
      return Err(UserNotFound);
    }
    var id := found.value;
    var user := db.users[id];
    if user.emailVerified {
      return Err(AlreadyVerified);
    }
    if user.verificationCode != Some(code) {
      return Err(InvalidCode);
    }
    if user.verificationCodeExpires.None? || now > user.verificationCodeExpires.value {
      return Err(CodeExpired);
    }
    db.users := db.users[id := user.(emailVerified := true, verificationCode := None, verificationCodeExpires := None)];
    db.history := db.history + [NewRow(id, "account.verified", EmailMeta(email), now)];
    r := Ok(id);
  }

  /** POST /api/auth/resend-verification; `code` is the new generated code. */
  method ResendVerification(db: Database, emailOk: bool, email: string, code: string, now: int) returns (r: Result<nat>)
    modifies db
    ensures !emailOk ==> r == Err(ValidationFailed)
    ensures emailOk && FindByEmail(old(db.users), email).None? ==> r == Err(UserNotFound)
    ensures emailOk && FindByEmail(old(db.users), email).Some? ==>
      var i := FindByEmail(old(db.users), email).value;
      r == if old(db.users)[i].emailVerified then Err(AlreadyVerified) else Ok(i)
    ensures r.Err? ==> db.users == old(db.users)
    ensures r.Ok? ==>
      db.users == old(db.users)[r.value := old(db.users)[r.value].(verificationCode := Some(code), verificationCodeExpires := Some(now + 900000))]
    ensures db.history == old(db.history) && db.withdrawals == old(db.withdrawals)
    ensures db.deposits == old(db.deposits) && db.auditLog == old(db.auditLog)
  {
    if !emailOk {
      return Err(ValidationFailed);
    }
    var found := FindByEmail(db.users, email);
    if found.None? {
      return Err(UserNotFound);
    }
    var id := found.value;
    var user := db.users[id];
    if user.emailVerified {
      return Err(AlreadyVerified);
    }
    db.users := db.users[id := user.(verificationCode := Some(code), verificationCodeExpires := Some(now + CodeLifetime))];
    r := Ok(id);
  }

  /** POST /api/auth/forgot-password; `code` is the generated reset code.
      The reply does not depend on whether the address is known. */
  method ForgotPassword(db: Database, emailOk: bool, email: string, code: string, now: int) returns (r: Result<string>)
    modifies db
    ensures r == if emailOk then Ok(ResetCodeSent) else Err(ValidationFailed)
    ensures emailOk && FindByEmail(old(db.users), email).Some? ==>
      var i := FindByEmail(old(db.users), email).value;
      db.users == old(db.users)[i := old(db.users)[i].(verificationCode := Some(code), verificationCodeExpires := Some(now + 900000))]
    ensures !emailOk || FindByEmail(old(db.users), email).None? ==> db.users == old(db.users)
    ensures db.history == old(db.history) && db.withdrawals == old(db.withdrawals)
    ensures db.deposits == old(db.deposits) && db.auditLog == old(db.auditLog)
  {
    if !emailOk {
      return Err(ValidationFailed);
    }
    var found := FindByEmail(db.users, email);
    if found.None? {
      return Ok(ResetCodeSent);
    }
    var id := found.value;
    db.users := db.users[id := db.users[id].(verificationCode := Some(code), verificationCodeExpires := Some(now + CodeLifetime))];
    r := Ok(ResetCodeSent);
  }

  /** POST /api/auth/reset-password. */
  method ResetPassword(db: Database, emailOk: bool, email: string, code: string, newPassword: string, now: int) returns (r: Result<nat>)
    modifies db
    ensures !emailOk || |code| != 6 || |newPassword| < 6 ==> r == Err(ValidationFailed)
    ensures emailOk && |code| == 6 && |newPassword| >= 6 ==>
      match FindByEmail(old(db.users), email)
      case None => r == Err(UserNotFound)
      case Some(i) =>
        match CheckCode(old(db.users)[i], code, now)
        case Some(e) => r == Err(e)
        case None => r == Ok(i)
    ensures r.Err? ==> db.users == old(db.users) && db.history == old(db.history)
    ensures r.Ok? ==>
      && db.users == old(db.users)[r.value := PasswordReset(old(db.users)[r.value], db.hash(newPassword))]
      && db.history == old(db.history) + [NewRow(r.value, "security.passwordReset", EmailMeta(email), now)]
    ensures db.withdrawals == old(db.withdrawals) && db.deposits == old(db.deposits) && db.auditLog == old(db.auditLog)
  {
    if !emailOk || |code| != 6 || |newPassword| < 6 {
      return Err(ValidationFailed);
    }
    var found := FindByEmail(db.users, email);
    if found.None? {
      return Err(UserNotFound);
    }
    var id := found.value;
    var user := db.users[id];
    if user.verificationCode != Some(code) {
      return Err(InvalidCode);
    }
    if user.verificationCodeExpires.None? || now > user.verificationCodeExpires.value {
      return Err(CodeExpired);
    }
    var hashedPassword := db.hash(newPassword);
    db.users := db.users[id := user.(password := hashedPassword, verificationCode := None, verificationCodeExpires := None)];
    db.history := db.history + [NewRow(id, "security.passwordReset", EmailMeta(email), now)];
    r := Ok(id);
  }

  /** Registration keeps addresses distinct: it appends a user only when no
      user has the address. */
  lemma RegisterKeepsEmailsDistinct(users: seq<User>, email: string, passwordHash: string, name: Option<string>, code: string, now: int)
    requires EmailsDistinct(users)
    requires FindByEmail(users, email).None?
    ensures EmailsDistinct(users + [NewUser(email, passwordHash, name, code, now)])
  {
    var users' := users + [NewUser(email, passwordHash, name, code, now)];
    forall i, j | 0 <= i < j < |users'|
      ensures users'[i].email != users'[j].email
    {
      if j == |users| {
        assert users'[i] == users[i];
      } else {
        assert users'[i] == users[i] && users'[j] == users[j];
      }
    }
  }

  /** A user just registered can log in with the same password: the lookup
      finds the new row, the hash matches and the account is not frozen. */
  lemma RegisterThenLogin(users: seq<User>, hash: string -> string, email: string, password: string, name: Option<string>, code: string, now: int)
    requires FindByEmail(users, email).None?
    ensures CheckLogin(users + [NewUser(email, hash(password), name, code, now)], hash, email, password) == Ok(|users|)
  {
    var users' := users + [NewUser(email, hash(password), name, code, now)];
    var found := FindByEmail(users', email);
    assert users'[|users|].email == email;
    assert forall j :: 0 <= j < |users| ==> users'[j] == users[j];
    assert found.Some?;
    assert found.value == |users|;
  }

  /** The code sent at registration verifies the address until it expires. */
  lemma RegistrationCodeVerifies(email: string, passwordHash: string, name: Option<string>, code: string, now: int, later: int)
    requires later <= now + CodeLifetime
    ensures !NewUser(email, passwordHash, name, code, now).emailVerified
    ensures CheckCode(NewUser(email, passwordHash, name, code, now), code, later).None?
    ensures CheckCode(NewUser(email, passwordHash, name, code, now), code, now + CodeLifetime + 1) == Some(CodeExpired)
  { }

  /** A code cannot be used twice: after a verification or a reset the user
      holds no code, so every code is refused as invalid. */
  lemma CodeNotReusable(u: User, passwordHash: string, code: string, now: int)
    ensures CheckCode(Verified(u), code, now) == Some(InvalidCode)
    ensures CheckCode(PasswordReset(u, passwordHash), code, now) == Some(InvalidCode)
  { }

  /** After a reset the new password logs in and the old one no longer
      does (when the hashes differ), unless the account is frozen. */
  lemma ResetThenLogin(users: seq<User>, hash: string -> string, i: nat, oldPassword: string, newPassword: string)
    requires i < |users| && EmailsDistinct(users)
    requires hash(oldPassword) != hash(newPassword)
    ensures var users' := users[i := PasswordReset(users[i], hash(newPassword))];
      && CheckLogin(users', hash, users[i].email, oldPassword) == Err(InvalidCredentials)
      && CheckLogin(users', hash, users[i].email, newPassword) == (if users[i].frozen then Err(AccountFrozen) else Ok(i))
  {
    var users' := users[i := PasswordReset(users[i], hash(newPassword))];
    var found := FindByEmail(users', users[i].email);
    assert users'[i].email == users[i].email;
    assert found == Some(i);
  }
}
