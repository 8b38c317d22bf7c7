/** The browser-side simulation (js/userData.js): an in-memory state of users,
    withdrawal requests, AI cycles and an audit log, with the same balance
    workflows as the backend in simplified form. Timestamps (`toISOString`
    text) and generated ids are parameters; `Number(x.toFixed(2))` is the
    state's `round2` function; saving to local storage is not modelled. */
module BrowserSim {
  import opened Common
  import opened History
  import opened Csv

  /** One activity entry `{ ts, action, meta, message }`; its message is a
      function of its action and meta (`EntryMessage`), so it is not stored
      twice. */
  datatype SimEntry = SimEntry(ts: string, action: string, meta: Meta)

  /** A simulated user (the fields the modelled functions read or write). */
  datatype SimUser = SimUser(
    id: string, email: string, name: string, password: string,
    balance: real, frozen: bool, kycLocked: bool,
    spotBalance: real, futuresBalance: real, optionsBalance: real,
    history: seq<SimEntry>)

  datatype SimStatus = Pending | Approved | Rejected

  datatype SimWithdrawal = SimWithdrawal(id: string, userId: string, amount: real, status: SimStatus, ts: string)

  /** An AI cycle; `status` is always "running" when created. */
  datatype Cycle = Cycle(id: string, amount: real, roi: real, created: string, status: string)

  datatype AuditEvent = AuditEvent(id: string, action: string, targetUserId: string, admin: string, timestamp: string, details: Meta)

  /** `{ ok: true, ... }` or `{ ok: false, msg }`. */
  datatype Reply = Done | Refused(msg: string)

  const DefaultPassword: string := "demo123"

  /** The seeded users. */
  const DefaultUsers: seq<SimUser> := [
    SimUser("u1", "alice@test.local", "Alice", DefaultPassword, 10000.0, false, false, 6000.0, 3000.0, 1000.0, []),
    SimUser("u2", "bob@test.local", "Bob", DefaultPassword, 2500.0, false, false, 1500.0, 750.0, 250.0, []),
    SimUser("u3", "carol@test.local", "Carol", DefaultPassword, 50000.0, false, false, 30000.0, 15000.0, 5000.0, [])
  ]

  /** The audit log keeps at most this many events. */
  const MaxAuditEvents: nat := 1000

  /** `getAuditLog()` without an argument. */
  const DefaultAuditLimit: int := 100

  /** AI cycles earn this rate. */
  const CycleRoi: real := 0.0015

  // ---------------------------------------------------------------- lookups

  /** `state.users.find(u => u.id === id)`, as an index. */
  function UserIndex(users: seq<SimUser>, id: string): (r: Option<nat>)
    ensures r.Some? ==> r.value < |users| && users[r.value].id == id
    ensures r.Some? ==> forall j :: 0 <= j < r.value ==> users[j].id != id
    ensures r.None? <==> forall j :: 0 <= j < |users| ==> users[j].id != id
  {
    FirstIndex(users, (u: SimUser) => u.id == id)
  }

  /** `state.users.find(u => u.email === email)`, as an index. */
  function EmailIndex(users: seq<SimUser>, email: string): (r: Option<nat>)
    ensures r.Some? ==> r.value < |users| && users[r.value].email == email
    ensures r.Some? ==> forall j :: 0 <= j < r.value ==> users[j].email != email
    ensures r.None? <==> forall j :: 0 <= j < |users| ==> users[j].email != email
  {
    FirstIndex(users, (u: SimUser) => u.email == email)
  }

  /** `state.withdrawals.findIndex(r => r.id === reqId)`. */
  function RequestIndex(ws: seq<SimWithdrawal>, id: string): (r: Option<nat>)
    ensures r.Some? ==> r.value < |ws| && ws[r.value].id == id
    ensures r.Some? ==> forall j :: 0 <= j < r.value ==> ws[j].id != id
    ensures r.None? <==> forall j :: 0 <= j < |ws| ==> ws[j].id != id
  {
    FirstIndex(ws, (w: SimWithdrawal) => w.id == id)
  }

  /** Lookups by id only read the ids. */
  lemma {:induction false} UserIndexByIds(a: seq<SimUser>, b: seq<SimUser>, id: string)
    requires |a| == |b|
    requires forall k :: 0 <= k < |a| ==> a[k].id == b[k].id
    ensures UserIndex(a, id) == UserIndex(b, id)
  {
    FirstIndexPointwise(a, (u: SimUser) => u.id == id, b, (u: SimUser) => u.id == id);
  }

  // ---------------------------------------------------------------- strings

  /** JavaScript's `\s` (white space and line terminators), which `trim`
      also strips. */
  predicate IsSpace(c: char) {
    || '\U{0009}' <= c <= '\U{000D}' || c == ' ' || c == '\U{00A0}' || c == '\U{1680}'
    || '\U{2000}' <= c <= '\U{200A}' || c == '\U{2028}' || c == '\U{2029}'
    || c == '\U{202F}' || c == '\U{205F}' || c == '\U{3000}' || c == '\U{FEFF}'
  }

  /** A run of `[^\s@]` characters. */
  predicate Plain(s: string) {
    forall c :: c in s ==> !IsSpace(c) && c != '@'
  }

  /** `/^[^\s@]+@[^\s@]+\.[^\s@]+$/.test(email)`: one '@' with plain text
      before it, and plain text after it holding a '.' that is neither its
      first nor its last character. */
  predicate EmailShaped(email: string) {
    exists i :: 0 < i < |email| && email[i] == '@' && Plain(email[..i]) && DomainShaped(email[i + 1..])
  }

  predicate DomainShaped(d: string) {
    Plain(d) && exists k :: 0 < k < |d| - 1 && d[k] == '.'
  }

  /** `s.length`: JavaScript counts UTF-16 code units, so a character beyond
      U+FFFF, stored as a surrogate pair, counts twice. */
  function JsLength(s: string): (r: nat)
    ensures |s| <= r <= 2 * |s|
    ensures r == 0 <==> s == []
  {
    if s == [] then 0 else (if s[0] > '\U{FFFF}' then 2 else 1) + JsLength(s[1..])
  }

  /** Text without characters beyond U+FFFF has one code unit per
      character. */
  lemma {:induction false} JsLengthBmp(s: string)
    requires forall i :: 0 <= i < |s| ==> s[i] <= '\U{FFFF}'
    ensures JsLength(s) == |s|
  {
    if s != [] {
      JsLengthBmp(s[1..]);
    }
  }

  /** An emoji counts twice: "ab😀cd" has five characters and length 6, so
      it passes the six-character password check. */
  lemma AstralCountsTwice()
    ensures |"ab\U{1F600}cd"| == 5 && JsLength("ab\U{1F600}cd") == 6
  {
    JsLengthBmp("cd");
    assert "ab\U{1F600}cd"[1..] == "b\U{1F600}cd";
    assert "b\U{1F600}cd"[1..] == "\U{1F600}cd";
    assert "\U{1F600}cd"[1..] == "cd";
  }

  /** `toLowerCase()` on ASCII letters. */
  function Lower(s: string): (r: string)
    ensures |r| == |s|
    ensures forall i :: 0 <= i < |s| ==> r[i] == (if 'A' <= s[i] <= 'Z' then (s[i] as int + 32) as char else s[i])
  {
    if s == [] then ""
    else [if 'A' <= s[0] <= 'Z' then (s[0] as int + 32) as char else s[0]] + Lower(s[1..])
  }

  function TrimStart(s: string): (r: string)
    ensures |r| <= |s| && r == s[|s| - |r|..]
    ensures forall i :: 0 <= i < |s| - |r| ==> IsSpace(s[i])
    ensures r == [] || !IsSpace(r[0])
  {
    if s == [] || !IsSpace(s[0]) then s else TrimStart(s[1..])
  }

  function TrimEnd(s: string): (r: string)
    ensures |r| <= |s| && r == s[..|r|]
    ensures forall i :: |r| <= i < |s| ==> IsSpace(s[i])
    ensures r == [] || !IsSpace(r[|r| - 1])
  {
    if s == [] || !IsSpace(s[|s| - 1]) then s else TrimEnd(s[..|s| - 1])
  }

  /** `r` is the slice of `s` from `i`, and every character of `s` around
      that slice is white space. */
  predicate Strips(s: string, r: string, i: int) {
    && 0 <= i <= |s| - |r| && r == s[i..i + |r|]
    && (forall k :: 0 <= k < i ==> IsSpace(s[k]))
    && (forall k :: i + |r| <= k < |s| ==> IsSpace(s[k]))
  }

  /** `trim()`: the text between the leading and the trailing white space,
      which itself neither starts nor ends with white space. */
  function Trim(s: string): (r: string)
    ensures exists i :: Strips(s, r, i)
    ensures r == [] || (!IsSpace(r[0]) && !IsSpace(r[|r| - 1]))
  {
    var t := TrimStart(s);
    var i := |s| - |t|;
    var r := TrimEnd(t);
    assert Strips(s, r, i);
    r
  }

  // ---------------------------------------------------------------- history

  /** The message of an entry: what the formatter builds from its action and
      meta with the browser's table; it never throws for a formattable meta. */
  function EntryMessage(e: SimEntry, f: Formatters): (m: string)
    requires Formattable(e.meta)
    ensures FormatHistoryMessage(BrowserTable, e.action, e.meta, f) == Some(m)
  {
    FormattableMeta(BrowserTable, e.action, e.meta, f);
    FormatHistoryMessage(BrowserTable, e.action, e.meta, f).value
  }

  /** The users after `addHistory(userId, action, meta)` at time `now`: the
      entry goes to the front of the first user with that id. An unknown id
      changes nothing; neither does a meta the formatter throws on (one that
      is not `Formattable`, see `BrowserThrowsUnlessFormattable`), since the
      message is built before the entry is inserted. */
  function WithHistory(users: seq<SimUser>, userId: string, action: string, meta: Meta, now: string): (r: seq<SimUser>)
    ensures |r| == |users|
    ensures forall k :: 0 <= k < |users| ==> r[k] == users[k].(history := r[k].history)
    ensures UserIndex(users, userId).None? || !Formattable(meta) ==> r == users
    ensures UserIndex(users, userId).Some? && Formattable(meta) ==>
      var i := UserIndex(users, userId).value;
      && r[i].history == [SimEntry(now, action, meta)] + users[i].history
      && forall k :: 0 <= k < |users| && k != i ==> r[k] == users[k]
  {
    match UserIndex(users, userId)
    case Some(i) =>
      if Formattable(meta) then users[i := users[i].(history := [SimEntry(now, action, meta)] + users[i].history)]
      else users
    case None => users
  }

  // ---------------------------------------------------------------- audit log

  /** `push` then `if (length > 1000) shift()`. */
  function Capped(log: seq<AuditEvent>): (r: seq<AuditEvent>)
    ensures |log| <= MaxAuditEvents ==> r == log
    ensures |log| > MaxAuditEvents ==> r == log[1..]
  {
    if |log| > MaxAuditEvents then log[1..] else log
  }

  /** Logging keeps the log within its cap, keeps the newest event last and
      drops the oldest one first. */
  lemma AuditAppendCapped(log: seq<AuditEvent>, e: AuditEvent)
    requires |log| <= MaxAuditEvents
    ensures var r := Capped(log + [e]);
      && |r| <= MaxAuditEvents
      && r[|r| - 1] == e
      && (|log| < MaxAuditEvents ==> r == log + [e])
      && (|log| == MaxAuditEvents ==> r == log[1..] + [e])
  {
    if |log| == MaxAuditEvents {
      assert (log + [e])[1..] == log[1..] + [e];
    }
  }

  function Reverse(s: seq<AuditEvent>): (r: seq<AuditEvent>)
    ensures |r| == |s|
    ensures forall k :: 0 <= k < |s| ==> r[k] == s[|s| - 1 - k]
  {
    if s == [] then [] else Reverse(s[1..]) + [s[0]]
  }

  /** Where `slice(-limit)` starts: a positive limit keeps the last `limit`
      events; `-0` is `0`, so a zero limit keeps them all; a negative limit
      drops the first `-limit`. */
  function SliceStart(n: nat, limit: int): (start: nat)
    ensures start <= n
  {
    if limit > 0 then (if limit >= n then 0 else n - limit)
    else if -limit >= n then n
    else -limit
  }

  /** `getAuditLog(limit)`: the events from `slice(-limit)`, newest first. */
  function GetAuditLog(log: seq<AuditEvent>, limit: int): (r: seq<AuditEvent>)
    ensures |r| <= |log|
    ensures limit > 0 ==> |r| == (if limit < |log| then limit else |log|)
    ensures limit == 0 ==> |r| == |log|
    ensures forall k :: 0 <= k < |r| ==> r[k] == log[|log| - 1 - k]
  {
    Reverse(log[SliceStart(|log|, limit)..])
  }

  // ---------------------------------------------------------------- CSV

  /** The CSV header row. */
  const CsvHeader: seq<string> := ["timestamp", "action", "meta"]

  /** `[h.ts, h.action, JSON.stringify(h.meta)]` per entry; `json` stands for
      `JSON.stringify`. */
  function HistoryCells(history: seq<SimEntry>, json: Meta -> string): (rows: seq<seq<string>>)
    ensures |rows| == |history|
    ensures forall k :: 0 <= k < |history| ==> rows[k] == [history[k].ts, history[k].action, json(history[k].meta)]
  {
    if history == [] then [] else [[history[0].ts, history[0].action, json(history[0].meta)]] + HistoryCells(history[1..], json)
  }

  /** `exportUserCSV(userId)`; None (`null`) for an unknown user. */
  function ExportUserCSV(users: seq<SimUser>, userId: string, json: Meta -> string): (r: Option<string>)
    ensures r.None? <==> UserIndex(users, userId).None?
  {
    match UserIndex(users, userId)
    case None => None
    case Some(i) => Some(Encode([CsvHeader] + HistoryCells(users[i].history, json)))
  }

  /** An export reads back as the header row followed by one row per
      history entry, newest first, each cell exactly as written. */
  lemma ExportReadsBack(users: seq<SimUser>, userId: string, json: Meta -> string)
    requires UserIndex(users, userId).Some?
    ensures var u := users[UserIndex(users, userId).value];
      && ExportUserCSV(users, userId, json).Some?
      && Decode(ExportUserCSV(users, userId, json).value) == Some([CsvHeader] + HistoryCells(u.history, json))
  {
    var u := users[UserIndex(users, userId).value];
    var rows := [CsvHeader] + HistoryCells(u.history, json);
    assert forall k :: 0 <= k < |rows| ==> |rows[k]| > 0 by {
      forall k | 0 <= k < |rows|
        ensures |rows[k]| > 0
      {
        if k > 0 {
          assert rows[k] == HistoryCells(u.history, json)[k - 1];
        }
      }
    }
    DecodeEncode(rows);
  }

  // ---------------------------------------------------------------- checks

  /** The registration checks, in the source's order; the duplicate check
      compares the address as typed. */
  function RegisterError(users: seq<SimUser>, email: string, password: string, name: string): (r: Option<string>)
    ensures r == Some("All fields are required") <==> email == "" || password == "" || name == ""
    ensures r == Some("Email already registered") <==>
      email != "" && password != "" && name != "" && EmailIndex(users, email).Some?
    ensures r == Some("Invalid email format") <==>
      email != "" && password != "" && name != "" && EmailIndex(users, email).None? && !EmailShaped(email)
    ensures r == Some("Password must be at least 6 characters") <==>
      email != "" && password != "" && name != "" && EmailIndex(users, email).None? && EmailShaped(email) && JsLength(password) < 6
    ensures r.None? <==> name != "" && EmailIndex(users, email).None? && EmailShaped(email) && JsLength(password) >= 6
  {
    if email == "" || password == "" || name == "" then Some("All fields are required")
    else if EmailIndex(users, email).Some? then Some("Email already registered")
    else if !EmailShaped(email) then Some("Invalid email format")
    else if JsLength(password) < 6 then Some("Password must be at least 6 characters")
    else None
  }

  /** The user `registerUser` pushes. */
  function NewSimUser(id: string, email: string, password: string, name: string): (u: SimUser)
    ensures u.id == id && u.email == Lower(email) && u.name == Trim(name) && u.password == password
    ensures u.balance == 500.0 && u.spotBalance == 300.0 && u.futuresBalance == 150.0 && u.optionsBalance == 50.0
    ensures !u.frozen && !u.kycLocked && u.history == []
  {
    SimUser(id, Lower(email), Trim(name), password, 500.0, false, false, 300.0, 150.0, 50.0, [])
  }

  /** No two users share a stored address. */
  predicate DistinctEmails(users: seq<SimUser>) {
    forall i, j :: 0 <= i < j < |users| ==> users[i].email != users[j].email
  }

  /** The registration checks with the duplicate check made on the address
      as it is stored (lower-cased), as the login lookup reads it. */
  function RegisterErrorFolded(users: seq<SimUser>, email: string, password: string, name: string): (r: Option<string>)
    ensures r == Some("All fields are required") <==> email == "" || password == "" || name == ""
    ensures r == Some("Email already registered") <==>
      email != "" && password != "" && name != "" && EmailIndex(users, Lower(email)).Some?
    ensures r == Some("Invalid email format") <==>
      email != "" && password != "" && name != "" && EmailIndex(users, Lower(email)).None? && !EmailShaped(email)
    ensures r == Some("Password must be at least 6 characters") <==>
      email != "" && password != "" && name != "" && EmailIndex(users, Lower(email)).None? && EmailShaped(email) && JsLength(password) < 6
    ensures r.None? <==> name != "" && EmailIndex(users, Lower(email)).None? && EmailShaped(email) && JsLength(password) >= 6
  {
    if email == "" || password == "" || name == "" then Some("All fields are required")
    else if EmailIndex(users, Lower(email)).Some? then Some("Email already registered")
    else if !EmailShaped(email) then Some("Invalid email format")
    else if JsLength(password) < 6 then Some("Password must be at least 6 characters")
    else None
  }

  /** Alice's seeded address with its first letter capitalised,
      "Alice@test.local". */
  function CapitalisedAlice(): (e: string)
    ensures |e| == |DefaultUsers[0].email| && e[0] == 'A'
    ensures forall k :: 1 <= k < |e| ==> e[k] == DefaultUsers[0].email[k]
  {
    ['A'] + DefaultUsers[0].email[1..]
  }

  /** Capitalising the first letter of an address with no capitals does not
      change its lower-cased form. */
  lemma LowerCapitalised(e: string)
    requires |e| > 0 && 'a' <= e[0] <= 'z'
    requires forall k :: 0 <= k < |e| ==> !('A' <= e[k] <= 'Z')
    ensures Lower([(e[0] as int - 32) as char] + e[1..]) == e
  {
    var s := [(e[0] as int - 32) as char] + e[1..];
    forall k | 0 <= k < |s|
      ensures Lower(s)[k] == e[k]
    {
      if k > 0 {
        assert s[k] == e[k];
      }
    }
  }

  /** It lower-cases to Alice's address. */
  lemma CapitalisedAliceLower()
    ensures Lower(CapitalisedAlice()) == DefaultUsers[0].email
  {
    var e := DefaultUsers[0].email;
    assert e == "alice@test.local";
    assert forall k :: 0 <= k < |e| ==> !('A' <= e[k] <= 'Z');
    LowerCapitalised(e);
    assert CapitalisedAlice() == [(e[0] as int - 32) as char] + e[1..];
  }

  /** Every character of `s[from..to]` is plain. */
  lemma PlainSlice(s: string, from: nat, to: nat)
    requires from <= to <= |s|
    requires forall k :: from <= k < to ==> !IsSpace(s[k]) && s[k] != '@'
    ensures Plain(s[from..to])
  {
    forall c | c in s[from..to]
      ensures !IsSpace(c) && c != '@'
    {
      var k :| from <= k < to && s[k] == c;
    }
  }

  /** An address of ASCII letters and dots around one '@', with a dot
      inside the part after it, passes the format check. */
  lemma ShapedAt(s: string, at: nat, dot: nat)
    requires 0 < at && at + 1 < dot < |s| - 1 && s[at] == '@' && s[dot] == '.'
    requires forall k :: 0 <= k < |s| && k != at ==> 'a' <= s[k] <= 'z' || 'A' <= s[k] <= 'Z' || s[k] == '.'
    ensures EmailShaped(s)
  {
    PlainSlice(s, 0, at);
    PlainSlice(s, at + 1, |s|);
    var d := s[at + 1..];
    assert d[dot - at - 1] == '.';
    assert DomainShaped(d);
    assert s[..at] == s[0..at];
  }

  /** It passes the format check, splitting at its '@'. */
  lemma CapitalisedAliceShaped()
    ensures EmailShaped(CapitalisedAlice())
  {
    var e := DefaultUsers[0].email;
    assert e == "alice@test.local";
    assert forall k :: 0 <= k < |e| && k != 5 ==> 'a' <= e[k] <= 'z' || e[k] == '.';
    ShapedAt(CapitalisedAlice(), 5, 10);
  }

  /** No seeded user has it as address. */
  lemma CapitalisedAliceNotSeeded()
    ensures EmailIndex(DefaultUsers, CapitalisedAlice()).None?
  {
    forall j | 0 <= j < |DefaultUsers|
      ensures DefaultUsers[j].email != CapitalisedAlice()
    {
      var e := DefaultUsers[j].email;
      if j == 0 {
        assert e == "alice@test.local";
      } else if j == 1 {
        assert e == "bob@test.local";
      } else {
        assert e == "carol@test.local";
      }
      assert e[0] != 'A';
    }
  }

  /** As written, the duplicate check lets "Alice@test.local" through next to
      the seeded "alice@test.local". */
  lemma RegisterAcceptsCaseVariant()
    ensures RegisterError(DefaultUsers, CapitalisedAlice(), "secret1", "Al").None?
  {
    CapitalisedAliceShaped();
    CapitalisedAliceNotSeeded();
  }

  /** Appending a user with the first user's address: the addresses are no
      longer distinct and the lookup of that address finds the first user. */
  lemma AppendTakenEmail(users: seq<SimUser>, u: SimUser)
    requires |users| > 0 && users[0].email == u.email
    ensures !DistinctEmails(users + [u])
    ensures EmailIndex(users + [u], u.email) == Some(0)
  {
    var users' := users + [u];
    assert users'[0] == users[0] && users'[|users|] == u;
  }

  /** The account it creates is stored under the seeded address: two users
      share it, and the login lookup of that address finds Alice, never the
      new user. */
  lemma CaseVariantSharesAddress(id: string)
    ensures var users := DefaultUsers + [NewSimUser(id, CapitalisedAlice(), "secret1", "Al")];
      && !DistinctEmails(users)
      && EmailIndex(users, Lower(CapitalisedAlice())) == Some(0)
  {
    CapitalisedAliceLower();
    AppendTakenEmail(DefaultUsers, NewSimUser(id, CapitalisedAlice(), "secret1", "Al"));
  }

  /** Appending a user keeps the addresses distinct when nobody has its
      address. */
  lemma AppendFreshEmail(users: seq<SimUser>, u: SimUser)
    requires DistinctEmails(users)
    requires EmailIndex(users, u.email).None?
    ensures DistinctEmails(users + [u])
  {
    var users' := users + [u];
    forall i, j | 0 <= i < j < |users'|
      ensures users'[i].email != users'[j].email
    {
      assert users'[i] == users[i];
      if j < |users| {
        assert users'[j] == users[j];
      }
    }
  }

  /** The lookup of an appended user's fresh address finds that user. */
  lemma AppendFreshFound(users: seq<SimUser>, u: SimUser)
    requires EmailIndex(users, u.email).None?
    ensures EmailIndex(users + [u], u.email) == Some(|users|)
  {
    var users' := users + [u];
    assert users'[|users|] == u;
    var r := EmailIndex(users', u.email);
    assert r.Some?;
  }

  /** With the folded check, an accepted registration keeps the stored
      addresses distinct, and the login lookup of the address finds the new
      user. */
  lemma RegisterFoldedKeepsEmailsDistinct(users: seq<SimUser>, id: string, email: string, password: string, name: string)
    requires DistinctEmails(users)
    requires RegisterErrorFolded(users, email, password, name).None?
    ensures DistinctEmails(users + [NewSimUser(id, email, password, name)])
    ensures EmailIndex(users + [NewSimUser(id, email, password, name)], Lower(email)) == Some(|users|)
  {
    AppendFreshEmail(users, NewSimUser(id, email, password, name));
    AppendFreshFound(users, NewSimUser(id, email, password, name));
  }

  /** The withdrawal-request checks, in the source's order. */
  function WithdrawalError(users: seq<SimUser>, userId: string, amount: real): (r: Option<string>)
    ensures r == Some("User not found") <==> UserIndex(users, userId).None?
    ensures UserIndex(users, userId).Some? ==>
      var u := users[UserIndex(users, userId).value];
      && (r == Some("Account under review (simulation)") <==> u.frozen)
      && (r == Some("KYC verification required") <==> !u.frozen && u.kycLocked)
      && (r == Some("Invalid amount or insufficient balance") <==> !u.frozen && !u.kycLocked && (amount <= 0.0 || amount > u.balance))
      && (r.None? <==> !u.frozen && !u.kycLocked && 0.0 < amount <= u.balance)
  {
    match UserIndex(users, userId)
    case None => Some("User not found")
    case Some(i) =>
      if users[i].frozen then Some("Account under review (simulation)")
      else if users[i].kycLocked then Some("KYC verification required")
      else if amount <= 0.0 || amount > users[i].balance then Some("Invalid amount or insufficient balance")
      else None
  }

  /** The AI-subscription checks, in the source's order. */
  function SubscribeError(users: seq<SimUser>, userId: string, amount: real): (r: Option<string>)
    ensures r == Some("User not found") <==> UserIndex(users, userId).None?
    ensures UserIndex(users, userId).Some? ==>
      var u := users[UserIndex(users, userId).value];
      && (r == Some("Account under review (simulation)") <==> u.frozen)
      && (r == Some("Amount must be between 30 and 3000") <==> !u.frozen && (amount < 30.0 || amount > 3000.0))
      && (r == Some("Insufficient balance (simulation)") <==> !u.frozen && 30.0 <= amount <= 3000.0 && amount > u.balance)
      && (r.None? <==> !u.frozen && 30.0 <= amount <= 3000.0 && amount <= u.balance)
  {
    match UserIndex(users, userId)
    case None => Some("User not found")
    case Some(i) =>
      if users[i].frozen then Some("Account under review (simulation)")
      else if amount < 30.0 || amount > 3000.0 then Some("Amount must be between 30 and 3000")
      else if amount > users[i].balance then Some("Insufficient balance (simulation)")
      else None
  }

  /** The password-change checks, in the source's order. */
  function ChangePasswordError(users: seq<SimUser>, userId: string, oldPassword: string, newPassword: string): (r: Option<string>)
    ensures r == Some("User not found") <==> UserIndex(users, userId).None?
    ensures UserIndex(users, userId).Some? ==>
      var u := users[UserIndex(users, userId).value];
      && (r == Some("Old password incorrect") <==> u.password != oldPassword)
      && (r == Some("Password must be at least 6 characters") <==> u.password == oldPassword && JsLength(newPassword) < 6)
      && (r == Some("New password must be different") <==> u.password == oldPassword && JsLength(newPassword) >= 6 && newPassword == oldPassword)
      && (r.None? <==> u.password == oldPassword && JsLength(newPassword) >= 6 && newPassword != oldPassword)
  {
    match UserIndex(users, userId)
    case None => Some("User not found")
    case Some(i) =>
      if users[i].password != oldPassword then Some("Old password incorrect")
      else if newPassword == "" || JsLength(newPassword) < 6 then Some("Password must be at least 6 characters")
      else if newPassword == oldPassword then Some("New password must be different")
      else None
  }

  /** `state.cycles[userId] || []`. */
  function CyclesOf(cycles: map<string, seq<Cycle>>, userId: string): seq<Cycle> {
    if userId in cycles then cycles[userId] else []
  }

  // ---------------------------------------------------------------- state

  /** Every withdrawal request names an existing user. */
  predicate Owned(users: seq<SimUser>, ws: seq<SimWithdrawal>) {
    forall k :: 0 <= k < |ws| ==> UserIndex(users, ws[k].userId).Some?
  }

  /** Ownership only depends on the users' ids. */
  lemma SameIds(a: seq<SimUser>, b: seq<SimUser>, ws: seq<SimWithdrawal>)
    requires Owned(a, ws)
    requires |a| == |b| && forall k :: 0 <= k < |a| ==> a[k].id == b[k].id
    ensures Owned(b, ws)
  {
    forall k | 0 <= k < |ws|
      ensures UserIndex(b, ws[k].userId).Some?
    {
      UserIndexByIds(a, b, ws[k].userId);
    }
  }

  /** Lookups by address and distinct addresses only read the addresses. */
  lemma {:induction false} SameEmails(a: seq<SimUser>, b: seq<SimUser>, email: string)
    requires |a| == |b| && forall k :: 0 <= k < |a| ==> a[k].email == b[k].email
    ensures EmailIndex(a, email) == EmailIndex(b, email)
    ensures DistinctEmails(a) ==> DistinctEmails(b)
  {
    FirstIndexPointwise(a, (u: SimUser) => u.email == email, b, (u: SimUser) => u.email == email);
  }

  /** Adding a user keeps every request's owner. */
  lemma OwnedAppend(users: seq<SimUser>, u: SimUser, ws: seq<SimWithdrawal>)
    requires Owned(users, ws)
    ensures Owned(users + [u], ws)
  {
    forall k | 0 <= k < |ws|
      ensures UserIndex(users + [u], ws[k].userId).Some?
    {
      var j := UserIndex(users, ws[k].userId).value;
      assert (users + [u])[j] == users[j];
    }
  }

  /** A new request of a known user keeps every request's owner. */
  lemma OwnedPrepend(users: seq<SimUser>, w: SimWithdrawal, ws: seq<SimWithdrawal>)
    requires Owned(users, ws) && UserIndex(users, w.userId).Some?
    ensures Owned(users, [w] + ws)
  {
    forall k | 0 <= k < |[w] + ws|
      ensures UserIndex(users, ([w] + ws)[k].userId).Some?
    {
      if k > 0 {
        assert ([w] + ws)[k] == ws[k - 1];
      }
    }
  }

  /** Changing a request but not its owner keeps every request's owner. */
  lemma OwnedUpdate(users: seq<SimUser>, ws: seq<SimWithdrawal>, k: nat, w: SimWithdrawal)
    requires Owned(users, ws) && k < |ws| && w.userId == ws[k].userId
    ensures Owned(users, ws[k := w])
  {
    var ws' := ws[k := w];
    forall j | 0 <= j < |ws'|
      ensures UserIndex(users, ws'[j].userId).Some?
    {
      assert ws'[j].userId == ws[j].userId;
    }
  }

  /** The seeded users have distinct addresses. */
  lemma DefaultEmailsDistinct()
    ensures DistinctEmails(DefaultUsers)
  {
    var heads := ['a', 'b', 'c'];
    forall j | 0 <= j < |DefaultUsers|
      ensures |DefaultUsers[j].email| > 0 && DefaultUsers[j].email[0] == heads[j]
    {
      var e := DefaultUsers[j].email;
      if j == 0 {
        assert e == "alice@test.local";
      } else if j == 1 {
        assert e == "bob@test.local";
      } else {
        assert e == "carol@test.local";
      }
    }
  }

  class Simulation {
    var users: seq<SimUser>
    var currentUser: string
    var withdrawals: seq<SimWithdrawal>
    var cycles: map<string, seq<Cycle>>
    var auditLog: seq<AuditEvent>
    /** Number formatting used by the history formatter. */
    const fmt: Formatters
    /** `Number(x.toFixed(2))`. */
    const round2: real -> real
    /** The administrator named in audit events. */
    const adminEmail: string

    /** The audit log is within its cap and every withdrawal request belongs
        to a user. */
    ghost predicate Valid()
      reads this
    {
      |auditLog| <= MaxAuditEvents && Owned(users, withdrawals)
    }

    /** The seeded state: the default users, the first one signed in. */
    constructor (fmt: Formatters, round2: real -> real, adminEmail: string)
      ensures this.fmt == fmt && this.round2 == round2 && this.adminEmail == adminEmail
      ensures users == DefaultUsers && currentUser == "u1"
      ensures withdrawals == [] && cycles == map[] && auditLog == []
      ensures Valid() && DistinctEmails(users)
    {
      this.fmt := fmt;
      this.round2 := round2;
      this.adminEmail := adminEmail;
      users := DefaultUsers;
      currentUser := "u1";
      withdrawals := [];
      cycles := map[];
      auditLog := [];
      DefaultEmailsDistinct();
    }
  }

  // ---------------------------------------------------------------- operations

  /** `addHistory(userId, action, meta)`; `thrown` says the formatter threw. */
  method AddHistory(sim: Simulation, userId: string, action: string, meta: Meta, now: string) returns (thrown: bool)
    modifies sim
    ensures thrown <==> UserIndex(old(sim.users), userId).Some? && !Formattable(meta)
    ensures sim.users == WithHistory(old(sim.users), userId, action, meta, now)
    ensures sim.currentUser == old(sim.currentUser) && sim.withdrawals == old(sim.withdrawals)
    ensures sim.cycles == old(sim.cycles) && sim.auditLog == old(sim.auditLog)
    ensures old(sim.Valid()) ==> sim.Valid()
  {
    var found := UserIndex(sim.users, userId);
    if found.None? {
      return false;
    }
    var message := FormatHistoryMessage(BrowserTable, action, meta, sim.fmt);
    BrowserThrowsUnlessFormattable(meta, action, sim.fmt);
    if message.None? {
      return true;
    }
    var u := sim.users[found.value];
    ghost var before := sim.users;
    sim.users := sim.users[found.value := u.(history := [SimEntry(now, action, meta)] + u.history)];
    if Owned(before, sim.withdrawals) {
      SameIds(before, sim.users, sim.withdrawals);
    }
    thrown := false;
  }

  /** The users after the debit of `amount` from the first user with
      `userId`: `Number((balance - amount).toFixed(2))`. */
  function Debited(users: seq<SimUser>, userId: string, amount: real, round2: real -> real): (r: seq<SimUser>)
    requires UserIndex(users, userId).Some?
    ensures |r| == |users|
    ensures var i := UserIndex(users, userId).value;
      && r[i] == users[i].(balance := round2(users[i].balance - amount))
      && forall k :: 0 <= k < |users| && k != i ==> r[k] == users[k]
  {
    var i := UserIndex(users, userId).value;
    users[i := users[i].(balance := round2(users[i].balance - amount))]
  }

  /** The debit shared by approval and subscription. */
  method Debit(sim: Simulation, userId: string, amount: real)
    requires UserIndex(sim.users, userId).Some?
    modifies sim
    ensures sim.users == Debited(old(sim.users), userId, amount, sim.round2)
    ensures sim.currentUser == old(sim.currentUser) && sim.withdrawals == old(sim.withdrawals)
    ensures sim.cycles == old(sim.cycles) && sim.auditLog == old(sim.auditLog)
    ensures old(sim.Valid()) ==> sim.Valid()
  {
    var i := UserIndex(sim.users, userId).value;
    var u := sim.users[i];
    ghost var before := sim.users;
    sim.users := sim.users[i := u.(balance := sim.round2(u.balance - amount))];
    if Owned(before, sim.withdrawals) {
      SameIds(before, sim.users, sim.withdrawals);
    }
  }

  /** `registerUser(email, password, name)`; `id` is the generated user id.
      The duplicate check compares the address as typed while the new user
      is stored under the lower-cased address (see `RegisterError` and
      `CaseVariantSharesAddress`). */
  method RegisterUser(sim: Simulation, email: string, password: string, name: string, id: string, now: string) returns (r: Reply)
    requires sim.Valid()
    modifies sim
    ensures sim.Valid()
    ensures r.Refused? <==> RegisterError(old(sim.users), email, password, name).Some?
    ensures r.Refused? ==> r.msg == RegisterError(old(sim.users), email, password, name).value && sim.users == old(sim.users)
    ensures r.Done? ==>
      sim.users == WithHistory(old(sim.users) + [NewSimUser(id, email, password, name)], id, "account.created", map["email" := Str(email)], now)
    ensures sim.currentUser == old(sim.currentUser) && sim.withdrawals == old(sim.withdrawals)
    ensures sim.cycles == old(sim.cycles) && sim.auditLog == old(sim.auditLog)
  {
    if email == "" || password == "" || name == "" {
      return Refused("All fields are required");
    }
    if EmailIndex(sim.users, email).Some? {
      return Refused("Email already registered");
    }
    if !EmailShaped(email) {
      return Refused("Invalid email format");
    }
    if JsLength(password) < 6 {
      return Refused("Password must be at least 6 characters");
    }
    var newUser := SimUser(id, Lower(email), Trim(name), password, 500.0, false, false, 300.0, 150.0, 50.0, []);
    OwnedAppend(sim.users, newUser, sim.withdrawals);
    sim.users := sim.users + [newUser];
    var _ := AddHistory(sim, id, "account.created", map["email" := Str(email)], now);
    r := Done;
  }

  /** `registerUser` with the duplicate check made on the lower-cased
      address, the one that is stored and that login looks up: it keeps the
      stored addresses distinct, and the new user is the one login finds. */
  method RegisterUserFolded(sim: Simulation, email: string, password: string, name: string, id: string, now: string) returns (r: Reply)
    requires sim.Valid()
    modifies sim
    ensures sim.Valid()
    ensures r.Refused? <==> RegisterErrorFolded(old(sim.users), email, password, name).Some?
    ensures r.Refused? ==> r.msg == RegisterErrorFolded(old(sim.users), email, password, name).value && sim.users == old(sim.users)
    ensures r.Done? ==>
      && sim.users == WithHistory(old(sim.users) + [NewSimUser(id, email, password, name)], id, "account.created", map["email" := Str(email)], now)
      && EmailIndex(sim.users, Lower(email)) == Some(|old(sim.users)|)
      && (DistinctEmails(old(sim.users)) ==> DistinctEmails(sim.users))
    ensures sim.currentUser == old(sim.currentUser) && sim.withdrawals == old(sim.withdrawals)
    ensures sim.cycles == old(sim.cycles) && sim.auditLog == old(sim.auditLog)
  {
    if email == "" || password == "" || name == "" {
      return Refused("All fields are required");
    }
    if EmailIndex(sim.users, Lower(email)).Some? {
      return Refused("Email already registered");
    }
    if !EmailShaped(email) {
      return Refused("Invalid email format");
    }
    if JsLength(password) < 6 {
      return Refused("Password must be at least 6 characters");
    }
    var newUser := SimUser(id, Lower(email), Trim(name), password, 500.0, false, false, 300.0, 150.0, 50.0, []);
    OwnedAppend(sim.users, newUser, sim.withdrawals);
    AppendFreshFound(sim.users, newUser);
    if DistinctEmails(sim.users) {
      AppendFreshEmail(sim.users, newUser);
    }
    sim.users := sim.users + [newUser];
    ghost var pushed := sim.users;
    var _ := AddHistory(sim, id, "account.created", map["email" := Str(email)], now);
    SameEmails(pushed, sim.users, Lower(email));
    r := Done;
  }

  /** `loginUser(email, password)`: the address is lower-cased before the
      lookup; a frozen user is not refused here. */
  method LoginUser(sim: Simulation, email: string, password: string, now: string) returns (r: Reply)
    requires sim.Valid()
    modifies sim
    ensures sim.Valid()
    ensures email == "" || password == "" ==> r == Refused("Email and password required")
    ensures email != "" && password != "" && EmailIndex(old(sim.users), Lower(email)).None? ==> r == Refused("Email not found")
    ensures email != "" && password != "" && EmailIndex(old(sim.users), Lower(email)).Some? ==>
      var u := old(sim.users)[EmailIndex(old(sim.users), Lower(email)).value];
      if u.password != password then r == Refused("Incorrect password")
      else
        && r == Done
        && sim.currentUser == u.id
        && sim.users == WithHistory(old(sim.users), u.id, "account.login", map[], now)
    ensures r.Refused? ==> sim.users == old(sim.users) && sim.currentUser == old(sim.currentUser)
    ensures sim.withdrawals == old(sim.withdrawals) && sim.cycles == old(sim.cycles) && sim.auditLog == old(sim.auditLog)
  {
    if email == "" || password == "" {
      return Refused("Email and password required");
    }
    var found := EmailIndex(sim.users, Lower(email));
    if found.None? {
      return Refused("Email not found");
    }
    var user := sim.users[found.value];
    if user.password != password {
      return Refused("Incorrect password");
    }
    sim.currentUser := user.id;
    var _ := AddHistory(sim, user.id, "account.login", map[], now);
    r := Done;
  }

  /** `requestWithdrawal(userId, amount)`; `id` is the generated request id.
      The request goes to the front; the balance does not move. */
  method RequestWithdrawal(sim: Simulation, userId: string, amount: real, id: string, now: string) returns (r: Reply)
    requires sim.Valid()
    modifies sim
    ensures sim.Valid()
    ensures r.Refused? <==> WithdrawalError(old(sim.users), userId, amount).Some?
    ensures r.Refused? ==>
      r.msg == WithdrawalError(old(sim.users), userId, amount).value
      && sim.users == old(sim.users) && sim.withdrawals == old(sim.withdrawals)
    ensures r.Done? ==>
      && sim.withdrawals == [SimWithdrawal(id, userId, amount, Pending, now)] + old(sim.withdrawals)
      && sim.users == WithHistory(old(sim.users), userId, "withdraw.request", map["id" := Str(id), "amount" := Num(amount)], now)
    ensures sim.currentUser == old(sim.currentUser) && sim.cycles == old(sim.cycles) && sim.auditLog == old(sim.auditLog)
  {
    var found := UserIndex(sim.users, userId);
    if found.None? {
      return Refused("User not found");
    }
    var u := sim.users[found.value];
    if u.frozen {
      return Refused("Account under review (simulation)");
    }
    if u.kycLocked {
      return Refused("KYC verification required");
    }
    if amount <= 0.0 || amount > u.balance {
      return Refused("Invalid amount or insufficient balance");
    }
    OwnedPrepend(sim.users, SimWithdrawal(id, userId, amount, Pending, now), sim.withdrawals);
    sim.withdrawals := [SimWithdrawal(id, userId, amount, Pending, now)] + sim.withdrawals;
    var _ := AddHistory(sim, userId, "withdraw.request", map["id" := Str(id), "amount" := Num(amount)], now);
    r := Done;
  }

  /** `adminApproveWithdrawal(reqId, approve)`: false for an unknown id.
      There is no status check; only an approval debits the balance. */
  method AdminApproveWithdrawal(sim: Simulation, reqId: string, approve: bool, now: string) returns (ok: bool)
    requires sim.Valid()
    modifies sim
    ensures sim.Valid()
    ensures ok <==> RequestIndex(old(sim.withdrawals), reqId).Some?
    ensures !ok ==> sim.users == old(sim.users) && sim.withdrawals == old(sim.withdrawals)
    ensures ok ==>
      var k := RequestIndex(old(sim.withdrawals), reqId).value;
      var w := old(sim.withdrawals)[k];
      var logged := WithHistory(old(sim.users), w.userId, if approve then "withdraw.approved" else "withdraw.rejected", map["id" := Str(reqId)], now);
      && sim.withdrawals == old(sim.withdrawals)[k := w.(status := if approve then Approved else Rejected)]
      && UserIndex(logged, w.userId).Some?
      && sim.users == if approve then Debited(logged, w.userId, w.amount, sim.round2) else logged
    ensures sim.currentUser == old(sim.currentUser) && sim.cycles == old(sim.cycles) && sim.auditLog == old(sim.auditLog)
  {
    var found := RequestIndex(sim.withdrawals, reqId);
    if found.None? {
      return false;
    }
    var k := found.value;
    var req := sim.withdrawals[k];
    ghost var before := sim.users;
    OwnedUpdate(sim.users, sim.withdrawals, k, req.(status := if approve then Approved else Rejected));
    sim.withdrawals := sim.withdrawals[k := req.(status := if approve then Approved else Rejected)];
    var action := if approve then "withdraw.approved" else "withdraw.rejected";
    var _ := AddHistory(sim, req.userId, action, map["id" := Str(reqId)], now);
    ghost var logged := sim.users;
    assert logged == WithHistory(before, req.userId, action, map["id" := Str(reqId)], now);
    UserIndexByIds(before, logged, req.userId);
    if approve {
      Debit(sim, req.userId, req.amount);
    }
    ok := true;
  }

  /** `subscribeAI(userId, amount)`; `id` is the generated cycle id. The
      balance drops by the amount (rounded to cents) and one running cycle
      is appended to the user's cycles. */
  method SubscribeAI(sim: Simulation, userId: string, amount: real, id: string, now: string) returns (r: Reply)
    requires sim.Valid()
    modifies sim
    ensures sim.Valid()
    ensures r.Refused? <==> SubscribeError(old(sim.users), userId, amount).Some?
    ensures r.Refused? ==>
      r.msg == SubscribeError(old(sim.users), userId, amount).value
      && sim.users == old(sim.users) && sim.cycles == old(sim.cycles)
    ensures r.Done? ==>
      var debited := Debited(old(sim.users), userId, amount, sim.round2);
      && sim.users == WithHistory(debited, userId, "subscribe.ai", map["amount" := Num(amount)], now)
      && sim.cycles == old(sim.cycles)[userId := CyclesOf(old(sim.cycles), userId) + [Cycle(id, amount, CycleRoi, now, "running")]]
    ensures sim.currentUser == old(sim.currentUser) && sim.withdrawals == old(sim.withdrawals) && sim.auditLog == old(sim.auditLog)
  {
    var found := UserIndex(sim.users, userId);
    if found.None? {
      return Refused("User not found");
    }
    var u := sim.users[found.value];
    if u.frozen {
      return Refused("Account under review (simulation)");
    }
    if amount < 30.0 || amount > 3000.0 {
      return Refused("Amount must be between 30 and 3000");
    }
    if amount > u.balance {
      return Refused("Insufficient balance (simulation)");
    }
    Debit(sim, userId, amount);
    var _ := AddHistory(sim, userId, "subscribe.ai", map["amount" := Num(amount)], now);
    var existing := CyclesOf(sim.cycles, userId);
    sim.cycles := sim.cycles[userId := existing + [Cycle(id, amount, CycleRoi, now, "running")]];
    r := Done;
  }

  /** `changePassword(userId, oldPassword, newPassword)`. */
  method ChangePassword(sim: Simulation, userId: string, oldPassword: string, newPassword: string, now: string) returns (r: Reply)
    requires sim.Valid()
    modifies sim
    ensures sim.Valid()
    ensures r.Refused? <==> ChangePasswordError(old(sim.users), userId, oldPassword, newPassword).Some?
    ensures r.Refused? ==>
      r.msg == ChangePasswordError(old(sim.users), userId, oldPassword, newPassword).value && sim.users == old(sim.users)
    ensures r.Done? ==>
      var i := UserIndex(old(sim.users), userId).value;
      var changed := old(sim.users)[i := old(sim.users)[i].(password := newPassword)];
      sim.users == WithHistory(changed, userId, "password.changed", map["changed_at" := Str(now)], now)
    ensures sim.currentUser == old(sim.currentUser) && sim.withdrawals == old(sim.withdrawals)
    ensures sim.cycles == old(sim.cycles) && sim.auditLog == old(sim.auditLog)
  {
    var found := UserIndex(sim.users, userId);
    if found.None? {
      return Refused("User not found");
    }
    var i := found.value;
    var u := sim.users[i];
    if u.password != oldPassword {
      return Refused("Old password incorrect");
    }
    if newPassword == "" || JsLength(newPassword) < 6 {
      return Refused("Password must be at least 6 characters");
    }
    if newPassword == oldPassword {
      return Refused("New password must be different");
    }
    ghost var before := sim.users;
    sim.users := sim.users[i := u.(password := newPassword)];
    SameIds(before, sim.users, sim.withdrawals);
    var _ := AddHistory(sim, userId, "password.changed", map["changed_at" := Str(now)], now);
    r := Done;
  }

  /** `logAuditEvent(action, targetUserId, details)`; `id` is the generated
      event id. */
  method LogAuditEvent(sim: Simulation, action: string, targetUserId: string, details: Meta, id: string, now: string) returns (event: AuditEvent)
    requires sim.Valid()
    modifies sim
    ensures sim.Valid()
    ensures event == AuditEvent(id, action, targetUserId, sim.adminEmail, now, details)
    ensures sim.auditLog == Capped(old(sim.auditLog) + [event])
    ensures sim.users == old(sim.users) && sim.currentUser == old(sim.currentUser)
    ensures sim.withdrawals == old(sim.withdrawals) && sim.cycles == old(sim.cycles)
  {
    event := AuditEvent(id, action, targetUserId, sim.adminEmail, now, details);
    sim.auditLog := sim.auditLog + [event];
    if |sim.auditLog| > MaxAuditEvents {
      sim.auditLog := sim.auditLog[1..];
    }
  }
}
