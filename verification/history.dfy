/** History messages: the backend formatter (backend/utils/history.js) and the
    browser simulation's own formatter (js/userData.js) share one shape. Both
    pick the amount from `meta.amount`, else `meta.amt`, else 0, format it as
    money when it is a number, and fill a fixed template keyed by the action,
    falling back to "Transaction - <action with dots as spaces>".

    A template is modelled as a list of pieces, each piece standing for one
    interpolation of the source's template literal. Number-to-text conversion
    (locale formatting, `Number.prototype.toString`, `toFixed(2)`) is passed in
    as `Formatters`, since it is JavaScript's floating-point formatting. */
module History {
  import opened Common

  /** The JSON values a history `meta` object holds. */
  datatype JsVal = Num(n: real) | Str(s: string) | Bool(b: bool) | List(items: seq<string>)

  type Meta = map<string, JsVal>

  datatype Formatters = Formatters(
    money: real -> string,   // toLocaleString with exactly two fraction digits
    plain: real -> string,   // String(n)
    fixed2: real -> string)  // n.toFixed(2)

  /** JavaScript truthiness of a present value (arrays are always truthy). */
  predicate Truthy(v: JsVal) {
    match v
    case Num(n) => n != 0.0
    case Str(s) => s != ""
    case Bool(b) => b
    case List(_) => true
  }

  /** `meta[key]` when it is present and truthy. */
  function Given(meta: Meta, key: string): (r: Option<JsVal>)
    ensures r.Some? <==> key in meta && Truthy(meta[key])
    ensures r.Some? ==> r.value == meta[key]
  {
    if key in meta && Truthy(meta[key]) then Some(meta[key]) else None
  }

  /** `String(v)`, as a template literal inserts a value. */
  function Text(v: JsVal, f: Formatters): string {
    match v
    case Num(n) => f.plain(n)
    case Str(s) => s
    case Bool(b) => if b then "true" else "false"
    case List(items) => Join(items, ",")
  }

  /** `meta.amount || meta.amt || 0`. */
  function AmountValue(meta: Meta): (v: JsVal)
    ensures Given(meta, "amount").Some? ==> v == meta["amount"]
    ensures Given(meta, "amount").None? && Given(meta, "amt").Some? ==> v == meta["amt"]
    ensures Given(meta, "amount").None? && Given(meta, "amt").None? ==> v == Num(0.0)
  {
    match Given(meta, "amount")
    case Some(v) => v
    case None =>
      match Given(meta, "amt")
      case Some(v) => v
      case None => Num(0.0)
  }

  /** `formattedAmount`: a number goes through money formatting behind a '$';
      anything else is inserted verbatim. */
  function FormattedAmount(meta: Meta, f: Formatters): (s: string)
    ensures AmountValue(meta).Num? ==> s == "$" + f.money(AmountValue(meta).n)
    ensures !AmountValue(meta).Num? ==> s == Text(AmountValue(meta), f)
  {
    match AmountValue(meta)
    case Num(n) => "$" + f.money(n)
    case v => Text(v, f)
  }

  /** One interpolation of a message template. */
  datatype Piece =
    | Lit(text: string)                      // literal text
    | Amount                                 // ${formattedAmount}
    | OrElse(key: string, fallback: string)  // ${meta.key || 'fallback'}
    | FieldList                              // ${(meta.fields || []).join(', ')}
    | ProfitOrAmount                         // ${meta.profit ? '$' + meta.profit.toFixed(2) : formattedAmount}
    | ActionWords                            // ${action.replace(/\./g, ' ')}

  type Template = seq<Piece>

  /** `action.replace(/\./g, ' ')`. */
  function DotsToSpaces(action: string): (r: string)
    ensures |r| == |action|
    ensures '.' !in r
    ensures forall i :: 0 <= i < |action| ==> r[i] == (if action[i] == '.' then ' ' else action[i])
  {
    if action == [] then []
    else [if action[0] == '.' then ' ' else action[0]] + DotsToSpaces(action[1..])
  }

  function RenderPiece(p: Piece, action: string, meta: Meta, f: Formatters): string {
    match p
    case Lit(t) => t
    case Amount => FormattedAmount(meta, f)
    case OrElse(key, fallback) =>
      (match Given(meta, key) case Some(v) => Text(v, f) case None => fallback)
    case FieldList =>
      (match Given(meta, "fields") case Some(List(items)) => Join(items, ", ") case _ => "")
    case ProfitOrAmount =>
      (match Given(meta, "profit") case Some(Num(n)) => "$" + f.fixed2(n) case _ => FormattedAmount(meta, f))
    case ActionWords => DotsToSpaces(action)
  }

  function Render(t: Template, action: string, meta: Meta, f: Formatters): string {
    if t == [] then "" else RenderPiece(t[0], action, meta, f) + Render(t[1..], action, meta, f)
  }

  /** The source builds every template of its table before choosing one, so a
      truthy `meta.fields` that is not an array (no `join`), or a truthy
      `meta.profit` that is not a number (no `toFixed`), throws a TypeError
      whatever the action. */
  predicate ThrowsTypeError(table: map<string, Template>, meta: Meta) {
    || ((exists a :: a in table && FieldList in table[a]) && Given(meta, "fields").Some? && !meta["fields"].List?)
    || ((exists a :: a in table && ProfitOrAmount in table[a]) && Given(meta, "profit").Some? && !meta["profit"].Num?)
  }

  /** The fallback template, stored under the key 'default'. */
  const DefaultTemplate: Template := [Lit("Transaction - "), ActionWords]

  /** `messages[action] || messages['default']`. */
  function TemplateFor(table: map<string, Template>, action: string): (t: Template)
    ensures action in table ==> t == table[action]
    ensures action !in table && "default" in table ==> t == table["default"]
  {
    if action in table then table[action]
    else if "default" in table then table["default"]
    else DefaultTemplate
  }

  /** `formatHistoryMessage(action, meta)` over a template table; None when the
      source throws. */
  function FormatHistoryMessage(table: map<string, Template>, action: string, meta: Meta, f: Formatters): (r: Option<string>)
    ensures r.None? <==> ThrowsTypeError(table, meta)
  {
    if ThrowsTypeError(table, meta) then None
    else Some(Render(TemplateFor(table, action), action, meta, f))
  }

  /** The table of backend/utils/history.js. */
  const BackendTable: map<string, Template> := map[
    "deposit.submitted" := [Lit("Deposit request submitted - "), Amount],
    "deposit.confirmed" := [Lit("Deposit completed - "), Amount, Lit(" credited to your account")],
    "withdraw.approved" := [Lit("Withdrawal approved - "), Amount, Lit(" will be sent shortly")],
    "withdraw.rejected" := [Lit("Withdrawal rejected - Please contact support")],
    "admin.injectProfit" := [Lit("Trading profit - "), Amount, Lit(" earned")],
    "admin.dailyProfit" := [Lit("Daily trading profit - "), Amount],
    "profit.trading" := [Lit("Position closed - "), Amount, Lit(" profit")],
    "admin.setBalance" := [Lit("Account adjustment - Balance updated to "), Amount],
    "account.created" := [Lit("Welcome! Account created successfully")],
    "account.login" := [Lit("Login successful")],
    "password.changed" := [Lit("Password changed successfully")],
    "admin.freeze" := [Lit("Account temporarily restricted - Please contact support")],
    "admin.unfreeze" := [Lit("Account restrictions removed")],
    "admin.bonus" := [Lit("Bonus credited - "), Amount],
    "deposit.rejected" := [Lit("Deposit rejected - "), OrElse("reason", "Verification failed")],
    "withdraw.request" := [Lit("Withdrawal request submitted - "), Amount],
    "profile.updated" := [Lit("Profile updated - "), FieldList],
    "admin.liquidation" := [Lit("Position liquidated - "), OrElse("reason", "Margin call")],
    "default" := DefaultTemplate
  ]

  /** The table of the browser simulation (js/userData.js). */
  const BrowserTable: map<string, Template> := map[
    "deposit.submitted" := [Lit("Deposit request submitted - "), Amount],
    "deposit.confirmed" := [Lit("Deposit completed - "), Amount, Lit(" credited to your account")],
    "deposit.rejected" := [Lit("Deposit rejected - "), OrElse("reason", "Verification failed")],
    "deposit.sandbox" := [Lit("Demo deposit - "), Amount],
    "withdraw.request" := [Lit("Withdrawal request submitted - "), Amount],
    "withdraw.approved" := [Lit("Withdrawal approved - "), Amount, Lit(" will be sent shortly")],
    "withdraw.rejected" := [Lit("Withdrawal rejected - Please contact support")],
    "withdraw.sandbox" := [Lit("Demo withdrawal - "), Amount],
    "admin.injectProfit" := [Lit("Trading profit - "), Amount, Lit(" earned")],
    "admin.dailyProfit" := [Lit("Daily trading profit - "), Amount],
    "sim.profit" := [Lit("Position closed - "), Amount, Lit(" profit")],
    "sim.cycle" := [Lit("Trading cycle completed - "), ProfitOrAmount, Lit(" profit")],
    "admin.setBalance" := [Lit("Account adjustment - Balance updated to "), Amount],
    "ai.subscribe" := [Lit("AI Trading Bot activated - "), Amount, Lit(" allocated")],
    "ai.profit" := [Lit("AI Bot profit - "), Amount, Lit(" earned")],
    "subscribe.ai" := [Lit("AI Trading subscription - "), Amount],
    "options.buy" := [Lit("Options "), OrElse("type", "contract"), Lit(" purchased - Strike: "), OrElse("strike", "N/A")],
    "contract.open" := [Lit("Futures position opened - "), OrElse("side", "LONG"), Lit(" "), OrElse("lev", "1"), Lit("x leverage")],
    "transfer.internal" := [Lit("Internal transfer - "), Amount, Lit(" from "), OrElse("from", "Spot"), Lit(" to "), OrElse("to", "Futures")],
    "transfer.sim" := [Lit("Account transfer - "), Amount],
    "account.created" := [Lit("Welcome! Account created successfully")],
    "account.login" := [Lit("Login successful")],
    "profile.updated" := [Lit("Profile updated - "), FieldList],
    "password.changed" := [Lit("Password changed successfully")],
    "admin.freeze" := [Lit("Account temporarily restricted - Please contact support")],
    "admin.unfreeze" := [Lit("Account restrictions removed")],
    "admin.liquidation" := [Lit("Position liquidated - "), OrElse("reason", "Margin call")],
    "admin.forceWin" := [Lit("Bonus credited - "), Amount],
    "admin.kycLock" := [Lit("KYC verification required")],
    "admin.kycUnlock" := [Lit("KYC verification completed")],
    "default" := DefaultTemplate
  ]

  /** A backend history row as `createHistoryEntry` builds it (the meta is kept
      as a value; its JSON text is not modelled). */
  datatype Entry = Entry(action: string, message: string, meta: Meta)

  /** `createHistoryEntry(action, meta)`; None when the formatter throws. */
  function CreateHistoryEntry(action: string, meta: Meta, f: Formatters): (r: Option<Entry>)
    ensures r.Some? <==> FormatHistoryMessage(BackendTable, action, meta, f).Some?
    ensures r.Some? ==>
      && r.value.action == action && r.value.meta == meta
      && r.value.message == FormatHistoryMessage(BackendTable, action, meta, f).value
  {
    match FormatHistoryMessage(BackendTable, action, meta, f)
    case Some(m) => Some(Entry(action, m, meta))
    case None => None
  }

  // ----- Properties of the formatter -----

  /** A meta the formatter cannot throw on: `fields`, when truthy, is an
      array and `profit`, when truthy, is a number. */
  predicate Formattable(meta: Meta) {
    && (Given(meta, "fields").None? || meta["fields"].List?)
    && (Given(meta, "profit").None? || meta["profit"].Num?)
  }

  /** The formatter throws on exactly the metas that are not formattable. */
  lemma FormattableMeta(table: map<string, Template>, action: string, meta: Meta, f: Formatters)
    ensures Formattable(meta) ==> FormatHistoryMessage(table, action, meta, f).Some?
    ensures Formattable(meta) ==> CreateHistoryEntry(action, meta, f).Some?
  {
  }

  /** The backend formatter throws exactly when `meta.fields` is truthy and not
      an array: its table has no template that reads `meta.profit`. */
  lemma BackendThrowsOnFieldsOnly(action: string, meta: Meta, f: Formatters)
    ensures CreateHistoryEntry(action, meta, f).None? <==> Given(meta, "fields").Some? && !meta["fields"].List?
  {
    assert "profile.updated" in BackendTable && FieldList in BackendTable["profile.updated"];
    assert forall a :: a in BackendTable ==> ProfitOrAmount !in BackendTable[a];
  }

  /** The browser formatter throws exactly on the metas that are not
      formattable: its table reads both `meta.fields` and `meta.profit`. */
  lemma BrowserThrowsUnlessFormattable(meta: Meta, action: string, f: Formatters)
    ensures FormatHistoryMessage(BrowserTable, action, meta, f).None? <==> !Formattable(meta)
  {
    assert "profile.updated" in BrowserTable && FieldList in BrowserTable["profile.updated"];
    assert "sim.cycle" in BrowserTable && ProfitOrAmount in BrowserTable["sim.cycle"];
  }

  predicate IsLiteral(p: Piece) { p.Lit? }

  /** A template made of literal text only renders the same whatever the meta. */
  lemma {:induction false} LiteralTemplateIgnoresMeta(t: Template, action: string, m1: Meta, m2: Meta, f: Formatters)
    requires forall i :: 0 <= i < |t| ==> IsLiteral(t[i])
    ensures Render(t, action, m1, f) == Render(t, action, m2, f)
  {
    if t != [] {
      LiteralTemplateIgnoresMeta(t[1..], action, m1, m2, f);
    }
  }

  /** Rendering a template is rendering its pieces one after another. */
  lemma {:induction false} RenderAppend(t1: Template, t2: Template, action: string, meta: Meta, f: Formatters)
    ensures Render(t1 + t2, action, meta, f) == Render(t1, action, meta, f) + Render(t2, action, meta, f)
  {
    if t1 != [] {
      assert (t1 + t2)[0] == t1[0];
      assert (t1 + t2)[1..] == t1[1..] + t2;
      RenderAppend(t1[1..], t2, action, meta, f);
      var h := RenderPiece(t1[0], action, meta, f);
      assert Render(t1 + t2, action, meta, f) == h + (Render(t1[1..], action, meta, f) + Render(t2, action, meta, f));
    } else {
      assert t1 + t2 == t2;
    }
  }

  lemma RenderPair(p: Piece, q: Piece, action: string, meta: Meta, f: Formatters)
    ensures Render([p, q], action, meta, f) == RenderPiece(p, action, meta, f) + RenderPiece(q, action, meta, f)
  {
    assert [p, q][1..] == [q];
    assert [q][1..] == [];
    assert Render([q], action, meta, f) == RenderPiece(q, action, meta, f) + "";
    assert RenderPiece(q, action, meta, f) + "" == RenderPiece(q, action, meta, f);
  }

  /** An action the table does not know gives "Transaction - " followed by the
      action with every '.' turned into a space. */
  lemma UnknownActionMessage(table: map<string, Template>, action: string, meta: Meta, f: Formatters)
    requires "default" in table && table["default"] == DefaultTemplate
    requires action !in table && !ThrowsTypeError(table, meta)
    ensures FormatHistoryMessage(table, action, meta, f) == Some("Transaction - " + DotsToSpaces(action))
  {
    RenderPair(Lit("Transaction - "), ActionWords, action, meta, f);
  }

  /** With no truthy `fields`, `profile.updated` gives "Profile updated - " and
      nothing after it; with an array it lists the fields joined by ", ". */
  lemma ProfileUpdatedMessage(meta: Meta, f: Formatters)
    requires !ThrowsTypeError(BackendTable, meta)
    ensures Given(meta, "fields").None? ==>
      FormatHistoryMessage(BackendTable, "profile.updated", meta, f) == Some("Profile updated - ")
    ensures "fields" in meta && meta["fields"].List? ==>
      FormatHistoryMessage(BackendTable, "profile.updated", meta, f)
        == Some("Profile updated - " + Join(meta["fields"].items, ", "))
  {
    assert BackendTable["profile.updated"] == [Lit("Profile updated - "), FieldList];
    RenderPair(Lit("Profile updated - "), FieldList, "profile.updated", meta, f);
    assert "Profile updated - " + "" == "Profile updated - ";
  }

  /** A template of a literal followed by `meta[key] || fallback` gives the
      fallback when the key is absent. */
  lemma FallbackMessage(table: map<string, Template>, action: string, prefix: string, key: string, fallback: string, meta: Meta, f: Formatters)
    requires action in table && table[action] == [Lit(prefix), OrElse(key, fallback)]
    requires key !in meta && !ThrowsTypeError(table, meta)
    ensures FormatHistoryMessage(table, action, meta, f) == Some(prefix + fallback)
  {
    RenderPair(Lit(prefix), OrElse(key, fallback), action, meta, f);
  }
}
