# Simulated exchange ledger in Dafny

This project models the core of a simulated crypto exchange: the backend's
spot-trading ledger and the balance workflows around it, plus the
browser-side simulation that re-implements some of those workflows over an
in-memory state.

- **Trading ledger** (`ledger.dfy`, `orders.dfy`, `order_book.dfy`,
  `book_invariant.dfy`). A portfolio holds spendable amounts per asset.
  USDT locked by open BUY orders sits in a separate pot, and so does each
  base asset locked by open SELL orders. A missing key reads as 0. Placing
  an order locks funds and cancelling it releases them. A matching tick
  settles every open order whose market price crosses its limit: it moves
  the funds, writes one trade and marks the order FILLED. The value-level
  specification is a `Book` (portfolios, orders, trades, markets) with pure
  `Place`, `Cancel`, `Execute`, `Tick` and `Refresh` functions. The
  invariant `Balanced` says that every locked pot equals what its owner's
  open orders reserve. `Solvent` adds non-negative spendable amounts.
  `assets_object.dfy` models the source's single `assets` object, where the
  pots `_lockedIn` and `_locked` share the key space of the balances. It
  proves that a SELL lock agrees with the separate-field model for every
  other base asset, and that a base asset named after a pot corrupts the
  pots (see Findings).
- **Imperative store** (`exchange.dfy`, `trading.dfy`,
  `order_executor.dfy`). The class `Exchange` holds the four tables as
  fields. The route handlers and executor functions are methods that update
  those fields step by step; the price refresh and the tick are loops. Each
  method is proved to leave the store equal to the specification function
  applied to the old store.
- **Balance workflows** (`database.dfy`, `transfer.dfy`, `withdrawal.dfy`,
  `deposit.dfy`, `ai.dfy`, `auth.dfy`). The class `Database` holds users,
  history rows, withdrawals, deposits and the audit log. Each route is one
  atomic method that checks its guards in the source's order, returns the
  source's error, or applies the update. A caller without a user row gets
  `UserNotFound` where the source fails with a server error (see
  "Left out").
- **History messages** (`history.dfy`). A message table is data: a template
  is a list of pieces. One renderer serves both the backend table and the
  browser table. The formatter builds every template of its table before
  choosing one. So a truthy non-array `meta.fields`, or (in the browser) a
  truthy non-number `meta.profit`, makes it throw whatever the action. That
  case is modelled as `None`.
- **Browser simulation** (`simulation.dfy`, `csv.dfy`). The class
  `Simulation` holds users, the current user, withdrawal requests, AI cycles
  and the audit log. It covers registration, login, withdrawal requests and
  approval, AI cycles, password change and the capped audit log. Exports
  use a CSV writer, and a matching reader is proved to read them back.

Money is `real`, and a missing or falsy number in a request is `0.0`. Ids
of backend rows are their positions in the tables. Time, generated ids and
verification codes are parameters. The following are functions passed in
and left opaque:

- number formatting (`toLocaleString`, `toFixed(2)`, number-to-text);
- password hashing;
- the browser's `Number(x.toFixed(2))` rounding;
- `JSON.stringify`.

## Model

| member | source | states |
|---|---|---|
| Common.BaseOf | backend/utils/orderExecutor.js:161 | `symbol.split('/')[0]`: the base has no '/', and it is the whole symbol or the prefix before the first '/' |
| Common.UsdtSymbol | backend/utils/orderExecutor.js:77 | `${base}/USDT` splits back to `base` |
| Common.BaseOfPair | backend/routes/trading.js:171 | the base of `base/rest` is `base` |
| Common.FirstIndex | js/userData.js:250 | `findIndex`: the index of the first element that passes the test, or none exactly when no element passes; every lookup by id or address below is this search |
| Common.FirstIndexPointwise | js/userData.js:47 | two searches whose tests agree element by element find the same index |
| Ledger.NewPortfolioAmounts | backend/routes/trading.js:138-149 | a new portfolio has 10000 spendable USDT, nothing else spendable and every locked pot 0 |
| Ledger.LockQuote | backend/routes/trading.js:155-167 | placing a BUY moves `cost` from spendable USDT to `_lockedIn`; every other amount is unchanged |
| Ledger.LockBase | backend/routes/trading.js:170-184 | placing a SELL moves `qty` of the base from spendable to `_locked[base]`; every other amount is unchanged |
| Ledger.UnlockQuote | backend/routes/trading.js:378-382 | cancelling a BUY moves `totalCost` back from `_lockedIn` to USDT; every other amount is unchanged |
| Ledger.UnlockBase | backend/routes/trading.js:383-387 | cancelling a SELL moves the amount back from `_locked[base]` to the base; every other amount is unchanged |
| Ledger.SettleBuy | backend/utils/orderExecutor.js:177-182 | a BUY fill credits `quantity` of the base and lowers `_lockedIn` by the whole `totalCost`; USDT and every other amount are unchanged |
| Ledger.SettleSell | backend/utils/orderExecutor.js:201-207 | a SELL fill credits `executionPrice * quantity` USDT and lowers `_locked[base]` by `quantity`; the spendable base is unchanged |
| Ledger.QuoteLockRoundTrip | backend/routes/trading.js:378-382 | unlocking what a BUY locked restores every amount |
| Ledger.BaseLockRoundTrip | backend/routes/trading.js:383-387 | unlocking what a SELL locked restores every amount |
| Ledger.LockConserves | backend/routes/trading.js:165-166 | a lock keeps spendable plus locked of that asset unchanged |
| Orders.OpenOrClosed | backend/routes/trading.js:227-265 | every status is in exactly one of the open and history listings |
| Orders.ParseSide | backend/routes/trading.js:124-128 | the side is BUY or SELL exactly when the text is "BUY" or "SELL" |
| Orders.ParseOrderType | backend/routes/trading.js:130-134 | the type is LIMIT or MARKET exactly when the text is "LIMIT" or "MARKET" |
| Orders.MatchRule | backend/utils/orderExecutor.js:138-144 | a BUY executes iff lastPrice <= price and a SELL iff lastPrice >= price, whatever the order type |
| Orders.OpenOrders | backend/utils/orderExecutor.js:110-117 | exactly the OPEN and PARTIALLY_FILLED orders, in table order |
| Orders.ListOpenOrders | backend/routes/trading.js:223-246 | exactly the user's OPEN and PARTIALLY_FILLED orders |
| Orders.ListOrderHistory | backend/routes/trading.js:252-288 | at most `limit` orders, each the user's and FILLED or CANCELLED |
| Orders.ListingsPartition | backend/routes/trading.js:227-265 | the open and closed listings of a user together count every order of that user once |
| OrderBook.ValidatePlacement | backend/routes/trading.js:116-135 | missing field, then bad side, then bad order type, each iff its condition and the earlier ones pass |
| OrderBook.WithPortfolio | backend/routes/trading.js:80-89 | a missing portfolio is created with 10000 USDT; an existing one and everything else are unchanged |
| OrderBook.Place | backend/routes/trading.js:110-217 | validation errors change nothing; otherwise the portfolio exists afterwards; on success the new order is appended with id = its position and no other user is touched |
| OrderBook.Cancel | backend/routes/trading.js:336-413 | not found, then not owner, then not open, each changing nothing; the caller's own open order is cancelled exactly when the caller has a portfolio, and `PortfolioMissing` otherwise; on success the order becomes CANCELLED, its funds are released and no other user is touched |
| OrderBook.TradeOf | backend/utils/orderExecutor.js:185-195 | the trade carries the order's id, user, symbol, side and quantity, the execution price and value = price * quantity |
| OrderBook.Execute | backend/utils/orderExecutor.js:158-243 | with no portfolio nothing changes; otherwise one trade is appended, the order becomes FILLED with filledQuantity = quantity, and only the owner's portfolio is settled |
| OrderBook.Step | backend/utils/orderExecutor.js:121-148 | an order whose market is absent or whose price does not cross is skipped unchanged; otherwise it is executed at the market's last price |
| OrderBook.Tick | backend/utils/orderExecutor.js:121-149 | a tick keeps the order count, markets and portfolio keys, and writes at most one trade per order it visits |
| OrderBook.TickSnoc | backend/utils/orderExecutor.js:121-149 | a tick over one more order is one more step |
| OrderBook.MatchOrders | backend/utils/orderExecutor.js:107-153 | a full pass keeps the order count and the markets |
| OrderBook.Refresh | backend/utils/orderExecutor.js:71-101 | a refresh never removes a market |
| OrderBook.OpenOrderIds | backend/utils/orderExecutor.js:110-117 | every selected open order's id is a valid row |
| OrderBook.CryptoPricesDistinct | backend/utils/orderExecutor.js:9-28 | the price table lists each base asset once |
| OrderBook.ToPriceData | backend/utils/orderExecutor.js:53-57 | the price is the quote's usd, the volume its 24h volume or 0 |
| OrderBook.PriceMapEntries | backend/utils/orderExecutor.js:50-59 | the price map has an entry for exactly the listed bases the answer priced, each holding its own coin's quote |
| OrderBook.BasesOf | backend/utils/orderExecutor.js:73-76 | the bases iterated, in table order |
| OrderBook.Upsert | backend/utils/orderExecutor.js:76-94 | `<BASE>/USDT` is updated (price, volume, time) or created with quote USDT; every other market is unchanged |
| OrderBook.UsdtSymbolInjective | backend/utils/orderExecutor.js:77 | different bases give different symbols |
| OrderBook.RefreshUpserts | backend/utils/orderExecutor.js:71-101 | every fetched base's market is upserted with its price; a market of no fetched base is unchanged; no other market appears |
| AssetsObject.LockSell | backend/routes/trading.js:170-183 | the SELL lock on the stored object: refused exactly when `assets[base] \|\| 0` is a number below the quantity |
| AssetsObject.Stored | backend/routes/trading.js:150 | the stored object holds every balance as a number, `_lockedIn` as the BUY pot and `_locked` as the SELL pot object |
| AssetsObject.LockSellAgrees | backend/routes/trading.js:170-183 | for a positive quantity and any base other than `_lockedIn` and `_locked`, the stored SELL lock is refused exactly when the model refuses and otherwise stores the model's locked portfolio |
| AssetsObject.LockedInAliasBreaksPot | backend/routes/trading.js:170-183 | in a balanced book a SELL of `_lockedIn/USDT` up to the BUY pot is accepted and leaves `_lockedIn` short of what the open BUY orders reserve by the quantity; the model refuses it |
| AssetsObject.LockedAliasErasesReservations | backend/routes/trading.js:170-183 | a SELL of `_locked/USDT` with any positive quantity is accepted and replaces the whole `_locked` pot by the new entry; the model refuses it |
| BookInvariant.ReservedNonNegative | backend/routes/trading.js:116 | with positive prices and quantities the open orders reserve a non-negative amount |
| BookInvariant.HeldNonNegative | backend/routes/trading.js:116 | in a solvent book every locked pot is non-negative |
| BookInvariant.WithPortfolioBalanced | backend/routes/trading.js:80-89 | creating a portfolio keeps the ledger invariant |
| BookInvariant.PlaceBalanced | backend/routes/trading.js:110-217 | placement keeps every locked pot equal to what the open orders reserve, for any request; the pots are fields apart from the balances, and `AssetsObject.LockSellAgrees` shows the source agrees for every base other than `_lockedIn` and `_locked` |
| BookInvariant.LockedShare | backend/routes/trading.js:152-184 | locking for a new order raises each pot by exactly that order's reservation |
| BookInvariant.PlacePositive | backend/routes/trading.js:116 | with positive price and quantity every stored order keeps positive price and quantity |
| BookInvariant.PlaceSpendable | backend/routes/trading.js:152-184 | placement never drives a spendable amount negative, since it locks only what is covered |
| BookInvariant.SpendableUpdate | backend/routes/trading.js:198-202 | replacing one portfolio by one with no negative spendable amount keeps all spendable amounts non-negative |
| BookInvariant.PlaceSolvent | backend/routes/trading.js:152-184 | with positive price and quantity placement keeps spendable amounts non-negative |
| BookInvariant.NegativePriceBuy | backend/routes/trading.js:116 | a BUY at price -1 is accepted and leaves `_lockedIn` negative and USDT above 10000 |
| BookInvariant.CancelBalanced | backend/routes/trading.js:336-413 | cancellation keeps the ledger invariant |
| BookInvariant.CancelPositive | backend/routes/trading.js:389-393 | cancellation keeps every order's price and quantity positive |
| BookInvariant.CancelSpendable | backend/routes/trading.js:378-393 | releasing an unfilled open order's funds keeps spendable amounts non-negative |
| BookInvariant.CancelSolvent | backend/routes/trading.js:378-393 | cancellation keeps spendable amounts non-negative |
| BookInvariant.WithPortfolioSolvent | backend/routes/trading.js:80-89 | creating a portfolio keeps the book solvent |
| BookInvariant.PlaceThenCancel | backend/routes/trading.js:378-393 | placing then cancelling succeeds and restores every amount of the user's portfolio; other users are untouched |
| BookInvariant.CancelTwice | backend/routes/trading.js:362-393 | a second cancel fails as not cancellable and changes nothing |
| BookInvariant.ExecuteBalanced | backend/utils/orderExecutor.js:158-243 | executing an open order keeps the ledger invariant |
| BookInvariant.ExecuteSolvent | backend/utils/orderExecutor.js:177-223 | executing at a non-negative price keeps spendable amounts non-negative |
| BookInvariant.ExecutedIsFinal | backend/utils/orderExecutor.js:226-233 | after execution the order is FILLED, no longer selected by a tick, and cannot be cancelled |
| BookInvariant.TickFrame | backend/utils/orderExecutor.js:121-149 | a tick leaves every order it was not given unchanged |
| BookInvariant.TickBalanced | backend/utils/orderExecutor.js:107-153 | a tick over open orders keeps the ledger invariant |
| BookInvariant.TickSolvent | backend/utils/orderExecutor.js:107-153 | a tick keeps the book solvent |
| BookInvariant.OpenOrdersAreTickInput | backend/utils/orderExecutor.js:110-117 | the selected open orders are stored rows, each once |
| BookInvariant.OpenOrdersIncreasing | backend/utils/orderExecutor.js:110-117 | selection keeps table order |
| BookInvariant.MatchOrdersSolvent | backend/utils/orderExecutor.js:107-153 | a full matching pass keeps the book solvent |
| BookInvariant.RefreshSolvent | backend/utils/orderExecutor.js:71-101 | a refresh with non-negative prices keeps the book solvent |
| Trading.GetPortfolio | backend/routes/trading.js:71-102 | the store becomes WithPortfolio of the old store, and the portfolio returned is the user's |
| Trading.PlaceOrder | backend/routes/trading.js:110-217 | the new store and the reply are those of Place on the old store |
| Trading.CancelOrder | backend/routes/trading.js:336-413 | the new store and the reply are those of Cancel on the old store |
| OrderExecutor.FetchRealPrices | backend/utils/orderExecutor.js:33-66 | the loop builds the price map of the price table |
| OrderExecutor.UpdateMarketData | backend/utils/orderExecutor.js:71-101 | the loop leaves the markets equal to Refresh of the old markets; nothing else changes |
| OrderExecutor.UpsertMarket | backend/utils/orderExecutor.js:76-94 | the store's markets become Upsert of the old markets; nothing else changes |
| OrderExecutor.RefreshMarkets | backend/utils/orderExecutor.js:75-97 | the loop leaves the markets equal to Refresh of the old markets over the bases; nothing else changes |
| OrderExecutor.ExecuteOrder | backend/utils/orderExecutor.js:158-243 | the store becomes Execute of the old store |
| OrderExecutor.MatchOrder | backend/utils/orderExecutor.js:121-147 | the store becomes Step of the old store for that order |
| OrderExecutor.MatchOrdersWithPrices | backend/utils/orderExecutor.js:107-153 | the loop leaves the store equal to MatchOrders of the old store |
| History.Given | backend/utils/history.js:12 | a meta value is used exactly when present and truthy |
| History.AmountValue | backend/utils/history.js:3 | `meta.amount`, else `meta.amt`, else 0 |
| History.FormattedAmount | backend/utils/history.js:4-6 | a number is shown as money with '$'; anything else verbatim |
| History.DotsToSpaces | backend/utils/history.js:40 | every '.' of the action becomes ' ', nothing else changes |
| History.TemplateFor | backend/utils/history.js:40-43 | the action's template if listed, else the default one |
| History.FormatHistoryMessage | backend/utils/history.js:2-44 | the formatter throws exactly when a truthy meta value has the wrong type for a template of the table |
| History.CreateHistoryEntry | backend/utils/history.js:46-52 | the entry keeps the action and meta, and its message is the formatter's |
| History.FormattableMeta | backend/utils/history.js:2-52 | a formattable meta never throws |
| History.BackendThrowsOnFieldsOnly | backend/utils/history.js:30 | the backend table throws exactly on a truthy non-array `fields` |
| History.LiteralTemplateIgnoresMeta | backend/utils/history.js:8-41 | a template of literal text ignores the meta |
| History.RenderAppend | backend/utils/history.js:8-41 | rendering distributes over concatenation |
| History.UnknownActionMessage | backend/utils/history.js:40-43 | an unknown action gives "Transaction - " and the action with dots as spaces |
| History.ProfileUpdatedMessage | backend/utils/history.js:30 | `profile.updated` lists the fields joined by ", ", or nothing when absent |
| History.FallbackMessage | backend/utils/history.js:12-43 | a template `literal + (meta[key] \|\| fallback)` renders the literal followed by the fallback when the key is absent |
| History.BrowserThrowsUnlessFormattable | js/userData.js:52-108 | the browser formatter throws exactly when the meta is not formattable, whatever the action |
| Backend.Message | backend/utils/history.js:46-52 | a stored row's message is the one createHistoryEntry makes from its action and meta, and it never throws |
| Backend.Fallback | backend/routes/deposit.js:24-25 | `s \|\| default`: the string unless missing or empty |
| Backend.WithOptional | backend/routes/deposit.js:35-40 | a key with an undefined value is left out, a defined one is stored |
| Backend.WithOptionalKeepsOthers | backend/routes/deposit.js:35-40 | every other key of the meta keeps its value |
| Backend.Database.Record | backend/routes/withdrawal.js:174-194 | one history row and one audit row are appended; users, withdrawals and deposits are unchanged |
| Backend.FindByEmail | backend/routes/auth.js:29 | the first user with that address, or none exactly when no user has it |
| Transfer.ParseAccount | backend/routes/transfer.js:24-27 | the three account names and nothing else |
| Transfer.CheckTransfer | backend/routes/transfer.js:16-27 | bad amount, then same account, then unknown account, each iff its condition; success names two distinct accounts |
| Transfer.Transferred | backend/routes/transfer.js:40-44 | source down by the amount, destination up, the third unchanged, the total unchanged, nothing else changed |
| Transfer.SubmitTransfer | backend/routes/transfer.js:12-81 | errors in the source's order change nothing; an amount up to the source balance succeeds and writes the user, one `transfer.completed` row and one audit row |
| Withdrawals.CheckWithdrawal | backend/routes/withdrawal.js:16-34 | bad amount, then frozen, then KYC lock, then amount > balance, each iff its condition |
| Withdrawals.SubmitWithdrawal | backend/routes/withdrawal.js:12-73 | a rejected request changes nothing; an accepted one appends one PENDING withdrawal and one history row, balance unchanged |
| Withdrawals.Approve | backend/routes/withdrawal.js:161-168 | status APPROVED with the approval time; owner and amount kept |
| Withdrawals.ApproveAndDebit | backend/routes/withdrawal.js:161-174 | the request becomes APPROVED and its owner's balance is lowered by its amount; the tables stay consistent |
| Withdrawals.ApproveWithdrawal | backend/routes/withdrawal.js:144-204 | non-admin, then unknown id, changing nothing; otherwise APPROVED and the balance lowered by the amount whatever the old status |
| Withdrawals.RejectWithdrawal | backend/routes/withdrawal.js:207-248 | REJECTED with reason defaulting to "Request denied"; balances unchanged |
| Deposits.NewDeposit | backend/routes/deposit.js:20-29 | PENDING, network TRC20 and asset USDT by default, expiring 30 minutes after creation |
| Deposits.SubmittedMeta | backend/routes/deposit.js:35-40 | the history meta keeps network and asset only when given |
| Deposits.CreditedAmount | backend/routes/deposit.js:119 | the given amount when non-zero, else the stored one |
| Deposits.SubmitDeposit | backend/routes/deposit.js:12-52 | a non-positive amount is refused; otherwise one PENDING deposit and one history row; no balance moves |
| Deposits.ConfirmDeposit | backend/routes/deposit.js:102-165 | non-admin, then unknown id, changing nothing; otherwise CONFIRMED and the balance credited, whatever the old status |
| Deposits.RejectDeposit | backend/routes/deposit.js:168-210 | REJECTED with reason defaulting to "Verification failed"; no balance moves |
| AiSubscription.ChooseTier | backend/routes/ai.js:32-113 | testing iff 100 <= amount <= 500 and covered by the testing balance; else deposited iff 100 <= amount <= 10000 and covered by the balance |
| AiSubscription.TodayCount | backend/routes/ai.js:42-58 | counts the day's `ai.subscription` rows of one user and tier: never more than the rows, zero exactly when no row counts, all exactly when every row counts |
| AiSubscription.SubscriptionMeta | backend/routes/ai.js:119-128 | the meta records the tier and profit = amount * rate |
| AiSubscription.SubscriptionRows | backend/routes/ai.js:116-137 | exactly two rows, `ai.subscription` then `ai.profit` |
| AiSubscription.Subscribed | backend/routes/ai.js:139-144 | only the chosen balance changes, by amount * (rate - 1) |
| AiSubscription.TodayCountAppend | backend/routes/ai.js:51-58 | the count of a concatenation is the sum of the counts |
| AiSubscription.SubscriptionCountsOnce | backend/routes/ai.js:116-137 | a subscription adds one to its own tier's count of its own user that day, and nothing elsewhere |
| AiSubscription.Subscribe | backend/routes/ai.js:12-190 | unknown user, then no tier, then the tier's daily cap, each changing nothing; otherwise the balance update and the two rows |
| AiSubscription.DailyCapKept | backend/routes/ai.js:60-103 | a day never holds more subscriptions of a tier than its cap |
| Auth.LocalPart | backend/routes/auth.js:46 | the address up to the first '@' |
| Auth.NewUser | backend/routes/auth.js:42-50 | unverified, zero balances, a code expiring 15 minutes later |
| Auth.CheckCode | backend/routes/auth.js:226-233 | wrong code, then missing or past expiry, each iff its condition |
| Auth.CheckLogin | backend/routes/auth.js:109-122 | the same error for an unknown address and a wrong password; frozen only after the password matched |
| Auth.Verified | backend/routes/auth.js:236-242 | verified, with code and expiry cleared |
| Auth.PasswordReset | backend/routes/auth.js:416-423 | new password hash, code and expiry cleared |
| Auth.Register | backend/routes/auth.js:13-87 | invalid input, then taken address, changing nothing; otherwise one new user at the end and one history row |
| Auth.Login | backend/routes/auth.js:90-163 | the result of CheckLogin; success records the login time and one history row |
| Auth.VerifyEmail | backend/routes/auth.js:198-270 | unknown user, already verified, wrong code, expired, in that order; success verifies the user |
| Auth.ResendVerification | backend/routes/auth.js:273-323 | refuses a verified user; otherwise a new code expiring 15 minutes later |
| Auth.ForgotPassword | backend/routes/auth.js:326-375 | the same reply whether or not the address exists; a known user gets a new code |
| Auth.ResetPassword | backend/routes/auth.js:378-441 | unknown user, then wrong or expired code; success sets the new password and clears the code |
| Auth.RegisterKeepsEmailsDistinct | backend/routes/auth.js:29-50 | registration keeps addresses distinct |
| Auth.RegisterThenLogin | backend/routes/auth.js:109-122 | a new user can log in with the registered password |
| Auth.RegistrationCodeVerifies | backend/routes/auth.js:226-233 | the registration code verifies until its expiry and not after |
| Auth.CodeNotReusable | backend/routes/auth.js:236-251 | after verification or a reset the old code is refused |
| Auth.ResetThenLogin | backend/routes/auth.js:416-423 | after a reset the old password fails and the new one logs in |
| Csv.Escape | js/userData.js:330 | escaping never shortens a cell; a lone '"' becomes '""' |
| Csv.EscapeChar | js/userData.js:330 | one character: '"' is doubled, any other character is kept |
| Csv.EscapeAppend | js/userData.js:330 | the escape of a concatenation is the concatenation of the escapes, so escaping works character by character |
| Csv.EscapeQuoteFree | js/userData.js:330 | a cell without '"' is written unchanged |
| Csv.UnescapeEscape | js/userData.js:330 | reading an escaped cell gives the cell back |
| Csv.ParseRow | js/userData.js:330 | reading a written row gives its cells back |
| Csv.DecodeEncode | js/userData.js:329-330 | reading an export gives back exactly the rows written |
| BrowserSim.UserIndex | js/userData.js:47 | the first user with that id, or none exactly when no user has it |
| BrowserSim.EmailIndex | js/userData.js:125 | the first user with that address, or none exactly when none has it |
| BrowserSim.RequestIndex | js/userData.js:250 | the first request with that id, or none exactly when none has it |
| BrowserSim.UserIndexByIds | js/userData.js:47 | the id lookup depends only on the ids |
| BrowserSim.Lower | js/userData.js:143 | ASCII capitals become lower case, nothing else changes |
| BrowserSim.Trim | js/userData.js:144 | the slice of the text between its leading and its trailing white space, and it neither starts nor ends with white space |
| BrowserSim.JsLength | js/userData.js:136 | `.length` in UTF-16 code units: between the number of characters and twice it, and 0 only for the empty text |
| BrowserSim.JsLengthBmp | js/userData.js:136 | text with no character beyond U+FFFF has one code unit per character |
| BrowserSim.AstralCountsTwice | js/userData.js:350 | "ab😀cd" has five characters but length 6, so it passes the six-character check |
| BrowserSim.EntryMessage | js/userData.js:110-113 | an entry's message is the browser formatter's message for its action and meta |
| BrowserSim.WithHistory | js/userData.js:110-115 | the new entry is put first in the user's history; an unknown user, or a meta the formatter throws on, changes nothing |
| BrowserSim.AuditAppendCapped | js/userData.js:385-387 | the log never exceeds 1000 events; the oldest goes first |
| BrowserSim.GetAuditLog | js/userData.js:394-397 | the last `limit` events, newest first |
| BrowserSim.ExportUserCSV | js/userData.js:327-331 | an export exists exactly for a known user |
| BrowserSim.ExportReadsBack | js/userData.js:327-331 | an export reads back as the header and one row per history entry |
| BrowserSim.RegisterError | js/userData.js:118-138 | the checks as written: missing field, then raw-address duplicate, then format, then a password shorter than 6 UTF-16 code units |
| BrowserSim.NewSimUser | js/userData.js:141-157 | address lower-cased, name trimmed, balance 500 and 300/150/50 |
| BrowserSim.RegisterErrorFolded | js/userData.js:118-138 | the same checks with the duplicate test on the lower-cased address |
| BrowserSim.ShapedAt | js/userData.js:130-131 | an address of letters and dots with one '@' not at either end and a '.' inside the domain matches the format check |
| BrowserSim.RegisterAcceptsCaseVariant | js/userData.js:125-127 | the as-written check accepts "Alice@test.local" next to the seeded alice |
| BrowserSim.CaseVariantSharesAddress | js/userData.js:141-159 | that user is stored under alice's address, which then belongs to two users |
| BrowserSim.RegisterFoldedKeepsEmailsDistinct | js/userData.js:118-164 | the corrected check keeps addresses distinct and the new user is found by login |
| BrowserSim.WithdrawalError | js/userData.js:235-238 | unknown, then frozen, then KYC lock, then bad amount, each iff its condition |
| BrowserSim.SubscribeError | js/userData.js:313-316 | unknown, then frozen, then amount outside [30, 3000], then above the balance |
| BrowserSim.ChangePasswordError | js/userData.js:348-351 | unknown, then wrong old password, then shorter than 6 UTF-16 code units, then unchanged |
| BrowserSim.DefaultEmailsDistinct | js/userData.js:10-16 | the seeded users have distinct addresses |
| BrowserSim.Simulation.constructor | js/userData.js:10-16 | the seeded users with distinct addresses, "u1" signed in, nothing else |
| BrowserSim.Simulation.AddHistory | js/userData.js:110-115 | users become WithHistory of the old users; throws exactly when the user exists and the meta is not formattable |
| BrowserSim.Simulation.RegisterUser | js/userData.js:118-164 | refused exactly when the as-written checks (`RegisterError`) fail; otherwise the new user appended, with its `account.created` entry |
| BrowserSim.Simulation.RegisterUserFolded | js/userData.js:118-164 | the corrected check: refused exactly when `RegisterErrorFolded` fails; otherwise the new user is appended, login's lookup finds it, and distinct addresses stay distinct |
| BrowserSim.SameEmails | js/userData.js:172 | the address lookup and address distinctness read only the addresses |
| BrowserSim.Simulation.LoginUser | js/userData.js:167-186 | missing input, unknown lower-cased address, wrong password; success signs the user in and logs it |
| BrowserSim.Simulation.RequestWithdrawal | js/userData.js:234-246 | refused exactly on WithdrawalError; otherwise one pending request first and the balance unchanged |
| BrowserSim.Simulation.AdminApproveWithdrawal | js/userData.js:248-260 | false exactly for an unknown id; approve deducts the amount, reject leaves balances alone |
| BrowserSim.Simulation.SubscribeAI | js/userData.js:312-324 | refused exactly on SubscribeError; otherwise the balance lowered by the amount and one running cycle with roi 0.0015 |
| BrowserSim.Simulation.ChangePassword | js/userData.js:347-356 | refused exactly on ChangePasswordError; otherwise only the password changes, with one history entry |
| BrowserSim.Simulation.LogAuditEvent | js/userData.js:376-391 | the event is appended and the log capped at 1000 |

## Left out

- The executor's `setInterval` timers and any interleaving of ticks with
  requests. A tick is one sequential loop, and a route is one atomic step.
- The CoinGecko request. Its JSON answer is a parameter (`map<string, CoinQuote>`).
- Prisma persistence, Express routing, middleware and authentication tokens.
  Passwords are hashed by an opaque `hash` function. JWT issuance and e-mail
  sending are not modelled. Request validation by `express-validator` on
  auth routes is the boolean `emailOk` plus the length checks;
  `normalizeEmail` is not modelled. Auth.Register receives the name already
  trimmed by `body('name').optional().trim()`.
- Local storage in the browser simulation, `Date.now()` and `new Date()`.
  Timestamps, ids and verification codes are parameters.
- Floating point. Amounts are exact reals. `Number(x.toFixed(2))`,
  `toLocaleString` and `toFixed(2)` are opaque functions. A NaN produced by
  arithmetic on a missing key is not modelled.
- `JSON.stringify`/`JSON.parse` of metas. A history meta is a map, and a
  meta that fails to parse is not modelled.
- The stored message text of a history entry. A backend history row and a
  browser history entry keep their action and meta, and the message is
  derived from them by the formatter (`Backend.Message`,
  `BrowserSim.EntryMessage`). It is the same text the source stores.
- Action names that are inherited object properties (such as `constructor`)
  in the message table lookup.
- `toLowerCase` beyond ASCII, and `trim` beyond the white-space characters
  listed in `IsSpace`.
- GET routes other than the portfolio and the two order listings, and the
  other functions of js/userData.js (admin balance tools, announcements,
  tickets, analytics).
- Auth.Register, Auth.VerifyEmail and Auth.ResetPassword: the model counts
  a password or a code in characters. The source counts it with express-validator's `isLength`,
  whose own counting is not part of this model.
- OrderBook.Cancel: when the order exists but its owner has no portfolio, the
  source throws (a 500 reply). The model returns `PortfolioMissing` and
  changes nothing; a balanced book never reaches this case.
- OrderExecutor.ExecuteOrder: requires `order.id` to be a stored row, because
  the model updates the row at that position. The source updates by id and
  would throw on a missing one.
- BrowserSim.Simulation.SubscribeAI: the new balance is `round2(balance - amount)`
  through the opaque rounding, so the contract says the rounded value rather
  than exactly `balance - amount`.
- BrowserSim.Simulation.AdminApproveWithdrawal: the new balance is the rounded
  `round2(balance - amount)`, as above.
- Ledger.Portfolio: the three parts of the source's `assets` object are
  three fields, so a base asset named `_lockedIn` or `_locked` reads as an
  empty balance and a SELL of it is refused. In the source such a base
  aliases a pot; `AssetsObject` models that case (see Findings).
- BookInvariant.PlaceBalanced (and `Balanced`, `Solvent` and the lemmas that
  keep them) holds for the source only for base assets other than
  `_lockedIn` and `_locked`; for those two the source breaks the invariant
  (`AssetsObject.LockedInAliasBreaksPot`,
  `AssetsObject.LockedAliasErasesReservations`).
- Transfer.SubmitTransfer: for a caller with no user row the source
  dereferences a missing user and answers 500 with nothing written; the
  model returns `UserNotFound` and changes nothing.
- Withdrawals.SubmitWithdrawal: the same; the source reads `user.frozen` of
  a missing user and answers 500.
- Deposits.SubmitDeposit: the same; the source's insert fails on the missing
  user and it answers 500.
- Orders.ListOrderHistory: states membership and the page size, not which
  page of the newest-first list is returned.
- OrderBook.Tick: its own contract states only what a tick keeps. What a tick
  does is stated by `TickSnoc`, `TickFrame`, `TickBalanced` and `TickSolvent`.

## Findings

| source | as written | input that shows it | evidently intended | confidence | as-written member | corrected member |
|---|---|---|---|---|---|---|
| js/userData.js:125-143 | `registerUser` looks for a duplicate with the address as typed, then stores it lower-cased | registering "Alice@test.local" with password "secret1" and name "Al" next to the seeded "alice@test.local" | the duplicate check compares the lower-cased address, the one that is stored and that login looks up | high, not executed | BrowserSim.RegisterAcceptsCaseVariant | BrowserSim.RegisterFoldedKeepsEmailsDistinct |
| backend/routes/trading.js:170-183 | a SELL reads and writes its base asset in the same `assets` object that holds the pots `_lockedIn` and `_locked` | a user whose open BUY orders hold 100 USDT places a SELL of "_lockedIn/USDT" for quantity 100: it is accepted and `_lockedIn` drops to 0; a SELL of "_locked/USDT" for quantity 1 erases every SELL reservation | the pots are not assets: a SELL of `_lockedIn` or `_locked` is refused for lack of balance, and every pot keeps matching the open orders | medium, not executed | AssetsObject.LockedInAliasBreaksPot | BookInvariant.PlaceBalanced |
