# Trial-token ledger of the BlackPsyhology Telegram bot

The bot hands every new Telegram user a trial: ten tokens to spend within
three days. Each `/search` spends one token. When the trial is over or the
tokens run out, the user buys a bundle and an administrator confirms the
payment by hand. This project models that ledger in Dafny:

- the SQLite store of database.py (`users` and `payments` tables) and the
  trial policy computed from it (module `Ledger`, module `Trial`);
- the second copy of the store that bot.py carries, and the decision logic
  of its command handlers `/start`, `/search`, `/profile`, `/buy_10` …
  `/buy_100` (module `Bot`);
- the payment handler of payment.py: the `PAY-{user}-{amount}-{price}`
  reference, the manual confirmation that credits tokens and logs a
  payment, and the fixed bundle table (module `PaymentHandler`, with the
  decimal rendering of integers in module `Decimal`);
- how bot.py unpacks rows of the shared `users.db` (module `Columns`);
- multi-command runs of one sender (module `Scenarios`);
- the constants of config.py (module `Config`).

The store is a pair of sequences in rowid order. `SELECT … fetchone()` is
the first matching row. `UPDATE … WHERE` rewrites every matching row, and
`rowcount > 0` says whether any row matched. `Ledger.Wf` states the
schema's constraints: ids are `1, 2, …` in insertion order because rows
are never deleted, and `telegram_id` is unique. Every operation requires
`Wf` and preserves it.

Time is an integer count of seconds passed in as `now`. Whole days elapsed
are `(now - created) / 86400`, which floors like Python's
`timedelta.days`. A handler is modelled by the branch it takes and the
store it leaves behind, not by the text it sends. When a Python exception
would escape a handler, the model returns a `Crashed`/`Raised` outcome, and
the contracts prove that outcome never happens on a well-formed store,
under the by-name reading of rows that "## Findings" argues was intended.
As written, bot.py reads the shared file by position and `/profile` raises
for every account (module `Columns`).

Members whose names begin with `Bot` (`Bot.BotCreateUser`,
`Trial.BotStatusOf`, `Columns.BotLayout`, …) model bot.py's own copy of
the store, the one every command handler uses (bot.py:123). database.py's
copy is reached only through payment.py. The two copies agree with each
other:

- bot.py's `create_user` has the same effect as database.py's, except that
  a duplicate Telegram id raises instead of returning None.
- bot.py's read-then-decrement `use_token` is, for one caller at a time,
  exactly database.py's conditional decrement.
- bot.py's `is_active` (`days_remaining > 0`) is database.py's
  (`days < 3`).
- bot.py's `add_tokens` issues the same SQL as database.py's.
  `update_last_access` is the same UPDATE by id; bot.py stamps Python's
  local time where database.py uses SQLite's UTC clock, which the model's
  single integer clock does not tell apart. The model uses one definition
  for each.

## Model

| member | source | states |
|---|---|---|
| Trial.DaysElapsed | database.py:162-164 | the day count `d` satisfies `d·86400 ≤ now − created < (d+1)·86400`, i.e. whole days rounded down as `timedelta.days` does |
| Trial.StatusOf | database.py:160-171 | tokens are echoed; `has_tokens` iff the balance is positive; `is_active` iff less than three days (259200 s) have passed, iff `days_remaining > 0`; `days_remaining` is ≥ 0, at most 3 when the creation time is not in the future and more than 3 when it is; while active it pins the elapsed time to its day |
| Trial.BotStatusOf | bot.py:97-107 | bot.py's status (active iff `days_remaining > 0`) equals database.py's (active iff `days < 3`) on every input |
| Trial.ExpiryIsPermanent | database.py:164-169 | once inactive, an account stays inactive with zero days remaining at every later time, whatever its balance |
| Trial.TrialBoundaries | database.py:164-169 | a fresh account is active with 3 days left; at 2 days 23 hours it is active with 1 day left; at exactly 3 days and at 4 days it is inactive |
| Ledger.FirstFrom | database.py:49-54 | `fetchone()` returns the first matching row at or after the start, or None iff no row matches |
| Ledger.SelectFindsRow | database.py:16-27 | with ids and Telegram ids unique, a lookup returns the one matching row, or None iff there is none |
| Ledger.GetUser | database.py:44-68 | None iff no row has that Telegram id; otherwise the row with that Telegram id, stored at index id − 1 |
| Ledger.CreateUser | database.py:70-107 | for a new Telegram id, appends one row with a fresh id, the given names, 10 tokens and both timestamps now, and `get_user` then finds it; for a known id, returns None and changes nothing; keeps the schema constraints and non-negative balances |
| Ledger.UpdateWhereOneRow | database.py:109-146 | an UPDATE by id matches a row iff the id exists and the extra condition holds, and then rewrites only that row; otherwise nothing changes |
| Ledger.UseToken | database.py:121-134 | succeeds iff the id exists with a positive balance; on success exactly that balance drops by one; on failure nothing changes; balances stay non-negative |
| Ledger.AddTokens | database.py:136-146 | adds the amount to exactly the row with that id, or changes nothing for an unknown id; balances stay non-negative when the amount is |
| Ledger.UpdateLastAccess | database.py:109-119 | sets the access time of exactly the row with that id, or changes nothing |
| Ledger.TokenStatus | database.py:148-173 | None iff the id is unknown; otherwise the trial status of that row's balance and creation time |
| Ledger.AddPayment | database.py:175-189 | appends exactly one payment row with the given fields and returns its id, which no earlier payment has; the users table is unchanged |
| Ledger.Run | database.py:16-39 | any sequence of store calls keeps ids sequential and Telegram ids unique |
| Ledger.RunKeepsBalancesNonNegative | database.py:121-146 | no sequence of store calls makes a balance negative, provided every top-up is non-negative |
| Decimal.ShowNat | payment.py:33 | the rendering of a number is a non-empty run of digits without a leading zero |
| Decimal.ParseShow | payment.py:33 | reading back the digits of a rendered number gives the number |
| PaymentHandler.ReferenceRoundTrip | payment.py:33 | for non-negative numbers, reading back `PAY-{user}-{amount}-{price}` recovers the triple |
| PaymentHandler.ReferenceInjective | payment.py:33 | two different non-negative triples never share a reference |
| PaymentHandler.ProcessPaymentConfirmation | payment.py:39-64 | always reports success; credits the amount to the user when the id exists and changes no balance otherwise; logs exactly one new payment of 10 roubles per token, with a fresh id, after the unchanged earlier payments; keeps balances non-negative for a non-negative amount |
| PaymentHandler.PaymentOptions | payment.py:66-78 | four bundles, each of a positive amount at 10 roubles per token |
| PaymentHandler.OptionsKeyedByAmount | payment.py:73-78 | each bundle's key is its token count followed by `_tokens` |
| Bot.BotCreateUser | bot.py:58-66 | raises iff the Telegram id is already registered; otherwise has the same effect as database.py's `create_user` and returns the new row with 10 tokens and both timestamps now |
| Bot.BotUseToken | bot.py:73-85 | read-then-decrement gives the same result and store as the conditional decrement of database.py |
| Bot.BotTokenStatus | bot.py:91-107 | gives the same status as database.py's `get_user_token_status` |
| Bot.FindOrCreate | bot.py:179-186 | always yields an account that `get_user` then finds; a registered sender's store is unchanged; a new sender gets one appended row with 10 tokens; payments and non-negative balances are kept |
| Bot.FindOrCreateIdempotent | bot.py:132-139 | after find-or-create the sender has exactly one account, and running it again returns the same account and changes nothing |
| Bot.RegisteredOnce | bot.py:38-40 | a registered Telegram user has exactly one row |
| Bot.Start | bot.py:127-146 | under the corrected reading of rows, `/start` shows the stored balance of a known sender without changing the store, and 10 for a new sender it registers |
| Bot.SearchAccount | bot.py:188-218 | an expired trial is refused and changes nothing; an active account with no tokens is refused and changes nothing; otherwise one token is spent, the access time is stamped, and the balance read before the spend, minus one, is shown with the days remaining |
| Bot.Search | bot.py:175-218 | `/search` only ever answers expired, out of tokens, or results; it never takes the "could not use a token" branch nor aborts; it keeps payments and non-negative balances |
| Bot.SearchRegistered | bot.py:190-213 | for a registered sender, `/search` is the account step above on their row |
| Bot.SearchFirstTime | bot.py:179-213 | a first-time sender is registered and served at once: results with 9 tokens left and 3 days remaining |
| Bot.ExpiryCheckedBeforeBalance | bot.py:190-200 | an expired account with no tokens is told the trial is over, not that tokens ran out |
| Bot.Profile | bot.py:221-246 | under the corrected reading of rows, `/profile` changes nothing for a known sender and shows the account's first name, activity, balance, registration time and days remaining |
| Bot.BuyTokens | bot.py:277-288 | "user not found" iff the sender has no account (no account is created); otherwise the shown reference reads back as the account id, amount and price |
| Bot.BundleOf | bot.py:291-308 | each purchase command sells a positive bundle at 10 roubles per token, and that bundle is listed by the payment handler |
| Bot.CommandsMatchOptions | bot.py:291-308 | the four commands sell exactly the four listed bundles, each by a different command |
| Bot.Buy | bot.py:291-308 | a purchase command answers "user not found" iff the sender is unknown; otherwise its reference reads back as the account id and the command's bundle |
| Bot.Buy25Reference | bot.py:296-298 | a known sender's `/buy_25` reference is `PAY-{id}-25-250` |
| Scenarios.SearchesSpendOneEach | bot.py:188-213 | while the trial lasts and the balance covers them, searches at a sequence of times spend one token each from the sender's row, leave its access time at the last search's time, and change nothing else |
| Scenarios.SearchesAtAppend | bot.py:179-218 | searching at the times `a` and then at the times `b` leaves the same store as searching at `a + b` |
| Scenarios.SearchesAfterExpiry | bot.py:188-194 | once a registered sender's trial is over, any further searches change nothing: neither the balance nor the access time |
| Scenarios.TrialLapsesMidRun | bot.py:188-213 | when the trial ends part-way through a run, the row keeps the balance and access time left by the last search inside the trial |
| Scenarios.StartThenSearches | bot.py:127-218 | a new sender who sends `/start` and then searches at n ≤ 10 times within the trial ends with 10 − n tokens and the access time of the last search (the registration time if none), and no other row changes |
| Columns.BotGetRowNeedsBotLayout | bot.py:109-119 | unpacking `SELECT *` by position reproduces the account iff the table has bot.py's own column order |
| Columns.SharedFileSwapsColumns | bot.py:109-119 | in the shared file, the dictionary's `tokens` holds the creation time and its `created_at` holds the balance |
| Columns.ProfileCrashesAsWritten | bot.py:236 | as written, `/profile` fails on every account in the shared file |
| Columns.GetRowReadsBack | bot.py:51-56 | a query that names its columns reads every account back faithfully, and agrees with positional unpacking of bot.py's own table |
| Columns.ProfileReadsRegistration | bot.py:236 | with named columns, which need no assumption about which table was created first, `/profile` obtains every account's registration time |

## Left out

- Telegram I/O: message texts, the `/help` text, the recharge button and its menu, keyboards, `reply_text` versus `send_message`, and logging are outside the ledger.
- `get_black_psychology_content` and the recharge text handler only produce fixed text.
- `main`, bot start-up and loading configuration from the environment are not modelled.
- The admin contact (config.py) appears only in message text.
- database.py stamps rows with SQLite's `CURRENT_TIMESTAMP` (UTC) but compares with local `datetime.now()`. bot.py's `create_user` and `update_last_access` (bot.py:59-63, 69-70) stamp local `datetime.now()` instead. The model uses one integer clock, so a time-zone offset between the two copies is not modelled.
- A creation time in the future gives more than 3 days remaining (database.py:164-168 computes `3 - days` with negative `days`). This happens in the source when local time is behind UTC. Trial.StatusOf states it but the model does not correct it.
- Concurrency is not modelled. Handlers run one at a time, and so does the read-then-decrement race in bot.py's `use_token` (bot.py:74-83).
- The payments table's `amount` column is REAL. It is modelled as an integer, since it is always 10 × tokens.
- The `transaction_id` parameter of `process_payment_confirmation` is unused and is omitted.
- The `except` branch of `process_payment_confirmation` (payment.py:62-64) catches database exceptions. The model has none, so that branch is not modelled.
- `generate_payment_info` is modelled by its reference line only. The rest of its message is fixed text.
- The two `CREATE TABLE` statements also differ in their defaults and NOT NULL constraints. Only the column order matters to the model (module `Columns`).
- Every store operation requires `Ledger.Wf`, the schema's constraints, and preserves it. Stores that violate the schema are not modelled.
- PaymentHandler.ParseReference is a reader written for the model, not a function of the source. It states that the reference is unambiguous for non-negative numbers. Negative ids or amounts are not covered by the round trip.
- Bot.Start: models the corrected by-name reading of rows. As written, in the shared file the greeting shows the creation timestamp as the balance (bot.py:144-146); see "## Findings" and Columns.SharedFileSwapsColumns.
- Bot.Profile: models the corrected by-name reading of rows. As written, `/profile` raises on every account of the shared file (bot.py:236); see "## Findings" and Columns.ProfileCrashesAsWritten.
- Bot.Search: its own contract gives only the shape of the reply. The branch-by-branch behaviour is in Bot.SearchAccount, Bot.SearchRegistered and Bot.SearchFirstTime.
- The rest of the model reads rows field by field. That is the corrected reading of module `Columns`, and Columns.GetRowReadsBack shows it equals reading by column name. So Bot.Start and Bot.Profile show the true balance and registration time. The swapped greeting of the as-written `/start` appears only in Columns.SharedFileSwapsColumns.

## Findings

| source | as written | input that shows it | evidently intended | confidence | as-written member | corrected member |
|---|---|---|---|---|---|---|
| bot.py:109-119 | bot.py's `get_user` reads `SELECT *` and unpacks it by position in the column order of its own `CREATE TABLE` (`created_at` at 5, `tokens` at 6). But bot.py imports the payment module first (bot.py:13), and that module's singleton creates `users.db` with database.py's order (`tokens` at 5, `created_at` at 6). bot.py's `CREATE TABLE IF NOT EXISTS` then does nothing. | Start from a fresh `users.db`, then any user sends `/profile`: `datetime.fromisoformat` receives the integer balance and raises. `/start` shows the creation timestamp as the token count. | read the columns by name, as database.py does | high (not executed) | Columns.ProfileCrashesAsWritten | Columns.ProfileReadsRegistration |
