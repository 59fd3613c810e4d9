# numbers-bot-admin, modelled in Dafny

This project models the administrative back end of a marketplace for rented phone numbers. Four tables are kept: buyers, sellers, numbers and billing records. Sellers supply numbers, buyers rent them, and an operator:

- moves numbers through their lifecycle (`available`, `rented`, `accepted`, `completed`, `cancelled`, `returned_to_queue`);
- applies "stopwork" to a buyer, which reclaims the buyer's accepted numbers and bans the buyer;
- searches numbers by optional criteria;
- produces a buyer's daily invoice;
- pages through a buyer's payment history;
- bans, unbans, creates and updates buyers and sellers.

Each table is a `map` from id to row. The class `Marketplace.Store` holds the four tables and the buyer and seller id sequences. Its methods are the handlers that change state, and `Store.Valid()` holds the table constraints: serial primary keys, the unique columns `chat_id`, `telegram_id` and `phone_number`, a non-null `ban_reason` on every banned buyer, and sequences ahead of every stored id. Every method preserves `Valid()` and states its whole new state. The row-level effect of each change is a pure function with its own contract (modules `NumberLifecycle`, `BuyerAdmin`, `SellerAdmin`, `Stopwork`). The read-only handlers are pure functions (`DailyInvoice`, `PaymentHistory`). The number search is a method that assembles its list of SQL conditions one `push` at a time (`NumberFilter`).

Supporting modules:

- `Money`: the `numeric(10,2)` columns as integer cents, with their decimal text and its round trip.
- `Digits`: decimal digit characters and digit strings, shared by the date and money texts.
- `Calendar`: the `YYYY-MM-DD` date, the day count and the day's first second.
- `Text`: ASCII case folding and the `ILIKE` pattern matcher.
- `Schema`: rows, enums, input validators, defaults and table constraints.
- `Tables`: scans a map in ascending key order.

The current time is the parameter `now`. A timestamp is an integer count of seconds.

Stopwork's bulk update (server/src/handlers/stopwork_buyer.ts:44-48) writes only `status`, `buyer_id` and `updated_at`. Unlike a status write to `returned_to_queue`, it keeps `rented_at`; `Stopwork.ReclaimKeepsRentalTime` states the difference.

## Model

| member | source | states |
|---|---|---|
| NumberLifecycle.WithStatus | server/src/handlers/update_number_status.ts:9-28 | the new status is the requested one; `completed_at` is set to now exactly for `completed` and null otherwise; `returned_to_queue` and `cancelled` null `buyer_id` and `rented_at`, other statuses keep them; every other column is kept and `updated_at` is now |
| NumberLifecycle.WithStatusIdempotent | server/src/handlers/update_number_status.ts:15-28 | writing the same status twice equals writing it once at the later time |
| NumberLifecycle.WithStatusIgnoresPriorStatus | server/src/handlers/update_number_status.ts:9-12 | the outcome does not depend on the prior status: there is no forbidden transition |
| Marketplace.Store.UpdateNumberStatus | server/src/handlers/update_number_status.ts:31-39 | a known id gets the status write on that row only; an unknown id gives NotFound and leaves every table unchanged |
| Stopwork.AcceptedBy | server/src/handlers/stopwork_buyer.ts:29-37 | an id is selected iff its row holds this buyer and has status `accepted` |
| Stopwork.Reclaimed | server/src/handlers/stopwork_buyer.ts:44-48 | a reclaimed number is `returned_to_queue` with a null buyer and `updated_at` now, keeping `rented_at`, `completed_at`, seller, price and the other columns |
| Stopwork.ReclaimAll | server/src/handlers/stopwork_buyer.ts:42-55 | the bulk update keeps the table's key set; its partner `Stopwork.ReclaimAllChangesExactlyAccepted` proves that a row changes iff it is one of the buyer's accepted numbers, and that each such row becomes `Reclaimed` of its old value |
| Stopwork.NoAcceptedLeft | server/src/handlers/stopwork_buyer.ts:42-55 | after the reclaim the buyer holds no accepted number |
| Stopwork.ReclaimAllChangesExactlyAccepted | server/src/handlers/stopwork_buyer.ts:42-55 | a row changes iff it is one of the buyer's accepted numbers; each such row becomes `returned_to_queue` with a null `buyer_id`, `updated_at` now, and `rented_at`, `completed_at`, seller, price and phone number kept; other statuses and other buyers' numbers are untouched |
| Stopwork.ReclaimedCountIsChangedCount | server/src/handlers/stopwork_buyer.ts:68-70 | the count in the message equals the number of rows the update changed |
| Stopwork.ReclaimAllKeepsConstraints | server/src/handlers/stopwork_buyer.ts:43-55 | the reclaim keeps the numbers table keyed and its phone numbers unique |
| Stopwork.ReclaimKeepsRentalTime | server/src/handlers/stopwork_buyer.ts:44-48 | the reclaim keeps `rented_at`, which the status write to `returned_to_queue` clears, so the two differ whenever a rental time is present |
| Marketplace.Store.StopworkBuyer | server/src/handlers/stopwork_buyer.ts:9-75 | an unknown or already banned buyer gives a failure reply and changes nothing; otherwise the buyer's accepted numbers are reclaimed, the buyer is banned with the fixed reason, and the reply is success with the reclaimed count (0 included) |
| BuyerAdmin.WithBan | server/src/handlers/ban_buyer.ts:10-14 | the buyer is banned with exactly the given reason (an empty one too); profile fields are kept and `updated_at` is now |
| BuyerAdmin.BanOverwritesReason | server/src/handlers/ban_buyer.ts:12 | a second ban replaces the first reason entirely |
| Marketplace.Store.BanBuyer | server/src/handlers/ban_buyer.ts:9-21 | only the targeted row changes; an unknown id gives NotFound and no change |
| BuyerAdmin.WithoutBan | server/src/handlers/unban_buyer.ts:10-14 | the ban flag is false and the reason null; profile fields are kept and `updated_at` is now |
| BuyerAdmin.UnbanIdempotent | server/src/handlers/unban_buyer.ts:10-14 | unbanning twice is unbanning once |
| BuyerAdmin.UnbanUndoesBan | server/src/handlers/unban_buyer.ts:10-14 | unbanning after a ban leaves no trace of the ban |
| Marketplace.Store.UnbanBuyer | server/src/handlers/unban_buyer.ts:9-21 | only the targeted row changes; an unknown id gives NotFound and no change |
| BuyerAdmin.WithPatch | server/src/handlers/update_buyer.ts:9-21 | name, mode and cap take the supplied value or keep the old one; `chat_id`, ban flag, reason and `created_at` never change; `updated_at` is now |
| BuyerAdmin.EmptyPatchOnlyTouches | server/src/handlers/update_buyer.ts:9-21 | an update supplying no field changes only `updated_at` |
| Marketplace.Store.UpdateBuyer | server/src/handlers/update_buyer.ts:24-32 | only the targeted row changes; an unknown id gives NotFound and no change |
| SellerAdmin.TextOr | server/src/handlers/ban_seller.ts:12 | JavaScript `text \|\| fallback`: an absent or empty text yields the fallback, any other text itself |
| SellerAdmin.WithSellerBan | server/src/handlers/ban_seller.ts:10-14 | status `banned`; the comment is the given one, or "Banned by administrator" when absent or empty; `telegram_id`, bonus and `created_at` kept; `updated_at` now |
| SellerAdmin.BanIgnoresPriorState | server/src/handlers/ban_seller.ts:10-14 | the ban does not depend on the prior status, and repeating it changes only the time |
| Marketplace.Store.BanSeller | server/src/handlers/ban_seller.ts:9-21 | only the targeted row changes; an unknown id gives NotFound and no change |
| SellerAdmin.WithSellerPatch | server/src/handlers/update_seller.ts:9-23 | status, comment and bonus take the supplied value or keep the old one; `telegram_id` and `created_at` never change; `updated_at` is now |
| SellerAdmin.PatchCommentNullVersusOmitted | server/src/handlers/update_seller.ts:17-19 | an explicit null comment clears the comment, an omitted one keeps it |
| Marketplace.Store.UpdateSeller | server/src/handlers/update_seller.ts:26-34 | only the targeted row changes; an unknown id gives NotFound and no change |
| BuyerAdmin.NewBuyer | server/src/handlers/create_buyer.ts:9-16 | the new row copies name, mode, `chat_id` and cap, is not banned and has no reason |
| Marketplace.Store.CreateBuyer | server/src/handlers/create_buyer.ts:8-18 | a taken `chat_id` gives DuplicateKey and no table change; otherwise the row is stored under a fresh id and the table grows by exactly one |
| SellerAdmin.NewSeller | server/src/handlers/create_seller.ts:11-16 | the new row stores `telegram_id`, status and bonus as given, and an absent or empty comment as null |
| Marketplace.Store.CreateSeller | server/src/handlers/create_seller.ts:7-18 | invalid input is rejected before any insert; a taken `telegram_id` gives DuplicateKey and no table change; otherwise the defaulted row is stored under a fresh id and the table grows by one |
| NumberFilter.BuildConditions | server/src/handlers/filter_numbers.ts:9-39 | at most six conditions, none iff no criterion is truthy, and a row satisfies all of them iff it satisfies the reference predicate `Matches`; the list is the criteria's conditions in the handler's order |
| NumberFilter.ConditionsMeanMatches | server/src/handlers/filter_numbers.ts:11-39 | a row satisfies the AND of the built conditions iff it satisfies every truthy criterion |
| NumberFilter.FilterNumbers | server/src/handlers/filter_numbers.ts:42-50 | every returned row is a stored row that matches, every matching stored row is returned, and there is one result per matching id |
| NumberFilter.NoCriteriaMatchesAll | server/src/handlers/filter_numbers.ts:42-44 | with no criterion every row matches |
| NumberFilter.MatchesIsIntersection | server/src/handlers/filter_numbers.ts:42-43 | the search is the intersection of the six single-criterion searches |
| NumberFilter.NarrowingShrinks | server/src/handlers/filter_numbers.ts:43 | adding criteria never admits a row the coarser search rejected |
| NumberFilter.FalsyCriteriaIgnored | server/src/handlers/filter_numbers.ts:12-37 | an empty text or a zero id is the same as an omitted criterion |
| NumberFilter.NullIdNeverMatches | server/src/handlers/filter_numbers.ts:27-34 | a number without buyer or seller never matches an id criterion |
| NumberFilter.PhoneCriterionIsSubstring | server/src/handlers/filter_numbers.ts:37-39 | for search text without wildcards, the phone criterion holds iff the text is a case-insensitive substring of the phone number |
| Text.ContainsPatternIsSubstringSearch | server/src/handlers/filter_numbers.ts:38 | `s ILIKE '%' + t + '%'` holds iff lower-cased `t` occurs in lower-cased `s`, for `t` without wildcards |
| Text.ILike | server/src/handlers/filter_numbers.ts:38 | `s ILIKE p`; for a pattern without wildcards or escapes it holds iff `s` and `p` are equal up to ASCII case |
| Text.PrefixPattern | server/src/handlers/filter_numbers.ts:38 | the prefix step of matching the `%t%` pattern built there: `s ILIKE t + '%'` holds iff `s` starts with `t` up to case |
| DailyInvoice.DayBegin | server/src/handlers/generate_daily_invoice.ts:9-11 | the day of the date spans exactly one SECONDS_PER_DAY up to the start of the next calendar day |
| DailyInvoice.DayLines | server/src/handlers/generate_daily_invoice.ts:27-51 | each line is the projection of one of the buyer's numbers rented in the half-open day; each such number is listed; the count equals the number of such rows |
| DailyInvoice.GenerateDailyInvoice | server/src/handlers/generate_daily_invoice.ts:14-60 | an unknown buyer gives NotFound; otherwise the buyer id and date are echoed, the name is the buyer's, the lines are the day's lines, the count is their number and the total their exact sum |
| DailyInvoice.Reduce | server/src/handlers/generate_daily_invoice.ts:40 | the `reduce` running sum from accumulator `acc` ends at `acc` plus the exact total `SumPrices` of the lines, which `DailyInvoice.SumAppend` splits over concatenation and `DailyInvoice.SumIgnoresOrder` shows independent of row order |
| DailyInvoice.SumAppend | server/src/handlers/generate_daily_invoice.ts:40 | the total of two runs of lines is the sum of their totals |
| DailyInvoice.SumIgnoresOrder | server/src/handlers/generate_daily_invoice.ts:40 | the total is the same for any order of the rows |
| DailyInvoice.EmptyDayIsZero | server/src/handlers/generate_daily_invoice.ts:39-40 | a day without rentals gives no lines, count 0 and total 0 |
| DailyInvoice.RentalIgnoresStatus | server/src/handlers/generate_daily_invoice.ts:30-34 | whether and how a number is listed does not depend on its status |
| PaymentHistory.SortDesc | server/src/handlers/get_payment_history.ts:12 | the result is non-increasing in billing date and a permutation of the input |
| PaymentHistory.Page | server/src/handlers/get_payment_history.ts:13-14 | the page has length min(limit, what remains after offset), 0 past the end, and its i-th element is element offset + i |
| PaymentHistory.BuyerRecords | server/src/handlers/get_payment_history.ts:11 | every returned record is stored and has the buyer id; every such stored record is returned, once per row, without repeats in a keyed table |
| PaymentHistory.GetPaymentHistory | server/src/handlers/get_payment_history.ts:9-14 | every record is a stored record of the buyer, the list is latest first and at most limit long, and it is the offset/limit slice of the buyer's sorted records |
| PaymentHistory.ConsecutivePages | server/src/handlers/get_payment_history.ts:13-14 | the page at offset followed by the page at offset + limit is the page of twice the limit |
| PaymentHistory.PagesAreOrdered | server/src/handlers/get_payment_history.ts:12-14 | every record on a page is at least as late as every record on the next page |
| PaymentHistory.PagesAreDisjoint | server/src/handlers/get_payment_history.ts:13-14 | consecutive pages of a repeat-free list share no element |
| PaymentHistory.HistoryPagesAreDisjoint | server/src/handlers/get_payment_history.ts:9-14 | in a keyed table, consecutive history pages share no record when both queries break ties the same way |
| PaymentHistory.SortedDescUnique | server/src/handlers/get_payment_history.ts:12 | without equal billing dates, there is only one latest-first arrangement of a set of records |
| PaymentHistory.HistoryIgnoresTieOrder | server/src/handlers/get_payment_history.ts:12-14 | when the buyer's billing dates are distinct, every order the query may use gives the page the model returns |
| PaymentHistory.HistoryPagesAreDisjointAnyOrder | server/src/tests/get_payment_history.test.ts:110-145 | with distinct billing dates, consecutive pages share no record even when each query chooses its own order |
| PaymentHistory.NoRecordsEmptyHistory | server/src/handlers/get_payment_history.ts:9-14 | a buyer without records, known or not, gets an empty list and no error |
| Schema.ParseNumberStatus | server/src/schema.ts:100 | only the six status names are accepted, each to the status it names |
| Schema.NumberStatusNamesParse | server/src/db/schema.ts:15 | every number status round-trips through its name |
| Schema.ParseSellerStatus | server/src/schema.ts:57 | only `active`, `inactive` and `banned` are accepted |
| Schema.SellerStatusNamesParse | server/src/db/schema.ts:14 | every seller status round-trips through its name |
| Schema.ParseCreateBuyerInput | server/src/schema.ts:19-24 | accepted iff name and `chat_id` are non-empty and a supplied cap is positive; the cap defaults to 10 |
| Schema.ParseUpdateBuyerInput | server/src/schema.ts:29-34 | accepted iff a supplied cap is positive; the patch is then passed on unchanged, and a bad cap names `max_numbers_per_branch` |
| Schema.ParseBanBuyerInput | server/src/schema.ts:39-42 | accepted iff the ban reason is non-empty; the id and reason are then passed on unchanged |
| Schema.ParseCreateSellerInput | server/src/schema.ts:67-72 | accepted iff `telegram_id` is non-empty and status is not `banned`; status defaults to `active` and bonus to 0 |
| Schema.ParsePaymentHistoryInput | server/src/schema.ts:173-177 | accepted iff a supplied limit is positive and a supplied offset non-negative; defaults 50 and 0 |
| Calendar.ParseDate | server/src/schema.ts:147 | a value exactly for strings of four digits, '-', two digits, '-', two digits |
| Calendar.FormatThenParse | server/src/schema.ts:147 | reading the text of a date gives the date back |
| Calendar.ParseThenFormat | server/src/schema.ts:147 | a date-shaped string is the text of the date it reads as |
| Calendar.NextDay | server/src/handlers/generate_daily_invoice.ts:10-11 | the day after a real date is a real date |
| Calendar.NextDayIsOneDayLater | server/src/handlers/generate_daily_invoice.ts:10-11 | the next day's day number is one more |
| Calendar.NextDayStartsOneDayLater | server/src/handlers/generate_daily_invoice.ts:9-11 | the next day starts exactly 86400 seconds after the day |
| Money.Format | server/src/db/schema.ts:36 | the text of an amount has a sign iff it is negative, and ends in a point and two digits |
| Money.Parse | server/src/handlers/get_payment_history.ts:20 | reading a money column's text: an accepted text is an optional minus sign, digits, a point and two digits; with `Money.FormatParseRoundTrip` it exactly inverts `Money.Format` |
| Money.FormatParseRoundTrip | server/src/db/schema.ts:36 | every `numeric(10,2)` amount reads back from its text exactly |

## Left out

- Each handler's `try/catch`, its rethrow and `console.error` logging are left out. A thrown error is a `Failure` result.
- Transactions and concurrency: stopwork runs as one sequential method, with no races and no rollback.
- The HTTP/tRPC router in server/src/index.ts is not part of this model.
- The plain single-row and whole-table getters (`getBuyers`, `getSellers`, `getNumbers`, `getBuyerById`, `getSellerById`, `getNumberById`) are omitted. They are map reads in this model.
- Floating point: `parseFloat`, `toString` and the float `reduce` are exact integer cents here. A bonus with more than two decimals, which the column would round, is not modelled.
- Money.Parse: reads only the two-decimal text that `Money.Format` produces, the shape the column returns. Other numeric text is not modelled.
- JavaScript `Date`: a `YYYY-MM-DD` string is read as UTC midnight, and the next day is taken on a fixed 86400-second day. `setDate` works in local time, so daylight-saving shifts around midnight are not modelled.
- DailyInvoice.GenerateDailyInvoice: requires a date that names a real calendar day. What JavaScript does with a regex-valid but impossible date depends on the engine: V8 (Node) rolls a day in 1-31 past the month's end over into the next month (`2024-02-30` reads as 2024-03-01) and makes `2024-13-45` an invalid `Date`; other engines may treat them differently. Neither path is modelled.
- SQL `ILIKE`: case folding is ASCII only, and the backslash escape character is treated as an ordinary character. A `%` or `_` in the search text acts as a wildcard, as in SQL. The substring reading is proved only for text without them.
- Result order: the filter and invoice queries have no ORDER BY. The model returns rows in ascending id order but states only which rows are returned. Payment history orders by billing date only, so records with equal dates come in an unspecified order.
- Message wording: stopwork replies carry the reason and the reclaimed count as data, not the human-readable text.
- Ids, caps and counts are unbounded integers. The `integer` column range and a non-integer id, cap, `limit` or `offset` passed through a `z.number()` input, which `.int()` rejects, are not modelled. Money values are the exception: they are `Money.Cents`, bounded by the `numeric(10,2)` range.
- Marketplace.Store.CreateSeller and Marketplace.Store.UpdateSeller: the bonus parameter is `Money.Cents`, so a bonus of 10^8 or more in magnitude cannot be passed. The handlers write `permanent_rounding_bonus.toString()` to the column unchecked (create_seller.ts:15, update_seller.ts:22), and PostgreSQL then fails with a numeric-overflow error. That error path is not modelled, nor whether the failed insert uses up a sequence value.
- PaymentHistory.HistoryPagesAreDisjoint: assumes both queries break ties between equal billing dates the same way, as the model's one fixed order does. The database may order tied rows differently in each LIMIT/OFFSET query, so the handler yields disjoint pages only without ties; PaymentHistory.HistoryPagesAreDisjointAnyOrder states that case.
- Marketplace.Store.CreateBuyer: a failed insert still uses up a sequence value, as a PostgreSQL serial does. The model does not state which value the next insert receives beyond its freshness.
- Marketplace.Store: the numbers and billing tables have no insert handler in the core. They change only through the handlers above.
- Zod and Drizzle library internals, `relations()` declarations and the test helpers are omitted. The validators are modelled by their accepted sets and defaults. The router applies the update-buyer and ban-buyer validators before calling the handler (server/src/index.ts:75-82); `Marketplace.Store.UpdateBuyer` and `Marketplace.Store.BanBuyer` accept any input, as the handlers themselves perform no check.
