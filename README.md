# Shop finance: statistics and default categories

This project models two parts of a small shop-finance web application.

The first part is the statistics route. It reads a `period` query parameter (`month`, `today`, `all` or `custom`). For `custom` it also reads a `date` parameter. The route turns these into an optional inclusive date window and fetches the transactions in that window. It then folds them into one summary:

- income and expense totals;
- shop earnings within income;
- five expense buckets (raw material, electricity, personal, home, other), chosen by a case-insensitive substring test on the category;
- one total per payment type (cash, UPI, bank);
- the transaction count;
- net profit.

The second part is the seeding route. It holds a table of six default categories. It inserts that table only when the category store has no default category yet.

Modules:

- `Wrappers`: the `Option` type.
- `Text`: ASCII `toLowerCase` and `includes` as a recursive substring test. The test is shown equal to "occurs at some index".
- `Transactions`: the transaction record, the inclusive window, and `Transaction.find` as a filter over a stored sequence.
- `Period`: the route's period and date parameters, and the branch chain that builds the window (`ResolveWindow`). The current instant, the local UTC offset, the date parser and the month boundaries come in as a `Clock` value.
- `Stats`: a reference definition of every field of the summary (`Total`, `SummaryOf`). It also holds the imperative aggregation loop (`ComputeStats`), which is proved equal to that definition, and the properties the totals satisfy.
- `Scenarios`: a worked three-transaction day and the case-insensitivity of the shop-earnings test.
- `Seeding`: the default-category table, the pure seeding function `Seeded`, and the `CategoryTable` class whose `Seed` method inserts the defaults in place.

In the model, amounts are `real`, dates are integer milliseconds since the epoch, and the transaction `type` field is the two-valued `Kind`. Because `Kind` and `PaymentType` are enumerations, the route's `else` branches cover exactly the remaining value.

For a day with a 500 shop-earnings income and expenses of 200 (cash) and 50 (UPI), cash + UPI + bank is always 750. Every transaction adds its amount to exactly one payment total, so the three payment totals always sum to income plus expenses (`Stats.PaymentTotalsCoverAll`). `Scenarios.ThreeTransactionDay` pays the income by bank, so `bankTotal` is 500 there.

## Model

| member | source | states |
|---|---|---|
| Transactions.Find | app/api/stats/route.ts:29-34 | the found transactions are no more than the stored ones, and each of them matches the query |
| Transactions.FindMembership | app/api/stats/route.ts:29-34 | a transaction is found exactly when it is stored and its date is inside the inclusive window (the empty query matches everything) |
| Transactions.FindAppend | app/api/stats/route.ts:29-34 | the filter distributes over concatenation, so each stored copy of a transaction, duplicates included, is kept or dropped on its own |
| Transactions.FindWithoutQuery | app/api/stats/route.ts:29-34 | the empty query `{}` returns the whole store |
| Transactions.FindNothingInWindow | app/api/stats/route.ts:29-34 | a window that no stored date falls into finds nothing |
| Transactions.FindKeepsValid | app/api/stats/route.ts:34 | transactions found from a store with non-negative amounts have non-negative amounts |
| Period.ResolveWindow | app/api/stats/route.ts:11-32 | the branch chain gives the window of the parsed period. A missing or empty `period` means this month. No window is built exactly for `all`, for `custom` without a usable date, and for an unrecognised token |
| Period.DayWindowIsTheDay | app/api/stats/route.ts:17-27 | an instant lies in the `startOfDay`..`endOfDay` window of a day exactly when it falls on the same local day. Both bounds are on that day |
| Period.WindowsContainTheirDay | app/api/stats/route.ts:17-27 | the `today` window contains the current instant, and a custom day's window contains the instant its date parses to |
| Text.ContainsIffOccurs | app/api/stats/route.ts:59 | the recursive `includes` holds exactly when the substring occurs at some index |
| Text.ContainsLongerContainsPrefix | app/api/stats/route.ts:59 | a string that contains a longer needle also contains that needle's prefixes |
| Text.EqualIgnoringCaseIffSameLower | app/api/stats/route.ts:58 | two strings are equal up to case exactly when their `toLowerCase` forms are equal |
| Stats.FirstMatchWins | app/api/stats/route.ts:67-77 | when the keywords are distinct, the k-th bucket is chosen exactly when its keyword occurs and no earlier keyword does. `other` is chosen exactly when no keyword occurs |
| Stats.BucketOfIsFirstMatch | app/api/stats/route.ts:66-77 | the chosen bucket is the first in the order raw material, electricity, personal, home whose keyword occurs in the lower-cased category; otherwise it is `other` |
| Stats.BucketOfChain | app/api/stats/route.ts:66-77 | the bucket equals the route's `if`/`else if` chain over the lower-cased category |
| Stats.ShopEarningTestIsOneSubstring | app/api/stats/route.ts:58-61 | the test for `shop earnings` or `shop earning` is the same as the test for `shop earning` alone |
| Stats.ClassificationIgnoresCase | app/api/stats/route.ts:58-67 | two categories that differ only in letter case fall in the same bucket and have the same shop-earnings verdict |
| Stats.UpperCaseClassifiesAlike | app/api/stats/route.ts:58-67 | upper-casing a category changes neither its bucket nor its shop-earnings verdict |
| Stats.SummaryOf | app/api/stats/route.ts:37-51 | the summary of no transactions is all zeros with count 0 |
| Stats.ExpenseBucketsPartition | app/api/stats/route.ts:62-78 | the five expense buckets sum to `totalExpenses` |
| Stats.PaymentTotalsCoverAll | app/api/stats/route.ts:80-87 | cash, UPI and bank totals sum to income plus expenses |
| Stats.ShopEarningsWithinIncome | app/api/stats/route.ts:54-61 | with non-negative amounts, shop earnings lie between 0 and total income |
| Stats.TotalsNonNegative | app/api/stats/route.ts:53-88 | with non-negative amounts, every running total is non-negative |
| Stats.TotalAppend | app/api/stats/route.ts:53-88 | the total over a concatenation is the sum of the totals over its two parts |
| Stats.TotalPermutation | app/api/stats/route.ts:53-88 | two sequences holding the same transactions (as multisets) have equal totals for every field |
| Stats.SummaryIgnoresOrder | app/api/stats/route.ts:34-90 | the summary does not depend on the order in which the store returns the transactions |
| Stats.AddByType | app/api/stats/route.ts:54-78 | one transaction adds its amount to income (and to shop earnings when the category matches) or to expenses and exactly one bucket. Every other field is unchanged |
| Stats.AddByPayment | app/api/stats/route.ts:80-87 | one transaction adds its amount to exactly the total of its payment type. Every other field is unchanged |
| Stats.ComputeStats | app/api/stats/route.ts:37-90 | the loop computes exactly the reference summary, with net profit equal to income minus expenses and the count equal to the number of transactions. It also states the partition, coverage and shop-earnings bounds, and that no transactions give the zero summary |
| Stats.GetStats | app/api/stats/route.ts:10-90 | the route's result is the summary of the transactions the period's window finds. Its count is at most the store size, and its net profit is income minus expenses |
| Stats.TodayWithoutTransactionsIsZero | app/api/stats/route.ts:24-34 | a `today` request, when no stored transaction falls on the current local day, gives the zero summary |
| Stats.MissingPeriodMeansMonth | app/api/stats/route.ts:11 | an absent or empty `period` gives the same summary as `month` |
| Stats.UnfilteredPeriods | app/api/stats/route.ts:17-32 | `all`, `custom` without a date, and an unrecognised token all summarise the whole store |
| Scenarios.ThreeTransactionSummary | app/api/stats/route.ts:53-90 | any three transactions that are a shop-earnings income of 500 by bank, a raw-material expense of 200 in cash and an electricity expense of 50 by UPI have the summary listed for `ThreeTransactionDay`, whatever their category names |
| Scenarios.ThreeTransactionDay | app/api/stats/route.ts:37-90 | income 500, raw material 200 and electricity 50 give income 500, expenses 250, shop earnings 500, cash 200, UPI 50, bank 500, net profit 250 and count 3 |
| Scenarios.UpperCaseShopEarnings | app/api/stats/route.ts:58-59 | an upper-case `SHOP EARNINGS Q1` category counts as shop earnings |
| Seeding.DefaultCategories | app/api/init/route.ts:9-52 | six default categories, all marked default. Only the last is income, and it is named `Shop Earnings` |
| Seeding.DefaultKinds | app/api/init/route.ts:9-52 | the table has five expense categories and one income category |
| Seeding.DefaultNames | app/api/init/route.ts:9-52 | the six names, in table order |
| Seeding.DefaultsMatchTheBreakdown | app/api/init/route.ts:9-52 | each default expense name lands in its own bucket of the statistics breakdown (raw material, electricity, personal, home, other), and the income name counts as shop earnings |
| Seeding.FindDefaults | app/api/init/route.ts:55-57 | the lookup `{ isDefault: true }` is empty exactly when no default category exists, and returns only defaults |
| Seeding.Seeded | app/api/init/route.ts:55-68 | seeding keeps the old table as a prefix and leaves a default in the store. It changes nothing exactly when a default already existed, and otherwise appends the default table |
| Seeding.SeedingIdempotent | app/api/init/route.ts:55-68 | seeding twice is the same as seeding once |
| Seeding.CategoryTable.Seed | app/api/init/route.ts:55-68 | in place: inserts exactly when no default existed, which appends the six defaults; otherwise the table is unchanged |
| Seeding.SeedTwice | app/api/init/route.ts:55-68 | a second initialisation request inserts nothing, and the table ends up as after one seeding |

## Left out

- The HTTP layer is not modelled: the `NextRequest`/`NextResponse` envelope, `connectDB`, the `try`/`catch` error response with status 500, and the response messages of the seeding route.
- `new Date()` is called twice in the `month` and `today` branches, once for the start and once for the end of the window, so the two bounds can come from different instants (for example across midnight or a month change). The model reads one instant, `Clock.now`, for both bounds.
- `date-fns` `startOfMonth` and `endOfMonth` are parameters of the model (`Clock`), because calendar-month arithmetic lives in a library outside this model.
- The local time zone is a fixed offset from UTC. Daylight-saving changes are not modelled.
- `new Date(customDate)` is a total parameter `Clock.parseDate`. An unparsable date (an Invalid Date, which makes the database query fail into the error response) is not modelled.
- Amounts are exact `real` numbers. JavaScript floating-point rounding of the running sums is not modelled.
- `toLowerCase` is modelled on ASCII letters only. Unicode case mapping is not modelled.
- The database is a sequence held in memory, so indexes and query execution are not modelled. `Transactions.Find` keeps store order. `Stats.SummaryIgnoresOrder` shows the order does not matter to the summary.
- A payment type or transaction type outside the schema's enumerations cannot be represented. The source would put any non-`income` type into the expense branch and silently skip any unknown payment type.
- Two concurrent initialisation requests can both see no default and both insert. Concurrency is not modelled; `Seed` is atomic.
- A failure part way through `insertMany` is not modelled.
- The category schema's `_id`, the timestamps, and the default icon and colour values of the Mongoose model are not modelled. The table's own icons and colours are.
- The routes that create, list and delete categories and transactions, and the user-interface pages, are not part of this model.
