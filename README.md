# Household budget core in Dafny

A model of the calculation and state-handling core of a household-budget web application (a Next.js
app backed by Supabase), with proofs about it. The app records dated expense and income rows and a
second ledger of savings and transfers. Every figure it shows comes from the same few folds over
those rows:

- the asset balance;
- the income and expense totals;
- per-category and per-payment-method sums;
- day and month totals in the calendar views.

It also owns some client-side state: the category list and its editing state, a bounded in-memory
logger and performance monitor, the accessibility settings, the loading indicator and the calendar's
month. Sign-up seeds a new user with copies of two fixed category catalogs. The UUID normaliser
regroups any 32 characters into the 8-4-4-4-12 form.

The model is organised as follows:

- Every pure fold becomes a Dafny function. The proofs relate it to an independent statement: a sum
  over the rows, a filter, a key set or a round trip.
- Every `reduce` or `for` loop that builds an accumulator object (a balance, a pair of totals, a
  dictionary) becomes a method with a loop, proved equal to its function. Plain sums of amounts
  (`filter(...).reduce((sum, e) => sum + e.amount, 0)`) are `Seqs.SumBy` functions over a filter.
- Objects whose fields the source updates become classes with `modifies` frames. These are the
  category hook, the logger, the performance monitor, the accessibility provider, the loading hook
  and the calendar month.
- The date-descending sort is an in-place insertion sort on an array, proved sorted and a
  permutation.

Modules (one file each):

| module | file | models |
|---|---|---|
| `Wrappers` | option.dfy | `Option` |
| `Seqs` | seqs.dfy | `filter` and `reduce`-sum over sequences, with their laws |
| `Strings` | strings.dfy | prefix test, character order of strings (JavaScript's UTF-16 order on the Basic Multilingual Plane, so on ASCII dates), zero-padded digits |
| `Bounded` | bounded.dfy | push-then-shift buffers |
| `Tally` | tally.dfy | `Record<string, …>` objects built by `reduce`, as key-ordered entry lists |
| `Dates` | dates.dfy | calendar dates, month lengths, `yyyy-MM-dd` / `yyyy-MM` formatting |
| `Ledger` | ledger.dfy | the four ledger labels and the `Transaction` and `AssetBalance` records |
| `Uuid` | uuid.dfy | `normalizeUUID` |
| `CatalogIds` | catalog_ids.dfy | the ids of the two default catalogs and facts about them |
| `ExpenseTypes` | expense_types.dfy | `Category`, `Expense` and the two default catalogs |
| `MergedAssetsTab` | merged_assets_tab.dfy | the assets tab that merges the `expenses` and `transactions` tables |
| `ExpenseAssetsTab` | expense_assets_tab.dfy | the assets tab that reads only `expenses` |
| `AssetsSummary` | assets_summary.dfy | the income / expense summary card |
| `PaymentMethodList` | payment_method_list.dfy | per-payment-method sums |
| `Statistics` | statistics.dfy | the month/year statistics and category breakdown |
| `StatisticsTab` | statistics_tab.dfy | the statistics tab's month filter, sums, average and top category |
| `CalendarTab` | calendar_tab.dfy | the calendar tab's selections, totals and row formatting |
| `ExpenseChart` | expense_chart.dfy | the pie chart's per-category sums |
| `HomePage` | home_page.dfy | the home page's expense list and credential guard |
| `HouseholdTab` | household_tab.dfy | the month grid's day totals |
| `Sorting` | sorting.dfy | the date-descending sort |
| `CategoryHook` | category_hook.dfy | `useCategories` |
| `SignUp` | sign_up.dfy | the sign-up category seeding |
| `Logging` | logger.dfy | the logger |
| `Performance` | performance.dfy | the performance monitor |
| `Accessibility` | accessibility.dfy | the accessibility provider |
| `Loading` | loading.dfy | `useLoading` |
| `CalendarNav` | calendar_nav.dfy | the calendar's month navigation |
| `AuthConfig` | auth_config.dfy | the route guard |

## Model

Source paths are relative to the repository root.

| member | source | states |
|---|---|---|
| `Seqs.Filter` | src/components/Statistics.tsx:14-23 | the kept rows are exactly the input rows that pass the test, and no more of them than the input |
| `Seqs.Dedup` | src/components/calendar/CalendarTab.tsx:145 | `Array.from(new Set(…))`: distinct, no longer than the input, same members |
| `Seqs.Find` | src/components/AssetsTab.tsx:274-276 | `find`: `None` exactly when no element passes; otherwise the first one that passes |
| `Seqs.FilterAppend` | src/components/household/HouseholdTab.tsx:46-48 | filtering distributes over concatenation, which keeps the original order |
| `Seqs.FilterAll` | src/app/page.tsx:234-238 | a filter every element passes keeps the whole list |
| `Seqs.FilterFirst` | src/components/statistics/StatisticsTab.tsx:172 | the first element a filter keeps is the first element that passes the test |
| `Seqs.FilterOfFilter` | src/components/Statistics.tsx:14-34 | a stronger test applied after a weaker one is the stronger test alone |
| `Seqs.SumByAppend` | src/components/assets/AssetsSummary.tsx:10-22 | the sum over a concatenation is the sum of the two sums |
| `Seqs.SumByCons` | src/components/assets/AssetsSummary.tsx:10-22 | the sum over a list with one row in front |
| `Seqs.SumBySnoc` | src/components/assets/AssetsSummary.tsx:10-22 | the sum over a list with one row appended |
| `Seqs.SumByZero` | src/components/assets/AssetsSummary.tsx:10-22 | rows that all contribute zero sum to zero |
| `Seqs.SumByNegate` | src/components/assets/AssetsSummary.tsx:24-25 | negating every summand negates the sum, the step that turns `income - expense` into one signed sum |
| `Seqs.SumByCongruent` | src/components/assets/AssetsSummary.tsx:10-22 | two contributions that agree on every row give the same sum |
| `Seqs.SumByPlus` | src/components/assets/AssetsSummary.tsx:10-22 | the sum of a row-wise sum of contributions is the sum of the two sums |
| `Seqs.SumByFilter` | src/app/page.tsx:249-255 | summing the filtered rows is summing all rows with the rejected ones counted as zero |
| `Seqs.SumByPermutation` | src/components/AssetsTab.tsx:88-92 | a sum does not depend on the order of the rows |
| `Strings.LexLeDifferentHeads` | src/components/Statistics.tsx:14-23 | equal-length different heads decide the comparison of two strings |
| `Strings.LexLeCommonHead` | src/components/Statistics.tsx:14-23 | a common head does not change the comparison |
| `Strings.LexLeConcat` | src/components/Statistics.tsx:14-23 | equal-length heads: the strings are equal iff both parts are, and compare by head first, then by tail |
| `Strings.Pow10` | src/components/Statistics.tsx:18-19 | a power of ten is at least one |
| `Strings.PadDigits` | src/components/Statistics.tsx:18-19 | zero-padded digits have exactly the requested width |
| `Strings.PadDigitsOrder` | src/components/Statistics.tsx:18-19 | below 10^width, padded digits are equal iff the numbers are, and compare as strings as the numbers compare |
| `Bounded.LastN` | src/utils/logger.ts:36-39 | the last min(n, length) elements, in order |
| `Bounded.PushWithinCap` | src/utils/logger.ts:36-39 | push-then-shift stays within the capacity, ends with the new element, appends below capacity and drops the oldest element at capacity |
| `Bounded.PushKeepsLast` | src/utils/logger.ts:36-39 | pushing onto the last n of a history gives the last n of the extended history |
| `Tally.Keys` | src/components/assets/PaymentMethodList.tsx:10-18 | one key per entry, in entry order |
| `Tally.AddGet` | src/components/assets/PaymentMethodList.tsx:10-18 | adding x under key k (a missing key counting as 0) raises the value of k by x and leaves every other key's value |
| `Tally.AddKeys` | src/components/assets/PaymentMethodList.tsx:10-18 | a new key is appended at the end; an existing key keeps its place |
| `Tally.AddTotal` | src/components/assets/PaymentMethodList.tsx:10-18 | the sum of all values rises by x |
| `Tally.GroupSumGet` | src/components/assets/PaymentMethodList.tsx:10-18 | the grouped value of a key is the sum of the amounts of the rows with that key |
| `Tally.GroupSumKeys` | src/components/assets/PaymentMethodList.tsx:10-18 | the keys are distinct and are exactly the keys some row has |
| `Tally.GroupSumTotal` | src/components/assets/PaymentMethodList.tsx:10-18 | the grouped values add up to the amounts of all keyed rows |
| `Tally.SumKeyedAll` | src/components/statistics/StatisticsTab.tsx:56-59 | when every row has a key, the keyed sum is the plain sum |
| `Tally.SumKeyedAsSumBy` | src/components/ExpenseChart.tsx:23-30 | the keyed sum is a plain sum with the unkeyed rows counted as zero |
| `Tally.SumUnderAsSumBy` | src/components/assets/PaymentMethodList.tsx:10-18 | the sum under one key is a plain sum with the other rows counted as zero |
| `Tally.PutLookup` | src/components/calendar/CalendarTab.tsx:156-159 | after `map[k] = v`, k maps to v and every other key to what it did before |
| `Tally.PutKeys` | src/components/calendar/CalendarTab.tsx:156-159 | a new key is appended; an existing key keeps its place |
| `Tally.GroupSumSingleKey` | src/components/statistics/StatisticsTab.tsx:78-82 | rows that all share one key group into one entry holding their sum, or none when there are no rows |
| `Dates.DaysInMonth` | src/components/Statistics.tsx:14-23 | every month has at least 28 days |
| `Dates.EndOfMonth` | src/components/Statistics.tsx:14-23 | `endOfMonth` is a valid date |
| `Dates.FullYear` | src/components/Calendar.tsx:19 | the `Date` constructor's year: a year from 0 to 99 means 1900 plus it, any other year itself; the result is never a two-digit year |
| `Dates.FormatYmd` | src/components/Statistics.tsx:18-19 | `yyyy-MM-dd`: ten characters with dashes at positions 4 and 7 |
| `Dates.FormatYm` | src/components/statistics/StatisticsTab.tsx:79 | `yyyy-MM`: seven characters with a dash at position 4 |
| `Dates.Ordinal` | src/components/AssetsTab.tsx:90 | the day number used as the sort key is non-negative |
| `Dates.OrdinalOrder` | src/components/AssetsTab.tsx:90 | comparing day numbers is comparing the dates chronologically |
| `Dates.FormatYmdOrder` | src/components/Statistics.tsx:14-23 | formatted dates are equal iff the dates are, and compare as strings exactly as the dates compare chronologically |
| `Ledger.ParseLabel` | src/types/transaction.ts:6 | reading a label gives a canonical type that prints back as the same label, and an unknown string exactly when it is none of the four labels |
| `Ledger.ParseLabelOf` | src/types/transaction.ts:6 | printing a canonical type and reading it back gives the type again |
| `Uuid.StripDashes` | src/utils/uuid.ts:3 | `replace(/-/g, '')` leaves no dash and is no longer than its input |
| `Uuid.Join` | src/utils/uuid.ts:5-11 | `join('-')` of two parts is one character longer than the parts together |
| `Uuid.Group` | src/utils/uuid.ts:5-11 | 32 characters grouped 8-4-4-4-12 give 36 characters |
| `Uuid.StripDashesAppend` | src/utils/uuid.ts:3 | removing dashes distributes over concatenation |
| `Uuid.StripDashesNoDash` | src/utils/uuid.ts:3 | a string without dashes is unchanged |
| `Uuid.StripJoin` | src/utils/uuid.ts:3 | removing dashes from a dash-joined pair with a dashless head |
| `Uuid.StripFiveGroups` | src/utils/uuid.ts:3-11 | removing the dashes of five dashless groups gives the groups run together |
| `Uuid.StripJoinLast` | src/utils/uuid.ts:3 | removing dashes from a dash-joined pair with a dashless tail |
| `Uuid.SplitIntoFiveGroups` | src/utils/uuid.ts:3-4 | a string split at four dashes into dashless parts of 32 characters in total has five dash-separated groups |
| `Uuid.FiveGroupsStrip` | src/utils/uuid.ts:3-4 | such a string has 36 characters and 32 once the dashes are removed |
| `Uuid.StripGroup` | src/utils/uuid.ts:3-11 | grouping 32 dashless characters and removing the dashes again gives them back |
| `Uuid.GroupIsCanonical` | src/utils/uuid.ts:5-11 | grouping 32 dashless characters gives the 8-4-4-4-12 form |
| `Uuid.NormalizeCases` | src/utils/uuid.ts:2-11 | an id without exactly 32 non-dash characters is returned unchanged; otherwise the result is in 8-4-4-4-12 form |
| `Uuid.NormalizeKeepsCharacters` | src/utils/uuid.ts:2-11 | normalising never adds, drops or reorders a non-dash character |
| `Uuid.NormalizeIdempotent` | src/utils/uuid.ts:2-11 | normalising twice is normalising once |
| `Uuid.JoinSplit` | src/utils/uuid.ts:5-11 | splitting at a dash and joining again gives the string back |
| `Uuid.GroupParts` | src/utils/uuid.ts:5-11 | grouping five run-together parts of the right lengths joins them with dashes |
| `Uuid.CanonicalIsFixedPoint` | src/utils/uuid.ts:2-11 | an id already in 8-4-4-4-12 form is returned unchanged |
| `Uuid.NoDashInSlice` | src/utils/uuid.ts:3 | a slice whose characters are all non-dashes contains no dash |
| `Uuid.MisplacedDashesRegrouped` | src/utils/uuid.ts:4-11 | a 36-character id with 32 non-dash characters and a dash at position 4 is not canonical, and normalising regroups it into a different, canonical id |
| `Uuid.AnyCharactersRegrouped` | src/utils/uuid.ts:3-11 | any 32 dashless characters are grouped; the characters are not checked to be hexadecimal |
| `CatalogIds.ExpenseId6Regrouped` | src/types/expense.ts:30 | the seventh default expense id is not in canonical form, and normalising it produces a different, canonical id |
| `CatalogIds.ExpenseIdListGrouped` | src/types/expense.ts:23-43 | every default expense id is five dashless groups of 32 characters in total |
| `CatalogIds.IncomeIdListGrouped` | src/types/expense.ts:45-61 | every default income id is five dashless groups of 32 characters in total |
| `CatalogIds.ExpenseIdListDistinct` | src/types/expense.ts:23-43 | the 19 default expense ids are pairwise different |
| `CatalogIds.IncomeIdListDistinct` | src/types/expense.ts:45-61 | the 15 default income ids are pairwise different |
| `ExpenseTypes.Ids` | src/types/expense.ts:3-10 | the ids of a category list, in order |
| `ExpenseTypes.Names` | src/types/expense.ts:3-10 | the names of a category list, in order |
| `ExpenseTypes.ExpenseIdsListed` | src/types/expense.ts:23-43 | the expense catalog's ids are the listed ids |
| `ExpenseTypes.IncomeIdsListed` | src/types/expense.ts:45-61 | the income catalog's ids are the listed ids |
| `ExpenseTypes.ExpenseCatalogShape` | src/types/expense.ts:23-43 | 19 entries, each of type 'expense' with an empty owner |
| `ExpenseTypes.IncomeCatalogShape` | src/types/expense.ts:45-61 | 15 entries, each of type 'income' with an empty owner |
| `ExpenseTypes.ExpenseNamesDistinct` | src/types/expense.ts:23-43 | the expense catalog's names are pairwise different |
| `ExpenseTypes.IncomeNamesDistinct` | src/types/expense.ts:45-61 | the income catalog's names are pairwise different |
| `ExpenseTypes.ExpenseIdsDistinct` | src/types/expense.ts:23-43 | the expense catalog's ids are pairwise different |
| `ExpenseTypes.IncomeIdsDistinct` | src/types/expense.ts:45-61 | the income catalog's ids are pairwise different |
| `ExpenseTypes.CatalogIdsCollide` | src/types/expense.ts:24-28 | five ids of the expense catalog reappear in the income catalog (entries 0-4 as income entries 7, 11, 8, 9, 10), so the two catalogs together do not have distinct ids |
| `ExpenseTypes.ExpenseIdsHave32Characters` | src/types/expense.ts:23-43 | every expense id has 36 characters and 32 non-dash characters, so normalising it is not the unchanged branch |
| `ExpenseTypes.IncomeIdsHave32Characters` | src/types/expense.ts:45-61 | every income id has 36 characters and 32 non-dash characters |
| `ExpenseTypes.NonCanonicalIdRegrouped` | src/types/expense.ts:30 | catalog entry 6 (電気代) has an id that is not in 8-4-4-4-12 form, and normalising it changes it into one that is |
| `MergedAssetsTab.MapExpenseRow` | src/components/AssetsTab.tsx:71-77 | an `expenses` row keeps its fields; 'income' reads as 収入, 'expense' as 支払い and any other stored type as itself; a missing payment method becomes '' |
| `MergedAssetsTab.MapTransactionRow` | src/components/AssetsTab.tsx:79-86 | a `transactions` row keeps its fields and loses its category; 'savings' reads as 貯金, 'transfer' as 振替, any other type as itself |
| `MergedAssetsTab.ExpenseLabelRoundTrip` | src/components/AssetsTab.tsx:76 | a stored type that is none of the four labels is written back unchanged after reading it as an expense row |
| `MergedAssetsTab.TransactionLabelRoundTrip` | src/components/AssetsTab.tsx:84 | the same for a transactions row |
| `MergedAssetsTab.FetchedKindWritesBack` | src/components/AssetsTab.tsx:71-86 | a fetched row's type read and written back gives the stored type, for both tables |
| `MergedAssetsTab.CleanTypeValue` | src/components/AssetsTab.tsx:150-154 | a text type is translated label by label; any other value passes through |
| `MergedAssetsTab.CleanUpdateData` | src/components/AssetsTab.tsx:145-161 | the result has exactly the allowed keys the input has; each value is copied except 'type', which is translated |
| `MergedAssetsTab.DeleteTable` | src/components/AssetsTab.tsx:134-141 | a delete goes to `transactions` exactly when the type is 貯金 or 振替 |
| `MergedAssetsTab.InsertTable` | src/components/AssetsTab.tsx:227-233 | an insert goes to `expenses` exactly when the type is 収入 or 支払い |
| `MergedAssetsTab.SaveTarget` | src/components/AssetsTab.tsx:211-232 | a save updates exactly when the id is non-empty and listed, and then always in `expenses`; otherwise it inserts by type |
| `MergedAssetsTab.SaveTargetRouted` | src/components/AssetsTab.tsx:134-141 | the same decision, but an update goes to the table a delete of that type would use |
| `MergedAssetsTab.DeleteFindsFetchedRow` | src/components/AssetsTab.tsx:71-86 | when the caller passes the row's type, a row fetched from either table is deleted from the table it came from; the transaction list passes only the id (see Findings) |
| `MergedAssetsTab.DeleteFromList` | src/components/AssetsTab.tsx:338 | the list's delete passes no type, so it always goes to `expenses` |
| `MergedAssetsTab.DeleteFromListMisses` | src/components/AssetsTab.tsx:134-141 | a listed 貯金 or 振替 row, fetched from `transactions`, is deleted from `expenses` as written, while the typed delete would go to `transactions` |
| `MergedAssetsTab.SaveTargetMisroutesTransactions` | src/components/AssetsTab.tsx:211-224 | editing a listed 貯金 or 振替 row updates `expenses`, although the delete and the insert of that row use `transactions` |
| `MergedAssetsTab.SaveTargetMisroutesExample` | src/components/AssetsTab.tsx:211-224 | the concrete case: id "t1", listed, type 貯金 |
| `MergedAssetsTab.SaveTargetRoutedAgrees` | src/components/AssetsTab.tsx:134-141 | with the corrected routing, update, insert and delete of a labelled row all use the same table |
| `MergedAssetsTab.OrElse` | src/components/AssetsTab.tsx:250 | the memo/note fallback: the first non-empty value, and '' exactly when neither is non-empty |
| `MergedAssetsTab.OrNull` | src/components/AssetsTab.tsx:248-249 | the account fallback to null: present exactly when the value is non-empty, and then that value |
| `MergedAssetsTab.ExpenseTypeValue` | src/components/AssetsTab.tsx:227-230 | the `typeValue` is present exactly for 収入 and 支払い, and is then its stored name |
| `MergedAssetsTab.DefaultCategoryId` | src/components/AssetsTab.tsx:273-279 | the first category of the type; else the first named その他 or 未分類; else the first category, or '' for an empty list |
| `MergedAssetsTab.InsertPayloadOf` | src/components/AssetsTab.tsx:227-289 | the insert row for the table its type selects: owner, amount and date copied, type translated, memo/note fallback, the category or its default, the payment method copied when non-empty and absent otherwise, the account fields null when empty |
| `MergedAssetsTab.InsertThenFetch` | src/components/AssetsTab.tsx:71-86 | an inserted income, payment or unknown-type row fetched back has its type, amount, date and payment method again |
| `MergedAssetsTab.CalculateBalance` | src/components/AssetsTab.tsx:95-122 | the stored balance: the fold's total and savings, with available overwritten as total plus savings |
| `MergedAssetsTab.StoredBalanceStep` | src/components/AssetsTab.tsx:98-113 | one more row: 収入 raises the total, 支払い lowers it, 貯金 raises savings, anything else changes nothing; available stays total plus savings |
| `MergedAssetsTab.StoredBalanceEmpty` | src/components/AssetsTab.tsx:116 | no rows give the zero balance |
| `MergedAssetsTab.StoredBalancePermutation` | src/components/AssetsTab.tsx:88-92 | the balance does not depend on the order of the rows, so the sort does not change it |
| `MergedAssetsTab.MapExpenseRows` | src/components/AssetsTab.tsx:71 | each expenses row mapped, in order |
| `MergedAssetsTab.MapTransactionRows` | src/components/AssetsTab.tsx:79 | each transactions row mapped, in order |
| `MergedAssetsTab.MergeAndSort` | src/components/AssetsTab.tsx:88-90 | the merged list is a permutation of the mapped rows of both tables, newest date first, and rows of the same date keep their order in the concatenation (expense rows before transaction rows, each in fetched order), as the stable `sort` keeps them |
| `MergedAssetsTab.MergedBalance` | src/components/AssetsTab.tsx:88-122 | the merged list's total and savings are those of the two tables' rows added |
| `ExpenseAssetsTab.ExpenseToTransaction` | src/components/assets/AssetsTab.tsx:30-39 | id, date and amount copied; 'income' becomes 収入 and anything else 支払い; no account or method; an empty memo becomes no note |
| `ExpenseAssetsTab.ToTransactions` | src/components/assets/AssetsTab.tsx:57-59 | each expense converted, in order |
| `ExpenseAssetsTab.CalculateBalance` | src/components/assets/AssetsTab.tsx:65-90 | the fold's balance, whose available is total minus savings |
| `ExpenseAssetsTab.AvailableIsTotalMinusSavings` | src/components/assets/AssetsTab.tsx:65-90 | the fold keeps available equal to total minus savings after every row |
| `ExpenseAssetsTab.BalanceStep` | src/components/assets/AssetsTab.tsx:68-84 | one more row: 収入 adds to total and available, 支払い subtracts from both, 貯金 moves the amount from available to savings, anything else changes nothing |
| `ExpenseAssetsTab.BalancePermutation` | src/components/assets/AssetsTab.tsx:65-90 | the balance does not depend on the order of the rows |
| `ExpenseAssetsTab.FetchPathBalance` | src/components/assets/AssetsTab.tsx:50-90 | rows read from `expenses` never hold savings, so available equals total |
| `AssetsSummary.CalculateTotals` | src/components/assets/AssetsSummary.tsx:10-22 | the loop's income and expense totals are those of the reference fold |
| `AssetsSummary.BalanceIsSignedSum` | src/components/assets/AssetsSummary.tsx:24-25 | the balance shown is the sum of income amounts minus payment amounts over all rows |
| `AssetsSummary.EmptyTotals` | src/components/assets/AssetsSummary.tsx:10-25 | no rows: zero totals and a zero balance |
| `AssetsSummary.TotalsStep` | src/components/assets/AssetsSummary.tsx:12-19 | one more row: 収入 raises income, 支払い raises expense, any other type changes nothing |
| `PaymentMethodList.MethodKey` | src/components/assets/PaymentMethodList.tsx:11-16 | a row counts exactly when it is a 支払い with a non-empty method, and is counted under that method |
| `PaymentMethodList.CalculatePaymentMethodSummary` | src/components/assets/PaymentMethodList.tsx:10-18 | the loop computes the per-method grouped sums |
| `PaymentMethodList.SummaryValue` | src/components/assets/PaymentMethodList.tsx:10-18 | a method's value is the sum of the amounts of its payment rows, and the empty method has none |
| `PaymentMethodList.SumUnderEmptyMethod` | src/components/assets/PaymentMethodList.tsx:13 | nothing is ever counted under the empty method name |
| `PaymentMethodList.SummaryKeys` | src/components/assets/PaymentMethodList.tsx:10-18 | the methods listed are distinct and are exactly the non-empty methods of some payment row |
| `PaymentMethodList.SummaryTotal` | src/components/assets/PaymentMethodList.tsx:10-18 | the values add up to the amounts of all qualifying payment rows |
| `PaymentMethodList.HasDataIff` | src/components/assets/PaymentMethodList.tsx:21 | there is something to show exactly when some row qualifies |
| `Statistics.InRangeDates` | src/components/Statistics.tsx:14-23 | comparing `yyyy-MM-dd` strings against the range ends is comparing the dates |
| `Statistics.MonthRangeMeaning` | src/components/Statistics.tsx:14-23 | the month range holds exactly the dates of the selected month |
| `Statistics.YearRangeMeaning` | src/components/Statistics.tsx:25-34 | the year range holds exactly the dates of the full year of the selection, which for a selected year from 0 to 99 is 1900 plus it |
| `Statistics.MonthlyData` | src/components/Statistics.tsx:14-23 | the rows of the selected month |
| `Statistics.YearlyData` | src/components/Statistics.tsx:25-34 | the rows of the selected year, or of 1900 plus it when the selected year is from 0 to 99 |
| `Statistics.MonthlyWithinYearly` | src/components/Statistics.tsx:14-34 | the month's rows are the year's rows filtered to the month, except for a selected year from 0 to 99, where no row of the month is among the year's |
| `Statistics.TwoDigitYearSelection` | src/components/Statistics.tsx:14-34 | selecting 15 July of year 50 keeps a row of 1 July 0050 in the month's rows but not in the year's |
| `Statistics.PeriodData` | src/components/Statistics.tsx:57-58 | the period switch picks the month or the year selection |
| `Statistics.CalculateStatistics` | src/components/Statistics.tsx:36-55 | the loop's income, expense, balance (income minus expense) and per-category breakdown are those of the reference functions |
| `Statistics.IncomeColumn` | src/components/Statistics.tsx:47-51 | the breakdown's income values, key by key |
| `Statistics.ExpenseColumn` | src/components/Statistics.tsx:47-51 | the breakdown's expense values, key by key |
| `Statistics.AddSplitColumns` | src/components/Statistics.tsx:47-51 | adding a row to the breakdown adds its amount to the income column or to the expense column under its category |
| `Statistics.BreakdownColumns` | src/components/Statistics.tsx:47-51 | each column of the breakdown is the per-category sum of that side's amounts |
| `Statistics.BreakdownKeys` | src/components/Statistics.tsx:47-51 | the breakdown's categories are distinct and are exactly the categories of the rows |
| `Statistics.BreakdownGet` | src/components/Statistics.tsx:47-51 | a category's income and expense are the sums of those amounts under that category |
| `Statistics.BreakdownTotals` | src/components/Statistics.tsx:36-55 | the columns add up to the overall income and expense totals |
| `StatisticsTab.FilteredExpenses` | src/components/statistics/StatisticsTab.tsx:48-54 | the rows of the selected year whose zero-based month is the selected one |
| `StatisticsTab.FilteredAppend` | src/components/statistics/StatisticsTab.tsx:48-54 | the filter distributes over concatenation |
| `StatisticsTab.CategoryData` | src/components/statistics/StatisticsTab.tsx:56-59 | the loop computes the per-category grouped sums |
| `StatisticsTab.MonthlyData` | src/components/statistics/StatisticsTab.tsx:78-82 | the loop computes the per-`yyyy-MM` grouped sums |
| `StatisticsTab.CategoryDataSums` | src/components/statistics/StatisticsTab.tsx:56-59 | a category's value is the sum of its rows, and the values add up to the tab's total |
| `StatisticsTab.MonthlyDataSingleKey` | src/components/statistics/StatisticsTab.tsx:78-82 | the filtered rows all share one month, so the bar data is one bar holding the total, or none |
| `StatisticsTab.Average` | src/components/statistics/StatisticsTab.tsx:163-166 | the rounded mean: the nearest integer, halves rounded up, dividing by one when there are no rows |
| `StatisticsTab.AverageOfEmpty` | src/components/statistics/StatisticsTab.tsx:163-166 | no rows: the average is zero |
| `StatisticsTab.TopCategory` | src/components/statistics/StatisticsTab.tsx:172 | '-' when there are no categories; otherwise the name of the first entry with the largest value (the head of the stable sort), or '-' when that name is empty |
| `StatisticsTab.FirstOfStableSort` | src/components/statistics/StatisticsTab.tsx:172 | the head of a stable descending sort is the first entry with the largest value |
| `StatisticsTab.YearChoices` | src/components/statistics/StatisticsTab.tsx:105 | five consecutive years, the current one in the middle |
| `CalendarTab.Daily` | src/components/calendar/CalendarTab.tsx:72-79 | exactly the rows of the selected day |
| `CalendarTab.Monthly` | src/components/calendar/CalendarTab.tsx:81-88 | exactly the rows of the selected month |
| `CalendarTab.DailyWithinMonthly` | src/components/calendar/CalendarTab.tsx:54-88 | the day's rows are the month's rows filtered to the day |
| `CalendarTab.SelectionsPreserveOrder` | src/components/calendar/CalendarTab.tsx:72-88 | both selections distribute over concatenation |
| `CalendarTab.MonthlyTotal` | src/components/calendar/CalendarTab.tsx:90-102 | the loop's income and expense totals are those of the reference fold |
| `CalendarTab.MonthTotalsPartition` | src/components/calendar/CalendarTab.tsx:90-102 | income plus expense is the sum of all the month's amounts |
| `CalendarTab.PanelAgreesWithMonthTotals` | src/components/calendar/CalendarTab.tsx:397-425 | the 本日の収支 panel's expense is the month's expense; its income misses exactly the rows of neither type, so its 差引 is 月間収支 less those rows |
| `CalendarTab.PanelNetOfFormatted` | src/components/calendar/CalendarTab.tsx:397-425 | on formatted rows, all 'income' or 'expense', the panel's 差引 equals 月間収支 |
| `CalendarTab.NetIsSignedSum` | src/components/calendar/CalendarTab.tsx:389-390 | the net shown is the sum of the amounts with expense rows negated |
| `CalendarTab.CategoryIdsOf` | src/components/calendar/CalendarTab.tsx:145 | the rows' category ids, in order |
| `CalendarTab.CategoryIds` | src/components/calendar/CalendarTab.tsx:145 | the distinct category ids: no repeats, and exactly those some row has |
| `CalendarTab.CategoryMap` | src/components/calendar/CalendarTab.tsx:156-159 | the loop builds the id-to-category map of the reference function |
| `CalendarTab.CategoryMapLookup` | src/components/calendar/CalendarTab.tsx:156-159 | an id is found exactly when some category has it, and then it finds the last category with that id |
| `CalendarTab.FormatExpense` | src/components/calendar/CalendarTab.tsx:161-177 | id, date and amount copied; type 'income' or 'expense'; the category's name if found and non-empty, else 'Unknown'; an empty memo becomes none |
| `CalendarTab.FormattedExpenses` | src/components/calendar/CalendarTab.tsx:161-177 | every row formatted, in order |
| `CalendarTab.FormattedCategoryKnown` | src/components/calendar/CalendarTab.tsx:168 | a row shows 'Unknown' exactly when no category has its id, or the one found has an empty name or the name 'Unknown' |
| `ExpenseChart.MonthlyExpenses` | src/components/ExpenseChart.tsx:14-21 | exactly the 'expense' rows of the selected month |
| `ExpenseChart.SliceKey` | src/components/ExpenseChart.tsx:25 | a row is tallied under its category exactly when the category is non-empty |
| `ExpenseChart.CategoryData` | src/components/ExpenseChart.tsx:23-30 | the loop computes the per-category grouped sums |
| `ExpenseChart.CategoryDataSlices` | src/components/ExpenseChart.tsx:23-30 | the slices are distinct, one per non-empty category of the month's expense rows, each holding the sum of its rows |
| `ExpenseChart.TotalExpenseOfRows` | src/components/ExpenseChart.tsx:53 | the total is the sum over all given rows of the amounts of the month's expense rows that have a category |
| `ExpenseChart.IncomeRowIgnored` | src/components/ExpenseChart.tsx:19 | adding an income row leaves the chart's rows unchanged |
| `ExpenseChart.NoDataIff` | src/components/ExpenseChart.tsx:55-64 | "no data" is shown exactly when no row is an expense of the selected month |
| `HomePage.Submit` | src/app/page.tsx:223-232 | the list grows by one new expense at the end, with the given id, the selected date and the form's fields |
| `HomePage.Delete` | src/app/page.tsx:234-238 | exactly the entries with a different id remain |
| `HomePage.DeleteAbsent` | src/app/page.tsx:234-238 | deleting an id that no entry has changes nothing |
| `HomePage.DeleteIdempotent` | src/app/page.tsx:234-238 | deleting twice is deleting once |
| `HomePage.DeleteUndoesSubmit` | src/app/page.tsx:223-238 | deleting a freshly submitted id gives back the list as it was before the submission |
| `HomePage.DailyExpenses` | src/app/page.tsx:240-247 | exactly the entries of the selected date |
| `HomePage.DailyTotalsPartition` | src/app/page.tsx:249-255 | the day's income and expense totals add up to the sum of its amounts |
| `HomePage.SubmitDailyTotals` | src/app/page.tsx:223-255 | a submission raises the selected day's matching total by its amount and leaves the other total |
| `HomePage.CredentialGuard` | src/app/page.tsx:84-87 | either field empty alerts instead of signing in, and both filled proceeds (also sign-up at 166-169) |
| `HouseholdTab.DateClick` | src/components/household/HouseholdTab.tsx:27-30 | selects the day and opens the form, leaving the list |
| `HouseholdTab.AddExpense` | src/components/household/HouseholdTab.tsx:32-35 | appends the expense and closes the form, keeping the selected day |
| `HouseholdTab.DayExpenses` | src/components/household/HouseholdTab.tsx:46-48 | exactly the rows dated that day |
| `HouseholdTab.DayTotalSnoc` | src/components/household/HouseholdTab.tsx:46-49 | one more row raises its own day's total only |
| `HouseholdTab.AddExpenseDayTotals` | src/components/household/HouseholdTab.tsx:32-49 | after adding an expense, its day's total rises by its amount and every other day's stays |
| `HouseholdTab.MonthDays` | src/components/household/HouseholdTab.tsx:22-25 | the month's days, 1 to its length, in order |
| `HouseholdTab.SumDayTotalsEmpty` | src/components/household/HouseholdTab.tsx:45-49 | no rows give zero day totals |
| `HouseholdTab.SumDayTotalsSnoc` | src/components/household/HouseholdTab.tsx:45-49 | over distinct days, one more row raises the sum of the day totals by its amount exactly when its date is one of them |
| `HouseholdTab.MonthDaysMembers` | src/components/household/HouseholdTab.tsx:22-25 | the grid's days are distinct, and a date is one of them exactly when it lies in the month |
| `HouseholdTab.MonthTotalSnoc` | src/components/household/HouseholdTab.tsx:45-49 | one more row raises the month's sum exactly when it lies in the month |
| `HouseholdTab.MonthOfDayTotals` | src/components/household/HouseholdTab.tsx:22-49 | the grid's day totals add up to the sum of the month's rows: no row is counted twice or missed |
| `Sorting.FilterSwapPair` | src/components/AssetsTab.tsx:90 | exchanging two neighbours does not change a filter that at most one of them passes |
| `Sorting.SwapKeepsTies` | src/components/AssetsTab.tsx:90 | exchanging two neighbours with different keys keeps the order among the elements of every key |
| `Sorting.StableHead` | src/components/statistics/StatisticsTab.tsx:172 | after a reordering that keeps ties, the head is, in the input, the first element with its key |
| `Sorting.SameTiesTransitive` | src/components/AssetsTab.tsx:90 | keeping ties composes over successive reorderings |
| `Sorting.SwapDown` | src/components/AssetsTab.tsx:90 | exchanges two neighbouring elements and nothing else; with different keys, the order among equal keys is kept |
| `Sorting.SinkStep` | src/components/AssetsTab.tsx:90 | moves a larger element one place left, keeping the rest of the prefix sorted, the contents a permutation and the order among equal keys |
| `Sorting.InsertAt` | src/components/AssetsTab.tsx:90 | moves an element into a sorted prefix, keeping the prefix sorted, the contents a permutation and the order among equal keys |
| `Sorting.SortDescending` | src/components/AssetsTab.tsx:90 | sorted by key, largest first, a permutation of the input, and stable: elements with equal keys keep their input order |
| `CategoryHook.PatchOf` | src/hooks/useCategories.ts:48-51 | a whole category as a patch is never the empty patch |
| `CategoryHook.Merge` | src/hooks/useCategories.ts:38-39 | `{ ...category, ...data }`: each present field replaces the category's own, each absent field keeps it |
| `CategoryHook.MergeLaws` | src/hooks/useCategories.ts:38-39 | the empty patch changes nothing, and merging twice is merging once |
| `CategoryHook.MergeWhole` | src/hooks/useCategories.ts:38-39 | merging a whole category replaces the old one, except for an icon the new one lacks |
| `CategoryHook.WithId` | src/hooks/useCategories.ts:22-30 | the new category has the generated id and exactly the input's fields |
| `CategoryHook.UpdateList` | src/hooks/useCategories.ts:32-40 | entries whose id matches are merged with the patch; every other entry stays; same length |
| `CategoryHook.UpdateListUnchanged` | src/hooks/useCategories.ts:32-40 | an empty patch, or an id that no entry has, leaves the list |
| `CategoryHook.UpdateListIdempotent` | src/hooks/useCategories.ts:32-40 | the same update twice is the update once, when the patch keeps the id |
| `CategoryHook.DeleteList` | src/hooks/useCategories.ts:42-46 | exactly the entries with a different id remain |
| `CategoryHook.DeleteListIdempotent` | src/hooks/useCategories.ts:42-46 | deleting twice is deleting once |
| `CategoryHook.InitialList` | src/hooks/useCategories.ts:11-20 | the saved list when there is one, else the defaults |
| `CategoryHook.CategoriesState.constructor` | src/hooks/useCategories.ts:7-9 | no categories and nothing being edited |
| `CategoryHook.CategoriesState.Mount` | src/hooks/useCategories.ts:11-20 | the list becomes the initial list; the editing state is kept |
| `CategoryHook.CategoriesState.AddCategory` | src/hooks/useCategories.ts:22-30 | the new category goes at the end; the editing state is kept |
| `CategoryHook.CategoriesState.UpdateCategory` | src/hooks/useCategories.ts:32-40 | the list is updated and editing ends |
| `CategoryHook.CategoriesState.DeleteCategory` | src/hooks/useCategories.ts:42-46 | the list is filtered; the editing state is kept |
| `CategoryHook.CategoriesState.StartEditing` | src/hooks/useCategories.ts:48-51 | editing starts on the category's id with the whole category as edit data; the list is kept |
| `CategoryHook.CategoriesState.CancelEditing` | src/hooks/useCategories.ts:53-56 | editing ends; the list is kept |
| `SignUp.OwnedBy` | src/app/sign-up/page.tsx:9-12 | each category copied with the new owner, in order |
| `SignUp.DefaultCategories` | src/app/sign-up/page.tsx:9-12 | as many rows as both catalogs together |
| `SignUp.DefaultCategoriesShape` | src/app/sign-up/page.tsx:9-16 | 34 rows: the 19 expense defaults, then the 15 income defaults, each owned by the new user |
| `SignUp.DefaultCategoriesCopyFields` | src/app/sign-up/page.tsx:9-12 | every field but the owner is the catalog entry's |
| `SignUp.DefaultCategoriesDuplicateIds` | src/app/sign-up/page.tsx:14-16 | the single insert carries five ids twice, so its ids are not distinct |
| `Logging.Logger.constructor` | src/utils/logger.ts:12-13 | an empty buffer and history |
| `Logging.Logger.AddLog` | src/utils/logger.ts:28-51 | the entry is pushed and the oldest dropped over 1000; the buffer is always the last 1000 entries of the history |
| `Logging.Logger.LogInfo` | src/utils/logger.ts:53-55 | `addLog` at level info |
| `Logging.Logger.LogWarn` | src/utils/logger.ts:57-59 | `addLog` at level warn |
| `Logging.Logger.LogError` | src/utils/logger.ts:61-63 | `addLog` at level error |
| `Logging.Logger.GetLogs` | src/utils/logger.ts:65-67 | a fresh copy holding the buffer |
| `Logging.Logger.ClearLogs` | src/utils/logger.ts:69-71 | buffer and history start over |
| `Performance.MeasuredMetric` | src/utils/performance.ts:94-99 | no metric when there is no entry; otherwise one from the last entry's start time and duration, without data |
| `Performance.PerformanceMonitor.constructor` | src/utils/performance.ts:12-13 | no metrics |
| `Performance.PerformanceMonitor.AddMetric` | src/utils/performance.ts:63-81 | pushed, and the oldest dropped over 100; the buffer is always the last 100 metrics of the history |
| `Performance.PerformanceMonitor.EndMeasure` | src/utils/performance.ts:89-101 | records the last entry's metric when the timing API exists and has an entry; otherwise nothing changes |
| `Performance.PerformanceMonitor.GetMetrics` | src/utils/performance.ts:103-105 | a fresh copy holding the buffer |
| `Accessibility.Increase` | src/components/common/AccessibilityProvider.tsx:55 | `min(size + 2, 24)`: two points larger when that is at most 24, otherwise 24 |
| `Accessibility.Decrease` | src/components/common/AccessibilityProvider.tsx:56 | `max(size - 2, 12)`: two points smaller when that is at least 12, otherwise 12 |
| `Accessibility.StepsKeepGoodSize` | src/components/common/AccessibilityProvider.tsx:55-56 | within 12..24 a step stays within it, and is a no-op exactly at the bound |
| `Accessibility.StepsUndoEachOther` | src/components/common/AccessibilityProvider.tsx:55-56 | away from the bounds, a step up and a step down undo each other |
| `Accessibility.AnyStepsKeepGoodSize` | src/components/common/AccessibilityProvider.tsx:17 | any sequence of steps from 16 stays within 12..24 |
| `Accessibility.AccessibilitySettings.constructor` | src/components/common/AccessibilityProvider.tsx:16-17 | high contrast off, font size 16 |
| `Accessibility.AccessibilitySettings.ToggleHighContrast` | src/components/common/AccessibilityProvider.tsx:53 | flips high contrast only |
| `Accessibility.AccessibilitySettings.IncreaseFontSize` | src/components/common/AccessibilityProvider.tsx:55 | steps the font size up only |
| `Accessibility.AccessibilitySettings.DecreaseFontSize` | src/components/common/AccessibilityProvider.tsx:56 | steps the font size down only |
| `Accessibility.AccessibilitySettings.HandleKeyPress` | src/components/common/AccessibilityProvider.tsx:21-33 | Alt+C toggles contrast, Alt++ and Alt+- step the size, anything else changes nothing |
| `Accessibility.ToggleTwice` | src/components/common/AccessibilityProvider.tsx:53 | toggling twice restores the settings |
| `Loading.Step` | src/hooks/useLoading.ts:21-28 | below 90 the progress rises by 10; from 90 on it stays; it never falls |
| `Loading.StepsFromZero` | src/hooks/useLoading.ts:21-28 | k steps from zero give min(10k, 90) |
| `Loading.LoadingState.constructor` | src/hooks/useLoading.ts:5-6 | not loading, progress 0 |
| `Loading.LoadingState.Start` | src/hooks/useLoading.ts:11-14 | loading, progress 0 |
| `Loading.LoadingState.Progress` | src/hooks/useLoading.ts:21-28 | one step, never backwards |
| `Loading.LoadingState.Complete` | src/hooks/useLoading.ts:16-19 | not loading, progress 100 |
| `CalendarNav.NextMonth` | src/components/Calendar.tsx:18-20 | the first of the next month of the full year, December rolling over to January of the next year; one month on, plus 1900 years from a two-digit year |
| `CalendarNav.PrevMonth` | src/components/Calendar.tsx:22-24 | the first of the previous month of the full year, January rolling back to December of the previous year; one month back, plus 1900 years from a two-digit year |
| `CalendarNav.MonthIndexDetermines` | src/components/Calendar.tsx:18-24 | the month count fixes year and month |
| `CalendarNav.NavigationInverse` | src/components/Calendar.tsx:18-24 | forward then back, or back then forward, is the first of the same month of the full year, except December of year -1 (back to December 1899) and January of year 100 (forward to January 2000) |
| `CalendarNav.NavigateMoves` | src/components/Calendar.tsx:18-24 | after any non-empty series of clicks the month moved by forwards minus backs, plus 1900 years for each click made from a two-digit year, on day 1 |
| `CalendarNav.TwoDigitYearJumps` | src/components/Calendar.tsx:18-24 | forward from June of year 50 is July 1950; back then forward from January of year 100 is January 2000 |
| `CalendarNav.CalendarMonth.constructor` | src/components/Calendar.tsx:11 | starts at today |
| `CalendarNav.CalendarMonth.MoveNext` | src/components/Calendar.tsx:18-20 | moves to the next month |
| `CalendarNav.CalendarMonth.MovePrev` | src/components/Calendar.tsx:22-24 | moves to the previous month |
| `AuthConfig.Authorized` | src/app/config.ts:22-32 | refused exactly for a `/dashboard`-prefixed path without a signed-in user |
| `AuthConfig.AuthorizedCases` | src/app/config.ts:22-32 | a signed-in user or a path outside the dashboard is always admitted; a session without a user counts as signed out |
| `AuthConfig.DashboardOldProtected` | src/app/config.ts:24 | the prefix test also guards `/dashboard-old` but not `/dash` |

## Left out

- Supabase reads and writes, `localStorage`, alerts, routing and rendering are not modelled. Their
  effects enter as parameters (fetched rows, saved lists) or as the payload values a call would send.
- The clock, `Math.random`/`crypto` id generation and `setInterval` timers are parameters: the
  current date, the generated id and one call per tick.
- Amounts are unbounded integers. JavaScript numbers are doubles, so fractional amounts and overflow
  are not modelled.
- Dates are calendar dates (year, month, day). Time of day, time zones and parsing of date strings by
  `new Date(...)` are not modelled.
- `formatDate`'s fallback for an unparsable date in src/components/calendar/CalendarTab.tsx:40-52 is
  not modelled, because model dates are always valid. Its regular path returns a `Date` at midnight
  of the parsed day, which is what the model's (year, month, day) triple already is.
- CalendarNav.NextMonth: a year beyond ±275760, where the `Date` constructor gives an Invalid Date,
  is not modelled; model years are unbounded (the same holds for `CalendarNav.PrevMonth`).
- String order is code-point order, which agrees with JavaScript's UTF-16 code-unit order on the
  Basic Multilingual Plane; only ASCII dates are compared. Likewise `|s|` in `Uuid` counts
  characters, where `.length` counts UTF-16 code units; the two agree on such text.
- Tally.AddGet: a key named after an `Object.prototype` member ("toString", "constructor", "valueOf")
  is not modelled. In the source's `{}` accumulators `acc[k] || 0` then reads the inherited function,
  not 0, and `acc["__proto__"] = ...` creates no key; in the model every missing key counts as 0.
- Dates.FormatYmdOrder: years are 1 to 9999. date-fns prints year 0 as "0001" and years above 9999
  with five digits, so for those years the 'yyyy-MM-dd' strings would not be distinct and would not
  sort as the dates do; the model does not represent them.
- Dates.Date: a day is any of 1 to 31 in every month, so the type admits dates that do not exist
  (2024-02-31), which a JavaScript `Date` would roll over into the next month. The lemmas over
  `FormatYmd` and `Ordinal` hold on this superset; `Dates.Valid` names the existing dates.
- Tally.Keys: lists keys in insertion order. JavaScript lists integer-like keys ("0", "42") first, in
  ascending order, so a category or payment method named by such a string is ordered differently.
- `StatisticsTab` reads a state list that is initialised empty and never set in
  src/components/statistics/StatisticsTab.tsx:46. The model takes the list as a parameter, so its
  lemmas describe the computation, not the always-empty screen.
- src/components/ExpenseChart.tsx imports `Expense` from src/types/expense.ts, which has a string
  `date` and no `category` field, yet its reduce reads `expense.category`. The model reads the formatted rows of the calendar tab, which have it.
- MergedAssetsTab.InsertThenFetch: excludes a row whose type is the raw text 'savings' or 'transfer'. The
  insert stores that text unchanged and the fetch reads it back as 貯金 or 振替, so the round trip does
  not hold for it. It also assumes a canonical type (`Ledger.Canonical`), which every row read through
  `Ledger.ParseLabel` has. `Row.paymentMethod` is the snake_case `payment_method` property that
  `handleSave` reads (src/components/AssetsTab.tsx:256-257, 288). TransactionModal sets only the
  camelCase `paymentMethod`, which is never read, so every payment the app itself creates is inserted
  without a payment method and fetched back with ''; the round trip's payment-method part holds only for
  callers that set `payment_method`.
- `data?: any` of the logger and the performance monitor is modelled as an optional text.
  Performance times are integers in milliseconds.
- A patch in `CategoryHook` cannot hold an explicit `undefined` that spread would copy over a field;
  an absent field is the only way to leave a field alone.
- Sign-up's `localStorage.clear()` and the redirect after sign-up are side effects and not modelled.
- The console output of the logger in development mode, and its production branch, are not modelled.
- The production-only reporting branch of the performance monitor is empty in the source and not
  modelled. `startMeasure` only sets a browser mark; its effect enters as the list of entries
  `EndMeasure` receives. When `startMeasure` never ran for the name, `performance.measure` in
  src/utils/performance.ts:92 throws; `EndMeasure` does not model that exception and treats the
  case as an empty entry list, recording nothing.
- The UI components that only lay out data (modals, forms, charts' drawing options) are not modelled.

## Findings

| source | as written | input that shows it | evidently intended | confidence | as-written member | corrected member |
|---|---|---|---|---|---|---|
| src/components/AssetsTab.tsx:211-224 | editing a listed row always updates the `expenses` table, even for a 貯金 or 振替 row, which was fetched from and is inserted into `transactions`; reachable only once the modal honours the edit prop, since TransactionModal always creates a fresh id | a save of the listed row with id "t1" and type 貯金 | the update goes to the same table as a typed delete of that type (lines 134-141) | medium, not executed | `MergedAssetsTab.SaveTargetMisroutesExample` | `MergedAssetsTab.SaveTargetRoutedAgrees` |
| src/components/AssetsTab.tsx:338 | the list's delete calls `handleDelete(id, undefined)`: TransactionList's `onDelete(transaction.id)` passes no type, so every delete goes to `expenses`, including a 貯金 or 振替 row fetched from `transactions` | deleting a listed row of type 貯金 fetched from `transactions` | the row's type reaches `handleDelete`, which then deletes from the table the row came from | medium, not executed | `MergedAssetsTab.DeleteFromListMisses` | `MergedAssetsTab.DeleteFindsFetchedRow` |
