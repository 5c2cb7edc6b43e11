# Subscription tracker core in Dafny

This project models the logic of a subscription-tracking web application. It
does not model the user interface. The application keeps a list of recurring
subscriptions: name, price in minor currency units, billing cycle, category,
status, currency and next billing date. Over that list it offers:

- a mock API that filters, sorts and pages the list and creates, updates and
  deletes rows;
- a dashboard API that computes monthly and annual spend, a per-category
  breakdown, a twelve-month trend and the payments due in the next thirty
  days, grouped by date;
- three Redux slices (subscriptions, settings, dashboard) whose reducers
  update the store;
- formatting helpers for dates, relative times and currency amounts;
- the decision logic of several components:
  - the filter dialog;
  - the sign-in page with its throttle and countdown;
  - the settings dialog;
  - the upcoming-payments card;
  - the subscriptions table;
  - the edit-profile dialog.

Each source file is one Dafny module:

| module | file | source |
|---|---|---|
| `Types` | types.dfy | src/types/subscription.ts |
| `Sorting` | sorting.dfy | the stable `Array.prototype.sort` the API relies on |
| `SubscriptionsApi` | subscriptions_api.dfy | src/api/subscriptionsApi.ts |
| `DashboardApi` | dashboard_api.dfy | src/api/dashboardApi.ts |
| `SubscriptionsSlice` | subscriptions_slice.dfy | src/features/subscriptions/subscriptionsSlice.ts |
| `SettingsSlice` | settings_slice.dfy | src/features/settings/settingsSlice.ts |
| `DashboardSlice` | dashboard_slice.dfy | src/features/dashboard/dashboardSlice.ts |
| `Formatters` | formatters.dfy | src/utils/formatters.ts |
| `FilterDialog` | filter_dialog.dfy | src/components/subscriptions/FilterDialog.tsx |
| `Login` | login.dfy | src/pages/Login.tsx |
| `SettingsDialog` | settings_dialog.dfy | src/components/settings/SettingsDialog.tsx |
| `UpcomingPayments` | upcoming_payments.dfy | src/components/dashboard/UpcomingPayments.tsx |
| `SubscriptionsList` | subscriptions_list.dfy | src/components/subscriptions/SubscriptionsList.tsx |
| `EditProfile` | edit_profile.dfy | src/components/dashboard/EditProfileDialog.tsx |

`Wrappers` (Option, Result), `Strings` (ASCII lower/upper case, substring
search, `split`, decimal printing) and `Seqs` (small facts about slicing and
concatenating sequences) are support modules.

The code that is pure in the source is modelled as functions:
- the fetch pipeline;
- the analytics figures;
- the formatters;
- the dialogs' derived values.

The code that updates state in place is modelled with classes:
- the mock store, with `unshift`, index assignment and `splice`;
- the reducers, which assign fields of the draft state;
- the sign-in form, the settings dialog's local copy and the profile dialog,
  which keep React state;
- the date-grouping `reduce`, which pushes into its accumulator in place. It
  is a method with a loop, proved equal to a function.

The three store slices (`SubscriptionsSlice.Slice`, `SettingsSlice.Slice`
and `DashboardSlice.Slice`) expose a `Snapshot()` of their fields, and each
reducer states the whole new snapshot in terms of the old one. The other
classes (`SubscriptionsApi.SubscriptionStore`, `Login.LoginForm`,
`SettingsDialog.SettingsForm` and `EditProfile.ProfileForm`) have no
snapshot: each of their methods states the new value of every field.

Everything the source gets from outside is a parameter:
- the clock, and `Date` parsing (`string -> Option<int>`, where `None` is an
  invalid date or `NaN`);
- `localeCompare`;
- `Intl` and date-fns;
- `Math.random`;
- the outcome of each Supabase request.

Prices are integers in minor units. Derived amounts are exact `real`s.

Where the source has a defect (see Findings), the operations follow the
code as written: the analytics carry the shifted category breakdown, the
filter dialog offers the "nextBillingDate" options, and the table prints
"monthlyly". The corrected definition stands beside each, with the intended
property proved about it.

## Model

Each row names the member whose contract states the property. Where an
operation is computed by a function that only computes, the row names the
lemma about it and writes the function's name in the third column.

| member | source | states |
|---|---|---|
| Types.EnumerationsAreExact | src/types/subscription.ts:3-19 | There are exactly 4 billing cycles, 8 categories, 4 statuses and 6 currencies, JPY is not a currency, and each enumeration's names are distinct. |
| Types.FromCreateRequest | src/types/subscription.ts:95-112 | A created subscription is the request plus id, `createdAt` = `updatedAt` = now, with no computed fields; projecting it back gives the request. |
| Types.ApplyUpdate | src/api/subscriptionsApi.ts:114-118 | An update spreads the payload over the row, field by field: a field present in the payload wins, an absent one keeps the row's value. The id becomes the payload's and `updatedAt` is refreshed. `createdAt`, `lastBillingDate` and the computed fields are kept. |
| Types.IdOnlyUpdateTouchesTimestamp | src/types/subscription.ts:114-116 | A payload with only the id changes nothing but `updatedAt`. |
| Types.ApplyUpdateIdempotent | src/api/subscriptionsApi.ts:114-118 | Applying the same update twice at the same instant equals applying it once. |
| Types.MergeFilters | src/features/subscriptions/subscriptionsSlice.ts:108-110 | Each filter field present in the patch is overwritten, and each absent field is kept. |
| Types.MergeFiltersLaws | src/features/subscriptions/subscriptionsSlice.ts:108-110 | An empty patch is the identity, and merging a patch twice equals merging it once. |
| Sorting.Insert | src/api/subscriptionsApi.ts:58-74 | Inserting adds exactly the one element: the multiset grows by it. |
| Sorting.Sort | src/api/subscriptionsApi.ts:58-74 | The sort returns a permutation of its input. |
| Sorting.SortSorted | src/api/subscriptionsApi.ts:58-74 | Under a total preorder, the output is ordered by the comparator. |
| Sorting.SortStable | src/api/subscriptionsApi.ts:58-74 | Elements that compare equal keep their input order (stability). |
| Sorting.SortAllTiesIsIdentity | src/api/subscriptionsApi.ts:71-72 | A comparator that finds everything equal leaves the sequence unchanged. |
| SubscriptionsApi.AnyTagContains | src/api/subscriptionsApi.ts:33 | Holds iff some tag, lower-cased, contains the query. |
| SubscriptionsApi.KeepAll | src/api/subscriptionsApi.ts:27-55 | The rows that pass every criterion form a subsequence of the input. |
| SubscriptionsApi.KeepAllCounts | src/api/subscriptionsApi.ts:27-55 | A row that passes every criterion keeps its multiplicity, and any other row is dropped. |
| SubscriptionsApi.ApplyAllIsKeepAll | src/api/subscriptionsApi.ts:27-55 | Applying the filters one after another equals one pass that keeps the rows passing all of them. |
| SubscriptionsApi.ActiveCriteriaMeanAdmits | src/api/subscriptionsApi.ts:27-55 | The filters that apply (search only when non-empty; category, status and currency only when non-empty; price always, inclusive) combine conjunctively into `Admits`. |
| SubscriptionsApi.FilterSound | src/api/subscriptionsApi.ts:27-55 | `FilterSubscriptions(rows, f)`, the chained `.filter` calls, is a subsequence of the store and keeps exactly the admitted rows, with their multiplicities. |
| SubscriptionsApi.EmptyCategoriesRestrictNothing | src/api/subscriptionsApi.ts:38-40 | An empty category list filters like the list of all categories. |
| SubscriptionsApi.CompareByKey | src/api/subscriptionsApi.ts:58-74 | For price and the three date keys, the comparator `Compare` is the key difference times +1 (asc) or -1 (desc). |
| SubscriptionsApi.ComparatorPreorder | src/api/subscriptionsApi.ts:58-74 | When the key comparisons are consistent, the comparator is a total preorder. |
| SubscriptionsApi.SortSound | src/api/subscriptionsApi.ts:58-74 | The sort step `SortSubscriptions` is a permutation, ordered by the comparator and stable. |
| SubscriptionsApi.SortByPriceOrders | src/api/subscriptionsApi.ts:63-64 | Sorting by price orders prices ascending or descending as asked. |
| SubscriptionsApi.SortByNextBillingOrders | src/api/subscriptionsApi.ts:65-66 | Sorting by next billing orders the parsed instants ascending or descending when every date parses. |
| SubscriptionsApi.UnknownSortKeyKeepsOrder | src/api/subscriptionsApi.ts:71-72 | A `sortBy` the switch does not handle leaves the filtered order unchanged. |
| SubscriptionsApi.RelativeIndex | src/api/subscriptionsApi.ts:78 | `slice` clamps an index into 0..length, an index already in range is kept, and a negative index counts from the end (length + index, or 0 when that is below 0). |
| SubscriptionsApi.JsSlice | src/api/subscriptionsApi.ts:78 | The slice holds `to - from` elements when the resolved start `from` is before the resolved end `to`, and none otherwise; element j is the list's element `from + j`. It is never longer than the list. |
| SubscriptionsApi.NonPositivePageCountsFromEnd | src/api/subscriptionsApi.ts:77-78 | A page below 1 is not rejected: page -1 of size 10 over 25 rows is rows 5 to 14, and page 0 is empty. |
| SubscriptionsApi.JsSliceWithin | src/api/subscriptionsApi.ts:78 | A slice is a sub-multiset of the list. |
| SubscriptionsApi.Listing | src/api/subscriptionsApi.ts:58-74 | The sorted list holds the same rows as the filtered list. |
| SubscriptionsApi.FetchSubscriptions | src/api/subscriptionsApi.ts:21-86 | `page` and `limit` are echoed, `total` is the filtered length, and every returned row is in the store and admitted by the filters. |
| SubscriptionsApi.PageStart | src/api/subscriptionsApi.ts:77 | The page starts at (page-1)*limit, which is non-negative for page ≥ 1. |
| SubscriptionsApi.PageWindow | src/api/subscriptionsApi.ts:76-85 | For page ≥ 1, the page is the listing from (page-1)*limit to min(len, page*limit). It has at most `limit` rows, and its `total` does not depend on page or limit. |
| SubscriptionsApi.PagesPartitionListing | src/api/subscriptionsApi.ts:76-82 | Pages 1..k concatenated, for k*limit ≥ total, are exactly the listing, so every filtered row appears once. |
| SubscriptionsApi.IndexOfId | src/api/subscriptionsApi.ts:109 | `findIndex` gives the first row with the id, or nothing when no row has it. |
| SubscriptionsApi.SubscriptionStore.constructor | src/api/subscriptionsApi.ts:9 | The store starts with the seed rows. |
| SubscriptionsApi.SubscriptionStore.Fetch | src/api/subscriptionsApi.ts:21-86 | A fetch returns `FetchSubscriptions` of the current rows and leaves the store unchanged. |
| SubscriptionsApi.SubscriptionStore.Create | src/api/subscriptionsApi.ts:89-103 | The new row is built from the request with the given id and time, and is prepended: rows = [new] + old rows. |
| SubscriptionsApi.SubscriptionStore.Update | src/api/subscriptionsApi.ts:106-122 | An unknown id fails with "not found" and leaves the store unchanged. Otherwise only the first row with the id is replaced, by the updated row. |
| SubscriptionsApi.SubscriptionStore.Delete | src/api/subscriptionsApi.ts:125-134 | An unknown id fails and leaves the store unchanged. Otherwise exactly the first row with the id is removed. |
| SubscriptionsApi.UpdateFrame | src/api/subscriptionsApi.ts:106-122 | An update keeps the length and every id, and changes no other row. |
| SubscriptionsApi.DeleteFrame | src/api/subscriptionsApi.ts:125-134 | A delete shortens the store by one, removes a row with the id, and keeps the others in order. |
| DashboardApi.MonthlyEquivalent | src/api/dashboardApi.ts:14-27 | The monthly amount by cycle is p/100 (monthly), p/1200 (yearly), p×4.33/100 (weekly), p×30/(100×days) (custom with days), and 0 (custom without days). |
| DashboardApi.MonthlyEquivalentNonNegative | src/api/dashboardApi.ts:14-27 | A non-negative price gives a non-negative monthly amount. |
| DashboardApi.ActiveSpendsAllActive | src/api/dashboardApi.ts:12-27 | When all subscriptions are active, the spends list `ActiveSpends(rows)` has one entry per subscription, each its monthly amount, index by index. |
| DashboardApi.TotalMonthlySpendAdditive | src/api/dashboardApi.ts:29 | `TotalMonthlySpend` over a concatenation is the sum of the totals. One subscription contributes its monthly amount if active, else 0. |
| DashboardApi.NothingActiveSpendsNothing | src/api/dashboardApi.ts:29-30 | With no active subscriptions the monthly total is 0. |
| DashboardApi.CategoryBreakdownMeaning | src/api/dashboardApi.ts:33-39 | In the corrected breakdown `CategoryBreakdown(rows)`, each category's value is the monthly spend of its active subscriptions, and a category is present iff one of them is active. |
| DashboardApi.CategoryBreakdownSums | src/api/dashboardApi.ts:33-39 | The category values, a category with no entry counting as zero, add up to the monthly total. |
| DashboardApi.AsWrittenAgreesWhenAllActive | src/api/dashboardApi.ts:36 | With every subscription active, the breakdown as written, `CategoryBreakdownAsWritten(rows)`, equals the corrected one. |
| DashboardApi.AsWrittenLosesSpend | src/api/dashboardApi.ts:36 | The breakdown as written shows 0 for an active category whose total spend is 10 (see Findings). |
| DashboardApi.TotalsExample | src/api/dashboardApi.ts:29-30 | 9.99 monthly plus 120.00 yearly gives 19.99 per month and 239.88 per year. |
| DashboardApi.MonthlyTrend | src/api/dashboardApi.ts:42-49 | The trend has 12 points, oldest first: point i carries the label that the month-label parameter gives for 11 − i months back. |
| DashboardApi.TrendWithinBand | src/api/dashboardApi.ts:42-49 | With random values in [0,1), each point lies in [0.8, 1.2) times the monthly total. |
| DashboardApi.Upcoming | src/api/dashboardApi.ts:52-59 | A subscription is kept iff `IsUpcoming` holds: it is active and its next billing lies between today and today + 30 days. |
| DashboardApi.UpcomingSound | src/api/dashboardApi.ts:52-59 | The upcoming list keeps the source's order (it is a subsequence of the rows) and holds each upcoming row as many times as the rows do, and no other row. |
| DashboardApi.UpcomingBoundary | src/api/dashboardApi.ts:52-59 | The window includes both ends, excludes one millisecond past either end, and excludes an unparseable date. |
| DashboardApi.DateKeyIsDatePart | src/api/dashboardApi.ts:61 | The group key `DateKey(s)` is the text before the first 'T'. |
| DashboardApi.GroupsFor | src/api/dashboardApi.ts:60-76 | The specification of the groups: there is one group per key, holding that key's subscriptions. |
| DashboardApi.GroupStepJoin | src/api/dashboardApi.ts:62-66 | When `find` locates a group for the payment's date, the grouping after the payment is that group with the payment pushed and its price added, every other group unchanged. |
| DashboardApi.GroupStepOpen | src/api/dashboardApi.ts:62-72 | When no group has the payment's date, the grouping after the payment is the old one plus a new group of just that payment at the end. |
| DashboardApi.GroupByDate | src/api/dashboardApi.ts:60-76 | The in-place `reduce` (find the group, push and add, or open a new group) computes the groups of the specification, `GroupsByDate(subs)`. |
| DashboardApi.GroupDatesDistinct | src/api/dashboardApi.ts:60-76 | No two groups share a date. |
| DashboardApi.GroupsFilled | src/api/dashboardApi.ts:60-76 | Every group has at least one member, and its total is the sum of its members' price/100. |
| DashboardApi.GroupMembersOnDate | src/api/dashboardApi.ts:60-76 | Every member of a group is an input subscription whose date is the group's date. |
| DashboardApi.GroupsPartition | src/api/dashboardApi.ts:60-76 | Every upcoming subscription lands in exactly one group: the members are a permutation of the input. |
| DashboardApi.SortGroupsChronological | src/api/dashboardApi.ts:77 | `SortGroups` permutes the groups into ascending date order, and groups with equal dates keep their order. |
| DashboardApi.FetchAnalytics | src/api/dashboardApi.ts:8-85 | The analytics object holds the monthly total, 12 times it as the annual total, the breakdown as the source computes it (the position lookup of the first Findings row), the trend and the sorted upcoming groups. When every row is active, that breakdown is the intended one. |
| SubscriptionsSlice.InitialFiltersAdmit | src/features/subscriptions/subscriptionsSlice.ts:18-35 | The initial filters admit exactly the prices 0..10000 and use a declared sort key and order. |
| SubscriptionsSlice.ReplaceFirstById | src/features/subscriptions/subscriptionsSlice.ts:81-87 | The length and ids are kept. The first row with the payload's id becomes the payload, and no other row changes. With no match nothing changes. |
| SubscriptionsSlice.RemoveAllById | src/features/subscriptions/subscriptionsSlice.ts:97-101 | Every item with the id is removed, and the others keep their multiplicity and order. |
| SubscriptionsSlice.CreateThenDeleteRestores | src/features/subscriptions/subscriptionsSlice.ts:67-71 | Prepending a row with a fresh id and then deleting that id gives back the list. |
| SubscriptionsSlice.DeleteAfterUpdate | src/features/subscriptions/subscriptionsSlice.ts:81-101 | Deleting an id after updating it equals deleting it from the original list. |
| SubscriptionsSlice.Slice.constructor | src/features/subscriptions/subscriptionsSlice.ts:18-35 | The slice starts in the initial state. |
| SubscriptionsSlice.Slice.Requested | src/features/subscriptions/subscriptionsSlice.ts:43-46 | A `*Requested` reducer sets loading and clears the error, and touches nothing else. The same holds at lines 63-66, 77-80 and 93-96. |
| SubscriptionsSlice.Slice.Failed | src/features/subscriptions/subscriptionsSlice.ts:57-60 | A `*Failed` reducer clears loading, stores the message, and touches nothing else. The same holds at lines 72-75, 88-91 and 102-105. |
| SubscriptionsSlice.Slice.FetchSucceeded | src/features/subscriptions/subscriptionsSlice.ts:47-56 | Items, total count and page are replaced by the payload, and loading is cleared. |
| SubscriptionsSlice.Slice.CreateSucceeded | src/features/subscriptions/subscriptionsSlice.ts:67-71 | The new item is prepended and the total count goes up by exactly one. |
| SubscriptionsSlice.Slice.UpdateSucceeded | src/features/subscriptions/subscriptionsSlice.ts:81-87 | Only the first item with the id is replaced, and the count is unchanged. |
| SubscriptionsSlice.Slice.DeleteSucceeded | src/features/subscriptions/subscriptionsSlice.ts:97-101 | Every item with the id is removed, and the count drops by one even when nothing matched. |
| SubscriptionsSlice.Slice.SetFilters | src/features/subscriptions/subscriptionsSlice.ts:108-110 | Only the filters change, merged with the patch. |
| SubscriptionsSlice.Slice.ClearFilters | src/features/subscriptions/subscriptionsSlice.ts:111-113 | Only the filters change, back to the initial filters. |
| SubscriptionsSlice.Slice.SetSelectedSubscription | src/features/subscriptions/subscriptionsSlice.ts:114-116 | Only the selection changes. |
| SubscriptionsSlice.Slice.SetCurrentPage | src/features/subscriptions/subscriptionsSlice.ts:117-119 | Only the page changes. |
| SubscriptionsSlice.Slice.ClearError | src/features/subscriptions/subscriptionsSlice.ts:120-122 | Only the error changes, to null. |
| SettingsSlice.InitialState | src/features/settings/settingsSlice.ts:13-20 | The initial state is MM/DD/YYYY, USD, en, not loading, no error, and the detected timezone or "UTC". |
| SettingsSlice.AssignLaws | src/features/settings/settingsSlice.ts:32 | `Object.assign`, modelled by `Assign(state, patch)`, with an empty patch is the identity, and applying the same patch twice equals applying it once. Two patches in a row are one combined patch, and a whole state overwrites everything. |
| SettingsSlice.Slice.constructor | src/features/settings/settingsSlice.ts:13-20 | The slice starts in the initial state. |
| SettingsSlice.Slice.UpdateRequested | src/features/settings/settingsSlice.ts:27-30 | The payload is ignored. Only loading is set and the error cleared. |
| SettingsSlice.Slice.UpdateSuccess | src/features/settings/settingsSlice.ts:31-35 | The payload fields are overwritten, then loading is cleared and the error reset. |
| SettingsSlice.Slice.UpdateFailure | src/features/settings/settingsSlice.ts:36-39 | Loading is cleared and the error stored. The preferences are unchanged. |
| SettingsSlice.Slice.LoadRequested | src/features/settings/settingsSlice.ts:42-44 | Only loading is set. |
| SettingsSlice.Slice.LoadSuccess | src/features/settings/settingsSlice.ts:45-48 | The payload is merged and loading cleared. The error is not reset. |
| SettingsSlice.Slice.Reset | src/features/settings/settingsSlice.ts:51-53 | The state becomes the initial state with loading false, whatever it was, so resetting is idempotent. |
| SettingsSlice.Slice.SetTimezone | src/features/settings/settingsSlice.ts:56-58 | Only the timezone changes. |
| SettingsSlice.Slice.SetDateFormat | src/features/settings/settingsSlice.ts:59-61 | Only the date format changes. |
| SettingsSlice.Slice.SetCurrency | src/features/settings/settingsSlice.ts:62-64 | Only the currency changes. |
| SettingsSlice.Slice.SetLanguage | src/features/settings/settingsSlice.ts:65-67 | Only the language changes. |
| SettingsSlice.Slice.Apply | src/features/settings/settingsSlice.ts:32 | The state becomes the old state with the patch's present fields overwritten. |
| DashboardSlice.Slice.constructor | src/features/dashboard/dashboardSlice.ts:13-19 | The initial state has no analytics, no alerts, loading off, no error and range "month". |
| DashboardSlice.Slice.FetchAnalyticsRequested | src/features/dashboard/dashboardSlice.ts:25-28 | Loading is set and the error cleared. Earlier analytics are kept. |
| DashboardSlice.Slice.FetchAnalyticsSucceeded | src/features/dashboard/dashboardSlice.ts:29-32 | The analytics are stored and loading cleared. The error is left as it was. |
| DashboardSlice.Slice.FetchAnalyticsFailed | src/features/dashboard/dashboardSlice.ts:33-36 | Loading is cleared and the error stored. The analytics are kept. |
| DashboardSlice.Slice.SetTimeRange | src/features/dashboard/dashboardSlice.ts:37-39 | Only the time range changes. |
| DashboardSlice.Slice.ClearError | src/features/dashboard/dashboardSlice.ts:40-42 | Only the error changes. |
| Formatters.LocaleFromLanguage | src/utils/formatters.ts:153-160 | The locale is "hi-IN" iff the language is "hi". Every other language that is not an inherited object key gives "en-US". |
| Formatters.DatePattern | src/utils/formatters.ts:58-74 | An unrecognised date format gives "MM/dd/yyyy". |
| Formatters.DatePatternIsTokenRewrite | src/utils/formatters.ts:58-74 | Each of the four formats maps to itself with YYYY→yyyy, DD→dd and MMM kept, and any other format maps like MM/DD/YYYY. |
| Formatters.FormatDate | src/utils/formatters.ts:36-81 | The format defaults to 'MM/DD/YYYY' and the zone to 'UTC'. An unparseable date, an invalid date or a throwing time-zone conversion gives "Invalid Date". Otherwise the result is the zoned time formatted with the pattern. |
| Formatters.UnknownFormatIsDefault | src/utils/formatters.ts:72-73 | An unknown format renders like the default format. |
| Formatters.FormatDateInTimezone | src/utils/formatters.ts:84-107 | An invalid date or a throwing formatter gives "Invalid Date". Otherwise the result is the formatter's output. |
| Formatters.FloorDays | src/utils/formatters.ts:133 | The day count is the floor of the milliseconds divided by one day. |
| Formatters.DayLabel | src/utils/formatters.ts:135-145 | "Today", "Tomorrow" and "Yesterday" appear exactly for 0, 1 and -1. |
| Formatters.LabelDaysInvertsDayLabel | src/utils/formatters.ts:135-145 | The day count can be read back from every label ("In d days", "d days ago"). |
| Formatters.DayLabelInjective | src/utils/formatters.ts:135-145 | Distinct day counts get distinct labels. |
| Formatters.RelativeTime | src/utils/formatters.ts:110-150 | The zone defaults to 'UTC' and the unused locale to 'en'. An invalid date gives "Invalid Date" and a thrown conversion gives "Unknown". Otherwise, when both zoned times are valid, the label is exactly `DayLabel(FloorDays(date − now))`; when neither conversion throws but one gives an invalid time, the label is "NaN days ago". |
| Formatters.FallbackSymbol | src/utils/formatters.ts:20-30 | USD, EUR, GBP, INR and JPY get a one-character symbol. Any other code that is not an inherited object key is its own symbol. |
| Formatters.FallbackSymbolIsCode | src/utils/formatters.ts:20-30 | The symbol is the code iff the code is not in the five-entry symbol table. |
| Formatters.FormatCurrency | src/utils/formatters.ts:6-33 | The currency defaults to 'USD' and the locale to 'en-US'. The result is Intl's output. If Intl throws, it is the fallback symbol followed by the amount to two decimals. |
| Formatters.DefaultArguments | src/utils/formatters.ts:6-10 | A call that leaves out the optional arguments equals one that passes 'USD' and 'en-US', 'MM/DD/YYYY' and 'UTC', or 'UTC' and 'en' (also lines 36-40 and 111-115). |
| FilterDialog.Without | src/components/subscriptions/FilterDialog.tsx:51-53 | Every occurrence of the value is removed, and the other values keep their multiplicity. |
| FilterDialog.Toggle | src/components/subscriptions/FilterDialog.tsx:50-55 | Membership of the toggled value flips, and nothing else changes. |
| FilterDialog.ToggleTwice | src/components/subscriptions/FilterDialog.tsx:50-55 | Toggling an absent value twice restores the list exactly. A present value ends up once, at the end. |
| FilterDialog.CategoryToggle | src/components/subscriptions/FilterDialog.tsx:50-55 | The dispatched patch changes only the category list, which it toggles. |
| FilterDialog.StatusToggle | src/components/subscriptions/FilterDialog.tsx:57-62 | The dispatched patch changes only the status list, which it toggles. |
| FilterDialog.CurrencyToggle | src/components/subscriptions/FilterDialog.tsx:64-69 | The dispatched patch changes only the currency list, which it toggles. |
| FilterDialog.CategoryToggleTwiceRestoresMatches | src/components/subscriptions/FilterDialog.tsx:50-55 | Ticking and unticking a category gives back the same filtered list. |
| FilterDialog.PriceRangeChange | src/components/subscriptions/FilterDialog.tsx:71-75 | The slider's two values become the price range, and nothing else changes. |
| FilterDialog.SortChange | src/components/subscriptions/FilterDialog.tsx:77-83 | The sort value is split on '-': the key is the first piece, and the order is `undefined` without a dash. Only the two sort fields are sent. |
| FilterDialog.SortChangeRoundTrip | src/components/subscriptions/FilterDialog.tsx:77-83 | Splitting `${sortBy}-${sortOrder}` inverts the encoding for keys and orders without '-'. |
| FilterDialog.OptionSelects | src/components/subscriptions/FilterDialog.tsx:136-141 | Each option `key-order` selects that key and that order. |
| FilterDialog.NextBillingOptionKeepsOrder | src/components/subscriptions/FilterDialog.tsx:140-141 | The two next-billing entries of the option table ("nextBillingDate-asc" and "nextBillingDate-desc") sort nothing: the list keeps its filter order (see Findings). |
| FilterDialog.CorrectedOptionsDeclared | src/components/subscriptions/FilterDialog.tsx:136-141 | Every corrected option selects a declared sort key and order. |
| FilterDialog.CorrectedNextBillingOptionOrders | src/components/subscriptions/FilterDialog.tsx:140-141 | In the corrected option table, the fifth entry orders the list by next billing date soonest first and the sixth latest first. |
| FilterDialog.ActiveFilterCount | src/components/subscriptions/FilterDialog.tsx:89-93 | The count is 0 iff no category, status or currency is ticked and the price range covers 0..10000. |
| FilterDialog.NoActiveFiltersAdmitAll | src/components/subscriptions/FilterDialog.tsx:89-93 | With no active filters and no search, every price in the slider range is admitted. |
| FilterDialog.SliderCount | src/components/subscriptions/FilterDialog.tsx:237-244 | Moving the slider counts as one filter unless it spans 0..10000, and the initial filters count 0. |
| Login.FirstIndex | src/pages/Login.tsx:37-39 | The index of the first occurrence of a character, or none when it is absent. |
| Login.ValidateEmailIsPattern | src/pages/Login.tsx:37-39 | The check `ValidateEmail(s)` accepts exactly the strings matching `^[^\s@]+@[^\s@]+\.[^\s@]+$`, and an accepted address has one '@' and no whitespace. |
| Login.ButtonDisabled | src/pages/Login.tsx:133 | Submitting is enabled iff not loading, no countdown is running and the address is non-empty. |
| Login.Label | src/pages/Login.tsx:135-149 | The label priority is sending, then the countdown with its seconds, then "Sent!", then the default. |
| Login.InputLockedWithButton | src/pages/Login.tsx:124-133 | The address field (`InputDisabled`) is locked while loading or counting down; the button is disabled exactly when the field is locked or the address is empty. |
| Login.LabelTextInjective | src/pages/Login.tsx:135-149 | `LabelText` gives distinct labels distinct texts: the four kinds never share a text, and the countdown text determines its seconds. |
| Login.LabelTextTellsStates | src/pages/Login.tsx:135-149 | Two button states with the same text have the same label. |
| Login.CooldownAfter | src/pages/Login.tsx:30-35 | After n ticks, the countdown is max(c − n, 0). |
| Login.CountdownEnds | src/pages/Login.tsx:30-35 | The countdown from 60 is positive for 59 ticks and 0 after 60, when the button is enabled again. |
| Login.LoginForm.constructor | src/pages/Login.tsx:12-16 | The form starts empty, idle and with no countdown. |
| Login.LoginForm.SetEmail | src/pages/Login.tsx:123 | Only the address changes. |
| Login.LoginForm.Submit | src/pages/Login.tsx:41-92 | An invalid address, or a request within 10 s of the last, changes nothing. A sent link sets success, the send time and a 60 s countdown. A failure reports the message or the default. Loading is off afterwards. |
| Login.LoginForm.Tick | src/pages/Login.tsx:30-35 | The countdown drops by one while positive, never goes below 0, and nothing else changes. |
| SettingsDialog.HasChanges | src/components/settings/SettingsDialog.tsx:109-111 | There are no changes iff the local copy equals the stored four preferences. |
| SettingsDialog.SaveDisabled | src/components/settings/SettingsDialog.tsx:288 | Save is disabled iff nothing changed or the settings are loading. |
| SettingsDialog.SavePatch | src/components/settings/SettingsDialog.tsx:82-83 | The save payload sets exactly the four preferences, not loading or error. |
| SettingsDialog.SavedSettingsHaveNoChanges | src/components/settings/SettingsDialog.tsx:82-89 | Once the store applies the payload, nothing is left to save, and the store's flags are untouched. |
| SettingsDialog.SettingsForm.constructor | src/components/settings/SettingsDialog.tsx:65-70 | The local copy starts as the stored preferences. |
| SettingsDialog.SettingsForm.Sync | src/components/settings/SettingsDialog.tsx:73-80 | When the stored settings change, the local copy follows them and there are no changes. |
| SettingsDialog.SettingsForm.Cancel | src/components/settings/SettingsDialog.tsx:91-99 | Cancel restores the stored preferences, leaving nothing to save. |
| SettingsDialog.SettingsForm.Save | src/components/settings/SettingsDialog.tsx:82-89 | Save dispatches the four-field local record. |
| SettingsDialog.SettingsForm.SetTimezone | src/components/settings/SettingsDialog.tsx:142 | Only the local timezone changes. |
| SettingsDialog.SettingsForm.SetDateFormat | src/components/settings/SettingsDialog.tsx:170 | Only the local date format changes. |
| SettingsDialog.SettingsForm.SetCurrency | src/components/settings/SettingsDialog.tsx:201 | Only the local currency changes. |
| SettingsDialog.SettingsForm.SetLanguage | src/components/settings/SettingsDialog.tsx:234 | Only the local language changes. |
| SettingsDialog.EditAndRevert | src/components/settings/SettingsDialog.tsx:109-111 | Changing a preference makes the dialog dirty, and changing it back makes it clean again. |
| SettingsDialog.DateFormatsAreHandled | src/components/settings/SettingsDialog.tsx:38-43 | Every offered date format is one the formatter handles explicitly, each with its own pattern. |
| SettingsDialog.CurrencyOptionsAgree | src/components/settings/SettingsDialog.tsx:45-53 | The symbols shown are the formatter's fallback symbols. Every currency of the data model is offered, plus JPY. |
| SettingsDialog.LanguagesHaveLocales | src/components/settings/SettingsDialog.tsx:55-58 | English maps to en-US and Hindi to hi-IN. |
| UpcomingPayments.CeilDays | src/components/dashboard/UpcomingPayments.tsx:58-63 | The day count is the ceiling of the milliseconds divided by one day. |
| UpcomingPayments.DaysUntil | src/components/dashboard/UpcomingPayments.tsx:58-63 | The days until a parseable date are the ceiling of the difference, and an unparseable date gives `NaN`. |
| UpcomingPayments.DayLabel | src/components/dashboard/UpcomingPayments.tsx:42-56 | The label is "Today" for 0 and "Tomorrow" for 1. Any other count below 7, negatives included, gives "n days", and 7 or more gives the short date. |
| UpcomingPayments.Variant | src/components/dashboard/UpcomingPayments.tsx:65-69 | The badge is destructive iff days ≤ 1, secondary iff 1 < days ≤ 3, and outline otherwise. |
| UpcomingPayments.BadgeText | src/components/dashboard/UpcomingPayments.tsx:123 | The badge says "Due soon" iff days ≤ 1. A later day count n reads n followed by "d", and an unparseable date reads "NaNd". |
| UpcomingPayments.LabelAgreesWithBadge | src/components/dashboard/UpcomingPayments.tsx:42-69 | "Due soon" appears exactly with the destructive badge, "Today" and "Tomorrow" come with it, and 2 or 3 days get the secondary badge. |
| UpcomingPayments.GroupTitle | src/components/dashboard/UpcomingPayments.tsx:104-107 | A group with one member is titled by its name. Any other group is titled by its member count followed by " subscriptions". |
| UpcomingPayments.MoreLine | src/components/dashboard/UpcomingPayments.tsx:130-136 | "+(n−5) more" appears iff there are more than 5 groups. |
| UpcomingPayments.Render | src/components/dashboard/UpcomingPayments.tsx:80-138 | The card shows a skeleton while loading, the empty message with no groups, and otherwise min(n, 5) rows and the "more" line iff n > 5. |
| UpcomingPayments.ShownPlusMoreIsAll | src/components/dashboard/UpcomingPayments.tsx:87 | The rows shown plus the number in the "more" line equal the number of groups. |
| UpcomingPayments.RowsOfAnalyticsGroups | src/components/dashboard/UpcomingPayments.tsx:104-107 | For groups from the analytics, every row counts at least one subscription, and the title is a name or a count of two or more. |
| SubscriptionsList.SearchChange | src/components/subscriptions/SubscriptionsList.tsx:37-39 | Typing in the search box changes only the search filter. |
| SubscriptionsList.StatusColor | src/components/subscriptions/SubscriptionsList.tsx:69-77 | Each of the four statuses gets its class, and the muted class is used iff the status is none of them. |
| SubscriptionsList.StatusColorsDistinct | src/components/subscriptions/SubscriptionsList.tsx:69-77 | Every status gets a non-muted class, and distinct statuses get distinct classes. |
| SubscriptionsList.Lookup | src/components/subscriptions/SubscriptionsList.tsx:80-90 | A lookup finds an entry with the key, or nothing iff no entry has it. |
| SubscriptionsList.CategoryColorOf | src/components/subscriptions/SubscriptionsList.tsx:79-91 | `CategoryColor` gives each category the classes `HueClass` builds from its own hue. |
| SubscriptionsList.UnknownCategoryIsGray | src/components/subscriptions/SubscriptionsList.tsx:90 | An unknown category falls back to the gray classes of "other" (`HueClass("gray")`). |
| SubscriptionsList.DisplayAmount | src/components/subscriptions/SubscriptionsList.tsx:93-99 | The amount shown is the price in major units: amount × 100 = price. |
| SubscriptionsList.DisplayAmountIsCyclePrice | src/components/subscriptions/SubscriptionsList.tsx:93-99 | The amount shown is the monthly equivalent for a monthly subscription and 12 times it for a yearly one. |
| SubscriptionsList.NextBillingLabel | src/components/subscriptions/SubscriptionsList.tsx:101-116 | The label is "Overdue" for negative days, "Today" for 0, "Tomorrow" for 1, "n days" below 7, and otherwise the short date. |
| SubscriptionsList.ListAndCardLabels | src/components/subscriptions/SubscriptionsList.tsx:101-116 | The list and the upcoming card agree except on overdue dates, which the card shows as "-n days". |
| SubscriptionsList.OverdueMeansADayLate | src/components/subscriptions/SubscriptionsList.tsx:101-116 | A row is overdue iff its date is at least one whole day in the past. Up to a day late still reads "Today". |
| SubscriptionsList.DropLastTwo | src/components/subscriptions/SubscriptionsList.tsx:219 | `slice(0, -2)` drops the last two characters. |
| SubscriptionsList.PerLabel | src/components/subscriptions/SubscriptionsList.tsx:219 | The "per" label is the unit of a "-ly" cycle (month, year, week) and "cust" for a custom one. |
| SubscriptionsList.AsWrittenCycleLabelRepeatsLy | src/components/subscriptions/SubscriptionsList.tsx:208 | The label as written, `CycleLabelAsWritten`, doubles the suffix: "monthlyly" (see Findings). |
| SubscriptionsList.CycleLabelReadsOnce | src/components/subscriptions/SubscriptionsList.tsx:208 | The corrected label `CycleLabel` is the unit plus one "ly", never ends in "lyly", and tells cycles apart. |
| SubscriptionsList.Render | src/components/subscriptions/SubscriptionsList.tsx:126-230 | The table shows five skeleton rows while loading, and the empty state iff the list is empty. Otherwise it shows a count badge equal to the list length and one row per subscription, with the cycle column as written ("monthlyly"). |
| SubscriptionsList.RowsAreCoherent | src/components/subscriptions/SubscriptionsList.tsx:169-230 | Every row has a coloured status, its category's hue, the price in major units, the price text `FormatPrice` gets from `Intl` in "en-US" for that amount and currency, and a pause button iff active. Its cycle label, as written, is its "per" unit followed by "lyly", or "customly" for a custom cycle. |
| EditProfile.Initials | src/components/dashboard/EditProfileDialog.tsx:33-37 | The initial is the upper-cased first character of the name, else of the e-mail, else "U", and is one character. |
| EditProfile.InitialsOfFirstCharacter | src/components/dashboard/EditProfileDialog.tsx:33-37 | The initial depends only on the first character, and lower-case letters come out upper-case. |
| EditProfile.CheckFile | src/components/dashboard/EditProfileDialog.tsx:46-63 | A non-image is rejected first, an image over 2 MiB is too large, and anything else is accepted. |
| EditProfile.SizeLimitIsInclusive | src/components/dashboard/EditProfileDialog.tsx:56 | 2097152 bytes are accepted, and 2097153 bytes are not. |
| EditProfile.Extension | src/components/dashboard/EditProfileDialog.tsx:65 | The extension is the text after the last '.', or the whole name without one. |
| EditProfile.UploadPath | src/components/dashboard/EditProfileDialog.tsx:66-67 | Every upload path lies under "avatars/". |
| EditProfile.UploadPathKeepsExtension | src/components/dashboard/EditProfileDialog.tsx:65-67 | The upload path's extension is the chosen file's extension, whatever the id and the random part. |
| EditProfile.AcceptedFileKeepsExtension | src/components/dashboard/EditProfileDialog.tsx:46-67 | An accepted file is an image of at most 2 MiB, stored under its own extension. |
| EditProfile.ProfileForm.constructor | src/components/dashboard/EditProfileDialog.tsx:27-30 | The form starts from the account's name and avatar, or empty text, with both flags off. |
| EditProfile.ProfileForm.HandleAvatarUpload | src/components/dashboard/EditProfileDialog.tsx:39-97 | `uploading` is off after every exit. No file does nothing. A rejected file raises its error and keeps the avatar. An accepted file is uploaded to its path, and the avatar becomes the public URL on success. |
| EditProfile.ProfileForm.SetFullName | src/components/dashboard/EditProfileDialog.tsx:186 | Only the name changes. |
| EditProfile.ProfileForm.HandleSave | src/components/dashboard/EditProfileDialog.tsx:99-128 | Save sends the name and avatar. The dialog closes iff the update succeeds, and `loading` is off afterwards. |

## Left out

- The simulated latency (`delay`, `setTimeout`) and the async wrappers are left out. Every operation is synchronous.
- Randomness is a parameter: the trend amounts, the generated ids and the random part of the avatar file name.
- The clock and `Date` parsing are parameters: `now`, `today`, and the mapping from date text to an instant.
- `Intl.NumberFormat`, `toLocaleDateString`, date-fns and date-fns-tz are uninterpreted parameters, and so are `toFixed`, `formatNumber` and `localeCompare`.
- Floating point is not modelled: amounts are exact reals, and no claim is bit-exact.
- `toLowerCase` and `toUpperCase` are modelled on ASCII letters only, with no multi-character upper-casing.
- The sagas, localStorage, `i18n.changeLanguage` and the Supabase auth, storage and profile calls are not part of this model. Their outcomes enter the component handlers as parameters.
- Toast titles, icons, markup and navigation after sign-in are left out. The model keeps the messages and the values the markup shows.
- The upcoming card's three skeleton rows are left out, and so is the sign-in page's logo.
- `SubscriptionsApi.SubscriptionStore.Create`: the freshness of the generated id is not stated, because the id is a parameter.
- `DashboardApi.AsWrittenLosesSpend`: `indexOf` by object identity is modelled as the position in the list, which it is for a list of distinct objects.
- `SubscriptionsApi.CompareByKey`: the ordering lemmas require every date of the sort key to parse. For an unparseable date the source's comparator returns `NaN`, which the sort reads as a tie; the model's comparator returns 0 there, and no ordering is claimed for such rows.
- `SubscriptionsApi.ComparatorPreorder`: the preorder is proved only when the name collation is consistent (it is a parameter).
- `Types.MergeFilters`: a key present in a patch with the value `undefined` is not distinguished from an absent key.
- `SettingsSlice.Slice.Apply`: a key present in a patch with the value `undefined` is not distinguished from an absent key.
- `Types.ApplyUpdate`: a key present in the update payload with the value `undefined` is not distinguished from an absent key; in the source the spread copies it and clears the field.
- `Formatters.LocaleFromLanguage`: inherited object keys such as "toString" are not looked up in the locale map; the source returns the inherited function for them, the model "en-US".
- `Formatters.FallbackSymbol`: inherited object keys such as "toString" are not looked up in the symbol table; the source uses the inherited function as the symbol, the model the code.
- `DashboardApi.MonthlyTrend`: the month labels are a parameter. How `setMonth` rolls over when today is the 29th to the 31st is not modelled.
- Each operation reads the clock once: `createdAt` and `updatedAt` of a created row (src/api/subscriptionsApi.ts:95-96) share one `now`, and so do the day count and the badge of an upcoming-payments row (src/components/dashboard/UpcomingPayments.tsx:44 and 60). `UpcomingPayments.LabelAgreesWithBadge` relies on that.
- The filter dialog's currency checkboxes, which offer four of the six currencies, and the slider's step of 100 are left out; the toggles accept any currency and any slider value.
- `SubscriptionsList.Lookup`: inherited object keys such as "toString" are not looked up in the colour table.
- `DashboardApi.MonthlyEquivalent`: the unreachable `default` branch of the cycle switch (for cycles outside the enumeration) is not modelled.
- `SubscriptionsSlice.Slice.Requested`: the payloads of the `*Requested` actions are ignored, as the reducers ignore them.
- `FilterDialog.PriceRangeChange`: the slider's value array is modelled as its two numbers.
- `SubscriptionsList.PerLabel`: the "per cust" label of a custom cycle is stated as written and not corrected.

## Findings

| source | as written | input that shows it | evidently intended | confidence | as-written member | corrected member |
|---|---|---|---|---|---|---|
| src/api/dashboardApi.ts:36 | Each active subscription's spend is read from `monthlySpends[subscriptions.indexOf(sub)]`. But `monthlySpends` holds only the active subscriptions, so the index is off whenever an inactive one comes first. | A paused 5.00 streaming subscription followed by an active 10.00 one: the monthly total is 10, but the streaming category gets `monthlySpends[1] || 0`, which is 0 because `monthlySpends` has one entry. | The category values add up to the monthly total. | not executed | DashboardApi.AsWrittenLosesSpend | DashboardApi.CategoryBreakdownSums |
| src/components/subscriptions/FilterDialog.tsx:140-141 | The options "nextBillingDate-asc" and "nextBillingDate-desc" set `sortBy` to "nextBillingDate", which the API's switch does not handle. | Choosing "Next Billing (Soonest)" leaves the list in filter order. | The options use the key "nextBilling" and sort by next billing date. | not executed | FilterDialog.NextBillingOptionKeepsOrder | FilterDialog.CorrectedNextBillingOptionOrders |
| src/components/subscriptions/SubscriptionsList.tsx:208 | The cycle column prints `billingCycle` followed by "ly", but the cycle names already end in "ly". | A monthly subscription shows "monthlyly". | The cycle is shown once: "monthly". | not executed | SubscriptionsList.AsWrittenCycleLabelRepeatsLy | SubscriptionsList.CycleLabelReadsOnce |
