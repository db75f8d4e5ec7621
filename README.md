# Revenue arithmetic of the Stripe dashboard, in Dafny

This project models the arithmetic at the core of a Stripe revenue dashboard
(a Next.js application). The code that is modelled runs over lists already
fetched from Stripe. It does the following:

- normalises minor-unit amounts to whole currency units (JPY, KRW and VND
  have no minor unit);
- converts amounts through a USD-relative exchange-rate table;
- sums succeeded, unrefunded charges and paid payouts per upper-cased
  currency, over a whole range and day by day;
- splits subscriptions into new and renewed, annual and monthly, pending,
  and renewing this month or next;
- follows Stripe's `starting_after` cursor through the pages of active
  subscriptions;
- looks up payment cadences by Stripe interval;
- formats amounts with a currency symbol.

Amounts are exact `real`s. `Number(x.toFixed(2))` is `Money.Round2`: the
magnitude is rounded to hundredths (a tie goes up) and the sign is put back.
`CurrencySymbols.Fixed2RoundTrip` proves that reading back the string
`CurrencySymbols.Fixed2` prints gives exactly `Round2`.

A JavaScript `Record<string, number>` is a `map<string, real>`.

Every `forEach` that adds into a record is specified by the same function.
`Folds.Totals(Folds.Contributions(xs, key, keep, amount))` is the record built
by adding `amount(x)` under `key(x)` for each `x` that `keep` accepts. The
lemmas in `Folds` state its key set and its per-key sums, and show how two
filters split it.

Loops over `Object.entries` pick keys in an arbitrary order. Their sums are
stated with `Folds.MapSum`, which `Folds.MapSumRemove` shows to be independent
of that order.

The modules follow the source files:

- `Money`, `Folds` and `Options` hold shared arithmetic, fold and option
  definitions.
- `Currency` models `src/utils/currency.ts`.
- `PaymentTypes` models `src/config/paymentTypes.ts`.
- `Charges` models `src/services/stripe.ts`.
- `Subscriptions` models `src/services/subscription.ts`.
- `Route` models what is particular to `src/app/api/get-revenue/route.ts`.
- `CurrencySymbols` models `src/utils/currencySymbols.ts`.

Several functions in `route.ts` behave identically to functions modelled
elsewhere (the `getRevenue` fold differs only in the name of its record), so
the same members model them:

| `route.ts` lines | modelled by |
|---|---|
| `convertToProperUnits` 6-12 | `Currency.ConvertToProperUnits` |
| the fold of `getRevenue` 29-41 | `Charges.CurrentMonthRevenue` |
| `getSubscriptionRevenue` 97-134 | `Subscriptions.GetSubscriptionRevenue` |
| `convertTotalRevenue` 263-284 | `Currency.ConvertTotalRevenue` |
| `convertTotalPayoutsToCNY` 287-301 | `Currency.ConvertTotalPayoutsToCNY` |

An unknown non-empty interval returns `undefined`, not the one-time entry
(`src/config/paymentTypes.ts:43`, `PaymentTypes.UnknownInterval`).

## Model

| member | source | states |
|---|---|---|
| `Money.Round2` | src/utils/currency.ts:9 | `Number(x.toFixed(2))` is a whole number of hundredths within 0.005 of `x` |
| `Money.Round2Idempotent` | src/services/subscription.ts:110-112 | rounding an already rounded amount changes nothing |
| `Money.MathRound` | src/utils/currencySymbols.ts:22 | `Math.round(x)` is the integer in `(x - 0.5, x + 0.5]` |
| `Money.Upper` | src/services/stripe.ts:20 | `toUpperCase` keeps the length and upper-cases each ASCII letter in place |
| `Money.UpperIdempotent` | src/services/stripe.ts:20 | an upper-cased code is its own upper case |
| `Money.Ratio` | src/utils/currency.ts:53 | `rates[t] / rates[s]` is finite exactly when both rates exist and `rates[s]` is non-zero, and then it times `rates[s]` is `rates[t]` |
| `Money.Plus` | src/utils/currency.ts:66-74 | a sum is finite exactly when both terms are, and is then their sum |
| `Money.RoundNum` | src/utils/currency.ts:54 | rounding keeps NaN/Infinity and otherwise gives whole hundredths within 0.005 |
| `Options.OrZero` | src/services/subscription.ts:29 | `x \|\| 0` is `x` when present and 0 when absent |
| `Folds.Totals` | src/services/stripe.ts:18-22 | the record a `forEach` builds has exactly the keys that occur, each holding that key's sum |
| `Folds.TotalsSnoc` | src/services/stripe.ts:21 | one more pair adds its amount under its key |
| `Folds.AccumulateSnoc` | src/services/stripe.ts:19-21 | one step of a filtered `forEach`: a kept element is added, any other changes nothing |
| `Folds.AccumulateAt` | src/services/stripe.ts:18-22 | the same step stated at an index of the list |
| `Folds.Accumulate` | src/services/stripe.ts:18-22 | the filtered `forEach` loop computes exactly that record |
| `Folds.ContributionsKeys` | src/services/stripe.ts:18-22 | the keys added are the keys of the kept elements |
| `Folds.ContributionsTotals` | src/services/stripe.ts:18-22 | the record's keys are the kept elements' keys, and each holds the sum over the kept elements filed under it |
| `Folds.ContributionsCount` | src/services/subscription.ts:150-156 | one entry is added per kept element |
| `Folds.ContributionsSplit` | src/services/subscription.ts:32-38 | two disjoint filters that together accept what a third accepts split its per-key sums |
| `Folds.CountSplit` | src/services/subscription.ts:149-157 | the same two filters split its count |
| `Folds.SeqSumAppend` | src/services/stripe.ts:18-22 | a list sum over a concatenation is the sum of the two sums |
| `Folds.SeqSumPermutation` | src/services/stripe.ts:18-22 | a list sum does not depend on the order of the list |
| `Folds.SeqSumPointwise` | src/services/subscription.ts:105-106 | summands equal on the list give equal sums |
| `Folds.MapSumRemove` | src/utils/currency.ts:128-130 | a sum over `Object.entries` may take any entry first |
| `Folds.MapSumAdd` | src/utils/currency.ts:128-130 | adding a fresh entry adds its value to the sum |
| `Currency.ConvertToProperUnits` | src/utils/currency.ts:4-10 | exactly JPY, KRW and VND are kept and every other code (including "jpy") is divided by 100; the result is whole hundredths, and exact for a whole amount |
| `Currency.ConvertCurrency` | src/utils/currency.ts:108-119 | identity for equal currencies and for a missing or zero rate; otherwise `amount / rates[from] * rates[to]` rounded to two places |
| `Currency.ConvertRevenue` | src/utils/currency.ts:122-132 | the only key is the target, holding the sum of every entry converted into it |
| `Currency.ConvertRevenueWithoutRates` | src/utils/currency.ts:115 | with an empty rate table nothing is converted |
| `Currency.ConvertRevenueOfTarget` | src/utils/currency.ts:122-132 | a record already in the target currency converts to its own amount |
| `Currency.Merged` | src/utils/currency.ts:140-146 | the merged record's currencies are those of any input, each holding that currency's sum over all inputs |
| `Currency.MergeInto` | src/utils/currency.ts:141-144 | the combined record has the currencies of both records, each holding the sum of the two amounts, a missing one counting as 0 |
| `Currency.MergedPermutation` | src/utils/currency.ts:140-146 | the merge does not depend on the order of the inputs |
| `Currency.MergeStep` | src/utils/currency.ts:141-144 | one `reduce` step adds every entry of the current record into the total |
| `Currency.MergeAndConvertRevenues` | src/utils/currency.ts:135-149 | the only key is the target, holding the converted sum of the merged record |
| `Currency.Quote` | src/utils/currency.ts:53-54 | a quote is finite exactly when both rates exist and the source rate is non-zero, and is then the scaled amount rounded |
| `Currency.RowOver` | src/utils/currency.ts:51-56 | the row holds the source amount unchanged and a quote for each visited target other than the source |
| `Currency.ConvertedRow` | src/utils/currency.ts:47-56 | each row has exactly the keys source, USD, CNY and HKD, with the source amount unchanged |
| `Currency.ConvertRow` | src/utils/currency.ts:47-56 | the inner loop builds exactly that row |
| `Currency.ConvertTotalRevenue` | src/utils/currency.ts:39-60 | one row per input currency and no other, each holding that currency's amount and its quotes |
| `Currency.CNYTerm` | src/utils/currency.ts:69-73 | CNY is added as it is; any other currency is scaled by `rates.CNY / rates[c]`, finite exactly when both rates exist and `rates[c]` is non-zero |
| `Currency.ConvertTotalPayoutsToCNY` | src/utils/currency.ts:62-76 | the total is finite exactly when every currency converts, and is then the rounded sum of the CNY values |
| `Currency.NoPayoutsIsZero` | src/utils/currency.ts:66-75 | no payouts give a total of 0 |
| `Currency.PayoutsWithoutCNYRate` | src/utils/currency.ts:71-72 | without a CNY rate any non-CNY payout makes the total NaN |
| `PaymentTypes.FindByInterval` | src/config/paymentTypes.ts:43 | `find` returns the first entry with that interval, and nothing exactly when no entry has it |
| `PaymentTypes.GetPaymentTypeByInterval` | src/config/paymentTypes.ts:41-44 | an absent or empty interval gives entry 0; any other interval gives the first match |
| `PaymentTypes.NoIntervalIsOneTime` | src/config/paymentTypes.ts:42 | an absent or empty interval gives `oneTime` |
| `PaymentTypes.LookupFindsEntry` | src/config/paymentTypes.ts:8-44 | each recurring entry is found by its own interval |
| `PaymentTypes.KnownIntervals` | src/config/paymentTypes.ts:15-43 | "month" gives monthly, "3-month" quarterly, "6-month" semiannual and "year" annual |
| `PaymentTypes.UnknownInterval` | src/config/paymentTypes.ts:43 | any other non-empty interval gives `undefined`, not `oneTime` |
| `PaymentTypes.IdsWithInterval` | src/config/paymentTypes.ts:48 | the filtered ids number at most the table's entries |
| `PaymentTypes.IdsWithIntervalMembers` | src/config/paymentTypes.ts:48 | an id is returned exactly when some entry with a truthy interval has it |
| `PaymentTypes.SubscriptionTypeIds` | src/config/paymentTypes.ts:47-49 | the subscription ids never include `oneTime` |
| `PaymentTypes.SubscriptionTypeIdsValue` | src/config/paymentTypes.ts:8-49 | the subscription ids are monthly, quarterly, semiannual and annual, in table order |
| `PaymentTypes.TableWellFormed` | src/config/paymentTypes.ts:8-51 | the default is entry 0's id; ids are pairwise distinct and so are the defined intervals |
| `CurrencySymbols.GetCurrencySymbol` | src/utils/currencySymbols.ts:11-13 | the table's symbol for a known code, the code itself otherwise |
| `CurrencySymbols.KnownSymbols` | src/utils/currencySymbols.ts:1-13 | the six symbols; JPY and CNY share "¥" |
| `CurrencySymbols.LowerCaseCodeShownAsIs` | src/utils/currencySymbols.ts:12 | a code with a lower-case letter is shown as it is |
| `CurrencySymbols.ParseDigitsOfDigits` | src/utils/currencySymbols.ts:22 | the decimal digits of `n` read back as `n` |
| `CurrencySymbols.Fixed2` | src/utils/currencySymbols.ts:24-26 | `x.toFixed(2)` ends in a point and two digits, and starts with a minus sign exactly when `x` is negative |
| `CurrencySymbols.IntString` | src/utils/currencySymbols.ts:22 | `String(Math.round(x))` holds no decimal point |
| `CurrencySymbols.Fixed2RoundTrip` | src/utils/currencySymbols.ts:24-26 | `x.toFixed(2)` has the shape `[-]d+.dd` and reads back as `Round2(x)` |
| `CurrencySymbols.IntStringRoundTrip` | src/utils/currencySymbols.ts:22 | `String(i)` of an integer reads back as `i` |
| `CurrencySymbols.FormatCurrency` | src/utils/currencySymbols.ts:16-27 | the output starts with the symbol; for JPY the rest is the rounded integer with no point, and for any other code it has exactly two decimals and reads back as the amount rounded |
| `CurrencySymbols.HKDFormatsAsDefault` | src/utils/currencySymbols.ts:23-26 | the HKD case prints what the default case prints |
| `Charges.Normalise` | src/services/stripe.ts:25-30 | normalising keeps the keys and gives whole hundredths |
| `Charges.Qualifies` | src/services/stripe.ts:19 | a charge counts exactly when its status is "succeeded" and it is not refunded |
| `Charges.Revenue` | src/services/stripe.ts:18-30 | the keys are exactly the upper-cased currencies of succeeded, unrefunded charges, and each holds its minor-unit sum normalised once |
| `Charges.CurrentMonthRevenue` | src/services/stripe.ts:4-31 | the aggregator computes `Revenue` of the listed charges |
| `Charges.MinorSumWhole` | src/services/stripe.ts:21 | a sum of minor units is whole |
| `Charges.RevenueExact` | src/services/stripe.ts:21-29 | each entry is exactly the sum (zero-decimal codes) or the sum over 100 |
| `Charges.RevenueIgnoresOrder` | src/services/stripe.ts:18-23 | the revenue does not depend on the order of the charges |
| `Charges.RevenueIgnoresUnqualified` | src/services/stripe.ts:19 | a failed or refunded charge changes nothing |
| `Charges.RevenueMergesLetterCase` | src/services/stripe.ts:20-21 | "usd" and "USD" charges accumulate under one "USD" key |
| `Charges.LetterCaseTotals` | src/services/stripe.ts:18-22 | a "usd" charge of 500 and a "USD" charge of 250 fold to the single minor-unit total 750 under "USD" |
| `Subscriptions.PaidAmount` | src/services/subscription.ts:29 | `amount_paid \|\| 0`: 0 without an invoice, and a non-zero amount is the invoice's `amount_paid` |
| `Subscriptions.UnitAmount` | src/services/subscription.ts:101 | `items.data[0]?.price?.unit_amount \|\| 0`: 0 without items, and a non-zero amount is the first item's unit amount |
| `Subscriptions.PriceInterval` | src/services/subscription.ts:68 | the interval is absent without items, and a present one is the first item's recurring interval |
| `Subscriptions.Place` | src/services/subscription.ts:25-38 | skipped exactly when there is no invoice or its time in seconds is before `startDate / 1000`; otherwise new when the subscription was created at or after that time and renewed when before |
| `Subscriptions.GetSubscriptionRevenue` | src/services/subscription.ts:5-42 | the loop computes `Subscriptions.RevenueByPlacement`: `created` and `updated` hold the per-currency sums of the normalised paid amounts of new and of renewed subscriptions |
| `Subscriptions.SubscriptionRevenuePartition` | src/services/subscription.ts:32-38 | every subscription that is not skipped lands in exactly one of the two buckets |
| `Subscriptions.SkippedSubscriptionIgnored` | src/services/subscription.ts:24-27 | a subscription without an invoice, or whose invoice precedes the range, changes nothing |
| `Subscriptions.GetSubscriptionTypeRevenue` | src/services/subscription.ts:44-80 | the loop computes `Subscriptions.RevenueByInterval`: "year" prices fill `annual` and "month" prices fill `monthly`, for invoiced subscriptions only |
| `Subscriptions.TypeRevenueIgnoresOthers` | src/services/subscription.ts:64-76 | an uninvoiced subscription, or one with any other interval, changes neither bucket |
| `Subscriptions.TypeBucketsDisjoint` | src/services/subscription.ts:70-76 | no subscription is annual and monthly at once |
| `Subscriptions.RoundAmounts` | src/services/subscription.ts:186-192 | rounding keeps the key set and gives whole hundredths within 0.005 of each amount |
| `Subscriptions.RoundAmountsIdempotent` | src/services/subscription.ts:186-192 | rounding twice is rounding once |
| `Subscriptions.RoundEach` | src/services/subscription.ts:110-112 | the in-place rounding loop computes `RoundAmounts` |
| `Subscriptions.GetPendingSubscriptions` | src/services/subscription.ts:82-115 | the count is the list length, and the totals are `RoundAmounts(PendingTotals(subs))`: the per-currency sums of the normalised unit amounts, rounded |
| `Subscriptions.PendingStep` | src/services/subscription.ts:100-107 | each step of the pending loop adds the next normalised unit amount under its upper-cased code |
| `Subscriptions.PendingTotalsSpec` | src/services/subscription.ts:100-107 | the pending totals have one key per upper-cased currency, each holding the sum of its normalised unit amounts |
| `Subscriptions.PendingZeroDecimalExact` | src/services/subscription.ts:101-106 | a zero-decimal currency's total is the plain sum of its unit amounts, whatever the letter case Stripe reports |
| `Subscriptions.InCurrentMonth` | src/services/subscription.ts:149 | a subscription is in the current month exactly when its renewal time in seconds is at or before the month end's |
| `Subscriptions.InNextMonth` | src/services/subscription.ts:153 | a subscription is in the next month exactly when it renews after the current month end and at or before the next month end, and then it is not in the current month |
| `Subscriptions.BucketCountMatches` | src/services/subscription.ts:149-157 | a renewal bucket's count is the number of subscriptions added to its revenue |
| `Subscriptions.RenewalsPartition` | src/services/subscription.ts:149-157 | the current-month and next-month buckets split, in count and per-currency revenue, the subscriptions renewing by the end of next month |
| `Subscriptions.LaterRenewalIgnored` | src/services/subscription.ts:149-157 | a renewal after the end of next month changes nothing |
| `Subscriptions.RenewalStep` | src/services/subscription.ts:149-157 | one more subscription goes into the current-month bucket when it renews by the current month end, else into the next-month bucket when it renews by the next month end, else into neither |
| `Subscriptions.AddRenewals` | src/services/subscription.ts:143-158 | the page's `forEach` turns `Subscriptions.Renewals` of the subscriptions seen so far into `Renewals` of those plus the page |
| `Subscriptions.IndexOf` | src/services/subscription.ts:139 | the position of the first subscription with the cursor's id |
| `Subscriptions.IndexOfDistinct` | src/services/subscription.ts:139 | with unique ids an id is found where it is |
| `Subscriptions.ListActive` | src/services/subscription.ts:136-141 | a page that says more remain holds 100 subscriptions |
| `Subscriptions.NextCursor` | src/services/subscription.ts:160-163 | the cursor moves to the last id of a non-empty page with more remaining, and stays put after an empty page |
| `Subscriptions.ListAfter` | src/services/subscription.ts:135-164 | with unique ids, each page resumes right after the subscriptions already seen, and a page that says more remain is non-empty and moves the cursor past itself |
| `Subscriptions.RoundEstimate` | src/services/subscription.ts:166-177 | both buckets' revenues are rounded and the counts kept |
| `Subscriptions.GetEstimatedRenewalRevenue` | src/services/subscription.ts:117-183 | the cursor loop ends, visits every active subscription once, and returns `RoundedEstimate(Renewals(all))`, the rounded renewal buckets over all of them |
| `Subscriptions.EmptyPageKeepsCursor` | src/services/subscription.ts:160-163 | an empty page with `has_more` leaves the cursor unchanged |
| `Subscriptions.CursorAdvances` | src/services/subscription.ts:160-163 | after a full page the next call resumes 100 places further on |
| `Route.PayoutTotals` | src/app/api/get-revenue/route.ts:60-70 | every listed payout counts, and each upper-cased currency holds its minor-unit sum normalised once |
| `Route.GetPayouts` | src/app/api/get-revenue/route.ts:45-71 | the aggregator computes `PayoutTotals` |
| `Route.Seconds` | src/app/api/get-revenue/route.ts:23-24 | `Math.floor(ms / 1000)` is the whole second containing `ms` |
| `Route.DayGte` | src/app/api/get-revenue/route.ts:23 | a day's `gte` is the second containing its start |
| `Route.DayLte` | src/app/api/get-revenue/route.ts:24 | a day's `lte` is the last second that begins before the next day starts |
| `Route.CreatedBetween` | src/app/api/get-revenue/route.ts:21-27 | the listed charges are exactly those created within `[gte, lte]` |
| `Route.ListCharges` | src/app/api/get-revenue/route.ts:21-27 | at most 100 charges, all from the window |
| `Route.GetDailyRevenue` | src/app/api/get-revenue/route.ts:74-94 | one key per day, holding the revenue of that day's window |
| `Route.DayWindowsCover` | src/app/api/get-revenue/route.ts:83-91 | every second from the first day's start to the last day's end lies in some day's `[gte, lte]` window |
| `Route.DayWindowsDisjoint` | src/app/api/get-revenue/route.ts:83-91 | two different days' `[gte, lte]` windows share no second |
| `Route.DayWindowsPartition` | src/app/api/get-revenue/route.ts:83-91 | every such second lies in exactly one day's window |
| `Route.DayListing` | src/app/api/get-revenue/route.ts:84-89 | the charges listed for a day were all created within that day's window |
| `Route.DayListingsDisjoint` | src/app/api/get-revenue/route.ts:83-91 | no charge is listed for two different days |
| `Route.ChargeListedOnce` | src/app/api/get-revenue/route.ts:83-91 | when no day window holds more than 100 charges, every charge created in the range is listed for exactly one day |
| `Route.PlanInterval` | src/app/api/get-revenue/route.ts:158 | `items.data[0]?.plan.interval` is absent exactly when there are no items, and is otherwise the first item's plan interval |
| `Route.GetRouteSubscriptionTypeRevenue` | src/app/api/get-revenue/route.ts:137-170 | the loop computes `Route.RouteRevenueByInterval`: the buckets are filled by plan interval, with no subscription skipped |
| `Route.RouteCountsUninvoiced` | src/app/api/get-revenue/route.ts:156-162 | an uninvoiced yearly subscription adds 0 under its currency |
| `Route.GetRoutePendingSubscriptions` | src/app/api/get-revenue/route.ts:173-200 | the count is the list length, and the totals are `Route.RoutePendingTotals`: each unit amount is normalised by `Route.RawUnitUnits` with the raw code and filed under the upper-cased one, unrounded |
| `Route.RoutePendingMisreadsJPY` | src/app/api/get-revenue/route.ts:191-196 | a "jpy" subscription of 1000 gives 10 under "JPY", where the service gives 1000 |
| `Route.GetRouteEstimatedRenewalRevenue` | src/app/api/get-revenue/route.ts:203-245 | `Subscriptions.Renewals` of the one page: the same buckets as the service, unrounded |

## Left out

- Stripe API calls (`charges.list`, `payouts.list`, `subscriptions.list`, `expand`) are network calls.
  - Each is modelled by the list it returns, so the `created`, `status` and `current_period_end` query filters are applied before the model sees the list.
  - The day window and the 100-charge limit are modelled for `getDailyRevenue` (`Route.ListCharges`), and the cursor listing for `getEstimatedRenewalRevenue` (`Subscriptions.ListActive`).
  - Elsewhere a truncated page is simply the input.
- Exchange-rate fetching (`getExchangeRates` in both files, `fetchExchangeRates`) is HTTP; the rate table is a parameter.
- The moment-timezone date arithmetic and the wall clock need the IANA zone database, so these values are integer parameters:
  - the range start;
  - the month ends;
  - the day start times;
  - the `YYYY-MM-DD` day keys.
- The date-range helpers (`getCurrentMonthDateRange`, `getDateRange`) are moment code and are not modelled.
- IEEE-754 binary floating point is not modelled; amounts are exact reals. For example, `(1.005).toFixed(2)` is "1.00" on doubles but rounds up in the model.
- Money.Num: NaN, +Infinity and -Infinity are one value, because no modelled code tells them apart.
- Money.Upper: only ASCII letters are upper-cased; Stripe currency codes are ASCII.
- CurrencySymbols.Fixed2: the exponent notation `toFixed` uses for magnitudes of 1e21 and above is not modelled.
- CurrencySymbols.IntString: the same exponent limit applies to `String(Math.round(x))`.
- CurrencySymbols.GetCurrencySymbol: keys inherited from `Object.prototype` (such as "constructor") are not modelled.
- Currency.ConvertCurrency: a rate stored as NaN, which is also falsy, cannot be stated; rates are reals.
- Subscriptions.GetEstimatedRenewalRevenue: the listing is a fixed list with unique ids that does not change between calls. Failed requests are not modelled.
  - Termination relies on `Subscriptions.ListActive` filling every page that says more remain, as Stripe does.
  - A page that is empty yet says more remain would make the source request the same cursor again forever (`Subscriptions.EmptyPageKeepsCursor`); the model's listing never returns one.
- Route.GetDailyRevenue: the result is a map, so the insertion order of the day keys is not modelled. The day keys are required to be distinct, as consecutive calendar days are.
- Route.DayWindowsPartition: day starts are required to be whole seconds, as moment's day boundaries are. Zone offsets are whole seconds.
- Route.ChargeListedOnce: holds only when no day window has more than 100 charges. A busier day's listing stops at the first 100 (`Route.ListCharges`), and its remaining charges are counted on no day.
- The POST handler and its server-sent event stream (`src/app/api/get-revenue/route.ts:303-390`) and `src/utils/streamHandler.ts` are stream I/O and are not modelled.
- React components and `pages.config.js` are UI and build configuration.
- The per-merchant combiner and the `DailyStats`/`RevenueBreakdown` types are imported from `src/services/stripe.ts`, but no definition of them is in that file; they are not part of this model.

## Findings

| source | as written | input that shows it | evidently intended | confidence | as-written member | corrected member |
|---|---|---|---|---|---|---|
| src/app/api/get-revenue/route.ts:191-196 | the unit amount is normalised with `sub.currency` as Stripe reports it (lower case), then filed under the upper-cased code | one active "jpy" subscription with `unit_amount` 1000: the route reports `{ JPY: 10 }` | normalise with the upper-cased code, as `src/services/subscription.ts:102-106` does, giving `{ JPY: 1000 }` | not executed | `Route.RoutePendingMisreadsJPY` | `Subscriptions.PendingZeroDecimalExact` |
