/** The subscription aggregators of `src/services/subscription.ts`. Each list
    call to Stripe is replaced by the subscriptions it returns; the paginated
    call of `getEstimatedRenewalRevenue` by a model of Stripe's cursor
    listing. Range starts and month ends are integer millisecond timestamps
    (the moment-timezone arithmetic that produces them is not modelled). */
module Subscriptions {
  import opened Options
  import opened Money
  import opened Folds
  import opened Currency

  /** A Stripe invoice: its creation time in Unix seconds and the amount
      paid in minor units (absent reads as 0). */
  datatype Invoice = Invoice(created: int, amountPaid: Option<int>)

  /** A price: its unit amount in minor units and its recurring interval. */
  datatype Price = Price(unitAmount: Option<int>, recurringInterval: Option<string>)

  /** A subscription item: its expanded price, if any, and its plan's
      interval. */
  datatype Item = Item(price: Option<Price>, planInterval: string)

  /** The fields of a Stripe subscription the aggregators read. Times are
      Unix seconds. */
  datatype Subscription = Subscription(id: string, currency: string, created: int, currentPeriodEnd: int,
                                       latestInvoice: Option<Invoice>, items: seq<Item>)

  function SubscriptionCurrency(s: Subscription): string
  {
    Upper(s.currency)
  }

  /** `latest_invoice.amount_paid || 0`, and 0 without an invoice. */
  function PaidAmount(s: Subscription): (r: int)
    ensures s.latestInvoice.None? ==> r == 0
    ensures s.latestInvoice.Some? && s.latestInvoice.value.amountPaid.Some? ==> r == s.latestInvoice.value.amountPaid.value
    ensures r != 0 ==> s.latestInvoice.Some? && s.latestInvoice.value.amountPaid == Some(r)
  {
    if s.latestInvoice.Some? then OrZero(s.latestInvoice.value.amountPaid) else 0
  }

  /** `items.data[0]?.price`. */
  function FirstPrice(s: Subscription): Option<Price>
  {
    if |s.items| == 0 then None else s.items[0].price
  }

  /** `items.data[0]?.price?.unit_amount || 0`. */
  function UnitAmount(s: Subscription): (r: int)
    ensures |s.items| == 0 ==> r == 0
    ensures |s.items| > 0 && s.items[0].price.Some? && s.items[0].price.value.unitAmount.Some? ==>
              r == s.items[0].price.value.unitAmount.value
    ensures r != 0 ==> |s.items| > 0 && s.items[0].price.Some? && s.items[0].price.value.unitAmount == Some(r)
  {
    if FirstPrice(s).Some? then OrZero(FirstPrice(s).value.unitAmount) else 0
  }

  /** `items.data[0]?.price?.recurring?.interval`. */
  function PriceInterval(s: Subscription): (r: Option<string>)
    ensures |s.items| == 0 ==> r.None?
    ensures |s.items| > 0 && s.items[0].price.Some? ==> r == s.items[0].price.value.recurringInterval
    ensures r.Some? ==> |s.items| > 0 && s.items[0].price.Some? && s.items[0].price.value.recurringInterval == r
  {
    if FirstPrice(s).Some? then FirstPrice(s).value.recurringInterval else None
  }

  /** The amount paid, normalised on its own with the upper-cased code. */
  function PaidUnits(s: Subscription): real
  {
    ConvertToProperUnits(SubscriptionCurrency(s), PaidAmount(s) as real)
  }

  /** The unit amount, normalised on its own with the upper-cased code. */
  function UnitUnits(s: Subscription): real
  {
    ConvertToProperUnits(SubscriptionCurrency(s), UnitAmount(s) as real)
  }

  // ---------------------------------------------------------------------
  // getSubscriptionRevenue
  // ---------------------------------------------------------------------

  /** Where `getSubscriptionRevenue` files a subscription. */
  datatype Placement = Skipped | New | Renewed

  /** A subscription without an invoice, or whose invoice precedes the range
      start, is skipped; otherwise it is new when it was itself created at or
      after the start, and a renewal before. A time `t` in seconds is before
      `startMs / 1000` exactly when `t * 1000 < startMs`. */
  function Place(s: Subscription, startMs: int): (r: Placement)
    ensures r == Skipped <==>
              s.latestInvoice.None? || (s.latestInvoice.value.created as real) < (startMs as real) / 1000.0
    ensures r == New <==>
              r != Skipped && (s.created as real) >= (startMs as real) / 1000.0
    ensures r == Renewed <==>
              r != Skipped && (s.created as real) < (startMs as real) / 1000.0
  {
    if s.latestInvoice.None? || s.latestInvoice.value.created * 1000 < startMs then Skipped
    else if s.created * 1000 >= startMs then New
    else Renewed
  }

  function PlacedAs(startMs: int, p: Placement): Subscription -> bool
  {
    s => Place(s, startMs) == p
  }

  function NotSkipped(startMs: int): Subscription -> bool
  {
    s => Place(s, startMs) != Skipped
  }

  /** The `{ created, updated }` record. */
  datatype SubscriptionRevenue = SubscriptionRevenue(created: map<string, real>, updated: map<string, real>)

  /** The buckets of `getSubscriptionRevenue` as a fold over the list. */
  function RevenueByPlacement(subs: seq<Subscription>, startMs: int): SubscriptionRevenue
  {
    SubscriptionRevenue(Totals(Contributions(subs, SubscriptionCurrency, PlacedAs(startMs, New), PaidUnits)),
                        Totals(Contributions(subs, SubscriptionCurrency, PlacedAs(startMs, Renewed), PaidUnits)))
  }

  /** `getSubscriptionRevenue` (and its copy in the route) over the listed
      subscriptions. */
  method GetSubscriptionRevenue(subs: seq<Subscription>, startMs: int) returns (r: SubscriptionRevenue)
    ensures r == RevenueByPlacement(subs, startMs)
  {
    var created: map<string, real> := map[];
    var updated: map<string, real> := map[];
    ghost var isNew, isRenewed := PlacedAs(startMs, New), PlacedAs(startMs, Renewed);
    for i := 0 to |subs|
      invariant created == Totals(Contributions(subs[..i], SubscriptionCurrency, isNew, PaidUnits))
      invariant updated == Totals(Contributions(subs[..i], SubscriptionCurrency, isRenewed, PaidUnits))
    {
      var s := subs[i];
      AccumulateAt(subs, i, SubscriptionCurrency, isNew, PaidUnits);
      AccumulateAt(subs, i, SubscriptionCurrency, isRenewed, PaidUnits);
      assert isNew(s) == (Place(s, startMs) == New);
      assert isRenewed(s) == (Place(s, startMs) == Renewed);
      if s.latestInvoice.None? || s.latestInvoice.value.created * 1000 < startMs {
        continue;
      }
      var amount := PaidAmount(s);
      var currency := Upper(s.currency);
      assert PaidUnits(s) == ConvertToProperUnits(currency, amount as real);
      if s.created * 1000 >= startMs {
        created := AddTo(created, currency, ConvertToProperUnits(currency, amount as real));
      } else {
        updated := AddTo(updated, currency, ConvertToProperUnits(currency, amount as real));
      }
    }
    assert subs[..|subs|] == subs;
    r := SubscriptionRevenue(created, updated);
  }

  /** Every subscription that is not skipped lands in exactly one bucket:
      per currency the two buckets together hold the normalised amounts of
      all of them. */
  lemma SubscriptionRevenuePartition(subs: seq<Subscription>, startMs: int, k: string)
    ensures Get(RevenueByPlacement(subs, startMs).created, k) + Get(RevenueByPlacement(subs, startMs).updated, k)
            == SeqSum(subs, AmountUnder(SubscriptionCurrency, NotSkipped(startMs), PaidUnits, k))
  {
    forall i | 0 <= i < |subs|
      ensures SplitsAt(NotSkipped(startMs), PlacedAs(startMs, New), PlacedAs(startMs, Renewed), subs[i])
    {
      var s := subs[i];
      assert NotSkipped(startMs)(s) == (Place(s, startMs) != Skipped);
      assert PlacedAs(startMs, New)(s) == (Place(s, startMs) == New);
      assert PlacedAs(startMs, Renewed)(s) == (Place(s, startMs) == Renewed);
    }
    ContributionsSplit(subs, SubscriptionCurrency, NotSkipped(startMs), PlacedAs(startMs, New),
                       PlacedAs(startMs, Renewed), PaidUnits, k);
    ContributionsTotals(subs, SubscriptionCurrency, PlacedAs(startMs, New), PaidUnits);
    ContributionsTotals(subs, SubscriptionCurrency, PlacedAs(startMs, Renewed), PaidUnits);
    ContributionsKeySum(subs, SubscriptionCurrency, NotSkipped(startMs), PaidUnits, k);
  }

  /** A subscription without an invoice, or with an invoice older than the
      range, changes neither bucket. */
  lemma SkippedSubscriptionIgnored(subs: seq<Subscription>, s: Subscription, startMs: int)
    requires s.latestInvoice.None? || s.latestInvoice.value.created * 1000 < startMs
    ensures RevenueByPlacement(subs + [s], startMs) == RevenueByPlacement(subs, startMs)
  {
    AccumulateSnoc(subs, s, SubscriptionCurrency, PlacedAs(startMs, New), PaidUnits);
    AccumulateSnoc(subs, s, SubscriptionCurrency, PlacedAs(startMs, Renewed), PaidUnits);
  }

  // ---------------------------------------------------------------------
  // getSubscriptionTypeRevenue
  // ---------------------------------------------------------------------

  /** A subscription with an invoice whose first item's price recurs every
      `interval`. */
  function InvoicedWithInterval(interval: string): Subscription -> bool
  {
    (s: Subscription) => s.latestInvoice.Some? && PriceInterval(s) == Some(interval)
  }

  /** The `{ annual, monthly }` record. */
  datatype TypeRevenue = TypeRevenue(annual: map<string, real>, monthly: map<string, real>)

  /** The buckets of `getSubscriptionTypeRevenue` as a fold over the list:
      "year" to annual, "month" to monthly. */
  function RevenueByInterval(subs: seq<Subscription>): TypeRevenue
  {
    TypeRevenue(Totals(Contributions(subs, SubscriptionCurrency, InvoicedWithInterval("year"), PaidUnits)),
                Totals(Contributions(subs, SubscriptionCurrency, InvoicedWithInterval("month"), PaidUnits)))
  }

  /** `getSubscriptionTypeRevenue` over the listed subscriptions. */
  method GetSubscriptionTypeRevenue(subs: seq<Subscription>) returns (r: TypeRevenue)
    ensures r == RevenueByInterval(subs)
  {
    var annual: map<string, real> := map[];
    var monthly: map<string, real> := map[];
    ghost var isAnnual, isMonthly := InvoicedWithInterval("year"), InvoicedWithInterval("month");
    for i := 0 to |subs|
      invariant annual == Totals(Contributions(subs[..i], SubscriptionCurrency, isAnnual, PaidUnits))
      invariant monthly == Totals(Contributions(subs[..i], SubscriptionCurrency, isMonthly, PaidUnits))
    {
      var s := subs[i];
      AccumulateAt(subs, i, SubscriptionCurrency, isAnnual, PaidUnits);
      AccumulateAt(subs, i, SubscriptionCurrency, isMonthly, PaidUnits);
      assert isAnnual(s) == (s.latestInvoice.Some? && PriceInterval(s) == Some("year"));
      assert isMonthly(s) == (s.latestInvoice.Some? && PriceInterval(s) == Some("month"));
      if s.latestInvoice.None? {
        continue;
      }
      var amount := PaidAmount(s);
      var currency := Upper(s.currency);
      var interval := PriceInterval(s);
      assert PaidUnits(s) == ConvertToProperUnits(currency, amount as real);
      if interval == Some("year") {
        annual := AddTo(annual, currency, ConvertToProperUnits(currency, amount as real));
      } else if interval == Some("month") {
        monthly := AddTo(monthly, currency, ConvertToProperUnits(currency, amount as real));
      }
    }
    assert subs[..|subs|] == subs;
    r := TypeRevenue(annual, monthly);
  }

  /** No subscription is in both buckets, and one without an invoice, or
      with any interval other than "year" and "month" (or none), is in
      neither. */
  lemma TypeRevenueIgnoresOthers(subs: seq<Subscription>, s: Subscription)
    requires s.latestInvoice.None? || PriceInterval(s) !in {Some("year"), Some("month")}
    ensures RevenueByInterval(subs + [s]) == RevenueByInterval(subs)
  {
    AccumulateSnoc(subs, s, SubscriptionCurrency, InvoicedWithInterval("year"), PaidUnits);
    AccumulateSnoc(subs, s, SubscriptionCurrency, InvoicedWithInterval("month"), PaidUnits);
  }

  lemma TypeBucketsDisjoint(s: Subscription)
    ensures !(InvoicedWithInterval("year")(s) && InvoicedWithInterval("month")(s))
  {
  }

  // ---------------------------------------------------------------------
  // Rounding
  // ---------------------------------------------------------------------

  /** `roundAmounts`: every entry rounded to two places, keys unchanged. */
  function RoundAmounts(amounts: map<string, real>): (r: map<string, real>)
    ensures r.Keys == amounts.Keys
    ensures forall c :: c in r ==> IsCents(r[c]) && -0.005 <= r[c] - amounts[c] <= 0.005
  {
    map c | c in amounts :: Round2(amounts[c])
  }

  /** Rounding an already rounded record changes nothing. */
  lemma RoundAmountsIdempotent(amounts: map<string, real>)
    ensures RoundAmounts(RoundAmounts(amounts)) == RoundAmounts(amounts)
  {
    forall c | c in amounts ensures Round2(Round2(amounts[c])) == Round2(amounts[c]) {
      Round2Idempotent(amounts[c]);
    }
  }

  /** `Object.keys(m).forEach(c => { m[c] = Number(m[c].toFixed(2)); })`. */
  method RoundEach(amounts: map<string, real>) returns (rounded: map<string, real>)
    ensures rounded == RoundAmounts(amounts)
  {
    rounded := amounts;
    var todo := amounts.Keys;
    while todo != {}
      invariant todo <= amounts.Keys
      invariant rounded.Keys == amounts.Keys
      invariant forall c :: c in rounded ==> rounded[c] == if c in todo then amounts[c] else Round2(amounts[c])
      decreases todo
    {
      var c :| c in todo;
      rounded := rounded[c := Round2(rounded[c])];
      todo := todo - {c};
    }
  }

  // ---------------------------------------------------------------------
  // getPendingSubscriptions
  // ---------------------------------------------------------------------

  /** The `{ count, totalAmount }` record. */
  datatype PendingSummary = PendingSummary(count: nat, totalAmount: map<string, real>)

  /** The unit amounts of all listed subscriptions, each normalised with its
      upper-cased code, summed per upper-cased code. */
  function PendingTotals(subs: seq<Subscription>): map<string, real>
  {
    Totals(Contributions(subs, SubscriptionCurrency, Always, UnitUnits))
  }

  /** One step of the pending `forEach`: the next subscription's normalised
      unit amount is added under its upper-cased code. */
  lemma PendingStep(subs: seq<Subscription>, i: nat)
    requires i < |subs|
    ensures PendingTotals(subs[..i + 1]) ==
            AddTo(PendingTotals(subs[..i]), Upper(subs[i].currency),
                  ConvertToProperUnits(Upper(subs[i].currency), UnitAmount(subs[i]) as real))
  {
    AccumulateAt(subs, i, SubscriptionCurrency, Always, UnitUnits);
  }

  /** `getPendingSubscriptions` over the listed subscriptions: every one is
      counted, and the totals are rounded once at the end. */
  method GetPendingSubscriptions(subs: seq<Subscription>) returns (summary: PendingSummary)
    ensures summary.count == |subs|
    ensures summary.totalAmount == RoundAmounts(PendingTotals(subs))
  {
    var count := 0;
    var totalAmount: map<string, real> := map[];
    assert subs[..0] == [];
    for i := 0 to |subs|
      invariant count == i
      invariant totalAmount == PendingTotals(subs[..i])
    {
      var s := subs[i];
      PendingStep(subs, i);
      var amount := UnitAmount(s);
      var currency := Upper(s.currency);
      count := count + 1;
      totalAmount := AddTo(totalAmount, currency, ConvertToProperUnits(currency, amount as real));
    }
    assert subs[..|subs|] == subs;
    totalAmount := RoundEach(totalAmount);
    summary := PendingSummary(count, totalAmount);
  }

  /** The pending totals have a key for each upper-cased currency of the
      list and no other, and each holds the sum of that currency's unit
      amounts, each normalised with the code it is stored under. */
  lemma PendingTotalsSpec(subs: seq<Subscription>)
    ensures PendingTotals(subs).Keys == set s | s in subs :: SubscriptionCurrency(s)
    ensures forall k :: Get(PendingTotals(subs), k) == SeqSum(subs, AmountUnder(SubscriptionCurrency, Always, UnitUnits, k))
  {
    ContributionsTotals(subs, SubscriptionCurrency, Always, UnitUnits);
    assert (set s | s in subs && Always(s) :: SubscriptionCurrency(s)) == set s | s in subs :: SubscriptionCurrency(s);
  }

  /** The unit amount, unnormalised. */
  function UnitAmountReal(s: Subscription): real
  {
    UnitAmount(s) as real
  }

  /** In the service's totals a zero-decimal currency is never divided: its
      entry is the plain sum of the unit amounts filed under it, whatever the
      letter case of the codes Stripe reports. */
  lemma PendingZeroDecimalExact(subs: seq<Subscription>, k: string)
    requires k in ZeroDecimalCurrencies
    ensures Get(PendingTotals(subs), k) == SeqSum(subs, AmountUnder(SubscriptionCurrency, Always, UnitAmountReal, k))
  {
    PendingTotalsSpec(subs);
    forall s | s in subs
      ensures AmountUnder(SubscriptionCurrency, Always, UnitUnits, k)(s) ==
              AmountUnder(SubscriptionCurrency, Always, UnitAmountReal, k)(s)
    {
      AmountUnderApply(SubscriptionCurrency, Always, UnitUnits, k, s);
      AmountUnderApply(SubscriptionCurrency, Always, UnitAmountReal, k, s);
    }
    SeqSumPointwise(subs, AmountUnder(SubscriptionCurrency, Always, UnitUnits, k),
                    AmountUnder(SubscriptionCurrency, Always, UnitAmountReal, k));
  }

  // ---------------------------------------------------------------------
  // getEstimatedRenewalRevenue
  // ---------------------------------------------------------------------

  /** Renews at or before the end of the current month (both compared in
      milliseconds). */
  function InCurrentMonth(currentMonthEndMs: int): (keep: Subscription -> bool)
    ensures forall s :: keep(s) <==> (s.currentPeriodEnd as real) <= (currentMonthEndMs as real) / 1000.0
  {
    (s: Subscription) => s.currentPeriodEnd * 1000 <= currentMonthEndMs
  }

  /** Renews after the current month but at or before the end of the next. */
  function InNextMonth(currentMonthEndMs: int, nextMonthEndMs: int): (keep: Subscription -> bool)
    ensures forall s :: keep(s) ==> !InCurrentMonth(currentMonthEndMs)(s)
    ensures forall s :: keep(s) <==>
              (currentMonthEndMs as real) / 1000.0 < (s.currentPeriodEnd as real) <= (nextMonthEndMs as real) / 1000.0
  {
    (s: Subscription) => !(s.currentPeriodEnd * 1000 <= currentMonthEndMs) && s.currentPeriodEnd * 1000 <= nextMonthEndMs
  }

  /** Renews in either month. */
  function RenewsSoon(currentMonthEndMs: int, nextMonthEndMs: int): Subscription -> bool
  {
    (s: Subscription) => s.currentPeriodEnd * 1000 <= currentMonthEndMs || s.currentPeriodEnd * 1000 <= nextMonthEndMs
  }

  /** One `{ count, revenue }` record. */
  datatype RenewalBucket = RenewalBucket(count: nat, revenue: map<string, real>)

  /** The `{ currentMonth, nextMonth }` record. */
  datatype RenewalEstimate = RenewalEstimate(currentMonth: RenewalBucket, nextMonth: RenewalBucket)

  /** The bucket a fold over `subs` fills with the subscriptions `keep`
      accepts. */
  function BucketOf(subs: seq<Subscription>, keep: Subscription -> bool): RenewalBucket
  {
    RenewalBucket(Count(subs, keep), Totals(Contributions(subs, SubscriptionCurrency, keep, UnitUnits)))
  }

  /** The renewal buckets of `subs`, before rounding. */
  function Renewals(subs: seq<Subscription>, currentMonthEndMs: int, nextMonthEndMs: int): RenewalEstimate
  {
    RenewalEstimate(BucketOf(subs, InCurrentMonth(currentMonthEndMs)),
                    BucketOf(subs, InNextMonth(currentMonthEndMs, nextMonthEndMs)))
  }

  /** A bucket's count is the number of subscriptions added to its revenue. */
  lemma BucketCountMatches(subs: seq<Subscription>, keep: Subscription -> bool)
    ensures BucketOf(subs, keep).count == |Contributions(subs, SubscriptionCurrency, keep, UnitUnits)|
  {
    ContributionsCount(subs, SubscriptionCurrency, keep, UnitUnits);
  }

  /** No subscription is counted in both months: the two buckets together
      hold exactly the subscriptions that renew by the end of the next
      month, once each. */
  lemma RenewalsPartition(subs: seq<Subscription>, currentMonthEndMs: int, nextMonthEndMs: int, k: string)
    ensures Renewals(subs, currentMonthEndMs, nextMonthEndMs).currentMonth.count +
            Renewals(subs, currentMonthEndMs, nextMonthEndMs).nextMonth.count
            == Count(subs, RenewsSoon(currentMonthEndMs, nextMonthEndMs))
    ensures Get(Renewals(subs, currentMonthEndMs, nextMonthEndMs).currentMonth.revenue, k) +
            Get(Renewals(subs, currentMonthEndMs, nextMonthEndMs).nextMonth.revenue, k)
            == SeqSum(subs, AmountUnder(SubscriptionCurrency, RenewsSoon(currentMonthEndMs, nextMonthEndMs), UnitUnits, k))
  {
    var soon, current, next := RenewsSoon(currentMonthEndMs, nextMonthEndMs), InCurrentMonth(currentMonthEndMs),
                               InNextMonth(currentMonthEndMs, nextMonthEndMs);
    forall i | 0 <= i < |subs| ensures SplitsAt(soon, current, next, subs[i]) {
      var s := subs[i];
      assert soon(s) == (s.currentPeriodEnd * 1000 <= currentMonthEndMs || s.currentPeriodEnd * 1000 <= nextMonthEndMs);
      assert current(s) == (s.currentPeriodEnd * 1000 <= currentMonthEndMs);
      assert next(s) == (!(s.currentPeriodEnd * 1000 <= currentMonthEndMs) && s.currentPeriodEnd * 1000 <= nextMonthEndMs);
    }
    CountSplit(subs, soon, current, next);
    ContributionsSplit(subs, SubscriptionCurrency, soon, current, next, UnitUnits, k);
    ContributionsTotals(subs, SubscriptionCurrency, current, UnitUnits);
    ContributionsTotals(subs, SubscriptionCurrency, next, UnitUnits);
    ContributionsKeySum(subs, SubscriptionCurrency, soon, UnitUnits, k);
  }

  /** A subscription renewing after the end of the next month is ignored. */
  lemma LaterRenewalIgnored(subs: seq<Subscription>, s: Subscription, currentMonthEndMs: int, nextMonthEndMs: int)
    requires s.currentPeriodEnd * 1000 > currentMonthEndMs && s.currentPeriodEnd * 1000 > nextMonthEndMs
    ensures Renewals(subs + [s], currentMonthEndMs, nextMonthEndMs) == Renewals(subs, currentMonthEndMs, nextMonthEndMs)
  {
    AccumulateSnoc(subs, s, SubscriptionCurrency, InCurrentMonth(currentMonthEndMs), UnitUnits);
    AccumulateSnoc(subs, s, SubscriptionCurrency, InNextMonth(currentMonthEndMs, nextMonthEndMs), UnitUnits);
    CountSnoc(subs, s, InCurrentMonth(currentMonthEndMs));
    CountSnoc(subs, s, InNextMonth(currentMonthEndMs, nextMonthEndMs));
  }

  /** A bucket with one more subscription of `s`'s currency and amount. */
  function Added(b: RenewalBucket, s: Subscription): RenewalBucket
  {
    RenewalBucket(b.count + 1, AddTo(b.revenue, SubscriptionCurrency(s), UnitUnits(s)))
  }

  /** One subscription more: it goes into the current month's bucket when it
      renews by the current month end, into the next month's when it renews
      after that but by the next month end, and into neither otherwise. */
  lemma RenewalStep(before: seq<Subscription>, s: Subscription, currentMonthEndMs: int, nextMonthEndMs: int)
    ensures var est := Renewals(before, currentMonthEndMs, nextMonthEndMs);
            Renewals(before + [s], currentMonthEndMs, nextMonthEndMs) ==
              if s.currentPeriodEnd * 1000 <= currentMonthEndMs then est.(currentMonth := Added(est.currentMonth, s))
              else if s.currentPeriodEnd * 1000 <= nextMonthEndMs then est.(nextMonth := Added(est.nextMonth, s))
              else est
  {
    var isCurrent, isNext := InCurrentMonth(currentMonthEndMs), InNextMonth(currentMonthEndMs, nextMonthEndMs);
    AccumulateSnoc(before, s, SubscriptionCurrency, isCurrent, UnitUnits);
    AccumulateSnoc(before, s, SubscriptionCurrency, isNext, UnitUnits);
    CountSnoc(before, s, isCurrent);
    CountSnoc(before, s, isNext);
  }

  /** One page's `forEach`: each subscription renewing by the end of the
      current month goes into the current-month bucket, each renewing by the
      end of the next month into the next-month bucket; the buckets then
      cover `done + data`. */
  method AddRenewals(ghost done: seq<Subscription>, data: seq<Subscription>, currentMonthEndMs: int,
                     nextMonthEndMs: int, est: RenewalEstimate)
    returns (updated: RenewalEstimate)
    requires est == Renewals(done, currentMonthEndMs, nextMonthEndMs)
    ensures updated == Renewals(done + data, currentMonthEndMs, nextMonthEndMs)
  {
    var current, next := est.currentMonth, est.nextMonth;
    assert done + data[..0] == done;
    for j := 0 to |data|
      invariant RenewalEstimate(current, next) == Renewals(done + data[..j], currentMonthEndMs, nextMonthEndMs)
    {
      var s := data[j];
      assert done + data[..j + 1] == (done + data[..j]) + [s];
      RenewalStep(done + data[..j], s, currentMonthEndMs, nextMonthEndMs);
      var amount := UnitAmount(s);
      var currency := Upper(s.currency);
      var convertedAmount := ConvertToProperUnits(currency, amount as real);
      if s.currentPeriodEnd * 1000 <= currentMonthEndMs {
        current := RenewalBucket(current.count + 1, AddTo(current.revenue, currency, convertedAmount));
      } else if s.currentPeriodEnd * 1000 <= nextMonthEndMs {
        next := RenewalBucket(next.count + 1, AddTo(next.revenue, currency, convertedAmount));
      }
    }
    assert data[..|data|] == data;
    updated := RenewalEstimate(current, next);
  }

  /** The largest number of subscriptions one list call returns. */
  const PageLimit: nat := 100

  /** One response of a list call. */
  datatype Page = Page(data: seq<Subscription>, hasMore: bool)

  /** Subscription ids are unique. */
  ghost predicate DistinctIds(all: seq<Subscription>)
  {
    forall i, j :: 0 <= i < j < |all| ==> all[i].id != all[j].id
  }

  /** The position of the first subscription with id `id`, or `|all|`. */
  function IndexOf(all: seq<Subscription>, id: string): (i: nat)
    ensures i <= |all|
    ensures i < |all| ==> all[i].id == id
    ensures forall j :: 0 <= j < i ==> all[j].id != id
  {
    if all == [] then 0
    else if all[0].id == id then 0
    else
      var i := IndexOf(all[1..], id);
      assert forall j :: 0 < j <= i ==> all[j] == all[1..][j - 1];
      i + 1
  }

  /** With unique ids, an id is found where it is. */
  lemma IndexOfDistinct(all: seq<Subscription>, k: nat)
    requires DistinctIds(all) && k < |all|
    ensures IndexOf(all, all[k].id) == k
  {
  }

  /** Where a listing resumes: at the start without a cursor, just after the
      subscription the cursor names otherwise. */
  function ResumeAt(all: seq<Subscription>, cursor: Option<string>): nat
  {
    if cursor.None? then 0 else var i := IndexOf(all, cursor.value); if i < |all| then i + 1 else |all|
  }

  /** `subscriptions.list({ status: "active", limit: 100, starting_after })`
      against the active subscriptions `all`, in the order Stripe lists
      them: the next (at most) 100 after the cursor, and whether any remain. */
  function ListActive(all: seq<Subscription>, cursor: Option<string>): (page: Page)
    ensures page.hasMore ==> |page.data| == PageLimit
  {
    var start := ResumeAt(all, cursor);
    var end := if start + PageLimit < |all| then start + PageLimit else |all|;
    Page(all[start..end], end < |all|)
  }

  /** The cursor after a page: the last id when more remain and the page is
      non-empty, the old cursor otherwise. */
  function NextCursor(cursor: Option<string>, page: Page): (next: Option<string>)
    ensures page.hasMore && |page.data| > 0 ==> next == Some(page.data[|page.data| - 1].id)
    ensures page.data == [] ==> next == cursor
  {
    if page.hasMore && |page.data| > 0 then Some(page.data[|page.data| - 1].id) else cursor
  }

  /** The renewal buckets with their revenue rounded to two places. */
  function RoundedEstimate(est: RenewalEstimate): RenewalEstimate
  {
    RenewalEstimate(RenewalBucket(est.currentMonth.count, RoundAmounts(est.currentMonth.revenue)),
                    RenewalBucket(est.nextMonth.count, RoundAmounts(est.nextMonth.revenue)))
  }

  /** The cursor after the first `seen` subscriptions have been listed. */
  function CursorAfter(all: seq<Subscription>, seen: nat): Option<string>
    requires seen <= |all|
  {
    if seen == 0 then None else Some(all[seen - 1].id)
  }

  /** The rounding after the cursor loop: each bucket's revenue rounded in
      place, the counts left alone. */
  method RoundEstimate(est: RenewalEstimate) returns (rounded: RenewalEstimate)
    ensures rounded == RoundedEstimate(est)
  {
    var current := RoundEach(est.currentMonth.revenue);
    var next := RoundEach(est.nextMonth.revenue);
    rounded := RenewalEstimate(RenewalBucket(est.currentMonth.count, current), RenewalBucket(est.nextMonth.count, next));
  }

  /** With unique ids, the listing resumed after the first `seen`
      subscriptions returns the ones that follow, and the cursor it leaves
      is the one after those. */
  lemma ListAfter(all: seq<Subscription>, seen: nat)
    requires DistinctIds(all) && seen <= |all|
    ensures var page := ListActive(all, CursorAfter(all, seen));
            seen + |page.data| <= |all| &&
            all[..seen] + page.data == all[..seen + |page.data|] &&
            (page.hasMore ==> |page.data| > 0 &&
                              NextCursor(CursorAfter(all, seen), page) == CursorAfter(all, seen + |page.data|)) &&
            (!page.hasMore ==> seen + |page.data| == |all|)
  {
    if seen > 0 {
      IndexOfDistinct(all, seen - 1);
    }
    assert ResumeAt(all, CursorAfter(all, seen)) == seen;
  }

  /** `getEstimatedRenewalRevenue`: the cursor loop visits every active
      subscription exactly once, in listing order, so the result is the
      renewal fold over all of them, rounded. */
  method GetEstimatedRenewalRevenue(all: seq<Subscription>, currentMonthEndMs: int, nextMonthEndMs: int)
    returns (est: RenewalEstimate)
    requires DistinctIds(all)
    ensures est == RoundedEstimate(Renewals(all, currentMonthEndMs, nextMonthEndMs))
  {
    est := RenewalEstimate(RenewalBucket(0, map[]), RenewalBucket(0, map[]));
    var hasMore := true;
    var startingAfter: Option<string> := None;
    ghost var seen: nat := 0;
    assert all[..0] == [];
    while hasMore
      invariant seen <= |all|
      invariant hasMore ==> startingAfter == CursorAfter(all, seen)
      invariant !hasMore ==> seen == |all|
      invariant est == Renewals(all[..seen], currentMonthEndMs, nextMonthEndMs)
      decreases |all| - seen, hasMore
    {
      var page := ListActive(all, startingAfter);
      ListAfter(all, seen);
      est := AddRenewals(all[..seen], page.data, currentMonthEndMs, nextMonthEndMs, est);
      hasMore := page.hasMore;
      startingAfter := NextCursor(startingAfter, page);
      seen := seen + |page.data|;
    }
    assert all[..seen] == all;
    est := RoundEstimate(est);
  }

  /** A page that says more remain but holds nothing leaves the cursor where
      it was, so the same page would be asked for again; the listing above
      never returns such a page. */
  lemma EmptyPageKeepsCursor(cursor: Option<string>)
    ensures NextCursor(cursor, Page([], true)) == cursor
  {
  }

  /** A non-empty page that says more remain moves the cursor to its last
      subscription, so the next call resumes just after it. */
  lemma CursorAdvances(all: seq<Subscription>, cursor: Option<string>)
    requires DistinctIds(all)
    requires ListActive(all, cursor).hasMore
    ensures ResumeAt(all, NextCursor(cursor, ListActive(all, cursor))) == ResumeAt(all, cursor) + PageLimit
  {
    var start := ResumeAt(all, cursor);
    var page := ListActive(all, cursor);
    assert page.data[PageLimit - 1] == all[start + PageLimit - 1];
    IndexOfDistinct(all, start + PageLimit - 1);
  }
}
