/** The aggregators that only `src/app/api/get-revenue/route.ts` has, and its
    older copies of the subscription aggregators where they differ from
    `src/services/subscription.ts`. The copies of `convertToProperUnits`,
    `getRevenue`'s fold, `getSubscriptionRevenue`, `convertTotalRevenue` and
    `convertTotalPayoutsToCNY` in that file behave identically to the ones
    modelled in the Currency, Charges and Subscriptions modules. */
module Route {
  import opened Options
  import opened Money
  import opened Folds
  import opened Currency
  import opened Charges
  import opened Subscriptions

  // ---------------------------------------------------------------------
  // getPayouts
  // ---------------------------------------------------------------------

  /** The fields of a Stripe payout the aggregator reads. */
  datatype Payout = Payout(id: string, amount: int, currency: string, created: int)

  function PayoutCurrency(p: Payout): string
  {
    Upper(p.currency)
  }

  function PayoutAmount(p: Payout): real
  {
    p.amount as real
  }

  /** The payout totals: every listed payout counts (the list call already
      asks for paid payouts only), summed per upper-cased currency in minor
      units and then normalised once. */
  function PayoutTotals(payouts: seq<Payout>): (r: map<string, real>)
    ensures r.Keys == set p | p in payouts :: PayoutCurrency(p)
    ensures forall k :: k in r ==>
              r[k] == ConvertToProperUnits(k, SeqSum(payouts, AmountUnder(PayoutCurrency, Always, PayoutAmount, k)))
  {
    ContributionsTotals(payouts, PayoutCurrency, Always, PayoutAmount);
    assert (set p | p in payouts && Always(p) :: PayoutCurrency(p)) == set p | p in payouts :: PayoutCurrency(p);
    Normalise(Totals(Contributions(payouts, PayoutCurrency, Always, PayoutAmount)))
  }

  /** `getPayouts` over the listed payouts. */
  method GetPayouts(payouts: seq<Payout>) returns (totals: map<string, real>)
    ensures totals == PayoutTotals(payouts)
  {
    var sums := Accumulate(payouts, PayoutCurrency, Always, PayoutAmount);
    totals := Normalise(sums);
  }

  // ---------------------------------------------------------------------
  // getDailyRevenue
  // ---------------------------------------------------------------------

  /** `Math.floor(ms / 1000)`: Dafny's integer division by a positive number
      rounds down, as `Math.floor` does. */
  function Seconds(ms: int): (s: int)
    ensures s * 1000 <= ms < s * 1000 + 1000
  {
    ms / 1000
  }

  /** The `gte` bound of day `i`: its start, in seconds. */
  function DayGte(dayStartsMs: seq<int>, i: nat): (gte: int)
    requires i + 1 < |dayStartsMs|
    ensures gte * 1000 <= dayStartsMs[i] < gte * 1000 + 1000
  {
    Seconds(dayStartsMs[i])
  }

  /** The `lte` bound of day `i`: its `endOf("day")`, the millisecond before
      the next day starts, in seconds. */
  function DayLte(dayStartsMs: seq<int>, i: nat): (lte: int)
    requires i + 1 < |dayStartsMs|
    ensures lte * 1000 < dayStartsMs[i + 1] <= lte * 1000 + 1000
  {
    Seconds(dayStartsMs[i + 1] - 1)
  }

  /** The charges created within `[gte, lte]`, in listing order. */
  function CreatedBetween(charges: seq<Charge>, gte: int, lte: int): (r: seq<Charge>)
    ensures forall c :: c in r <==> c in charges && gte <= c.created <= lte
  {
    if charges == [] then []
    else
      var rest := CreatedBetween(charges[..|charges| - 1], gte, lte);
      var c := charges[|charges| - 1];
      assert charges == charges[..|charges| - 1] + [c];
      if gte <= c.created <= lte then rest + [c] else rest
  }

  /** `charges.list({ created: { gte, lte }, limit: 100 })`: the first 100
      charges of the window, in listing order. */
  function ListCharges(charges: seq<Charge>, gte: int, lte: int): (r: seq<Charge>)
    ensures |r| <= 100
    ensures forall c :: c in r ==> c in charges && gte <= c.created <= lte
  {
    var inWindow := CreatedBetween(charges, gte, lte);
    if |inWindow| <= 100 then inWindow
    else
      assert forall c :: c in inWindow[..100] ==> c in inWindow;
      inWindow[..100]
  }

  /** `getDailyRevenue`: for each day, in order, the revenue of the charges
      listed for that day's window, under the day's `YYYY-MM-DD` key. The
      days and their start times are parameters; `dayStartsMs` has one more
      entry than `days`, the start of the day after the last. */
  method GetDailyRevenue(charges: seq<Charge>, days: seq<string>, dayStartsMs: seq<int>)
    returns (daily: map<string, map<string, real>>)
    requires |dayStartsMs| == |days| + 1
    requires forall i, j :: 0 <= i < j < |days| ==> days[i] != days[j]
    ensures daily.Keys == set d | d in days
    ensures forall i :: 0 <= i < |days| ==>
              daily[days[i]] == Revenue(DayListing(charges, dayStartsMs, i))
  {
    daily := map[];
    for i := 0 to |days|
      invariant daily.Keys == set d | d in days[..i]
      invariant forall j :: 0 <= j < i ==>
                  daily[days[j]] == Revenue(DayListing(charges, dayStartsMs, j))
    {
      var dayRevenue := CurrentMonthRevenue(ListCharges(charges, Seconds(dayStartsMs[i]), Seconds(dayStartsMs[i + 1] - 1)));
      daily := daily[days[i] := dayRevenue];
      assert days[..i + 1] == days[..i] + [days[i]];
    }
    assert days[..|days|] == days;
  }

  /** Time `t` (seconds) falls in day `i`'s window. */
  predicate InDay(dayStartsMs: seq<int>, i: nat, t: int)
    requires i + 1 < |dayStartsMs|
  {
    DayGte(dayStartsMs, i) <= t <= DayLte(dayStartsMs, i)
  }

  /** Day boundaries as moment produces them: whole seconds, increasing. */
  predicate WholeSecondDays(dayStartsMs: seq<int>)
  {
    (forall i :: 0 <= i < |dayStartsMs| ==> dayStartsMs[i] % 1000 == 0) &&
    (forall i, j :: 0 <= i < j < |dayStartsMs| ==> dayStartsMs[i] < dayStartsMs[j])
  }

  /** Some window holds every second from the first day's start to the last
      day's end. */
  lemma {:induction false} DayWindowsCover(dayStartsMs: seq<int>, t: int) returns (i: nat)
    requires |dayStartsMs| >= 2 && WholeSecondDays(dayStartsMs)
    requires Seconds(dayStartsMs[0]) <= t <= Seconds(dayStartsMs[|dayStartsMs| - 1] - 1)
    ensures i + 1 < |dayStartsMs| && InDay(dayStartsMs, i, t)
  {
    var n := |dayStartsMs|;
    if t >= Seconds(dayStartsMs[n - 2]) {
      i := n - 2;
    } else {
      var prefix := dayStartsMs[..n - 1];
      assert Seconds(dayStartsMs[n - 2] - 1) == Seconds(dayStartsMs[n - 2]) - 1;
      assert WholeSecondDays(prefix);
      i := DayWindowsCover(prefix, t);
      assert InDay(prefix, i, t);
    }
  }

  /** Two different day windows share no second: the `lte` of a day is one
      second before the `gte` of the next, and later days start later. */
  lemma DayWindowsDisjoint(dayStartsMs: seq<int>, i: nat, j: nat, t: int)
    requires WholeSecondDays(dayStartsMs) && i < j < |dayStartsMs| - 1
    ensures !(InDay(dayStartsMs, i, t) && InDay(dayStartsMs, j, t))
  {
    assert Seconds(dayStartsMs[i + 1] - 1) == Seconds(dayStartsMs[i + 1]) - 1;
    if i + 1 < j {
      assert dayStartsMs[i + 1] < dayStartsMs[j];
    }
  }

  /** Consecutive day windows are disjoint and contiguous: every second
      from the first day's start to the last day's end lies in exactly one
      window. */
  lemma DayWindowsPartition(dayStartsMs: seq<int>, t: int)
    requires |dayStartsMs| >= 2 && WholeSecondDays(dayStartsMs)
    requires Seconds(dayStartsMs[0]) <= t <= Seconds(dayStartsMs[|dayStartsMs| - 1] - 1)
    ensures exists i :: 0 <= i < |dayStartsMs| - 1 && InDay(dayStartsMs, i, t)
    ensures forall i, j :: 0 <= i < j < |dayStartsMs| - 1 ==> !(InDay(dayStartsMs, i, t) && InDay(dayStartsMs, j, t))
  {
    var w := DayWindowsCover(dayStartsMs, t);
    forall i, j | 0 <= i < j < |dayStartsMs| - 1 ensures !(InDay(dayStartsMs, i, t) && InDay(dayStartsMs, j, t)) {
      DayWindowsDisjoint(dayStartsMs, i, j, t);
    }
  }

  /** The charges `getDailyRevenue` lists for day `i`. */
  function DayListing(charges: seq<Charge>, dayStartsMs: seq<int>, i: nat): (r: seq<Charge>)
    requires i + 1 < |dayStartsMs|
    ensures forall c :: c in r ==> c in charges && InDay(dayStartsMs, i, c.created)
  {
    ListCharges(charges, DayGte(dayStartsMs, i), DayLte(dayStartsMs, i))
  }

  /** No charge is listed for two different days. */
  lemma DayListingsDisjoint(charges: seq<Charge>, dayStartsMs: seq<int>, i: nat, j: nat, c: Charge)
    requires WholeSecondDays(dayStartsMs) && i < j < |dayStartsMs| - 1
    ensures !(c in DayListing(charges, dayStartsMs, i) && c in DayListing(charges, dayStartsMs, j))
  {
    if c in DayListing(charges, dayStartsMs, i) && c in DayListing(charges, dayStartsMs, j) {
      DayWindowsDisjoint(dayStartsMs, i, j, c.created);
    }
  }

  /** No day window holds more than the 100 charges one listing returns. */
  predicate AtMost100PerDay(charges: seq<Charge>, dayStartsMs: seq<int>)
  {
    forall i :: 0 <= i < |dayStartsMs| - 1 ==>
      |CreatedBetween(charges, DayGte(dayStartsMs, i), DayLte(dayStartsMs, i))| <= 100
  }

  /** When no day has more than 100 charges, every charge created between
      the first day's start and the last day's end is listed for exactly one
      day. */
  lemma ChargeListedOnce(charges: seq<Charge>, dayStartsMs: seq<int>, c: Charge)
    requires |dayStartsMs| >= 2 && WholeSecondDays(dayStartsMs) && AtMost100PerDay(charges, dayStartsMs)
    requires c in charges && Seconds(dayStartsMs[0]) <= c.created <= Seconds(dayStartsMs[|dayStartsMs| - 1] - 1)
    ensures exists i :: 0 <= i < |dayStartsMs| - 1 && c in DayListing(charges, dayStartsMs, i)
    ensures forall i, j :: 0 <= i < j < |dayStartsMs| - 1 ==>
              !(c in DayListing(charges, dayStartsMs, i) && c in DayListing(charges, dayStartsMs, j))
  {
    var w := DayWindowsCover(dayStartsMs, c.created);
    assert c in CreatedBetween(charges, DayGte(dayStartsMs, w), DayLte(dayStartsMs, w));
    assert c in DayListing(charges, dayStartsMs, w);
    forall i, j | 0 <= i < j < |dayStartsMs| - 1
      ensures !(c in DayListing(charges, dayStartsMs, i) && c in DayListing(charges, dayStartsMs, j))
    {
      DayListingsDisjoint(charges, dayStartsMs, i, j, c);
    }
  }

  // ---------------------------------------------------------------------
  // getSubscriptionTypeRevenue (route copy)
  // ---------------------------------------------------------------------

  /** `items.data[0]?.plan.interval`. */
  function PlanInterval(s: Subscription): (r: Option<string>)
    ensures r.None? <==> |s.items| == 0
    ensures r.Some? ==> r.value == s.items[0].planInterval
  {
    if |s.items| == 0 then None else Some(s.items[0].planInterval)
  }

  function WithPlanInterval(interval: string): Subscription -> bool
  {
    (s: Subscription) => PlanInterval(s) == Some(interval)
  }

  /** The route's buckets: no subscription is skipped (a missing invoice
      adds 0), and the interval is read from the plan. */
  function RouteRevenueByInterval(subs: seq<Subscription>): TypeRevenue
  {
    TypeRevenue(Totals(Contributions(subs, SubscriptionCurrency, WithPlanInterval("year"), PaidUnits)),
                Totals(Contributions(subs, SubscriptionCurrency, WithPlanInterval("month"), PaidUnits)))
  }

  /** The route's `getSubscriptionTypeRevenue` over the listed
      subscriptions. */
  method GetRouteSubscriptionTypeRevenue(subs: seq<Subscription>) returns (r: TypeRevenue)
    ensures r == RouteRevenueByInterval(subs)
  {
    var annual: map<string, real> := map[];
    var monthly: map<string, real> := map[];
    ghost var isAnnual, isMonthly := WithPlanInterval("year"), WithPlanInterval("month");
    for i := 0 to |subs|
      invariant annual == Totals(Contributions(subs[..i], SubscriptionCurrency, isAnnual, PaidUnits))
      invariant monthly == Totals(Contributions(subs[..i], SubscriptionCurrency, isMonthly, PaidUnits))
    {
      var s := subs[i];
      AccumulateAt(subs, i, SubscriptionCurrency, isAnnual, PaidUnits);
      AccumulateAt(subs, i, SubscriptionCurrency, isMonthly, PaidUnits);
      var amount := PaidAmount(s);
      var currency := Upper(s.currency);
      var interval := PlanInterval(s);
      assert PaidUnits(s) == ConvertToProperUnits(currency, amount as real);
      assert isAnnual(s) == (interval == Some("year"));
      assert isMonthly(s) == (interval == Some("month"));
      if interval == Some("year") {
        annual := AddTo(annual, currency, ConvertToProperUnits(currency, amount as real));
      } else if interval == Some("month") {
        monthly := AddTo(monthly, currency, ConvertToProperUnits(currency, amount as real));
      }
    }
    assert subs[..|subs|] == subs;
    r := TypeRevenue(annual, monthly);
  }

  /** A yearly subscription without an invoice still puts its currency in
      the route's annual bucket, with 0 added; the service skips it. */
  lemma RouteCountsUninvoiced(subs: seq<Subscription>, s: Subscription)
    requires s.latestInvoice.None? && PlanInterval(s) == Some("year")
    ensures RouteRevenueByInterval(subs + [s]).annual ==
            AddTo(RouteRevenueByInterval(subs).annual, SubscriptionCurrency(s), 0.0)
  {
    AccumulateSnoc(subs, s, SubscriptionCurrency, WithPlanInterval("year"), PaidUnits);
    Round2OfCents(0);
    assert PaidUnits(s) == 0.0;
  }

  // ---------------------------------------------------------------------
  // getPendingSubscriptions (route copy)
  // ---------------------------------------------------------------------

  /** The unit amount normalised with the currency code as Stripe reports
      it, before upper-casing. */
  function RawUnitUnits(s: Subscription): real
  {
    ConvertToProperUnits(s.currency, UnitAmount(s) as real)
  }

  /** The route's pending totals: normalised with the raw code, stored
      under the upper-cased one, never rounded afterwards. */
  function RoutePendingTotals(subs: seq<Subscription>): map<string, real>
  {
    Totals(Contributions(subs, SubscriptionCurrency, Always, RawUnitUnits))
  }

  /** The route's `getPendingSubscriptions`: the count is the length of the
      list. */
  method GetRoutePendingSubscriptions(subs: seq<Subscription>) returns (summary: PendingSummary)
    ensures summary.count == |subs|
    ensures summary.totalAmount == RoutePendingTotals(subs)
  {
    var totalAmount := Accumulate(subs, SubscriptionCurrency, Always, RawUnitUnits);
    summary := PendingSummary(|subs|, totalAmount);
  }

  /** A Stripe currency code is lower-case, so the route divides a "jpy"
      unit amount by 100 and files it under "JPY": ¥1000 is reported as 10,
      where the service reports 1000. */
  lemma RoutePendingMisreadsJPY()
    ensures var s := Subscription("sub_1", "jpy", 0, 0, None, [Item(Some(Price(Some(1000), Some("month"))), "month")]);
            RoutePendingTotals([s]) == map["JPY" := 10.0] && PendingTotals([s]) == map["JPY" := 1000.0]
  {
    var s := Subscription("sub_1", "jpy", 0, 0, None, [Item(Some(Price(Some(1000), Some("month"))), "month")]);
    assert [s][..0] == [];
    assert SubscriptionCurrency(s) == "JPY";
    assert UnitAmount(s) == 1000;
    assert "jpy" !in ZeroDecimalCurrencies;
    assert "JPY" in ZeroDecimalCurrencies;
    assert RawUnitUnits(s) == 10.0;
    assert UnitUnits(s) == 1000.0;
    AccumulateSnoc([], s, SubscriptionCurrency, Always, RawUnitUnits);
    AccumulateSnoc([], s, SubscriptionCurrency, Always, UnitUnits);
    assert [] + [s] == [s];
  }

  // ---------------------------------------------------------------------
  // getEstimatedRenewalRevenue (route copy)
  // ---------------------------------------------------------------------

  /** The route's `getEstimatedRenewalRevenue`: the same buckets as the
      service, over the first page only, without rounding. */
  method GetRouteEstimatedRenewalRevenue(page: seq<Subscription>, currentMonthEndMs: int, nextMonthEndMs: int)
    returns (est: RenewalEstimate)
    ensures est == Renewals(page, currentMonthEndMs, nextMonthEndMs)
  {
    est := RenewalEstimate(RenewalBucket(0, map[]), RenewalBucket(0, map[]));
    est := AddRenewals([], page, currentMonthEndMs, nextMonthEndMs, est);
    assert [] + page == page;
  }
}
