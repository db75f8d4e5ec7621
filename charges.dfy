/** The charge aggregator of `src/services/stripe.ts` (`getCurrentMonthRevenue`,
    whose fold `getRevenue` in `src/app/api/get-revenue/route.ts` repeats):
    succeeded, unrefunded charges summed in minor units per upper-cased
    currency, then each sum normalised once. The charge list is the page the
    Stripe API returned; the call itself is not modelled. */
module Charges {
  import opened Money
  import opened Folds
  import opened Currency

  /** The fields of a Stripe charge the aggregator reads; `amount` is in the
      currency's minor unit and `created` in Unix seconds. */
  datatype Charge = Charge(id: string, amount: int, currency: string, status: string, refunded: bool, created: int)

  /** `charge.status === "succeeded" && !charge.refunded`. */
  predicate Qualifies(c: Charge)
  {
    c.status == "succeeded" && !c.refunded
  }

  function ChargeCurrency(c: Charge): string
  {
    Upper(c.currency)
  }

  function ChargeAmount(c: Charge): real
  {
    c.amount as real
  }

  /** The normalisation after the fold: every entry converted to whole
      currency units with the code it is stored under. */
  function Normalise(totals: map<string, real>): (r: map<string, real>)
    ensures r.Keys == totals.Keys
    ensures forall c :: c in r ==> IsCents(r[c])
  {
    map c | c in totals :: ConvertToProperUnits(c, totals[c])
  }

  /** The minor-unit sum of the qualifying charges whose upper-cased
      currency is `k`. */
  function MinorSum(charges: seq<Charge>, k: string): real
  {
    SeqSum(charges, AmountUnder(ChargeCurrency, Qualifies, ChargeAmount, k))
  }

  /** The aggregated revenue: a key for each upper-cased currency of a
      qualifying charge and no other (a currency whose charges all failed or
      were refunded has none), holding that currency's minor-unit sum
      normalised once. */
  function Revenue(charges: seq<Charge>): (r: map<string, real>)
    ensures r.Keys == set c | c in charges && Qualifies(c) :: ChargeCurrency(c)
    ensures forall k :: k in r ==> r[k] == ConvertToProperUnits(k, MinorSum(charges, k))
  {
    ContributionsTotals(charges, ChargeCurrency, Qualifies, ChargeAmount);
    Normalise(Totals(Contributions(charges, ChargeCurrency, Qualifies, ChargeAmount)))
  }

  /** `getCurrentMonthRevenue` (and the route's `getRevenue`) over the listed
      charges. */
  method CurrentMonthRevenue(charges: seq<Charge>) returns (revenue: map<string, real>)
    ensures revenue == Revenue(charges)
  {
    var totals := Accumulate(charges, ChargeCurrency, Qualifies, ChargeAmount);
    revenue := Normalise(totals);
  }

  /** A sum of whole minor units is whole. */
  lemma {:induction false} MinorSumWhole(charges: seq<Charge>, k: string)
    ensures MinorSum(charges, k).Floor as real == MinorSum(charges, k)
  {
    if charges != [] {
      var n := |charges| - 1;
      MinorSumWhole(charges[..n], k);
      var c := charges[n];
      var term := AmountUnder(ChargeCurrency, Qualifies, ChargeAmount, k)(c);
      var whole := (MinorSum(charges[..n], k).Floor + (if Qualifies(c) && ChargeCurrency(c) == k then c.amount else 0)) as real;
      AmountUnderApply(ChargeCurrency, Qualifies, ChargeAmount, k, c);
      assert term == if Qualifies(c) && ChargeCurrency(c) == k then c.amount as real else 0.0;
      assert MinorSum(charges, k) == MinorSum(charges[..n], k) + term;
      assert MinorSum(charges, k) == whole;
    }
  }

  /** Because the sum is taken in whole minor units before normalising, the
      revenue is exact: the sum itself for JPY, KRW and VND, the sum over 100
      for every other currency. */
  lemma RevenueExact(charges: seq<Charge>, k: string)
    requires k in Revenue(charges)
    ensures Revenue(charges)[k] ==
              if k in ZeroDecimalCurrencies then MinorSum(charges, k) else MinorSum(charges, k) / 100.0
  {
    MinorSumWhole(charges, k);
  }

  /** The revenue does not depend on the order of the charge list. */
  lemma RevenueIgnoresOrder(a: seq<Charge>, b: seq<Charge>)
    requires multiset(a) == multiset(b)
    ensures Revenue(a) == Revenue(b)
  {
    assert forall c :: c in a <==> c in b by {
      forall c ensures c in a <==> c in b {
        assert c in a <==> c in multiset(a);
        assert c in b <==> c in multiset(b);
      }
    }
    forall k ensures MinorSum(a, k) == MinorSum(b, k) {
      SeqSumPermutation(a, b, AmountUnder(ChargeCurrency, Qualifies, ChargeAmount, k));
    }
  }

  /** A failed or refunded charge changes nothing. */
  lemma RevenueIgnoresUnqualified(charges: seq<Charge>, c: Charge)
    requires !Qualifies(c)
    ensures Revenue(charges + [c]) == Revenue(charges)
  {
    ContributionsSnoc(charges, c, ChargeCurrency, Qualifies, ChargeAmount);
  }

  /** The two charges of the example below, folded: 500 + 250 minor units
      under "USD". */
  lemma LetterCaseTotals(a: Charge, b: Charge)
    requires a == Charge("ch_1", 500, "usd", "succeeded", false, 0)
    requires b == Charge("ch_2", 250, "USD", "succeeded", false, 0)
    ensures Totals(Contributions([a, b], ChargeCurrency, Qualifies, ChargeAmount)) == map["USD" := 750.0]
  {
    assert ChargeCurrency(a) == "USD" && ChargeCurrency(b) == "USD";
    AccumulateSnoc([], a, ChargeCurrency, Qualifies, ChargeAmount);
    AccumulateSnoc([a], b, ChargeCurrency, Qualifies, ChargeAmount);
    assert [] + [a] == [a] && [a] + [b] == [a, b];
  }

  /** Currency codes are upper-cased before they are used as keys, so "usd"
      and "USD" charges accumulate under one "USD" entry. */
  lemma RevenueMergesLetterCase()
    ensures Revenue([Charge("ch_1", 500, "usd", "succeeded", false, 0),
                     Charge("ch_2", 250, "USD", "succeeded", false, 0)]) == map["USD" := 7.5]
  {
    var a := Charge("ch_1", 500, "usd", "succeeded", false, 0);
    var b := Charge("ch_2", 250, "USD", "succeeded", false, 0);
    assert Normalise(map["USD" := 750.0]) == map["USD" := 7.5] by {
      assert "USD" !in ZeroDecimalCurrencies;
      assert ConvertToProperUnits("USD", 750.0) == 7.5;
    }
    LetterCaseTotals(a, b);
  }
}
