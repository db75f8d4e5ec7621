/** The currency helpers of `src/utils/currency.ts`: minor-unit normalisation,
    conversion through a USD-relative rate table, and the record-level
    conversions built on them. The exchange-rate table is a parameter (its
    HTTP fetch is not modelled). */
module Currency {
  import opened Money
  import opened Folds

  /** The currencies the code treats as having no minor unit: their Stripe
      amounts are already whole units (ISO 4217 minor unit 0). */
  const ZeroDecimalCurrencies: seq<string> := ["JPY", "KRW", "VND"]

  /** `convertToProperUnits`: a Stripe minor-unit amount in whole currency
      units, rounded to two places. The zero-decimal test is an exact,
      case-sensitive match, so "jpy" is divided by 100. For a whole
      amount, which is what Stripe reports, the rounding changes nothing. */
  function ConvertToProperUnits(currency: string, amount: real): (r: real)
    ensures IsCents(r)
    ensures currency in ZeroDecimalCurrencies ==> -0.005 <= r - amount <= 0.005
    ensures currency !in ZeroDecimalCurrencies ==> -0.005 <= r - amount / 100.0 <= 0.005
    ensures amount.Floor as real == amount ==>
              r == if currency in ZeroDecimalCurrencies then amount else amount / 100.0
  {
    var converted := if currency in ZeroDecimalCurrencies then amount else amount / 100.0;
    assert amount.Floor as real == amount ==> Round2(converted) == converted by {
      if amount.Floor as real == amount {
        var n := amount.Floor;
        if currency in ZeroDecimalCurrencies {
          assert converted == (100 * n) as real / 100.0;
          Round2OfCents(100 * n);
        } else {
          Round2OfCents(n);
        }
      }
    }
    Round2(converted)
  }

  /** `convertCurrency`: the identity when the two currencies are equal, and
      also (a lenient fallback) when either rate is missing or zero, which
      the source's falsy test treats alike; otherwise the amount goes through
      USD and is rounded to two places. */
  function ConvertCurrency(amount: real, fromCurrency: string, toCurrency: string,
                           rates: map<string, real>): (r: real)
    ensures fromCurrency == toCurrency ==> r == amount
    ensures Get(rates, fromCurrency) == 0.0 || Get(rates, toCurrency) == 0.0 ==> r == amount
    ensures fromCurrency != toCurrency && Get(rates, fromCurrency) != 0.0 && Get(rates, toCurrency) != 0.0 ==>
              IsCents(r) &&
              -0.005 <= r - amount / rates[fromCurrency] * rates[toCurrency] <= 0.005
  {
    if fromCurrency == toCurrency then amount
    else if Get(rates, fromCurrency) == 0.0 || Get(rates, toCurrency) == 0.0 then amount
    else
      var amountInUSD := amount / rates[fromCurrency];
      Round2(amountInUSD * rates[toCurrency])
  }

  /** The terms `convertRevenue` adds up: every entry of `revenue`,
      converted into `targetCurrency`. */
  function ConvertedTerms(revenue: map<string, real>, targetCurrency: string,
                          rates: map<string, real>): map<string, real>
  {
    map c | c in revenue :: ConvertCurrency(revenue[c], c, targetCurrency, rates)
  }

  /** `convertRevenue`: a record whose only key is `targetCurrency`, holding
      the sum of every entry converted into it (0 for an empty record). */
  method ConvertRevenue(revenue: map<string, real>, targetCurrency: string,
                        rates: map<string, real>) returns (result: map<string, real>)
    ensures result.Keys == {targetCurrency}
    ensures result[targetCurrency] == MapSum(ConvertedTerms(revenue, targetCurrency, rates))
  {
    var total := 0.0;
    var todo := revenue.Keys;
    ghost var seen: map<string, real> := map[];
    while todo != {}
      invariant todo <= revenue.Keys
      invariant seen == map c | c in revenue.Keys - todo :: ConvertCurrency(revenue[c], c, targetCurrency, rates)
      invariant total == MapSum(seen)
      decreases todo
    {
      var c :| c in todo;
      var term := ConvertCurrency(revenue[c], c, targetCurrency, rates);
      MapSumAdd(seen, c, term);
      total := total + term;
      seen := seen[c := term];
      todo := todo - {c};
    }
    assert seen == ConvertedTerms(revenue, targetCurrency, rates);
    result := map[targetCurrency := total];
  }

  /** With an empty rate table (the fallback when fetching rates fails)
      nothing is converted: the amounts of all currencies are added as they
      stand. */
  lemma ConvertRevenueWithoutRates(revenue: map<string, real>, targetCurrency: string)
    ensures ConvertedTerms(revenue, targetCurrency, map[]) == revenue
  {
  }

  /** A record already in the target currency converts to itself, whatever
      the rates. */
  lemma ConvertRevenueOfTarget(amount: real, targetCurrency: string, rates: map<string, real>)
    ensures MapSum(ConvertedTerms(map[targetCurrency := amount], targetCurrency, rates)) == amount
  {
    var terms := ConvertedTerms(map[targetCurrency := amount], targetCurrency, rates);
    assert terms == map[targetCurrency := amount];
    MapSumAdd(map[], targetCurrency, amount);
    assert map[][targetCurrency := amount] == map[targetCurrency := amount];
  }

  /** `if (!total[c]) total[c] = 0; total[c] += amount` for every entry of
      `current`. */
  function MergeInto(total: map<string, real>, current: map<string, real>): (merged: map<string, real>)
    ensures merged.Keys == total.Keys + current.Keys
    ensures forall c :: Get(merged, c) == Get(total, c) + Get(current, c)
  {
    map c | c in total.Keys + current.Keys :: Get(total, c) + Get(current, c)
  }

  /** The amount a record holds for currency `c`, as a function of the
      record. */
  function AmountOf(c: string): map<string, real> -> real
  {
    m => Get(m, c)
  }

  /** The merge step of `mergeAndConvertRevenues`: its currencies are those
      of any input, and each currency holds that currency's sum over all
      inputs. */
  function Merged(revenues: seq<map<string, real>>): (r: map<string, real>)
    ensures forall c :: c in r <==> exists i :: 0 <= i < |revenues| && c in revenues[i]
    ensures forall c :: Get(r, c) == SeqSum(revenues, AmountOf(c))
  {
    if revenues == [] then map[]
    else
      var n := |revenues| - 1;
      var prev := Merged(revenues[..n]);
      assert forall c :: (exists i :: 0 <= i < |revenues| && c in revenues[i]) <==>
                         (exists i :: 0 <= i < n && c in revenues[..n][i]) || c in revenues[n] by {
        forall c | exists i :: 0 <= i < |revenues| && c in revenues[i]
          ensures (exists i :: 0 <= i < n && c in revenues[..n][i]) || c in revenues[n]
        {
          var i :| 0 <= i < |revenues| && c in revenues[i];
          if i < n { assert revenues[..n][i] == revenues[i]; }
        }
      }
      MergeInto(prev, revenues[n])
  }

  /** The merged record does not depend on the order of the inputs. */
  lemma MergedPermutation(a: seq<map<string, real>>, b: seq<map<string, real>>)
    requires multiset(a) == multiset(b)
    ensures Merged(a) == Merged(b)
  {
    forall c ensures c in Merged(a) <==> c in Merged(b) {
      if c in Merged(a) {
        var i :| 0 <= i < |a| && c in a[i];
        assert a[i] in multiset(b);
        var j :| 0 <= j < |b| && b[j] == a[i];
      }
      if c in Merged(b) {
        var j :| 0 <= j < |b| && c in b[j];
        assert b[j] in multiset(a);
        var i :| 0 <= i < |a| && a[i] == b[j];
      }
    }
    forall c | c in Merged(a) ensures Merged(a)[c] == Merged(b)[c] {
      SeqSumPermutation(a, b, AmountOf(c));
    }
  }

  /** One step of the merge's `reduce`: every entry of `current` added into
      `total`. */
  method MergeStep(total: map<string, real>, current: map<string, real>)
    returns (merged: map<string, real>)
    ensures merged == MergeInto(total, current)
  {
    merged := total;
    var todo := current.Keys;
    while todo != {}
      invariant todo <= current.Keys
      invariant merged.Keys == total.Keys + (current.Keys - todo)
      invariant forall c :: Get(merged, c) == Get(total, c) + (if c in todo then 0.0 else Get(current, c))
      decreases todo
    {
      var c :| c in todo;
      if c !in merged {
        merged := merged[c := 0.0];
      }
      merged := merged[c := merged[c] + current[c]];
      todo := todo - {c};
    }
  }

  /** `mergeAndConvertRevenues`: the inputs merged per currency, then
      converted into one currency. */
  method MergeAndConvertRevenues(revenues: seq<map<string, real>>, targetCurrency: string,
                                 rates: map<string, real>) returns (result: map<string, real>)
    ensures result.Keys == {targetCurrency}
    ensures result[targetCurrency] == MapSum(ConvertedTerms(Merged(revenues), targetCurrency, rates))
  {
    var total: map<string, real> := map[];
    for i := 0 to |revenues|
      invariant total == Merged(revenues[..i])
    {
      assert revenues[..i + 1][..i] == revenues[..i];
      total := MergeStep(total, revenues[i]);
    }
    assert revenues[..|revenues|] == revenues;
    result := ConvertRevenue(total, targetCurrency, rates);
  }

  /** The currencies `convertTotalRevenue` quotes every amount in. */
  const TargetCurrencies: seq<string> := ["USD", "CNY", "HKD"]

  /** `amount` in `target`, at the rate `rates[target] / rates[source]`, rounded
      to two places; NaN or an infinity when a rate is missing or the source
      rate is zero. */
  function Quote(amount: real, source: string, target: string, rates: map<string, real>): (q: Num)
    ensures q.Finite? <==> target in rates && source in rates && rates[source] != 0.0
    ensures q.Finite? ==>
              (IsCents(q.value) && -0.005 <= q.value - amount * (rates[target] / rates[source]) <= 0.005)
  {
    RoundNum(Scale(amount, Ratio(rates, target, source)))
  }

  /** `converted[source]` after the inner `forEach` has visited `targets`. */
  function RowOver(source: string, amount: real, rates: map<string, real>, targets: seq<string>): (row: map<string, Num>)
    ensures row.Keys == {source} + set t | t in targets
    ensures row[source] == Finite(amount)
    ensures forall t :: t in targets && t != source ==> row[t] == Quote(amount, source, t, rates)
  {
    if targets == [] then map[source := Finite(amount)]
    else
      var t := targets[|targets| - 1];
      var row := RowOver(source, amount, rates, targets[..|targets| - 1]);
      if source != t then row[t := Quote(amount, source, t, rates)] else row
  }

  /** One row of `convertTotalRevenue`: the amount itself under its own
      currency, and a quote in each of USD, CNY and HKD other than it. */
  function ConvertedRow(source: string, amount: real, rates: map<string, real>): (row: map<string, Num>)
    ensures row.Keys == {source, "USD", "CNY", "HKD"}
    ensures row[source] == Finite(amount)
    ensures forall t :: t in TargetCurrencies && t != source ==> row[t] == Quote(amount, source, t, rates)
  {
    assert (set t | t in TargetCurrencies) == {"USD", "CNY", "HKD"};
    RowOver(source, amount, rates, TargetCurrencies)
  }

  /** One step of the inner `forEach`: the next target is quoted unless it
      is the source currency. */
  lemma RowOverSnoc(source: string, amount: real, rates: map<string, real>, targets: seq<string>, t: string)
    ensures var row := RowOver(source, amount, rates, targets);
            RowOver(source, amount, rates, targets + [t]) ==
            if source != t then row[t := Quote(amount, source, t, rates)] else row
  {
    assert (targets + [t])[..|targets|] == targets;
  }

  /** The inner `forEach` of `convertTotalRevenue`: the amount under its own
      currency, then a quote in each target currency other than it. */
  method ConvertRow(source: string, amount: real, rates: map<string, real>)
    returns (row: map<string, Num>)
    ensures row == ConvertedRow(source, amount, rates)
  {
    row := map[source := Finite(amount)];
    for j := 0 to |TargetCurrencies|
      invariant row == RowOver(source, amount, rates, TargetCurrencies[..j])
    {
      var target := TargetCurrencies[j];
      assert TargetCurrencies[..j + 1] == TargetCurrencies[..j] + [target];
      RowOverSnoc(source, amount, rates, TargetCurrencies[..j], target);
      if source != target {
        row := row[target := Quote(amount, source, target, rates)];
      }
    }
    assert TargetCurrencies[..|TargetCurrencies|] == TargetCurrencies;
  }

  /** `convertTotalRevenue`: one row per currency of the input. */
  method ConvertTotalRevenue(totalRevenue: map<string, real>, rates: map<string, real>)
    returns (converted: map<string, map<string, Num>>)
    ensures converted.Keys == totalRevenue.Keys
    ensures forall s :: s in converted ==> converted[s] == ConvertedRow(s, totalRevenue[s], rates)
  {
    converted := map[];
    var todo := totalRevenue.Keys;
    while todo != {}
      invariant todo <= totalRevenue.Keys
      invariant converted.Keys == totalRevenue.Keys - todo
      invariant forall s :: s in converted ==> converted[s] == ConvertedRow(s, totalRevenue[s], rates)
      decreases todo
    {
      var source :| source in todo;
      var row := ConvertRow(source, totalRevenue[source], rates);
      converted := converted[source := row];
      todo := todo - {source};
    }
  }

  /** What one payout currency adds to `totalCNY`: a CNY amount as it is, any
      other amount scaled by `rates.CNY / rates[currency]`. */
  function CNYTerm(currency: string, amount: real, rates: map<string, real>): (t: Num)
    ensures currency == "CNY" ==> t == Finite(amount)
    ensures currency != "CNY" ==>
              (t.Finite? <==> "CNY" in rates && currency in rates && rates[currency] != 0.0)
    ensures currency != "CNY" && t.Finite? ==> t.value * rates[currency] == amount * rates["CNY"]
  {
    if currency == "CNY" then Finite(amount) else Scale(amount, Ratio(rates, "CNY", currency))
  }

  /** The value of a finite number; 0 stands in for NaN and the
      infinities. */
  function Value(x: Num): real
  {
    if x.Finite? then x.value else 0.0
  }

  /** Every payout currency converts to a finite CNY amount. */
  ghost predicate AllConvertible(totalPayouts: map<string, real>, rates: map<string, real>)
  {
    forall c :: c in totalPayouts ==> CNYTerm(c, totalPayouts[c], rates).Finite?
  }

  /** The CNY value of each payout currency, when all are finite. */
  ghost function CNYTerms(totalPayouts: map<string, real>, rates: map<string, real>): map<string, real>
    requires AllConvertible(totalPayouts, rates)
  {
    map c | c in totalPayouts :: CNYTerm(c, totalPayouts[c], rates).value
  }

  /** `convertTotalPayoutsToCNY`: the sum of the CNY values rounded to two
      places, or NaN/Infinity as soon as one currency has no usable rate. */
  method ConvertTotalPayoutsToCNY(totalPayouts: map<string, real>, rates: map<string, real>)
    returns (totalCNY: Num)
    ensures totalCNY.Finite? <==> AllConvertible(totalPayouts, rates)
    ensures totalCNY.Finite? ==>
              totalCNY.value == Round2(MapSum(CNYTerms(totalPayouts, rates)))
  {
    var total := Finite(0.0);
    var todo := totalPayouts.Keys;
    ghost var seen: map<string, real> := map[];
    while todo != {}
      invariant todo <= totalPayouts.Keys
      invariant seen.Keys == totalPayouts.Keys - todo
      invariant forall c :: c in seen ==> seen[c] == Value(CNYTerm(c, totalPayouts[c], rates))
      invariant total.Finite? <==> forall c :: c in seen ==> CNYTerm(c, totalPayouts[c], rates).Finite?
      invariant total.Finite? ==> total.value == MapSum(seen)
      decreases todo
    {
      var c :| c in todo;
      var term := CNYTerm(c, totalPayouts[c], rates);
      MapSumAdd(seen, c, Value(term));
      seen := seen[c := Value(term)];
      total := Plus(total, term);
      todo := todo - {c};
    }
    if total.Finite? {
      assert seen == CNYTerms(totalPayouts, rates);
    }
    totalCNY := RoundNum(total);
  }

  /** No payouts: the total is 0. */
  lemma NoPayoutsIsZero(rates: map<string, real>)
    ensures AllConvertible(map[], rates)
    ensures MapSum(CNYTerms(map[], rates)) == 0.0
    ensures Round2(MapSum(CNYTerms(map[], rates))) == 0.0
  {
    assert CNYTerms(map[], rates) == map[];
  }

  /** Without a CNY rate (for instance after the rate fetch failed), any
      payout in another currency makes the total NaN. */
  lemma PayoutsWithoutCNYRate(totalPayouts: map<string, real>, rates: map<string, real>, c: string)
    requires "CNY" !in rates
    requires c in totalPayouts && c != "CNY"
    ensures !AllConvertible(totalPayouts, rates)
  {
    assert !CNYTerm(c, totalPayouts[c], rates).Finite?;
  }
}
