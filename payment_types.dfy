/** The payment-type registry of `src/config/paymentTypes.ts`: a fixed,
    ordered table of payment cadences, a first-match lookup by Stripe's
    subscription interval, and the list of subscription ids. */
module PaymentTypes {
  import opened Options

  /** One entry of the registry. `interval` is the Stripe recurring
      interval; the one-time entry has none. */
  datatype PaymentType = PaymentType(id: string, name: string, description: string, interval: Option<string>)

  /** `PAYMENT_TYPES`, in table order. */
  const PaymentTypeTable: seq<PaymentType> := [
    PaymentType("oneTime", "One-Time Payment", "Single payment transactions", None),
    PaymentType("monthly", "Monthly Subscription", "Monthly recurring payments", Some("month")),
    PaymentType("quarterly", "Quarterly Subscription", "Quarterly recurring payments", Some("3-month")),
    PaymentType("semiannual", "Semi-Annual Subscription", "6-month recurring payments", Some("6-month")),
    PaymentType("annual", "Annual Subscription", "Annual recurring payments", Some("year"))
  ]

  /** `DEFAULT_PAYMENT_TYPE`. */
  const DefaultPaymentType: string := "oneTime"

  /** `types.find(type => type.interval === interval)`: the first entry whose
      interval is `interval`, or nothing when no entry has it. */
  function FindByInterval(types: seq<PaymentType>, interval: string): (r: Option<PaymentType>)
    ensures r.None? <==> forall i :: 0 <= i < |types| ==> types[i].interval != Some(interval)
    ensures r.Some? ==>
              exists i :: 0 <= i < |types| && types[i] == r.value && r.value.interval == Some(interval) &&
                          forall j :: 0 <= j < i ==> types[j].interval != Some(interval)
  {
    if types == [] then None
    else if types[0].interval == Some(interval) then Some(types[0])
    else
      var r := FindByInterval(types[1..], interval);
      assert r.Some? ==>
               exists i :: 0 <= i < |types| && types[i] == r.value && r.value.interval == Some(interval) &&
                           forall j :: 0 <= j < i ==> types[j].interval != Some(interval) by {
        if r.Some? {
          var i :| 0 <= i < |types[1..]| && types[1..][i] == r.value && r.value.interval == Some(interval) &&
                   forall j :: 0 <= j < i ==> types[1..][j].interval != Some(interval);
          assert types[i + 1] == r.value;
          forall j | 0 <= j < i + 1 ensures types[j].interval != Some(interval) {
            if j > 0 { assert types[j] == types[1..][j - 1]; }
          }
        }
      }
      r
  }

  /** `!interval`: JavaScript treats an absent interval and the empty string
      alike. */
  predicate Falsy(interval: Option<string>)
  {
    interval.None? || interval.value == ""
  }

  /** `getPaymentTypeByInterval`: the one-time entry for an absent or empty
      interval, otherwise the first table entry with that interval, and
      nothing (`undefined`) when there is none. */
  function GetPaymentTypeByInterval(interval: Option<string>): (r: Option<PaymentType>)
    ensures Falsy(interval) ==> r == Some(PaymentTypeTable[0])
    ensures !Falsy(interval) ==> r == FindByInterval(PaymentTypeTable, interval.value)
  {
    if Falsy(interval) then Some(PaymentTypeTable[0])
    else FindByInterval(PaymentTypeTable, interval.value)
  }

  /** An absent or empty interval gives the one-time entry. */
  lemma NoIntervalIsOneTime()
    ensures GetPaymentTypeByInterval(None).value.id == "oneTime"
    ensures GetPaymentTypeByInterval(Some("")).value.id == "oneTime"
  {
  }

  /** The entry at `i` is the first with its interval, so looking that
      interval up finds it. */
  lemma LookupFindsEntry(i: nat)
    requires 0 < i < |PaymentTypeTable|
    ensures GetPaymentTypeByInterval(PaymentTypeTable[i].interval) == Some(PaymentTypeTable[i])
  {
    var interval := PaymentTypeTable[i].interval;
    var r := FindByInterval(PaymentTypeTable, interval.value);
    assert r.Some?;
    var k :| 0 <= k < |PaymentTypeTable| && PaymentTypeTable[k] == r.value && r.value.interval == interval &&
             forall j :: 0 <= j < k ==> PaymentTypeTable[j].interval != interval;
  }

  /** The intervals the table knows each give their own cadence. */
  lemma KnownIntervals()
    ensures GetPaymentTypeByInterval(Some("month")) == Some(PaymentTypeTable[1]) && PaymentTypeTable[1].id == "monthly"
    ensures GetPaymentTypeByInterval(Some("3-month")) == Some(PaymentTypeTable[2]) && PaymentTypeTable[2].id == "quarterly"
    ensures GetPaymentTypeByInterval(Some("6-month")) == Some(PaymentTypeTable[3]) && PaymentTypeTable[3].id == "semiannual"
    ensures GetPaymentTypeByInterval(Some("year")) == Some(PaymentTypeTable[4]) && PaymentTypeTable[4].id == "annual"
  {
    LookupFindsEntry(1);
    LookupFindsEntry(2);
    LookupFindsEntry(3);
    LookupFindsEntry(4);
  }

  /** Any other non-empty interval ("week", "2-month", ...) finds nothing: it
      does not fall back to the one-time entry. */
  lemma UnknownInterval(interval: string)
    requires interval !in {"", "month", "3-month", "6-month", "year"}
    ensures GetPaymentTypeByInterval(Some(interval)).None?
  {
    var r := GetPaymentTypeByInterval(Some(interval));
    assert forall i :: 0 <= i < |PaymentTypeTable| ==> PaymentTypeTable[i].interval != Some(interval);
  }

  /** The ids of the entries with a (truthy) interval, in table order:
      `types.filter(type => type.interval).map(type => type.id)`. */
  function IdsWithInterval(types: seq<PaymentType>): (ids: seq<string>)
    ensures |ids| <= |types|
  {
    if types == [] then []
    else if Falsy(types[0].interval) then IdsWithInterval(types[1..])
    else [types[0].id] + IdsWithInterval(types[1..])
  }

  /** An id is returned exactly when some entry with a truthy interval has
      it. */
  lemma {:induction false} IdsWithIntervalMembers(types: seq<PaymentType>)
    ensures forall i :: 0 <= i < |types| && !Falsy(types[i].interval) ==> types[i].id in IdsWithInterval(types)
    ensures forall id :: id in IdsWithInterval(types) ==>
              exists i :: 0 <= i < |types| && types[i].id == id && !Falsy(types[i].interval)
  {
    if types != [] {
      IdsWithIntervalMembers(types[1..]);
      assert forall i :: 0 < i < |types| ==> types[i] == types[1..][i - 1];
    }
  }

  /** `getSubscriptionTypeIds`. */
  function SubscriptionTypeIds(): (ids: seq<string>)
    ensures "oneTime" !in ids
  {
    IdsWithIntervalMembers(PaymentTypeTable);
    IdsWithInterval(PaymentTypeTable)
  }

  /** The subscription ids are the four recurring cadences, in table order. */
  lemma SubscriptionTypeIdsValue()
    ensures SubscriptionTypeIds() == ["monthly", "quarterly", "semiannual", "annual"]
  {
    var t := PaymentTypeTable;
    assert IdsWithInterval(t[5..]) == [];
    assert IdsWithInterval(t[4..]) == ["annual"] by { assert t[4..][1..] == t[5..]; }
    assert IdsWithInterval(t[3..]) == ["semiannual", "annual"] by { assert t[3..][1..] == t[4..]; }
    assert IdsWithInterval(t[2..]) == ["quarterly", "semiannual", "annual"] by { assert t[2..][1..] == t[3..]; }
    assert IdsWithInterval(t[1..]) == ["monthly", "quarterly", "semiannual", "annual"] by { assert t[1..][1..] == t[2..]; }
  }

  /** The default payment type is the first entry, the table's ids are
      pairwise distinct, and so are its intervals. */
  lemma TableWellFormed()
    ensures DefaultPaymentType == PaymentTypeTable[0].id
    ensures forall i, j :: 0 <= i < j < |PaymentTypeTable| ==> PaymentTypeTable[i].id != PaymentTypeTable[j].id
    ensures forall i, j :: 0 <= i < j < |PaymentTypeTable| && PaymentTypeTable[i].interval.Some? ==>
              PaymentTypeTable[i].interval != PaymentTypeTable[j].interval
  {
  }
}
