/** The shapes every aggregator in the revenue code shares: a
    `Record<string, number>` accumulated with `m[k] = (m[k] || 0) + v`, a sum
    over a list, and a sum over the entries of a record. */
module Folds {

  /** `m[k] || 0`: the amount under `k`, or 0 when there is none. */
  function Get(m: map<string, real>, k: string): real
  {
    if k in m then m[k] else 0.0
  }

  /** `m[k] = (m[k] || 0) + v`. */
  function AddTo(m: map<string, real>, k: string, v: real): map<string, real>
  {
    m[k := Get(m, k) + v]
  }

  /** The amounts of `cs` filed under key `k`, summed in list order. */
  function KeySum(cs: seq<(string, real)>, k: string): real
  {
    if cs == [] then 0.0
    else
      var p := cs[|cs| - 1];
      KeySum(cs[..|cs| - 1], k) + (if p.0 == k then p.1 else 0.0)
  }

  /** The record a `forEach` builds by adding each `(key, amount)` pair of
      `cs` in turn. Its keys are exactly the keys that occur in `cs`, and each
      key holds the sum of that key's amounts. */
  function Totals(cs: seq<(string, real)>): (r: map<string, real>)
    ensures r.Keys == set p | p in cs :: p.0
    ensures forall k :: Get(r, k) == KeySum(cs, k)
  {
    if cs == [] then map[]
    else
      var p := cs[|cs| - 1];
      var prev := cs[..|cs| - 1];
      assert cs == prev + [p];
      AddTo(Totals(prev), p.0, p.1)
  }

  /** One step of a `forEach`: adding a pair to the record is adding it to
      the list the record totals. */
  lemma TotalsSnoc(cs: seq<(string, real)>, p: (string, real))
    ensures Totals(cs + [p]) == AddTo(Totals(cs), p.0, p.1)
  {
    assert (cs + [p])[..|cs|] == cs;
  }

  /** The `(key, amount)` pairs a `forEach` over `xs` adds to a record: one
      pair for each element that `keep` accepts, in list order. */
  function Contributions<T>(xs: seq<T>, key: T -> string, keep: T -> bool, amount: T -> real)
    : (cs: seq<(string, real)>)
    ensures |cs| <= |xs|
  {
    if xs == [] then []
    else
      var x := xs[|xs| - 1];
      Contributions(xs[..|xs| - 1], key, keep, amount) + (if keep(x) then [(key(x), amount(x))] else [])
  }

  lemma ContributionsSnoc<T>(xs: seq<T>, x: T, key: T -> string, keep: T -> bool, amount: T -> real)
    ensures Contributions(xs + [x], key, keep, amount) ==
            Contributions(xs, key, keep, amount) + (if keep(x) then [(key(x), amount(x))] else [])
  {
    assert (xs + [x])[..|xs|] == xs;
  }

  /** One step of a filtered `forEach`: a kept element is added to the
      record, any other leaves it as it was. */
  lemma AccumulateSnoc<T>(xs: seq<T>, x: T, key: T -> string, keep: T -> bool, amount: T -> real)
    ensures Totals(Contributions(xs + [x], key, keep, amount)) ==
            if keep(x) then AddTo(Totals(Contributions(xs, key, keep, amount)), key(x), amount(x))
            else Totals(Contributions(xs, key, keep, amount))
  {
    ContributionsSnoc(xs, x, key, keep, amount);
    if keep(x) {
      TotalsSnoc(Contributions(xs, key, keep, amount), (key(x), amount(x)));
    } else {
      assert Contributions(xs, key, keep, amount) + [] == Contributions(xs, key, keep, amount);
    }
  }

  /** The step of a `forEach` loop at index `i`. */
  lemma AccumulateAt<T>(xs: seq<T>, i: nat, key: T -> string, keep: T -> bool, amount: T -> real)
    requires i < |xs|
    ensures Totals(Contributions(xs[..i + 1], key, keep, amount)) ==
            if keep(xs[i]) then AddTo(Totals(Contributions(xs[..i], key, keep, amount)), key(xs[i]), amount(xs[i]))
            else Totals(Contributions(xs[..i], key, keep, amount))
  {
    assert xs[..i + 1] == xs[..i] + [xs[i]];
    AccumulateSnoc(xs[..i], xs[i], key, keep, amount);
  }

  /** One step of a count. */
  lemma CountSnoc<T>(xs: seq<T>, x: T, keep: T -> bool)
    ensures Count(xs + [x], keep) == Count(xs, keep) + if keep(x) then 1 else 0
  {
    assert (xs + [x])[..|xs|] == xs;
  }

  /** The filter of a `forEach` that adds every element. */
  function Always<T>(x: T): bool
  {
    true
  }

  /** `xs.forEach(x => { if (keep(x)) m[key(x)] = (m[key(x)] || 0) + amount(x); })`
      on a fresh record `m`. */
  method Accumulate<T>(xs: seq<T>, key: T -> string, keep: T -> bool, amount: T -> real)
    returns (totals: map<string, real>)
    ensures totals == Totals(Contributions(xs, key, keep, amount))
  {
    totals := map[];
    for i := 0 to |xs|
      invariant totals == Totals(Contributions(xs[..i], key, keep, amount))
    {
      var x := xs[i];
      AccumulateAt(xs, i, key, keep, amount);
      if keep(x) {
        totals := AddTo(totals, key(x), amount(x));
      }
    }
    assert xs[..|xs|] == xs;
  }

  /** What element `x` adds under key `k`: its amount when it is kept and
      filed under `k`, and nothing otherwise. */
  function AmountUnder<T>(key: T -> string, keep: T -> bool, amount: T -> real, k: string): T -> real
  {
    x => if keep(x) && key(x) == k then amount(x) else 0.0
  }

  lemma AmountUnderApply<T>(key: T -> string, keep: T -> bool, amount: T -> real, k: string, x: T)
    ensures AmountUnder(key, keep, amount, k)(x) == if keep(x) && key(x) == k then amount(x) else 0.0
  {
  }

  lemma KeySumSnoc(cs: seq<(string, real)>, p: (string, real), k: string)
    ensures KeySum(cs + [p], k) == KeySum(cs, k) + (if p.0 == k then p.1 else 0.0)
  {
    assert (cs + [p])[..|cs|] == cs;
  }

  /** The keys of the pairs are the keys of the kept elements. */
  lemma {:induction false} ContributionsKeys<T>(xs: seq<T>, key: T -> string, keep: T -> bool, amount: T -> real)
    ensures (set p | p in Contributions(xs, key, keep, amount) :: p.0) == set x | x in xs && keep(x) :: key(x)
  {
    if xs != [] {
      var n := |xs| - 1;
      var x := xs[n];
      ContributionsKeys(xs[..n], key, keep, amount);
      assert xs == xs[..n] + [x];
      var cs := Contributions(xs[..n], key, keep, amount);
      var all := Contributions(xs, key, keep, amount);
      var before := set y | y in xs[..n] && keep(y) :: key(y);
      var after := set y | y in xs && keep(y) :: key(y);
      assert after == before + (if keep(x) then {key(x)} else {});
      assert all == cs + (if keep(x) then [(key(x), amount(x))] else []);
    }
  }

  /** The record built from `xs` has one key per kept element's key and no
      other, and each key holds the sum over the kept elements filed under
      it. */
  lemma {:induction false} ContributionsTotals<T>(xs: seq<T>, key: T -> string, keep: T -> bool, amount: T -> real)
    ensures Totals(Contributions(xs, key, keep, amount)).Keys == set x | x in xs && keep(x) :: key(x)
    ensures forall k :: Get(Totals(Contributions(xs, key, keep, amount)), k) == SeqSum(xs, AmountUnder(key, keep, amount, k))
  {
    ContributionsKeys(xs, key, keep, amount);
    forall k ensures KeySum(Contributions(xs, key, keep, amount), k) == SeqSum(xs, AmountUnder(key, keep, amount, k)) {
      ContributionsKeySum(xs, key, keep, amount, k);
    }
  }

  lemma {:induction false} ContributionsKeySum<T>(xs: seq<T>, key: T -> string, keep: T -> bool, amount: T -> real, k: string)
    ensures KeySum(Contributions(xs, key, keep, amount), k) == SeqSum(xs, AmountUnder(key, keep, amount, k))
  {
    if xs != [] {
      var n := |xs| - 1;
      var x := xs[n];
      ContributionsKeySum(xs[..n], key, keep, amount, k);
      var cs := Contributions(xs[..n], key, keep, amount);
      assert AmountUnder(key, keep, amount, k)(x) == if keep(x) && key(x) == k then amount(x) else 0.0;
      if keep(x) {
        KeySumSnoc(cs, (key(x), amount(x)), k);
      } else {
        assert Contributions(xs, key, keep, amount) == cs;
      }
    }
  }

  /** The number of elements of `xs` that `keep` accepts. */
  function Count<T>(xs: seq<T>, keep: T -> bool): nat
  {
    if xs == [] then 0 else Count(xs[..|xs| - 1], keep) + (if keep(xs[|xs| - 1]) then 1 else 0)
  }

  /** One entry per kept element. */
  lemma {:induction false} ContributionsCount<T>(xs: seq<T>, key: T -> string, keep: T -> bool, amount: T -> real)
    ensures |Contributions(xs, key, keep, amount)| == Count(xs, keep)
  {
    if xs != [] {
      ContributionsCount(xs[..|xs| - 1], key, keep, amount);
    }
  }

  /** `left` and `right` never both accept `x`, and together accept it
      exactly when `keep` does. */
  predicate SplitsAt<T>(keep: T -> bool, left: T -> bool, right: T -> bool, x: T)
  {
    (keep(x) <==> left(x) || right(x)) && !(left(x) && right(x))
  }

  /** Two filters that split `keep` on every element split `keep`'s
      contributions: per key the two sums add up to the whole. */
  lemma {:induction false} ContributionsSplit<T>(xs: seq<T>, key: T -> string, keep: T -> bool,
                                                 left: T -> bool, right: T -> bool, amount: T -> real, k: string)
    requires forall i :: 0 <= i < |xs| ==> SplitsAt(keep, left, right, xs[i])
    ensures KeySum(Contributions(xs, key, left, amount), k) + KeySum(Contributions(xs, key, right, amount), k)
            == KeySum(Contributions(xs, key, keep, amount), k)
  {
    if xs != [] {
      var n := |xs| - 1;
      var x := xs[n];
      var prefix := xs[..n];
      forall i | 0 <= i < n ensures SplitsAt(keep, left, right, prefix[i]) {
        assert prefix[i] == xs[i];
      }
      ContributionsSplit(prefix, key, keep, left, right, amount, k);
      var p := (key(x), amount(x));
      var l, r, a := Contributions(prefix, key, left, amount), Contributions(prefix, key, right, amount),
                     Contributions(prefix, key, keep, amount);
      assert SplitsAt(keep, left, right, x);
      if left(x) {
        assert Contributions(xs, key, left, amount) == l + [p];
        assert Contributions(xs, key, right, amount) == r;
        assert Contributions(xs, key, keep, amount) == a + [p];
        KeySumSnoc(l, p, k);
        KeySumSnoc(a, p, k);
      } else if right(x) {
        assert Contributions(xs, key, left, amount) == l;
        assert Contributions(xs, key, right, amount) == r + [p];
        assert Contributions(xs, key, keep, amount) == a + [p];
        KeySumSnoc(r, p, k);
        KeySumSnoc(a, p, k);
      } else {
        assert Contributions(xs, key, left, amount) == l;
        assert Contributions(xs, key, right, amount) == r;
        assert Contributions(xs, key, keep, amount) == a;
      }
    }
  }

  /** Two filters that split `keep` on every element count what `keep`
      counts between them. */
  lemma {:induction false} CountSplit<T>(xs: seq<T>, keep: T -> bool, left: T -> bool, right: T -> bool)
    requires forall i :: 0 <= i < |xs| ==> SplitsAt(keep, left, right, xs[i])
    ensures Count(xs, left) + Count(xs, right) == Count(xs, keep)
  {
    if xs != [] {
      var n := |xs| - 1;
      var prefix := xs[..n];
      forall i | 0 <= i < n ensures SplitsAt(keep, left, right, prefix[i]) {
        assert prefix[i] == xs[i];
      }
      CountSplit(prefix, keep, left, right);
      assert SplitsAt(keep, left, right, xs[n]);
    }
  }

  /** A list sum depends only on the summands' values on the list. */
  lemma {:induction false} SeqSumPointwise<T>(xs: seq<T>, f: T -> real, g: T -> real)
    requires forall x :: x in xs ==> f(x) == g(x)
    ensures SeqSum(xs, f) == SeqSum(xs, g)
  {
    if xs != [] {
      var n := |xs| - 1;
      assert forall y :: y in xs[..n] ==> y in xs;
      SeqSumPointwise(xs[..n], f, g);
    }
  }

  /** `xs.reduce((t, x) => t + f(x), 0)`. */
  function SeqSum<T>(xs: seq<T>, f: T -> real): real
  {
    if xs == [] then 0.0 else SeqSum(xs[..|xs| - 1], f) + f(xs[|xs| - 1])
  }

  lemma {:induction false} SeqSumAppend<T>(xs: seq<T>, ys: seq<T>, f: T -> real)
    ensures SeqSum(xs + ys, f) == SeqSum(xs, f) + SeqSum(ys, f)
  {
    if ys == [] {
      assert xs + ys == xs;
    } else {
      var n := |ys| - 1;
      assert (xs + ys)[..|xs + ys| - 1] == xs + ys[..n];
      SeqSumAppend(xs, ys[..n], f);
    }
  }

  /** A list sum does not depend on the order of the list. */
  lemma {:induction false} SeqSumPermutation<T>(a: seq<T>, b: seq<T>, f: T -> real)
    requires multiset(a) == multiset(b)
    ensures SeqSum(a, f) == SeqSum(b, f)
  {
    if a == [] {
      assert |b| == |multiset(b)| == 0;
    } else {
      var n := |a| - 1;
      var x := a[n];
      assert a == a[..n] + [x];
      assert x in multiset(b);
      var j :| 0 <= j < |b| && b[j] == x;
      var rest := b[..j] + b[j + 1..];
      assert b == b[..j] + [x] + b[j + 1..];
      calc {
        multiset(a[..n]) + multiset{x};
        multiset(a);
        multiset(b);
        multiset(b[..j]) + multiset{x} + multiset(b[j + 1..]);
        multiset(rest) + multiset{x};
      }
      assert multiset(a[..n]) == (multiset(a[..n]) + multiset{x}) - multiset{x};
      assert multiset(rest) == (multiset(rest) + multiset{x}) - multiset{x};
      SeqSumPermutation(a[..n], rest, f);
      SeqSumAppend(b[..j] + [x], b[j + 1..], f);
      SeqSumAppend(b[..j], [x], f);
      SeqSumAppend(b[..j], b[j + 1..], f);
      assert SeqSum([x], f) == f(x) by {
        assert [x][..0] == [];
      }
    }
  }

  /** The sum of the values of a record, `Object.entries(m).reduce(...)`.
      Entries are visited in some order; `MapSumRemove` shows that the order
      does not matter. */
  ghost function MapSum(m: map<string, real>): real
    decreases |m.Keys|
  {
    if m == map[] then 0.0
    else
      var k :| k in m;
      assert |(m - {k}).Keys| < |m.Keys| by {
        assert (m - {k}).Keys == m.Keys - {k};
      }
      m[k] + MapSum(m - {k})
  }

  /** Any entry may be taken first: the sum is that entry's value plus the sum
      of the others. */
  lemma {:induction false} MapSumRemove(m: map<string, real>, k: string)
    requires k in m
    ensures MapSum(m) == m[k] + MapSum(m - {k})
    decreases |m.Keys|
  {
    var j :| j in m && MapSum(m) == m[j] + MapSum(m - {j});
    if j != k {
      assert (m - {j}).Keys == m.Keys - {j};
      assert (m - {k}).Keys == m.Keys - {k};
      MapSumRemove(m - {j}, k);
      MapSumRemove(m - {k}, j);
      assert m - {j} - {k} == m - {k} - {j};
    }
  }

  /** Adding a fresh entry adds its value to the sum. */
  lemma MapSumAdd(m: map<string, real>, k: string, v: real)
    requires k !in m
    ensures MapSum(m[k := v]) == MapSum(m) + v
  {
    MapSumRemove(m[k := v], k);
    assert m[k := v] - {k} == m;
  }
}
