/** Exact-arithmetic models of the JavaScript number operations the revenue
    code relies on: `Number(x.toFixed(2))`, `Math.round`, NaN/Infinity from a
    missing exchange rate, and ASCII upper-casing of currency codes. */
module Money {

  /** Nearest integer to `y`; a tie goes to the larger integer, as
      `Number.prototype.toFixed` and `Math.round` choose. */
  function RoundHalfUp(y: real): (n: int)
    ensures n as real - 0.5 <= y < n as real + 0.5
  {
    (y + 0.5).Floor
  }

  /** The signed number of hundredths that `x.toFixed(2)` prints: the sign is
      taken off first, the magnitude rounded half-up, the sign put back. */
  function Cents(x: real): (c: int)
    ensures -0.5 <= c as real - x * 100.0 <= 0.5
  {
    if x < 0.0 then -RoundHalfUp(-x * 100.0) else RoundHalfUp(x * 100.0)
  }

  /** `x` is a whole number of hundredths. */
  predicate IsCents(x: real)
  {
    (x * 100.0).Floor as real == x * 100.0
  }

  /** `Number(x.toFixed(2))` in exact arithmetic. */
  function Round2(x: real): (r: real)
    ensures IsCents(r)
    ensures -0.005 <= r - x <= 0.005
  {
    var c := Cents(x);
    var r := c as real / 100.0;
    assert r * 100.0 == c as real;
    assert (r - x) * 100.0 == c as real - x * 100.0;
    r
  }

  /** Rounding to two places leaves a whole number of hundredths unchanged,
      so `toFixed(2)` of an integer, or of an integer divided by 100, is
      the identity. */
  lemma Round2OfCents(k: int)
    ensures Round2(k as real / 100.0) == k as real / 100.0
  {
    var x := k as real / 100.0;
    assert x * 100.0 == k as real;
    if x < 0.0 {
      assert -x * 100.0 == (-k) as real;
      assert RoundHalfUp(-x * 100.0) == -k;
    } else {
      assert RoundHalfUp(x * 100.0) == k;
    }
  }

  lemma Round2OfWholeCents(x: real)
    requires IsCents(x)
    ensures Round2(x) == x
  {
    var k := (x * 100.0).Floor;
    assert x == k as real / 100.0;
    Round2OfCents(k);
  }

  /** Rounding twice is rounding once. */
  lemma Round2Idempotent(x: real)
    ensures Round2(Round2(x)) == Round2(x)
  {
    Round2OfWholeCents(Round2(x));
  }

  /** `Math.round(x)`: the nearest integer, a tie going toward +Infinity. */
  function MathRound(x: real): (n: int)
    ensures x - 0.5 < n as real <= x + 0.5
  {
    RoundHalfUp(x)
  }

  /** A JavaScript number as far as this model needs one: a finite value, or
      one of NaN, +Infinity and -Infinity, which the model does not tell
      apart. */
  datatype Num = Finite(value: real) | NonFinite

  /** `a + b` on JavaScript numbers: NaN and the infinities absorb. */
  function Plus(a: Num, b: Num): (r: Num)
    ensures r.Finite? <==> a.Finite? && b.Finite?
    ensures r.Finite? ==> r.value == a.value + b.value
  {
    if a.Finite? && b.Finite? then Finite(a.value + b.value) else NonFinite
  }

  /** `rates[num] / rates[den]` where a missing entry reads as `undefined`:
      the quotient is a finite number exactly when both entries exist and the
      denominator is not zero (otherwise NaN or an infinity). */
  function Ratio(rates: map<string, real>, num: string, den: string): (q: Num)
    ensures q.Finite? <==> num in rates && den in rates && rates[den] != 0.0
    ensures q.Finite? ==> q.value * rates[den] == rates[num]
  {
    if num in rates && den in rates && rates[den] != 0.0
    then Finite(rates[num] / rates[den])
    else NonFinite
  }

  /** `a * q` on JavaScript numbers, for a finite `a`. */
  function Scale(a: real, q: Num): (r: Num)
    ensures r.Finite? <==> q.Finite?
    ensures r.Finite? ==> r.value == a * q.value
  {
    if q.Finite? then Finite(a * q.value) else NonFinite
  }

  /** `Number(x.toFixed(2))` on a JavaScript number: a non-finite value
      stays non-finite. */
  function RoundNum(x: Num): (r: Num)
    ensures r.Finite? <==> x.Finite?
    ensures r.Finite? ==> IsCents(r.value) && -0.005 <= r.value - x.value <= 0.005
  {
    if x.Finite? then Finite(Round2(x.value)) else NonFinite
  }

  function UpperChar(c: char): char
  {
    if 'a' <= c <= 'z' then (c as int - 'a' as int + 'A' as int) as char else c
  }

  /** `String.prototype.toUpperCase` on ASCII text. */
  function Upper(s: string): (r: string)
    ensures |r| == |s|
    ensures forall i :: 0 <= i < |s| ==> r[i] == UpperChar(s[i])
  {
    if s == [] then [] else [UpperChar(s[0])] + Upper(s[1..])
  }

  /** Upper-casing twice is upper-casing once, so keys already upper-cased are
      left alone. */
  lemma {:induction false} UpperIdempotent(s: string)
    ensures Upper(Upper(s)) == Upper(s)
  {
    var u := Upper(s);
    assert forall i :: 0 <= i < |u| ==> Upper(u)[i] == u[i];
  }
}
