/** Currency symbols and display formatting, `src/utils/currencySymbols.ts`.
    Numbers are printed as `Number.prototype.toFixed(2)` and
    `String(Math.round(x))` print them (for magnitudes below 1e21, where no
    exponent appears). */
module CurrencySymbols {
  import opened Money

  /** `CURRENCY_SYMBOLS`. */
  const CurrencySymbolTable: map<string, string> :=
    map["USD" := "$", "EUR" := "€", "GBP" := "£", "JPY" := "¥", "CNY" := "¥", "HKD" := "HK$"]

  /** `getCurrencySymbol`: the table's symbol, or the code itself when the
      table has none (the `||` fallback; no symbol in the table is empty). */
  function GetCurrencySymbol(currency: string): (symbol: string)
    ensures currency in CurrencySymbolTable ==> symbol == CurrencySymbolTable[currency]
    ensures currency !in CurrencySymbolTable ==> symbol == currency
  {
    if currency in CurrencySymbolTable && CurrencySymbolTable[currency] != "" then CurrencySymbolTable[currency]
    else currency
  }

  /** The six known codes and their symbols; yen and yuan share one sign. */
  lemma KnownSymbols()
    ensures GetCurrencySymbol("USD") == "$" && GetCurrencySymbol("EUR") == "€"
    ensures GetCurrencySymbol("GBP") == "£" && GetCurrencySymbol("HKD") == "HK$"
    ensures GetCurrencySymbol("JPY") == GetCurrencySymbol("CNY") == "¥"
  {
  }

  /** The lookup is case-sensitive: a code with a lower-case letter, such as
      "usd", is not in the table and is shown as it is. */
  lemma LowerCaseCodeShownAsIs(currency: string, i: nat)
    requires i < |currency| && 'a' <= currency[i] <= 'z'
    ensures GetCurrencySymbol(currency) == currency
  {
    forall k | k in CurrencySymbolTable ensures k != currency {
      assert forall j :: 0 <= j < |k| ==> 'A' <= k[j] <= 'Z';
    }
  }

  predicate IsDigit(c: char)
  {
    '0' <= c <= '9'
  }

  function DigitChar(d: int): (c: char)
    requires 0 <= d < 10
    ensures IsDigit(c)
  {
    ('0' as int + d) as char
  }

  /** The decimal digits of `n`, most significant first, without leading
      zeros ("0" for zero). */
  function Digits(n: nat): (s: string)
    ensures |s| >= 1
    ensures forall i :: 0 <= i < |s| ==> IsDigit(s[i])
  {
    if n < 10 then [DigitChar(n)] else Digits(n / 10) + [DigitChar(n % 10)]
  }

  predicate AllDigits(s: string)
  {
    forall i :: 0 <= i < |s| ==> IsDigit(s[i])
  }

  /** The number a string of decimal digits denotes. */
  function ParseDigits(s: string): nat
    requires AllDigits(s)
  {
    if s == [] then 0 else 10 * ParseDigits(s[..|s| - 1]) + (s[|s| - 1] as int - '0' as int)
  }

  /** Reading back the digits of `n` gives `n`. */
  lemma {:induction false} ParseDigitsOfDigits(n: nat)
    ensures ParseDigits(Digits(n)) == n
  {
    if n >= 10 {
      ParseDigitsOfDigits(n / 10);
      var s := Digits(n);
      assert s[..|s| - 1] == Digits(n / 10);
    }
  }

  /** Leading zeros do not change the value. */
  lemma {:induction false} ParseDigitsLeadingZero(s: string)
    requires AllDigits(s)
    ensures ParseDigits("0" + s) == ParseDigits(s)
  {
    if s != [] {
      var t := "0" + s;
      assert t[..|t| - 1] == "0" + s[..|s| - 1];
      ParseDigitsLeadingZero(s[..|s| - 1]);
    }
  }

  /** The last two digits of a digit string are its value modulo 100. */
  lemma ParseDigitsLastTwo(s: string)
    requires AllDigits(s) && |s| >= 2
    ensures ParseDigits(s) == 100 * ParseDigits(s[..|s| - 2]) + ParseDigits(s[|s| - 2..])
  {
    var t := s[|s| - 2..];
    assert t[..1] == [s[|s| - 2]];
    assert t[..1][..0] == [];
    assert s[..|s| - 1][..|s| - 2] == s[..|s| - 2];
  }

  /** The digits of `n`, padded with zeros on the left to at least three. */
  function Padded(n: nat): (p: string)
    ensures |p| >= 3
  {
    var m := Digits(n);
    if |m| == 1 then "00" + m else if |m| == 2 then "0" + m else m
  }

  /** `n.toFixed(2)`'s digit string for `n` hundredths: the padded digits
      of `n` with a point before the last two. */
  function HundredthsString(n: nat): (s: string)
    ensures |s| >= 4 && s[|s| - 3] == '.' && s[0] != '-'
    ensures IsDigit(s[|s| - 2]) && IsDigit(s[|s| - 1])
  {
    var padded := Padded(n);
    PaddedValue(n);
    assert IsDigit(padded[0]);
    padded[..|padded| - 2] + "." + padded[|padded| - 2..]
  }

  /** `x.toFixed(2)`: a minus sign for a negative `x`, then the magnitude
      rounded to hundredths (a tie rounding up) and written with exactly two
      decimals. */
  function Fixed2(x: real): (s: string)
    ensures |s| >= 4 && s[|s| - 3] == '.' && IsDigit(s[|s| - 2]) && IsDigit(s[|s| - 1])
    ensures s[0] == '-' <==> x < 0.0
  {
    var n := RoundHalfUp(if x < 0.0 then -x * 100.0 else x * 100.0);
    (if x < 0.0 then "-" else "") + HundredthsString(n)
  }

  /** A string of the form `[-]d+.dd`. */
  predicate Fixed2Shape(s: string)
  {
    var u := if |s| > 0 && s[0] == '-' then s[1..] else s;
    |u| >= 4 && u[|u| - 3] == '.' && AllDigits(u[..|u| - 3]) && AllDigits(u[|u| - 2..])
  }

  /** `Number(s)` for a string of the form `[-]d+.dd`. */
  function ParseFixed2(s: string): real
    requires Fixed2Shape(s)
  {
    var negative := |s| > 0 && s[0] == '-';
    var u := if negative then s[1..] else s;
    var magnitude := ParseDigits(u[..|u| - 3]) as real + ParseDigits(u[|u| - 2..]) as real / 100.0;
    if negative then -magnitude else magnitude
  }

  /** Left-padding with zeros keeps the digits' value. */
  lemma PaddedValue(n: nat)
    ensures AllDigits(Padded(n)) && ParseDigits(Padded(n)) == n
  {
    var m := Digits(n);
    ParseDigitsOfDigits(n);
    if |m| == 1 {
      ParseDigitsLeadingZero(m);
      ParseDigitsLeadingZero("0" + m);
      assert "0" + ("0" + m) == "00" + m;
    } else if |m| == 2 {
      ParseDigitsLeadingZero(m);
    }
  }

  /** The digit string of `n` hundredths reads back as `n / 100`. */
  lemma HundredthsStringValue(n: nat)
    ensures var s := HundredthsString(n);
            |s| >= 4 && s[|s| - 3] == '.' && AllDigits(s[..|s| - 3]) && AllDigits(s[|s| - 2..]) &&
            ParseDigits(s[..|s| - 3]) as real + ParseDigits(s[|s| - 2..]) as real / 100.0 == n as real / 100.0
  {
    var p := Padded(n);
    PaddedValue(n);
    ParseDigitsLastTwo(p);
    var s := HundredthsString(n);
    assert s[..|s| - 3] == p[..|p| - 2];
    assert s[|s| - 2..] == p[|p| - 2..];
    var hi, lo := ParseDigits(p[..|p| - 2]), ParseDigits(p[|p| - 2..]);
    assert n == 100 * hi + lo;
    assert hi as real + lo as real / 100.0 == n as real / 100.0;
  }

  /** `x.toFixed(2)` always has the shape `[-]d+.dd`, and reading it back
      gives `x` rounded to two places: `Number(x.toFixed(2))` is `Round2`. */
  lemma Fixed2RoundTrip(x: real)
    ensures Fixed2Shape(Fixed2(x))
    ensures ParseFixed2(Fixed2(x)) == Round2(x)
  {
    var n := RoundHalfUp(if x < 0.0 then -x * 100.0 else x * 100.0);
    var h := HundredthsString(n);
    HundredthsStringValue(n);
    var magnitude := ParseDigits(h[..|h| - 3]) as real + ParseDigits(h[|h| - 2..]) as real / 100.0;
    assert magnitude == n as real / 100.0;
    var s := Fixed2(x);
    if x < 0.0 {
      assert Round2(x) == -(n as real / 100.0) by {
        assert Cents(x) == -n;
      }
      assert s[1..] == h by { assert s == "-" + h; }
      assert Fixed2Shape(s);
      assert ParseFixed2(s) == -magnitude;
    } else {
      assert Round2(x) == n as real / 100.0 by {
        assert Cents(x) == n;
      }
      assert s == h;
      assert Fixed2Shape(s);
      assert ParseFixed2(s) == magnitude;
    }
  }

  /** `String(i)` for an integer. */
  function IntString(i: int): (s: string)
    ensures '.' !in s
  {
    if i < 0 then "-" + Digits(-i) else Digits(i)
  }

  /** `Number(s)` for an integer string. */
  function ParseInt(s: string): int
    requires |s| > 0 && AllDigits(if s[0] == '-' then s[1..] else s)
  {
    if s[0] == '-' then -(ParseDigits(s[1..]) as int) else ParseDigits(s)
  }

  lemma IntStringRoundTrip(i: int)
    ensures var s := IntString(i); |s| > 0 && AllDigits(if s[0] == '-' then s[1..] else s) && ParseInt(s) == i
  {
    var s := IntString(i);
    if i < 0 {
      ParseDigitsOfDigits(-i);
      assert s[1..] == Digits(-i);
    } else {
      ParseDigitsOfDigits(i);
    }
  }

  /** `formatCurrency`: the currency's symbol, then for JPY the amount rounded
      to a whole number with no decimal point, and for every other currency
      (HKD included) the amount with exactly two decimals. */
  function FormatCurrency(amount: real, currency: string): (r: string)
    ensures GetCurrencySymbol(currency) <= r
    ensures var rest := r[|GetCurrencySymbol(currency)|..];
            currency == "JPY" ==>
              '.' !in rest && |rest| > 0 && AllDigits(if rest[0] == '-' then rest[1..] else rest) &&
              ParseInt(rest) == MathRound(amount)
    ensures var rest := r[|GetCurrencySymbol(currency)|..];
            currency != "JPY" ==> Fixed2Shape(rest) && ParseFixed2(rest) == Round2(amount)
  {
    var symbol := GetCurrencySymbol(currency);
    var text :=
      if currency == "JPY" then IntString(MathRound(amount))
      else if currency == "HKD" then Fixed2(amount)
      else Fixed2(amount);
    IntStringRoundTrip(MathRound(amount));
    Fixed2RoundTrip(amount);
    assert (symbol + text)[|symbol|..] == text;
    symbol + text
  }

  /** The HKD case prints exactly what the default case would. */
  lemma HKDFormatsAsDefault(amount: real)
    ensures FormatCurrency(amount, "HKD") == GetCurrencySymbol("HKD") + Fixed2(amount)
    ensures forall c :: c != "JPY" ==> FormatCurrency(amount, c) == GetCurrencySymbol(c) + Fixed2(amount)
  {
  }
}
