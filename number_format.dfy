/** How the dashboards turn integers into text: JavaScript's `String(n)` and
    the en-US `n.toLocaleString()`, which groups digits in threes with commas.
    Each rendering is paired with a parser that reads it back. */
module NumberFormat {

  /** The character for the decimal digit `d`. */
  function DigitChar(d: nat): (c: char)
    requires d < 10
    ensures IsDigit(c)
  {
    (48 + d) as char
  }

  predicate IsDigit(c: char) {
    '0' <= c <= '9'
  }

  function DigitValue(c: char): int {
    (c as int) - 48
  }

  /** `String(n)` for a non-negative integer: its decimal digits, no leading zero. */
  function Digits(n: nat): string
    decreases n
  {
    if n < 10 then [DigitChar(n)] else Digits(n / 10) + [DigitChar(n % 10)]
  }

  /** Reads a run of decimal digits back as a number. */
  function ParseDigits(s: string): int
  {
    if s == [] then 0 else ParseDigits(s[..|s| - 1]) * 10 + DigitValue(s[|s| - 1])
  }

  lemma {:induction false} DigitsShape(n: nat)
    ensures |Digits(n)| >= 1
    ensures forall i :: 0 <= i < |Digits(n)| ==> IsDigit(Digits(n)[i])
    ensures n > 0 ==> Digits(n)[0] != '0'
    decreases n
  {
    if n >= 10 {
      DigitsShape(n / 10);
    }
  }

  lemma {:induction false} DigitsRoundTrip(n: nat)
    ensures ParseDigits(Digits(n)) == n
    decreases n
  {
    if n >= 10 {
      var s := Digits(n);
      assert s[..|s| - 1] == Digits(n / 10);
      DigitsRoundTrip(n / 10);
    }
  }

  /** The three digits of `k`, zero-padded: one group of a grouped number. */
  function Pad3(k: nat): string
    requires k < 1000
  {
    [DigitChar(k / 100), DigitChar(k / 10 % 10), DigitChar(k % 10)]
  }

  /** en-US `toLocaleString` of a non-negative integer: "1,234,567". */
  function Grouped(n: nat): string
    decreases n
  {
    if n < 1000 then Digits(n) else Grouped(n / 1000) + "," + Pad3(n % 1000)
  }

  function RemoveCommas(s: string): string
  {
    if s == [] then [] else (if s[0] == ',' then [] else [s[0]]) + RemoveCommas(s[1..])
  }

  lemma {:induction false} RemoveCommasAppend(a: string, b: string)
    ensures RemoveCommas(a + b) == RemoveCommas(a) + RemoveCommas(b)
  {
    if a == [] {
      assert a + b == b;
    } else {
      assert (a + b)[0] == a[0] && (a + b)[1..] == a[1..] + b;
      RemoveCommasAppend(a[1..], b);
    }
  }

  lemma RemoveCommasOfDigits(s: string)
    requires forall i :: 0 <= i < |s| ==> IsDigit(s[i])
    ensures RemoveCommas(s) == s
  {
  }

  /** Peeling the last three digits off `Digits(n)`. */
  lemma DigitsSplit3(n: nat)
    requires n >= 1000
    ensures Digits(n) == Digits(n / 1000) + Pad3(n % 1000)
  {
    var q, r := n / 1000, n % 1000;
    var a, b, c := r / 100, r / 10 % 10, r % 10;
    assert r == 100 * a + 10 * b + c;
    assert n == 10 * (100 * q + 10 * a + b) + c;
    assert n / 10 == 100 * q + 10 * a + b && n % 10 == c;
    var m := n / 10;
    assert m == 10 * (10 * q + a) + b;
    assert m / 10 == 10 * q + a && m % 10 == b;
    var l := m / 10;
    assert l == 10 * q + a;
    assert l / 10 == q && l % 10 == a;
    assert Digits(n) == Digits(m) + [DigitChar(c)];
    assert Digits(m) == Digits(l) + [DigitChar(b)];
    assert Digits(l) == Digits(q) + [DigitChar(a)];
  }

  /** Grouping only inserts commas: removing them gives `String(n)` back. */
  lemma {:induction false} GroupedDigits(n: nat)
    ensures RemoveCommas(Grouped(n)) == Digits(n)
    decreases n
  {
    DigitsShape(n);
    if n < 1000 {
      RemoveCommasOfDigits(Digits(n));
    } else {
      GroupedDigits(n / 1000);
      RemoveCommasAppend(Grouped(n / 1000) + ",", Pad3(n % 1000));
      RemoveCommasAppend(Grouped(n / 1000), ",");
      RemoveCommasOfDigits(Pad3(n % 1000));
      DigitsSplit3(n);
    }
  }

  /** `String(n)` for any integer. */
  function IntString(n: int): string {
    if n < 0 then "-" + Digits(-n) else Digits(n)
  }

  function ParseInt(s: string): int {
    if |s| > 0 && s[0] == '-' then -ParseDigits(s[1..]) else ParseDigits(s)
  }

  lemma IntStringRoundTrip(n: int)
    ensures |IntString(n)| >= 1
    ensures ParseInt(IntString(n)) == n
  {
    var s := IntString(n);
    if n < 0 {
      DigitsShape(-n);
      DigitsRoundTrip(-n);
      assert s[0] == '-' && s[1..] == Digits(-n);
    } else {
      DigitsShape(n);
      DigitsRoundTrip(n);
      assert IsDigit(s[0]);
    }
  }

  /** en-US `n.toLocaleString()` for any integer. */
  function LocaleString(n: int): string {
    if n < 0 then "-" + Grouped(-n) else Grouped(n)
  }

  function ParseLocale(s: string): int {
    if |s| > 0 && s[0] == '-' then -ParseDigits(RemoveCommas(s[1..])) else ParseDigits(RemoveCommas(s))
  }

  lemma {:induction false} GroupedStartsWithDigit(n: nat)
    ensures |Grouped(n)| >= 1 && IsDigit(Grouped(n)[0])
    decreases n
  {
    DigitsShape(n);
    if n >= 1000 {
      GroupedStartsWithDigit(n / 1000);
    }
  }

  lemma LocaleRoundTrip(n: int)
    ensures ParseLocale(LocaleString(n)) == n
  {
    if n < 0 {
      GroupedDigits(-n);
      DigitsRoundTrip(-n);
      assert LocaleString(n)[1..] == Grouped(-n);
    } else {
      GroupedStartsWithDigit(n);
      GroupedDigits(n);
      DigitsRoundTrip(n);
    }
  }

  /** The currency cell formatter of both dashboards' grids:
      `params.value ? "$" + params.value.toLocaleString() : ""`.
      Zero is falsy and gives the empty label; any other amount is "$" followed by
      its grouped digits, which read back to the amount. */
  function CurrencyLabel(amount: int): (text: string)
    ensures text == "" <==> amount == 0
    ensures amount != 0 ==> text[0] == '$' && ParseLocale(text[1..]) == amount
  {
    if amount == 0 then ""
    else
      LocaleRoundTrip(amount);
      assert ("$" + LocaleString(amount))[1..] == LocaleString(amount);
      "$" + LocaleString(amount)
  }
}
