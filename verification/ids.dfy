/**
 * Reference numbers of stored records: a prefix (`QR` for quote requests,
 * `CT` for contact messages), the calendar year, and the last six digits of
 * the millisecond clock, `prefix + new Date().getFullYear() + String(Date.now()).slice(-6)`.
 */
module Ids {
  import opened Values

  /** The decimal digit character for `d`. */
  function DigitChar(d: nat): (c: char)
    requires d < 10
    ensures '0' <= c <= '9'
  {
    ('0' as int + d) as char
  }

  /** The value of a decimal digit character. */
  function DigitValue(c: char): nat
  {
    if '0' <= c <= '9' then c as nat - '0' as nat else 0
  }

  predicate IsDigits(s: string)
  {
    forall k :: 0 <= k < |s| ==> '0' <= s[k] <= '9'
  }

  /** `String(n)` for a non-negative integer: its decimal representation without leading zeros. */
  function Decimal(n: nat): (s: string)
    ensures |s| >= 1 && IsDigits(s)
  {
    if n < 10 then [DigitChar(n)] else Decimal(n / 10) + [DigitChar(n % 10)]
  }

  /** The number a string of decimal digits denotes. */
  function DecimalValue(s: string): nat
  {
    if s == [] then 0 else DecimalValue(s[..|s| - 1]) * 10 + DigitValue(s[|s| - 1])
  }

  function Pow10(k: nat): (p: nat)
    ensures p >= 1
  {
    if k == 0 then 1 else 10 * Pow10(k - 1)
  }

  /** `Decimal` and `DecimalValue` are inverse: the string denotes the number it was made from. */
  lemma {:induction false} DecimalRoundTrip(n: nat)
    ensures DecimalValue(Decimal(n)) == n
  {
    if n >= 10 {
      DecimalRoundTrip(n / 10);
      var s := Decimal(n);
      assert s[..|s| - 1] == Decimal(n / 10);
    }
  }

  /** A number of `k` digits, `10^(k-1) <= n < 10^k`, is written with exactly `k` characters. */
  lemma {:induction false} DecimalLength(n: nat, k: nat)
    requires k >= 1 && Pow10(k - 1) <= n < Pow10(k)
    ensures |Decimal(n)| == k
  {
    if n >= 10 {
      assert k >= 2;
      DecimalLength(n / 10, k - 1);
    }
  }

  /** Reading a concatenation: the digits of `y` are the low-order `|y|` digits. */
  lemma {:induction false} DecimalValueAppend(x: string, y: string)
    ensures DecimalValue(x + y) == DecimalValue(x) * Pow10(|y|) + DecimalValue(y)
  {
    if y == [] {
      assert x + y == x;
    } else {
      var y' := y[..|y| - 1];
      var c := y[|y| - 1];
      DecimalValueAppend(x, y');
      assert (x + y)[..|x + y| - 1] == x + y';
      assert (x + y)[|x + y| - 1] == c;
      var v, p, d, e := DecimalValue(x), Pow10(|y'|), DecimalValue(y'), DigitValue(c);
      assert y[..|y| - 1] == y' && y[|y| - 1] == c;
      assert DecimalValue(y) == d * 10 + e;
      assert Pow10(|y|) == p * 10;
      assert DecimalValue(x + y) == DecimalValue(x + y') * 10 + e;
      ShiftDigit(v, p, d, e);
    }
  }

  /** Appending one digit to `v * p + d` multiplies by ten and adds the digit. */
  lemma ShiftDigit(v: int, p: int, d: int, e: int)
    ensures (v * p + d) * 10 + e == v * (p * 10) + (d * 10 + e)
  {
  }

  /** Division with remainder has one answer: `a * m + b` with `0 <= b < m` is divided as `a`, remainder `b`. */
  lemma DivModUnique(n: int, m: int, a: int, b: int)
    requires m > 0 && 0 <= b < m && n == a * m + b
    ensures n / m == a && n % m == b
  {
    var q, r := n / m, n % m;
    assert n == q * m + r;
    // (a - q) * m lies strictly between -m and m, so it is zero
    assert (a - q) * m == r - b;
    if a - q >= 1 {
      assert false;
    } else if a - q <= -1 {
      assert false;
    }
  }

  /** The last `k` characters of a string of digits are digits. */
  lemma DigitsLast(s: string, k: nat)
    requires IsDigits(s)
    ensures IsDigits(Last(s, k))
  {
    var r := Last(s, k);
    forall i | 0 <= i < |r|
      ensures '0' <= r[i] <= '9'
    {
      assert r[i] == s[|s| - |r| + i];
    }
  }

  /** Two strings of digits joined are a string of digits. */
  lemma DigitsAppend(a: string, b: string)
    requires IsDigits(a) && IsDigits(b)
    ensures IsDigits(a + b)
  {
    forall i | 0 <= i < |a + b|
      ensures '0' <= (a + b)[i] <= '9'
    {
      if i >= |a| {
        assert (a + b)[i] == b[i - |a|];
      }
    }
  }

  /** `prefix + year + String(nowMs).slice(-6)`. */
  function ReferenceId(prefix: string, year: nat, nowMs: nat): (id: string)
    ensures |id| >= |prefix| + 2
    ensures id[..|prefix|] == prefix
    ensures IsDigits(id[|prefix|..])
    ensures |id| <= |prefix| + |Decimal(year)| + 6
  {
    var y, suffix := Decimal(year), Last(Decimal(nowMs), 6);
    DigitsLast(Decimal(nowMs), 6);
    DigitsAppend(y, suffix);
    var id := prefix + (y + suffix);
    assert id[..|prefix|] == prefix && id[|prefix|..] == y + suffix;
    id
  }

  /**
   * For a four-digit year and a clock of at least six digits the reference is
   * the prefix followed by exactly ten digits (`QR\d{4}\d{6}`), and its last six
   * digits are the clock value modulo one million.
   */
  lemma ReferenceIdShape(prefix: string, year: nat, nowMs: nat)
    requires 1000 <= year <= 9999 && nowMs >= 100000
    ensures var id := ReferenceId(prefix, year, nowMs);
      && |id| == |prefix| + 10
      && DecimalValue(id[|prefix|..|prefix| + 4]) == year
      && DecimalValue(id[|prefix| + 4..]) == nowMs % 1000000
  {
    assert Pow10(3) == 1000 && Pow10(4) == 10000;
    DecimalLength(year, 4);
    DecimalRoundTrip(year);
    LongDecimal(nowMs);
    DecimalRoundTrip(nowMs);
    JoinedShape(prefix, Decimal(year), Decimal(nowMs), year, nowMs);
  }

  /** The reference shape, stated over the two numerals themselves. */
  lemma JoinedShape(prefix: string, y: string, digits: string, year: nat, nowMs: nat)
    requires |y| == 4 && DecimalValue(y) == year
    requires |digits| >= 6 && DecimalValue(digits) == nowMs
    ensures var id := prefix + (y + Last(digits, 6));
      && |id| == |prefix| + 10
      && DecimalValue(id[|prefix|..|prefix| + 4]) == year
      && DecimalValue(id[|prefix| + 4..]) == nowMs % 1000000
  {
    var id := prefix + (y + Last(digits, 6));
    SuffixValue(digits, nowMs);
    assert id[|prefix|..|prefix| + 4] == y;
    assert id[|prefix| + 4..] == Last(digits, 6);
  }

  /** A number of at least six digits is written with at least six characters. */
  lemma LongDecimal(n: nat)
    requires n >= 100000
    ensures |Decimal(n)| >= 6
  {
    var s := Decimal(n);
    DecimalRoundTrip(n);
    DecimalValueBound(s);
    assert Pow10(5) == 100000;
    if |s| < 6 {
      Pow10Monotone(|s|, 5);
    }
  }

  /** The last six digits of a numeral denote the number modulo one million. */
  lemma SuffixValue(digits: string, n: nat)
    requires |digits| >= 6 && DecimalValue(digits) == n
    ensures DecimalValue(Last(digits, 6)) == n % 1000000
  {
    var suffix := Last(digits, 6);
    var high := digits[..|digits| - 6];
    DecimalValueAppend(high, suffix);
    DecimalValueBound(suffix);
    assert Pow10(6) == 1000000;
    DivModUnique(n, 1000000, DecimalValue(high), DecimalValue(suffix));
  }

  /** A string of `k` characters denotes a number below `10^k`. */
  lemma {:induction false} DecimalValueBound(s: string)
    ensures DecimalValue(s) < Pow10(|s|)
  {
    if s != [] {
      DecimalValueBound(s[..|s| - 1]);
      assert DigitValue(s[|s| - 1]) < 10;
    }
  }

  lemma {:induction false} Pow10Monotone(i: nat, j: nat)
    requires i <= j
    ensures Pow10(i) <= Pow10(j)
  {
    if i < j {
      Pow10Monotone(i, j - 1);
    }
  }
}
