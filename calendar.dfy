/** Calendar months and the `YYYY-MM` month keys the engine joins and filters on
    (`formatMonthYear`, services/processor.ts). A JavaScript `Date` is reduced to
    its calendar month: every comparison the engine makes is against a
    first-of-month instant, so the month alone decides it. */
module Calendar {

  /** `getMonth() + 1`. */
  type Month = m: int | 1 <= m <= 12 witness 1

  datatype YearMonth = YearMonth(year: int, month: Month)

  /** Chronological order of calendar months. */
  predicate Before(a: YearMonth, b: YearMonth)
  {
    a.year < b.year || (a.year == b.year && a.month < b.month)
  }

  /** Years that `toString()` writes with exactly four digits. */
  predicate FourDigitYear(d: YearMonth)
  {
    1000 <= d.year <= 9999
  }

  function DigitChar(n: nat): (c: char)
    requires n < 10
    ensures '0' <= c <= '9'
  {
    (48 + n) as char
  }

  /** Decimal notation of a natural number, as `Number.prototype.toString` writes it. */
  function NatToString(n: nat): (s: string)
    ensures |s| >= 1
  {
    if n < 10 then [DigitChar(n)] else NatToString(n / 10) + [DigitChar(n % 10)]
  }

  /** Decimal notation of an integer, with a leading minus sign when negative. */
  function IntToString(n: int): string
  {
    if n < 0 then "-" + NatToString(-n) else NatToString(n)
  }

  /** `toString().padStart(2, '0')`: below 100, the tens digit and the
      units digit, so a one-digit number gets a leading zero. */
  function Pad2(n: nat): (p: string)
    ensures n < 100 ==> p == [DigitChar(n / 10), DigitChar(n % 10)]
  {
    var s := NatToString(n);
    assert 10 <= n < 100 ==> NatToString(n / 10) == [DigitChar(n / 10)];
    if |s| < 2 then ['0'] + s else s
  }

  /** `formatMonthYear`: the year in decimal, a dash, and the month as two
      digits with a leading zero. */
  function MonthKey(d: YearMonth): (k: string)
    ensures var y := IntToString(d.year);
      && |k| == |y| + 3
      && k[..|y|] == y
      && k[|y|] == '-'
      && k[|y| + 1..] == [DigitChar(d.month / 10), DigitChar(d.month % 10)]
  {
    IntToString(d.year) + "-" + Pad2(d.month)
  }

  /** JavaScript's `<` on strings: code-unit order, a proper prefix first. */
  predicate StrLess(a: string, b: string)
  {
    if a == [] then b != []
    else if b == [] then false
    else if a[0] != b[0] then a[0] < b[0]
    else StrLess(a[1..], b[1..])
  }

  /** JavaScript's `>=` on strings. */
  predicate StrAtLeast(a: string, b: string)
  {
    !StrLess(a, b)
  }

  /** The seven characters of the key of a month whose year has four digits. */
  lemma KeyChars(d: YearMonth)
    requires FourDigitYear(d)
    ensures MonthKey(d) == [DigitChar(d.year / 1000), DigitChar(d.year / 100 % 10),
                            DigitChar(d.year / 10 % 10), DigitChar(d.year % 10), '-',
                            DigitChar(d.month / 10), DigitChar(d.month % 10)]
  {
    var y := d.year;
    assert y / 10 / 10 == y / 100 && y / 100 / 10 == y / 1000;
    assert NatToString(y / 1000) == [DigitChar(y / 1000)];
    assert NatToString(y / 100) == [DigitChar(y / 1000), DigitChar(y / 100 % 10)];
    assert NatToString(y / 10) == [DigitChar(y / 1000), DigitChar(y / 100 % 10), DigitChar(y / 10 % 10)];
    assert NatToString(y) == NatToString(y / 10) + [DigitChar(y % 10)];
    if d.month < 10 {
      assert Pad2(d.month) == ['0', DigitChar(d.month)];
    } else {
      assert NatToString(d.month / 10) == [DigitChar(d.month / 10)];
      assert Pad2(d.month) == [DigitChar(d.month / 10), DigitChar(d.month % 10)];
    }
  }

  /** Lexicographic order on seven characters, spelled out. */
  lemma StrLessSeven(a: string, b: string)
    requires |a| == 7 && |b| == 7
    ensures StrLess(a, b) <==>
      (a[0] < b[0] || (a[0] == b[0] &&
      (a[1] < b[1] || (a[1] == b[1] &&
      (a[2] < b[2] || (a[2] == b[2] &&
      (a[3] < b[3] || (a[3] == b[3] &&
      (a[4] < b[4] || (a[4] == b[4] &&
      (a[5] < b[5] || (a[5] == b[5] && a[6] < b[6]))))))))))))
  {
    forall i | 0 <= i < 7
      ensures StrLess(a[i..], b[i..]) ==
        if a[i] != b[i] then a[i] < b[i] else StrLess(a[i + 1..], b[i + 1..])
    {
      assert a[i..][1..] == a[i + 1..] && b[i..][1..] == b[i + 1..];
    }
    assert a[0..] == a && b[0..] == b;
    assert a[7..] == [] && b[7..] == [];
  }

  lemma DigitCharOrder(x: nat, y: nat)
    requires x < 10 && y < 10
    ensures DigitChar(x) < DigitChar(y) <==> x < y
    ensures DigitChar(x) == DigitChar(y) <==> x == y
  {
  }

  /** Comparing the four digits of two four-digit numbers from the left
      compares the numbers. */
  lemma FourDigitsOrder(x: int, y: int)
    requires 1000 <= x <= 9999 && 1000 <= y <= 9999
    ensures (x / 1000 < y / 1000 || (x / 1000 == y / 1000 &&
            (x / 100 % 10 < y / 100 % 10 || (x / 100 % 10 == y / 100 % 10 &&
            (x / 10 % 10 < y / 10 % 10 || (x / 10 % 10 == y / 10 % 10 && x % 10 < y % 10))))))
            <==> x < y
    ensures (x / 1000 == y / 1000 && x / 100 % 10 == y / 100 % 10 &&
             x / 10 % 10 == y / 10 % 10 && x % 10 == y % 10) <==> x == y
  {
    Decimal4(x);
    Decimal4(y);
    var x0, x1, x2, x3 := x / 1000, x / 100 % 10, x / 10 % 10, x % 10;
    var y0, y1, y2, y3 := y / 1000, y / 100 % 10, y / 10 % 10, y % 10;
    assert x == 1000 * x0 + 100 * x1 + 10 * x2 + x3;
    assert y == 1000 * y0 + 100 * y1 + 10 * y2 + y3;
  }

  lemma Decimal4(x: int)
    requires 1000 <= x <= 9999
    ensures x == 1000 * (x / 1000) + 100 * (x / 100 % 10) + 10 * (x / 10 % 10) + x % 10
    ensures 0 <= x / 100 % 10 <= 9 && 0 <= x / 10 % 10 <= 9 && 0 <= x % 10 <= 9
  {
    assert x == 10 * (x / 10) + x % 10;
    assert x / 10 == 10 * (x / 100) + x / 10 % 10;
    assert x / 100 == 10 * (x / 1000) + x / 100 % 10;
  }

  /** For four-digit years the string order of the keys is the chronological
      order of the months, and equal keys mean equal months: this is what makes
      `key >= '2026-01'` a date filter and the keys a join column. */
  lemma MonthKeyOrder(a: YearMonth, b: YearMonth)
    requires FourDigitYear(a) && FourDigitYear(b)
    ensures StrLess(MonthKey(a), MonthKey(b)) <==> Before(a, b)
    ensures MonthKey(a) == MonthKey(b) <==> a == b
  {
    var ka, kb := MonthKey(a), MonthKey(b);
    KeyChars(a);
    KeyChars(b);
    StrLessSeven(ka, kb);
    var y1: int, y2: int, m1: int, m2: int := a.year, b.year, a.month, b.month;
    DigitCharOrder(y1 / 1000, y2 / 1000);
    DigitCharOrder(y1 / 100 % 10, y2 / 100 % 10);
    DigitCharOrder(y1 / 10 % 10, y2 / 10 % 10);
    DigitCharOrder(y1 % 10, y2 % 10);
    DigitCharOrder(m1 / 10, m2 / 10);
    DigitCharOrder(m1 % 10, m2 % 10);
    FourDigitsOrder(y1, y2);
    assert m1 == 10 * (m1 / 10) + m1 % 10 && m2 == 10 * (m2 / 10) + m2 % 10;
    if ka == kb {
      assert ka[0] == kb[0] && ka[1] == kb[1] && ka[2] == kb[2] && ka[3] == kb[3];
      assert ka[5] == kb[5] && ka[6] == kb[6];
    }
  }

  /** The literal `'2026-01'` is the key of January 2026. */
  lemma January2026Key()
    ensures MonthKey(YearMonth(2026, 1)) == "2026-01"
  {
    KeyChars(YearMonth(2026, 1));
  }
}
