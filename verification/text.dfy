/** The string operations the handlers use: `toLowerCase`, `includes`,
    `localeCompare`, number-to-string conversion and `padStart`. */
module Text {
  import opened Dates

  /** `toLowerCase` on one character (ASCII letters). */
  function LowerChar(c: char): char
  {
    if 'A' <= c <= 'Z' then (c as int + 32) as char else c
  }

  function ToLower(s: string): (r: string)
    ensures |r| == |s|
    ensures forall i :: 0 <= i < |s| ==> r[i] == LowerChar(s[i])
  {
    if s == [] then [] else [LowerChar(s[0])] + ToLower(s[1..])
  }

  /** Lower-casing twice is lower-casing once. */
  lemma ToLowerIdempotent(s: string)
    ensures ToLower(ToLower(s)) == ToLower(s)
  {
    assert forall i :: 0 <= i < |s| ==> ToLower(ToLower(s))[i] == ToLower(s)[i];
  }

  /** `needle` occurs in `hay` starting at index `i`. */
  predicate OccursAt(hay: string, needle: string, i: int)
  {
    0 <= i && i + |needle| <= |hay| && hay[i..i + |needle|] == needle
  }

  /** `hay.includes(needle)`. */
  predicate Includes(hay: string, needle: string)
  {
    exists i :: 0 <= i <= |hay| - |needle| && OccursAt(hay, needle, i)
  }

  /** `a.localeCompare(b) <= 0`, taken as code-point lexicographic order. */
  predicate LexLe(a: string, b: string)
  {
    a == [] || (b != [] && (a[0] < b[0] || (a[0] == b[0] && LexLe(a[1..], b[1..]))))
  }

  lemma {:induction false} LexLeTotal(a: string, b: string)
    ensures LexLe(a, b) || LexLe(b, a)
  {
    if a != [] && b != [] && a[0] == b[0] {
      LexLeTotal(a[1..], b[1..]);
    }
  }

  lemma {:induction false} LexLeAntisymmetric(a: string, b: string)
    requires LexLe(a, b) && LexLe(b, a)
    ensures a == b
  {
    if a != [] {
      LexLeAntisymmetric(a[1..], b[1..]);
      assert a == [a[0]] + a[1..] && b == [b[0]] + b[1..];
    }
  }

  lemma {:induction false} LexLeTransitive(a: string, b: string, c: string)
    requires LexLe(a, b) && LexLe(b, c)
    ensures LexLe(a, c)
  {
    if a != [] && a[0] == b[0] && b[0] == c[0] {
      LexLeTransitive(a[1..], b[1..], c[1..]);
    }
  }

  function Digit(d: int): char
    requires 0 <= d <= 9
  {
    ('0' as int + d) as char
  }

  /** The decimal numeral of `n`, without leading zeros. */
  function Decimal(n: nat): (s: string)
    ensures |s| >= 1
  {
    if n < 10 then [Digit(n)] else Decimal(n / 10) + [Digit(n % 10)]
  }

  /** `String(n)` of an integer. */
  function IntText(n: int): string
  {
    if n < 0 then "-" + Decimal(-n) else Decimal(n)
  }

  /** `String(m).padStart(2, '0')`. */
  function Pad2(m: int): string
  {
    var s := IntText(m);
    if |s| < 2 then "0" + s else s
  }

  /** The `YYYY-MM` key the category comparison files a date under:
      `${getFullYear()}-${String(getMonth() + 1).padStart(2, '0')}`. */
  function MonthKey(d: Date): string
  {
    IntText(d.year) + "-" + Pad2(d.month)
  }

  /** For a four-digit year the key is exactly seven characters: the year's
      digits, a dash, and the month as two digits with a leading zero. */
  lemma MonthKeyFormat(d: Date)
    requires Valid(d) && 1000 <= d.year <= 9999
    ensures MonthKey(d) == [Digit(d.year / 1000), Digit(d.year / 100 % 10), Digit(d.year / 10 % 10),
                            Digit(d.year % 10), '-', Digit(d.month / 10), Digit(d.month % 10)]
  {
    var y := d.year;
    assert Decimal(y / 1000) == [Digit(y / 1000)];
    assert Decimal(y / 100) == [Digit(y / 1000), Digit(y / 100 % 10)] by {
      assert y / 100 / 10 == y / 1000;
    }
    assert Decimal(y / 10) == [Digit(y / 1000), Digit(y / 100 % 10), Digit(y / 10 % 10)] by {
      assert y / 10 / 10 == y / 100;
    }
    if d.month >= 10 {
      assert Decimal(d.month) == [Digit(1), Digit(d.month % 10)];
    }
  }

  /** Two dates with four-digit years get the same key only when they fall in
      the same month of the same year. */
  lemma MonthKeyInjective(a: Date, b: Date)
    requires Valid(a) && 1000 <= a.year <= 9999
    requires Valid(b) && 1000 <= b.year <= 9999
    requires MonthKey(a) == MonthKey(b)
    ensures a.year == b.year && a.month == b.month
  {
    MonthKeyFormat(a);
    MonthKeyFormat(b);
    var ka, kb := MonthKey(a), MonthKey(b);
    assert ka[0] == kb[0] && ka[1] == kb[1] && ka[2] == kb[2] && ka[3] == kb[3];
    assert ka[5] == kb[5] && ka[6] == kb[6];
    DigitInjective(a.year / 1000, b.year / 1000);
    DigitInjective(a.year / 100 % 10, b.year / 100 % 10);
    DigitInjective(a.year / 10 % 10, b.year / 10 % 10);
    DigitInjective(a.year % 10, b.year % 10);
    DigitInjective(a.month / 10, b.month / 10);
    DigitInjective(a.month % 10, b.month % 10);
    FourDigits(a.year);
    FourDigits(b.year);
  }

  lemma DigitInjective(x: int, y: int)
    requires 0 <= x <= 9 && 0 <= y <= 9
    requires Digit(x) == Digit(y)
    ensures x == y
  {
  }

  lemma FourDigits(y: int)
    requires 1000 <= y <= 9999
    ensures y == 1000 * (y / 1000) + 100 * (y / 100 % 10) + 10 * (y / 10 % 10) + y % 10
  {
    var a, b := y / 10, y / 100;
    assert y == 10 * a + y % 10;
    assert a / 10 == b;
    assert a == 10 * b + a % 10;
    assert b / 10 == y / 1000;
    assert b == 10 * (y / 1000) + b % 10;
  }
}
