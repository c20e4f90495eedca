/** Calendar dates at day granularity (proleptic Gregorian calendar), their
    order, and stepping a date back or forward by whole days. */
module Dates {

  datatype Date = Date(year: int, month: int, day: int)

  predicate IsLeapYear(y: int)
  {
    y % 4 == 0 && (y % 100 != 0 || y % 400 == 0)
  }

  function DaysInMonth(y: int, m: int): (n: int)
    requires 1 <= m <= 12
    ensures 28 <= n <= 31
    ensures n == 29 <==> m == 2 && IsLeapYear(y)
  {
    if m == 2 then (if IsLeapYear(y) then 29 else 28)
    else if m == 4 || m == 6 || m == 9 || m == 11 then 30
    else 31
  }

  /** A well-formed calendar date. */
  predicate Valid(d: Date)
  {
    1 <= d.month <= 12 && 1 <= d.day <= DaysInMonth(d.year, d.month)
  }

  /** Chronological order: `a` is on or before `b`. */
  predicate Le(a: Date, b: Date)
  {
    a.year < b.year ||
    (a.year == b.year && (a.month < b.month || (a.month == b.month && a.day <= b.day)))
  }

  /** `a` is strictly before `b`. */
  predicate Lt(a: Date, b: Date)
  {
    Le(a, b) && a != b
  }

  /** The day before `d`. */
  function PrevDay(d: Date): (r: Date)
    requires Valid(d)
    ensures Valid(r) && Lt(r, d)
  {
    if d.day > 1 then Date(d.year, d.month, d.day - 1)
    else if d.month > 1 then Date(d.year, d.month - 1, DaysInMonth(d.year, d.month - 1))
    else Date(d.year - 1, 12, 31)
  }

  /** The day after `d`. */
  function NextDay(d: Date): (r: Date)
    requires Valid(d)
    ensures Valid(r) && Lt(d, r)
  {
    if d.day < DaysInMonth(d.year, d.month) then Date(d.year, d.month, d.day + 1)
    else if d.month < 12 then Date(d.year, d.month + 1, 1)
    else Date(d.year + 1, 1, 1)
  }

  /** Stepping back a day and forward a day, in either order, returns to the start. */
  lemma PrevNextInverse(d: Date)
    requires Valid(d)
    ensures NextDay(PrevDay(d)) == d
    ensures PrevDay(NextDay(d)) == d
  {
  }

  /** No valid date lies strictly between `PrevDay(d)` and `d`: the dates
      before `d` are exactly the dates on or before `PrevDay(d)`. */
  lemma PrevDayIsPredecessor(d: Date, e: Date)
    requires Valid(d) && Valid(e)
    ensures Lt(e, d) <==> Le(e, PrevDay(d))
  {
  }

  /** `d` moved `n` days into the past. */
  function MinusDays(d: Date, n: nat): (r: Date)
    requires Valid(d)
    ensures Valid(r) && Le(r, d)
    ensures n > 0 ==> Lt(r, d)
  {
    if n == 0 then d else PrevDay(MinusDays(d, n - 1))
  }

  /** `d` moved `n` days into the future. */
  function PlusDays(d: Date, n: nat): (r: Date)
    requires Valid(d)
    ensures Valid(r) && Le(d, r)
    ensures n > 0 ==> Lt(d, r)
    decreases n
  {
    if n == 0 then d else PlusDays(NextDay(d), n - 1)
  }

  /** Going `n` days back and then `n` days forward returns to the start. */
  lemma {:induction false} PlusMinusDays(d: Date, n: nat)
    requires Valid(d)
    ensures PlusDays(MinusDays(d, n), n) == d
  {
    if n > 0 {
      var m := MinusDays(d, n - 1);
      PrevNextInverse(m);
      PlusMinusDays(d, n - 1);
    }
  }

  /** `Le` is a total order on dates. */
  lemma LeIsTotalOrder()
    ensures forall a, b :: Le(a, b) || Le(b, a)
    ensures forall a, b :: Le(a, b) && Le(b, a) ==> a == b
    ensures forall a, b, c :: Le(a, b) && Le(b, c) ==> Le(a, c)
  {
  }
}
