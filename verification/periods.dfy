/** The period resolver `getDateRange`: a period token and the current date
    give the window a report covers. The window always ends at `now`. */
module Periods {
  import opened Common
  import opened Dates

  datatype DateRange = DateRange(start: Date, end: Date)

  /** `week` starts seven days back, `year` on January 1, and `month` as well
      as every unrecognised token on the first of the current month. */
  function GetDateRange(period: string, now: Date): (r: DateRange)
    requires Valid(now)
    ensures r.end == now
    ensures Valid(r.start) && Le(r.start, r.end)
  {
    var start :=
      if period == "week" then MinusDays(now, 7)
      else if period == "month" then Date(now.year, now.month, 1)
      else if period == "year" then Date(now.year, 1, 1)
      else Date(now.year, now.month, 1);
    DateRange(start, now)
  }

  /** `const { period = 'month' } = req.query`: the default applies only when
      the parameter is absent. */
  function PeriodOrDefault(period: Option<string>): (p: string)
    ensures period.None? ==> p == "month"
    ensures period.Some? ==> p == period.value
  {
    if period.Some? then period.value else "month"
  }

  /** `date >= startDate && date <= endDate`: inclusive at both ends. */
  predicate InRange(d: Date, r: DateRange)
  {
    Le(r.start, d) && Le(d, r.end)
  }

  /** A week window starts exactly seven days before `now`. */
  lemma WeekRange(now: Date)
    requires Valid(now)
    ensures var r := GetDateRange("week", now);
            Lt(r.start, now) && PlusDays(r.start, 7) == now
  {
    PlusMinusDays(now, 7);
  }

  /** A month window, and the window of any token other than `week` and
      `year`, holds exactly the dates of the current month up to `now`. */
  lemma MonthRange(period: string, now: Date, d: Date)
    requires Valid(now) && Valid(d)
    requires period != "week" && period != "year"
    ensures InRange(d, GetDateRange(period, now)) <==>
            d.year == now.year && d.month == now.month && d.day <= now.day
  {
  }

  /** A year window holds exactly the dates of the current year up to `now`. */
  lemma YearRange(now: Date, d: Date)
    requires Valid(now) && Valid(d)
    ensures InRange(d, GetDateRange("year", now)) <==> d.year == now.year && Le(d, now)
  {
  }
}
