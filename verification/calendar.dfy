/** Dates and the current time as the workflow uses them: naive local
    `datetime` values, differences taken with `timedelta.days` (a floor),
    and `weekday()` for the market-day gate. */
module Calendar {

  /** Microseconds in a day: the resolution of `datetime`. */
  const MicrosPerDay: int := 86_400_000_000

  /** The current time: the proleptic Gregorian ordinal of today
      (`date.toordinal()`, 1 for 0001-01-01) and the microseconds elapsed
      since midnight. A parsed `%Y-%m-%d` date is midnight of its ordinal. */
  datatype Now = Now(ordinal: int, micros: int)

  predicate Valid(now: Now) {
    1 <= now.ordinal && 0 <= now.micros < MicrosPerDay
  }

  /** `(date_at_midnight - now).days` for the date with ordinal `day`. */
  function DaysUntil(day: int, now: Now): int {
    ((day - now.ordinal) * MicrosPerDay - now.micros) / MicrosPerDay
  }

  /** `(now - date_at_midnight).days` for the date with ordinal `day`. */
  function DaysSince(day: int, now: Now): int {
    ((now.ordinal - day) * MicrosPerDay + now.micros) / MicrosPerDay
  }

  /** The earnings difference is the calendar difference, minus one as soon
      as any time of today has passed. */
  lemma DaysUntilByCalendar(day: int, now: Now)
    requires Valid(now)
    ensures DaysUntil(day, now) == day - now.ordinal - (if now.micros > 0 then 1 else 0)
  {
  }

  /** The rating age is exactly the calendar difference; the time of day
      never matters. */
  lemma DaysSinceByCalendar(day: int, now: Now)
    requires Valid(now)
    ensures DaysSince(day, now) == now.ordinal - day
  {
  }

  /** The earnings window test `0 <= days_until <= 7`. */
  predicate InEarningsWindow(day: int, now: Now) {
    0 <= DaysUntil(day, now) <= 7
  }

  /** The earnings window in calendar days: today to today+7 at exactly
      midnight, but tomorrow to today+8 at any later time of day. */
  lemma EarningsWindowByCalendar(day: int, now: Now)
    requires Valid(now)
    ensures InEarningsWindow(day, now) <==>
              if now.micros == 0 then now.ordinal <= day <= now.ordinal + 7
              else now.ordinal + 1 <= day <= now.ordinal + 8
  {
  }

  /** The rating recency test `days_since <= 3`. */
  predicate RecentRating(day: int, now: Now) {
    DaysSince(day, now) <= 3
  }

  /** A rating is recent iff it is dated at most three days ago; every
      future date is recent too. */
  lemma RecentRatingByCalendar(day: int, now: Now)
    requires Valid(now)
    ensures RecentRating(day, now) <==> day >= now.ordinal - 3
  {
  }

  /** `weekday()`: Monday is 0 and Sunday is 6; ordinal 1 was a Monday. */
  function Weekday(ordinal: int): (w: int)
    ensures 0 <= w < 7
  {
    (ordinal + 6) % 7
  }

  /** `is_market_day`: Monday to Friday. */
  predicate IsMarketDay(now: Now) {
    Weekday(now.ordinal) < 5
  }

  /** The gate follows the calendar: 2024-01-01 (ordinal 738886) was a
      Monday, and after any Friday come two closed days and then a market
      day again. */
  lemma MarketWeek(friday: int)
    requires Weekday(friday) == 4
    ensures Weekday(738886) == 0
    ensures IsMarketDay(Now(friday, 0))
    ensures !IsMarketDay(Now(friday + 1, 0)) && !IsMarketDay(Now(friday + 2, 0))
    ensures IsMarketDay(Now(friday + 3, 0))
  {
  }
}
