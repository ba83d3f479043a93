/** Instants of time as the queries use them: a payment date or the clock's
    `now`, the (year, month) a timestamp falls in, and "`days` days earlier". */
module Calendar {

  /** A zoned date-time in one fixed zone offset, counted in nanoseconds since
      1970-01-01T00:00 local time. Ordering is the ordering of instants. */
  type Timestamp = int

  const NanosPerDay: int := 86_400_000_000_000

  /** A calendar date of the proleptic Gregorian (ISO) calendar. */
  datatype Date = Date(year: int, month: int, day: int)

  /** `YearMonth`: a calendar period identified by year AND month. */
  datatype YearMonth = YearMonth(year: int, month: int)

  /** Days since 1970-01-01 of a civil date (for months 1..12). */
  function DaysFromCivil(d: Date): int
  {
    var y := if d.month <= 2 then d.year - 1 else d.year;
    var era := y / 400;
    var yoe := y - era * 400;
    var mp := if d.month > 2 then d.month - 3 else d.month + 9;
    var doy := (153 * mp + 2) / 5 + d.day - 1;
    var doe := yoe * 365 + yoe / 4 - yoe / 100 + doy;
    era * 146097 + doe - 719468
  }

  /** The civil date of a day counted from 1970-01-01. Days are counted in
      400-year eras of 146097 days; each era and each of its years starts on
      a 1 March, so that the leap day ends the year. */
  function CivilFromDays(days: int): (r: Date)
    ensures 1 <= r.month <= 12 && 1 <= r.day <= 31
  {
    var z := days + 719468;
    DayOfYearRange(z % 146097);
    CivilFromDayOfEra(z / 146097, z % 146097)
  }

  /** The civil date of day `doe` (0..146096) of era `era`. */
  function CivilFromDayOfEra(era: int, doe: int): Date
  {
    var yoe := YearOfEra(doe);
    CivilFromDayOfYear(era * 400 + yoe, doe - (365 * yoe + yoe / 4 - yoe / 100))
  }

  /** The year (0..399) within its era of day `doe` of the era. */
  function YearOfEra(doe: int): int
  {
    (doe - doe / 1460 + doe / 36524 - doe / 146096) / 365
  }

  /** Every day of an era falls on day 0..365 of its year: the era splits into
      centuries `c` of 36524 days (the last has one more), four-year groups `q`
      of 1461 days (the last of a century has one less, except in the last
      century) and years `k` of 365 days, with day `d` left over. */
  lemma DayOfYearRange(doe: int)
    requires 0 <= doe < 146097
    ensures var yoe := YearOfEra(doe); 0 <= doe - (365 * yoe + yoe / 4 - yoe / 100) <= 365
  {
    var c := if doe == 146096 then 3 else doe / 36524;
    assert doe / 36524 - doe / 146096 == c;
    var r := doe - 36524 * c;
    var q := r / 1461;
    var rest := r - 1461 * q;
    var k := if rest / 365 > 3 then 3 else rest / 365;
    var d := rest - 365 * k;
    assert 0 <= c <= 3 && 0 <= q <= 24 && 0 <= k <= 3 && 0 <= d <= 365;
    // `m` is what remains of `doe` after the whole 1460-day blocks; the
    // division by 1460 overshoots by one only on the last day of a leap group
    var m := 24 * c + q + 365 * k + d;
    var x := if m >= 1460 then 1 else 0;
    assert doe == 1460 * (25 * c + q) + m;
    assert doe / 1460 == 25 * c + q + x;
    var yoe := 100 * c + 4 * q + k;
    assert doe - doe / 1460 + doe / 36524 - doe / 146096 == 365 * yoe + d - x;
    assert 0 <= d - x < 365;
    assert YearOfEra(doe) == yoe;
    assert yoe / 4 == 25 * c + q;
    assert yoe / 100 == c;
  }

  /** The civil date of day `doy` (0..365) of the March-based year `y`. */
  function CivilFromDayOfYear(y: int, doy: int): (r: Date)
    ensures 0 <= doy <= 365 ==> 1 <= r.month <= 12 && 1 <= r.day <= 31
  {
    var mp := (5 * doy + 2) / 153;
    var month := if mp < 10 then mp + 3 else mp - 9;
    Date(if month <= 2 then y + 1 else y, month, doy - (153 * mp + 2) / 5 + 1)
  }

  /** The local date-time `date` at `hour:minute:second`, as a timestamp. */
  function At(date: Date, hour: int, minute: int, second: int): Timestamp
  {
    DaysFromCivil(date) * NanosPerDay + ((hour * 60 + minute) * 60 + second) * 1_000_000_000
  }

  /** `YearMonth.from(t)`: the year and month of the local date of `t`.
      Dafny's `/` rounds toward negative infinity for a positive divisor, so
      instants before 1970 fall on the right day. */
  function YearMonthFrom(t: Timestamp): (r: YearMonth)
    ensures 1 <= r.month <= 12
  {
    var date := CivilFromDays(t / NanosPerDay);
    YearMonth(date.year, date.month)
  }

  /** `t.minusDays(days)`: the same local time `days` days earlier; with a
      fixed offset every day is exactly `NanosPerDay` long. */
  function MinusDays(t: Timestamp, days: int): Timestamp
  {
    t - days * NanosPerDay
  }

  /** `a.isAfter(b)`: `a` is a strictly later instant than `b`. */
  predicate IsAfter(a: Timestamp, b: Timestamp)
  {
    a > b
  }

  /** Going back more days gives an earlier (or the same) instant. */
  lemma MinusDaysMonotone(t: Timestamp, d1: int, d2: int)
    requires d1 <= d2
    ensures MinusDays(t, d2) <= MinusDays(t, d1)
  {
  }
}
