/** Wall-clock arithmetic on epoch milliseconds, standing in for
    `java.util.Calendar` with one fixed time-zone offset: days are always
    86 400 000 ms long, hours 3 600 000 ms, and the calendar is the proleptic
    Gregorian one. */
module Clock {

  const MINUTE: int := 60_000
  const HOUR: int := 3_600_000
  const DAY: int := 86_400_000

  /** The device's time zone, as a fixed offset from UTC in milliseconds. */
  const ZoneOffset: int := 0

  /** Milliseconds since 1970-01-01 00:00 local time. */
  function LocalTime(t: int): int {
    t + ZoneOffset
  }

  /** The local calendar day of `t`, counted from 1970-01-01. */
  function EpochDay(t: int): int {
    LocalTime(t) / DAY
  }

  /** `Calendar.HOUR_OF_DAY`. */
  function HourOfDay(t: int): (h: int)
    ensures 0 <= h < 24
  {
    (LocalTime(t) % DAY) / HOUR
  }

  /** `Calendar.MINUTE`. */
  function MinuteOfHour(t: int): (m: int)
    ensures 0 <= m < 60
  {
    (LocalTime(t) % HOUR) / MINUTE
  }

  /** `Calendar.DAY_OF_WEEK`: Sunday = 1 ... Saturday = 7; 1970-01-01 was a
      Thursday (5). */
  function Weekday(t: int): (w: int)
    ensures 1 <= w <= 7
  {
    (EpochDay(t) + 4) % 7 + 1
  }

  /** The weekday `j` days after weekday `w`. */
  function ShiftWeekday(w: int, j: int): (r: int)
    ensures 1 <= r <= 7
  {
    (w - 1 + j) % 7 + 1
  }

  /** Hour, minute, day and the rest put `t` back together. */
  lemma TimeOfDayParts(t: int)
    ensures LocalTime(t) == EpochDay(t) * DAY + HourOfDay(t) * HOUR
                            + MinuteOfHour(t) * MINUTE + LocalTime(t) % MINUTE
    ensures 0 <= LocalTime(t) % MINUTE < MINUTE
  {
    var x := LocalTime(t);
    var r := x % DAY;
    assert x == EpochDay(t) * DAY + r;
    var h := r / HOUR;
    var r2 := r % HOUR;
    assert r == h * HOUR + r2;
    assert x % HOUR == r2 by {
      assert x == (EpochDay(t) * 24 + h) * HOUR + r2;
      DivModUnique(x, HOUR, EpochDay(t) * 24 + h, r2);
    }
    var m := r2 / MINUTE;
    assert r2 == m * MINUTE + r2 % MINUTE;
    assert x % MINUTE == r2 % MINUTE by {
      assert x == ((EpochDay(t) * 24 + h) * 60 + m) * MINUTE + r2 % MINUTE;
      DivModUnique(x, MINUTE, (EpochDay(t) * 24 + h) * 60 + m, r2 % MINUTE);
    }
  }

  /** Euclidean division is unique. */
  lemma DivModUnique(x: int, d: int, q: int, r: int)
    requires d > 0 && x == q * d + r && 0 <= r < d
    ensures x / d == q && x % d == r
  {
    var q', r' := x / d, x % d;
    assert x == q' * d + r';
    if q' > q {
      MulMonotone(q + 1, q', d);
    } else if q' < q {
      MulMonotone(q' + 1, q, d);
    }
  }

  lemma MulMonotone(a: int, b: int, d: int)
    requires a <= b && d > 0
    ensures a * d <= b * d
  {
    assert b * d - a * d == (b - a) * d;
  }

  /** Adding whole days moves the local day by that many and keeps the time of day. */
  lemma EpochDayAfterDays(t: int, j: int)
    ensures EpochDay(t + j * DAY) == EpochDay(t) + j
    ensures HourOfDay(t + j * DAY) == HourOfDay(t)
    ensures MinuteOfHour(t + j * DAY) == MinuteOfHour(t)
  {
    var x := LocalTime(t);
    var x' := LocalTime(t + j * DAY);
    assert x' == x + j * DAY;
    var q, r := x / DAY, x % DAY;
    assert x' == (q + j) * DAY + r;
    DivModUnique(x', DAY, q + j, r);
    var qh, rh := x / HOUR, x % HOUR;
    assert x' == (qh + 24 * j) * HOUR + rh;
    DivModUnique(x', HOUR, qh + 24 * j, rh);
  }

  /** `j` days after `t` the weekday has moved on `j` places, cyclically. */
  lemma WeekdayAfterDays(t: int, j: int)
    ensures Weekday(t + j * DAY) == ShiftWeekday(Weekday(t), j)
  {
    EpochDayAfterDays(t, j);
    var e := EpochDay(t);
    DivModUnique(e + 4, 7, (e + 4) / 7, (e + 4) % 7);
    var w := (e + 4) % 7;
    // (e + 4 + j) % 7 == (w + j) % 7
    DivModUnique(e + 4 + j, 7, (e + 4) / 7 + (w + j) / 7, (w + j) % 7);
  }

  // ---- the calendar date ----

  datatype Date = Date(year: int, month: int, day: int)

  predicate IsLeapYear(y: int) {
    y % 4 == 0 && (y % 100 != 0 || y % 400 == 0)
  }

  function DaysInMonth(y: int, m: int): int
    requires 1 <= m <= 12
  {
    if m == 2 then (if IsLeapYear(y) then 29 else 28)
    else if m == 4 || m == 6 || m == 9 || m == 11 then 30
    else 31
  }

  /** The days from 0000-03-01 to 1970-01-01. */
  const EpochShift: int := 719_468

  /** A day counted in March-based years: the 400-year era, the year of the
      era (0..399, starting on 1 March) and the day of that year (0..365). */
  datatype EraDay = EraDay(era: int, yoe: int, doy: int)

  /** The days before year `yoe` of an era: 365 a year, plus a leap day every
      fourth year except at whole centuries. */
  function YearStart(yoe: int): int {
    365 * yoe + yoe / 4 - yoe / 100
  }

  /** Splits a day number into era, year and day of year: 146 097 days in
      400 years, 36 524 in a century without its leap day, 1461 in four years
      with one. */
  function SplitDays(z: int): (p: EraDay)
    ensures 0 <= p.yoe <= 399 && 0 <= p.doy <= 365
    ensures 146_097 * p.era + YearStart(p.yoe) + p.doy == z + EpochShift
    ensures p.doy == 365 ==> IsLeapYear(400 * p.era + p.yoe + 1)
  {
    var n := z + EpochShift;
    var era := n / 146_097;
    var doe := n % 146_097;
    var c := if doe / 36_524 < 3 then doe / 36_524 else 3;
    var doc := doe - 36_524 * c;
    var b := doc / 1461;
    var dob := doc % 1461;
    var y4 := if dob / 365 < 3 then dob / 365 else 3;
    var doy := dob - 365 * y4;
    var yoe := 100 * c + 4 * b + y4;
    YearStartParts(c, b, y4);
    LeapDay(era, c, b, y4, doc, dob, doy);
    EraDay(era, yoe, doy)
  }

  lemma YearStartParts(c: int, b: int, y4: int)
    requires 0 <= c <= 3 && 0 <= b <= 24 && 0 <= y4 <= 3
    ensures YearStart(100 * c + 4 * b + y4) == 36_524 * c + 1461 * b + 365 * y4
  {
    var yoe := 100 * c + 4 * b + y4;
    DivModUnique(yoe, 4, 25 * c + b, y4);
    DivModUnique(yoe, 100, c, 4 * b + y4);
  }

  /** Day 365 of a March-based year (29 February) falls only in a leap year. */
  lemma LeapDay(era: int, c: int, b: int, y4: int, doc: int, dob: int, doy: int)
    requires 0 <= c <= 3 && 0 <= doc <= 36_524 && (c < 3 ==> doc < 36_524)
    requires doc == 1461 * b + dob && 0 <= dob < 1461
    requires y4 == (if dob / 365 < 3 then dob / 365 else 3) && doy == dob - 365 * y4
    ensures 0 <= b <= 24 && 0 <= y4 <= 3 && 0 <= doy <= 365
    ensures doy == 365 ==> IsLeapYear(400 * era + 100 * c + 4 * b + y4 + 1)
  {
    if doy == 365 {
      assert y4 == 3 && dob == 1460;
      var year := 400 * era + 100 * c + 4 * b + 4;
      if b == 24 {
        assert c == 3;
        assert year == 400 * (era + 1);
      } else {
        DivModUnique(year, 4, 100 * era + 25 * c + b + 1, 0);
        DivModUnique(year, 100, 4 * era + c, 4 * (b + 1));
      }
    }
  }

  /** The month (March = 0) in which day `doy` of a March-based year falls,
      and the day of that month. */
  function MonthOfYearDay(doy: int): (md: (int, int))
    requires 0 <= doy <= 365
    ensures 0 <= md.0 <= 11 && 1 <= md.1 <= 31
    ensures (153 * md.0 + 2) / 5 + md.1 - 1 == doy
    ensures md.0 == 11 ==> md.1 <= 28 || (md.1 == 29 && doy == 365)
    ensures md.0 in {1, 3, 6, 8} ==> md.1 <= 30
  {
    var mp := (5 * doy + 2) / 153;
    (mp, doy - (153 * mp + 2) / 5 + 1)
  }

  /** The local calendar date of day number `z` (days since 1970-01-01). */
  function CivilFromDays(z: int): (d: Date)
    ensures 1 <= d.month <= 12
    ensures 1 <= d.day <= DaysInMonth(d.year, d.month)
  {
    var p := SplitDays(z);
    var md := MonthOfYearDay(p.doy);
    var month := if md.0 < 10 then md.0 + 3 else md.0 - 9;
    var year := 400 * p.era + p.yoe + (if month <= 2 then 1 else 0);
    Date(year, month, md.1)
  }

  /** The inverse of `CivilFromDays`: the day number of a date. */
  function DaysFromCivil(d: Date): int
    requires 1 <= d.month <= 12
  {
    var y := if d.month <= 2 then d.year - 1 else d.year;
    var era := y / 400;
    var yoe := y - 400 * era;
    var mp := if d.month > 2 then d.month - 3 else d.month + 9;
    var doy := (153 * mp + 2) / 5 + d.day - 1;
    146_097 * era + YearStart(yoe) + doy - EpochShift
  }

  /** The date computed for a day number names that same day again. */
  lemma DaysFromCivilFromDays(z: int)
    ensures DaysFromCivil(CivilFromDays(z)) == z
  {
    var p := SplitDays(z);
    DivModUnique(400 * p.era + p.yoe, 400, p.era, p.yoe);
  }
}
