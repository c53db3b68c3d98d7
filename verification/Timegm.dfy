/** timegm of components/libwebsockets/lws_timegm.c: the loops over the years against the closed form of
    the Gregorian calendar. */
module Timegm {
  import opened Common

  /** struct tm: the year counts from 1900, the month from 0. */
  datatype Tm = Tm(year: int, mon: int, mday: int, hour: int, min: int, sec: int)

  // ---------------------------------------------------------------- the calendar

  predicate IsLeap(y: int) { (y % 4 == 0 && y % 100 != 0) || y % 400 == 0 }

  function Leap(y: int): int { if IsLeap(y) then 1 else 0 }

  /** How many leap years there are up to y, from a fixed year on. */
  function LeapsUpTo(y: int): int { y / 4 - y / 100 + y / 400 }

  /** Days from the start of 1970 to the start of year y, negative before. */
  function DaysToYear(y: int): int { 365 * (y - 1970) + LeapsUpTo(y - 1) - LeapsUpTo(1969) }

  lemma LeapCounts(y: int)
    ensures LeapsUpTo(y) - LeapsUpTo(y - 1) == Leap(y)
  {
    Crosses(y, 4);
    Crosses(y, 100);
    Crosses(y, 400);
    Nested(y, 4, 25);
    Nested(y, 100, 4);
  }

  lemma Nested(y: int, n: nat, k: nat)
    requires n > 0 && k > 0
    ensures n * k > 0 && (y % (n * k) == 0 ==> y % n == 0)
  {
    assert n * k >= n;
    if y % (n * k) == 0 {
      var q := y / (n * k);
      assert y == q * (n * k) == (q * k) * n;
      Divides(y, n, q * k, 0);
    }
  }

  lemma Crosses(y: int, n: nat)
    requires n > 0
    ensures y / n - (y - 1) / n == if y % n == 0 then 1 else 0
  {
    var q, r := (y - 1) / n, (y - 1) % n;
    assert y == q * n + (r + 1);
    if r + 1 == n { Divides(y, n, q + 1, 0); } else { Divides(y, n, q, r + 1); }
  }

  lemma Divides(y: int, n: nat, q: int, r: int)
    requires n > 0 && y == q * n + r && 0 <= r < n
    ensures y / n == q && y % n == r
  {
    var d := y / n - q;
    assert d * n == r - y % n;
    Multiple(d, n);
  }

  lemma Multiple(d: int, n: nat)
    ensures (d >= 1 ==> d * n >= n) && (d <= -1 ==> d * n <= 0 - n)
  {}

  lemma NextYear(y: int)
    ensures DaysToYear(y + 1) == DaysToYear(y) + 365 + Leap(y)
  {
    LeapCounts(y);
  }

  /** Days before month m in a year that is not a leap year. */
  const MDAYS_CUM: seq<int> := [0, 31, 59, 90, 120, 151, 181, 212, 243, 273, 304, 334]

  function MonthLength(y: int, m: int): int
    requires 0 <= m < 12
  {
    if m == 1 then 28 + Leap(y) else if m == 3 || m == 5 || m == 8 || m == 10 then 30 else 31
  }

  /** Days before month m of year y. */
  function DaysToMonth(y: int, m: int): int
    requires 0 <= m <= 12
    decreases m
  {
    if m == 0 then 0 else DaysToMonth(y, m - 1) + MonthLength(y, m - 1)
  }

  /** The table is the lengths of the months summed up, with the leap day behind February. */
  lemma TableIsMonths(y: int, m: int)
    requires 0 <= m < 12
    ensures DaysToMonth(y, m) == MDAYS_CUM[m] + (if m > 1 then Leap(y) else 0)
    decreases m
  {}

  lemma YearIsMonths(y: int)
    ensures DaysToMonth(y, 12) == 365 + Leap(y)
  {}

  /** The number of a day, 0 for the first of January 1970. */
  function DayNumber(y: int, m: int, d: int): int
    requires 0 <= m < 12
  {
    DaysToYear(y) + DaysToMonth(y, m) + d - 1
  }

  function Seconds(y: int, m: int, d: int, hour: int, min: int, sec: int): int
    requires 0 <= m < 12
  {
    DayNumber(y, m, d) * 86400 + hour * 3600 + min * 60 + sec
  }

  // ---------------------------------------------------------------- the code

  /** Division and remainder that truncate toward zero. */
  function Quot(a: int, b: nat): int
    requires b > 0
  {
    if a >= 0 then a / b else -((-a) / b)
  }

  function Rem(a: int, b: nat): int
    requires b > 0
  {
    a - Quot(a, b) * b
  }

  /** The year and the month after the adjustment of a month outside 0..11. */
  function Adjusted(year: int, mon: int): (int, int) {
    if mon < 0 then (year + Quot(mon - 11, 12), 12 + Rem(mon, 12))
    else if mon > 11 then (year + Quot(mon, 12), Rem(mon, 12))
    else (year, mon)
  }

  /** The adjustment gives the month it should, in the year it should, if and only if the month is not a
      negative multiple of 12: those become a month 12, behind the end of the table. */
  lemma AdjustedIfAndOnlyIf(year: int, mon: int)
    ensures Adjusted(year, mon) == (year + mon / 12, mon % 12) <==> !(mon < 0 && mon % 12 == 0)
    ensures 0 <= Adjusted(year, mon).1 < 12 <==> !(mon < 0 && mon % 12 == 0)
    ensures mon < 0 && mon % 12 == 0 ==> Adjusted(year, mon).1 == 12
  {
    if mon < 0 {
      var q, r := mon / 12, mon % 12;
      assert -mon == -q * 12 - r && 0 <= r < 12;
      if r == 0 {
        Divides(-mon, 12, -q, 0);
        Divides(-(mon - 11), 12, -q, 11);
      } else {
        Divides(-mon, 12, -q - 1, 12 - r);
        Divides(-(mon - 11), 12, -q, 11 - r);
      }
    }
  }

  /** January 1969, given as month -12 of 1970, becomes month 12 of 1969. */
  lemma NegativeMultipleExample()
    ensures Adjusted(1970, -12) == (1969, 12)
  {}

  /** timegm; None where it reads behind its table of months. */
  method Timegm(tm: Tm) returns (time: Option<int>)
    ensures time.None? <==> tm.mon < 0 && tm.mon % 12 == 0
    ensures time.Some? ==>
      time.value == Seconds(tm.year + 1900 + tm.mon / 12, tm.mon % 12, tm.mday, tm.hour, tm.min, tm.sec)
  {
    var year, month := tm.year + 1900, tm.mon;
    AdjustedIfAndOnlyIf(year, month);
    if month < 0 {
      year := year + Quot(month - 11, 12);
      month := 12 + Rem(month, 12);
    } else if month > 11 {
      year := year + Quot(month, 12);
      month := Rem(month, 12);
    }
    var days := 0;
    if year >= 1970 {
      var y := 1970;
      while y < year
        invariant 1970 <= y <= year && days == DaysToYear(y)
      {
        NextYear(y);
        days := days + 365 + Leap(y);
        y := y + 1;
      }
    } else {
      var y := year;
      while y < 1970
        invariant year <= y <= 1970 && days == DaysToYear(year) - DaysToYear(y)
      {
        NextYear(y);
        days := days - (365 + Leap(y));
        y := y + 1;
      }
    }
    if month > 11 { return None; }
    TableIsMonths(year, month);
    days := days + MDAYS_CUM[month];
    if month > 1 && IsLeap(year) { days := days + 1; }
    days := days + (tm.mday - 1);
    time := Some(days * 86400 + tm.hour * 3600 + tm.min * 60 + tm.sec);
  }

  // ---------------------------------------------------------------- what the count means

  /** From 1970 on it is the formula of section 4.16 of the Base Definitions of POSIX.1-2017, where the
      year counts from 1900 and yday from 0. */
  lemma PosixFormula(year: int, m: int, d: int, hour: int, min: int, sec: int)
    requires year >= 70 && 0 <= m < 12
    ensures var yday := DaysToMonth(year + 1900, m) + d - 1;
      Seconds(year + 1900, m, d, hour, min, sec) ==
        sec + min * 60 + hour * 3600 + yday * 86400 + (year - 70) * 31536000
        + ((year - 69) / 4) * 86400 - ((year - 1) / 100) * 86400 + ((year + 299) / 400) * 86400
  {
    var y := year + 1899;
    Divides(y, 4, (year - 69) / 4 + 492, (year - 69) % 4);
    Divides(y, 100, (year - 1) / 100 + 19, (year - 1) % 100);
    Divides(y, 400, (year + 299) / 400 + 4, (year + 299) % 400);
  }

  /** A time of the calendar, without leap seconds. */
  predicate Valid(t: Tm) {
    0 <= t.mon < 12 && 1 <= t.mday <= MonthLength(t.year + 1900, t.mon) && 0 <= t.hour < 24 && 0 <= t.min < 60 && 0 <= t.sec < 60
  }

  function Time(t: Tm): int
    requires Valid(t)
  {
    Seconds(t.year + 1900, t.mon, t.mday, t.hour, t.min, t.sec)
  }

  predicate Before(t: Tm, u: Tm) {
    || t.year < u.year || (t.year == u.year && (t.mon < u.mon || (t.mon == u.mon && (t.mday < u.mday
    || (t.mday == u.mday && (t.hour < u.hour || (t.hour == u.hour && (t.min < u.min || (t.min == u.min && t.sec < u.sec)))))))))
  }

  lemma {:induction false} MonthsGrow(y: int, m: int, m': int)
    requires 0 <= m < m' <= 12
    ensures DaysToMonth(y, m) + MonthLength(y, m) <= DaysToMonth(y, m')
    decreases m'
  {
    if m < m' - 1 { MonthsGrow(y, m, m' - 1); }
  }

  lemma {:induction false} YearsGrow(y: int, y': int)
    requires y < y'
    ensures DaysToYear(y) + 365 + Leap(y) <= DaysToYear(y')
    decreases y' - y
  {
    NextYear(y' - 1);
    if y < y' - 1 { YearsGrow(y, y' - 1); }
  }

  /** A day lies within its year. */
  lemma DayInYear(y: int, m: int, d: int)
    requires 0 <= m < 12 && 1 <= d <= MonthLength(y, m)
    ensures DaysToYear(y) <= DayNumber(y, m, d) < DaysToYear(y) + 365 + Leap(y)
  {
    MonthsGrow(y, m, 12);
    if m > 0 { MonthsGrow(y, 0, m); }
    YearIsMonths(y);
    hide DaysToYear, DaysToMonth;
    assert DaysToMonth(y, 0) == 0 by { NoMonth(y); }
  }

  lemma NoMonth(y: int)
    ensures DaysToMonth(y, 0) == 0
  {}

  lemma DaysGrow(y: int, m: int, d: int, y': int, m': int, d': int)
    requires 0 <= m < 12 && 1 <= d <= MonthLength(y, m) && 0 <= m' < 12 && 1 <= d' <= MonthLength(y', m')
    requires y < y' || (y == y' && (m < m' || (m == m' && d < d')))
    ensures DayNumber(y, m, d) < DayNumber(y', m', d')
  {
    if y < y' {
      DayInYear(y, m, d);
      DayInYear(y', m', d');
      YearsGrow(y, y');
      hide DayNumber, DaysToYear;
    } else {
      if m < m' { MonthsGrow(y, m, m'); }
      hide DaysToYear, DaysToMonth;
    }
  }

  /** Over the times of the calendar the result grows strictly ... */
  lemma TimeGrows(t: Tm, u: Tm)
    requires Valid(t) && Valid(u) && Before(t, u)
    ensures Time(t) < Time(u)
  {
    if t.year != u.year || t.mon != u.mon || t.mday != u.mday {
      DaysGrow(t.year + 1900, t.mon, t.mday, u.year + 1900, u.mon, u.mday);
    }
    hide DayNumber;
  }

  /** ... so different times have different results. */
  lemma TimeInjective(t: Tm, u: Tm)
    requires Valid(t) && Valid(u) && Time(t) == Time(u)
    ensures t == u
  {
    if t != u {
      if Before(t, u) { TimeGrows(t, u); } else { TimeGrows(u, t); }
    }
    hide Time;
  }

  /** The day after a day of the calendar. */
  function NextDay(y: int, m: int, d: int): (int, int, int)
    requires 0 <= m < 12 && 1 <= d <= MonthLength(y, m)
  {
    if d < MonthLength(y, m) then (y, m, d + 1) else if m < 11 then (y, m + 1, 1) else (y + 1, 0, 1)
  }

  /** The first of January 1970 is day 0 and every day is one more than the day before it, on both sides
      of 1970. */
  lemma CountsDays(y: int, m: int, d: int)
    requires 0 <= m < 12 && 1 <= d <= MonthLength(y, m)
    ensures DayNumber(1970, 0, 1) == 0
    ensures var n := NextDay(y, m, d); DayNumber(n.0, n.1, n.2) == DayNumber(y, m, d) + 1
  {
    NextYear(y);
    YearIsMonths(y);
    NoMonth(y + 1);
    NoMonth(1970);
    assert DaysToYear(1970) == 0;
    hide DaysToYear;
  }
}
