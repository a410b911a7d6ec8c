/** What `_format_iso_date` (python/icloudbridge.py:596-598) is meant to print, as opposed
    to what it prints: the instant the `datetime` denotes, converted to UTC, so that the
    trailing `Z` is true. The calendar is the proleptic Gregorian one Python's `datetime`
    uses, from 0001-01-01 to 9999-12-31. */
module UtcDates {
  import opened Wrappers
  import opened IsoDates

  predicate IsLeap(y: int) {
    y % 4 == 0 && (y % 100 != 0 || y % 400 == 0)
  }

  function YearLength(y: int): int {
    if IsLeap(y) then 366 else 365
  }

  function DaysInMonth(y: int, m: Month): (n: int)
    ensures 28 <= n <= 31
  {
    if m == 2 then (if IsLeap(y) then 29 else 28)
    else if m == 4 || m == 6 || m == 9 || m == 11 then 30
    else 31
  }

  /** A date that exists: Python's `datetime` cannot hold any other. */
  predicate ValidDate(dt: DateTime) {
    dt.day <= DaysInMonth(dt.year, dt.month)
  }

  /** Days from 0001-01-01 to the first of January of `y`. */
  function DaysBeforeYear(y: Year): nat
    decreases y
  {
    if y == 1 then 0 else DaysBeforeYear(y - 1) + YearLength(y - 1)
  }

  /** Days from the first of January of `y` to the first of month `m`. */
  function DaysBeforeMonth(y: Year, m: Month): nat
    decreases m
  {
    if m == 1 then 0 else DaysBeforeMonth(y, m - 1) + DaysInMonth(y, m - 1)
  }

  /** The twelve months fill the year. */
  lemma DaysBeforeDecember(y: Year)
    ensures DaysBeforeMonth(y, 12) + 31 == YearLength(y)
  {
    var feb := DaysInMonth(y, 2);
    assert DaysBeforeMonth(y, 2) == 31;
    assert DaysBeforeMonth(y, 3) == 31 + feb;
    assert DaysBeforeMonth(y, 4) == 62 + feb;
    assert DaysBeforeMonth(y, 5) == 92 + feb;
    assert DaysBeforeMonth(y, 6) == 123 + feb;
    assert DaysBeforeMonth(y, 7) == 153 + feb;
    assert DaysBeforeMonth(y, 8) == 184 + feb;
    assert DaysBeforeMonth(y, 9) == 215 + feb;
    assert DaysBeforeMonth(y, 10) == 245 + feb;
    assert DaysBeforeMonth(y, 11) == 276 + feb;
    assert DaysBeforeMonth(y, 12) == 306 + feb;
  }

  /** The number of a day, counting 0001-01-01 as day 0. */
  function DayNumber(y: Year, m: Month, d: Day): int {
    DaysBeforeYear(y) + DaysBeforeMonth(y, m) + d - 1
  }

  function OffsetOf(dt: DateTime): int {
    if dt.utcOffsetMinutes.Some? then dt.utcOffsetMinutes.value else 0
  }

  /** The instant a `datetime` denotes, in seconds from 0001-01-01T00:00:00 UTC. An aware
      value is taken at its offset, a naive one as UTC. */
  function Instant(dt: DateTime): int {
    ((DayNumber(dt.year, dt.month, dt.day) * 24 + dt.hour) * 60 + dt.minute - OffsetOf(dt)) * 60 + dt.second
  }

  datatype Civil = Civil(year: Year, month: Month, day: Day)

  /** The day after a valid date; `None` after 9999-12-31. */
  function NextDay(y: Year, m: Month, d: Day): (n: Option<Civil>)
    requires d <= DaysInMonth(y, m)
    ensures n.None? <==> y == 9999 && m == 12 && d == 31
    ensures n.Some? ==> n.value.day <= DaysInMonth(n.value.year, n.value.month)
    ensures n.Some? ==> DayNumber(n.value.year, n.value.month, n.value.day) == DayNumber(y, m, d) + 1
  {
    if d < DaysInMonth(y, m) then Some(Civil(y, m, d + 1))
    else if m < 12 then Some(Civil(y, m + 1, 1))
    else if y < 9999 then
      DaysBeforeDecember(y);
      Some(Civil(y + 1, 1, 1))
    else None
  }

  /** The day before a valid date; `None` before 0001-01-01. */
  function PrevDay(y: Year, m: Month, d: Day): (p: Option<Civil>)
    requires d <= DaysInMonth(y, m)
    ensures p.None? <==> y == 1 && m == 1 && d == 1
    ensures p.Some? ==> p.value.day <= DaysInMonth(p.value.year, p.value.month)
    ensures p.Some? ==> DayNumber(p.value.year, p.value.month, p.value.day) + 1 == DayNumber(y, m, d)
  {
    if d > 1 then Some(Civil(y, m, d - 1))
    else if m > 1 then Some(Civil(y, m - 1, DaysInMonth(y, m - 1)))
    else if y > 1 then
      DaysBeforeDecember(y - 1);
      Some(Civil(y - 1, 12, 31))
    else None
  }

  /** The minute of the day an aware value's wall clock falls on in UTC, before any carry
      into the previous or next day. */
  function UtcMinuteOfDay(dt: DateTime): int {
    dt.hour * 60 + dt.minute - OffsetOf(dt)
  }

  /** `dt.astimezone(timezone.utc)`: the same instant with offset zero; `None` when the
      instant falls outside the years 1 to 9999 (Python's `OverflowError`). */
  function ToUtc(dt: DateTime): (u: Option<DateTime>)
    requires ValidDate(dt)
    ensures u.Some? ==> && ValidDate(u.value) && u.value.utcOffsetMinutes == Some(0)
                        && Instant(u.value) == Instant(dt)
                        && u.value.second == dt.second && u.value.microsecond == dt.microsecond
    ensures u.None? <==> || (dt.year == 9999 && dt.month == 12 && dt.day == 31 && UtcMinuteOfDay(dt) >= 1440)
                         || (dt.year == 1 && dt.month == 1 && dt.day == 1 && UtcMinuteOfDay(dt) < 0)
  {
    var t := UtcMinuteOfDay(dt);
    if t < 0 then
      match PrevDay(dt.year, dt.month, dt.day)
      case None => None
      case Some(c) => Some(DateTime(c.year, c.month, c.day, (t + 1440) / 60, (t + 1440) % 60,
                                    dt.second, dt.microsecond, Some(0)))
    else if t >= 1440 then
      match NextDay(dt.year, dt.month, dt.day)
      case None => None
      case Some(c) => Some(DateTime(c.year, c.month, c.day, (t - 1440) / 60, (t - 1440) % 60,
                                    dt.second, dt.microsecond, Some(0)))
    else Some(DateTime(dt.year, dt.month, dt.day, t / 60, t % 60, dt.second, dt.microsecond, Some(0)))
  }

  /** `dt.astimezone(timezone.utc).strftime("%Y-%m-%dT%H:%M:%SZ")`. */
  function FormatUtc(dt: DateTime): (r: Option<string>)
    requires ValidDate(dt)
    ensures r.Some? <==> ToUtc(dt).Some?
    ensures r.Some? ==> r.value == FormatIsoDate(ToUtc(dt).value)
  {
    match ToUtc(dt)
    case None => None
    case Some(u) => Some(FormatIsoDate(u))
  }

  /** Corrected: the printed text reads back as the fields of a UTC value that denotes
      exactly the instant of `dt`, whatever offset `dt` carried. */
  lemma CorrectedFormatKeepsInstant(dt: DateTime)
    requires ValidDate(dt)
    requires ToUtc(dt).Some?
    ensures var u := ToUtc(dt).value;
            && FormatUtc(dt) == Some(FormatIsoDate(u))
            && ReadTimestamp(FormatIsoDate(u)) == Some(WallClockOf(u))
            && u.utcOffsetMinutes == Some(0) && Instant(u) == Instant(dt)
  {
    ReadFormatted(ToUtc(dt).value);
  }

  /** Corrected: two dates that denote the same instant print alike, whatever their
      offsets. */
  lemma CorrectedSameInstantSameText(a: DateTime, b: DateTime)
    requires ValidDate(a) && ValidDate(b)
    requires ToUtc(a).Some? && ToUtc(b).Some?
    requires Instant(a) == Instant(b)
    ensures FormatUtc(a) == FormatUtc(b)
  {
    var u, v := ToUtc(a).value, ToUtc(b).value;
    InstantDeterminesUtcFields(u, v);
  }

  /** As written: the text reads back as the wall-clock fields of `dt`. Read as UTC, as its
      `Z` says, it denotes an instant away from `dt`'s by exactly `dt`'s offset. */
  lemma AsWrittenIgnoresOffset(dt: DateTime)
    ensures ReadTimestamp(FormatIsoDate(dt)) == Some(WallClockOf(dt))
    ensures Instant(dt.(utcOffsetMinutes := Some(0))) == Instant(dt) + OffsetOf(dt) * 60
    ensures FormatIsoDate(dt.(utcOffsetMinutes := Some(0))) == FormatIsoDate(dt)
  {
    ReadFormatted(dt);
  }

  /** As written, on one input: 10:00 at UTC+01:00 is 09:00 UTC, yet it prints the same
      text as 10:00 UTC, an instant an hour later. */
  lemma AsWrittenOneHourOff()
    ensures var local := DateTime(2024, 1, 1, 10, 0, 0, 0, Some(60));
            var utc := DateTime(2024, 1, 1, 10, 0, 0, 0, Some(0));
            && FormatIsoDate(local) == FormatIsoDate(utc)
            && Instant(utc) == Instant(local) + 3600
            && ToUtc(local) == Some(DateTime(2024, 1, 1, 9, 0, 0, 0, Some(0)))
  {
  }

  // ---- the day numbering is one to one on valid dates ----

  lemma {:induction false} DaysBeforeMonthBound(y: Year, m: Month)
    ensures DaysBeforeMonth(y, m) + DaysInMonth(y, m) <= YearLength(y)
    decreases 12 - m
  {
    if m < 12 {
      DaysBeforeMonthBound(y, m + 1);
    } else {
      DaysBeforeDecember(y);
    }
  }

  lemma {:induction false} DaysBeforeMonthMonotone(y: Year, m: Month, n: Month)
    requires m < n
    ensures DaysBeforeMonth(y, m) + DaysInMonth(y, m) <= DaysBeforeMonth(y, n)
    decreases n - m
  {
    if m + 1 < n {
      DaysBeforeMonthMonotone(y, m, n - 1);
    }
  }

  lemma {:induction false} DaysBeforeYearMonotone(y: Year, z: Year)
    requires y < z
    ensures DaysBeforeYear(y) + YearLength(y) <= DaysBeforeYear(z)
    decreases z - y
  {
    if y + 1 < z {
      DaysBeforeYearMonotone(y, z - 1);
    }
  }

  lemma DayNumberInjective(a: Civil, b: Civil)
    requires a.day <= DaysInMonth(a.year, a.month) && b.day <= DaysInMonth(b.year, b.month)
    requires DayNumber(a.year, a.month, a.day) == DayNumber(b.year, b.month, b.day)
    ensures a == b
  {
    DaysBeforeMonthBound(a.year, a.month);
    DaysBeforeMonthBound(b.year, b.month);
    if a.year < b.year {
      DaysBeforeYearMonotone(a.year, b.year);
      assert false;
    } else if b.year < a.year {
      DaysBeforeYearMonotone(b.year, a.year);
      assert false;
    } else if a.month < b.month {
      DaysBeforeMonthMonotone(a.year, a.month, b.month);
      assert false;
    } else if b.month < a.month {
      DaysBeforeMonthMonotone(b.year, b.month, a.month);
      assert false;
    }
  }

  /** Two valid UTC values that denote the same instant agree in every printed field. */
  lemma InstantDeterminesUtcFields(u: DateTime, v: DateTime)
    requires ValidDate(u) && ValidDate(v)
    requires u.utcOffsetMinutes == Some(0) && v.utcOffsetMinutes == Some(0)
    requires Instant(u) == Instant(v)
    ensures WallClockOf(u) == WallClockOf(v)
  {
    var du := DayNumber(u.year, u.month, u.day);
    var dv := DayNumber(v.year, v.month, v.day);
    var su := (u.hour * 60 + u.minute) * 60 + u.second;
    var sv := (v.hour * 60 + v.minute) * 60 + v.second;
    assert Instant(u) == du * 86400 + su;
    assert Instant(v) == dv * 86400 + sv;
    assert 0 <= su < 86400 && 0 <= sv < 86400;
    assert du == dv && su == sv;
    DayNumberInjective(Civil(u.year, u.month, u.day), Civil(v.year, v.month, v.day));
  }
}
