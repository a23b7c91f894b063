/** The wall clock (`DateTime.Now`) and the hour-of-day conversion of the
    `ClockService`. The clock itself is an input: every reading is a
    `DateTime` value handed to the model. */
module Clock {

  /** A local date and time with millisecond resolution. */
  datatype DateTime = DateTime(
    year: int, month: int, day: int,
    hour: int, minute: int, second: int, millisecond: int)

  predicate IsLeapYear(year: int) {
    year % 4 == 0 && (year % 100 != 0 || year % 400 == 0)
  }

  function DaysInMonth(year: int, month: int): int {
    if month == 2 then (if IsLeapYear(year) then 29 else 28)
    else if month == 4 || month == 6 || month == 9 || month == 11 then 30
    else 31
  }

  /** The values a `System.DateTime` can hold. */
  predicate ValidDateTime(t: DateTime) {
    1 <= t.year <= 9999 && 1 <= t.month <= 12 && 1 <= t.day <= DaysInMonth(t.year, t.month) &&
    0 <= t.hour < 24 && 0 <= t.minute < 60 && 0 <= t.second < 60 && 0 <= t.millisecond < 1000
  }

  /** Whole seconds since midnight. */
  function SecondOfDay(t: DateTime): int {
    t.hour * 3600 + t.minute * 60 + t.second
  }

  /** `HourOfDay`: the hour, minute and second of the reading as a
      fractional number of hours; the date and the milliseconds do not
      take part. */
  function HourOfDay(t: DateTime): (h: real)
    ensures h * 3600.0 == SecondOfDay(t) as real
  {
    t.hour as real + t.minute as real / 60.0 + t.second as real / 3600.0
  }

  lemma HourOfDayInRange(t: DateTime)
    requires ValidDateTime(t)
    ensures 0.0 <= HourOfDay(t) < 24.0
  {
    assert 0 <= SecondOfDay(t) < 86400;
  }

  lemma HourOfDayOnTheHour(t: DateTime)
    requires t.minute == 0 && t.second == 0
    ensures HourOfDay(t) == t.hour as real
  {
  }

  /** Two readings within the same second of the day convert alike. */
  lemma HourOfDayIgnoresSubseconds(a: DateTime, b: DateTime)
    requires a.hour == b.hour && a.minute == b.minute && a.second == b.second
    ensures HourOfDay(a) == HourOfDay(b)
  {
  }

  /** Lexicographic order of (hour, minute, second). */
  predicate EarlierInDay(a: DateTime, b: DateTime) {
    a.hour < b.hour ||
    (a.hour == b.hour && a.minute < b.minute) ||
    (a.hour == b.hour && a.minute == b.minute && a.second < b.second)
  }

  /** Within a day the conversion is strictly increasing. */
  lemma HourOfDayIncreasing(a: DateTime, b: DateTime)
    requires ValidDateTime(a) && ValidDateTime(b)
    requires EarlierInDay(a, b)
    ensures HourOfDay(a) < HourOfDay(b)
  {
    assert SecondOfDay(a) < SecondOfDay(b);
  }

  /** The clock fields can be read back from the second of the day. */
  lemma SecondOfDayFields(t: DateTime)
    requires ValidDateTime(t)
    ensures t.hour == SecondOfDay(t) / 3600
    ensures t.minute == SecondOfDay(t) % 3600 / 60
    ensures t.second == SecondOfDay(t) % 60
  {
    var s := SecondOfDay(t);
    var rest := t.minute * 60 + t.second;
    assert 0 <= rest < 3600;
    assert s == t.hour * 3600 + rest;
    assert s / 3600 == t.hour && s % 3600 == rest;
    assert rest / 60 == t.minute;
    assert s == (t.hour * 60 + t.minute) * 60 + t.second;
  }

  /** Valid readings that convert to the same hour of day agree on hour,
      minute and second. */
  lemma HourOfDayDeterminesTime(a: DateTime, b: DateTime)
    requires ValidDateTime(a) && ValidDateTime(b)
    requires HourOfDay(a) == HourOfDay(b)
    ensures a.hour == b.hour && a.minute == b.minute && a.second == b.second
  {
    assert SecondOfDay(a) == SecondOfDay(b);
    SecondOfDayFields(a);
    SecondOfDayFields(b);
  }
}
