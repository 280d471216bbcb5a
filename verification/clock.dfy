/** Calendar dates, wall-clock minutes and readings of the clock, ordered the
    way the scheduler compares them, and the "YYYY-MM-DD HH:MM" text the
    schedule records and the clock are rendered to. */
module Clock {

  /** A calendar date as its three numbers. */
  datatype Date = Date(year: int, month: int, day: int)

  /** A time of day at minute resolution. */
  datatype Time = Time(hour: int, minute: int)

  /** One reading of the wall clock: the minute it falls in, plus the
      microseconds elapsed since the start of that minute. */
  datatype Moment = Moment(date: Date, time: Time, micros: int)

  const MicrosPerSecond := 1_000_000
  const MicrosPerMinute := 60_000_000

  predicate IsLeapYear(y: int) {
    y % 4 == 0 && (y % 100 != 0 || y % 400 == 0)
  }

  function DaysInMonth(y: int, m: int): (n: int)
    requires 1 <= m <= 12
    ensures 28 <= n <= 31
    ensures n == 29 <==> m == 2 && IsLeapYear(y)
  {
    if m == 2 then (if IsLeapYear(y) then 29 else 28)
    else if m == 4 || m == 6 || m == 9 || m == 11 then 30
    else 31
  }

  /** A date the calendar has (what a date parser accepts). */
  predicate ValidDate(d: Date) {
    1 <= d.year <= 9999 && 1 <= d.month <= 12 && 1 <= d.day <= DaysInMonth(d.year, d.month)
  }

  /** A time on the 24-hour clock (what an "%H:%M" parser accepts). */
  predicate ValidTime(t: Time) {
    0 <= t.hour < 24 && 0 <= t.minute < 60
  }

  predicate ValidMoment(m: Moment) {
    ValidDate(m.date) && ValidTime(m.time) && 0 <= m.micros < MicrosPerMinute
  }

  /** Strict chronological order of dates. */
  predicate DateBefore(a: Date, b: Date) {
    a.year < b.year
    || (a.year == b.year && (a.month < b.month || (a.month == b.month && a.day < b.day)))
  }

  /** Strict chronological order of times of day. */
  predicate TimeBefore(a: Time, b: Time) {
    a.hour < b.hour || (a.hour == b.hour && a.minute < b.minute)
  }

  /** Strict chronological order of (date, minute) pairs. */
  predicate Before(d1: Date, t1: Time, d2: Date, t2: Time) {
    DateBefore(d1, d2) || (d1 == d2 && TimeBefore(t1, t2))
  }

  /** Chronological order of clock readings. */
  predicate MomentAtMost(a: Moment, b: Moment) {
    Before(a.date, a.time, b.date, b.time)
    || (a.date == b.date && a.time == b.time && a.micros <= b.micros)
  }

  /** Microseconds since midnight of the reading's own day. */
  function DayMicros(m: Moment): int {
    (m.time.hour * 60 + m.time.minute) * MicrosPerMinute + m.micros
  }

  lemma BeforeIsStrictTotalOrder(d1: Date, t1: Time, d2: Date, t2: Time, d3: Date, t3: Time)
    ensures !Before(d1, t1, d1, t1)
    ensures Before(d1, t1, d2, t2) ==> !Before(d2, t2, d1, t1)
    ensures Before(d1, t1, d2, t2) && Before(d2, t2, d3, t3) ==> Before(d1, t1, d3, t3)
    ensures Before(d1, t1, d2, t2) || Before(d2, t2, d1, t1) || (d1 == d2 && t1 == t2)
  {
  }

  // ---------------------------------------------------------------------
  // Text rendering: the schedule keeps "YYYY-MM-DD" and "HH:MM" strings and
  // the runner compares them with the clock's "%Y-%m-%d %H:%M" rendering.
  // ---------------------------------------------------------------------

  predicate IsAsciiDigit(c: char) {
    '0' <= c <= '9'
  }

  function DigitChar(n: int): (c: char)
    requires 0 <= n < 10
    ensures IsAsciiDigit(c) && DigitValue(c) == n
  {
    ('0' as int + n) as char
  }

  function DigitValue(c: char): (n: int)
    requires IsAsciiDigit(c)
    ensures 0 <= n < 10
  {
    c as int - '0' as int
  }

  /** Two-digit zero-padded decimal, as "%02d" renders 0..99. */
  function Pad2(n: int): (s: string)
    requires 0 <= n < 100
    ensures |s| == 2
  {
    [DigitChar(n / 10), DigitChar(n % 10)]
  }

  /** Four-digit decimal of a year 1000..9999 (both "%Y" and str(year)). */
  function Year4(y: int): (s: string)
    requires 1000 <= y < 10000
    ensures |s| == 4
  {
    Pad2(y / 100) + Pad2(y % 100)
  }

  /** The field ranges in which the textual rendering is defined. */
  predicate Renderable(d: Date, t: Time) {
    1000 <= d.year < 10000 && 0 <= d.month < 100 && 0 <= d.day < 100
    && 0 <= t.hour < 100 && 0 <= t.minute < 100
  }

  /** "YYYY-MM-DD HH:MM" */
  function Stamp(d: Date, t: Time): (s: string)
    requires Renderable(d, t)
    ensures |s| == 16
  {
    Year4(d.year) + "-" + Pad2(d.month) + "-" + Pad2(d.day) + " " + Pad2(t.hour) + ":" + Pad2(t.minute)
  }

  lemma Pad2Injective(a: int, b: int)
    requires 0 <= a < 100 && 0 <= b < 100
    ensures Pad2(a) == Pad2(b) <==> a == b
  {
    if Pad2(a) == Pad2(b) {
      assert DigitValue(Pad2(a)[0]) == DigitValue(Pad2(b)[0]);
      assert DigitValue(Pad2(a)[1]) == DigitValue(Pad2(b)[1]);
    }
  }

  lemma Year4Injective(a: int, b: int)
    requires 1000 <= a < 10000 && 1000 <= b < 10000
    ensures Year4(a) == Year4(b) <==> a == b
  {
    if Year4(a) == Year4(b) {
      assert Year4(a)[..2] == Pad2(a / 100) && Year4(b)[..2] == Pad2(b / 100);
      assert Year4(a)[2..] == Pad2(a % 100) && Year4(b)[2..] == Pad2(b % 100);
      Pad2Injective(a / 100, b / 100);
      Pad2Injective(a % 100, b % 100);
    }
  }

  /** Two records' minute strings are equal exactly when their dates and
      times are: comparing the rendered text is comparing the numbers. */
  lemma {:induction false} StampInjective(d1: Date, t1: Time, d2: Date, t2: Time)
    requires Renderable(d1, t1) && Renderable(d2, t2)
    ensures Stamp(d1, t1) == Stamp(d2, t2) <==> d1 == d2 && t1 == t2
  {
    var s1, s2 := Stamp(d1, t1), Stamp(d2, t2);
    if s1 == s2 {
      assert s1[0..4] == Year4(d1.year) && s2[0..4] == Year4(d2.year);
      assert s1[5..7] == Pad2(d1.month) && s2[5..7] == Pad2(d2.month);
      assert s1[8..10] == Pad2(d1.day) && s2[8..10] == Pad2(d2.day);
      assert s1[11..13] == Pad2(t1.hour) && s2[11..13] == Pad2(t2.hour);
      assert s1[14..16] == Pad2(t1.minute) && s2[14..16] == Pad2(t2.minute);
      Year4Injective(d1.year, d2.year);
      Pad2Injective(d1.month, d2.month);
      Pad2Injective(d1.day, d2.day);
      Pad2Injective(t1.hour, t2.hour);
      Pad2Injective(t1.minute, t2.minute);
    }
  }
}
