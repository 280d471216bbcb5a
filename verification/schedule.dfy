/** The schedule records and the two lookups the bot makes on them: the
    record for a day of the current month, and the nearest record that has
    not started yet. */
module Schedule {
  import opened Wrappers
  import opened Clock

  /** One scheduled meeting: its date, its start minute and its Teams link
      ("" while not set). */
  datatype Entry = Entry(date: Date, time: Time, url: string)

  /** The record's "date time" text parses as a calendar date and a 24-hour
      time; a parse of anything else raises. */
  predicate Parses(e: Entry) {
    ValidDate(e.date) && ValidTime(e.time)
  }

  /** The record's start, a whole minute, is at or after the clock reading. */
  predicate IsFuture(e: Entry, now: Moment) {
    Before(now.date, now.time, e.date, e.time)
    || (e.date == now.date && e.time == now.time && now.micros == 0)
  }

  /** `a` starts strictly before `b`. */
  predicate Earlier(a: Entry, b: Entry) {
    Before(a.date, a.time, b.date, b.time)
  }

  predicate HasDate(es: seq<Entry>, d: Date) {
    exists k :: 0 <= k < |es| && es[k].date == d
  }

  /** `i` is the position of the first record dated `d`. */
  predicate IsFirstWithDate(es: seq<Entry>, i: int, d: Date) {
    0 <= i < |es| && es[i].date == d && forall k :: 0 <= k < i ==> es[k].date != d
  }

  /** Position of the first record dated `d`, if any. */
  function FindDate(es: seq<Entry>, d: Date): (r: Option<nat>)
    ensures r.None? <==> !HasDate(es, d)
    ensures r.Some? ==> IsFirstWithDate(es, r.value, d)
  {
    if es == [] then None
    else if es[0].date == d then Some(0)
    else match FindDate(es[1..], d)
      case None => None
      case Some(i) => Some(i + 1)
  }

  /** `i` is the record a stable sort of the future records by start would
      put first: it is in the future, no future record starts earlier, and
      every future record before it in the list starts strictly later. */
  predicate IsNearest(es: seq<Entry>, i: int, now: Moment) {
    && 0 <= i < |es|
    && IsFuture(es[i], now)
    && (forall k :: 0 <= k < |es| && IsFuture(es[k], now) ==> !Earlier(es[k], es[i]))
    && (forall k :: 0 <= k < i && IsFuture(es[k], now) ==> Earlier(es[i], es[k]))
  }

  /** The nearest future record among the first `n`. */
  function NearestAmong(es: seq<Entry>, now: Moment, n: nat): (r: Option<nat>)
    requires n <= |es|
    ensures r.None? <==> forall k :: 0 <= k < n ==> !IsFuture(es[k], now)
    ensures r.Some? ==> IsNearest(es[..n], r.value, now)
  {
    if n == 0 then None
    else
      var best := NearestAmong(es, now, n - 1);
      assert es[..n][..n - 1] == es[..n - 1];
      if !IsFuture(es[n - 1], now) then best
      else if best.None? || Earlier(es[n - 1], es[best.value]) then Some(n - 1)
      else best
  }

  /** Outcome of looking up the next meeting: a record that does not parse
      makes the lookup raise; otherwise there is a nearest future record or
      there is none. */
  datatype Selection = Unparsable | NoFuture | Nearest(index: nat)

  function NearestFuture(es: seq<Entry>, now: Moment): (r: Selection)
    ensures r.Unparsable? <==> exists k :: 0 <= k < |es| && !Parses(es[k])
    ensures r.NoFuture? <==>
      (forall k :: 0 <= k < |es| ==> Parses(es[k])) && (forall k :: 0 <= k < |es| ==> !IsFuture(es[k], now))
    ensures r.Nearest? ==> IsNearest(es, r.index, now)
  {
    if exists k :: 0 <= k < |es| && !Parses(es[k]) then Unparsable
    else
      assert es[..|es|] == es;
      match NearestAmong(es, now, |es|)
      case None => NoFuture
      case Some(i) => Nearest(i)
  }

  /** At most one position is the nearest future record. */
  lemma NearestUnique(es: seq<Entry>, i: int, j: int, now: Moment)
    requires IsNearest(es, i, now) && IsNearest(es, j, now)
    ensures i == j
  {
  }

  /** Two lists that differ at most in their links. */
  predicate SameSlots(a: seq<Entry>, b: seq<Entry>) {
    |a| == |b| && forall k :: 0 <= k < |a| ==> a[k].date == b[k].date && a[k].time == b[k].time
  }

  /** Choosing the next meeting looks only at dates and times, so setting a
      link never changes which record is chosen next. */
  lemma {:induction false} NearestIgnoresUrls(a: seq<Entry>, b: seq<Entry>, now: Moment)
    requires SameSlots(a, b)
    ensures NearestFuture(a, now) == NearestFuture(b, now)
  {
    assert forall k :: 0 <= k < |a| ==> (Parses(a[k]) <==> Parses(b[k]));
    assert forall k :: 0 <= k < |a| ==> (IsFuture(a[k], now) <==> IsFuture(b[k], now));
    assert forall k, m :: 0 <= k < |a| && 0 <= m < |a| ==> (Earlier(a[k], a[m]) <==> Earlier(b[k], b[m]));
    var ra, rb := NearestFuture(a, now), NearestFuture(b, now);
    if ra.Nearest? {
      assert IsNearest(b, ra.index, now);
      NearestUnique(b, ra.index, rb.index, now);
    }
  }

  // ---------------------------------------------------------------------
  // Day-of-month commands: "DD" of the current month and year.
  // ---------------------------------------------------------------------

  /** One or two ASCII digits, as the command patterns capture a day. */
  predicate IsDayString(s: string) {
    1 <= |s| <= 2 && forall k :: 0 <= k < |s| ==> IsAsciiDigit(s[k])
  }

  lemma DigitRoundTrip(c: char)
    requires IsAsciiDigit(c)
    ensures DigitChar(DigitValue(c)) == c
  {
  }

  /** `int(day_str)`; formatting it back with "%02d" gives the digits,
      zero-padded to two. */
  function DayNumber(s: string): (n: int)
    requires IsDayString(s)
    ensures 0 <= n < 100
    ensures Pad2(n) == if |s| == 2 then s else ['0'] + s
  {
    DigitRoundTrip(s[0]);
    DigitRoundTrip(s[|s| - 1]);
    if |s| == 1 then DigitValue(s[0]) else 10 * DigitValue(s[0]) + DigitValue(s[1])
  }

  /** The date a day command refers to: that day of today's month and year. */
  function TargetDate(today: Date, dayStr: string): (d: Date)
    requires IsDayString(dayStr)
    ensures d.year == today.year && d.month == today.month && 0 <= d.day < 100
    ensures Pad2(d.day) == if |dayStr| == 2 then dayStr else ['0'] + dayStr
  {
    Date(today.year, today.month, DayNumber(dayStr))
  }

  /** "5" and "05" name the same day. */
  lemma LeadingZeroSameDay(today: Date, c: char)
    requires IsAsciiDigit(c)
    ensures TargetDate(today, [c]) == TargetDate(today, ['0', c])
  {
    var a, b := TargetDate(today, [c]), TargetDate(today, ['0', c]);
    assert Pad2(a.day) == ['0', c] == Pad2(b.day);
    Pad2Injective(a.day, b.day);
  }

  /** Some record dated `today` still has no link. */
  predicate HasMissingUrl(es: seq<Entry>, today: Date) {
    exists k :: 0 <= k < |es| && es[k].date == today && es[k].url == ""
  }
}
